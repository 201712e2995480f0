/** The generator's methods emit exactly the code `StatementCode` defines:
    for every statement, the state its `Steps` function leaves is the old
    code followed by the statement's code, the label counter where the
    statement's labels end, and the stack drops added up.

    The small lemmas named `...Shape`, `...Split`, `...Parts` and
    `...Assemble`, many with empty bodies, each unfold one closed form or
    one method's steps into its pieces; calling them keeps each agreement
    proof to a few facts the solver would otherwise have to find itself. */
module Layout {
  import opened Common
  import opened Jvm
  import opened StatementCode
  import opened Generator

  /** A state followed by the code `g` emitted from its label counter. */
  function After(st: Gen, g: Gen): Gen
  {
    Gen(st.code + g.code, g.next, st.drop + g.drop)
  }

  lemma AfterAfter(st: Gen, g0: Gen, g1: Gen)
    ensures After(After(st, g0), g1) == After(st, Gen(g0.code + g1.code, g1.next, g0.drop + g1.drop))
  {
    assert (st.code + g0.code) + g1.code == st.code + (g0.code + g1.code);
  }

  /** Emitting a statement with the generator appends the statement's code. */
  lemma {:induction false} StmtAgrees(s: Stmt, cfg: Config, st: Gen)
    ensures StmtSteps(s, cfg, st) == After(st, StmtCode(s, cfg, st.next))
    decreases s, 2
  {
    match s
    case Compound(ss) => ListAgrees(ss, cfg, st);
    case Assign(v, e) => AssignAgrees(v, e, st);
    case If(c, t, e) =>
      if !cfg.homework {
        IfAgrees(c, t, e, cfg, st);
      }
    case Case(d, bs, es, order) =>
      if !cfg.homework {
        CaseAgrees(d, bs, es, order, cfg, st);
      }
    case Repeat(ss, c) => RepeatAgrees(ss, c, cfg, st);
    case While(c, b) =>
      if !cfg.homework {
        WhileAgrees(c, b, cfg, st);
      }
    case For(v, init, downTo, bound, b) =>
      if !cfg.homework {
        ForAgrees(v, init, downTo, bound, b, cfg, st);
      }
    case ProcedureCall(r, args) =>
      if !cfg.homework {
        CallAgrees(r, args, cfg.programName, st);
      }
    case Write(args, nl) => WriteAgrees(args, nl, cfg.convertString, st);
    case Read(vs, skip) =>
    case Empty =>
  }

  lemma {:induction false} ListAgrees(ss: seq<Stmt>, cfg: Config, st: Gen)
    ensures ListSteps(ss, cfg, st) == After(st, ListCode(ss, cfg, st.next))
    decreases ss, 2
  {
    if ss != [] {
      var init := ss[..|ss| - 1];
      ListAgrees(init, cfg, st);
      var g0 := ListCode(init, cfg, st.next);
      StmtAgrees(ss[|ss| - 1], cfg, After(st, g0));
      AfterAfter(st, g0, StmtCode(ss[|ss| - 1], cfg, g0.next));
    }
  }

  lemma AssignAgrees(v: Variable, e: Expr, st: Gen)
    ensures AssignSteps(v, e, st) == After(st, AssignCode(v, e, st.next))
  {
    var gv := if |v.modifiers| > 0 then Visit(v.visit, st.next) else Gen([], st.next, 0);
    var ge := Visit(e.visit, gv.next);
    var w: seq<Instr> := if Widens(v.varType, e.exprType) then [Op(I2F)] else [];
    assert st.code + (gv.code + ge.code + w + [StoreFor(v)]) == st.code + gv.code + ge.code + w + [StoreFor(v)];
  }

  lemma {:induction false} IfAgrees(c: Expr, t: Stmt, e: Option<Stmt>, cfg: Config, st: Gen)
    ensures IfSteps(c, t, e, cfg, st) == After(st, IfCode(c, t, e, cfg, st.next))
    decreases If(c, t, e), 1
  {
    if e.Some? {
      IfElseAgrees(c, t, e.value, cfg, st);
    } else {
      StmtAgrees(t, cfg, Put(VisitStep(c.visit, Mint(st)), Jump(IFEQ, st.next)));
      IfThenAssemble(c, t, cfg, st);
    }
  }

  /** The if-then code from its branch's. */
  lemma IfThenAssemble(c: Expr, t: Stmt, cfg: Config, st: Gen)
    requires var u := Put(VisitStep(c.visit, Mint(st)), Jump(IFEQ, st.next));
             StmtSteps(t, cfg, u) == After(u, StmtCode(t, cfg, u.next))
    ensures IfSteps(c, t, None, cfg, st) == After(st, IfCode(c, t, None, cfg, st.next))
  {
    var s1 := VisitStep(c.visit, Mint(st));
    var gc := Visit(c.visit, st.next + 1);
    VisitAfter(c.visit, Mint(st));
    IfShape(st, s1, gc, StmtCode(t, cfg, gc.next), StmtSteps(t, cfg, Put(s1, Jump(IFEQ, st.next))));
  }

  lemma {:induction false} IfElseAgrees(c: Expr, t: Stmt, e: Stmt, cfg: Config, st: Gen)
    ensures IfElseSteps(c, t, e, cfg, st) == After(st, IfElseCode(c, t, e, cfg, st.next))
    decreases If(c, t, Some(e)), 0
  {
    IfElseHeadAgrees(c, t, cfg, st);
    StmtAgrees(e, cfg, IfElseHeadSteps(c, t, cfg, st));
    IfElseAssemble(c, t, e, cfg, st);
  }

  /** The if-else code from its head's and its else part's. */
  lemma IfElseAssemble(c: Expr, t: Stmt, e: Stmt, cfg: Config, st: Gen)
    requires IfElseHeadSteps(c, t, cfg, st) == After(st, IfElseHead(c, t, cfg, st.next))
    requires var s1 := IfElseHeadSteps(c, t, cfg, st);
             StmtSteps(e, cfg, s1) == After(s1, StmtCode(e, cfg, s1.next))
    ensures IfElseSteps(c, t, e, cfg, st) == After(st, IfElseCode(c, t, e, cfg, st.next))
  {
    var head := IfElseHead(c, t, cfg, st.next);
    var s1 := IfElseHeadSteps(c, t, cfg, st);
    Enclose2(st, head, StmtCode(e, cfg, s1.next), StmtSteps(e, cfg, s1), Place(st.next), IfElseCode(c, t, e, cfg, st.next));
  }

  /** Code `g0`, then code `g1`, then one instruction twice. */
  lemma Enclose2(st: Gen, g0: Gen, g1: Gen, s2: Gen, q: Instr, g: Gen)
    requires s2 == After(After(st, g0), g1)
    requires g == Gen(g0.code + g1.code + [q, q], g1.next, g0.drop + g1.drop)
    ensures Put(Put(s2, q), q) == After(st, g)
  {
    assert st.code + (g0.code + g1.code + [q, q]) == st.code + g0.code + g1.code + [q] + [q];
  }

  lemma {:induction false} IfElseHeadAgrees(c: Expr, t: Stmt, cfg: Config, st: Gen)
    ensures IfElseHeadSteps(c, t, cfg, st) == After(st, IfElseHead(c, t, cfg, st.next))
    decreases t, 3
  {
    var s1 := VisitStep(c.visit, Mint(st));
    StmtAgrees(t, cfg, Put(Mint(s1), Jump(IFEQ, s1.next)));
    IfElseHeadAssemble(c, t, cfg, st);
  }

  /** The if-else head from its then part's code. */
  lemma IfElseHeadAssemble(c: Expr, t: Stmt, cfg: Config, st: Gen)
    requires var s1 := VisitStep(c.visit, Mint(st));
             var u := Put(Mint(s1), Jump(IFEQ, s1.next));
             StmtSteps(t, cfg, u) == After(u, StmtCode(t, cfg, u.next))
    ensures IfElseHeadSteps(c, t, cfg, st) == After(st, IfElseHead(c, t, cfg, st.next))
  {
    var s1 := VisitStep(c.visit, Mint(st));
    var gc := Visit(c.visit, st.next + 1);
    VisitAfter(c.visit, Mint(st));
    IfElseHeadShape(st, s1, gc, StmtCode(t, cfg, gc.next + 1), StmtSteps(t, cfg, Put(Mint(s1), Jump(IFEQ, s1.next))),
                    IfElseHead(c, t, cfg, st.next));
  }

  /** Visiting a fragment appends its code from the current label counter. */
  lemma VisitAfter(f: Fragment, st: Gen)
    ensures VisitStep(f, st) == After(st, Visit(f, st.next))
  {
  }

  lemma IfShape(st: Gen, s1: Gen, gc: Gen, gt: Gen, s2: Gen)
    requires gc.drop == 0 && s1 == After(Mint(st), gc)
    requires s2 == After(Put(s1, Jump(IFEQ, st.next)), gt)
    ensures Put(s2, Place(st.next))
         == After(st, Gen(gc.code + [Jump(IFEQ, st.next)] + gt.code + [Place(st.next)], gt.next, gt.drop))
  {
    assert st.code + (gc.code + [Jump(IFEQ, st.next)] + gt.code + [Place(st.next)])
        == st.code + gc.code + [Jump(IFEQ, st.next)] + gt.code + [Place(st.next)];
  }

  lemma IfElseHeadShape(st: Gen, s1: Gen, gc: Gen, gt: Gen, s2: Gen, g: Gen)
    requires gc.drop == 0 && s1 == After(Mint(st), gc)
    requires s2 == After(Put(Mint(s1), Jump(IFEQ, s1.next)), gt)
    requires g == Gen(gc.code + [Jump(IFEQ, gc.next)] + gt.code + [Jump(GOTO, st.next), Place(gc.next)], gt.next, gt.drop)
    ensures Put(Put(s2, Jump(GOTO, st.next)), Place(s1.next)) == After(st, g)
  {
    var n, f := st.next, gc.next;
    assert st.code + (gc.code + [Jump(IFEQ, f)] + gt.code + [Jump(GOTO, n), Place(f)])
        == st.code + gc.code + [Jump(IFEQ, f)] + gt.code + [Jump(GOTO, n)] + [Place(f)];
  }

  lemma {:induction false} CaseAgrees(d: Expr, bs: seq<Stmt>, es: seq<CaseEntry>, order: seq<nat>, cfg: Config, st: Gen)
    ensures CaseSteps(d, bs, es, order, cfg, st) == After(st, CaseCode(d, bs, es, order, cfg, st.next))
    decreases Case(d, bs, es, order), 0
  {
    var labels := BranchLabels(es, st.next + d.visit.width);
    CaseHeadAgrees(d, es, cfg, st);
    var s1 := CaseHeadSteps(d, es, cfg, st);
    var head := CaseHead(d, es, cfg.hash, st.next);
    var dflt := head.next - 1;
    CaseStepsSplit(d, bs, es, order, cfg, st, labels, dflt);
    CaseCodeSplit(d, bs, es, order, cfg, st.next, labels, head);
    CaseBodiesAgrees(bs, order, labels, dflt, cfg, s1);
    Enclose(st, head, CaseBodies(bs, order, labels, dflt, cfg, head.next),
            CaseBodySteps(bs, order, labels, dflt, cfg, s1), Place(dflt),
            CaseCode(d, bs, es, order, cfg, st.next));
  }

  /** Code `g0` with no stack effect, then code `g1`, then one instruction. */
  lemma Enclose(st: Gen, g0: Gen, g1: Gen, s2: Gen, q: Instr, g: Gen)
    requires g0.drop == 0
    requires s2 == After(After(st, g0), g1)
    requires g == Gen(g0.code + g1.code + [q], g1.next, g1.drop)
    ensures Put(s2, q) == After(st, g)
  {
    assert st.code + (g0.code + g1.code + [q]) == st.code + g0.code + g1.code + [q];
  }

  lemma CaseHeadAgrees(d: Expr, es: seq<CaseEntry>, cfg: Config, st: Gen)
    ensures CaseHeadSteps(d, es, cfg, st) == After(st, CaseHead(d, es, cfg.hash, st.next))
  {
    var gd := Visit(d.visit, st.next);
    var m := gd.next;
    var hash: seq<Instr> := if StringKeys(es) then [HashCode] else [];
    var s3 := SelectorSteps(d, StringKeys(es), st);
    assert s3.code == st.code + gd.code + hash + [Op(LOOKUPSWITCH)] && s3.next == m;
    Concat6(st.code, gd.code, hash, [Op(LOOKUPSWITCH)], JumpTable(es, cfg.hash, m), [SwitchDefault(m + |BranchLabels(es, m)|)]);
  }

  lemma Concat6<T>(a: seq<T>, b: seq<T>, c: seq<T>, d: seq<T>, e: seq<T>, f: seq<T>)
    ensures a + (b + c + d + e + f) == a + b + c + d + e + f
  {
  }

  lemma {:induction false} CaseBodiesAgrees(bs: seq<Stmt>, order: seq<nat>, labels: map<nat, Label>, exit: Label, cfg: Config, st: Gen)
    ensures CaseBodySteps(bs, order, labels, exit, cfg, st) == After(st, CaseBodies(bs, order, labels, exit, cfg, st.next))
    decreases bs, 0, |order|
  {
    if order != [] {
      var init := order[..|order| - 1];
      CaseBodiesAgrees(bs, init, labels, exit, cfg, st);
      var g0 := CaseBodies(bs, init, labels, exit, cfg, st.next);
      var j := order[|order| - 1];
      if j < |bs| && j in labels {
        var u := Put(After(st, g0), Place(labels[j]));
        StmtAgrees(bs[j], cfg, u);
        Between(st, g0, Place(labels[j]), StmtCode(bs[j], cfg, g0.next), Jump(GOTO, exit));
      }
    }
  }

  /** Code `g0`, one instruction, code `g1` and one more instruction, laid
      after `st` one piece at a time or all at once. */
  lemma Between(st: Gen, g0: Gen, p: Instr, g1: Gen, q: Instr)
    ensures Put(After(Put(After(st, g0), p), g1), q)
         == After(st, Gen(g0.code + [p] + g1.code + [q], g1.next, g0.drop + g1.drop))
  {
    assert st.code + (g0.code + [p] + g1.code + [q]) == st.code + g0.code + [p] + g1.code + [q];
  }

  lemma {:induction false} RepeatAgrees(ss: seq<Stmt>, c: Expr, cfg: Config, st: Gen)
    ensures RepeatSteps(ss, c, cfg, st) == After(st, RepeatCode(ss, c, cfg, st.next))
    decreases Repeat(ss, c), 0
  {
    var u := Put(Mint(Mint(st)), Place(st.next));
    ListAgrees(ss, cfg, u);
    var gb := ListCode(ss, cfg, st.next + 2);
    var s1 := ListSteps(ss, cfg, u);
    VisitAfter(c.visit, s1);
    RepeatShape(st, gb, Visit(c.visit, gb.next), s1);
  }

  lemma RepeatShape(st: Gen, gb: Gen, gc: Gen, s1: Gen)
    requires gc.drop == 0
    requires s1 == After(Put(Mint(Mint(st)), Place(st.next)), gb)
    ensures Put(Put(Put(After(s1, gc), Jump(IFNE, st.next + 1)), Jump(GOTO, st.next)), Place(st.next + 1))
         == After(st, Gen([Place(st.next)] + gb.code + gc.code + [Jump(IFNE, st.next + 1), Jump(GOTO, st.next), Place(st.next + 1)],
                          gc.next, gb.drop))
  {
    var n := st.next;
    assert st.code + ([Place(n)] + gb.code + gc.code + [Jump(IFNE, n + 1), Jump(GOTO, n), Place(n + 1)])
        == st.code + [Place(n)] + gb.code + gc.code + [Jump(IFNE, n + 1)] + [Jump(GOTO, n)] + [Place(n + 1)];
  }

  lemma {:induction false} WhileAgrees(c: Expr, b: Stmt, cfg: Config, st: Gen)
    ensures WhileSteps(c, b, cfg, st) == After(st, WhileCode(c, b, cfg, st.next))
    decreases While(c, b), 0
  {
    StmtAgrees(b, cfg, Put(VisitStep(c.visit, Put(Mint(Mint(st)), Place(st.next))), Jump(IFEQ, st.next + 1)));
    WhileAssemble(c, b, cfg, st);
  }

  /** The while loop's code from its body's. */
  lemma WhileAssemble(c: Expr, b: Stmt, cfg: Config, st: Gen)
    requires var u := Put(VisitStep(c.visit, Put(Mint(Mint(st)), Place(st.next))), Jump(IFEQ, st.next + 1));
             StmtSteps(b, cfg, u) == After(u, StmtCode(b, cfg, u.next))
    ensures WhileSteps(c, b, cfg, st) == After(st, WhileCode(c, b, cfg, st.next))
  {
    var u0 := Put(Mint(Mint(st)), Place(st.next));
    var s1 := VisitStep(c.visit, u0);
    var gc := Visit(c.visit, st.next + 2);
    var u := Put(s1, Jump(IFEQ, st.next + 1));
    var gb := StmtCode(b, cfg, gc.next);
    var s2 := StmtSteps(b, cfg, u);
    var g := WhileCode(c, b, cfg, st.next);
    VisitAfter(c.visit, u0);
    assert u0.next == st.next + 2 && u.next == gc.next;
    WhileCodeParts(c, b, cfg, st.next, gc, gb, g);
    WhileShape(st, s1, gc, gb, s2, g);
  }

  lemma WhileCodeParts(c: Expr, b: Stmt, cfg: Config, n: nat, gc: Gen, gb: Gen, g: Gen)
    requires gc == Visit(c.visit, n + 2) && gb == StmtCode(b, cfg, gc.next) && g == WhileCode(c, b, cfg, n)
    ensures g == Gen([Place(n)] + gc.code + [Jump(IFEQ, n + 1)] + gb.code + [Jump(GOTO, n), Place(n + 1)], gb.next, gb.drop)
  {
  }

  lemma WhileShape(st: Gen, s1: Gen, gc: Gen, gb: Gen, s2: Gen, g: Gen)
    requires gc.drop == 0 && s1 == After(Put(Mint(Mint(st)), Place(st.next)), gc)
    requires s2 == After(Put(s1, Jump(IFEQ, st.next + 1)), gb)
    requires g == Gen([Place(st.next)] + gc.code + [Jump(IFEQ, st.next + 1)] + gb.code + [Jump(GOTO, st.next), Place(st.next + 1)],
                      gb.next, gb.drop)
    ensures Put(Put(s2, Jump(GOTO, st.next)), Place(st.next + 1)) == After(st, g)
  {
    var n := st.next;
    assert st.code + ([Place(n)] + gc.code + [Jump(IFEQ, n + 1)] + gb.code + [Jump(GOTO, n), Place(n + 1)])
        == st.code + [Place(n)] + gc.code + [Jump(IFEQ, n + 1)] + gb.code + [Jump(GOTO, n)] + [Place(n + 1)];
  }

  lemma {:induction false} ForAgrees(v: Variable, init: Expr, downTo: bool, bound: Expr, b: Stmt, cfg: Config, st: Gen)
    ensures ForSteps(v, init, downTo, bound, b, cfg, st) == After(st, ForCode(v, init, downTo, bound, b, cfg, st.next))
    decreases For(v, init, downTo, bound, b), 0
  {
    ForHeadAgrees(v, init, downTo, bound, st);
    StmtAgrees(b, cfg, ForHeadSteps(v, init, downTo, bound, st));
    ForAssemble(v, init, downTo, bound, b, cfg, st);
  }

  /** The for loop's code from its head's and its body's. */
  lemma ForAssemble(v: Variable, init: Expr, downTo: bool, bound: Expr, b: Stmt, cfg: Config, st: Gen)
    requires AssignSteps(v, init, st).next == AssignCode(v, init, st.next).next
    requires ForHeadSteps(v, init, downTo, bound, st) == After(st, ForHead(v, init, downTo, bound, st.next))
    requires var s1 := ForHeadSteps(v, init, downTo, bound, st);
             StmtSteps(b, cfg, s1) == After(s1, StmtCode(b, cfg, s1.next))
    ensures ForSteps(v, init, downTo, bound, b, cfg, st) == After(st, ForCode(v, init, downTo, bound, b, cfg, st.next))
  {
    var top := AssignCode(v, init, st.next).next;
    var head := ForHead(v, init, downTo, bound, st.next);
    var s1 := ForHeadSteps(v, init, downTo, bound, st);
    var body := StmtCode(b, cfg, head.next);
    var s2 := StmtSteps(b, cfg, s1);
    var exit := head.next - 1;
    ForStepsSplit(v, init, downTo, bound, b, cfg, st, top, s1);
    ForCodeSplit(v, init, downTo, bound, b, cfg, st.next, top, head);
    Stacked(st, head, s1, body, s2);
    ForShape(v, downTo, top, exit, st, head.code, body, s2, ForCode(v, init, downTo, bound, b, cfg, st.next));
  }

  /** A head placed after `st`, then a body after that. */
  lemma Stacked(st: Gen, head: Gen, s1: Gen, body: Gen, s2: Gen)
    requires s1 == After(st, head) && head.drop == 0 && s2 == After(s1, body)
    ensures s2 == Gen(st.code + head.code + body.code, body.next, st.drop + body.drop)
  {
  }

  lemma ForStepsSplit(v: Variable, init: Expr, downTo: bool, bound: Expr, b: Stmt, cfg: Config, st: Gen, top: Label, s1: Gen)
    requires top == AssignSteps(v, init, st).next && s1 == ForHeadSteps(v, init, downTo, bound, st)
    ensures ForSteps(v, init, downTo, bound, b, cfg, st) == ForTailSteps(v, downTo, top, s1.next - 1, StmtSteps(b, cfg, s1))
  {
  }

  lemma ForCodeSplit(v: Variable, init: Expr, downTo: bool, bound: Expr, b: Stmt, cfg: Config, n: nat, top: Label, head: Gen)
    requires top == AssignCode(v, init, n).next && head == ForHead(v, init, downTo, bound, n)
    ensures ForCode(v, init, downTo, bound, b, cfg, n)
         == Gen(head.code + StmtCode(b, cfg, head.next).code
                + [LoadValue(v.entry), Op(ICONST_1), Op(if downTo then ISUB else IADD),
                   StoreValue(Some(v.entry), Some(v.varType)), Jump(GOTO, top), Place(head.next - 1)],
                StmtCode(b, cfg, head.next).next, StmtCode(b, cfg, head.next).drop)
  {
  }

  lemma ForShape(v: Variable, downTo: bool, top: Label, exit: Label, st: Gen, head: seq<Instr>, body: Gen, s2: Gen, g: Gen)
    requires s2 == Gen(st.code + head + body.code, body.next, st.drop + body.drop)
    requires g == Gen(head + body.code
                      + [LoadValue(v.entry), Op(ICONST_1), Op(if downTo then ISUB else IADD),
                         StoreValue(Some(v.entry), Some(v.varType)), Jump(GOTO, top), Place(exit)],
                      body.next, body.drop)
    ensures ForTailSteps(v, downTo, top, exit, s2) == After(st, g)
  {
    var step := [LoadValue(v.entry), Op(ICONST_1), Op(if downTo then ISUB else IADD),
                 StoreValue(Some(v.entry), Some(v.varType)), Jump(GOTO, top), Place(exit)];
    assert st.code + (head + body.code + step)
        == st.code + head + body.code + [LoadValue(v.entry)] + [Op(ICONST_1)] + [Op(if downTo then ISUB else IADD)]
           + [StoreValue(Some(v.entry), Some(v.varType))] + [Jump(GOTO, top)] + [Place(exit)];
  }

  lemma ForHeadAgrees(v: Variable, init: Expr, downTo: bool, bound: Expr, st: Gen)
    ensures AssignSteps(v, init, st).next == AssignCode(v, init, st.next).next
    ensures ForHeadSteps(v, init, downTo, bound, st) == After(st, ForHead(v, init, downTo, bound, st.next))
  {
    AssignAgrees(v, init, st);
    var s1 := AssignSteps(v, init, st);
    var u := Put(Put(Mint(s1), Place(s1.next)), LoadValue(v.entry));
    VisitAfter(bound.visit, u);
    ForHeadShape(v, downTo, st, AssignCode(v, init, st.next), Visit(bound.visit, u.next), s1);
  }

  lemma ForHeadShape(v: Variable, downTo: bool, st: Gen, ga: Gen, gb: Gen, s1: Gen)
    requires ga.drop == 0 && gb.drop == 0
    requires s1 == After(st, ga)
    ensures ForTestSteps(downTo, After(Put(Put(Mint(s1), Place(s1.next)), LoadValue(v.entry)), gb))
         == After(st, Gen(ga.code + [Place(ga.next), LoadValue(v.entry)] + gb.code
                          + [Jump(if downTo then IF_ICMPLT else IF_ICMPGT, gb.next), Op(ICONST_0), Jump(GOTO, gb.next + 1),
                             Place(gb.next), Op(ICONST_1), Place(gb.next + 1), Jump(IFNE, gb.next + 2)],
                          gb.next + 3, 0))
  {
    var top, k := ga.next, gb.next;
    assert st.code + (ga.code + [Place(top), LoadValue(v.entry)] + gb.code
                      + [Jump(if downTo then IF_ICMPLT else IF_ICMPGT, k), Op(ICONST_0), Jump(GOTO, k + 1),
                         Place(k), Op(ICONST_1), Place(k + 1), Jump(IFNE, k + 2)])
        == st.code + ga.code + [Place(top)] + [LoadValue(v.entry)] + gb.code
           + [Jump(if downTo then IF_ICMPLT else IF_ICMPGT, k)] + [Op(ICONST_0)] + [Jump(GOTO, k + 1)]
           + [Place(k)] + [Op(ICONST_1)] + [Place(k + 1)] + [Jump(IFNE, k + 2)];
  }

  lemma {:induction false} ArgAgrees(args: seq<Expr>, params: seq<Type>, k: nat, st: Gen)
    requires k <= |args| && k <= |params|
    ensures ArgSteps(args, params, k, st) == After(st, ArgumentCode(args, params, k, st.next))
  {
    if k > 0 {
      ArgAgrees(args, params, k - 1, st);
      var g0 := ArgumentCode(args, params, k - 1, st.next);
      var ga := Visit(args[k - 1].visit, g0.next);
      var w: seq<Instr> := if NeedsWidening(args[k - 1].exprType, params[k - 1]) then [Op(I2F)] else [];
      assert st.code + (g0.code + ga.code + w) == st.code + g0.code + ga.code + w;
    }
  }

  lemma CallAgrees(r: Routine, args: Option<seq<Expr>>, programName: string, st: Gen)
    ensures CallSteps(r, args, programName, st) == After(st, CallCode(r, args, programName, st.next))
  {
    if args.Some? {
      ArgAgrees(args.value, r.params, ArgCount(r, args.value), st);
    }
  }

  lemma {:induction false} StoreAgrees(args: seq<WriteArg>, st: Gen)
    ensures StoreSteps(args, st) == After(st, ArrayStores(args, st.next))
    decreases |args|
  {
    if args != [] {
      var init := args[..|args| - 1];
      StoreAgrees(init, st);
      var a := args[|args| - 1];
      if !IsLiteral(a) {
        var b := BaseType(a.expr.exprType);
        var g0 := ArrayStores(init, st.next);
        var ge := Visit(a.expr.visit, g0.next);
        var w: seq<Instr> := if Boxed(b) then [ValueOf(b)] else [];
        var idx := LoadConstant(ExprCount(init));
        assert st.code + (g0.code + [Op(DUP), idx] + ge.code + w + [Op(AASTORE)])
            == st.code + g0.code + [Op(DUP)] + [idx] + ge.code + w + [Op(AASTORE)];
      }
    }
  }

  lemma WriteAgrees(args: Option<seq<WriteArg>>, needLF: bool, convertString: string -> string, st: Gen)
    ensures WriteSteps(args, needLF, convertString, st) == After(st, WriteCode(args, needLF, convertString, st.next))
  {
    if args.Some? {
      var as_ := args.value;
      if ExprCount(as_) > 0 {
        FormattedWriteAgrees(as_, needLF, convertString, st);
      } else {
        var fmt := Operand(LDC, FormatString(as_, needLF, convertString));
        assert st.code + [SystemOut, fmt, Print] == st.code + [SystemOut] + [fmt] + [Print];
      }
    } else {
      assert st.code + [SystemOut, Println] == st.code + [SystemOut] + [Println];
    }
  }

  /** A write with expression arguments: the format, the argument array and printf. */
  lemma FormattedWriteAgrees(as_: seq<WriteArg>, needLF: bool, convertString: string -> string, st: Gen)
    requires ExprCount(as_) > 0
    ensures WriteSteps(Some(as_), needLF, convertString, st) == After(st, WriteCode(Some(as_), needLF, convertString, st.next))
  {
    var count := ExprCount(as_);
    var fmt := Operand(LDC, FormatString(as_, needLF, convertString));
    var u := Put(Put(Put(Put(st, SystemOut), fmt), LoadConstant(count)), Operand(ANEWARRAY, "java/lang/Object"));
    StoreAgrees(as_, u);
    FormattedWriteShape(st, fmt, count, ArrayStores(as_, st.next), StoreSteps(as_, u),
                        WriteCode(Some(as_), needLF, convertString, st.next));
  }

  lemma FormattedWriteShape(st: Gen, fmt: Instr, count: int, ga: Gen, s3: Gen, g: Gen)
    requires ga.drop == 0
    requires s3 == After(Put(Put(Put(Put(st, SystemOut), fmt), LoadConstant(count)), Operand(ANEWARRAY, "java/lang/Object")), ga)
    requires g == Gen([SystemOut, fmt] + [LoadConstant(count), Operand(ANEWARRAY, "java/lang/Object")] + ga.code + [Printf, Op(POP)],
                      ga.next, 2)
    ensures Put(Lower(Put(s3, Printf), 2), Op(POP)) == After(st, g)
  {
    assert st.code + ([SystemOut, fmt] + [LoadConstant(count), Operand(ANEWARRAY, "java/lang/Object")] + ga.code + [Printf, Op(POP)])
        == st.code + [SystemOut] + [fmt] + [LoadConstant(count)] + [Operand(ANEWARRAY, "java/lang/Object")] + ga.code + [Printf] + [Op(POP)];
  }
}

/** Labels in the code the statement generator emits are well scoped: every
    label a statement's code jumps to (or lists in a lookupswitch) is placed
    in that same code, and every label it places was minted while the
    statement was generated, so code for different statements never shares
    a label. The one label placed more than once is the exit label of an
    if with an else part, which is placed twice.

    The small lemmas named `...Shape`, `...Split` and `...Parts`, many with
    empty bodies, each cut one statement's code into its pieces, so that
    the scoping proofs reason about one piece at a time. */
module LabelScope {
  import opened Common
  import opened Jvm
  import opened StatementCode

  /** What expression code generation is taken to guarantee: visited with
      the counter at `n`, a fragment places only the labels it mints itself,
      n up to n + width, and jumps only to labels it places. */
  ghost predicate FragmentOk(f: Fragment)
  {
    forall n: nat :: Scoped(f.code(n), n, n + f.width)
  }

  /** Every fragment in a statement is well scoped. */
  ghost predicate FragmentsOk(s: Stmt)
  {
    match s
    case Compound(ss) => forall i :: 0 <= i < |ss| ==> FragmentsOk(ss[i])
    case Assign(v, e) => FragmentOk(v.visit) && FragmentOk(e.visit)
    case If(c, t, e) => FragmentOk(c.visit) && FragmentsOk(t) && (e.Some? ==> FragmentsOk(e.value))
    case Case(d, bs, _, _) => FragmentOk(d.visit) && forall i :: 0 <= i < |bs| ==> FragmentsOk(bs[i])
    case Repeat(ss, c) => FragmentOk(c.visit) && forall i :: 0 <= i < |ss| ==> FragmentsOk(ss[i])
    case While(c, b) => FragmentOk(c.visit) && FragmentsOk(b)
    case For(v, init, _, bound, b) =>
      FragmentOk(v.visit) && FragmentOk(init.visit) && FragmentOk(bound.visit) && FragmentsOk(b)
    case ProcedureCall(_, args) => args.Some? ==> forall i :: 0 <= i < |args.value| ==> FragmentOk(args.value[i].visit)
    case Write(args, _) => args.Some? ==> forall i :: 0 <= i < |args.value| ==> FragmentOk(args.value[i].expr.visit)
    case Read(_, _) => true
    case Empty => true
  }

  // ---------------------------------------------------------------------------
  // Building well-scoped code from pieces.

  /** One instruction's labels: what it places lies in [lo, hi), what it
      refers to in `ext`. */
  predicate InSpan(i: Instr, lo: nat, hi: nat, ext: set<Label>)
  {
    (i.Place? ==> lo <= i.at < hi) && Targets(i) <= ext
  }

  lemma {:induction false} Instrs(code: seq<Instr>, lo: nat, hi: nat, ext: set<Label>)
    requires forall i :: 0 <= i < |code| ==> InSpan(code[i], lo, hi, ext)
    ensures Open(code, lo, hi, ext)
    ensures forall i :: 0 <= i < |code| && code[i].Place? ==> code[i].at in Placed(code)
    decreases |code|
  {
    if code != [] {
      Instrs(code[..|code| - 1], lo, hi, ext);
    }
  }

  lemma Cat(a: seq<Instr>, b: seq<Instr>, lo: nat, hi: nat, ext: set<Label>)
    requires Open(a, lo, hi, ext) && Open(b, lo, hi, ext)
    ensures Open(a + b, lo, hi, ext)
    ensures Placed(a + b) == Placed(a) + Placed(b)
  {
    ReferencedAppend(a, b);
    PlacedAppend(a, b);
  }

  lemma Lift(code: seq<Instr>, lo: nat, hi: nat, ext: set<Label>, lo': nat, hi': nat, ext': set<Label>)
    requires Open(code, lo, hi, ext) && lo' <= lo && hi <= hi' && ext <= ext'
    ensures Open(code, lo', hi', ext')
  {
  }

  /** Labels of `ext` that `code` places need not be listed. */
  lemma Reduce(code: seq<Instr>, lo: nat, hi: nat, ext: set<Label>, ext': set<Label>)
    requires Open(code, lo, hi, ext) && ext <= Placed(code) + ext'
    ensures Open(code, lo, hi, ext')
  {
  }

  /** A fragment visited with the counter at `n`. */
  lemma VisitScoped(f: Fragment, n: nat)
    requires FragmentOk(f)
    ensures Scoped(Visit(f, n).code, n, Visit(f, n).next)
  {
    assert Scoped(f.code(n), n, n + f.width);
  }

  // ---------------------------------------------------------------------------
  // The theorem, statement by statement.

  /** The code of every well-formed statement whose fragments are well
      scoped is itself well scoped, between the counter before and after it. */
  lemma {:induction false} StmtScoped(s: Stmt, cfg: Config, n: nat)
    requires WellFormed(s) && FragmentsOk(s)
    ensures Scoped(StmtCode(s, cfg, n).code, n, StmtCode(s, cfg, n).next)
    decreases s, 2
  {
    match s
    case Compound(ss) => ListScoped(ss, cfg, n);
    case Assign(v, e) => AssignScoped(v, e, n);
    case If(c, t, e) =>
      if !cfg.homework {
        IfScoped(c, t, e, cfg, n);
      } else {
        Instrs([], n, n, {});
      }
    case Case(d, bs, es, order) =>
      if !cfg.homework {
        CaseScoped(d, bs, es, order, cfg, n);
      } else {
        Instrs([], n, n, {});
      }
    case Repeat(ss, c) => RepeatScoped(ss, c, cfg, n);
    case While(c, b) =>
      if !cfg.homework {
        WhileScoped(c, b, cfg, n);
      } else {
        Instrs([], n, n, {});
      }
    case For(v, init, downTo, bound, b) =>
      if !cfg.homework {
        ForScoped(v, init, downTo, bound, b, cfg, n);
      } else {
        Instrs([], n, n, {});
      }
    case ProcedureCall(r, args) =>
      if !cfg.homework {
        CallScoped(r, args, cfg.programName, n);
      } else {
        Instrs([], n, n, {});
      }
    case Write(args, nl) => WriteScoped(args, nl, cfg.convertString, n);
    case Read(vs, skip) => ReadScoped(vs, skip, cfg.programName, n);
    case Empty => Instrs([], n, n, {});
  }

  lemma {:induction false} ListScoped(ss: seq<Stmt>, cfg: Config, n: nat)
    requires forall i :: 0 <= i < |ss| ==> WellFormed(ss[i]) && FragmentsOk(ss[i])
    ensures Scoped(ListCode(ss, cfg, n).code, n, ListCode(ss, cfg, n).next)
    decreases ss, 2
  {
    if ss == [] {
      Instrs([], n, n, {});
    } else {
      var init := ss[..|ss| - 1];
      ListScoped(init, cfg, n);
      var g0 := ListCode(init, cfg, n);
      StmtScoped(ss[|ss| - 1], cfg, g0.next);
      var g1 := StmtCode(ss[|ss| - 1], cfg, g0.next);
      Lift(g0.code, n, g0.next, {}, n, g1.next, {});
      Lift(g1.code, g0.next, g1.next, {}, n, g1.next, {});
      Cat(g0.code, g1.code, n, g1.next, {});
    }
  }

  lemma AssignScoped(v: Variable, e: Expr, n: nat)
    requires FragmentOk(v.visit) && FragmentOk(e.visit)
    ensures Scoped(AssignCode(v, e, n).code, n, AssignCode(v, e, n).next)
  {
    var g := AssignCode(v, e, n);
    var gv := if |v.modifiers| > 0 then Visit(v.visit, n) else Gen([], n, 0);
    var ge := Visit(e.visit, gv.next);
    var tail := (if Widens(v.varType, e.exprType) then [Op(I2F)] else []) + [StoreFor(v)];
    assert Scoped(g.code, n, g.next) by {
      if |v.modifiers| > 0 {
        VisitScoped(v.visit, n);
      } else {
        Instrs([], n, n, {});
      }
      VisitScoped(e.visit, gv.next);
      assert g.code == gv.code + [] + ge.code + tail && g.next == ge.next;
      Layered(gv.code, [], ge.code, tail, n, gv.next, ge.next);
    }
  }

  /** Scoped code, label-free code, scoped code over the next labels, and
      label-free code again. */
  lemma Layered(a: seq<Instr>, p: seq<Instr>, b: seq<Instr>, c: seq<Instr>, n: nat, mid: nat, hi: nat)
    requires n <= mid <= hi && Scoped(a, n, mid) && Scoped(b, mid, hi)
    requires forall i :: 0 <= i < |p| ==> InSpan(p[i], n, hi, {})
    requires forall i :: 0 <= i < |c| ==> InSpan(c[i], n, hi, {})
    ensures Scoped(a + p + b + c, n, hi)
  {
    Instrs(p, n, hi, {});
    Instrs(c, n, hi, {});
    Lift(a, n, mid, {}, n, hi, {});
    Lift(b, mid, hi, {}, n, hi, {});
    Cat(a, p, n, hi, {});
    Cat(a + p, b, n, hi, {});
    Cat(a + p + b, c, n, hi, {});
  }

  lemma {:induction false} RepeatScoped(ss: seq<Stmt>, c: Expr, cfg: Config, n: nat)
    requires WellFormed(Repeat(ss, c)) && FragmentsOk(Repeat(ss, c))
    ensures Scoped(RepeatCode(ss, c, cfg, n).code, n, RepeatCode(ss, c, cfg, n).next)
    decreases Repeat(ss, c), 0
  {
    ListScoped(ss, cfg, n + 2);
    var gb := ListCode(ss, cfg, n + 2);
    VisitScoped(c.visit, gb.next);
    RepeatShape(n, gb, Visit(c.visit, gb.next), RepeatCode(ss, c, cfg, n));
  }

  lemma RepeatShape(n: nat, gb: Gen, gc: Gen, g: Gen)
    requires n + 2 <= gb.next <= gc.next
    requires Scoped(gb.code, n + 2, gb.next) && Scoped(gc.code, gb.next, gc.next)
    requires g == Gen([Place(n)] + gb.code + gc.code + [Jump(IFNE, n + 1), Jump(GOTO, n), Place(n + 1)], gc.next, gb.drop)
    ensures Scoped(g.code, n, g.next)
  {
    var hi, ext := gc.next, {n, n + 1};
    var tail := [Jump(IFNE, n + 1), Jump(GOTO, n), Place(n + 1)];
    Instrs([Place(n)], n, hi, ext);
    Instrs(tail, n, hi, ext);
    Lift(gb.code, n + 2, gb.next, {}, n, hi, ext);
    Lift(gc.code, gb.next, gc.next, {}, n, hi, ext);
    Cat([Place(n)], gb.code, n, hi, ext);
    Cat([Place(n)] + gb.code, gc.code, n, hi, ext);
    Cat([Place(n)] + gb.code + gc.code, tail, n, hi, ext);
    assert tail[2].Place?;
    Reduce(g.code, n, hi, ext, {});
  }

  lemma {:induction false} WhileScoped(c: Expr, b: Stmt, cfg: Config, n: nat)
    requires WellFormed(While(c, b)) && FragmentsOk(While(c, b))
    ensures Scoped(WhileCode(c, b, cfg, n).code, n, WhileCode(c, b, cfg, n).next)
    decreases While(c, b), 0
  {
    var gc := Visit(c.visit, n + 2);
    VisitScoped(c.visit, n + 2);
    StmtScoped(b, cfg, gc.next);
    WhileShape(n, gc, StmtCode(b, cfg, gc.next), WhileCode(c, b, cfg, n));
  }

  lemma WhileShape(n: nat, gc: Gen, gb: Gen, g: Gen)
    requires n + 2 <= gc.next <= gb.next
    requires Scoped(gc.code, n + 2, gc.next) && Scoped(gb.code, gc.next, gb.next)
    requires g == Gen([Place(n)] + gc.code + [Jump(IFEQ, n + 1)] + gb.code + [Jump(GOTO, n), Place(n + 1)], gb.next, gb.drop)
    ensures Scoped(g.code, n, g.next)
  {
    var hi, ext := gb.next, {n, n + 1};
    var tail := [Jump(GOTO, n), Place(n + 1)];
    Instrs([Place(n)], n, hi, ext);
    Instrs([Jump(IFEQ, n + 1)], n, hi, ext);
    Instrs(tail, n, hi, ext);
    Lift(gc.code, n + 2, gc.next, {}, n, hi, ext);
    Lift(gb.code, gc.next, gb.next, {}, n, hi, ext);
    Cat([Place(n)], gc.code, n, hi, ext);
    Cat([Place(n)] + gc.code, [Jump(IFEQ, n + 1)], n, hi, ext);
    Cat([Place(n)] + gc.code + [Jump(IFEQ, n + 1)], gb.code, n, hi, ext);
    Cat([Place(n)] + gc.code + [Jump(IFEQ, n + 1)] + gb.code, tail, n, hi, ext);
    assert tail[1].Place?;
    Reduce(g.code, n, hi, ext, {});
  }

  lemma {:induction false} IfScoped(c: Expr, t: Stmt, e: Option<Stmt>, cfg: Config, n: nat)
    requires WellFormed(If(c, t, e)) && FragmentsOk(If(c, t, e))
    ensures Scoped(IfCode(c, t, e, cfg, n).code, n, IfCode(c, t, e, cfg, n).next)
    decreases If(c, t, e), 1
  {
    if e.Some? {
      IfElseScoped(c, t, e.value, cfg, n);
    } else {
      var gc := Visit(c.visit, n + 1);
      VisitScoped(c.visit, n + 1);
      StmtScoped(t, cfg, gc.next);
      IfThenShape(n, gc, StmtCode(t, cfg, gc.next), IfCode(c, t, e, cfg, n));
    }
  }

  lemma IfThenShape(n: nat, gc: Gen, gt: Gen, g: Gen)
    requires n + 1 <= gc.next <= gt.next
    requires Scoped(gc.code, n + 1, gc.next) && Scoped(gt.code, gc.next, gt.next)
    requires g == Gen(gc.code + [Jump(IFEQ, n)] + gt.code + [Place(n)], gt.next, gt.drop)
    ensures Scoped(g.code, n, g.next)
  {
    var hi, ext := gt.next, {n};
    Instrs([Jump(IFEQ, n)], n, hi, ext);
    Instrs([Place(n)], n, hi, ext);
    Lift(gc.code, n + 1, gc.next, {}, n, hi, ext);
    Lift(gt.code, gc.next, gt.next, {}, n, hi, ext);
    Cat(gc.code, [Jump(IFEQ, n)], n, hi, ext);
    Cat(gc.code + [Jump(IFEQ, n)], gt.code, n, hi, ext);
    Cat(gc.code + [Jump(IFEQ, n)] + gt.code, [Place(n)], n, hi, ext);
    Reduce(g.code, n, hi, ext, {});
  }

  lemma {:induction false} IfElseScoped(c: Expr, t: Stmt, e: Stmt, cfg: Config, n: nat)
    requires WellFormed(If(c, t, Some(e))) && FragmentsOk(If(c, t, Some(e)))
    ensures Scoped(IfElseCode(c, t, e, cfg, n).code, n, IfElseCode(c, t, e, cfg, n).next)
    decreases If(c, t, Some(e)), 0
  {
    IfElseHeadScoped(c, t, cfg, n);
    var head := IfElseHead(c, t, cfg, n);
    StmtScoped(e, cfg, head.next);
    IfElseShape(n, head, StmtCode(e, cfg, head.next), IfElseCode(c, t, e, cfg, n));
  }

  lemma IfElseShape(n: nat, head: Gen, ge: Gen, g: Gen)
    requires n < head.next <= ge.next
    requires Open(head.code, n + 1, head.next, {n})
    requires Scoped(ge.code, head.next, ge.next)
    requires g == Gen(head.code + ge.code + [Place(n), Place(n)], ge.next, head.drop + ge.drop)
    ensures Scoped(g.code, n, g.next)
  {
    var hi, ext := ge.next, {n};
    Instrs([Place(n), Place(n)], n, hi, ext);
    Lift(head.code, n + 1, head.next, {n}, n, hi, ext);
    Lift(ge.code, head.next, ge.next, {}, n, hi, ext);
    Cat(head.code, ge.code, n, hi, ext);
    Cat(head.code + ge.code, [Place(n), Place(n)], n, hi, ext);
    assert [Place(n), Place(n)][0].Place?;
    Reduce(g.code, n, hi, ext, {});
  }

  /** The if-else head jumps to the exit label `n`, which it does not place;
      all its other labels are its own. */
  lemma {:induction false} IfElseHeadScoped(c: Expr, t: Stmt, cfg: Config, n: nat)
    requires WellFormed(t) && FragmentsOk(t) && FragmentOk(c.visit)
    ensures Open(IfElseHead(c, t, cfg, n).code, n + 1, IfElseHead(c, t, cfg, n).next, {n})
    decreases t, 3
  {
    var gc := Visit(c.visit, n + 1);
    VisitScoped(c.visit, n + 1);
    StmtScoped(t, cfg, gc.next + 1);
    IfElseHeadShape(n, gc, StmtCode(t, cfg, gc.next + 1), IfElseHead(c, t, cfg, n));
  }

  lemma IfElseHeadShape(n: nat, gc: Gen, gt: Gen, g: Gen)
    requires n + 1 <= gc.next && gc.next + 1 <= gt.next
    requires Scoped(gc.code, n + 1, gc.next) && Scoped(gt.code, gc.next + 1, gt.next)
    requires g == Gen(gc.code + [Jump(IFEQ, gc.next)] + gt.code + [Jump(GOTO, n), Place(gc.next)], gt.next, gt.drop)
    ensures Open(g.code, n + 1, g.next, {n})
  {
    var f, hi, ext := gc.next, gt.next, {n, gc.next};
    var tail := [Jump(GOTO, n), Place(f)];
    Instrs([Jump(IFEQ, f)], n + 1, hi, ext);
    Instrs(tail, n + 1, hi, ext);
    Lift(gc.code, n + 1, gc.next, {}, n + 1, hi, ext);
    Lift(gt.code, f + 1, gt.next, {}, n + 1, hi, ext);
    Cat(gc.code, [Jump(IFEQ, f)], n + 1, hi, ext);
    Cat(gc.code + [Jump(IFEQ, f)], gt.code, n + 1, hi, ext);
    Cat(gc.code + [Jump(IFEQ, f)] + gt.code, tail, n + 1, hi, ext);
    assert tail[1].Place?;
    Reduce(g.code, n + 1, hi, ext, {n});
  }

  lemma {:induction false} ForScoped(v: Variable, init: Expr, downTo: bool, bound: Expr, b: Stmt, cfg: Config, n: nat)
    requires WellFormed(For(v, init, downTo, bound, b)) && FragmentsOk(For(v, init, downTo, bound, b))
    ensures Scoped(ForCode(v, init, downTo, bound, b, cfg, n).code, n, ForCode(v, init, downTo, bound, b, cfg, n).next)
    decreases For(v, init, downTo, bound, b), 0
  {
    var top := AssignCode(v, init, n).next;
    var head := ForHead(v, init, downTo, bound, n);
    var body := StmtCode(b, cfg, head.next);
    var g := ForCode(v, init, downTo, bound, b, cfg, n);
    ForHeadScoped(v, init, downTo, bound, n);
    StmtScoped(b, cfg, head.next);
    ForCodeParts(v, init, downTo, bound, b, cfg, n, top, head, body, g);
    ForShape(v, downTo, n, top, head, body, g);
  }

  lemma ForCodeParts(v: Variable, init: Expr, downTo: bool, bound: Expr, b: Stmt, cfg: Config, n: nat,
                     top: Label, head: Gen, body: Gen, g: Gen)
    requires top == AssignCode(v, init, n).next && head == ForHead(v, init, downTo, bound, n)
    requires body == StmtCode(b, cfg, head.next) && g == ForCode(v, init, downTo, bound, b, cfg, n)
    ensures g.code == head.code + body.code
                      + [LoadValue(v.entry), Op(ICONST_1), Op(if downTo then ISUB else IADD),
                         StoreValue(Some(v.entry), Some(v.varType)), Jump(GOTO, top), Place(head.next - 1)]
    ensures g.next == body.next
  {
  }

  lemma ForShape(v: Variable, downTo: bool, n: nat, top: Label, head: Gen, body: Gen, g: Gen)
    requires n < head.next <= body.next
    requires Open(head.code, n, head.next - 1, {head.next - 1}) && top in Placed(head.code)
    requires Scoped(body.code, head.next, body.next)
    requires g.code == head.code + body.code
                       + [LoadValue(v.entry), Op(ICONST_1), Op(if downTo then ISUB else IADD),
                          StoreValue(Some(v.entry), Some(v.varType)), Jump(GOTO, top), Place(head.next - 1)]
    requires g.next == body.next
    ensures Scoped(g.code, n, g.next)
  {
    var exit, hi := head.next - 1, body.next;
    var ext := {top, exit};
    var tail := [LoadValue(v.entry), Op(ICONST_1), Op(if downTo then ISUB else IADD),
                 StoreValue(Some(v.entry), Some(v.varType)), Jump(GOTO, top), Place(exit)];
    Instrs(tail, n, hi, ext);
    Lift(head.code, n, exit, {exit}, n, hi, ext);
    Lift(body.code, head.next, body.next, {}, n, hi, ext);
    Cat(head.code, body.code, n, hi, ext);
    Cat(head.code + body.code, tail, n, hi, ext);
    assert tail[5].Place?;
    Reduce(g.code, n, hi, ext, {});
  }

  /** The for head places the loop's top label and jumps to the exit label,
      minted last, which the tail of the loop places. */
  lemma ForHeadScoped(v: Variable, init: Expr, downTo: bool, bound: Expr, n: nat)
    requires FragmentOk(v.visit) && FragmentOk(init.visit) && FragmentOk(bound.visit)
    ensures var g := ForHead(v, init, downTo, bound, n);
            && AssignCode(v, init, n).next in Placed(g.code)
            && Open(g.code, n, g.next - 1, {g.next - 1})
  {
    var ga := AssignCode(v, init, n);
    var gb := Visit(bound.visit, ga.next + 1);
    var g := ForHead(v, init, downTo, bound, n);
    assert ga.next in Placed(g.code) && Open(g.code, n, g.next - 1, {g.next - 1}) by {
      AssignScoped(v, init, n);
      VisitScoped(bound.visit, ga.next + 1);
      ForHeadSplit(v, init, downTo, bound, n, ga, gb, g);
      ForHeadParts(n, ga, v.entry, downTo, gb, g);
    }
  }

  lemma ForHeadSplit(v: Variable, init: Expr, downTo: bool, bound: Expr, n: nat, ga: Gen, gb: Gen, g: Gen)
    requires ga == AssignCode(v, init, n) && gb == Visit(bound.visit, ga.next + 1)
    requires g == ForHead(v, init, downTo, bound, n)
    ensures g.code == ga.code + [Place(ga.next), LoadValue(v.entry)] + gb.code
                      + [Jump(if downTo then IF_ICMPLT else IF_ICMPGT, gb.next), Op(ICONST_0), Jump(GOTO, gb.next + 1),
                         Place(gb.next), Op(ICONST_1), Place(gb.next + 1), Jump(IFNE, gb.next + 2)]
    ensures g.next == gb.next + 3
  {
  }

  lemma ForHeadParts(n: nat, ga: Gen, entry: string, downTo: bool, gb: Gen, g: Gen)
    requires n <= ga.next && ga.next + 1 <= gb.next
    requires Scoped(ga.code, n, ga.next) && Scoped(gb.code, ga.next + 1, gb.next)
    requires g.code == ga.code + [Place(ga.next), LoadValue(entry)] + gb.code
                       + [Jump(if downTo then IF_ICMPLT else IF_ICMPGT, gb.next), Op(ICONST_0), Jump(GOTO, gb.next + 1),
                          Place(gb.next), Op(ICONST_1), Place(gb.next + 1), Jump(IFNE, gb.next + 2)]
    requires g.next == gb.next + 3
    ensures ga.next in Placed(g.code)
    ensures Open(g.code, n, g.next - 1, {g.next - 1})
  {
    var k := gb.next;
    var test := [Jump(if downTo then IF_ICMPLT else IF_ICMPGT, k), Op(ICONST_0), Jump(GOTO, k + 1),
                 Place(k), Op(ICONST_1), Place(k + 1), Jump(IFNE, k + 2)];
    ForTestScoped(downTo, k, test);
    ForHeadShape(n, ga, [Place(ga.next), LoadValue(entry)], gb, test, g);
  }

  lemma ForHeadShape(n: nat, ga: Gen, mid: seq<Instr>, gb: Gen, test: seq<Instr>, g: Gen)
    requires n <= ga.next && ga.next + 1 <= gb.next
    requires Scoped(ga.code, n, ga.next) && Scoped(gb.code, ga.next + 1, gb.next)
    requires |mid| > 0 && mid[0] == Place(ga.next) && forall i :: 0 <= i < |mid| ==> InSpan(mid[i], ga.next, ga.next + 1, {})
    requires Open(test, gb.next, gb.next + 2, {gb.next + 2})
    requires g.code == ga.code + mid + gb.code + test && g.next == gb.next + 3
    ensures ga.next in Placed(g.code)
    ensures Open(g.code, n, g.next - 1, {g.next - 1})
  {
    var hi := gb.next + 2;
    var ext := {hi};
    Instrs(mid, ga.next, ga.next + 1, {});
    Lift(mid, ga.next, ga.next + 1, {}, n, hi, ext);
    Lift(test, gb.next, hi, ext, n, hi, ext);
    Lift(ga.code, n, ga.next, {}, n, hi, ext);
    Lift(gb.code, ga.next + 1, gb.next, {}, n, hi, ext);
    Cat(ga.code, mid, n, hi, ext);
    Cat(ga.code + mid, gb.code, n, hi, ext);
    Cat(ga.code + mid + gb.code, test, n, hi, ext);
    assert mid[0].Place?;
  }

  /** The loop test places its two labels and jumps to them or to the exit. */
  lemma ForTestScoped(downTo: bool, k: nat, test: seq<Instr>)
    requires test == [Jump(if downTo then IF_ICMPLT else IF_ICMPGT, k), Op(ICONST_0), Jump(GOTO, k + 1),
                      Place(k), Op(ICONST_1), Place(k + 1), Jump(IFNE, k + 2)]
    ensures Open(test, k, k + 2, {k + 2})
  {
    var ext := {k, k + 1, k + 2};
    Instrs(test, k, k + 2, ext);
    assert test[3].Place? && test[5].Place?;
    Reduce(test, k, k + 2, ext, {k + 2});
  }

  lemma CaseScoped(d: Expr, bs: seq<Stmt>, es: seq<CaseEntry>, order: seq<nat>, cfg: Config, n: nat)
    requires WellFormed(Case(d, bs, es, order)) && FragmentsOk(Case(d, bs, es, order))
    ensures Scoped(CaseCode(d, bs, es, order, cfg, n).code, n, CaseCode(d, bs, es, order, cfg, n).next)
    decreases Case(d, bs, es, order), 0
  {
    var m := n + d.visit.width;
    var labels := BranchLabels(es, m);
    var head := CaseHead(d, es, cfg.hash, n);
    var dflt := head.next - 1;
    CaseHeadScoped(d, es, cfg.hash, n, m, labels, dflt, head);
    var bodies := CaseBodies(bs, order, labels, dflt, cfg, head.next);
    var g := CaseCode(d, bs, es, order, cfg, n);
    CaseBodiesClosed(bs, es, order, labels, m, dflt, head.next, cfg);
    CaseCodeParts(d, bs, es, order, cfg, n, labels, head, dflt, bodies, g);
    CaseShape(n, m, dflt, labels.Values, head, bodies, g);
  }

  lemma CaseCodeParts(d: Expr, bs: seq<Stmt>, es: seq<CaseEntry>, order: seq<nat>, cfg: Config, n: nat,
                      labels: map<nat, Label>, head: Gen, dflt: Label, bodies: Gen, g: Gen)
    requires labels == BranchLabels(es, n + d.visit.width) && head == CaseHead(d, es, cfg.hash, n)
    requires dflt == head.next - 1 && bodies == CaseBodies(bs, order, labels, dflt, cfg, head.next)
    requires g == CaseCode(d, bs, es, order, cfg, n)
    ensures g.code == head.code + bodies.code + [Place(dflt)] && g.next == bodies.next
  {
    CaseCodeSplit(d, bs, es, order, cfg, n, labels, head);
  }

  /** The branch bodies jump only to their own labels and the exit, and
      place every branch label. */
  lemma CaseBodiesClosed(bs: seq<Stmt>, es: seq<CaseEntry>, order: seq<nat>, labels: map<nat, Label>, m: nat, dflt: Label,
                         next: nat, cfg: Config)
    requires JumpTableOk(bs, es, order) && forall i :: 0 <= i < |bs| ==> WellFormed(bs[i]) && FragmentsOk(bs[i])
    requires labels == BranchLabels(es, m) && dflt == m + |labels| && next == dflt + 1
    ensures Open(CaseBodies(bs, order, labels, dflt, cfg, next).code, m, CaseBodies(bs, order, labels, dflt, cfg, next).next, {dflt})
    ensures labels.Values <= Placed(CaseBodies(bs, order, labels, dflt, cfg, next).code)
    decreases bs, 1
  {
    BodyOrderLabelled(bs, es, order, m);
    BranchLabelsRange(es, m);
    CaseBodiesScoped(bs, order, labels, dflt, cfg, m, next);
    BranchLabelsKeys(es, m);
    ValuesPlaced(labels, es, order, Placed(CaseBodies(bs, order, labels, dflt, cfg, next).code));
  }

  /** Every branch label is placed: each belongs to a target, and every
      target is in the body order. */
  lemma ValuesPlaced(labels: map<nat, Label>, es: seq<CaseEntry>, order: seq<nat>, placed: set<Label>)
    requires forall t :: t in labels <==> t in TargetList(es)
    requires forall t :: t in TargetList(es) ==> t in order
    requires forall i :: 0 <= i < |order| ==> order[i] in labels && labels[order[i]] in placed
    ensures labels.Values <= placed
  {
    forall l | l in labels.Values ensures l in placed {
      var t :| t in labels && labels[t] == l;
      var i :| 0 <= i < |order| && order[i] == t;
    }
  }

  lemma CaseShape(n: nat, m: nat, dflt: Label, branchLabels: set<Label>, head: Gen, bodies: Gen, g: Gen)
    requires n <= m <= dflt && head.next == dflt + 1 <= bodies.next
    requires Open(head.code, n, m, branchLabels + {dflt})
    requires Open(bodies.code, m, bodies.next, {dflt})
    requires branchLabels <= Placed(bodies.code)
    requires g.code == head.code + bodies.code + [Place(dflt)] && g.next == bodies.next
    ensures Scoped(g.code, n, g.next)
  {
    var hi, ext := bodies.next, branchLabels + {dflt};
    Instrs([Place(dflt)], n, hi, ext);
    Lift(head.code, n, m, ext, n, hi, ext);
    Lift(bodies.code, m, bodies.next, {dflt}, n, hi, ext);
    Cat(head.code, bodies.code, n, hi, ext);
    Cat(head.code + bodies.code, [Place(dflt)], n, hi, ext);
    Reduce(g.code, n, hi, ext, {});
  }

  /** The case head jumps to branch labels and to the default label, minted
      last; it places only the discriminant's own labels. */
  lemma CaseHeadScoped(d: Expr, es: seq<CaseEntry>, hash: string -> int, n: nat, m: nat, labels: map<nat, Label>,
                       dflt: int, g: Gen)
    requires FragmentOk(d.visit)
    requires m == n + d.visit.width && labels == BranchLabels(es, m) && g == CaseHead(d, es, hash, n) && dflt == g.next - 1
    ensures dflt == m + |labels|
    ensures Open(g.code, n, m, labels.Values + {dflt})
  {
    var gd := Visit(d.visit, n);
    VisitScoped(d.visit, n);
    CaseHeadExit(d, es, hash, n, m, labels, dflt, g);
    var hashing: seq<Instr> := if StringKeys(es) then [HashCode] else [];
    JumpTableScoped(es, hash, m);
    CaseHeadShape(n, m, dflt, labels.Values, gd, hashing, JumpTable(es, hash, m), g);
  }

  /** The default label is the last one the case head mints; the head is
      the discriminant, the switch and its table. */
  lemma CaseHeadExit(d: Expr, es: seq<CaseEntry>, hash: string -> int, n: nat, m: nat, labels: map<nat, Label>,
                     dflt: int, g: Gen)
    requires m == n + d.visit.width && labels == BranchLabels(es, m) && g == CaseHead(d, es, hash, n) && dflt == g.next - 1
    ensures Visit(d.visit, n).next == m && dflt == m + |labels|
    ensures g.code == Visit(d.visit, n).code + (if StringKeys(es) then [HashCode] else []) + [Op(LOOKUPSWITCH)]
                      + JumpTable(es, hash, m) + [SwitchDefault(dflt)]
  {
  }

  lemma CaseHeadShape(n: nat, m: nat, dflt: Label, branchLabels: set<Label>, gd: Gen, hashing: seq<Instr>,
                      table: seq<Instr>, g: Gen)
    requires n <= m == gd.next && Scoped(gd.code, n, m)
    requires forall i :: 0 <= i < |hashing| ==> InSpan(hashing[i], 0, 0, {})
    requires Placed(table) == {} && Referenced(table) <= branchLabels
    requires g.code == gd.code + hashing + [Op(LOOKUPSWITCH)] + table + [SwitchDefault(dflt)]
    ensures Open(g.code, n, m, branchLabels + {dflt})
  {
    var ext := branchLabels + {dflt};
    Instrs(hashing, n, m, ext);
    Instrs([Op(LOOKUPSWITCH)], n, m, ext);
    Instrs([SwitchDefault(dflt)], n, m, ext);
    Lift(gd.code, n, m, {}, n, m, ext);
    Cat(gd.code, hashing, n, m, ext);
    Cat(gd.code + hashing, [Op(LOOKUPSWITCH)], n, m, ext);
    Cat(gd.code + hashing + [Op(LOOKUPSWITCH)], table, n, m, ext);
    Cat(gd.code + hashing + [Op(LOOKUPSWITCH)] + table, [SwitchDefault(dflt)], n, m, ext);
  }

  lemma JumpTableScoped(es: seq<CaseEntry>, hash: string -> int, m: nat)
    ensures Placed(JumpTable(es, hash, m)) == {}
    ensures Referenced(JumpTable(es, hash, m)) <= BranchLabels(es, m).Values
  {
    SwitchEntriesScoped(Sort(Ordinals(es, hash)), SwitchTable(es, hash), BranchLabels(es, m));
  }

  /** The lookupswitch entries place nothing and jump only to branch labels. */
  lemma {:induction false} SwitchEntriesScoped(keys: seq<int>, table: map<int, nat>, labels: map<nat, Label>)
    ensures Placed(SwitchEntries(keys, table, labels)) == {}
    ensures Referenced(SwitchEntries(keys, table, labels)) <= labels.Values
    decreases |keys|
  {
    if keys != [] {
      var k := keys[|keys| - 1];
      SwitchEntriesScoped(keys[..|keys| - 1], table, labels);
      var last: seq<Instr> := if k in table && table[k] in labels then [SwitchEntry(k, labels[table[k]])] else [];
      Instrs(last, 0, 0, labels.Values);
      Cat(SwitchEntries(keys[..|keys| - 1], table, labels), last, 0, 0, labels.Values);
    }
  }

  /** The bodies place their branch labels and the labels their statements
      mint, and jump to the exit label besides. */
  lemma {:induction false} CaseBodiesScoped(bs: seq<Stmt>, order: seq<nat>, labels: map<nat, Label>, exit: Label,
                                            cfg: Config, lo: nat, n: nat)
    requires forall i :: 0 <= i < |bs| ==> WellFormed(bs[i]) && FragmentsOk(bs[i])
    requires forall i :: 0 <= i < |order| ==> order[i] < |bs| && order[i] in labels
    requires forall t :: t in labels ==> lo <= labels[t] < n
    ensures var g := CaseBodies(bs, order, labels, exit, cfg, n);
            && Open(g.code, lo, g.next, {exit})
            && forall i :: 0 <= i < |order| ==> labels[order[i]] in Placed(g.code)
    decreases bs, 0, |order|
  {
    if order == [] {
      Instrs([], lo, n, {exit});
    } else {
      var init := order[..|order| - 1];
      var g0 := CaseBodies(bs, init, labels, exit, cfg, n);
      var j := order[|order| - 1];
      var g1 := StmtCode(bs[j], cfg, g0.next);
      var g := CaseBodies(bs, order, labels, exit, cfg, n);
      CaseBodiesScoped(bs, init, labels, exit, cfg, lo, n);
      StmtScoped(bs[j], cfg, g0.next);
      BodiesParts(bs, order, labels, exit, cfg, n, g0, j, g1, g);
      BodyShape(g0, labels[j], g1, exit, lo, g);
    }
  }

  lemma BodiesParts(bs: seq<Stmt>, order: seq<nat>, labels: map<nat, Label>, exit: Label, cfg: Config, n: nat,
                    g0: Gen, j: nat, g1: Gen, g: Gen)
    requires order != [] && g0 == CaseBodies(bs, order[..|order| - 1], labels, exit, cfg, n)
    requires j == order[|order| - 1] && j < |bs| && j in labels && g1 == StmtCode(bs[j], cfg, g0.next)
    requires g == CaseBodies(bs, order, labels, exit, cfg, n)
    ensures g.code == g0.code + [Place(labels[j])] + g1.code + [Jump(GOTO, exit)] && g.next == g1.next
  {
  }

  lemma BodyShape(g0: Gen, l: Label, g1: Gen, exit: Label, lo: nat, g: Gen)
    requires lo <= l < g0.next <= g1.next
    requires Open(g0.code, lo, g0.next, {exit}) && Scoped(g1.code, g0.next, g1.next)
    requires g.code == g0.code + [Place(l)] + g1.code + [Jump(GOTO, exit)] && g.next == g1.next
    ensures Open(g.code, lo, g.next, {exit})
    ensures Placed(g.code) == Placed(g0.code) + {l} + Placed(g1.code)
  {
    var hi, ext := g1.next, {exit};
    Instrs([Place(l)], lo, hi, ext);
    Instrs([Jump(GOTO, exit)], lo, hi, ext);
    Lift(g0.code, lo, g0.next, ext, lo, hi, ext);
    Lift(g1.code, g0.next, g1.next, {}, lo, hi, ext);
    Cat(g0.code, [Place(l)], lo, hi, ext);
    Cat(g0.code + [Place(l)], g1.code, lo, hi, ext);
    Cat(g0.code + [Place(l)] + g1.code, [Jump(GOTO, exit)], lo, hi, ext);
  }

  lemma {:induction false} ArgsScoped(args: seq<Expr>, params: seq<Type>, k: nat, n: nat)
    requires k <= |args| && k <= |params|
    requires forall i :: 0 <= i < |args| ==> FragmentOk(args[i].visit)
    ensures Scoped(ArgumentCode(args, params, k, n).code, n, ArgumentCode(args, params, k, n).next)
  {
    if k == 0 {
      Instrs([], n, n, {});
    } else {
      ArgsScoped(args, params, k - 1, n);
      var g0 := ArgumentCode(args, params, k - 1, n);
      VisitScoped(args[k - 1].visit, g0.next);
      var ga := Visit(args[k - 1].visit, g0.next);
      var w: seq<Instr> := if NeedsWidening(args[k - 1].exprType, params[k - 1]) then [Op(I2F)] else [];
      Instrs(w, n, ga.next, {});
      Lift(g0.code, n, g0.next, {}, n, ga.next, {});
      Lift(ga.code, g0.next, ga.next, {}, n, ga.next, {});
      Cat(g0.code, ga.code, n, ga.next, {});
      Cat(g0.code + ga.code, w, n, ga.next, {});
    }
  }

  lemma CallScoped(r: Routine, args: Option<seq<Expr>>, programName: string, n: nat)
    requires FragmentsOk(ProcedureCall(r, args))
    ensures Scoped(CallCode(r, args, programName, n).code, n, CallCode(r, args, programName, n).next)
  {
    var ga := if args.Some? then ArgumentCode(args.value, r.params, ArgCount(r, args.value), n) else Gen([], n, 0);
    if args.Some? {
      ArgsScoped(args.value, r.params, ArgCount(r, args.value), n);
    } else {
      Instrs([], n, n, {});
    }
    var call := [Operand(INVOKESTATIC, programName + "/" + Descriptor(r))];
    Instrs(call, n, ga.next, {});
    Cat(ga.code, call, n, ga.next, {});
  }

  lemma {:induction false} StoresScoped(args: seq<WriteArg>, n: nat)
    requires forall i :: 0 <= i < |args| ==> FragmentOk(args[i].expr.visit)
    ensures Scoped(ArrayStores(args, n).code, n, ArrayStores(args, n).next)
    decreases |args|
  {
    if args == [] {
      Instrs([], n, n, {});
    } else {
      var init := args[..|args| - 1];
      var a := args[|args| - 1];
      var g := ArrayStores(args, n);
      var g0 := ArrayStores(init, n);
      assert Scoped(g.code, n, g.next) by {
        StoresScoped(init, n);
        if !IsLiteral(a) {
          var b := BaseType(a.expr.exprType);
          var ge := Visit(a.expr.visit, g0.next);
          VisitScoped(a.expr.visit, g0.next);
          var pre := [Op(DUP), LoadConstant(ExprCount(init))];
          var post := (if Boxed(b) then [ValueOf(b)] else []) + [Op(AASTORE)];
          assert g.code == g0.code + pre + ge.code + post && g.next == ge.next;
          Layered(g0.code, pre, ge.code, post, n, g0.next, ge.next);
        }
      }
    }
  }

  lemma WriteScoped(args: Option<seq<WriteArg>>, needLF: bool, convertString: string -> string, n: nat)
    requires FragmentsOk(Write(args, needLF))
    ensures Scoped(WriteCode(args, needLF, convertString, n).code, n, WriteCode(args, needLF, convertString, n).next)
  {
    match args
    case None => Instrs([SystemOut, Println], n, n, {});
    case Some(as_) =>
      var count := ExprCount(as_);
      var prefix := [SystemOut, Operand(LDC, FormatString(as_, needLF, convertString))];
      if count > 0 {
        PrintfScoped(as_, needLF, convertString, n);
      } else {
        Instrs(prefix + [Print], n, n, {});
      }
  }

  lemma PrintfScoped(args: seq<WriteArg>, needLF: bool, convertString: string -> string, n: nat)
    requires FragmentsOk(Write(Some(args), needLF)) && ExprCount(args) > 0
    ensures Scoped(WriteCode(Some(args), needLF, convertString, n).code, n, WriteCode(Some(args), needLF, convertString, n).next)
  {
    StoresScoped(args, n);
    PrintfShape(FormatString(args, needLF, convertString), ExprCount(args), ArrayStores(args, n),
                WriteCode(Some(args), needLF, convertString, n), n);
  }

  lemma PrintfShape(format: string, count: nat, ga: Gen, g: Gen, n: nat)
    requires n <= ga.next && Scoped(ga.code, n, ga.next)
    requires g.code == [SystemOut, Operand(LDC, format)] + [LoadConstant(count), Operand(ANEWARRAY, "java/lang/Object")]
                       + ga.code + [Printf, Op(POP)]
    requires g.next == ga.next
    ensures Scoped(g.code, n, g.next)
  {
    var pre := [SystemOut, Operand(LDC, format)] + [LoadConstant(count), Operand(ANEWARRAY, "java/lang/Object")];
    Instrs(pre, n, n, {});
    assert g.code == pre + [] + ga.code + [Printf, Op(POP)];
    Layered(pre, [], ga.code, [Printf, Op(POP)], n, n, ga.next);
  }

  lemma {:induction false} ReadVarsFree(vars: seq<Variable>, pn: string)
    ensures forall i :: 0 <= i < |ReadVars(vars, pn)| ==> InSpan(ReadVars(vars, pn)[i], 0, 0, {})
    decreases |vars|
  {
    if vars != [] {
      ReadVarsFree(vars[..|vars| - 1], pn);
    }
  }

  lemma ReadScoped(vars: seq<Variable>, needSkip: bool, pn: string, n: nat)
    ensures Scoped(ReadCode(vars, needSkip, pn), n, n)
  {
    ReadVarsFree(vars, pn);
    Instrs(ReadCode(vars, needSkip, pn), n, n, {});
  }

  // ---------------------------------------------------------------------------
  // Labels placed twice and once.

  /** An if with an else part places its exit label exactly twice: once at
      the end of the else part and once more right after it. */
  lemma IfElseExitTwice(c: Expr, t: Stmt, e: Stmt, cfg: Config, n: nat)
    requires WellFormed(If(c, t, Some(e))) && FragmentsOk(If(c, t, Some(e)))
    ensures Placements(IfElseCode(c, t, e, cfg, n).code, n) == 2
  {
    IfElseHeadScoped(c, t, cfg, n);
    var head := IfElseHead(c, t, cfg, n);
    StmtScoped(e, cfg, head.next);
    ExitTwice(n, head, StmtCode(e, cfg, head.next), IfElseCode(c, t, e, cfg, n));
  }

  lemma ExitTwice(n: nat, head: Gen, ge: Gen, g: Gen)
    requires n < head.next
    requires Open(head.code, n + 1, head.next, {n}) && Scoped(ge.code, head.next, ge.next)
    requires g == Gen(head.code + ge.code + [Place(n), Place(n)], ge.next, head.drop + ge.drop)
    ensures Placements(g.code, n) == 2
  {
    PlacementsPlaced(head.code, n);
    PlacementsPlaced(ge.code, n);
    PlacementsAppend(head.code + ge.code, [Place(n), Place(n)], n);
    PlacementsAppend(head.code, ge.code, n);
    assert [Place(n), Place(n)] == [Place(n)] + [Place(n)];
    PlacementsAppend([Place(n)], [Place(n)], n);
    assert [Place(n)][..0] == [];
  }

  /** An if without an else part places its exit label once. */
  lemma IfThenExitOnce(c: Expr, t: Stmt, cfg: Config, n: nat)
    requires WellFormed(t) && FragmentsOk(t) && FragmentOk(c.visit)
    ensures Placements(IfCode(c, t, None, cfg, n).code, n) == 1
  {
    var gc := Visit(c.visit, n + 1);
    VisitScoped(c.visit, n + 1);
    StmtScoped(t, cfg, gc.next);
    ExitOnce(n, gc, StmtCode(t, cfg, gc.next), IfCode(c, t, None, cfg, n));
  }

  lemma ExitOnce(n: nat, gc: Gen, gt: Gen, g: Gen)
    requires n + 1 <= gc.next
    requires Scoped(gc.code, n + 1, gc.next) && Scoped(gt.code, gc.next, gt.next)
    requires g == Gen(gc.code + [Jump(IFEQ, n)] + gt.code + [Place(n)], gt.next, gt.drop)
    ensures Placements(g.code, n) == 1
  {
    PlacementsPlaced(gc.code, n);
    PlacementsPlaced(gt.code, n);
    PlacementsAppend(gc.code + [Jump(IFEQ, n)] + gt.code, [Place(n)], n);
    PlacementsAppend(gc.code + [Jump(IFEQ, n)], gt.code, n);
    PlacementsAppend(gc.code, [Jump(IFEQ, n)], n);
    assert [Place(n)][..0] == [];
    assert [Jump(IFEQ, n)][..0] == [];
  }
}

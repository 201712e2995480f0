/** The StatementGenerator itself: a generator object that appends
    instructions to the object file and mints labels from the shared label
    counter, with one method per statement kind. The functions ending in
    `Steps` say what each method does to the generator's state, emit by emit;
    the lemmas in module Layout show that this is the code `StatementCode`
    defines for the statement. The
    homework skeleton is the same class with `cfg.homework` set: its if,
    case, while, for and call methods return without emitting anything. */
module Generator {
  import opened Common
  import opened Jvm
  import opened StatementCode

  // ---------------------------------------------------------------------------
  // The generator's state (`Gen`: code so far, label counter, dropped stack
  // amount) and what each method does to it.

  /** emit(...): one more instruction. */
  function Put(st: Gen, i: Instr): Gen
  {
    Gen(st.code + [i], st.next, st.drop)
  }

  /** new Label(): the label is `st.next`. */
  function Mint(st: Gen): Gen
  {
    Gen(st.code, st.next + 1, st.drop)
  }

  /** localStack.decrease(k). */
  function Lower(st: Gen, k: nat): Gen
  {
    Gen(st.code, st.next, st.drop + k)
  }

  /** compiler.visit of an expression or a variable. */
  function VisitStep(f: Fragment, st: Gen): Gen
  {
    Gen(st.code + f.code(st.next), st.next + f.width, st.drop)
  }

  function StmtSteps(s: Stmt, cfg: Config, st: Gen): Gen
    decreases s, 2
  {
    match s
    case Compound(ss) => ListSteps(ss, cfg, st)
    case Assign(v, e) => AssignSteps(v, e, st)
    case If(c, t, e) => if cfg.homework then st else IfSteps(c, t, e, cfg, st)
    case Case(d, bs, es, order) => if cfg.homework then st else CaseSteps(d, bs, es, order, cfg, st)
    case Repeat(ss, c) => RepeatSteps(ss, c, cfg, st)
    case While(c, b) => if cfg.homework then st else WhileSteps(c, b, cfg, st)
    case For(v, init, downTo, bound, b) => if cfg.homework then st else ForSteps(v, init, downTo, bound, b, cfg, st)
    case ProcedureCall(r, args) => if cfg.homework then st else CallSteps(r, args, cfg.programName, st)
    case Write(args, nl) => WriteSteps(args, nl, cfg.convertString, st)
    case Read(vs, skip) => Gen(st.code + ReadCode(vs, skip, cfg.programName), st.next, st.drop)
    case Empty => st
  }

  function ListSteps(ss: seq<Stmt>, cfg: Config, st: Gen): Gen
    decreases ss, 2
  {
    if ss == [] then st else StmtSteps(ss[|ss| - 1], cfg, ListSteps(ss[..|ss| - 1], cfg, st))
  }

  function AssignSteps(v: Variable, e: Expr, st: Gen): Gen
  {
    var s1 := if |v.modifiers| > 0 then VisitStep(v.visit, st) else st;
    var s2 := VisitStep(e.visit, s1);
    var s3 := if Widens(v.varType, e.exprType) then Put(s2, Op(I2F)) else s2;
    Put(s3, StoreFor(v))
  }

  function IfSteps(c: Expr, t: Stmt, e: Option<Stmt>, cfg: Config, st: Gen): Gen
    decreases If(c, t, e), 1
  {
    if e.Some? then IfElseSteps(c, t, e.value, cfg, st)
    else Put(StmtSteps(t, cfg, Put(VisitStep(c.visit, Mint(st)), Jump(IFEQ, st.next))), Place(st.next))
  }

  function IfElseSteps(c: Expr, t: Stmt, e: Stmt, cfg: Config, st: Gen): Gen
    decreases If(c, t, Some(e)), 0
  {
    var s3 := StmtSteps(e, cfg, IfElseHeadSteps(c, t, cfg, st));
    Put(Put(s3, Place(st.next)), Place(st.next))
  }

  function IfElseHeadSteps(c: Expr, t: Stmt, cfg: Config, st: Gen): Gen
    decreases t, 3
  {
    var s1 := VisitStep(c.visit, Mint(st));
    var f := s1.next;
    Put(Put(StmtSteps(t, cfg, Put(Mint(s1), Jump(IFEQ, f))), Jump(GOTO, st.next)), Place(f))
  }

  /** The switch on the case selector: its value, hashed when the keys are strings. */
  function SelectorSteps(d: Expr, strings: bool, st: Gen): Gen
  {
    var s1 := VisitStep(d.visit, st);
    Put(if strings then Put(s1, HashCode) else s1, Op(LOOKUPSWITCH))
  }

  /** The case statement up to its bodies: the discriminant, the switch
      instruction, one label per distinct branch and the jump table, ending
      with the default entry, whose label is the last one minted. */
  function CaseHeadSteps(d: Expr, es: seq<CaseEntry>, cfg: Config, st: Gen): (r: Gen)
    ensures r.next > st.next
  {
    var s3 := SelectorSteps(d, StringKeys(es), st);
    var s4 := Gen(s3.code + JumpTable(es, cfg.hash, s3.next), s3.next + |BranchLabels(es, s3.next)|, s3.drop);
    Put(Mint(s4), SwitchDefault(s4.next))
  }

  function CaseSteps(d: Expr, bs: seq<Stmt>, es: seq<CaseEntry>, order: seq<nat>, cfg: Config, st: Gen): Gen
    decreases Case(d, bs, es, order), 1
  {
    var m := st.next + d.visit.width;
    var s1 := CaseHeadSteps(d, es, cfg, st);
    var dflt := s1.next - 1;
    Put(CaseBodySteps(bs, order, BranchLabels(es, m), dflt, cfg, s1), Place(dflt))
  }

  function CaseBodySteps(bs: seq<Stmt>, order: seq<nat>, labels: map<nat, Label>, exit: Label, cfg: Config, st: Gen): Gen
    decreases bs, 1, |order|
  {
    if order == [] then st
    else
      var j := order[|order| - 1];
      var s1 := CaseBodySteps(bs, order[..|order| - 1], labels, exit, cfg, st);
      if j < |bs| && j in labels then Put(StmtSteps(bs[j], cfg, Put(s1, Place(labels[j]))), Jump(GOTO, exit))
      else s1
  }

  /** A case statement's steps are its head's, then its bodies' with the
      head's branch labels, then the default label's placement. */
  lemma CaseStepsSplit(d: Expr, bs: seq<Stmt>, es: seq<CaseEntry>, order: seq<nat>, cfg: Config, st: Gen,
                       labels: map<nat, Label>, dflt: Label)
    requires labels == BranchLabels(es, st.next + d.visit.width)
    requires dflt + 1 == CaseHeadSteps(d, es, cfg, st).next
    ensures CaseSteps(d, bs, es, order, cfg, st)
         == Put(CaseBodySteps(bs, order, labels, dflt, cfg, CaseHeadSteps(d, es, cfg, st)), Place(dflt))
  {
  }

  function RepeatSteps(ss: seq<Stmt>, c: Expr, cfg: Config, st: Gen): Gen
    decreases Repeat(ss, c), 1
  {
    var top := st.next;
    var s1 := ListSteps(ss, cfg, Put(Mint(Mint(st)), Place(top)));
    Put(Put(Put(VisitStep(c.visit, s1), Jump(IFNE, top + 1)), Jump(GOTO, top)), Place(top + 1))
  }

  function WhileSteps(c: Expr, b: Stmt, cfg: Config, st: Gen): Gen
    decreases While(c, b), 1
  {
    var top := st.next;
    var s1 := VisitStep(c.visit, Put(Mint(Mint(st)), Place(top)));
    var s2 := StmtSteps(b, cfg, Put(s1, Jump(IFEQ, top + 1)));
    Put(Put(s2, Jump(GOTO, top)), Place(top + 1))
  }

  /** The for loop up to its exit test: the control variable's assignment,
      the top label, the comparison with the bound and the jump out. */
  function ForHeadSteps(v: Variable, init: Expr, downTo: bool, bound: Expr, st: Gen): (r: Gen)
    ensures r.next > st.next
  {
    var s1 := AssignSteps(v, init, st);
    var top := s1.next;
    ForTestSteps(downTo, VisitStep(bound.visit, Put(Put(Mint(s1), Place(top)), LoadValue(v.entry))))
  }

  /** The exit test with the control variable and the bound on the stack:
      compare, push 0 or 1, and jump out on 1 to the label minted last. */
  function ForTestSteps(downTo: bool, st: Gen): (r: Gen)
    ensures r.next == st.next + 3
  {
    var k := st.next;
    var s3 := Put(Put(Mint(st), Jump(if downTo then IF_ICMPLT else IF_ICMPGT, k)), Op(ICONST_0));
    var s4 := Put(Put(Put(Mint(s3), Jump(GOTO, k + 1)), Place(k)), Op(ICONST_1));
    Put(Mint(Put(s4, Place(k + 1))), Jump(IFNE, k + 2))
  }

  /** The for loop after its body: step the control variable, jump back to
      `top`, place `exit`. */
  function ForTailSteps(v: Variable, downTo: bool, top: Label, exit: Label, st: Gen): Gen
  {
    var s1 := Put(Put(Put(st, LoadValue(v.entry)), Op(ICONST_1)), Op(if downTo then ISUB else IADD));
    Put(Put(Put(s1, StoreValue(Some(v.entry), Some(v.varType))), Jump(GOTO, top)), Place(exit))
  }

  function ForSteps(v: Variable, init: Expr, downTo: bool, bound: Expr, b: Stmt, cfg: Config, st: Gen): Gen
    decreases For(v, init, downTo, bound, b), 1
  {
    var top := AssignSteps(v, init, st).next;
    var s1 := ForHeadSteps(v, init, downTo, bound, st);
    ForTailSteps(v, downTo, top, s1.next - 1, StmtSteps(b, cfg, s1))
  }

  function ArgSteps(args: seq<Expr>, params: seq<Type>, k: nat, st: Gen): Gen
    requires k <= |args| && k <= |params|
  {
    if k == 0 then st
    else
      var s1 := VisitStep(args[k - 1].visit, ArgSteps(args, params, k - 1, st));
      if NeedsWidening(args[k - 1].exprType, params[k - 1]) then Put(s1, Op(I2F)) else s1
  }

  function CallSteps(r: Routine, args: Option<seq<Expr>>, programName: string, st: Gen): Gen
  {
    var s1 := if args.Some? then ArgSteps(args.value, r.params, ArgCount(r, args.value), st) else st;
    Put(s1, Operand(INVOKESTATIC, programName + "/" + Descriptor(r)))
  }

  function StoreSteps(args: seq<WriteArg>, st: Gen): Gen
  {
    if args == [] then st
    else
      var a := args[|args| - 1];
      var b := BaseType(a.expr.exprType);
      var s0 := StoreSteps(args[..|args| - 1], st);
      if IsLiteral(a) then s0
      else
        var s1 := VisitStep(a.expr.visit, Put(Put(s0, Op(DUP)), LoadConstant(ExprCount(args[..|args| - 1]))));
        Put(if Boxed(b) then Put(s1, ValueOf(b)) else s1, Op(AASTORE))
  }

  function WriteSteps(args: Option<seq<WriteArg>>, needLF: bool, convertString: string -> string, st: Gen): Gen
  {
    var s1 := Put(st, SystemOut);
    match args
    case None => Lower(Put(s1, Println), 1)
    case Some(as_) =>
      var s2 := Put(s1, Operand(LDC, FormatString(as_, needLF, convertString)));
      var count := ExprCount(as_);
      if count > 0 then
        var s3 := StoreSteps(as_, Put(Put(s2, LoadConstant(count)), Operand(ANEWARRAY, "java/lang/Object")));
        Put(Lower(Put(s3, Printf), 2), Op(POP))
      else Lower(Put(s2, Print), 2)
  }

  class StatementGenerator {
    const cfg: Config
    /** The instructions emitted so far. */
    var code: seq<Instr>
    /** The label counter: the next label `new Label()` hands out. */
    var labelCount: nat
    /** The sum of the explicit localStack.decrease amounts. */
    var dropped: nat

    constructor (cfg: Config, firstLabel: nat)
      ensures this.cfg == cfg && code == [] && labelCount == firstLabel && dropped == 0
    {
      this.cfg := cfg;
      code := [];
      labelCount := firstLabel;
      dropped := 0;
    }

    method Emit(i: Instr)
      modifies this`code
      ensures code == old(code) + [i]
    {
      code := code + [i];
    }

    method NewLabel() returns (l: Label)
      modifies this`labelCount
      ensures l == old(labelCount) && labelCount == l + 1
    {
      l := labelCount;
      labelCount := labelCount + 1;
    }

    method Decrease(k: nat)
      modifies this`dropped
      ensures dropped == old(dropped) + k
    {
      dropped := dropped + k;
    }

    /** compiler.visit of an expression or a variable. */
    method VisitFragment(f: Fragment)
      modifies this`code, this`labelCount
      ensures code == old(code) + f.code(old(labelCount)) && labelCount == old(labelCount) + f.width
    {
      code := code + f.code(labelCount);
      labelCount := labelCount + f.width;
    }

    /** compiler.visit of a statement: dispatch on its kind. */
    method EmitStatement(s: Stmt)
      requires WellFormed(s)
      modifies this
      ensures Gen(code, labelCount, dropped) == StmtSteps(s, cfg, old(Gen(code, labelCount, dropped)))
      decreases s, 3
    {
      match s
      case Compound(ss) => EmitStatementList(ss);
      case Assign(v, e) => EmitAssignment(v, e);
      case If(c, t, e) => EmitIf(c, t, e);
      case Case(d, bs, es, order) => EmitCase(d, bs, es, order);
      case Repeat(ss, c) => EmitRepeat(ss, c);
      case While(c, b) => EmitWhile(c, b);
      case For(v, init, downTo, bound, b) => EmitFor(v, init, downTo, bound, b);
      case ProcedureCall(r, args) => EmitProcedureCall(r, args);
      case Write(args, nl) => EmitWrite(args, nl);
      case Read(vs, skip) => EmitRead(vs, skip);
      case Empty =>
    }

    method EmitStatementList(ss: seq<Stmt>)
      requires forall i :: 0 <= i < |ss| ==> WellFormed(ss[i])
      modifies this
      ensures Gen(code, labelCount, dropped) == ListSteps(ss, cfg, old(Gen(code, labelCount, dropped)))
      decreases ss, 3
    {
      var i := 0;
      while i < |ss|
        invariant i <= |ss|
        invariant Gen(code, labelCount, dropped) == ListSteps(ss[..i], cfg, old(Gen(code, labelCount, dropped)))
        decreases |ss| - i
      {
        assert ss[..i + 1][..i] == ss[..i];
        EmitStatement(ss[i]);
        i := i + 1;
      }
      assert ss[..i] == ss;
    }

    /** emitAssignment; emitForAssign is a copy of it and is modelled by it. */
    method EmitAssignment(v: Variable, e: Expr)
      modifies this`code, this`labelCount
      ensures Gen(code, labelCount, dropped) == AssignSteps(v, e, old(Gen(code, labelCount, dropped)))
    {
      if |v.modifiers| > 0 {
        VisitFragment(v.visit);
      }
      VisitFragment(e.visit);
      if v.varType == Real && BaseType(e.exprType) == Integer {
        Emit(Op(I2F));
      }
      if |v.modifiers| == 0 {
        Emit(StoreValue(Some(v.entry), Some(v.entryType)));
      } else if v.modifiers[|v.modifiers| - 1].Field? {
        var last := v.modifiers[|v.modifiers| - 1];
        Emit(StoreValue(Some(last.field), Some(last.fieldType)));
      } else {
        Emit(StoreValue(None, Some(v.varType)));
      }
    }

    method EmitIf(c: Expr, t: Stmt, e: Option<Stmt>)
      requires WellFormed(t) && (e.Some? ==> WellFormed(e.value))
      modifies this
      ensures Gen(code, labelCount, dropped) == if cfg.homework then old(Gen(code, labelCount, dropped)) else IfSteps(c, t, e, cfg, old(Gen(code, labelCount, dropped)))
      decreases If(c, t, e), 2
    {
      if cfg.homework {
        return;
      }
      ghost var st := Gen(code, labelCount, dropped);
      var nextLabel := NewLabel();
      VisitFragment(c.visit);
      if e.Some? {
        var falseLabel := NewLabel();
        Emit(Jump(IFEQ, falseLabel));
        EmitStatement(t);
        Emit(Jump(GOTO, nextLabel));
        Emit(Place(falseLabel));
        assert Gen(code, labelCount, dropped) == IfElseHeadSteps(c, t, cfg, st);
        EmitStatement(e.value);
        Emit(Place(nextLabel));
      } else {
        Emit(Jump(IFEQ, nextLabel));
        EmitStatement(t);
      }
      Emit(Place(nextLabel));
    }

    method EmitCase(d: Expr, bs: seq<Stmt>, es: seq<CaseEntry>, order: seq<nat>)
      requires JumpTableOk(bs, es, order) && forall i :: 0 <= i < |bs| ==> WellFormed(bs[i])
      modifies this
      ensures Gen(code, labelCount, dropped) == if cfg.homework then old(Gen(code, labelCount, dropped)) else CaseSteps(d, bs, es, order, cfg, old(Gen(code, labelCount, dropped)))
      decreases Case(d, bs, es, order), 2
    {
      if cfg.homework {
        return;
      }
      ghost var st := Gen(code, labelCount, dropped);
      BodyOrderLabelled(bs, es, order, st.next + d.visit.width);
      var statementToLabel, defaultLabel := EmitCaseHead(d, es);
      CaseStepsSplit(d, bs, es, order, cfg, st, statementToLabel, defaultLabel);
      EmitCaseBodies(bs, order, statementToLabel, defaultLabel);
      Emit(Place(defaultLabel));
    }

    /** emitCase up to the default entry of the LOOKUPSWITCH table. */
    method EmitCaseHead(d: Expr, es: seq<CaseEntry>) returns (statementToLabel: map<nat, Label>, defaultLabel: Label)
      requires |es| > 0
      modifies this`code, this`labelCount
      ensures Gen(code, labelCount, dropped) == CaseHeadSteps(d, es, cfg, old(Gen(code, labelCount, dropped)))
      ensures statementToLabel == BranchLabels(es, old(labelCount) + d.visit.width)
      ensures defaultLabel + 1 == labelCount
    {
      EmitSelector(d, es[0].key.StrKey?);
      statementToLabel := EmitJumpTable(es);
      defaultLabel := NewLabel();
      Emit(SwitchDefault(defaultLabel));
    }

    /** The LOOKUPSWITCH entries: mint the branch labels, sort the keys, emit one
        entry per key. */
    method EmitJumpTable(es: seq<CaseEntry>) returns (statementToLabel: map<nat, Label>)
      modifies this`code, this`labelCount
      ensures statementToLabel == BranchLabels(es, old(labelCount))
      ensures code == old(code) + JumpTable(es, cfg.hash, old(labelCount))
      ensures labelCount == old(labelCount) + |statementToLabel|
    {
      var m := labelCount;
      statementToLabel := MintBranchLabels(es);
      var constantsSorted := SortedConstants(es);
      var tempJumpTable := KeyTable(es);
      BranchLabelsKeys(es, m);
      SwitchEntriesDefined(es, cfg.hash, m);
      EmitSwitchEntries(constantsSorted, tempJumpTable, statementToLabel);
    }

    method EmitSelector(d: Expr, strings: bool)
      modifies this`code, this`labelCount
      ensures Gen(code, labelCount, dropped) == SelectorSteps(d, strings, old(Gen(code, labelCount, dropped)))
      ensures labelCount == old(labelCount) + d.visit.width
    {
      VisitFragment(d.visit);
      if strings {
        Emit(HashCode);
      }
      Emit(Op(LOOKUPSWITCH));
    }

    /** Mint one label per distinct target statement, in jump-table order. */
    method MintBranchLabels(es: seq<CaseEntry>) returns (statementToLabel: map<nat, Label>)
      modifies this`labelCount
      ensures statementToLabel == BranchLabels(es, old(labelCount))
      ensures labelCount == old(labelCount) + |statementToLabel|
    {
      statementToLabel := map[];
      for i := 0 to |es|
        invariant statementToLabel == BranchLabels(es[..i], old(labelCount))
        invariant labelCount == old(labelCount) + |statementToLabel|
      {
        assert es[..i + 1][..i] == es[..i];
        if es[i].target !in statementToLabel {
          var l := NewLabel();
          statementToLabel := statementToLabel[es[i].target := l];
        }
      }
      assert es[..|es|] == es;
    }

    /** The jump-table keys made integers, then sorted. */
    method SortedConstants(es: seq<CaseEntry>) returns (constantsSorted: seq<int>)
      ensures constantsSorted == Sort(Ordinals(es, cfg.hash))
    {
      constantsSorted := [];
      for i := 0 to |es|
        invariant constantsSorted == Ordinals(es[..i], cfg.hash)
      {
        assert es[..i + 1][..i] == es[..i];
        constantsSorted := constantsSorted + [Ordinal(es[i].key, cfg.hash)];
      }
      assert es[..|es|] == es;
      constantsSorted := Sort(constantsSorted);
    }

    /** Integer key to target statement, later entries overwriting earlier ones. */
    method KeyTable(es: seq<CaseEntry>) returns (tempJumpTable: map<int, nat>)
      ensures tempJumpTable == SwitchTable(es, cfg.hash)
    {
      tempJumpTable := map[];
      for i := 0 to |es|
        invariant tempJumpTable == SwitchTable(es[..i], cfg.hash)
      {
        assert es[..i + 1][..i] == es[..i];
        tempJumpTable := tempJumpTable[Ordinal(es[i].key, cfg.hash) := es[i].target];
      }
      assert es[..|es|] == es;
    }

    method EmitSwitchEntries(keys: seq<int>, table: map<int, nat>, labels: map<nat, Label>)
      requires forall i :: 0 <= i < |keys| ==> keys[i] in table && table[keys[i]] in labels
      modifies this`code
      ensures code == old(code) + SwitchEntries(keys, table, labels)
    {
      for i := 0 to |keys|
        invariant code == old(code) + SwitchEntries(keys[..i], table, labels)
      {
        assert keys[..i + 1][..i] == keys[..i];
        Emit(SwitchEntry(keys[i], labels[table[keys[i]]]));
      }
      assert keys[..|keys|] == keys;
    }

    /** Each labelled branch in `order`: its label, its code, a jump to `exit`. */
    method EmitCaseBodies(bs: seq<Stmt>, order: seq<nat>, labels: map<nat, Label>, exit: Label)
      requires forall i :: 0 <= i < |bs| ==> WellFormed(bs[i])
      requires forall i :: 0 <= i < |order| ==> order[i] < |bs| && order[i] in labels
      modifies this
      ensures Gen(code, labelCount, dropped) == CaseBodySteps(bs, order, labels, exit, cfg, old(Gen(code, labelCount, dropped)))
      decreases bs, 2
    {
      for i := 0 to |order|
        invariant Gen(code, labelCount, dropped) == CaseBodySteps(bs, order[..i], labels, exit, cfg, old(Gen(code, labelCount, dropped)))
      {
        assert order[..i + 1][..i] == order[..i];
        var j := order[i];
        Emit(Place(labels[j]));
        EmitStatement(bs[j]);
        Emit(Jump(GOTO, exit));
      }
      assert order[..|order|] == order;
    }

    method EmitRepeat(ss: seq<Stmt>, c: Expr)
      requires forall i :: 0 <= i < |ss| ==> WellFormed(ss[i])
      modifies this
      ensures Gen(code, labelCount, dropped) == RepeatSteps(ss, c, cfg, old(Gen(code, labelCount, dropped)))
      decreases Repeat(ss, c), 2
    {
      var loopTopLabel := NewLabel();
      var loopExitLabel := NewLabel();
      Emit(Place(loopTopLabel));
      EmitStatementList(ss);
      VisitFragment(c.visit);
      Emit(Jump(IFNE, loopExitLabel));
      Emit(Jump(GOTO, loopTopLabel));
      Emit(Place(loopExitLabel));
    }

    method EmitWhile(c: Expr, b: Stmt)
      requires WellFormed(b)
      modifies this
      ensures Gen(code, labelCount, dropped) == if cfg.homework then old(Gen(code, labelCount, dropped)) else WhileSteps(c, b, cfg, old(Gen(code, labelCount, dropped)))
      decreases While(c, b), 2
    {
      if cfg.homework {
        return;
      }
      var loopTopLabel, loopExitLabel := EmitWhileHead(c);
      EmitStatement(b);
      Emit(Jump(GOTO, loopTopLabel));
      Emit(Place(loopExitLabel));
    }

    /** emitWhile up to the jump out of the loop; returns the loop's top and exit labels. */
    method EmitWhileHead(c: Expr) returns (loopTopLabel: Label, loopExitLabel: Label)
      modifies this`code, this`labelCount
      ensures Gen(code, labelCount, dropped)
              == Put(VisitStep(c.visit, Put(Mint(Mint(old(Gen(code, labelCount, dropped)))), Place(old(labelCount)))),
                     Jump(IFEQ, old(labelCount) + 1))
      ensures loopTopLabel == old(labelCount) && loopExitLabel == loopTopLabel + 1
    {
      loopTopLabel := NewLabel();
      loopExitLabel := NewLabel();
      Emit(Place(loopTopLabel));
      VisitFragment(c.visit);
      Emit(Jump(IFEQ, loopExitLabel));
    }

    method EmitFor(v: Variable, init: Expr, downTo: bool, bound: Expr, b: Stmt)
      requires WellFormed(b)
      modifies this
      ensures Gen(code, labelCount, dropped) == if cfg.homework then old(Gen(code, labelCount, dropped)) else ForSteps(v, init, downTo, bound, b, cfg, old(Gen(code, labelCount, dropped)))
      decreases For(v, init, downTo, bound, b), 2
    {
      if cfg.homework {
        return;
      }
      var topLabel, goodbyeForLoop := EmitForHead(v, init, downTo, bound);
      EmitStatement(b);
      EmitForTail(v, downTo, topLabel, goodbyeForLoop);
    }

    /** emitFor up to the jump out of the loop; returns the loop's top and exit labels. */
    method EmitForHead(v: Variable, init: Expr, downTo: bool, bound: Expr) returns (topLabel: Label, goodbyeForLoop: Label)
      modifies this`code, this`labelCount
      ensures Gen(code, labelCount, dropped) == ForHeadSteps(v, init, downTo, bound, old(Gen(code, labelCount, dropped)))
      ensures topLabel == AssignSteps(v, init, old(Gen(code, labelCount, dropped))).next
      ensures goodbyeForLoop + 1 == labelCount
    {
      EmitAssignment(v, init);
      topLabel := NewLabel();
      Emit(Place(topLabel));
      Emit(LoadValue(v.entry));
      VisitFragment(bound.visit);
      goodbyeForLoop := EmitForTest(downTo);
    }

    /** The comparison of the control variable with the bound; returns the exit label. */
    method EmitForTest(downTo: bool) returns (goodbyeForLoop: Label)
      modifies this`code, this`labelCount
      ensures Gen(code, labelCount, dropped) == ForTestSteps(downTo, old(Gen(code, labelCount, dropped)))
      ensures goodbyeForLoop + 1 == labelCount
    {
      ghost var s2 := Gen(code, labelCount, dropped);
      var continueLabel := NewLabel();
      Emit(Jump(if downTo then IF_ICMPLT else IF_ICMPGT, continueLabel));
      Emit(Op(ICONST_0));
      ghost var s3 := Gen(code, labelCount, dropped);
      assert s3 == Put(Put(Mint(s2), Jump(if downTo then IF_ICMPLT else IF_ICMPGT, s2.next)), Op(ICONST_0));
      var endForLabel := NewLabel();
      Emit(Jump(GOTO, endForLabel));
      Emit(Place(continueLabel));
      Emit(Op(ICONST_1));
      Emit(Place(endForLabel));
      goodbyeForLoop := NewLabel();
      Emit(Jump(IFNE, goodbyeForLoop));
    }

    /** emitFor after the body: increment or decrement, loop back, exit label. */
    method EmitForTail(v: Variable, downTo: bool, topLabel: Label, goodbyeForLoop: Label)
      modifies this`code
      ensures Gen(code, labelCount, dropped) == ForTailSteps(v, downTo, topLabel, goodbyeForLoop, old(Gen(code, labelCount, dropped)))
    {
      Emit(LoadValue(v.entry));
      Emit(Op(ICONST_1));
      Emit(Op(if downTo then ISUB else IADD));
      Emit(StoreValue(Some(v.entry), Some(v.varType)));
      Emit(Jump(GOTO, topLabel));
      Emit(Place(goodbyeForLoop));
    }

    method EmitProcedureCall(r: Routine, args: Option<seq<Expr>>)
      requires args.Some? ==> |args.value| >= |r.params|
      modifies this`code, this`labelCount
      ensures Gen(code, labelCount, dropped) == if cfg.homework then old(Gen(code, labelCount, dropped)) else CallSteps(r, args, cfg.programName, old(Gen(code, labelCount, dropped)))
    {
      if cfg.homework {
        return;
      }
      EmitCall(r, args);
    }

    /** A function call inside an expression: the same call sequence. */
    method EmitFunctionCall(r: Routine, args: Option<seq<Expr>>)
      requires args.Some? ==> |args.value| >= |r.params|
      modifies this`code, this`labelCount
      ensures Gen(code, labelCount, dropped) == if cfg.homework then old(Gen(code, labelCount, dropped)) else CallSteps(r, args, cfg.programName, old(Gen(code, labelCount, dropped)))
    {
      if cfg.homework {
        return;
      }
      EmitCall(r, args);
    }

    method EmitCall(r: Routine, args: Option<seq<Expr>>)
      requires args.Some? ==> |args.value| >= |r.params|
      modifies this`code, this`labelCount
      ensures Gen(code, labelCount, dropped) == CallSteps(r, args, cfg.programName, old(Gen(code, labelCount, dropped)))
    {
      if args.Some? {
        EmitArguments(args.value, r.params);
      }
      var routinePart := RoutineDescriptor(r);
      Emit(Operand(INVOKESTATIC, cfg.programName + "/" + routinePart));
    }

    /** Each actual parameter's value, an integer widened where the formal is real. */
    method EmitArguments(args: seq<Expr>, params: seq<Type>)
      requires |args| >= |params|
      modifies this`code, this`labelCount
      ensures Gen(code, labelCount, dropped) == ArgSteps(args, params, |params|, old(Gen(code, labelCount, dropped)))
    {
      for i := 0 to |params|
        invariant Gen(code, labelCount, dropped) == ArgSteps(args, params, i, old(Gen(code, labelCount, dropped)))
      {
        VisitFragment(args[i].visit);
        if TypeName(args[i].exprType) == "integer" && TypeName(params[i]) == "real" {
          Emit(Op(I2F));
        }
      }
    }

    /** The routine's name and type descriptor, built letter by letter. */
    method RoutineDescriptor(r: Routine) returns (routinePart: string)
      ensures routinePart == Descriptor(r)
    {
      routinePart := r.name + "(";
      for i := 0 to |r.params|
        invariant routinePart == r.name + "(" + ParamLetters(r.params[..i])
      {
        assert r.params[..i + 1][..i] == r.params[..i];
        var t := TypeName(r.params[i]);
        if t == "integer" {
          routinePart := routinePart + "I";
        } else if t == "real" {
          routinePart := routinePart + "F";
        } else if t == "boolean" {
          routinePart := routinePart + "Z";
        }
      }
      assert r.params[..|r.params|] == r.params;
      routinePart := routinePart + ")";
      if r.isFunction {
        var t := TypeName(r.returnType);
        if t == "integer" {
          routinePart := routinePart + "I";
        } else if t == "real" {
          routinePart := routinePart + "F";
        } else if t == "boolean" {
          routinePart := routinePart + "Z";
        }
      } else {
        routinePart := routinePart + "V";
      }
    }

    /** write when `needLF` is false, writeln when it is true. */
    method EmitWrite(args: Option<seq<WriteArg>>, needLF: bool)
      requires args.Some? ==> ArgsOk(args.value)
      modifies this
      ensures Gen(code, labelCount, dropped) == WriteSteps(args, needLF, cfg.convertString, old(Gen(code, labelCount, dropped)))
    {
      Emit(SystemOut);
      if args.None? {
        Emit(Println);
        Decrease(1);
      } else {
        var format, exprCount := CreateWriteFormat(args.value, needLF);
        Emit(Operand(LDC, format));
        if exprCount > 0 {
          EmitArgumentsArray(args.value, exprCount);
          Emit(Printf);
          Decrease(2);
          Emit(Op(POP));
        } else {
          Emit(Print);
          Decrease(2);
        }
      }
    }

    /** The printf format string and the number of expression arguments. */
    method CreateWriteFormat(args: seq<WriteArg>, needLF: bool) returns (format: string, exprCount: nat)
      requires ArgsOk(args)
      ensures format == FormatString(args, needLF, cfg.convertString)
      ensures exprCount == ExprCount(args)
    {
      exprCount := 0;
      format := "\"";
      for i := 0 to |args|
        invariant format == FormatPrefix(args[..i], cfg.convertString)
        invariant exprCount == ExprCount(args[..i])
      {
        assert args[..i + 1][..i] == args[..i];
        var a := args[i];
        var piece := ArgumentFormat(a);
        if a.text[0] != '\'' {
          exprCount := exprCount + 1;
        }
        format := format + piece;
      }
      assert args[..|args|] == args;
      format := format + (if needLF then "\\n\"" else "\"");
    }

    /** What one argument contributes to the format: a literal converted to
        Java form, an expression `%`, the optional field width and decimals,
        and the conversion letter of its type. */
    method ArgumentFormat(a: WriteArg) returns (spec: string)
      requires |a.text| > 0
      ensures spec == ArgFormat(a, cfg.convertString)
    {
      if a.text[0] == '\'' {
        return cfg.convertString(a.text);
      }
      spec := "%";
      if a.fieldWidth.Some? {
        var fw := a.fieldWidth.value;
        spec := spec + (if fw.minus then "-" else "") + fw.width;
        if fw.decimals.Some? {
          spec := spec + "." + fw.decimals.value;
        }
      }
      var t := a.expr.exprType;
      spec := spec + (if t == Integer then "d" else if t == Real then "f"
                      else if t == Boolean then "b" else if t == Char then "c" else "s");
    }

    method EmitArgumentsArray(args: seq<WriteArg>, exprCount: nat)
      requires ArgsOk(args)
      modifies this`code, this`labelCount
      ensures Gen(code, labelCount, dropped) == StoreSteps(args, Put(Put(old(Gen(code, labelCount, dropped)), LoadConstant(exprCount)), Operand(ANEWARRAY, "java/lang/Object")))
    {
      Emit(LoadConstant(exprCount));
      Emit(Operand(ANEWARRAY, "java/lang/Object"));
      ghost var start := Gen(code, labelCount, dropped);
      var index := 0;
      for i := 0 to |args|
        invariant index == ExprCount(args[..i])
        invariant Gen(code, labelCount, dropped) == StoreSteps(args[..i], start)
      {
        assert args[..i + 1][..i] == args[..i];
        var a := args[i];
        var b := BaseType(a.expr.exprType);
        if a.text[0] != '\'' {
          Emit(Op(DUP));
          Emit(LoadConstant(index));
          index := index + 1;
          VisitFragment(a.expr.visit);
          if (FormOf(b) == Scalar || FormOf(b) == Enumeration) && b != Str {
            Emit(ValueOf(b));
          }
          Emit(Op(AASTORE));
        }
      }
      assert args[..|args|] == args;
    }

    /** read when `needSkip` is false, readln when it is true. */
    method EmitRead(vars: seq<Variable>, needSkip: bool)
      modifies this`code
      ensures code == old(code) + ReadCode(vars, needSkip, cfg.programName)
    {
      EmitReadVariables(vars);
      if needSkip {
        Emit(SysIn(cfg.programName));
        Emit(NextLine);
        Emit(Op(POP));
      }
    }

    /** emitRead's loop over the variables. */
    method EmitReadVariables(vars: seq<Variable>)
      modifies this`code
      ensures code == old(code) + ReadVars(vars, cfg.programName)
    {
      for i := 0 to |vars|
        invariant code == old(code) + ReadVars(vars[..i], cfg.programName)
      {
        assert vars[..i + 1][..i] == vars[..i];
        assert ReadVars(vars[..i + 1], cfg.programName) == ReadVars(vars[..i], cfg.programName) + ReadOne(vars[i], cfg.programName);
        EmitReadVariable(vars[i]);
      }
      assert vars[..|vars|] == vars;
    }

    /** The body of emitRead's loop for one variable. */
    method EmitReadVariable(v: Variable)
      modifies this`code
      ensures code == old(code) + ReadOne(v, cfg.programName)
    {
      var sysin := SysIn(cfg.programName);
      var store := StoreValue(Some(v.entry), None);
      if v.varType == Integer {
        Emit(sysin);
        Emit(NextInt);
        Emit(store);
      } else if v.varType == Real {
        Emit(sysin);
        Emit(NextFloat);
        Emit(store);
      } else if v.varType == Boolean {
        Emit(sysin);
        Emit(NextBoolean);
        Emit(store);
      } else if v.varType == Char {
        EmitReadChar(store);
      } else {
        Emit(sysin);
        Emit(NextString);
        Emit(store);
      }
    }

    /** Reading a char: the first character of a token read with an empty
        delimiter, then the Scanner's delimiter is reset. */
    method EmitReadChar(store: Instr)
      modifies this`code
      ensures code == old(code) + [SysIn(cfg.programName), EmptyDelimiter, UseDelimiter, Op(POP),
                                   SysIn(cfg.programName), NextString, Op(ICONST_0), CharAt, store,
                                   SysIn(cfg.programName), ResetScanner]
    {
      var sysin := SysIn(cfg.programName);
      Emit(sysin);
      Emit(EmptyDelimiter);
      Emit(UseDelimiter);
      Emit(Op(POP));
      Emit(sysin);
      Emit(NextString);
      Emit(Op(ICONST_0));
      Emit(CharAt);
      Emit(store);
      Emit(sysin);
      Emit(ResetScanner);
    }
  }
}

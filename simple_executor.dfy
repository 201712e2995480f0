/** The Simple interpreter's executor: a tree walk that evaluates expressions
    to Double (here: real) and Boolean values, stores assignments into the
    variables' symbol-table entries, runs LOOP nodes until a TEST child
    yields true, prints with printf formats, and ends the program with exit
    status -2 on division by zero.

    Java's exceptions on malformed trees (a missing child, a value of the
    wrong class, a null entry) end the run as `Faulted`. Loops are given a
    budget of passes (`fuel`): a run that needs more ends as `OutOfFuel`. */
module SimpleExecutor {
  import opened Common
  import opened SimpleTree

  /** The objects the visitors return. */
  datatype Value = Num(r: real) | Bool(b: bool) | Text(s: string) | Whole(i: int) | Null

  datatype Status = Running | Exited(code: int) | Faulted | OutOfFuel

  /** What the program writes: a printf of one value, a line break, or the
      runtime-error message. */
  datatype Event = Printf(format: string, arg: Value) | Newline | Message(text: string)

  /** The executor's state: the line of the statement visited last, the
      values in the variables' entries, the output so far, and whether the
      program is still running. */
  datatype Machine = Machine(lineNumber: int, store: map<string, real>, output: seq<Event>, status: Status)

  datatype Step = Step(v: Value, m: Machine)

  datatype PassResult = PassResult(m: Machine, stop: bool)

  predicate IsStatement(t: NodeType)
  {
    t in {COMPOUND, ASSIGN, LOOP, WRITE, WRITELN}
  }

  /** Java's (long) cast of a double, for values in range: toward zero. */
  function Trunc(r: real): (i: int)
    ensures 0.0 <= r ==> i as real <= r < i as real + 1.0
    ensures r < 0.0 ==> i as real - 1.0 < r <= i as real
  {
    if r >= 0.0 then r.Floor else -((-r).Floor)
  }

  /** The object in a constant node's `value` field. */
  function ConstantValue(c: Option<Constant>): Value
  {
    match c
    case None => Null
    case Some(LongConst(i)) => Whole(i)
    case Some(DoubleConst(r)) => Num(r)
    case Some(StringConst(s)) => Text(s)
  }

  /** runtimeError: prints the message with the current line number and the
      node's text, then exits with status -2. */
  function ErrorExit(m: Machine, t: Tree, message: string): Machine
  {
    var text := if t.text.Some? then t.text.value else "null";
    m.(output := m.output + [Message("RUNTIME ERROR at line " + IntToString(m.lineNumber) + ": " + message + ": " + text + "\n")],
       status := Exited(-2))
  }

  function Fault(m: Machine): Machine
  {
    m.(status := Faulted)
  }

  // ---------------------------------------------------------------------------
  // The walk, as functions of the state.

  /** What visiting `t` returns and the state it leaves. */
  function Eval(t: Tree, m: Machine, fuel: nat): Step
    decreases fuel, t, 2
  {
    if m.status != Running then Step(Null, m)
    else match t.nodeType
      case PROGRAM => if |t.children| == 0 then Step(Null, Fault(m)) else Eval(t.children[0], m, fuel)
      case TEST => if |t.children| == 0 then Step(Null, Fault(m)) else Eval(t.children[0], m, fuel)
      case COMPOUND => Step(Null, EvalAll(t.children, m.(lineNumber := t.lineNumber), fuel))
      case ASSIGN => Step(Null, Assigned(t, m.(lineNumber := t.lineNumber), fuel))
      case LOOP => Step(Null, Looped(t.children, m.(lineNumber := t.lineNumber), fuel))
      case WRITE => Step(Null, Printed(t.children, m.(lineNumber := t.lineNumber), fuel))
      case WRITELN =>
        var m1 := m.(lineNumber := t.lineNumber);
        var m2 := if |t.children| > 0 then Printed(t.children, m1, fuel) else m1;
        Step(Null, if m2.status == Running then m2.(output := m2.output + [Newline]) else m2)
      case VARIABLE =>
        if t.entry.None? then Step(Null, Fault(m))
        else Step(if t.entry.value in m.store then Num(m.store[t.entry.value]) else Null, m)
      case INTEGER_CONSTANT =>
        if t.value.Some? && t.value.value.LongConst? then Step(Num(t.value.value.i as real), m) else Step(Null, Fault(m))
      case REAL_CONSTANT => Step(ConstantValue(t.value), m)
      case STRING_CONSTANT => Step(ConstantValue(t.value), m)
      case _ =>
        if |t.children| == 0 then Step(Null, Fault(m))
        else
          var s1 := Eval(t.children[0], m, fuel);
          if s1.m.status != Running then Step(Null, s1.m)
          else if !s1.v.Num? || |t.children| < 2 then Step(Null, Fault(s1.m))
          else
            var s2 := Eval(t.children[1], s1.m, fuel);
            if s2.m.status != Running then Step(Null, s2.m)
            else if !s2.v.Num? then Step(Null, Fault(s2.m))
            else Binary(t, s1.v.r, s2.v.r, s2.m)
  }

  /** A binary operator applied to the values of its operands. */
  function Binary(t: Tree, a: real, b: real, m: Machine): Step
  {
    match t.nodeType
    case EQ => Step(Bool(a == b), m)
    case LT => Step(Bool(a < b), m)
    case ADD => Step(Num(a + b), m)
    case SUBTRACT => Step(Num(a - b), m)
    case MULTIPLY => Step(Num(a * b), m)
    case DIVIDE => if b != 0.0 then Step(Num(a / b), m) else Step(Num(0.0), ErrorExit(m, t, "Division by zero"))
    case _ => Step(Num(0.0), m)
  }

  /** Visits the nodes in order; once the program stops, nothing more runs. */
  function EvalAll(ts: seq<Tree>, m: Machine, fuel: nat): Machine
    decreases fuel, ts, 0
  {
    if ts == [] then m else Eval(ts[|ts| - 1], EvalAll(ts[..|ts| - 1], m, fuel), fuel).m
  }

  /** The right-hand side's value goes into the left-hand side's entry; a
      null value empties the entry. */
  function Assigned(t: Tree, m: Machine, fuel: nat): Machine
    decreases fuel, t, 1
  {
    if |t.children| < 2 then Fault(m)
    else
      var s := Eval(t.children[1], m, fuel);
      if s.m.status != Running then s.m
      else if !(s.v.Num? || s.v.Null?) || t.children[0].entry.None? then Fault(s.m)
      else if s.v.Null? then s.m.(store := s.m.store - {t.children[0].entry.value})
      else s.m.(store := s.m.store[t.children[0].entry.value := s.v.r])
  }

  /** One pass over a loop's children, stopping after a TEST that yields true. */
  function LoopPass(ts: seq<Tree>, m: Machine, fuel: nat): PassResult
    decreases fuel, ts, 0
  {
    if ts == [] then PassResult(m, false)
    else
      var p := LoopPass(ts[..|ts| - 1], m, fuel);
      if p.stop || p.m.status != Running then p
      else
        var node := ts[|ts| - 1];
        var s := Eval(node, p.m, fuel);
        if s.m.status != Running || node.nodeType != TEST then PassResult(s.m, false)
        else if s.v.Bool? then PassResult(s.m, s.v.b)
        else PassResult(Fault(s.m), false)
  }

  /** Passes over the children until one stops; each pass costs one unit of fuel. */
  function Looped(ts: seq<Tree>, m: Machine, fuel: nat): Machine
    decreases fuel, ts, 1
  {
    if m.status != Running then m
    else if fuel == 0 then m.(status := OutOfFuel)
    else
      var p := LoopPass(ts, m, fuel);
      if p.stop || p.m.status != Running then p.m else Looped(ts, p.m, fuel - 1)
  }

  /** The printf format for a write argument: `%[w].[d]f` for a variable,
      `%[w]s` otherwise. */
  function Format(valueType: NodeType, fieldWidth: int, decimalPlaces: int): string
  {
    if valueType == VARIABLE then
      "%" + (if fieldWidth >= 0 then IntToString(fieldWidth) else "")
      + (if decimalPlaces >= 0 then "." + IntToString(decimalPlaces) else "") + "f"
    else
      "%" + (if fieldWidth > 0 then IntToString(fieldWidth) else "") + "s"
  }

  /** printValue: the width child, then the decimal-places child, are
      evaluated first (a width of -1 and 0 places when absent); then the
      value, which is printed with its format. */
  function Printed(ts: seq<Tree>, m: Machine, fuel: nat): Machine
    decreases fuel, ts, 1
  {
    if |ts| > 1 then
      var sw := Eval(ts[1], m, fuel);
      if sw.m.status != Running then sw.m
      else if !sw.v.Num? then Fault(sw.m)
      else if |ts| > 2 then
        var sd := Eval(ts[2], sw.m, fuel);
        if sd.m.status != Running then sd.m
        else if !sd.v.Num? then Fault(sd.m)
        else PrintedWith(ts, Trunc(sw.v.r), Trunc(sd.v.r), sd.m, fuel)
      else PrintedWith(ts, Trunc(sw.v.r), 0, sw.m, fuel)
    else PrintedWith(ts, -1, 0, m, fuel)
  }

  function PrintedWith(ts: seq<Tree>, fieldWidth: int, decimalPlaces: int, m: Machine, fuel: nat): Machine
    decreases fuel, ts, 0
  {
    if |ts| == 0 then Fault(m)
    else
      var s := Eval(ts[0], m, fuel);
      if s.m.status != Running then s.m
      else if ts[0].nodeType == VARIABLE && !(s.v.Num? || s.v.Null?) then Fault(s.m)
      else if ts[0].nodeType != VARIABLE && !(s.v.Text? || s.v.Null?) then Fault(s.m)
      else if ts[0].nodeType == VARIABLE && fieldWidth == 0 then Fault(s.m)   // `%0…f`: zero padding with no width
      else s.m.(output := s.m.output + [Printf(Format(ts[0].nodeType, fieldWidth, decimalPlaces), s.v)])
  }

  // ---------------------------------------------------------------------------
  // The executor object: the same walk, statement by statement.

  class Executor {
    var lineNumber: int
    var store: map<string, real>
    var output: seq<Event>
    var status: Status

    function State(): Machine
      reads this
    {
      Machine(lineNumber, store, output, status)
    }

    /** An executor over the given variable values, before any statement. */
    constructor (store: map<string, real>)
      ensures State() == Machine(0, store, [], Running)
    {
      lineNumber := 0;
      this.store := store;
      output := [];
      status := Running;
    }

    /** Dispatches on the node's type; a stopped program runs nothing more. */
    method Visit(node: Tree, fuel: nat) returns (v: Value)
      modifies this
      ensures Step(v, State()) == Eval(node, old(State()), fuel)
      decreases fuel, node, 3
    {
      if status != Running {
        return Null;
      }
      match node.nodeType
      case PROGRAM => v := VisitProgram(node, fuel);
      case COMPOUND => v := VisitStatement(node, fuel);
      case ASSIGN => v := VisitStatement(node, fuel);
      case LOOP => v := VisitStatement(node, fuel);
      case WRITE => v := VisitStatement(node, fuel);
      case WRITELN => v := VisitStatement(node, fuel);
      case TEST => v := VisitTest(node, fuel);
      case _ => v := VisitExpression(node, fuel);
    }

    method VisitProgram(node: Tree, fuel: nat) returns (v: Value)
      requires status == Running && node.nodeType == PROGRAM
      modifies this
      ensures Step(v, State()) == Eval(node, old(State()), fuel)
      decreases fuel, node, 2
    {
      if |node.children| == 0 {
        status := Faulted;
        return Null;
      }
      v := Visit(node.children[0], fuel);
    }

    /** Records the statement's line, then runs it. */
    method VisitStatement(node: Tree, fuel: nat) returns (v: Value)
      requires status == Running && IsStatement(node.nodeType)
      modifies this
      ensures Step(v, State()) == Eval(node, old(State()), fuel)
      decreases fuel, node, 2
    {
      lineNumber := node.lineNumber;
      if node.nodeType == COMPOUND {
        VisitCompound(node, fuel);
      } else if node.nodeType == ASSIGN {
        VisitAssign(node, fuel);
      } else if node.nodeType == LOOP {
        VisitLoop(node, fuel);
      } else if node.nodeType == WRITE {
        VisitWrite(node, fuel);
      } else {
        VisitWriteln(node, fuel);
      }
      v := Null;
    }

    method VisitCompound(node: Tree, fuel: nat)
      modifies this
      ensures State() == EvalAll(node.children, old(State()), fuel)
      decreases fuel, node, 1
    {
      var i := 0;
      while i < |node.children|
        invariant 0 <= i <= |node.children|
        invariant State() == EvalAll(node.children[..i], old(State()), fuel)
      {
        var ignored := Visit(node.children[i], fuel);
        assert node.children[..i + 1][..i] == node.children[..i];
        i := i + 1;
      }
      assert node.children[..i] == node.children;
    }

    method VisitAssign(node: Tree, fuel: nat)
      modifies this
      ensures State() == Assigned(node, old(State()), fuel)
      decreases fuel, node, 1
    {
      if |node.children| < 2 {
        status := Faulted;
        return;
      }
      var lhs := node.children[0];
      var rhs := node.children[1];
      var value := Visit(rhs, fuel);
      if status != Running {
        return;
      }
      if !(value.Num? || value.Null?) || lhs.entry.None? {
        status := Faulted;
        return;
      }
      if value.Null? {
        store := store - {lhs.entry.value};
      } else {
        store := store[lhs.entry.value := value.r];
      }
    }

    /** Runs passes over the children until a TEST child yields true; a
        pass beyond the fuel ends the run as OutOfFuel. */
    method VisitLoop(node: Tree, fuel: nat)
      modifies this
      ensures State() == Looped(node.children, old(State()), fuel)
      decreases fuel, node, 1
    {
      var ts := node.children;
      var b := false;
      var f: nat := fuel;
      while !b && status == Running
        invariant f <= fuel
        invariant !b ==> Looped(ts, State(), f) == Looped(ts, old(State()), fuel)
        invariant b ==> State() == Looped(ts, old(State()), fuel)
        decreases f + (if !b && status == Running then 1 else 0)
      {
        if f == 0 {
          status := OutOfFuel;
        } else {
          ghost var start := State();
          var i := 0;
          while i < |ts| && !b && status == Running
            invariant 0 <= i <= |ts|
            invariant PassResult(State(), b) == LoopPass(ts[..i], start, f)
          {
            var child := ts[i];
            var value := Visit(child, f);
            if status == Running && child.nodeType == TEST {
              if value.Bool? {
                b := value.b;
              } else {
                status := Faulted;
              }
            }
            assert ts[..i + 1][..i] == ts[..i];
            i := i + 1;
          }
          PassSettles(ts, i, start, f);
          if !b && status == Running {
            f := f - 1;
          }
        }
      }
    }

    method VisitTest(node: Tree, fuel: nat) returns (v: Value)
      requires status == Running && node.nodeType == TEST
      modifies this
      ensures Step(v, State()) == Eval(node, old(State()), fuel)
      decreases fuel, node, 2
    {
      if |node.children| == 0 {
        status := Faulted;
        return Null;
      }
      v := Visit(node.children[0], fuel);
    }

    method VisitWrite(node: Tree, fuel: nat)
      modifies this
      ensures State() == Printed(node.children, old(State()), fuel)
      decreases fuel, node, 1
    {
      PrintValue(node.children, fuel);
    }

    /** Prints the value, if any, then a line break. */
    method VisitWriteln(node: Tree, fuel: nat)
      modifies this
      ensures var m := if |node.children| > 0 then Printed(node.children, old(State()), fuel) else old(State());
              State() == if m.status == Running then m.(output := m.output + [Newline]) else m
      decreases fuel, node, 1
    {
      if |node.children| > 0 {
        PrintValue(node.children, fuel);
      }
      if status == Running {
        output := output + [Newline];
      }
    }

    /** Evaluates the optional width and decimal places, builds the format,
        then evaluates and prints the value. */
    method PrintValue(children: seq<Tree>, fuel: nat)
      modifies this
      ensures State() == Printed(children, old(State()), fuel)
      decreases fuel, children, 1
    {
      var fieldWidth := -1;
      var decimalPlaces := 0;
      if |children| > 1 {
        var fw := Visit(children[1], fuel);
        if status != Running {
          return;
        }
        if !fw.Num? {
          status := Faulted;
          return;
        }
        fieldWidth := Trunc(fw.r);
        if |children| > 2 {
          var dp := Visit(children[2], fuel);
          if status != Running {
            return;
          }
          if !dp.Num? {
            status := Faulted;
            return;
          }
          decimalPlaces := Trunc(dp.r);
        }
      }
      PrintWith(children, fieldWidth, decimalPlaces, fuel);
    }

    /** Builds the format for the value node, then evaluates and prints it. */
    method PrintWith(children: seq<Tree>, fieldWidth: int, decimalPlaces: int, fuel: nat)
      modifies this
      ensures State() == PrintedWith(children, fieldWidth, decimalPlaces, old(State()), fuel)
      decreases fuel, children, 0
    {
      if |children| == 0 {
        status := Faulted;
        return;
      }
      var valueNode := children[0];
      var format := "%";
      var value: Value;
      if valueNode.nodeType == VARIABLE {
        if fieldWidth >= 0 {
          format := format + IntToString(fieldWidth);
        }
        if decimalPlaces >= 0 {
          format := format + "." + IntToString(decimalPlaces);
        }
        format := format + "f";
        value := Visit(valueNode, fuel);
        if status != Running {
          return;
        }
        if !(value.Num? || value.Null?) {
          status := Faulted;
          return;
        }
        if fieldWidth == 0 {
          // printf reads the 0 as the zero-padding flag, which needs a width.
          status := Faulted;
          return;
        }
      } else {
        if fieldWidth > 0 {
          format := format + IntToString(fieldWidth);
        }
        format := format + "s";
        value := Visit(valueNode, fuel);
        if status != Running {
          return;
        }
        if !(value.Text? || value.Null?) {
          status := Faulted;
          return;
        }
      }
      assert format == Format(valueNode.nodeType, fieldWidth, decimalPlaces);
      output := output + [Printf(format, value)];
    }

    /** Single-operand expressions read a variable or a constant; the rest
        are binary. */
    method VisitExpression(node: Tree, fuel: nat) returns (v: Value)
      requires status == Running && !IsStatement(node.nodeType) && node.nodeType != PROGRAM && node.nodeType != TEST
      modifies this
      ensures Step(v, State()) == Eval(node, old(State()), fuel)
      decreases fuel, node, 2
    {
      if node.nodeType == VARIABLE {
        v := VisitVariable(node);
      } else if node.nodeType == INTEGER_CONSTANT {
        v := VisitIntegerConstant(node);
      } else if node.nodeType == REAL_CONSTANT || node.nodeType == STRING_CONSTANT {
        v := ConstantValue(node.value);
      } else {
        v := VisitBinary(node, fuel);
      }
    }

    /** The value in the variable's entry; null when it holds none. */
    method VisitVariable(node: Tree) returns (v: Value)
      requires status == Running && node.nodeType == VARIABLE
      modifies this
      ensures Step(v, State()) == Eval(node, old(State()), 0)
    {
      if node.entry.None? {
        status := Faulted;
        return Null;
      }
      v := if node.entry.value in store then Num(store[node.entry.value]) else Null;
    }

    /** The Long constant, widened to a double. */
    method VisitIntegerConstant(node: Tree) returns (v: Value)
      requires status == Running && node.nodeType == INTEGER_CONSTANT
      modifies this
      ensures Step(v, State()) == Eval(node, old(State()), 0)
    {
      if node.value.Some? && node.value.value.LongConst? {
        v := Num(node.value.value.i as real);
      } else {
        status := Faulted;
        v := Null;
      }
    }

    /** Both operands are evaluated, left first, and must be Doubles. */
    method VisitBinary(node: Tree, fuel: nat) returns (v: Value)
      requires status == Running && node.nodeType in {ADD, SUBTRACT, MULTIPLY, DIVIDE, EQ, LT}
      modifies this
      ensures Step(v, State()) == Eval(node, old(State()), fuel)
      decreases fuel, node, 1
    {
      if |node.children| == 0 {
        status := Faulted;
        return Null;
      }
      var value1 := Visit(node.children[0], fuel);
      if status != Running {
        return Null;
      }
      if !value1.Num? || |node.children| < 2 {
        status := Faulted;
        return Null;
      }
      var value2 := Visit(node.children[1], fuel);
      if status != Running {
        return Null;
      }
      if !value2.Num? {
        status := Faulted;
        return Null;
      }
      v := Operate(node, value1.r, value2.r);
    }

    /** A relational or arithmetic operator on two doubles; dividing by zero
        is a runtime error. */
    method Operate(node: Tree, a: real, b: real) returns (v: Value)
      modifies this
      ensures Step(v, State()) == Binary(node, a, b, old(State()))
    {
      match node.nodeType {
        case EQ => v := Bool(a == b);
        case LT => v := Bool(a < b);
        case ADD => v := Num(a + b);
        case SUBTRACT => v := Num(a - b);
        case MULTIPLY => v := Num(a * b);
        case DIVIDE =>
          if b != 0.0 {
            v := Num(a / b);
          } else {
            RuntimeError(node, "Division by zero");
            v := Num(0.0);
            assert Binary(node, a, b, old(State())) == Step(v, ErrorExit(old(State()), node, "Division by zero"));
          }
        case _ => v := Num(0.0);
      }
    }

    /** Prints the message with the current line number and ends the program
        with exit status -2. */
    method RuntimeError(node: Tree, message: string)
      modifies this
      ensures State() == ErrorExit(old(State()), node, message)
    {
      var text := if node.text.Some? then node.text.value else "null";
      output := output + [Message("RUNTIME ERROR at line " + IntToString(lineNumber) + ": " + message + ": " + text + "\n")];
      status := Exited(-2);
    }
  }

  /** Once a pass has stopped, at a true TEST or because the program
      stopped, the children after that point are not visited. */
  lemma {:induction false} PassSettles(ts: seq<Tree>, i: nat, m: Machine, fuel: nat)
    requires i <= |ts|
    requires i == |ts| || LoopPass(ts[..i], m, fuel).stop || LoopPass(ts[..i], m, fuel).m.status != Running
    ensures LoopPass(ts, m, fuel) == LoopPass(ts[..i], m, fuel)
    decreases |ts| - i
  {
    if i == |ts| {
      assert ts[..i] == ts;
    } else {
      var front := ts[..|ts| - 1];
      assert front[..i] == ts[..i];
      PassSettles(front, i, m, fuel);
    }
  }

  // ---------------------------------------------------------------------------
  // What the walk means.

  /** Visiting the statements of `a` and then those of `b` is visiting `a + b`. */
  lemma {:induction false} EvalAllAppend(a: seq<Tree>, b: seq<Tree>, m: Machine, fuel: nat)
    ensures EvalAll(a + b, m, fuel) == EvalAll(b, EvalAll(a, m, fuel), fuel)
    decreases |b|
  {
    if b == [] {
      assert a + b == a;
    } else {
      assert (a + b)[..|a + b| - 1] == a + b[..|b| - 1];
      EvalAllAppend(a, b[..|b| - 1], m, fuel);
    }
  }

  /** After an exit or a fault, no further statement changes anything. */
  lemma {:induction false} EvalAllHalted(ts: seq<Tree>, m: Machine, fuel: nat)
    requires m.status != Running
    ensures EvalAll(ts, m, fuel) == m
    decreases |ts|
  {
    if ts != [] {
      EvalAllHalted(ts[..|ts| - 1], m, fuel);
    }
  }

  /** A tree of variables, constants and operators only. */
  predicate Expression(t: Tree)
    decreases t
  {
    t.nodeType in {VARIABLE, INTEGER_CONSTANT, REAL_CONSTANT, STRING_CONSTANT, ADD, SUBTRACT, MULTIPLY, DIVIDE, EQ, LT}
    && forall i :: 0 <= i < |t.children| ==> Expression(t.children[i])
  }

  /** The value of an expression in a store, independent of any executor
      state; None where evaluating it stops the program. */
  function Denote(t: Tree, store: map<string, real>): Option<Value>
    decreases t
  {
    match t.nodeType
    case VARIABLE =>
      if t.entry.None? then None
      else if t.entry.value in store then Some(Num(store[t.entry.value])) else Some(Null)
    case INTEGER_CONSTANT =>
      if t.value.Some? && t.value.value.LongConst? then Some(Num(t.value.value.i as real)) else None
    case REAL_CONSTANT => Some(ConstantValue(t.value))
    case STRING_CONSTANT => Some(ConstantValue(t.value))
    case _ =>
      if |t.children| < 2 then None
      else
        var left := Denote(t.children[0], store);
        var right := Denote(t.children[1], store);
        if left.Some? && left.value.Num? && right.Some? && right.value.Num?
        then Operation(t.nodeType, left.value.r, right.value.r)
        else None
  }

  /** The meaning of an operator: None for division by zero. */
  function Operation(op: NodeType, a: real, b: real): Option<Value>
  {
    match op
    case EQ => Some(Bool(a == b))
    case LT => Some(Bool(a < b))
    case ADD => Some(Num(a + b))
    case SUBTRACT => Some(Num(a - b))
    case MULTIPLY => Some(Num(a * b))
    case DIVIDE => if b == 0.0 then None else Some(Num(a / b))
    case _ => None
  }

  /** Evaluating an expression changes no variable and no line number; the
      program keeps running exactly when the expression has a value, and
      then the value is the expression's meaning and nothing is printed. */
  lemma {:induction false} EvalDenotes(t: Tree, m: Machine, fuel: nat)
    requires Expression(t) && m.status == Running
    ensures var s := Eval(t, m, fuel);
            && (Denote(t, m.store).Some? <==> s.m.status == Running)
            && (Denote(t, m.store).Some? ==> s == Step(Denote(t, m.store).value, m))
            && s.m.store == m.store && s.m.lineNumber == m.lineNumber
            && s.m.status != OutOfFuel
    decreases t
  {
    if t.nodeType in {ADD, SUBTRACT, MULTIPLY, DIVIDE, EQ, LT} && |t.children| > 0 {
      var s1 := Eval(t.children[0], m, fuel);
      EvalDenotes(t.children[0], m, fuel);
      if s1.m.status == Running && s1.v.Num? && |t.children| >= 2 {
        EvalDenotes(t.children[1], s1.m, fuel);
        var s2 := Eval(t.children[1], s1.m, fuel);
        if s2.m.status == Running && s2.v.Num? {
          assert Eval(t, m, fuel) == Binary(t, s1.v.r, s2.v.r, m);
        }
      }
    }
  }

  /** A division whose divisor denotes zero ends in the runtime error. */
  lemma DivisionStep(t: Tree, m: Machine, fuel: nat)
    requires t.nodeType == DIVIDE && Expression(t) && |t.children| >= 2 && m.status == Running
    requires Denote(t.children[0], m.store).Some? && Denote(t.children[0], m.store).value.Num?
    requires Denote(t.children[1], m.store) == Some(Num(0.0))
    ensures Eval(t, m, fuel) == Step(Num(0.0), ErrorExit(m, t, "Division by zero"))
  {
    EvalDenotes(t.children[0], m, fuel);
    EvalDenotes(t.children[1], m, fuel);
  }

  lemma ErrorExitParts(m: Machine, t: Tree, message: string)
    ensures var r := ErrorExit(m, t, message);
            && r.status == Exited(-2) && r.store == m.store && r.lineNumber == m.lineNumber
            && r.output == m.output + [Message("RUNTIME ERROR at line " + IntToString(m.lineNumber) + ": " + message + ": "
                                               + (if t.text.Some? then t.text.value else "null") + "\n")]
  {
  }

  /** Dividing by zero prints the runtime-error message with the line of the
      statement being run and the node's text, leaves every variable as it
      was and ends the program with status -2. */
  lemma DivisionByZeroExits(t: Tree, m: Machine, fuel: nat)
    requires t.nodeType == DIVIDE && Expression(t) && |t.children| >= 2 && m.status == Running
    requires Denote(t.children[0], m.store).Some? && Denote(t.children[0], m.store).value.Num?
    requires Denote(t.children[1], m.store) == Some(Num(0.0))
    ensures var after := Eval(t, m, fuel).m;
            && after.status == Exited(-2) && after.store == m.store && after.lineNumber == m.lineNumber
            && after.output == m.output + [Message("RUNTIME ERROR at line " + IntToString(m.lineNumber)
                                                   + ": Division by zero: "
                                                   + (if t.text.Some? then t.text.value else "null") + "\n")]
  {
    DivisionStep(t, m, fuel);
    ErrorExitParts(m, t, "Division by zero");
    var line := "RUNTIME ERROR at line " + IntToString(m.lineNumber);
    var text := if t.text.Some? then t.text.value else "null";
    assert line + ": " + "Division by zero" + ": " + text + "\n" == line + ": Division by zero: " + text + "\n";
  }

  /** An assignment of an expression with a Double value puts that value into
      the left-hand variable's entry and changes no other entry. */
  lemma AssignStores(t: Tree, m: Machine, fuel: nat, name: string, r: real)
    requires t.nodeType == ASSIGN && |t.children| >= 2 && t.children[0].entry == Some(name)
    requires Expression(t.children[1]) && m.status == Running
    requires Denote(t.children[1], m.store) == Some(Num(r))
    ensures var after := Eval(t, m, fuel).m;
            && after.status == Running && after.output == m.output && after.lineNumber == t.lineNumber
            && name in after.store && after.store[name] == r
            && forall x :: x != name ==> (x in after.store <==> x in m.store) && (x in m.store ==> after.store[x] == m.store[x])
  {
    EvalDenotes(t.children[1], m.(lineNumber := t.lineNumber), fuel);
  }

  /** A pass stops at the first TEST that holds: when the children before
      `k` leave the program running without a true test, and child `k` is a
      test whose expression denotes true, the loop ends in the state those
      children left and nothing after child `k` runs. */
  lemma LoopExitsAtTrueTest(t: Tree, k: nat, m: Machine, fuel: nat)
    requires t.nodeType == LOOP && k < |t.children| && m.status == Running && fuel > 0
    requires !LoopPass(t.children[..k], m.(lineNumber := t.lineNumber), fuel).stop
    requires LoopPass(t.children[..k], m.(lineNumber := t.lineNumber), fuel).m.status == Running
    requires t.children[k].nodeType == TEST && |t.children[k].children| > 0
    requires Expression(t.children[k].children[0])
    requires Denote(t.children[k].children[0], LoopPass(t.children[..k], m.(lineNumber := t.lineNumber), fuel).m.store) == Some(Bool(true))
    ensures Eval(t, m, fuel).m == LoopPass(t.children[..k], m.(lineNumber := t.lineNumber), fuel).m
  {
    var m1 := m.(lineNumber := t.lineNumber);
    var p := LoopPass(t.children[..k], m1, fuel);
    EvalDenotes(t.children[k].children[0], p.m, fuel);
    var front := t.children[..k + 1];
    assert front[..|front| - 1] == t.children[..k] && front[|front| - 1] == t.children[k];
    assert LoopPass(front, m1, fuel) == PassResult(p.m, true);
    PassSettles(t.children, k + 1, m1, fuel);
  }

  /** Where the width's and the places' digits sit in a variable's format. */
  lemma FormatPieces(w: nat, d: nat)
    ensures var f := Format(VARIABLE, w, d);
            var dot := 1 + |NatToString(w)|;
            && |f| == |NatToString(w)| + |NatToString(d)| + 3 && f[0] == '%' && f[dot] == '.' && f[|f| - 1] == 'f'
            && f[1..dot] == NatToString(w) && f[dot + 1..|f| - 1] == NatToString(d)
  {
    var digitsW, digitsD := NatToString(w), NatToString(d);
    var f := Format(VARIABLE, w, d);
    var head, tail := "%" + digitsW, "." + digitsD;
    var dot := 1 + |digitsW|;
    assert |f| == |digitsW| + |digitsD| + 3 && f[0] == '%' && f[dot] == '.' && f[|f| - 1] == 'f' by {
      assert f == head + tail + "f";
    }
    assert f[1..dot] == digitsW by {
      assert f == head + tail + "f";
      assert f[1..dot] == head[1..];
    }
    assert f[dot + 1..|f| - 1] == digitsD by {
      assert f == head + tail + "f";
      assert f[dot + 1..|f| - 1] == tail[1..];
    }
  }

  /** A variable's format reads back as `%`, the width, `.`, the number of
      decimal places and `f`. */
  lemma FormatReadsBack(w: nat, d: nat)
    ensures var f := Format(VARIABLE, w, d);
            var dot := 1 + |NatToString(w)|;
            && dot < |f| - 1 && f[0] == '%' && f[dot] == '.' && f[|f| - 1] == 'f'
            && f[1..dot] == NatToString(w) && ParseNat(f[1..dot]) == w
            && f[dot + 1..|f| - 1] == NatToString(d) && ParseNat(f[dot + 1..|f| - 1]) == d
  {
    FormatPieces(w, d);
    ParseNatOfNatToString(w);
    ParseNatOfNatToString(d);
  }

  /** Writing a variable with a field width of 0 builds `%0.0f`; printf reads
      the 0 as the zero-padding flag, which needs a width, and throws, so the
      program stops and prints nothing. */
  lemma ZeroWidthFaults(t: Tree, w: Tree, m: Machine, fuel: nat)
    requires t.nodeType == VARIABLE && t.entry.Some? && m.status == Running
    requires w.nodeType == INTEGER_CONSTANT && w.value == Some(LongConst(0))
    ensures Printed([t, w], m, fuel) == Fault(m)
  {
    var ts := [t, w];
    assert ts[1] == w && ts[0] == t;
    assert Eval(w, m, fuel) == Step(Num(0.0), m);
    assert Trunc(0.0) == 0;
    var s := Eval(t, m, fuel);
    assert s.m == m && (s.v.Num? || s.v.Null?);
    assert PrintedWith(ts, 0, 0, m, fuel) == Fault(m);
  }

  /** Writing a variable without a width or a number of places prints it
      with format `%.0f`: no decimal places. */
  lemma WriteVariableDefaults(t: Tree, m: Machine, fuel: nat)
    requires t.nodeType == VARIABLE && t.entry.Some? && t.entry.value in m.store && m.status == Running
    ensures Printed([t], m, fuel) == m.(output := m.output + [Printf("%.0f", Num(m.store[t.entry.value]))])
  {
    assert IntToString(0) == "0";
    assert Format(VARIABLE, -1, 0) == "%.0f";
    assert Eval(t, m, fuel) == Step(Num(m.store[t.entry.value]), m);
  }
}

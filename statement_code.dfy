/** What the Pascal compiler's StatementGenerator emits for each statement,
    as functions of the annotated statement and the label counter.

    The generator's inputs are annotated parse-tree contexts. Here a statement
    is a datatype carrying exactly what the generator reads from its context:
    the types the semantic pass attached, the symbol entries by name, the
    case jump table, and, for every expression and modified variable, what
    visiting it emits. The compiler's `visit` of a statement dispatches on
    its kind; `StmtCode` is that dispatch. */
module StatementCode {
  import opened Common
  import opened Jvm

  /** What visiting an expression or a variable contributes: the code it
      emits when the label counter stands at a given label, and how many
      labels it mints (relational operators, for example, mint labels).
      Expression code generation itself is not part of this model. */
  datatype Fragment = Fragment(code: Label -> seq<Instr>, width: nat)

  datatype Modifier = Subscript | Field(field: string, fieldType: Type)

  /** A variable context: its symbol entry (by name) and the entry's type,
      the type of the whole variable after its modifiers, the modifiers, and
      what visiting the variable emits (used when it has modifiers). */
  datatype Variable = Variable(entry: string, entryType: Type, varType: Type,
                               modifiers: seq<Modifier>, visit: Fragment)

  /** An expression context: what visiting it emits, and its type. */
  datatype Expr = Expr(visit: Fragment, exprType: Type)

  /** `:width[:decimals]` after a write argument; `minus` is a "-" sign. */
  datatype FieldWidth = FieldWidth(minus: bool, width: string, decimals: Option<string>)

  /** A write argument: its source text, its expression and its field width. */
  datatype WriteArg = WriteArg(text: string, expr: Expr, fieldWidth: Option<FieldWidth>)

  /** A routine's symbol entry: name, kind, parameter types, return type. */
  datatype Routine = Routine(name: string, isFunction: bool, params: seq<Type>, returnType: Type)

  /** A case label constant as the semantic pass stores it in the jump table. */
  datatype CaseKey = IntKey(i: int) | CharKey(c: char) | StrKey(s: string)

  /** One jump-table entry: a label constant and the branch statement it
      selects, identified by its index among the case's branches. */
  datatype CaseEntry = CaseEntry(key: CaseKey, target: nat)

  /** The statements the generator handles. For `Case`, `entries` lists the
      jump table in its HashMap iteration order, and `bodyOrder` lists the
      labelled branch statements in the iteration order of the generator's
      statement-to-label HashMap; both orders come from hashing, and the
      model takes them as given. */
  datatype Stmt =
    | Compound(stmts: seq<Stmt>)
    | Assign(target: Variable, value: Expr)
    | If(cond: Expr, thenBranch: Stmt, elseBranch: Option<Stmt>)
    | Case(disc: Expr, branches: seq<Stmt>, entries: seq<CaseEntry>, bodyOrder: seq<nat>)
    | Repeat(stmts: seq<Stmt>, until: Expr)
    | While(cond: Expr, body: Stmt)
    | For(control: Variable, init: Expr, downTo: bool, bound: Expr, body: Stmt)
    | ProcedureCall(routine: Routine, args: Option<seq<Expr>>)
    | Write(writeArgs: Option<seq<WriteArg>>, newline: bool)
    | Read(vars: seq<Variable>, skipLine: bool)
    | Empty

  /** What the generator takes from its surroundings: whether it is the
      homework skeleton (whose if, case, while, for and call methods are
      empty), the program name used in static references, Java's
      String.hashCode, and the helper that turns a Pascal string literal
      into format-string text. */
  datatype Config = Config(homework: bool, programName: string,
                           hash: string -> int, convertString: string -> string)

  /** Emitted code, the label counter afterwards, and how much the explicit
      localStack.decrease calls took off the tracked stack depth. */
  datatype Gen = Gen(code: seq<Instr>, next: nat, drop: nat)

  /** Visiting a fragment with the counter at `n`. */
  function Visit(f: Fragment, n: nat): (g: Gen)
    ensures g.next == n + f.width && g.drop == 0
  {
    Gen(f.code(n), n + f.width, 0)
  }

  // ---------------------------------------------------------------------------
  // What the semantic pass guarantees about the trees it hands over.

  predicate SameKind(a: CaseKey, b: CaseKey)
  {
    (a.IntKey? && b.IntKey?) || (a.CharKey? && b.CharKey?) || (a.StrKey? && b.StrKey?)
  }

  predicate Distinct<T(==)>(s: seq<T>)
  {
    forall i, j :: 0 <= i < j < |s| ==> s[i] != s[j]
  }

  /** The targets in jump-table order. */
  function TargetList(entries: seq<CaseEntry>): (r: seq<nat>)
    ensures |r| == |entries|
    ensures forall i :: 0 <= i < |entries| ==> r[i] == entries[i].target
  {
    if entries == [] then [] else TargetList(entries[..|entries| - 1]) + [entries[|entries| - 1].target]
  }

  /** A jump table: non-empty (the generator reads its first key), one kind of
      key, distinct keys, targets among the branches, and a body order that
      lists each target statement once. */
  predicate JumpTableOk(branches: seq<Stmt>, entries: seq<CaseEntry>, bodyOrder: seq<nat>)
  {
    && |entries| > 0
    && (forall i :: 0 <= i < |entries| ==> SameKind(entries[i].key, entries[0].key))
    && (forall i, j :: 0 <= i < j < |entries| ==> entries[i].key != entries[j].key)
    && (forall i :: 0 <= i < |entries| ==> entries[i].target < |branches|)
    && Distinct(bodyOrder)
    && (forall j :: j in bodyOrder ==> j in TargetList(entries))
    && (forall j :: j in TargetList(entries) ==> j in bodyOrder)
  }

  predicate WellFormed(s: Stmt)
  {
    match s
    case Compound(ss) => forall i :: 0 <= i < |ss| ==> WellFormed(ss[i])
    case Assign(_, _) => true
    case If(_, t, e) => WellFormed(t) && (e.Some? ==> WellFormed(e.value))
    case Case(_, bs, es, order) =>
      JumpTableOk(bs, es, order) && forall i :: 0 <= i < |bs| ==> WellFormed(bs[i])
    case Repeat(ss, _) => forall i :: 0 <= i < |ss| ==> WellFormed(ss[i])
    case While(_, b) => WellFormed(b)
    case For(_, _, _, _, b) => WellFormed(b)
    case ProcedureCall(r, args) => args.Some? ==> |args.value| >= |r.params|
    case Write(args, _) => args.Some? ==> ArgsOk(args.value)
    case Read(_, _) => true
    case Empty => true
  }

  // ---------------------------------------------------------------------------
  // Assignment

  /** Integer-to-real widening: the target is the predefined real type and
      the expression's base type is the predefined integer type. */
  predicate Widens(target: Type, value: Type)
  {
    target == Real && BaseType(value) == Integer
  }

  /** The store that ends an assignment: into the variable's own entry when
      it has no modifiers, into the last field when the last modifier is a
      field, and into an array element otherwise. */
  function StoreFor(v: Variable): Instr
  {
    if |v.modifiers| == 0 then StoreValue(Some(v.entry), Some(v.entryType))
    else match v.modifiers[|v.modifiers| - 1]
      case Field(f, t) => StoreValue(Some(f), Some(t))
      case Subscript => StoreValue(None, Some(v.varType))
  }

  /** Target (only when it has modifiers), value, widening, store. */
  function AssignCode(target: Variable, value: Expr, n: nat): (g: Gen)
    ensures g.next >= n && g.drop == 0
  {
    var gv := if |target.modifiers| > 0 then Visit(target.visit, n) else Gen([], n, 0);
    var ge := Visit(value.visit, gv.next);
    Gen(gv.code + ge.code + (if Widens(target.varType, value.exprType) then [Op(I2F)] else []) + [StoreFor(target)],
        ge.next, 0)
  }

  // ---------------------------------------------------------------------------
  // Case

  /** The integer a case key becomes in the lookupswitch: the value of an
      integer, the code of a character, the hash of a string. */
  function Ordinal(k: CaseKey, hash: string -> int): int
  {
    match k
    case IntKey(i) => i
    case CharKey(c) => c as int
    case StrKey(s) => hash(s)
  }

  /** One label per distinct target statement, numbered from `n` in the
      order the targets first appear in the jump table. */
  function BranchLabels(entries: seq<CaseEntry>, n: nat): map<nat, Label>
  {
    if entries == [] then map[]
    else
      var m := BranchLabels(entries[..|entries| - 1], n);
      var t := entries[|entries| - 1].target;
      if t in m then m else m[t := n + |m|]
  }

  /** The keys in jump-table order, made integers. */
  function Ordinals(entries: seq<CaseEntry>, hash: string -> int): (r: seq<int>)
    ensures |r| == |entries|
    ensures forall i :: 0 <= i < |entries| ==> r[i] == Ordinal(entries[i].key, hash)
  {
    if entries == [] then []
    else Ordinals(entries[..|entries| - 1], hash) + [Ordinal(entries[|entries| - 1].key, hash)]
  }

  /** Integer key to target statement; of two keys with the same integer,
      the later one in jump-table order wins. */
  function SwitchTable(entries: seq<CaseEntry>, hash: string -> int): map<int, nat>
  {
    if entries == [] then map[]
    else
      var e := entries[|entries| - 1];
      SwitchTable(entries[..|entries| - 1], hash)[Ordinal(e.key, hash) := e.target]
  }

  function Insert(x: int, s: seq<int>): seq<int>
  {
    if s == [] || x <= s[0] then [x] + s else [s[0]] + Insert(x, s[1..])
  }

  /** Collections.sort on a list of integers: ascending, duplicates kept. */
  function Sort(s: seq<int>): seq<int>
  {
    if s == [] then [] else Insert(s[0], Sort(s[1..]))
  }

  /** The `key: label` lines of the lookupswitch, one per sorted key. A key
      with no statement or no label would have no line; SwitchEntriesDefined
      shows that the jump tables the semantic pass builds have none. */
  function SwitchEntries(keys: seq<int>, table: map<int, nat>, labels: map<nat, Label>): seq<Instr>
  {
    if keys == [] then []
    else
      var k := keys[|keys| - 1];
      SwitchEntries(keys[..|keys| - 1], table, labels)
      + (if k in table && table[k] in labels then [SwitchEntry(k, labels[table[k]])] else [])
  }

  // ---------------------------------------------------------------------------
  // Calls

  /** The descriptor letter of a type named integer, real or boolean; other
      types contribute nothing. */
  function Letter(t: Type): string
  {
    if TypeName(t) == "integer" then "I"
    else if TypeName(t) == "real" then "F"
    else if TypeName(t) == "boolean" then "Z"
    else ""
  }

  function ParamLetters(params: seq<Type>): string
  {
    if params == [] then "" else ParamLetters(params[..|params| - 1]) + Letter(params[|params| - 1])
  }

  /** `name(params)ret`, with V as the return letter of a procedure. */
  function Descriptor(r: Routine): string
  {
    r.name + "(" + ParamLetters(r.params) + ")" + (if r.isFunction then Letter(r.returnType) else "V")
  }

  /** An integer argument passed to a real parameter (compared by type name). */
  predicate NeedsWidening(arg: Type, param: Type)
  {
    TypeName(arg) == "integer" && TypeName(param) == "real"
  }

  /** Arguments 0..k-1, each followed by I2F where it needs widening. */
  function ArgumentCode(args: seq<Expr>, params: seq<Type>, k: nat, n: nat): (g: Gen)
    requires k <= |args| && k <= |params|
    ensures g.next >= n && g.drop == 0
  {
    if k == 0 then Gen([], n, 0)
    else
      var g0 := ArgumentCode(args, params, k - 1, n);
      var ga := Visit(args[k - 1].visit, g0.next);
      Gen(g0.code + ga.code + (if NeedsWidening(args[k - 1].exprType, params[k - 1]) then [Op(I2F)] else []),
          ga.next, 0)
  }

  /** How many arguments a call visits: one per parameter. The semantic pass
      only lets through calls with as many arguments as parameters. */
  function ArgCount(r: Routine, args: seq<Expr>): (k: nat)
    ensures k <= |args| && k <= |r.params|
    ensures |args| >= |r.params| ==> k == |r.params|
  {
    if |args| < |r.params| then |args| else |r.params|
  }

  function CallCode(r: Routine, args: Option<seq<Expr>>, programName: string, n: nat): (g: Gen)
    ensures g.next >= n
  {
    var ga := if args.Some? then ArgumentCode(args.value, r.params, ArgCount(r, args.value), n) else Gen([], n, 0);
    Gen(ga.code + [Operand(INVOKESTATIC, programName + "/" + Descriptor(r))], ga.next, 0)
  }

  // ---------------------------------------------------------------------------
  // Write and writeln

  predicate ArgsOk(args: seq<WriteArg>)
  {
    forall i :: 0 <= i < |args| ==> |args[i].text| > 0
  }

  /** A quoted string literal, whose text went into the format string. */
  predicate IsLiteral(a: WriteArg)
  {
    |a.text| > 0 && a.text[0] == '\''
  }

  /** The printf conversion letter, chosen by type identity. */
  function Flag(t: Type): string
  {
    if t == Integer then "d"
    else if t == Real then "f"
    else if t == Boolean then "b"
    else if t == Char then "c"
    else "s"
  }

  function WidthSpec(fw: Option<FieldWidth>): string
  {
    match fw
    case None => ""
    case Some(FieldWidth(minus, width, decimals)) =>
      (if minus then "-" else "") + width + (if decimals.Some? then "." + decimals.value else "")
  }

  /** The format text one argument contributes: a literal is converted in
      place, any other expression gets a `%` specifier. */
  function ArgFormat(a: WriteArg, convertString: string -> string): string
  {
    if IsLiteral(a) then convertString(a.text) else "%" + WidthSpec(a.fieldWidth) + Flag(a.expr.exprType)
  }

  /** The format as the loop of createWriteFormat leaves it: the opening
      quote, then each argument's contribution in order. */
  function FormatPrefix(args: seq<WriteArg>, convertString: string -> string): string
  {
    if args == [] then "\""
    else FormatPrefix(args[..|args| - 1], convertString) + ArgFormat(args[|args| - 1], convertString)
  }

  /** How many arguments are expressions rather than literals. */
  function ExprCount(args: seq<WriteArg>): nat
  {
    if args == [] then 0
    else ExprCount(args[..|args| - 1]) + (if IsLiteral(args[|args| - 1]) then 0 else 1)
  }

  /** The quoted format string, with `\n` before the closing quote for writeln. */
  function FormatString(args: seq<WriteArg>, needLF: bool, convertString: string -> string): string
  {
    FormatPrefix(args, convertString) + (if needLF then "\\n\"" else "\"")
  }

  /** Non-string scalars and enumerations are boxed before the array store. */
  predicate Boxed(t: Type)
  {
    (FormOf(t) == Scalar || FormOf(t) == Enumeration) && t != Str
  }

  /** The stores that fill the printf arguments array: the expression
      arguments of `args`, at consecutive indices from 0. */
  function ArrayStores(args: seq<WriteArg>, n: nat): (g: Gen)
    ensures g.next >= n && g.drop == 0
  {
    if args == [] then Gen([], n, 0)
    else
      var a := args[|args| - 1];
      var b := BaseType(a.expr.exprType);
      var g0 := ArrayStores(args[..|args| - 1], n);
      if IsLiteral(a) then g0
      else
        var ge := Visit(a.expr.visit, g0.next);
        Gen(g0.code + [Op(DUP), LoadConstant(ExprCount(args[..|args| - 1]))] + ge.code
            + (if Boxed(b) then [ValueOf(b)] else []) + [Op(AASTORE)],
            ge.next, 0)
  }

  const SystemOut := Operands(GETSTATIC, "java/lang/System/out", "Ljava/io/PrintStream;")
  const Println := Operand(INVOKEVIRTUAL, "java/io/PrintStream.println()V")
  const Printf := Operand(INVOKEVIRTUAL, "java/io/PrintStream/printf(Ljava/lang/String;[Ljava/lang/Object;)Ljava/io/PrintStream;")
  const Print := Operand(INVOKEVIRTUAL, "java/io/PrintStream/print(Ljava/lang/String;)V")

  function WriteCode(args: Option<seq<WriteArg>>, needLF: bool, convertString: string -> string, n: nat): (g: Gen)
    ensures g.next >= n
  {
    match args
    case None => Gen([SystemOut, Println], n, 1)
    case Some(as_) =>
      var count := ExprCount(as_);
      var prefix := [SystemOut, Operand(LDC, FormatString(as_, needLF, convertString))];
      if count > 0 then
        var ga := ArrayStores(as_, n);
        Gen(prefix + [LoadConstant(count), Operand(ANEWARRAY, "java/lang/Object")] + ga.code + [Printf, Op(POP)],
            ga.next, 2)
      else Gen(prefix + [Print], n, 2)
  }

  // ---------------------------------------------------------------------------
  // Read and readln

  function SysIn(programName: string): Instr
  {
    Operand(GETSTATIC, programName + "/_sysin Ljava/util/Scanner;")
  }

  const NextInt := Operand(INVOKEVIRTUAL, "java/util/Scanner/nextInt()I")
  const NextFloat := Operand(INVOKEVIRTUAL, "java/util/Scanner/nextFloat()F")
  const NextBoolean := Operand(INVOKEVIRTUAL, "java/util/Scanner/nextBoolean()Z")
  const NextString := Operand(INVOKEVIRTUAL, "java/util/Scanner/next()Ljava/lang/String;")
  const NextLine := Operand(INVOKEVIRTUAL, "java/util/Scanner/nextLine()Ljava/lang/String;")
  const EmptyDelimiter := Operand(LDC, "\"\"")
  const UseDelimiter := Operand(INVOKEVIRTUAL, "java/util/Scanner/useDelimiter(Ljava/lang/String;)Ljava/util/Scanner;")
  const CharAt := Operand(INVOKEVIRTUAL, "java/lang/String/charAt(I)C")
  const ResetScanner := Operand(INVOKEVIRTUAL, "java/util/Scanner/reset()Ljava/util/Scanner;")

  /** Read one variable: the Scanner call is chosen by type identity, and
      anything that is not integer, real, boolean or char is read as a string.
      A char is the first character of a token read with an empty delimiter. */
  function ReadOne(v: Variable, pn: string): seq<Instr>
  {
    var store := StoreValue(Some(v.entry), None);
    if v.varType == Integer then [SysIn(pn), NextInt, store]
    else if v.varType == Real then [SysIn(pn), NextFloat, store]
    else if v.varType == Boolean then [SysIn(pn), NextBoolean, store]
    else if v.varType == Char then
      [SysIn(pn), EmptyDelimiter, UseDelimiter, Op(POP),
       SysIn(pn), NextString, Op(ICONST_0), CharAt, store,
       SysIn(pn), ResetScanner]
    else [SysIn(pn), NextString, store]
  }

  function ReadVars(vars: seq<Variable>, pn: string): seq<Instr>
  {
    if vars == [] then [] else ReadVars(vars[..|vars| - 1], pn) + ReadOne(vars[|vars| - 1], pn)
  }

  function SkipLine(pn: string): seq<Instr>
  {
    [SysIn(pn), NextLine, Op(POP)]
  }

  function ReadCode(vars: seq<Variable>, needSkip: bool, pn: string): seq<Instr>
  {
    ReadVars(vars, pn) + (if needSkip then SkipLine(pn) else [])
  }

  // ---------------------------------------------------------------------------
  // Statements

  /** The code for a statement emitted when the label counter stands at `n`. */
  function StmtCode(s: Stmt, cfg: Config, n: nat): (g: Gen)
    ensures g.next >= n
    decreases s, 2
  {
    match s
    case Compound(ss) => ListCode(ss, cfg, n)
    case Assign(v, e) => AssignCode(v, e, n)
    case If(c, t, e) => if cfg.homework then Gen([], n, 0) else IfCode(c, t, e, cfg, n)
    case Case(d, bs, es, order) => if cfg.homework then Gen([], n, 0) else CaseCode(d, bs, es, order, cfg, n)
    case Repeat(ss, c) => RepeatCode(ss, c, cfg, n)
    case While(c, b) => if cfg.homework then Gen([], n, 0) else WhileCode(c, b, cfg, n)
    case For(v, init, downTo, bound, b) => if cfg.homework then Gen([], n, 0) else ForCode(v, init, downTo, bound, b, cfg, n)
    case ProcedureCall(r, args) => if cfg.homework then Gen([], n, 0) else CallCode(r, args, cfg.programName, n)
    case Write(args, nl) => WriteCode(args, nl, cfg.convertString, n)
    case Read(vs, skip) => Gen(ReadCode(vs, skip, cfg.programName), n, 0)
    case Empty => Gen([], n, 0)
  }

  /** A statement list, one statement after the other. */
  function ListCode(ss: seq<Stmt>, cfg: Config, n: nat): (g: Gen)
    ensures g.next >= n
    decreases ss
  {
    if ss == [] then Gen([], n, 0)
    else
      var g0 := ListCode(ss[..|ss| - 1], cfg, n);
      var g1 := StmtCode(ss[|ss| - 1], cfg, g0.next);
      Gen(g0.code + g1.code, g1.next, g0.drop + g1.drop)
  }

  /** Repeat: top label n, exit label n + 1; the body, then the condition,
      leaving when it is true and going back to the top otherwise. */
  function RepeatCode(ss: seq<Stmt>, c: Expr, cfg: Config, n: nat): (g: Gen)
    ensures g.next >= n
    decreases Repeat(ss, c), 0
  {
    var gb := ListCode(ss, cfg, n + 2);
    var gc := Visit(c.visit, gb.next);
    Gen([Place(n)] + gb.code + gc.code + [Jump(IFNE, n + 1), Jump(GOTO, n), Place(n + 1)], gc.next, gb.drop)
  }

  /** The solution's while: top label n, exit label n + 1; the condition,
      leaving when it is false, then the body and the jump back. */
  function WhileCode(c: Expr, b: Stmt, cfg: Config, n: nat): (g: Gen)
    ensures g.next >= n
    decreases While(c, b), 0
  {
    var gc := Visit(c.visit, n + 2);
    var gb := StmtCode(b, cfg, gc.next);
    Gen([Place(n)] + gc.code + [Jump(IFEQ, n + 1)] + gb.code + [Jump(GOTO, n), Place(n + 1)], gb.next, gb.drop)
  }

  /** The solution's if: the exit label `n` is minted before the condition is
      visited and the false label after it; with an else part the exit label
      is placed twice in a row at the end. */
  function IfCode(c: Expr, t: Stmt, e: Option<Stmt>, cfg: Config, n: nat): (g: Gen)
    ensures g.next >= n
    decreases If(c, t, e), 1
  {
    if e.Some? then IfElseCode(c, t, e.value, cfg, n)
    else
      var gc := Visit(c.visit, n + 1);
      var gt := StmtCode(t, cfg, gc.next);
      Gen(gc.code + [Jump(IFEQ, n)] + gt.code + [Place(n)], gt.next, gt.drop)
  }

  function IfElseCode(c: Expr, t: Stmt, e: Stmt, cfg: Config, n: nat): (g: Gen)
    ensures g.next >= n
    decreases If(c, t, Some(e)), 0
  {
    var head := IfElseHead(c, t, cfg, n);
    var ge := StmtCode(e, cfg, head.next);
    Gen(head.code + ge.code + [Place(n), Place(n)], ge.next, head.drop + ge.drop)
  }

  /** An if-else up to its else part: the condition, the jump to the false
      label `f` (minted after the condition), the then part, the jump to the
      exit label `n` and the placement of `f`. */
  function IfElseHead(c: Expr, t: Stmt, cfg: Config, n: nat): (g: Gen)
    ensures g.next > n
    decreases t, 3
  {
    var gc := Visit(c.visit, n + 1);
    var f := gc.next;
    var gt := StmtCode(t, cfg, f + 1);
    Gen(gc.code + [Jump(IFEQ, f)] + gt.code + [Jump(GOTO, n), Place(f)], gt.next, gt.drop)
  }

  /** The solution's for up to its body: initial assignment, then the top
      label, the bound test (leave when the control variable has passed the
      bound: greater for TO, less for DOWNTO) and the jump out to the exit
      label, the last one minted. */
  function ForHead(v: Variable, init: Expr, downTo: bool, bound: Expr, n: nat): (g: Gen)
    ensures g.next > n && g.drop == 0
  {
    var ga := AssignCode(v, init, n);
    var top := ga.next;
    var gb := Visit(bound.visit, top + 1);
    var k := gb.next;   // continue label k, end-of-test label k + 1, exit label k + 2
    Gen(ga.code + [Place(top), LoadValue(v.entry)] + gb.code
        + [Jump(if downTo then IF_ICMPLT else IF_ICMPGT, k), Op(ICONST_0), Jump(GOTO, k + 1),
           Place(k), Op(ICONST_1), Place(k + 1), Jump(IFNE, k + 2)],
        k + 3, 0)
  }

  /** The solution's for: the head, the body, the step of the control
      variable, the jump back to the top and the exit label. */
  function ForCode(v: Variable, init: Expr, downTo: bool, bound: Expr, b: Stmt, cfg: Config, n: nat): (g: Gen)
    ensures g.next >= n
    decreases For(v, init, downTo, bound, b), 0
  {
    var top := AssignCode(v, init, n).next;
    var head := ForHead(v, init, downTo, bound, n);
    var body := StmtCode(b, cfg, head.next);
    Gen(head.code + body.code
        + [LoadValue(v.entry), Op(ICONST_1), Op(if downTo then ISUB else IADD),
           StoreValue(Some(v.entry), Some(v.varType)), Jump(GOTO, top), Place(head.next - 1)],
        body.next, body.drop)
  }


  /** The LOOKUPSWITCH entries of a case statement whose branch labels are
      minted from `m`: every key in ascending order with its branch's label. */
  function JumpTable(es: seq<CaseEntry>, hash: string -> int, m: nat): seq<Instr>
  {
    SwitchEntries(Sort(Ordinals(es, hash)), SwitchTable(es, hash), BranchLabels(es, m))
  }

  /** Whether the case keys are strings, which the generator decides from
      the first key alone. */
  predicate StringKeys(es: seq<CaseEntry>)
  {
    |es| > 0 && es[0].key.StrKey?
  }

  /** String case keys are hashed before the lookupswitch. */
  const HashCode := Operand(INVOKEVIRTUAL, "java/lang/String.hashCode()I")

  /** The case statement up to its bodies: the discriminant (hashed for
      string keys), the lookupswitch, its sorted entries and the default
      entry, whose label is minted after the branch labels. */
  function CaseHead(d: Expr, es: seq<CaseEntry>, hash: string -> int, n: nat): (g: Gen)
    ensures g.next > n + d.visit.width && g.drop == 0
  {
    var gd := Visit(d.visit, n);
    var m := gd.next;
    var dflt := m + |BranchLabels(es, m)|;
    Gen(gd.code
        + (if StringKeys(es) then [HashCode] else [])
        + [Op(LOOKUPSWITCH)] + JumpTable(es, hash, m) + [SwitchDefault(dflt)],
        dflt + 1, 0)
  }

  /** The solution's case: the head, then each labelled branch followed by
      a jump to the default label, which is placed last and is the exit. */
  function CaseCode(d: Expr, bs: seq<Stmt>, es: seq<CaseEntry>, order: seq<nat>, cfg: Config, n: nat): (g: Gen)
    ensures g.next >= n
    decreases bs, 1
  {
    var m := n + d.visit.width;
    var head := CaseHead(d, es, cfg.hash, n);
    var dflt := head.next - 1;
    var bodies := CaseBodies(bs, order, BranchLabels(es, m), dflt, cfg, head.next);
    Gen(head.code + bodies.code + [Place(dflt)], bodies.next, bodies.drop)
  }

  /** The branch bodies in `order`: label, statement, jump to the exit. */
  function CaseBodies(bs: seq<Stmt>, order: seq<nat>, labels: map<nat, Label>, exit: Label,
                      cfg: Config, n: nat): (g: Gen)
    ensures g.next >= n
    decreases bs, 0, |order|
  {
    if order == [] then Gen([], n, 0)
    else
      var g0 := CaseBodies(bs, order[..|order| - 1], labels, exit, cfg, n);
      var j := order[|order| - 1];
      if j < |bs| && j in labels then
        var g1 := StmtCode(bs[j], cfg, g0.next);
        Gen(g0.code + [Place(labels[j])] + g1.code + [Jump(GOTO, exit)], g1.next, g0.drop + g1.drop)
      else g0   // a statement with no branch label; BodyOrderLabelled shows there is none
  }

  // ---------------------------------------------------------------------------
  // Facts the definitions above rely on.

  /** The case code in terms of its head. */
  lemma CaseCodeSplit(d: Expr, bs: seq<Stmt>, es: seq<CaseEntry>, order: seq<nat>, cfg: Config, n: nat,
                      labels: map<nat, Label>, head: Gen)
    requires labels == BranchLabels(es, n + d.visit.width) && head == CaseHead(d, es, cfg.hash, n)
    ensures var bodies := CaseBodies(bs, order, labels, head.next - 1, cfg, head.next);
            CaseCode(d, bs, es, order, cfg, n) == Gen(head.code + bodies.code + [Place(head.next - 1)], bodies.next, bodies.drop)
  {
  }


  /** One statement label per distinct target. */
  lemma {:induction false} BranchLabelsKeys(es: seq<CaseEntry>, n: nat)
    ensures forall t :: t in BranchLabels(es, n) <==> t in TargetList(es)
    decreases |es|
  {
    if es != [] {
      BranchLabelsKeys(es[..|es| - 1], n);
    }
  }

  /** The statement labels are n, n+1, ... up to the number of targets. */
  lemma {:induction false} BranchLabelsRange(es: seq<CaseEntry>, n: nat)
    ensures forall t :: t in BranchLabels(es, n) ==> n <= BranchLabels(es, n)[t] < n + |BranchLabels(es, n)|
    decreases |es|
  {
    if es != [] {
      BranchLabelsRange(es[..|es| - 1], n);
    }
  }

  /** Different target statements get different labels. */
  lemma {:induction false} BranchLabelsInjective(es: seq<CaseEntry>, n: nat)
    ensures forall t, u :: t in BranchLabels(es, n) && u in BranchLabels(es, n) && t != u
                           ==> BranchLabels(es, n)[t] != BranchLabels(es, n)[u]
    decreases |es|
  {
    if es != [] {
      BranchLabelsInjective(es[..|es| - 1], n);
      BranchLabelsRange(es[..|es| - 1], n);
    }
  }

  lemma {:induction false} SwitchTableKeys(es: seq<CaseEntry>, hash: string -> int)
    ensures forall k :: k in SwitchTable(es, hash) <==> k in Ordinals(es, hash)
    ensures forall k :: k in SwitchTable(es, hash) ==> SwitchTable(es, hash)[k] in TargetList(es)
    decreases |es|
  {
    if es != [] {
      SwitchTableKeys(es[..|es| - 1], hash);
    }
  }

  /** Every sorted key has a target in the switch table, and that target a label. */
  lemma SwitchEntriesDefined(es: seq<CaseEntry>, hash: string -> int, n: nat)
    ensures forall i :: 0 <= i < |Sort(Ordinals(es, hash))| ==>
              Sort(Ordinals(es, hash))[i] in SwitchTable(es, hash)
              && SwitchTable(es, hash)[Sort(Ordinals(es, hash))[i]] in BranchLabels(es, n)
  {
    var keys := Sort(Ordinals(es, hash));
    SortIsPermutation(Ordinals(es, hash));
    SwitchTableKeys(es, hash);
    BranchLabelsKeys(es, n);
    forall i | 0 <= i < |keys| ensures keys[i] in SwitchTable(es, hash) {
      assert keys[i] in multiset(keys);
    }
  }

  /** Each statement in the body order is a branch and has a label. */
  lemma BodyOrderLabelled(bs: seq<Stmt>, es: seq<CaseEntry>, order: seq<nat>, n: nat)
    requires JumpTableOk(bs, es, order)
    ensures forall i :: 0 <= i < |order| ==> order[i] < |bs| && order[i] in BranchLabels(es, n)
  {
    BranchLabelsKeys(es, n);
    forall i | 0 <= i < |order| ensures order[i] < |bs| {
      assert order[i] in TargetList(es);
      var k :| 0 <= k < |es| && TargetList(es)[k] == order[i];
    }
  }

  predicate Ascending(s: seq<int>)
  {
    forall i, j :: 0 <= i < j < |s| ==> s[i] <= s[j]
  }

  lemma {:induction false} InsertCount(x: int, s: seq<int>)
    ensures multiset(Insert(x, s)) == multiset{x} + multiset(s)
    decreases |s|
  {
    if s != [] && x > s[0] {
      InsertCount(x, s[1..]);
      assert s == [s[0]] + s[1..];
    }
  }

  lemma {:induction false} InsertBounded(x: int, s: seq<int>, b: int)
    requires b <= x && forall i :: 0 <= i < |s| ==> b <= s[i]
    ensures forall i :: 0 <= i < |Insert(x, s)| ==> b <= Insert(x, s)[i]
    decreases |s|
  {
    if s != [] && x > s[0] {
      InsertBounded(x, s[1..], b);
    }
  }

  lemma {:induction false} InsertAscending(x: int, s: seq<int>)
    requires Ascending(s)
    ensures Ascending(Insert(x, s))
    decreases |s|
  {
    if s != [] && x > s[0] {
      InsertAscending(x, s[1..]);
      InsertBounded(x, s[1..], s[0]);
    }
  }

  /** Sorting yields an ascending list with the same elements, duplicates kept. */
  lemma {:induction false} SortIsPermutation(s: seq<int>)
    ensures Ascending(Sort(s))
    ensures multiset(Sort(s)) == multiset(s)
    decreases |s|
  {
    if s != [] {
      SortIsPermutation(s[1..]);
      InsertAscending(s[0], Sort(s[1..]));
      InsertCount(s[0], Sort(s[1..]));
      assert s == [s[0]] + s[1..];
    }
  }
}

# COM3645 compilers course: a Dafny model of its core

This project models the deterministic core of the course repository's
compilers and interpreters, and proves properties of that model. It covers
five parts.

- **The Pascal compiler's `StatementGenerator`** (the solution and the
  homework skeleton). It lowers Pascal statements to JVM instructions with
  symbolic labels:
  - `if`, `while`, `repeat` and `for` become label-and-branch layouts;
  - `case` becomes a `lookupswitch` whose keys are sorted (section 6.5,
    *lookupswitch*, of the Java Virtual Machine Specification);
  - calls use method descriptors with the `I`/`F`/`Z`/`V` letters of
    section 4.3.3 of the same specification;
  - `write`/`writeln` build a printf format string and an argument array;
  - `read`/`readln` call `java.util.Scanner`.

  How it is modelled:
  - Module `Generator` has a `StatementGenerator` class. Its fields are the
    emitted code (`seq<Instr>`), the label counter and the stack drops. It
    has one method per `emit...` method of the source.
  - Each method is proved to leave the state given by a `...Steps`
    function.
  - Module `StatementCode` gives the closed-form code of every statement
    (`StmtCode`).
  - Module `Layout` proves that the two agree.
  - Module `LabelScope` proves that every statement's code is label-scoped.
  - Module `GeneratedCode` proves what the code looks like: the homework
    skeleton against the solution, descriptors, formats, stores.
  - The homework skeleton is the same class with `cfg.homework` set. Its
    `if`, `case`, `while`, `for` and call methods emit nothing. Its other
    methods are the solution's.
- **The Simple interpreter** (module `SimpleExecutor`, with `SimpleTree` and
  `SimplePrinter`):
  - the `Executor` tree walk over `Node` trees, with numbers as `real`;
  - the `Node` class;
  - the XML-like `ParseTreePrinter`.
- **The Pcl4 interpreter's symbol table** (`SymTab`) and its ANTLR
  parse-tree printer (`RulePrinter`).
- **The hand-written scanners** of the Simple language (`ScannerSource`,
  `SimpleScanner`, `CommentScanner`). They skip whitespace, and in the
  parser's scanner `{...}` comments, then dispatch on the first character.
- **The token and parse-tree listings**:
  - the Simple4 scanner test (`TokenListing`);
  - the Pascal driver's option validation and listings (`PascalCC`).

Output is modelled as values:
- a `seq<string>` of lines for the printers and listings;
- a `Console` object whose text grows, for the Pascal driver;
- a `seq<Event>` for the interpreter.

## Model

| member | source | states |
|---|---|---|
| Generator.StatementGenerator.EmitStatement | 08.PascalCompiler/solution/src/main/java/edu/yu/compilers/backend/compiler/StatementGenerator.java:90-93 | visiting a nested statement (the compiler's visitor, which is not shown) dispatches to the emit method for its kind and leaves the state `StmtSteps` describes |
| Generator.StatementGenerator.EmitAssignment | 08.PascalCompiler/solution/src/main/java/edu/yu/compilers/backend/compiler/StatementGenerator.java:38-76 | the target is visited only when it has modifiers; then the value, I2F when an integer goes into a real, then the store chosen by the last modifier |
| GeneratedCode.AssignEnding | 08.PascalCompiler/solution/src/main/java/edu/yu/compilers/backend/compiler/StatementGenerator.java:56-75 | after the target's code (present only with modifiers) and the value's code, the assignment adds I2F if and only if the target is the predefined real type and the value's type is integer or a subrange of integer. The store chosen for the target comes last and is the only store added |
| Layout.AssignAgrees | 08.PascalCompiler/solution/src/main/java/edu/yu/compilers/backend/compiler/StatementGenerator.java:38-76 | the assignment method's effect is the old code followed by the closed-form assignment code |
| Generator.StatementGenerator.EmitIf | 08.PascalCompiler/solution/src/main/java/edu/yu/compilers/backend/compiler/StatementGenerator.java:83-100 | the exit label is minted before the condition. Without else: IFEQ exit, then-part, exit label. With else: IFEQ else-label, then-part, GOTO exit, else-label, else-part, exit label twice. The homework skeleton emits nothing |
| Layout.IfAgrees | 08.PascalCompiler/solution/src/main/java/edu/yu/compilers/backend/compiler/StatementGenerator.java:83-100 | the if method's effect is the old code followed by the closed-form if code, both with and without else |
| LabelScope.IfElseExitTwice | 08.PascalCompiler/solution/src/main/java/edu/yu/compilers/backend/compiler/StatementGenerator.java:94-99 | an if with an else part places its exit label exactly twice |
| LabelScope.IfThenExitOnce | 08.PascalCompiler/solution/src/main/java/edu/yu/compilers/backend/compiler/StatementGenerator.java:95-99 | an if without an else part places its exit label exactly once |
| Generator.StatementGenerator.EmitCase | 08.PascalCompiler/solution/src/main/java/edu/yu/compilers/backend/compiler/StatementGenerator.java:107-156 | it emits the selector (hashed for string keys), the lookupswitch with sorted keys and a default entry, each labelled branch followed by GOTO default, then the default label. The homework skeleton emits nothing |
| Generator.StatementGenerator.EmitSelector | 08.PascalCompiler/solution/src/main/java/edu/yu/compilers/backend/compiler/StatementGenerator.java:108-114 | the discriminant's code, then `hashCode` only when the keys are strings, then LOOKUPSWITCH |
| Generator.StatementGenerator.MintBranchLabels | 08.PascalCompiler/solution/src/main/java/edu/yu/compilers/backend/compiler/StatementGenerator.java:115-121 | it mints exactly the labels of `BranchLabels`: one per distinct target statement, in jump-table order |
| Generator.StatementGenerator.SortedConstants | 08.PascalCompiler/solution/src/main/java/edu/yu/compilers/backend/compiler/StatementGenerator.java:122-132 | the keys are made integers (hash, character code or the int itself) and sorted |
| Generator.StatementGenerator.KeyTable | 08.PascalCompiler/solution/src/main/java/edu/yu/compilers/backend/compiler/StatementGenerator.java:133-142 | the integer-key-to-statement table is `SwitchTable`, with later entries overwriting earlier ones on equal integers |
| Generator.StatementGenerator.EmitSwitchEntries | 08.PascalCompiler/solution/src/main/java/edu/yu/compilers/backend/compiler/StatementGenerator.java:144-146 | one `key: label` entry per sorted key, in sorted order, with the label of that key's statement |
| Generator.StatementGenerator.EmitJumpTable | 08.PascalCompiler/solution/src/main/java/edu/yu/compilers/backend/compiler/StatementGenerator.java:114-146 | the lookupswitch entries are `JumpTable`, and the counter grows by the number of distinct target statements |
| Generator.StatementGenerator.EmitCaseHead | 08.PascalCompiler/solution/src/main/java/edu/yu/compilers/backend/compiler/StatementGenerator.java:108-148 | the case up to its default entry. The default label is minted after the branch labels and is the last label minted |
| Generator.StatementGenerator.EmitCaseBodies | 08.PascalCompiler/solution/src/main/java/edu/yu/compilers/backend/compiler/StatementGenerator.java:149-153 | for each statement in the label map's order: its label, its code, GOTO default |
| StatementCode.BranchLabelsKeys | 08.PascalCompiler/solution/src/main/java/edu/yu/compilers/backend/compiler/StatementGenerator.java:116-120 | a statement gets a label if and only if it is the target of some jump-table entry |
| StatementCode.BranchLabelsRange | 08.PascalCompiler/solution/src/main/java/edu/yu/compilers/backend/compiler/StatementGenerator.java:118 | the branch labels are consecutive from the counter value at the start |
| StatementCode.BranchLabelsInjective | 08.PascalCompiler/solution/src/main/java/edu/yu/compilers/backend/compiler/StatementGenerator.java:117-119 | different target statements get different labels, even when several keys share a statement |
| StatementCode.SwitchTableKeys | 08.PascalCompiler/solution/src/main/java/edu/yu/compilers/backend/compiler/StatementGenerator.java:123-142 | the integer table has exactly the keys of the sorted list, and each maps to a target of the jump table |
| StatementCode.SwitchEntriesDefined | 08.PascalCompiler/solution/src/main/java/edu/yu/compilers/backend/compiler/StatementGenerator.java:144-146 | every sorted key has a statement in the table, and that statement has a label, so no lookup in the loop yields null |
| StatementCode.BodyOrderLabelled | 08.PascalCompiler/solution/src/main/java/edu/yu/compilers/backend/compiler/StatementGenerator.java:149-153 | every statement whose body is emitted is a branch of the case and has a label |
| StatementCode.SortIsPermutation | 08.PascalCompiler/solution/src/main/java/edu/yu/compilers/backend/compiler/StatementGenerator.java:132 | sorting gives an ascending list with the same elements and duplicates kept |
| StatementCode.InsertAscending | 08.PascalCompiler/solution/src/main/java/edu/yu/compilers/backend/compiler/StatementGenerator.java:132 | inserting into an ascending list keeps it ascending |
| StatementCode.InsertCount | 08.PascalCompiler/solution/src/main/java/edu/yu/compilers/backend/compiler/StatementGenerator.java:132 | inserting adds exactly one occurrence of the element |
| Layout.CaseAgrees | 08.PascalCompiler/solution/src/main/java/edu/yu/compilers/backend/compiler/StatementGenerator.java:107-156 | the case method's effect is the old code followed by the closed-form case code |
| Layout.CaseHeadAgrees | 08.PascalCompiler/solution/src/main/java/edu/yu/compilers/backend/compiler/StatementGenerator.java:108-148 | the same for the case up to its default entry |
| Layout.CaseBodiesAgrees | 08.PascalCompiler/solution/src/main/java/edu/yu/compilers/backend/compiler/StatementGenerator.java:149-153 | the same for the branch bodies |
| Generator.StatementGenerator.EmitRepeat | 08.PascalCompiler/solution/src/main/java/edu/yu/compilers/backend/compiler/StatementGenerator.java:163-175 | top label, body, condition, IFNE exit, GOTO top, exit label. The loop repeats while the condition is false |
| Layout.RepeatAgrees | 08.PascalCompiler/solution/src/main/java/edu/yu/compilers/backend/compiler/StatementGenerator.java:163-175 | the repeat method's effect is the old code followed by the closed-form repeat code |
| Generator.StatementGenerator.EmitWhile | 08.PascalCompiler/solution/src/main/java/edu/yu/compilers/backend/compiler/StatementGenerator.java:182-195 | top label, condition, IFEQ exit, body, GOTO top, exit label. The homework skeleton emits nothing |
| Generator.StatementGenerator.EmitWhileHead | 08.PascalCompiler/solution/src/main/java/edu/yu/compilers/backend/compiler/StatementGenerator.java:184-190 | the top and exit labels are the next two counter values, and the head is the top label, the condition and IFEQ exit |
| Layout.WhileAgrees | 08.PascalCompiler/solution/src/main/java/edu/yu/compilers/backend/compiler/StatementGenerator.java:182-195 | the while method's effect is the old code followed by the closed-form while code |
| Generator.StatementGenerator.EmitFor | 08.PascalCompiler/solution/src/main/java/edu/yu/compilers/backend/compiler/StatementGenerator.java:202-237 | assignment, top label, test, body, step, GOTO top, exit label. The homework skeleton emits nothing |
| Generator.StatementGenerator.EmitForHead | 08.PascalCompiler/solution/src/main/java/edu/yu/compilers/backend/compiler/StatementGenerator.java:204-225 | the control variable's assignment, then the top label. The bound is evaluated inside the loop, so on every pass. Then the exit test |
| Generator.StatementGenerator.EmitForTest | 08.PascalCompiler/solution/src/main/java/edu/yu/compilers/backend/compiler/StatementGenerator.java:212-225 | IF_ICMPGT for TO or IF_ICMPLT for DOWNTO, the 0/1 result, IFNE exit. It mints exactly three labels |
| Generator.StatementGenerator.EmitForTail | 08.PascalCompiler/solution/src/main/java/edu/yu/compilers/backend/compiler/StatementGenerator.java:227-236 | load the variable, ICONST_1, IADD for TO or ISUB for DOWNTO, store the variable, GOTO top, exit label |
| Layout.ForAgrees | 08.PascalCompiler/solution/src/main/java/edu/yu/compilers/backend/compiler/StatementGenerator.java:202-277 | the for method's effect is the old code followed by the closed-form for code |
| Layout.ForHeadAgrees | 08.PascalCompiler/solution/src/main/java/edu/yu/compilers/backend/compiler/StatementGenerator.java:204-225 | the same for the loop head. The top label is the counter value after the initial assignment |
| Generator.StatementGenerator.EmitProcedureCall | 08.PascalCompiler/solution/src/main/java/edu/yu/compilers/backend/compiler/StatementGenerator.java:284-287 | a procedure call is the call sequence. The homework skeleton emits nothing |
| Generator.StatementGenerator.EmitFunctionCall | 08.PascalCompiler/solution/src/main/java/edu/yu/compilers/backend/compiler/StatementGenerator.java:294-297 | a function call is the same call sequence. The homework skeleton emits nothing |
| Generator.StatementGenerator.EmitCall | 08.PascalCompiler/solution/src/main/java/edu/yu/compilers/backend/compiler/StatementGenerator.java:305-345 | one argument per parameter, each followed by I2F where an integer meets a real parameter, then INVOKESTATIC of `program/descriptor` |
| Generator.StatementGenerator.EmitArguments | 08.PascalCompiler/solution/src/main/java/edu/yu/compilers/backend/compiler/StatementGenerator.java:307-318 | the arguments' code in order, with I2F exactly after the arguments that need widening |
| Generator.StatementGenerator.RoutineDescriptor | 08.PascalCompiler/solution/src/main/java/edu/yu/compilers/backend/compiler/StatementGenerator.java:320-341 | the loop builds exactly `Descriptor`: `name(`, the parameter letters, `)`, then the return letter, or `V` |
| GeneratedCode.DescriptorShape | 08.PascalCompiler/solution/src/main/java/edu/yu/compilers/backend/compiler/StatementGenerator.java:320-341 | a descriptor is `name(`, then only I/F/Z letters, then `)`. A procedure's descriptor ends in `V`. A function's ends in at most one I/F/Z letter |
| GeneratedCode.ParamLettersShape | 08.PascalCompiler/solution/src/main/java/edu/yu/compilers/backend/compiler/StatementGenerator.java:322-329 | at most one letter per parameter, each I, F or Z. Exactly one per parameter when every parameter type is integer, real or boolean |
| Layout.CallAgrees | 08.PascalCompiler/solution/src/main/java/edu/yu/compilers/backend/compiler/StatementGenerator.java:305-345 | the call method's effect is the old code followed by the closed-form call code |
| Layout.ArgAgrees | 08.PascalCompiler/solution/src/main/java/edu/yu/compilers/backend/compiler/StatementGenerator.java:307-318 | the same for the argument loop |
| StatementCode.ArgCount | 08.PascalCompiler/solution/src/main/java/edu/yu/compilers/backend/compiler/StatementGenerator.java:308 | the call visits one argument per parameter whenever there are enough arguments |
| Generator.StatementGenerator.EmitWrite | 08.PascalCompiler/solution/src/main/java/edu/yu/compilers/backend/compiler/StatementGenerator.java:371-401 | System.out. With no arguments: println and a drop of 1. With expressions: the format, the argument array, printf, a drop of 2, POP. With only literals: the format, print, a drop of 2 |
| Generator.StatementGenerator.CreateWriteFormat | 08.PascalCompiler/solution/src/main/java/edu/yu/compilers/backend/compiler/StatementGenerator.java:410-450 | the loop builds exactly `FormatString` and returns the number of arguments that are not quoted literals |
| Generator.StatementGenerator.ArgumentFormat | 08.PascalCompiler/solution/src/main/java/edu/yu/compilers/backend/compiler/StatementGenerator.java:419-444 | a literal contributes its converted text. An expression contributes `%`, an optional `-`, the width, an optional `.places`, and the d/f/b/c/s flag chosen by type identity |
| GeneratedCode.FormatQuoted | 08.PascalCompiler/solution/src/main/java/edu/yu/compilers/backend/compiler/StatementGenerator.java:410-450 | the format opens and closes with a double quote, and it ends in `\n"` when a line feed is needed |
| GeneratedCode.SpecifierCount | 08.PascalCompiler/solution/src/main/java/edu/yu/compilers/backend/compiler/StatementGenerator.java:410-450 | when no literal or width contains `%`, the format holds exactly as many `%` as the count it returns |
| Generator.StatementGenerator.EmitArgumentsArray | 08.PascalCompiler/solution/src/main/java/edu/yu/compilers/backend/compiler/StatementGenerator.java:458-488 | the array of `exprCount` Objects, then for each non-literal in order: DUP, its index, its code, valueOf boxing for non-string scalars and enumerations, AASTORE |
| GeneratedCode.StoreIndices | 08.PascalCompiler/solution/src/main/java/edu/yu/compilers/backend/compiler/StatementGenerator.java:463-475 | the index an expression argument gets strictly increases along the arguments and stays below the array size, so indices 0 to exprCount-1 are each used once |
| Layout.WriteAgrees | 08.PascalCompiler/solution/src/main/java/edu/yu/compilers/backend/compiler/StatementGenerator.java:371-401 | the write method's effect is the old code followed by the closed-form write code |
| Layout.StoreAgrees | 08.PascalCompiler/solution/src/main/java/edu/yu/compilers/backend/compiler/StatementGenerator.java:466-487 | the same for the array-filling loop |
| Generator.StatementGenerator.EmitRead | 08.PascalCompiler/solution/src/main/java/edu/yu/compilers/backend/compiler/StatementGenerator.java:514-562 | one read sequence per variable, chosen by type identity, then nextLine and POP for readln |
| Generator.StatementGenerator.EmitReadVariable | 08.PascalCompiler/solution/src/main/java/edu/yu/compilers/backend/compiler/StatementGenerator.java:519-553 | nextInt, nextFloat, nextBoolean, the char sequence, or next for a string; each ends with a store into the variable |
| Generator.StatementGenerator.EmitReadChar | 08.PascalCompiler/solution/src/main/java/edu/yu/compilers/backend/compiler/StatementGenerator.java:534-546 | a char is read with an empty delimiter, as charAt(0) of the next token, and the scanner is reset afterwards |
| GeneratedCode.ReadStores | 08.PascalCompiler/solution/src/main/java/edu/yu/compilers/backend/compiler/StatementGenerator.java:514-562 | read stores into the listed variables, each exactly once and in order, and nothing else. readln ends with nextLine and POP |
| GeneratedCode.OneStore | 08.PascalCompiler/solution/src/main/java/edu/yu/compilers/backend/compiler/StatementGenerator.java:519-553 | reading one variable stores exactly once, into that variable's entry |
| Layout.StmtAgrees | 08.PascalCompiler/solution/src/main/java/edu/yu/compilers/backend/compiler/StatementGenerator.java:38-562 | for every statement, what the generator methods emit is the old code followed by the statement's closed-form code, and the label counter ends where that code ends |
| Layout.ListAgrees | 08.PascalCompiler/solution/src/main/java/edu/yu/compilers/backend/compiler/StatementGenerator.java:169 | the same for a statement list |
| LabelScope.StmtScoped | 08.PascalCompiler/solution/src/main/java/edu/yu/compilers/backend/compiler/StatementGenerator.java:83-237 | every label a statement's code jumps to is placed in that code, and every label it places was minted while the statement was generated (given well-scoped expression code) |
| LabelScope.ListScoped | 08.PascalCompiler/solution/src/main/java/edu/yu/compilers/backend/compiler/StatementGenerator.java:169 | the same for a statement list |
| LabelScope.IfScoped | 08.PascalCompiler/solution/src/main/java/edu/yu/compilers/backend/compiler/StatementGenerator.java:83-100 | the same for an if |
| LabelScope.CaseScoped | 08.PascalCompiler/solution/src/main/java/edu/yu/compilers/backend/compiler/StatementGenerator.java:107-156 | the same for a case: the switch table refers only to branch labels and the default label, all placed |
| LabelScope.RepeatScoped | 08.PascalCompiler/solution/src/main/java/edu/yu/compilers/backend/compiler/StatementGenerator.java:163-175 | the same for a repeat |
| LabelScope.WhileScoped | 08.PascalCompiler/solution/src/main/java/edu/yu/compilers/backend/compiler/StatementGenerator.java:182-195 | the same for a while |
| LabelScope.ForScoped | 08.PascalCompiler/solution/src/main/java/edu/yu/compilers/backend/compiler/StatementGenerator.java:202-237 | the same for a for |
| LabelScope.CallScoped | 08.PascalCompiler/solution/src/main/java/edu/yu/compilers/backend/compiler/StatementGenerator.java:305-345 | the same for a call |
| LabelScope.WriteScoped | 08.PascalCompiler/solution/src/main/java/edu/yu/compilers/backend/compiler/StatementGenerator.java:371-401 | the same for write and writeln |
| LabelScope.ReadScoped | 08.PascalCompiler/solution/src/main/java/edu/yu/compilers/backend/compiler/StatementGenerator.java:514-562 | read code uses no labels at all |
| LabelScope.AssignScoped | 08.PascalCompiler/solution/src/main/java/edu/yu/compilers/backend/compiler/StatementGenerator.java:38-76 | the same for an assignment |
| GeneratedCode.HomeworkSkeleton | 08.PascalCompiler/hw/src/main/java/edu/yu/compilers/backend/compiler/StatementGenerator.java:79-155 | the skeleton emits nothing for if, case, while, for and calls. For any statement built only from the statements it implements, it emits exactly the solution's code |
| GeneratedCode.HomeworkAgrees | 08.PascalCompiler/hw/src/main/java/edu/yu/compilers/backend/compiler/StatementGenerator.java:36-77 | on assignment, repeat, write, read and compound statements free of stubs, the skeleton's code equals the solution's |
| GeneratedCode.HomeworkListAgrees | 08.PascalCompiler/hw/src/main/java/edu/yu/compilers/backend/compiler/StatementGenerator.java:97-109 | the same for the statement list inside a repeat |
| Jvm.BaseType | 08.PascalCompiler/solution/src/main/java/edu/yu/compilers/backend/compiler/StatementGenerator.java:59 | a subrange stands for its base type and every other type for itself |
| SimpleExecutor.Executor.constructor | 05.SimpleInterpreter/src/main/java/edu/yu/compilers/backend/Executor.java:35-36 | a new executor is running, at line 0, with no output |
| SimpleExecutor.Executor.Visit | 05.SimpleInterpreter/src/main/java/edu/yu/compilers/backend/Executor.java:38-45 | dispatch by node type. The value returned and the new state are those of `Eval` |
| SimpleExecutor.Executor.VisitProgram | 05.SimpleInterpreter/src/main/java/edu/yu/compilers/backend/Executor.java:47-50 | a program runs only its first child |
| SimpleExecutor.Executor.VisitStatement | 05.SimpleInterpreter/src/main/java/edu/yu/compilers/backend/Executor.java:52-63 | the statement's line is recorded first, then the statement runs |
| SimpleExecutor.Executor.VisitCompound | 05.SimpleInterpreter/src/main/java/edu/yu/compilers/backend/Executor.java:65-69 | the children run in order (`EvalAll`) |
| SimpleExecutor.Executor.VisitAssign | 05.SimpleInterpreter/src/main/java/edu/yu/compilers/backend/Executor.java:71-83 | the right-hand side is evaluated and stored in the left-hand side's entry |
| SimpleExecutor.Executor.VisitLoop | 05.SimpleInterpreter/src/main/java/edu/yu/compilers/backend/Executor.java:85-98 | passes over the children repeat until a TEST child yields true |
| SimpleExecutor.Executor.VisitTest | 05.SimpleInterpreter/src/main/java/edu/yu/compilers/backend/Executor.java:100-102 | a test's value is its first child's |
| SimpleExecutor.Executor.VisitWrite | 05.SimpleInterpreter/src/main/java/edu/yu/compilers/backend/Executor.java:104-107 | write prints its value with its format |
| SimpleExecutor.Executor.VisitWriteln | 05.SimpleInterpreter/src/main/java/edu/yu/compilers/backend/Executor.java:109-114 | writeln prints its value, if any, then a line break |
| SimpleExecutor.Executor.PrintValue | 05.SimpleInterpreter/src/main/java/edu/yu/compilers/backend/Executor.java:116-149 | the width child and then the places child are evaluated and truncated toward zero. When absent, the width is -1 and the places 0. Then the value is printed with its format, or the program faults where printf would throw |
| SimpleExecutor.Executor.PrintWith | 05.SimpleInterpreter/src/main/java/edu/yu/compilers/backend/Executor.java:132-148 | a variable prints with `%`, the width when it is at least 0, `.` and the places when they are at least 0, and `f`. Anything else prints with `%`, the width when it is positive, and `s`. The value is printed with one printf. A variable with width 0 faults instead, because `%0…f` is a zero-padding flag without a width, which printf rejects |
| SimpleExecutor.Executor.VisitExpression | 05.SimpleInterpreter/src/main/java/edu/yu/compilers/backend/Executor.java:151-201 | single-operand nodes read a variable or a constant. Binary nodes evaluate both operands, left first |
| SimpleExecutor.Executor.VisitVariable | 05.SimpleInterpreter/src/main/java/edu/yu/compilers/backend/Executor.java:203-208 | a variable's value is its entry's value |
| SimpleExecutor.Executor.VisitIntegerConstant | 05.SimpleInterpreter/src/main/java/edu/yu/compilers/backend/Executor.java:210-213 | an integer constant is widened to a double |
| SimpleExecutor.Executor.VisitBinary | 05.SimpleInterpreter/src/main/java/edu/yu/compilers/backend/Executor.java:163-201 | both operands must be Doubles. A stopped program evaluates nothing further |
| SimpleExecutor.Executor.Operate | 05.SimpleInterpreter/src/main/java/edu/yu/compilers/backend/Executor.java:167-200 | EQ and LT give booleans; ADD, SUBTRACT and MULTIPLY the arithmetic result; DIVIDE the quotient, or the runtime error when the divisor is zero |
| SimpleExecutor.Executor.RuntimeError | 05.SimpleInterpreter/src/main/java/edu/yu/compilers/backend/Executor.java:223-226 | prints `RUNTIME ERROR at line N: message: text` and stops with status -2 |
| SimpleExecutor.Trunc | 05.SimpleInterpreter/src/main/java/edu/yu/compilers/backend/Executor.java:120-128 | the (long) cast rounds toward zero |
| SimpleExecutor.EvalDenotes | 05.SimpleInterpreter/src/main/java/edu/yu/compilers/backend/Executor.java:151-221 | evaluating an expression changes no variable and no line number. The program keeps running exactly when the expression has a meaning, and then the result is that meaning |
| SimpleExecutor.DivisionByZeroExits | 05.SimpleInterpreter/src/main/java/edu/yu/compilers/backend/Executor.java:188-226 | dividing by zero prints `RUNTIME ERROR at line N: Division by zero: text`, with N the current line and text the node's text or `null`. It then stops with status -2 and leaves every variable and the line number unchanged |
| SimpleExecutor.AssignStores | 05.SimpleInterpreter/src/main/java/edu/yu/compilers/backend/Executor.java:71-83 | an assignment puts the value into the target entry, records the line, prints nothing, and leaves every other entry as it was |
| SimpleExecutor.LoopExitsAtTrueTest | 05.SimpleInterpreter/src/main/java/edu/yu/compilers/backend/Executor.java:85-98 | a pass stops at the first TEST that holds: when the children before position k leave the program running and child k is a test whose expression denotes true, the loop ends in the state those children left, and no later child runs |
| SimpleExecutor.PassSettles | 05.SimpleInterpreter/src/main/java/edu/yu/compilers/backend/Executor.java:88-94 | once a pass has met a true test, or the program has stopped, the remaining children are not run |
| SimpleExecutor.EvalAllAppend | 05.SimpleInterpreter/src/main/java/edu/yu/compilers/backend/Executor.java:66 | running `a` and then `b` is the same as running `a + b` |
| SimpleExecutor.EvalAllHalted | 05.SimpleInterpreter/src/main/java/edu/yu/compilers/backend/Executor.java:225 | after an exit, no further statement changes anything |
| SimpleExecutor.FormatReadsBack | 05.SimpleInterpreter/src/main/java/edu/yu/compilers/backend/Executor.java:133-137 | a variable's format is `%`, the width, `.`, the places and `f`, and the digits read back as the width and the places |
| SimpleExecutor.WriteVariableDefaults | 05.SimpleInterpreter/src/main/java/edu/yu/compilers/backend/Executor.java:116-149 | with no width and no places, a variable prints with `%.0f`; the `.d` part is always there |
| SimpleExecutor.ZeroWidthFaults | 05.SimpleInterpreter/src/main/java/edu/yu/compilers/backend/Executor.java:132-140 | writing a variable with a width that evaluates to 0 builds `%0.0f`; printf rejects it, so the program faults and prints nothing |
| SimpleTree.Node.constructor | 05.SimpleInterpreter/src/main/java/edu/yu/compilers/intermediate/Node.java:31-39 | a new node has the given type, line 0, no text, entry or value, and no children |
| SimpleTree.Node.Adopt | 05.SimpleInterpreter/src/main/java/edu/yu/compilers/intermediate/Node.java:45 | the child is appended at the end, and nothing else changes |
| SimpleTree.Node.Copy | 05.SimpleInterpreter/src/main/java/edu/yu/compilers/intermediate/Node.java:51-61 | a fresh node with the same type, line, text, entry and value, and an empty child list |
| SimpleTree.AdoptTwice | 05.SimpleInterpreter/src/main/java/edu/yu/compilers/intermediate/Node.java:45 | example: two adoptions keep both children in adoption order, and earlier children are untouched |
| SimpleTree.CopyThenAdopt | 05.SimpleInterpreter/src/main/java/edu/yu/compilers/intermediate/Node.java:51-61 | example: adopting into a copy leaves the original's children unchanged |
| SimplePrinter.TreePrinter.constructor | 05.SimpleInterpreter/src/main/java/edu/yu/compilers/intermediate/ParseTreePrinter.java:22-26 | empty indentation and an empty line buffer |
| SimplePrinter.TreePrinter.Print | 05.SimpleInterpreter/src/main/java/edu/yu/compilers/intermediate/ParseTreePrinter.java:32-60 | the lines printed are `Lines(t)`, the indentation is as before, and the buffer is empty |
| SimplePrinter.TreePrinter.PrintOpenTag | 05.SimpleInterpreter/src/main/java/edu/yu/compilers/intermediate/ParseTreePrinter.java:35-43 | `<TYPE`, the type's attribute, and ` line N` exactly when N > 0 |
| SimplePrinter.TreePrinter.PrintChildren | 05.SimpleInterpreter/src/main/java/edu/yu/compilers/intermediate/ParseTreePrinter.java:66-72 | children are printed four spaces further in, and the indentation is restored |
| SimplePrinter.TreePrinter.PrintLine | 05.SimpleInterpreter/src/main/java/edu/yu/compilers/intermediate/ParseTreePrinter.java:77-81 | the buffered line is output and the buffer is emptied |
| SimplePrinter.LineCount | 05.SimpleInterpreter/src/main/java/edu/yu/compilers/intermediate/ParseTreePrinter.java:47-59 | one line per node, plus one closing line per node with children |
| SimplePrinter.Indented | 05.SimpleInterpreter/src/main/java/edu/yu/compilers/intermediate/ParseTreePrinter.java:32-72 | every line of a subtree's listing starts with that subtree's indentation |
| SimplePrinter.Bracketing | 05.SimpleInterpreter/src/main/java/edu/yu/compilers/intermediate/ParseTreePrinter.java:47-59 | a leaf is one line ending in ` />`. An inner node's first line ends in `>`, and its last line is `</TYPE>` at the same indentation |
| RulePrinter.Printer.constructor | 06.Pcl4Interpreter/src/main/java/edu/yu/compilers/intermediate/ParseTreePrinter.java:8 | depth 0 and nothing printed |
| RulePrinter.Printer.PrintIndent | 06.Pcl4Interpreter/src/main/java/edu/yu/compilers/intermediate/ParseTreePrinter.java:10-14 | two spaces per level of depth |
| RulePrinter.Printer.Visit | 06.Pcl4Interpreter/src/main/java/edu/yu/compilers/intermediate/ParseTreePrinter.java:17-37 | the lines printed are `Listing(t, depth)`, and the depth is as before |
| RulePrinter.Printer.VisitChildren | 06.Pcl4Interpreter/src/main/java/edu/yu/compilers/intermediate/ParseTreePrinter.java:28-32 | the children are printed one level deeper, and the depth is restored |
| RulePrinter.ListingLength | 06.Pcl4Interpreter/src/main/java/edu/yu/compilers/intermediate/ParseTreePrinter.java:17-37 | one line per terminal and two per rule context reached; other nodes print nothing |
| RulePrinter.ListingIndented | 06.Pcl4Interpreter/src/main/java/edu/yu/compilers/intermediate/ParseTreePrinter.java:10-36 | every line printed for a node starts with two spaces per level of its depth |
| RulePrinter.Bracketing | 06.Pcl4Interpreter/src/main/java/edu/yu/compilers/intermediate/ParseTreePrinter.java:24-34 | a rule context opens with `<Name>` and closes with `</Name>` at its own depth, with Name its class name minus `Context` |
| AntlrTree.StripContextRoundTrip | 06.Pcl4Interpreter/src/main/java/edu/yu/compilers/intermediate/ParseTreePrinter.java:25 | removing a trailing `Context` gives back the rule name, and leaves other names unchanged |
| AntlrTree.Indent | 06.Pcl4Interpreter/src/main/java/edu/yu/compilers/intermediate/ParseTreePrinter.java:10-14 | the indentation is 2 × level characters, all of them spaces |
| SymTab.Entry.constructor | 06.Pcl4Interpreter/src/main/java/edu/yu/compilers/intermediate/symtab/SymTableEntry.java:17-21 | a new entry has the given name and value 0.0 |
| SymTab.Entry.GetName | 06.Pcl4Interpreter/src/main/java/edu/yu/compilers/intermediate/symtab/SymTableEntry.java:27 | returns the name, which is a constant |
| SymTab.Entry.GetValue | 06.Pcl4Interpreter/src/main/java/edu/yu/compilers/intermediate/symtab/SymTableEntry.java:33 | returns the current value |
| SymTab.Entry.SetValue | 06.Pcl4Interpreter/src/main/java/edu/yu/compilers/intermediate/symtab/SymTableEntry.java:39 | the value becomes v, and the name cannot change |
| SymTab.SymTable.constructor | 06.Pcl4Interpreter/src/main/java/edu/yu/compilers/intermediate/symtab/SymTable.java:12 | a new table is empty, so every entry is filed under its own name (`Valid`) |
| SymTab.SymTable.Enter | 06.Pcl4Interpreter/src/main/java/edu/yu/compilers/intermediate/symtab/SymTable.java:18-24 | a fresh entry with the name and value 0.0 is filed under the name, replacing any earlier one; other names keep their entries, and every entry stays filed under its own name |
| SymTab.SymTable.Lookup | 06.Pcl4Interpreter/src/main/java/edu/yu/compilers/intermediate/symtab/SymTable.java:31 | the entry filed under the name, or null when there is none; an entry found carries the name looked up |
| SymTab.EnterThenLookup | 06.Pcl4Interpreter/src/main/java/edu/yu/compilers/intermediate/symtab/SymTable.java:18-31 | example: lookup after enter gives back the entry enter returned. Entering again replaces it. A name never entered is not found. Other names are unaffected |
| SimpleScanner.Scanner.NextToken | 02.SimpleScanner/src/main/java/edu/yu/compilers/frontend/Scanner.java:25-36 | only whitespace is skipped, then the token kind is chosen: letter, digit, quote, or special symbol |
| SimpleScanner.WhitespaceEndFirst | 02.SimpleScanner/src/main/java/edu/yu/compilers/frontend/Scanner.java:30 | everything skipped is whitespace, and the character reached is not |
| SimpleScanner.SpecialSymbolStart | 02.SimpleScanner/src/main/java/edu/yu/compilers/frontend/Scanner.java:30-35 | the character the scanner stops at is not whitespace. It goes to specialSymbol exactly when it is neither a letter, a digit nor a quote; a `{` is one of these, since this scanner has no comments |
| CommentScanner.Scanner.NextToken | 04.SimpleParser/src/main/java/edu/yu/compilers/frontend/Scanner.java:25-34 | whitespace and comments are skipped, then the token kind is chosen: letter, digit, quote, or special symbol |
| CommentScanner.NextNonBlankCharacter | 04.SimpleParser/src/main/java/edu/yu/compilers/frontend/Scanner.java:41-57 | the cursor ends where `SkipBlanks` says, and the character returned is the one there |
| CommentScanner.CommentEnd | 04.SimpleParser/src/main/java/edu/yu/compilers/frontend/Scanner.java:50 | comment consumption stops at a `}` or at the end of the text |
| CommentScanner.SkipBlanksStops | 04.SimpleParser/src/main/java/edu/yu/compilers/frontend/Scanner.java:45 | the character reached is neither whitespace nor `{` |
| CommentScanner.CommentConsumed | 04.SimpleParser/src/main/java/edu/yu/compilers/frontend/Scanner.java:47-53 | a comment ends at the first `}` after its `{`, and that `}` is consumed too |
| CommentScanner.UnclosedComment | 04.SimpleParser/src/main/java/edu/yu/compilers/frontend/Scanner.java:50 | a comment that is never closed runs to the end of the text |
| CommentScanner.AgreesWithoutComments | 04.SimpleParser/src/main/java/edu/yu/compilers/frontend/Scanner.java:41-57 | on text without braces, the parser's scanner stops where the plain scanner stops |
| TokenListing.TestScanner | 03.Simple4Scanner/src/main/java/edu/yu/compilers/Scan.java:42-80 | `Tokens:` and an empty line, then each token's lines in stream order, up to the first token whose formatting throws |
| TokenListing.UnescapeEscape | 03.Simple4Scanner/src/main/java/edu/yu/compilers/Scan.java:59 | replacing `''` by `'` undoes Pascal's doubling of quotes |
| TokenListing.StringShown | 03.Simple4Scanner/src/main/java/edu/yu/compilers/Scan.java:54-62 | a STRING token is shown as its contents, unescaped, in double quotes |
| TokenListing.CharacterShown | 03.Simple4Scanner/src/main/java/edu/yu/compilers/Scan.java:64-71 | `'c'` is shown as `'c'`, and the escaped quote `''''` as `'\''` |
| TokenListing.ColonColumn | 03.Simple4Scanner/src/main/java/edu/yu/compilers/Scan.java:77 | with a name of at most 14 characters, the name is right-justified and ` : ` starts in column 15 |
| TokenListing.ListingLength | 03.Simple4Scanner/src/main/java/edu/yu/compilers/Scan.java:50-79 | a listing that reaches the end has one line per token, plus one per ERROR token |
| TokenListing.PrefixOfWhole | 03.Simple4Scanner/src/main/java/edu/yu/compilers/Scan.java:50-79 | once a token's formatting throws, the later tokens print nothing |
| PascalCC.InvalidOperation | 08.PascalCompiler/hw/src/main/java/edu/yu/compilers/PascalCC.java:118-121 | an option is invalid exactly when it is not one of the seven, that is, exactly when no option line of the usage message offers it |
| PascalCC.UsageListsOptions | 08.PascalCompiler/hw/src/main/java/edu/yu/compilers/PascalCC.java:28-38 | the options the usage message lists, one per indented line, are exactly the seven in the accepted set |
| PascalCC.DetermineBackendMode | 08.PascalCompiler/hw/src/main/java/edu/yu/compilers/PascalCC.java:123-132 | CONVERTER exactly for `-convert`, COMPILER exactly for `-compile`. Those two are valid options |
| PascalCC.ExecutorOptions | 08.PascalCompiler/hw/src/main/java/edu/yu/compilers/PascalCC.java:118-132 | of the valid options, exactly the five that do not translate select EXECUTOR |
| PascalCC.Console.Println | 08.PascalCompiler/hw/src/main/java/edu/yu/compilers/PascalCC.java:152 | println appends the text and a line break |
| PascalCC.PrintTokens | 08.PascalCompiler/hw/src/main/java/edu/yu/compilers/PascalCC.java:151-184 | `Tokens:`, an empty line, then each token's lines in order, up to the first token whose formatting throws |
| PascalCC.PrintToken | 08.PascalCompiler/hw/src/main/java/edu/yu/compilers/PascalCC.java:156-182 | one token's lines are printed, or nothing when substring or charAt throws |
| PascalCC.UnnamedToken | 08.PascalCompiler/hw/src/main/java/edu/yu/compilers/PascalCC.java:159-160 | a token with no symbolic name prints 14 blanks, ` : `, and its text in single quotes |
| PascalCC.AgreesWithScan | 08.PascalCompiler/hw/src/main/java/edu/yu/compilers/PascalCC.java:161-182 | on named tokens, the listing is exactly the Simple4 scanner test's |
| PascalCC.ListingCompletes | 08.PascalCompiler/hw/src/main/java/edu/yu/compilers/PascalCC.java:155-183 | on tokens as the lexer makes them, the listing reaches the last token, unnamed tokens included |
| PascalCC.PrintParseTree | 08.PascalCompiler/hw/src/main/java/edu/yu/compilers/PascalCC.java:186-206 | the text printed is `TreeText`: indentation, the rule name or the quoted leaf text, and a rule context's children one level deeper |
| PascalCC.PrintIndentation | 08.PascalCompiler/hw/src/main/java/edu/yu/compilers/PascalCC.java:188-190 | two spaces per level |
| PascalCC.PrintChildren | 08.PascalCompiler/hw/src/main/java/edu/yu/compilers/PascalCC.java:199-201 | the children are printed in order, one level deeper |
| PascalCC.TextIsLines | 08.PascalCompiler/hw/src/main/java/edu/yu/compilers/PascalCC.java:186-206 | on a tree in which only rule contexts have children, the output is whole lines |
| PascalCC.LinePerNode | 08.PascalCompiler/hw/src/main/java/edu/yu/compilers/PascalCC.java:192-205 | on such a tree, one line per node |
| PascalCC.Indented | 08.PascalCompiler/hw/src/main/java/edu/yu/compilers/PascalCC.java:186-206 | every line printed for a node starts with two spaces per level of its depth |
| PascalCC.PendingIndentation | 08.PascalCompiler/hw/src/main/java/edu/yu/compilers/PascalCC.java:202-205 | a node with children that is not a rule context prints only its indentation, so the next node's text continues that line |
| Common.IntToStringRoundTrip | 05.SimpleInterpreter/src/main/java/edu/yu/compilers/backend/Executor.java:135-136 | the decimal rendering of a number reads back as that number |
| Common.PadLeft | 03.Simple4Scanner/src/main/java/edu/yu/compilers/Scan.java:77 | `%14s` right-justifies in a field of 14 with spaces and never truncates |

## Left out

- **Expression code.** The ExpressionGenerator and CodeGenerator helpers
  are not part of this model. What visiting an expression or a modified
  variable emits is an opaque `Fragment`: code that depends on the label
  counter, plus the number of labels it mints.
- LabelScope.StmtScoped: the label-scoping theorems assume that expression
  code is itself well scoped (`FragmentOk`), because the code that makes
  it is not shown.
- **emitLoadValue, emitStoreValue and valueOf.** These become symbolic
  instructions (`LoadValue`, `StoreValue`, `ValueOf`). Their JVM
  encodings are not modelled.
- **String conversion.** `convertString` is a parameter of the
  configuration (uninterpreted).
- GeneratedCode.SpecifierCount holds only when the converted literals and
  the widths contain no `%`. What `convertString` does with a `%` is not
  shown.
- **Hashing.** `String.hashCode` is uninterpreted and may collide. Two
  keys with the same integer keep the later entry, as the source's HashMap
  does.
- **HashMap iteration orders.** The order of the jump table's entries and
  of the branch bodies is a field of the case statement (`entries`,
  `order`). No claim is made about either order.
- **Empty jump table.** The source reads the first key, which throws on an
  empty table. The grammar gives every case at least one branch.
  - Generator.StatementGenerator.EmitCase requires a non-empty table.
  - The closed-form `StmtCode` is total and yields harmless code there.
- **Closed-form totality.** `StmtCode` and the `Steps` functions are total.
  - Where the analysed program rules an input out, they give harmless
    code: fewer arguments than parameters, or an empty write-argument
    text. The methods keep the source's requirements.
  - Generator.StatementGenerator.EmitCall requires at least as many
    arguments as parameters, as the semantic pass guarantees.
- **Labels.** Labels are numbers from the generator's counter. Jasmin
  resolves them to addresses. The label placed twice by an if with an
  else part is stated as a fact (LabelScope.IfElseExitTwice), not judged.
- **Stack accounting.** The local stack's automatic accounting in `emit`
  is not modelled. Only the explicit `localStack.decrease` calls are
  summed (`dropped`).
- **Floating point.** The Simple interpreter's Doubles are modelled as
  `real`. IEEE rounding, NaN, infinities and printf's rendering of `%f`
  are out of scope. Output is a sequence of `Printf(format, value)` events.
  Of printf's format errors, the model includes the zero-padding one,
  `%0…f` (SimpleExecutor.ZeroWidthFaults). Printf also rejects a width or a
  number of places beyond Java's int range; that case is not modelled.
  Likewise, the Pcl4 symbol table's SymTab.Entry holds a `real`
  where Java holds a `Double`, so `setValue(null)` has no counterpart.
- SimpleExecutor.Trunc is exact only for values within the range of a long.
- **Exiting and exceptions.**
  - `System.exit(-2)` becomes the `Exited(-2)` status.
  - In the interpreter, Java exceptions on malformed trees (a missing
    child, a value of the wrong class, a null entry) become the `Faulted`
    status.
  - An entry whose value is null is modelled as absent from the store.
- SimplePrinter.TreePrinter.Print requires `Printable`: every
  INTEGER_CONSTANT node holds a Long. On a node whose value is null or not a
  Long, the `(long) node.value` cast throws after the lines before that node
  are printed; the printer model does not cover that exception.
- **Loop fuel.** `LOOP` runs at most `fuel` passes. A loop that needs more
  ends as `OutOfFuel`, so non-termination is not modelled.
- **Real-constant rendering.** How the tree printer renders a real
  constant (`Double.toString`) is a parameter (`realText`).
- **Source and Token classes.** They are not part of this model.
  - `ScannerSource.Source` stands in for `Source`:
    - `currentChar` is the character at the cursor, or EOF past the end;
    - `nextChar` advances and returns the new current character;
    - the cursor stays put at the end.
  - The token factories (`word`, `number`, `string`, `characterOrString`,
    `specialSymbol`) are only named by the kind returned.
- **Character classes.** `Character.isLetter` and `Character.isDigit` are
  modelled on ASCII. `Character.isWhitespace` is modelled exactly on its
  definition for Unicode scalar values:
  - the space character and the Unicode space, line and paragraph
    separators other than the no-break spaces (U+1680, U+2000 to U+2006,
    U+2008 to U+200A, U+2028, U+2029, U+205F, U+3000);
  - tab, line feed, vertical tab, form feed and carriage return;
  - the four information separators U+001C to U+001F.
- **Characters.** The model counts Unicode scalar values (Dafny `char`).
  Java strings count UTF-16 code units. The two differ only for characters
  outside the Basic Multilingual Plane. The three members below show such
  characters whole, where Java would count them as two units.
- TokenListing.CharacterShown: Java's `length() == 3` test, and its
  `charAt(1)` and `charAt(2)`, count UTF-16 units. A character literal
  holding a supplementary character has Java length 4, and Java prints a
  backslash and a lone surrogate for it.
- PascalCC.PrintToken: the same holds for the CHARACTER case of the Pascal
  driver's token listing.
- Common.PadLeft: `%14s` pads by UTF-16 length. A name containing
  supplementary characters gets fewer spaces in Java.
- **Driver plumbing.** `PascalCC.main`, `createLexer`, `createParser` and
  the ANTLR lexer, parser and vocabulary are out of scope. Tokens arrive
  as values carrying a symbolic name, text and line. Parse trees are a
  datatype of terminals, rule contexts and other nodes.
- PascalCC.PrintParseTree requires every rule index to name one of the
  parser's rules (`RulesNamed`), as the generated parser guarantees.
- Jvm.TypeName: every type carries a name. An anonymous type, whose
  `getIdentifier()` is null and makes the compiler throw, is not modelled.
- **Line separator.** It is `"\n"`.
- **Pcl4 visitor result.** `visit` always returns null, so the return value
  is not modelled.

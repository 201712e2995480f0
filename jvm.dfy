/** The target of the Pascal compiler: JVM instructions with symbolic labels,
    as the code generator hands them to the Jasmin assembler, and the
    compiler's view of Pascal types. */
module Jvm {
  import opened Common

  /** A label is the index the generator's label counter gave it
      (Jasmin spells it L001, L002, ...). */
  type Label = nat

  datatype Opcode =
    | I2F | IADD | ISUB | ICONST_0 | ICONST_1
    | IFEQ | IFNE | IF_ICMPGT | IF_ICMPLT | GOTO
    | LOOKUPSWITCH
    | GETSTATIC | INVOKEVIRTUAL | INVOKESTATIC
    | LDC | POP | DUP | ANEWARRAY | AASTORE

  /** One emitted line. The first seven mirror the generator's emit and
      emitLabel overloads; the last four stand for the helpers
      emitLoadConstant, emitLoadValue, emitStoreValue and
      emit(INVOKESTATIC, valueOfSignature(type)), whose expansion into
      instructions is not part of this model. */
  datatype Instr =
    | Op(opcode: Opcode)                              // emit(op)
    | Jump(opcode: Opcode, target: Label)             // emit(op, label)
    | Operand(opcode: Opcode, operand: string)        // emit(op, text)
    | Operands(opcode: Opcode, first: string, second: string)
    | Place(at: Label)                                // emitLabel(label)
    | SwitchEntry(key: int, target: Label)            // emitLabel(key, label): "key: label"
    | SwitchDefault(target: Label)                    // emitLabel("default", label)
    | LoadConstant(value: int)
    | LoadValue(variable: string)
    | StoreValue(entry: Option<string>, storeType: Option<Type>)
    | ValueOf(boxed: Type)

  /** Type forms of the compiler's type descriptors. */
  datatype Form = Scalar | Enumeration | Subrange | ArrayForm | RecordForm

  /** Type descriptors. The five predefined types are canonical singletons in
      the compiler and are compared by identity; here they are the first five
      constructors, so identity is constructor equality. Declared types carry
      the name of their type identifier. */
  datatype Type =
    | Integer | Real | Boolean | Char | Str
    | EnumType(name: string)
    | SubrangeType(name: string, base: Type)
    | ArrayType(name: string)
    | RecordType(name: string)

  /** A subrange stands for its base type; every other type for itself. */
  function BaseType(t: Type): (b: Type)
    ensures t.SubrangeType? ==> b == t.base
    ensures !t.SubrangeType? ==> b == t
  {
    if t.SubrangeType? then t.base else t
  }

  /** The form of a type. The predefined boolean type is an enumeration of
      false and true; the other predefined types are scalars. */
  function FormOf(t: Type): Form
  {
    match t
    case Integer | Real | Char | Str => Scalar
    case Boolean | EnumType(_) => Enumeration
    case SubrangeType(_, _) => Subrange
    case ArrayType(_) => ArrayForm
    case RecordType(_) => RecordForm
  }

  /** The name of a type's identifier, as getIdentifier().getName() gives it.
      Every type here carries a name; an anonymous type, on which the
      compiler's call would throw, is not modelled. */
  function TypeName(t: Type): string
  {
    match t
    case Integer => "integer"
    case Real => "real"
    case Boolean => "boolean"
    case Char => "char"
    case Str => "string"
    case EnumType(n) => n
    case SubrangeType(n, _) => n
    case ArrayType(n) => n
    case RecordType(n) => n
  }

  /** The labels an instruction jumps to or lists in a switch table. */
  function Targets(i: Instr): set<Label>
  {
    match i
    case Jump(_, l) => {l}
    case SwitchEntry(_, l) => {l}
    case SwitchDefault(l) => {l}
    case _ => {}
  }

  /** Every label some instruction of `code` refers to. */
  function Referenced(code: seq<Instr>): set<Label>
  {
    if code == [] then {} else Referenced(code[..|code| - 1]) + Targets(code[|code| - 1])
  }

  /** How many times `code` places label `l`. */
  function Placements(code: seq<Instr>, l: Label): nat
  {
    if code == [] then 0
    else Placements(code[..|code| - 1], l) + (if code[|code| - 1] == Place(l) then 1 else 0)
  }

  /** Every label `code` places. */
  function Placed(code: seq<Instr>): set<Label>
  {
    if code == [] then {}
    else Placed(code[..|code| - 1]) + (if code[|code| - 1].Place? then {code[|code| - 1].at} else {})
  }

  /** Code that neither places nor refers to any label. */
  predicate LabelFree(code: seq<Instr>)
  {
    forall i :: 0 <= i < |code| ==> !code[i].Place? && Targets(code[i]) == {}
  }

  lemma {:induction false} ReferencedAppend(a: seq<Instr>, b: seq<Instr>)
    ensures Referenced(a + b) == Referenced(a) + Referenced(b)
    decreases |b|
  {
    if b == [] {
      assert a + b == a;
    } else {
      assert (a + b)[..|a + b| - 1] == a + b[..|b| - 1];
      ReferencedAppend(a, b[..|b| - 1]);
    }
  }

  lemma {:induction false} PlacementsAppend(a: seq<Instr>, b: seq<Instr>, l: Label)
    ensures Placements(a + b, l) == Placements(a, l) + Placements(b, l)
    decreases |b|
  {
    if b == [] {
      assert a + b == a;
    } else {
      assert (a + b)[..|a + b| - 1] == a + b[..|b| - 1];
      PlacementsAppend(a, b[..|b| - 1], l);
    }
  }

  lemma {:induction false} PlacedAppend(a: seq<Instr>, b: seq<Instr>)
    ensures Placed(a + b) == Placed(a) + Placed(b)
    decreases |b|
  {
    if b == [] {
      assert a + b == a;
    } else {
      assert (a + b)[..|a + b| - 1] == a + b[..|b| - 1];
      PlacedAppend(a, b[..|b| - 1]);
    }
  }

  /** A label is placed a positive number of times exactly when it is placed. */
  lemma {:induction false} PlacementsPlaced(code: seq<Instr>, l: Label)
    ensures Placements(code, l) > 0 <==> l in Placed(code)
    decreases |code|
  {
    if code != [] {
      PlacementsPlaced(code[..|code| - 1], l);
    }
  }

  lemma {:induction false} LabelFreeHasNoLabels(code: seq<Instr>)
    requires LabelFree(code)
    ensures Referenced(code) == {} && Placed(code) == {}
    ensures forall l :: Placements(code, l) == 0
    decreases |code|
  {
    if code != [] {
      LabelFreeHasNoLabels(code[..|code| - 1]);
    }
  }

  /** Every label `code` refers to is placed in it or lies in `ext`, and
      the labels it places lie in [lo, hi). */
  ghost predicate Open(code: seq<Instr>, lo: nat, hi: nat, ext: set<Label>)
  {
    Referenced(code) <= Placed(code) + ext && forall l :: l in Placed(code) ==> lo <= l < hi
  }

  /** Every label `code` refers to is placed in it, and the labels it places
      lie in [lo, hi). */
  ghost predicate Scoped(code: seq<Instr>, lo: nat, hi: nat)
  {
    Open(code, lo, hi, {})
  }
}

/** The parse tree of the Simple interpreter: typed nodes with an optional
    source text, symbol-table entry and constant value, and an ordered list
    of children. `Node` is the mutable object the parser builds; `Tree` is
    the finished tree as a value, which the printer and the executor walk. */
module SimpleTree {
  import opened Common

  datatype NodeType =
    | PROGRAM | COMPOUND | ASSIGN | LOOP | TEST | WRITE | WRITELN
    | ADD | SUBTRACT | MULTIPLY | DIVIDE
    | EQ | LT
    | VARIABLE | INTEGER_CONSTANT | REAL_CONSTANT | STRING_CONSTANT

  /** The enum constant's name, as Java prints it. */
  function TypeName(t: NodeType): (s: string)
    ensures |s| > 0
  {
    match t
    case PROGRAM => "PROGRAM"
    case COMPOUND => "COMPOUND"
    case ASSIGN => "ASSIGN"
    case LOOP => "LOOP"
    case TEST => "TEST"
    case WRITE => "WRITE"
    case WRITELN => "WRITELN"
    case ADD => "ADD"
    case SUBTRACT => "SUBTRACT"
    case MULTIPLY => "MULTIPLY"
    case DIVIDE => "DIVIDE"
    case EQ => "EQ"
    case LT => "LT"
    case VARIABLE => "VARIABLE"
    case INTEGER_CONSTANT => "INTEGER_CONSTANT"
    case REAL_CONSTANT => "REAL_CONSTANT"
    case STRING_CONSTANT => "STRING_CONSTANT"
  }

  /** What a node's `value` object holds: a Long for integer constants, a
      Double for real constants, a String for string constants. */
  datatype Constant = LongConst(i: int) | DoubleConst(r: real) | StringConst(s: string)

  /** A parse tree node. The symbol-table entry is named by its identifier:
      the table files exactly one entry under each name. */
  class Node {
    var nodeType: NodeType
    var lineNumber: int
    var text: Option<string>
    var entry: Option<string>
    var value: Option<Constant>
    var children: seq<Node>

    /** A node of the given type with no line, text, entry, value or children. */
    constructor (nodeType: NodeType)
      ensures this.nodeType == nodeType && lineNumber == 0
      ensures text == None && entry == None && value == None && children == []
    {
      this.nodeType := nodeType;
      lineNumber := 0;
      text := None;
      entry := None;
      value := None;
      children := [];
    }

    /** Appends a child; nothing else about the node changes. */
    method Adopt(child: Node)
      modifies this`children
      ensures children == old(children) + [child]
    {
      children := children + [child];
    }

    /** A new node with this node's fields but no children; this node and its
        children are left as they were. */
    method Copy() returns (c: Node)
      ensures fresh(c)
      ensures c.nodeType == nodeType && c.lineNumber == lineNumber && c.text == text
      ensures c.entry == entry && c.value == value && c.children == []
    {
      c := new Node(nodeType);
      c.lineNumber := lineNumber;
      c.text := text;
      c.entry := entry;
      c.value := value;
      c.children := [];
    }
  }

  /** A finished parse tree. */
  datatype Tree = Tree(nodeType: NodeType, lineNumber: int, text: Option<string>, entry: Option<string>,
                       value: Option<Constant>, children: seq<Tree>)

  /** Children are kept in adoption order. */
  method AdoptTwice(n: Node, first: Node, second: Node)
    modifies n`children
    ensures n.children == old(n.children) + [first, second]
    ensures n.children[..|n.children| - 2] == old(n.children)
  {
    n.Adopt(first);
    n.Adopt(second);
  }

  /** A copy shares nothing with the original's child list: adopting into the
      copy leaves the original's children as they were. */
  method CopyThenAdopt(original: Node, child: Node) returns (c: Node)
    ensures fresh(c) && c.children == [child]
    ensures original.children == old(original.children)
    ensures c.nodeType == original.nodeType && c.text == original.text && c.value == original.value
  {
    c := original.Copy();
    c.Adopt(child);
  }
}

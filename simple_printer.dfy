/** The Simple interpreter's parse-tree printer: an XML-like listing with one
    line per leaf, an opening and a closing line per inner node, and four
    more spaces of indentation per level. */
module SimplePrinter {
  import opened Common
  import opened SimpleTree

  const IndentSize := "    "

  /** How StringBuilder.append renders a node's value object; Double's
      rendering is a parameter. */
  function ObjectText(v: Option<Constant>, realText: real -> string): string
  {
    match v
    case None => "null"
    case Some(LongConst(i)) => IntToString(i)
    case Some(DoubleConst(r)) => realText(r)
    case Some(StringConst(s)) => s
  }

  /** The `(long) node.value` cast succeeds on every integer constant. */
  predicate Printable(t: Tree)
  {
    (t.nodeType == INTEGER_CONSTANT ==> t.value.Some? && t.value.value.LongConst?)
    && forall i :: 0 <= i < |t.children| ==> Printable(t.children[i])
  }

  /** The attribute that follows the type name in the opening tag. */
  function Attribute(t: Tree, realText: real -> string): string
    requires t.nodeType == INTEGER_CONSTANT ==> t.value.Some? && t.value.value.LongConst?
  {
    match t.nodeType
    case PROGRAM => " " + (if t.text.Some? then t.text.value else "null")
    case VARIABLE => " " + (if t.text.Some? then t.text.value else "null")
    case INTEGER_CONSTANT => " " + IntToString(t.value.value.i)
    case REAL_CONSTANT => " " + ObjectText(t.value, realText)
    case STRING_CONSTANT => " '" + ObjectText(t.value, realText) + "'"
    case _ => ""
  }

  function LineAttribute(t: Tree): string
  {
    if t.lineNumber > 0 then " line " + IntToString(t.lineNumber) else ""
  }

  function OpenTag(t: Tree, indent: string, realText: real -> string): string
    requires t.nodeType == INTEGER_CONSTANT ==> t.value.Some? && t.value.value.LongConst?
  {
    indent + "<" + TypeName(t.nodeType) + Attribute(t, realText) + LineAttribute(t)
  }

  /** The lines printing `t` at indentation `indent` produces. */
  function Lines(t: Tree, indent: string, realText: real -> string): seq<string>
    requires Printable(t)
    decreases t, 1
  {
    if |t.children| > 0 then
      [OpenTag(t, indent, realText) + ">"]
      + ChildLines(t.children, indent + IndentSize, realText)
      + [indent + "</" + TypeName(t.nodeType) + ">"]
    else
      [OpenTag(t, indent, realText) + " />"]
  }

  function ChildLines(ts: seq<Tree>, indent: string, realText: real -> string): seq<string>
    requires forall i :: 0 <= i < |ts| ==> Printable(ts[i])
    decreases ts, 0
  {
    if ts == [] then [] else ChildLines(ts[..|ts| - 1], indent, realText) + Lines(ts[|ts| - 1], indent, realText)
  }

  /** Number of nodes in a tree, and of nodes with children. */
  function Size(t: Tree): nat
    decreases t, 1
  {
    1 + (if |t.children| > 0 then 1 else 0) + SizeOfAll(t.children)
  }

  function SizeOfAll(ts: seq<Tree>): nat
    decreases ts, 0
  {
    if ts == [] then 0 else SizeOfAll(ts[..|ts| - 1]) + Size(ts[|ts| - 1])
  }

  class TreePrinter {
    var indentation: string
    var line: string
    var out: seq<string>
    const realText: real -> string

    constructor (realText: real -> string)
      ensures indentation == "" && line == "" && out == [] && this.realText == realText
    {
      indentation := "";
      line := "";
      out := [];
      this.realText := realText;
    }

    /** Prints the tree rooted at `t`; the indentation is as before and the
        line buffer is empty afterwards. */
    method Print(t: Tree)
      requires Printable(t) && line == ""
      modifies this`line, this`out, this`indentation
      ensures out == old(out) + Lines(t, old(indentation), realText)
      ensures indentation == old(indentation) && line == ""
      decreases t, 1
    {
      var name := TypeName(t.nodeType);
      PrintOpenTag(t);
      ghost var tag := line;
      if |t.children| > 0 {
        line := line + ">";
        PrintLine();
        PrintChildren(t.children);
        ghost var inner := ChildLines(t.children, indentation + IndentSize, realText);
        line := line + indentation;
        assert line == indentation;
        line := line + "</" + name + ">";
        PrintLine();
        assert out == old(out) + Lines(t, old(indentation), realText) by {
          assert Lines(t, old(indentation), realText) == [tag + ">"] + inner + [indentation + "</" + name + ">"];
          Wrapped(old(out), tag + ">", inner, indentation + "</" + name + ">");
        }
      } else {
        line := line + " />";
        PrintLine();
      }
    }

    /** Puts the opening tag, without its closing bracket, in the line buffer. */
    method PrintOpenTag(t: Tree)
      requires t.nodeType == INTEGER_CONSTANT ==> t.value.Some? && t.value.value.LongConst?
      requires line == ""
      modifies this`line
      ensures line == OpenTag(t, indentation, realText)
    {
      var tag := indentation + "<" + TypeName(t.nodeType);
      tag := tag + Attribute(t, realText);
      tag := tag + LineAttribute(t);
      line := line + tag;
    }

    /** Prints the children four spaces further in, then restores the
        indentation. */
    method PrintChildren(children: seq<Tree>)
      requires forall i :: 0 <= i < |children| ==> Printable(children[i])
      requires line == ""
      modifies this`line, this`out, this`indentation
      ensures out == old(out) + ChildLines(children, old(indentation) + IndentSize, realText)
      ensures indentation == old(indentation) && line == ""
      decreases children, 0
    {
      var saveIndentation := indentation;
      indentation := indentation + IndentSize;
      var i := 0;
      while i < |children|
        invariant 0 <= i <= |children|
        invariant indentation == saveIndentation + IndentSize && line == ""
        invariant out == old(out) + ChildLines(children[..i], indentation, realText)
      {
        ghost var done := ChildLines(children[..i], indentation, realText);
        Print(children[i]);
        assert children[..i + 1][..i] == children[..i];
        assert ChildLines(children[..i + 1], indentation, realText) == done + Lines(children[i], indentation, realText);
        Associative(old(out), done, Lines(children[i], indentation, realText));
        i := i + 1;
      }
      assert children[..i] == children;
      indentation := saveIndentation;
    }

    /** Emits the buffered line and clears the buffer. */
    method PrintLine()
      modifies this`line, this`out
      ensures out == old(out) + [old(line)] && line == ""
    {
      out := out + [line];
      line := "";
    }
  }

  lemma Wrapped<T>(before: seq<T>, first: T, inner: seq<T>, last: T)
    ensures before + [first] + inner + [last] == before + ([first] + inner + [last])
  {
  }

  // ---------------------------------------------------------------------------
  // What the listing looks like.

  /** One line per node, plus a closing line per node with children. */
  lemma {:induction false} LineCount(t: Tree, indent: string, realText: real -> string)
    requires Printable(t)
    ensures |Lines(t, indent, realText)| == Size(t)
    decreases t, 1
  {
    if |t.children| > 0 {
      ChildLineCount(t.children, indent + IndentSize, realText);
    }
  }

  lemma {:induction false} ChildLineCount(ts: seq<Tree>, indent: string, realText: real -> string)
    requires forall i :: 0 <= i < |ts| ==> Printable(ts[i])
    ensures |ChildLines(ts, indent, realText)| == SizeOfAll(ts)
    decreases ts, 0
  {
    if ts != [] {
      ChildLineCount(ts[..|ts| - 1], indent, realText);
      LineCount(ts[|ts| - 1], indent, realText);
    }
  }

  /** Every line of a subtree's listing starts with the subtree's indentation. */
  lemma {:induction false} Indented(t: Tree, indent: string, realText: real -> string)
    requires Printable(t)
    ensures forall k :: 0 <= k < |Lines(t, indent, realText)| ==>
              |indent| <= |Lines(t, indent, realText)[k]| && Lines(t, indent, realText)[k][..|indent|] == indent
    decreases t, 1
  {
    if |t.children| > 0 {
      ChildrenIndented(t.children, indent + IndentSize, realText);
      forall k | 0 <= k < |Lines(t, indent, realText)|
        ensures |indent| <= |Lines(t, indent, realText)[k]| && Lines(t, indent, realText)[k][..|indent|] == indent
      {
        var inner := ChildLines(t.children, indent + IndentSize, realText);
        var l := Lines(t, indent, realText)[k];
        if 0 < k <= |inner| {
          assert l == inner[k - 1];
          assert l[..|indent|] == (indent + IndentSize)[..|indent|];
        }
      }
    }
  }

  lemma {:induction false} ChildrenIndented(ts: seq<Tree>, indent: string, realText: real -> string)
    requires forall i :: 0 <= i < |ts| ==> Printable(ts[i])
    ensures forall k :: 0 <= k < |ChildLines(ts, indent, realText)| ==>
              |indent| <= |ChildLines(ts, indent, realText)[k]| && ChildLines(ts, indent, realText)[k][..|indent|] == indent
    decreases ts, 0
  {
    if ts != [] {
      ChildrenIndented(ts[..|ts| - 1], indent, realText);
      Indented(ts[|ts| - 1], indent, realText);
    }
  }

  /** An inner node opens with `>` and closes with its end tag at the same
      indentation; a leaf is a single self-closing line. */
  lemma Bracketing(t: Tree, indent: string, realText: real -> string)
    requires Printable(t)
    ensures var ls := Lines(t, indent, realText);
            var name := TypeName(t.nodeType);
            && |ls| >= 1
            && ls[0][..|indent| + 1 + |name|] == indent + "<" + name
            && (|t.children| == 0 <==> |ls| == 1)
            && (|t.children| == 0 ==> ls[0][|ls[0]| - 3..] == " />")
            && (|t.children| > 0 ==> ls[0][|ls[0]| - 1] == '>' && ls[|ls| - 1] == indent + "</" + name + ">")
  {
    var ls := Lines(t, indent, realText);
    var name := TypeName(t.nodeType);
    var head := indent + "<" + name;
    assert OpenTag(t, indent, realText) == head + Attribute(t, realText) + LineAttribute(t);
    if |t.children| > 0 {
      LineCount(t, indent, realText);
      assert ls[0][..|head|] == head;
    } else {
      assert ls[0][..|head|] == head;
    }
  }
}

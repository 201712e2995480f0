/** The Pcl4 interpreter's parse-tree printer: a visitor that prints each
    terminal as a `<terminal .../>` line and each rule context as an
    opening and a closing tag around its children, two spaces further in
    per level of depth. */
module RulePrinter {
  import opened Common
  import opened AntlrTree

  /** What follows the indentation on a terminal's line. */
  function TerminalTag(tokenType: int, text: string): string
  {
    "<terminal type=\"" + IntToString(tokenType) + "\" text=\"" + text + "\"/>"
  }

  function OpeningTag(name: string): string
  {
    "<" + name + ">"
  }

  function ClosingTag(name: string): string
  {
    "</" + name + ">"
  }

  /** The lines visiting `t` at depth `depth` prints; a node that is neither
      a terminal nor a rule context prints nothing. */
  function Listing(t: ParseTree, depth: nat): seq<string>
    decreases t, 1
  {
    match t
    case Terminal(tokenType, text) => [Indent(depth) + TerminalTag(tokenType, text)]
    case Rule(className, _, children) =>
      var name := StripContext(className);
      [Indent(depth) + OpeningTag(name)] + ChildListings(children, depth + 1) + [Indent(depth) + ClosingTag(name)]
    case Other(_, _) => []
  }

  function ChildListings(ts: seq<ParseTree>, depth: nat): seq<string>
    decreases ts, 0
  {
    if ts == [] then [] else ChildListings(ts[..|ts| - 1], depth) + Listing(ts[|ts| - 1], depth)
  }

  /** Terminals count one line, rule contexts two; other nodes and
      everything below them count nothing. */
  function LineCount(t: ParseTree): nat
    decreases t, 1
  {
    match t
    case Terminal(_, _) => 1
    case Rule(_, _, children) => 2 + LineCountAll(children)
    case Other(_, _) => 0
  }

  function LineCountAll(ts: seq<ParseTree>): nat
    decreases ts, 0
  {
    if ts == [] then 0 else LineCountAll(ts[..|ts| - 1]) + LineCount(ts[|ts| - 1])
  }

  class Printer {
    var depth: nat
    var line: string
    var out: seq<string>

    constructor ()
      ensures depth == 0 && line == "" && out == []
    {
      depth := 0;
      line := "";
      out := [];
    }

    /** Prints two spaces per level of depth, without ending the line. */
    method PrintIndent()
      modifies this`line
      ensures line == old(line) + Indent(depth)
    {
      var i := 0;
      while i < depth
        invariant 0 <= i <= depth
        invariant line == old(line) + Indent(i)
      {
        line := line + "  ";
        i := i + 1;
      }
    }

    /** Ends the current line with `s`. */
    method Println(s: string)
      modifies this`line, this`out
      ensures out == old(out) + [old(line) + s] && line == ""
    {
      out := out + [line + s];
      line := "";
    }

    /** Prints the tree; the depth is as before afterwards. */
    method Visit(t: ParseTree)
      requires line == ""
      modifies this`line, this`out, this`depth
      ensures out == old(out) + Listing(t, old(depth))
      ensures depth == old(depth) && line == ""
      decreases t, 1
    {
      match t {
        case Terminal(tokenType, text) =>
          PrintIndent();
          assert line == Indent(depth);
          Println(TerminalTag(tokenType, text));
        case Rule(className, _, children) =>
          var nodeName := StripContext(className);
          ghost var opening, closing := Indent(depth) + OpeningTag(nodeName), Indent(depth) + ClosingTag(nodeName);
          ghost var inner := ChildListings(children, depth + 1);
          PrintIndent();
          assert line == Indent(depth);
          Println(OpeningTag(nodeName));
          depth := depth + 1;
          VisitChildren(children);
          depth := depth - 1;
          PrintIndent();
          assert line == Indent(depth);
          Println(ClosingTag(nodeName));
          Associative(old(out), [opening], inner);
          Associative(old(out), [opening] + inner, [closing]);
        case Other(_, _) =>
      }
    }

    /** The loop over a rule context's children. */
    method VisitChildren(children: seq<ParseTree>)
      requires line == ""
      modifies this`line, this`out, this`depth
      ensures out == old(out) + ChildListings(children, old(depth))
      ensures depth == old(depth) && line == ""
      decreases children, 0
    {
      var i := 0;
      while i < |children|
        invariant 0 <= i <= |children|
        invariant depth == old(depth) && line == ""
        invariant out == old(out) + ChildListings(children[..i], depth)
      {
        ghost var done := ChildListings(children[..i], depth);
        Visit(children[i]);
        assert children[..i + 1][..i] == children[..i];
        Associative(old(out), done, Listing(children[i], depth));
        i := i + 1;
      }
      assert children[..i] == children;
    }
  }

  // ---------------------------------------------------------------------------
  // What the listing looks like.

  /** One line per terminal and two per rule context reached through rule
      contexts only. */
  lemma {:induction false} ListingLength(t: ParseTree, depth: nat)
    ensures |Listing(t, depth)| == LineCount(t)
    decreases t, 1
  {
    if t.Rule? {
      ChildListingsLength(t.children, depth + 1);
    }
  }

  lemma {:induction false} ChildListingsLength(ts: seq<ParseTree>, depth: nat)
    ensures |ChildListings(ts, depth)| == LineCountAll(ts)
    decreases ts, 0
  {
    if ts != [] {
      ChildListingsLength(ts[..|ts| - 1], depth);
      ListingLength(ts[|ts| - 1], depth);
    }
  }

  /** Every line printed for a node starts with two spaces per level of the
      node's depth. */
  lemma {:induction false} ListingIndented(t: ParseTree, depth: nat)
    ensures forall k :: 0 <= k < |Listing(t, depth)| ==>
              2 * depth <= |Listing(t, depth)[k]| && Listing(t, depth)[k][..2 * depth] == Indent(depth)
    decreases t, 1
  {
    if t.Rule? {
      var inner := ChildListings(t.children, depth + 1);
      ChildListingsIndented(t.children, depth + 1);
      IndentPrefix(depth, 1);
      forall k | 0 <= k < |Listing(t, depth)|
        ensures 2 * depth <= |Listing(t, depth)[k]| && Listing(t, depth)[k][..2 * depth] == Indent(depth)
      {
        var l := Listing(t, depth)[k];
        if 0 < k <= |inner| {
          assert l == inner[k - 1];
          assert l[..2 * depth] == l[..2 * (depth + 1)][..2 * depth];
        }
      }
    }
  }

  lemma {:induction false} ChildListingsIndented(ts: seq<ParseTree>, depth: nat)
    ensures forall k :: 0 <= k < |ChildListings(ts, depth)| ==>
              2 * depth <= |ChildListings(ts, depth)[k]| && ChildListings(ts, depth)[k][..2 * depth] == Indent(depth)
    decreases ts, 0
  {
    if ts != [] {
      ChildListingsIndented(ts[..|ts| - 1], depth);
      ListingIndented(ts[|ts| - 1], depth);
    }
  }

  /** A rule context opens with `<Name>` and closes with `</Name>` at its own
      depth, the lines between are its children's at one level deeper, and
      Name is the context class's name without its "Context" suffix. */
  lemma Bracketing(base: string, ruleIndex: nat, children: seq<ParseTree>, depth: nat)
    ensures var ls := Listing(Rule(base + ContextSuffix, ruleIndex, children), depth);
            && |ls| >= 2
            && ls[0] == Indent(depth) + "<" + base + ">"
            && ls[|ls| - 1] == Indent(depth) + "</" + base + ">"
            && ls[1..|ls| - 1] == ChildListings(children, depth + 1)
  {
    StripContextRoundTrip(base, "");
    assert Indent(depth) + OpeningTag(base) == Indent(depth) + "<" + base + ">";
    assert Indent(depth) + ClosingTag(base) == Indent(depth) + "</" + base + ">";
  }
}

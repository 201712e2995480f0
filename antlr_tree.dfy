/** The parse trees an ANTLR parser builds, as far as the listing printers
    look at them: terminal nodes carry a token type and text, rule contexts
    carry the context class's simple name, the rule's index and the
    children, and any other kind of tree node carries a text and children. */
module AntlrTree {
  import opened Common

  datatype ParseTree =
    | Terminal(tokenType: int, text: string)
    | Rule(className: string, ruleIndex: nat, children: seq<ParseTree>)
    | Other(text: string, children: seq<ParseTree>)

  /** Two spaces per level, as a loop of print("  ") writes them. */
  function Indent(level: nat): (r: string)
    ensures |r| == 2 * level
    ensures forall i :: 0 <= i < |r| ==> r[i] == ' '
  {
    RepeatBlank(level);
    Repeat("  ", level)
  }

  lemma {:induction false} RepeatBlank(level: nat)
    ensures forall i :: 0 <= i < |Repeat("  ", level)| ==> Repeat("  ", level)[i] == ' '
  {
    if level > 0 {
      RepeatBlank(level - 1);
    }
  }

  const ContextSuffix := "Context"

  /** The class name with one trailing "Context" removed, as
      replaceAll("Context$", "") leaves it. */
  function StripContext(className: string): (r: string)
    ensures |r| <= |className| && r == className[..|r|]
  {
    if |className| >= |ContextSuffix| && className[|className| - |ContextSuffix|..] == ContextSuffix
    then className[..|className| - |ContextSuffix|]
    else className
  }

  /** A rule context class is its rule's name followed by "Context", and
      stripping gives the rule's name back; a name without the suffix is
      left as it is. */
  lemma StripContextRoundTrip(base: string, other: string)
    requires |other| < |ContextSuffix| || other[|other| - |ContextSuffix|..] != ContextSuffix
    ensures StripContext(base + ContextSuffix) == base
    ensures StripContext(other) == other
  {
    var name := base + ContextSuffix;
    assert name[|name| - |ContextSuffix|..] == ContextSuffix;
    assert name[..|name| - |ContextSuffix|] == base;
  }

  /** Every line of an indented listing starts with the indentation. */
  lemma IndentPrefix(level: nat, more: nat)
    ensures Indent(level + more)[..2 * level] == Indent(level)
    decreases more
  {
    if more > 0 {
      IndentPrefix(level, more - 1);
      assert Indent(level + more) == Indent(level + more - 1) + "  ";
    }
  }
}

/** The Pascal compiler's command-line driver, as far as it decides things
    itself: which options it accepts, which back end an option selects, and
    how it lists the token stream and the parse tree on standard output. */
module PascalCC {
  import opened Common
  import opened AntlrTree
  import opened TokenListing

  // ---------------------------------------------------------------------------
  // Options.

  const ValidOperations: set<string> := {"-tokens", "-parse", "-symbols", "-ast", "-execute", "-convert", "-compile"}

  /** The usage message printed for a wrong argument count or an unknown
      option, line by line; each option line is indented by four spaces. */
  const UsageLines: seq<string> := [
    "USAGE: PascalCC <option> <sourceFileName>",
    "Options:",
    "    -tokens",
    "    -parse",
    "    -symbols",
    "    -ast",
    "    -execute",
    "    -convert",
    "    -compile"]

  /** The usage message offers the option on one of its option lines. */
  predicate Advertised(operation: string)
  {
    exists i :: 2 <= i < |UsageLines| && UsageLines[i] == "    " + operation
  }

  /** True when the option is none of the seven the driver accepts, which
      are exactly the ones the usage message offers. */
  function InvalidOperation(operation: string): (r: bool)
    ensures r <==> !Advertised(operation)
  {
    UsageListsOptions(operation);
    operation !in ValidOperations
  }

  /** The set of accepted options and the usage message's option lines
      name the same seven options. */
  lemma UsageListsOptions(operation: string)
    ensures operation in ValidOperations <==> Advertised(operation)
  {
    if operation in ValidOperations {
      AcceptedIsAdvertised(operation);
    }
    if Advertised(operation) {
      var i :| 2 <= i < |UsageLines| && UsageLines[i] == "    " + operation;
      assert operation == UsageLines[i][4..];
      AdvertisedIsAccepted(i);
    }
  }

  lemma AcceptedIsAdvertised(operation: string)
    requires operation in ValidOperations
    ensures Advertised(operation)
  {
    var i := if operation == "-tokens" then 2 else if operation == "-parse" then 3
             else if operation == "-symbols" then 4 else if operation == "-ast" then 5
             else if operation == "-execute" then 6 else if operation == "-convert" then 7 else 8;
    assert UsageLines[i] == "    " + operation;
  }

  lemma AdvertisedIsAccepted(i: int)
    requires 2 <= i < |UsageLines|
    ensures UsageLines[i][4..] in ValidOperations
  {
  }

  datatype BackendMode = EXECUTOR | CONVERTER | COMPILER

  /** "-convert" selects the converter and "-compile" the compiler; every
      other option, valid or not, selects the executor. */
  function DetermineBackendMode(operation: string): (m: BackendMode)
    ensures m == CONVERTER <==> operation == "-convert"
    ensures m == COMPILER <==> operation == "-compile"
    ensures m != EXECUTOR ==> !InvalidOperation(operation)
  {
    if operation == "-convert" then CONVERTER
    else if operation == "-compile" then COMPILER
    else EXECUTOR
  }

  /** Of the accepted options, exactly the five that do not translate the
      program select the executor. */
  lemma ExecutorOptions(operation: string)
    requires !InvalidOperation(operation)
    ensures DetermineBackendMode(operation) == EXECUTOR <==>
              operation in {"-tokens", "-parse", "-symbols", "-ast", "-execute"}
  {
    if operation == "-convert" || operation == "-compile" {
      assert operation !in {"-tokens", "-parse", "-symbols", "-ast", "-execute"};
    }
  }

  // ---------------------------------------------------------------------------
  // Standard output.

  /** Everything printed to standard output so far. */
  class Console {
    var text: string

    constructor ()
      ensures text == ""
    {
      text := "";
    }

    method Print(s: string)
      modifies this
      ensures text == old(text) + s
    {
      text := text + s;
    }

    /** println and printf with a trailing \n; the line separator is "\n". */
    method Println(s: string)
      modifies this
      ensures text == old(text) + s + "\n"
    {
      text := text + s + "\n";
    }
  }

  /** Whole lines, each followed by its line break. */
  function Join(lines: seq<string>): string
    decreases |lines|
  {
    if lines == [] then "" else Join(lines[..|lines| - 1]) + lines[|lines| - 1] + "\n"
  }

  lemma JoinSnoc(lines: seq<string>, s: string)
    ensures Join(lines + [s]) == Join(lines) + s + "\n"
  {
    assert (lines + [s])[..|lines|] == lines;
  }

  /** Printing two runs of lines one after the other prints their concatenation. */
  lemma {:induction false} JoinAppend(a: seq<string>, b: seq<string>)
    ensures Join(a + b) == Join(a) + Join(b)
    decreases |b|
  {
    if b != [] {
      var front, last := b[..|b| - 1], b[|b| - 1];
      assert a + b == (a + front) + [last];
      JoinSnoc(a + front, last);
      JoinAppend(a, front);
      Associative(Join(a), Join(front) + last, "\n");
      Associative(Join(a), Join(front), last);
    } else {
      assert a + b == a && Join(a) + "" == Join(a);
    }
  }

  // ---------------------------------------------------------------------------
  // The token listing.

  /** The lines printTokens prints for one token: a token without a symbolic
      name shows its text in single quotes behind a blank name column; every
      other token is shown as the Simple4 scanner test shows it. */
  function PrintedLines(t: Token): Option<seq<string>>
  {
    match t.symbolicName
    case None => Some([NameLine("", "'" + t.text + "'")])
    case Some(name) => NamedLines(name, t)
  }

  /** printTokens: the header, then each token's lines; false when a
      malformed STRING or CHARACTER token made substring or charAt throw. */
  method PrintTokens(console: Console, tokens: seq<Token>) returns (completed: bool)
    modifies console
    ensures console.text == old(console.text) + Join(Header + Body(tokens, PrintedLines).lines)
    ensures completed == Body(tokens, PrintedLines).completed
  {
    console.Println("Tokens:");
    console.Println("");
    assert console.text == old(console.text) + Join(Header) by {
      JoinSnoc([], "Tokens:");
      JoinSnoc(["Tokens:"], "");
      assert Header == ["Tokens:"] + [""];
    }
    var i := 0;
    while i < |tokens|
      invariant 0 <= i <= |tokens|
      invariant Body(tokens[..i], PrintedLines).completed
      invariant console.text == old(console.text) + Join(Header + Body(tokens[..i], PrintedLines).lines)
    {
      var token := tokens[i];
      ghost var before := Body(tokens[..i], PrintedLines).lines;
      ghost var start := console.text;
      var ok := PrintToken(console, token);
      if !ok {
        assert Body(tokens, PrintedLines) == Listing(before, false) by {
          PrefixOfWhole(tokens, i, PrintedLines);
        }
        return false;
      }
      ListingStep(tokens, i, PrintedLines, old(console.text), start);
      i := i + 1;
    }
    assert tokens[..i] == tokens;
    completed := true;
  }

  /** A token that renders adds its lines to the listing and to what is
      printed. */
  lemma ListingStep(tokens: seq<Token>, i: nat, render: Token -> Option<seq<string>>, first: string, start: string)
    requires i < |tokens| && Body(tokens[..i], render).completed && render(tokens[i]).Some?
    requires start == first + Join(Header + Body(tokens[..i], render).lines)
    ensures Body(tokens[..i + 1], render).completed
    ensures start + Join(render(tokens[i]).value) == first + Join(Header + Body(tokens[..i + 1], render).lines)
  {
    var before, lines := Body(tokens[..i], render).lines, render(tokens[i]).value;
    assert tokens[..i + 1][..i] == tokens[..i];
    assert Body(tokens[..i + 1], render) == Listing(before + lines, true);
    JoinAppend(Header + before, lines);
    Associative(Header, before, lines);
  }

  /** The body of printTokens' loop for one token; false, with nothing
      printed, where substring or charAt throws. */
  method PrintToken(console: Console, token: Token) returns (ok: bool)
    modifies console
    ensures ok == PrintedLines(token).Some?
    ensures ok ==> console.text == old(console.text) + Join(PrintedLines(token).value)
    ensures !ok ==> console.text == old(console.text)
  {
    var tokenText := token.text;
    ghost var printed: seq<string> := [];
    assert old(console.text) + Join(printed) == old(console.text);
    if token.symbolicName.None? {
      var line := NameLine("", "'" + tokenText + "'");
      console.Println(line);
      PrintedSoFar(old(console.text), printed, line);
      printed := printed + [line];
    } else {
      var symbolicName := token.symbolicName.value;
      if symbolicName == "STRING" {
        if |tokenText| < 2 {
          return false;
        }
        var s := tokenText[1..|tokenText| - 1];
        s := Unescape(s);
        var line := NameLine(symbolicName, "\"" + s + "\"");
        console.Println(line);
        PrintedSoFar(old(console.text), printed, line);
        printed := printed + [line];
      } else if symbolicName == "CHARACTER" {
        var line: string;
        if |tokenText| == 3 {
          line := NameLine(symbolicName, "'" + [tokenText[1]] + "'");
        } else if |tokenText| > 2 {
          line := NameLine(symbolicName, "'\\" + [tokenText[2]] + "'");
        } else {
          return false;
        }
        console.Println(line);
        PrintedSoFar(old(console.text), printed, line);
        printed := printed + [line];
      } else {
        if symbolicName == "ERROR" {
          var line := ErrorLine(token.line, tokenText);
          console.Println(line);
          PrintedSoFar(old(console.text), printed, line);
          printed := printed + [line];
        }
        var line := NameLine(symbolicName, tokenText);
        console.Println(line);
        PrintedSoFar(old(console.text), printed, line);
        printed := printed + [line];
        assert printed == (if symbolicName == "ERROR" then [ErrorLine(token.line, tokenText)] else []) + [line];
      }
    }
    assert PrintedLines(token) == Some(printed);
    ok := true;
  }

  /** Printing one more line after `printed` prints `printed + [line]`. */
  lemma PrintedSoFar(start: string, printed: seq<string>, line: string)
    ensures start + Join(printed) + line + "\n" == start + Join(printed + [line])
  {
    JoinSnoc(printed, line);
    Associative(start, Join(printed) + line, "\n");
    Associative(start, Join(printed), line);
  }

  /** A token without a symbolic name is listed as fourteen blanks, a colon
      and its text in single quotes. */
  lemma UnnamedToken(t: Token)
    requires t.symbolicName.None?
    ensures PrintedLines(t) == Some([Spaces(14) + " : '" + t.text + "'"])
  {
    var blank := PadLeft("", 14);
    assert forall k :: 0 <= k < 14 ==> blank[k] == Spaces(14)[k];
    assert blank == Spaces(14);
    var quoted := "'" + t.text + "'";
    assert blank + " : " + quoted == blank + " : '" + t.text + "'";
  }

  /** On a stream whose every token has a symbolic name, the listing is the
      Simple4 scanner test's listing. */
  lemma {:induction false} AgreesWithScan(tokens: seq<Token>)
    requires forall i :: 0 <= i < |tokens| ==> tokens[i].symbolicName.Some?
    ensures Body(tokens, PrintedLines) == Body(tokens, TokenLines)
    decreases |tokens|
  {
    if tokens != [] {
      AgreesWithScan(tokens[..|tokens| - 1]);
      assert tokens[|tokens| - 1].symbolicName.Some?;
    }
  }

  /** A STRING token has at least its two quotes and a CHARACTER token at
      least three characters, as the Pascal lexer makes them. */
  predicate Lexed(t: Token)
  {
    (t.symbolicName == Some("STRING") ==> |t.text| >= 2)
    && (t.symbolicName == Some("CHARACTER") ==> |t.text| >= 3)
  }

  /** On lexed tokens the listing reaches the last token, tokens without a
      symbolic name included. */
  lemma {:induction false} ListingCompletes(tokens: seq<Token>)
    requires forall i :: 0 <= i < |tokens| ==> Lexed(tokens[i])
    ensures Body(tokens, PrintedLines).completed
    decreases |tokens|
  {
    if tokens != [] {
      ListingCompletes(tokens[..|tokens| - 1]);
      var last := tokens[|tokens| - 1];
      assert Lexed(last);
      if last.symbolicName.Some? {
        var name := last.symbolicName.value;
        if name == "STRING" {
          assert StringDisplay(last.text).Some?;
        } else if name == "CHARACTER" {
          assert CharacterDisplay(last.text).Some?;
        }
      }
    }
  }

  // ---------------------------------------------------------------------------
  // The parse-tree listing.

  /** Every rule context's index names one of the parser's rules. */
  predicate RulesNamed(t: ParseTree, ruleNames: seq<string>)
    decreases t
  {
    match t
    case Terminal(_, _) => true
    case Rule(_, ruleIndex, children) =>
      ruleIndex < |ruleNames| && forall i :: 0 <= i < |children| ==> RulesNamed(children[i], ruleNames)
    case Other(_, children) => forall i :: 0 <= i < |children| ==> RulesNamed(children[i], ruleNames)
  }

  /** A node's line without its indentation: a rule context's rule name, a
      leaf's text in single quotes. */
  function Label(t: ParseTree, ruleNames: seq<string>): string
    requires t.Rule? ==> t.ruleIndex < |ruleNames|
  {
    match t
    case Rule(_, ruleIndex, _) => ruleNames[ruleIndex]
    case Terminal(_, text) => "'" + text + "'"
    case Other(text, _) => "'" + text + "'"
  }

  /** What follows a node's indentation: its label and a line break, except
      for a node that is neither a rule context nor a leaf, which prints
      nothing more. */
  function Own(t: ParseTree, ruleNames: seq<string>): string
    requires t.Rule? ==> t.ruleIndex < |ruleNames|
  {
    if t.Other? && t.children != [] then "" else Label(t, ruleNames) + "\n"
  }

  /** What printParseTree prints for `t` at `level`: only a rule context's
      children are visited. */
  function TreeText(t: ParseTree, level: nat, ruleNames: seq<string>): string
    requires RulesNamed(t, ruleNames)
    decreases t, 1
  {
    Indent(level) + Own(t, ruleNames) + (if t.Rule? then ChildrenText(t.children, level + 1, ruleNames) else "")
  }

  function ChildrenText(ts: seq<ParseTree>, level: nat, ruleNames: seq<string>): string
    requires forall i :: 0 <= i < |ts| ==> RulesNamed(ts[i], ruleNames)
    decreases ts, 0
  {
    if ts == [] then "" else ChildrenText(ts[..|ts| - 1], level, ruleNames) + TreeText(ts[|ts| - 1], level, ruleNames)
  }

  /** printParseTree: the indentation, then the node, then a rule context's
      children one level deeper. */
  method PrintParseTree(console: Console, ruleNames: seq<string>, node: ParseTree, level: nat)
    requires RulesNamed(node, ruleNames)
    modifies console
    ensures console.text == old(console.text) + TreeText(node, level, ruleNames)
    decreases node, 1
  {
    ghost var start := console.text;
    ghost var indent, own := Indent(level), Own(node, ruleNames);
    PrintIndentation(console, level);
    if node.Rule? {
      var ruleName := ruleNames[node.ruleIndex];
      console.Println(ruleName);
      Associative(start + indent, ruleName, "\n");
      ghost var inner := ChildrenText(node.children, level + 1, ruleNames);
      PrintChildren(console, ruleNames, node.children, level + 1);
      Associative(start, indent + own, inner);
      Associative(start, indent, own);
    } else if |ChildrenOf(node)| == 0 {
      console.Println("'" + node.text + "'");
      Associative(start + indent, "'" + node.text + "'", "\n");
      Associative(start, indent, own);
      assert indent + own + "" == indent + own;
    } else {
      assert own == "" && indent + own + "" == indent;
    }
  }

  /** The indentation loop: two spaces per level. */
  method PrintIndentation(console: Console, level: nat)
    modifies console
    ensures console.text == old(console.text) + Indent(level)
  {
    var i := 0;
    while i < level
      invariant 0 <= i <= level
      invariant console.text == old(console.text) + Indent(i)
    {
      console.Print("  ");
      i := i + 1;
    }
  }

  /** The loop over a rule context's children. */
  method PrintChildren(console: Console, ruleNames: seq<string>, children: seq<ParseTree>, level: nat)
    requires forall i :: 0 <= i < |children| ==> RulesNamed(children[i], ruleNames)
    modifies console
    ensures console.text == old(console.text) + ChildrenText(children, level, ruleNames)
    decreases children, 0
  {
    var i := 0;
    while i < |children|
      invariant 0 <= i <= |children|
      invariant console.text == old(console.text) + ChildrenText(children[..i], level, ruleNames)
    {
      assert children[..i + 1][..i] == children[..i];
      ghost var done := ChildrenText(children[..i], level, ruleNames);
      PrintParseTree(console, ruleNames, children[i], level);
      Associative(old(console.text), done, TreeText(children[i], level, ruleNames));
      i := i + 1;
    }
    assert children[..i] == children;
  }

  /** getChildCount's children: a terminal has none. */
  function ChildrenOf(t: ParseTree): seq<ParseTree>
  {
    if t.Terminal? then [] else t.children
  }

  // ---------------------------------------------------------------------------
  // What the parse-tree listing looks like.

  /** A tree in which only rule contexts have children, as a parser builds it. */
  predicate Regular(t: ParseTree)
    decreases t
  {
    match t
    case Terminal(_, _) => true
    case Rule(_, _, children) => forall i :: 0 <= i < |children| ==> Regular(children[i])
    case Other(_, children) => children == []
  }

  /** The listing as lines: the node's label two spaces per level in, then
      a rule context's children in order, one level deeper. */
  function Lines(t: ParseTree, level: nat, ruleNames: seq<string>): seq<string>
    requires RulesNamed(t, ruleNames)
    decreases t, 1
  {
    [Indent(level) + Label(t, ruleNames)] + (if t.Rule? then ChildLines(t.children, level + 1, ruleNames) else [])
  }

  function ChildLines(ts: seq<ParseTree>, level: nat, ruleNames: seq<string>): seq<string>
    requires forall i :: 0 <= i < |ts| ==> RulesNamed(ts[i], ruleNames)
    decreases ts, 0
  {
    if ts == [] then [] else ChildLines(ts[..|ts| - 1], level, ruleNames) + Lines(ts[|ts| - 1], level, ruleNames)
  }

  /** Number of nodes. */
  function Size(t: ParseTree): nat
    decreases t, 1
  {
    1 + (if t.Terminal? then 0 else SizeOfAll(t.children))
  }

  function SizeOfAll(ts: seq<ParseTree>): nat
    decreases ts, 0
  {
    if ts == [] then 0 else SizeOfAll(ts[..|ts| - 1]) + Size(ts[|ts| - 1])
  }

  /** On a regular tree the listing is whole lines. */
  lemma {:induction false} TextIsLines(t: ParseTree, level: nat, ruleNames: seq<string>)
    requires RulesNamed(t, ruleNames) && Regular(t)
    ensures TreeText(t, level, ruleNames) == Join(Lines(t, level, ruleNames))
    decreases t, 1
  {
    var name := Label(t, ruleNames);
    assert Own(t, ruleNames) == name + "\n";
    if t.Rule? {
      var rest := ChildrenText(t.children, level + 1, ruleNames);
      var inner := ChildLines(t.children, level + 1, ruleNames);
      ChildrenAreLines(t.children, level + 1, ruleNames);
      assert TreeText(t, level, ruleNames) == Indent(level) + (name + "\n") + rest;
      assert Lines(t, level, ruleNames) == [Indent(level) + name] + inner;
      LineGlue(Indent(level), name, rest, inner);
    } else {
      assert TreeText(t, level, ruleNames) == Indent(level) + (name + "\n") + "";
      assert Lines(t, level, ruleNames) == [Indent(level) + name] + [];
      LineGlue(Indent(level), name, "", []);
    }
  }

  /** A node's own line followed by its children's lines. */
  lemma LineGlue(indent: string, name: string, rest: string, inner: seq<string>)
    requires rest == Join(inner)
    ensures indent + (name + "\n") + rest == Join([indent + name] + inner)
  {
    JoinAppend([indent + name], inner);
    JoinSnoc([], indent + name);
    assert [] + [indent + name] == [indent + name];
    Associative(indent, name, "\n");
  }

  lemma {:induction false} ChildrenAreLines(ts: seq<ParseTree>, level: nat, ruleNames: seq<string>)
    requires forall i :: 0 <= i < |ts| ==> RulesNamed(ts[i], ruleNames) && Regular(ts[i])
    ensures ChildrenText(ts, level, ruleNames) == Join(ChildLines(ts, level, ruleNames))
    decreases ts, 0
  {
    if ts != [] {
      var front := ts[..|ts| - 1];
      ChildrenAreLines(front, level, ruleNames);
      TextIsLines(ts[|ts| - 1], level, ruleNames);
      JoinAppend(ChildLines(front, level, ruleNames), Lines(ts[|ts| - 1], level, ruleNames));
    }
  }

  /** On a regular tree, one line per node. */
  lemma {:induction false} LinePerNode(t: ParseTree, level: nat, ruleNames: seq<string>)
    requires RulesNamed(t, ruleNames) && Regular(t)
    ensures |Lines(t, level, ruleNames)| == Size(t)
    decreases t, 1
  {
    if t.Rule? {
      LinePerChild(t.children, level + 1, ruleNames);
    }
  }

  lemma {:induction false} LinePerChild(ts: seq<ParseTree>, level: nat, ruleNames: seq<string>)
    requires forall i :: 0 <= i < |ts| ==> RulesNamed(ts[i], ruleNames) && Regular(ts[i])
    ensures |ChildLines(ts, level, ruleNames)| == SizeOfAll(ts)
    decreases ts, 0
  {
    if ts != [] {
      LinePerChild(ts[..|ts| - 1], level, ruleNames);
      LinePerNode(ts[|ts| - 1], level, ruleNames);
    }
  }

  /** Every line printed for a node starts with two spaces per level of the
      node's depth. */
  lemma {:induction false} Indented(t: ParseTree, level: nat, ruleNames: seq<string>)
    requires RulesNamed(t, ruleNames)
    ensures forall k :: 0 <= k < |Lines(t, level, ruleNames)| ==>
              2 * level <= |Lines(t, level, ruleNames)[k]| && Lines(t, level, ruleNames)[k][..2 * level] == Indent(level)
    decreases t, 1
  {
    if t.Rule? {
      var inner := ChildLines(t.children, level + 1, ruleNames);
      ChildrenIndented(t.children, level + 1, ruleNames);
      IndentPrefix(level, 1);
      forall k | 0 <= k < |Lines(t, level, ruleNames)|
        ensures 2 * level <= |Lines(t, level, ruleNames)[k]| && Lines(t, level, ruleNames)[k][..2 * level] == Indent(level)
      {
        var l := Lines(t, level, ruleNames)[k];
        if k > 0 {
          assert l == inner[k - 1];
          assert l[..2 * level] == l[..2 * (level + 1)][..2 * level];
        }
      }
    }
  }

  lemma {:induction false} ChildrenIndented(ts: seq<ParseTree>, level: nat, ruleNames: seq<string>)
    requires forall i :: 0 <= i < |ts| ==> RulesNamed(ts[i], ruleNames)
    ensures forall k :: 0 <= k < |ChildLines(ts, level, ruleNames)| ==>
              2 * level <= |ChildLines(ts, level, ruleNames)[k]| && ChildLines(ts, level, ruleNames)[k][..2 * level] == Indent(level)
    decreases ts, 0
  {
    if ts != [] {
      ChildrenIndented(ts[..|ts| - 1], level, ruleNames);
      Indented(ts[|ts| - 1], level, ruleNames);
    }
  }

  /** A node that is neither a rule context nor a leaf prints its
      indentation and no line break, so the next sibling's line continues
      that indentation. */
  lemma PendingIndentation(text: string, child: ParseTree, next: ParseTree, level: nat, ruleNames: seq<string>)
    requires RulesNamed(child, ruleNames) && RulesNamed(next, ruleNames)
    ensures ChildrenText([Other(text, [child]), next], level, ruleNames)
              == Indent(level) + TreeText(next, level, ruleNames)
  {
    var ts := [Other(text, [child]), next];
    assert RulesNamed(ts[0], ruleNames);
    assert ts[..1][..0] == [];
    assert ChildrenText(ts[..1], level, ruleNames) == TreeText(ts[0], level, ruleNames);
    assert TreeText(ts[0], level, ruleNames) == Indent(level);
  }
}

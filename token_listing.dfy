/** The token listing the Simple4 scanner test prints: a header, then one
    line per token with the token's symbolic name right-justified in
    fourteen columns, a colon and the token's text. String tokens are shown
    unquoted and unescaped inside double quotes, character tokens by their
    character, and an error token is preceded by an error line. */
module TokenListing {
  import opened Common

  /** A token of the filled token stream: its symbolic name (null for
      literal tokens without one), its text and its line. */
  datatype Token = Token(symbolicName: Option<string>, text: string, line: int)

  /** What the listing printed, and whether it got to the last token
      (false when a Java exception ended it). */
  datatype Listing = Listing(lines: seq<string>, completed: bool)

  const Header := ["Tokens:", ""]

  /** String.replace("''", "'"): each doubled quote, scanning from the left,
      becomes one quote. */
  function Unescape(s: string): string
    decreases |s|
  {
    if |s| >= 2 && s[0] == '\'' && s[1] == '\'' then "'" + Unescape(s[2..])
    else if s == [] then []
    else [s[0]] + Unescape(s[1..])
  }

  /** Pascal's way of writing a quote inside a string literal: doubled. */
  function Escape(s: string): string
    decreases |s|
  {
    if s == [] then [] else (if s[0] == '\'' then "''" else [s[0]]) + Escape(s[1..])
  }

  /** The display of a STRING token: the text without its first and last
      characters, unescaped, in double quotes. None where substring throws. */
  function StringDisplay(text: string): Option<string>
  {
    if |text| >= 2 then Some("\"" + Unescape(text[1..|text| - 1]) + "\"") else None
  }

  /** The display of a CHARACTER token: a three-character token shows its
      middle character, any other its third character after a backslash.
      None where charAt throws. */
  function CharacterDisplay(text: string): Option<string>
  {
    if |text| == 3 then Some("'" + [text[1]] + "'")
    else if |text| > 2 then Some("'\\" + [text[2]] + "'")
    else None
  }

  /** printf("%14s : %s\n", name, shown) without its line break. */
  function NameLine(name: string, shown: string): string
  {
    PadLeft(name, 14) + " : " + shown
  }

  function ErrorLine(line: int, text: string): string
  {
    "TOKEN ERROR at line " + IntToString(line) + ": Invalid token at '" + text + "'"
  }

  /** The lines Scan prints for a token given its (non-null) symbolic name. */
  function NamedLines(name: string, t: Token): Option<seq<string>>
  {
    if name == "STRING" then
      match StringDisplay(t.text)
      case Some(shown) => Some([NameLine(name, shown)])
      case None => None
    else if name == "CHARACTER" then
      match CharacterDisplay(t.text)
      case Some(shown) => Some([NameLine(name, shown)])
      case None => None
    else
      Some((if name == "ERROR" then [ErrorLine(t.line, t.text)] else []) + [NameLine(name, t.text)])
  }

  /** The lines Scan prints for a token; a token without a symbolic name
      makes `symbolicName.equals` throw. */
  function TokenLines(t: Token): Option<seq<string>>
  {
    if t.symbolicName.None? then None else NamedLines(t.symbolicName.value, t)
  }

  /** The listing of the tokens after the header, each rendered by `render`,
      up to the first token whose formatting throws. */
  function Body(tokens: seq<Token>, render: Token -> Option<seq<string>>): Listing
    decreases |tokens|
  {
    if tokens == [] then Listing([], true)
    else
      var before := Body(tokens[..|tokens| - 1], render);
      if !before.completed then before
      else match render(tokens[|tokens| - 1])
        case None => Listing(before.lines, false)
        case Some(ls) => Listing(before.lines + ls, true)
  }

  /** testScanner: the header, then each token's lines in stream order. */
  method TestScanner(tokens: seq<Token>) returns (out: seq<string>, completed: bool)
    ensures out == Header + Body(tokens, TokenLines).lines && completed == Body(tokens, TokenLines).completed
  {
    out := Header;
    var i := 0;
    while i < |tokens|
      invariant 0 <= i <= |tokens|
      invariant out == Header + Body(tokens[..i], TokenLines).lines && Body(tokens[..i], TokenLines).completed
    {
      var token := tokens[i];
      ghost var before := Body(tokens[..i], TokenLines).lines;
      assert tokens[..i + 1][..i] == tokens[..i];
      if token.symbolicName.None? {
        PrefixOfWhole(tokens, i, TokenLines);
        return out, false;
      }
      var name := token.symbolicName.value;
      var lines: seq<string>;
      if name == "STRING" {
        if |token.text| < 2 {
          PrefixOfWhole(tokens, i, TokenLines);
          return out, false;
        }
        var s := token.text[1..|token.text| - 1];
        s := Unescape(s);
        lines := [NameLine(name, "\"" + s + "\"")];
      } else if name == "CHARACTER" {
        if |token.text| == 3 {
          lines := [NameLine(name, "'" + [token.text[1]] + "'")];
        } else if |token.text| > 2 {
          lines := [NameLine(name, "'\\" + [token.text[2]] + "'")];
        } else {
          PrefixOfWhole(tokens, i, TokenLines);
          return out, false;
        }
      } else {
        lines := [];
        if name == "ERROR" {
          lines := lines + [ErrorLine(token.line, token.text)];
        }
        lines := lines + [NameLine(name, token.text)];
        assert lines == (if name == "ERROR" then [ErrorLine(token.line, token.text)] else []) + [NameLine(name, token.text)];
      }
      assert TokenLines(token) == Some(lines);
      out := out + lines;
      Associative(Header, before, lines);
      i := i + 1;
    }
    assert tokens[..i] == tokens;
    completed := true;
  }

  /** Once a token's formatting has thrown, the later tokens change nothing. */
  lemma {:induction false} PrefixOfWhole(tokens: seq<Token>, i: nat, render: Token -> Option<seq<string>>)
    requires i < |tokens| && Body(tokens[..i], render).completed && render(tokens[i]).None?
    ensures Body(tokens, render) == Listing(Body(tokens[..i], render).lines, false)
    decreases |tokens| - i
  {
    if i + 1 == |tokens| {
      assert tokens[..|tokens| - 1] == tokens[..i];
    } else {
      var front := tokens[..|tokens| - 1];
      assert front[..i] == tokens[..i] && front[i] == tokens[i];
      PrefixOfWhole(front, i, render);
    }
  }

  // ---------------------------------------------------------------------------
  // What the listing shows.

  /** Unescaping undoes Pascal's doubling of quotes. */
  lemma {:induction false} UnescapeEscape(s: string)
    ensures Unescape(Escape(s)) == s
    decreases |s|
  {
    if s != [] {
      UnescapeEscape(s[1..]);
      if s[0] == '\'' {
        assert Escape(s) == "''" + Escape(s[1..]);
      } else {
        assert Escape(s) == [s[0]] + Escape(s[1..]);
      }
    }
  }

  /** A string literal is shown as its contents in double quotes. */
  lemma StringShown(contents: string)
    ensures StringDisplay("'" + Escape(contents) + "'") == Some("\"" + contents + "\"")
  {
    var text := "'" + Escape(contents) + "'";
    assert text[1..|text| - 1] == Escape(contents);
    UnescapeEscape(contents);
  }

  /** A character literal 'c' is shown as 'c', and the escaped quote '''' as '\''. */
  lemma CharacterShown(c: char)
    ensures CharacterDisplay(['\'', c, '\'']) == Some(['\'', c, '\''])
    ensures CharacterDisplay("''''") == Some("'\\''")
  {
    assert "'" + [c] + "'" == ['\'', c, '\''];
    assert |"''''"| == 4 && "''''"[2] == '\'';
    assert "'\\" + ['\''] + "'" == "'\\''";
  }

  /** With a name of at most fourteen characters, the colon is in column 15. */
  lemma ColonColumn(name: string, shown: string)
    requires |name| <= 14
    ensures |NameLine(name, shown)| >= 17 && NameLine(name, shown)[14..17] == " : "
    ensures NameLine(name, shown)[14 - |name|..14] == name
  {
    var padded := PadLeft(name, 14);
    assert NameLine(name, shown) == padded + " : " + shown;
    assert (padded + " : " + shown)[14..17] == " : ";
  }

  /** The number of error tokens. */
  function Errors(tokens: seq<Token>): nat
    decreases |tokens|
  {
    if tokens == [] then 0
    else Errors(tokens[..|tokens| - 1]) + (if tokens[|tokens| - 1].symbolicName == Some("ERROR") then 1 else 0)
  }

  /** A listing body that gets to the end has one line per token and one
      more per error token; the header lines come on top of these. */
  lemma {:induction false} ListingLength(tokens: seq<Token>)
    requires Body(tokens, TokenLines).completed
    ensures |Body(tokens, TokenLines).lines| == |tokens| + Errors(tokens)
    decreases |tokens|
  {
    if tokens != [] {
      ListingLength(tokens[..|tokens| - 1]);
    }
  }
}

/** The hand-written scanners of the Simple language. A `Source` is a
    cursor over the program text whose current character is the end-of-file
    sentinel once the text is used up. Both scanners skip what separates
    tokens and then choose the kind of token by its first character; the
    Simple scanner skips whitespace only, the Simple parser's scanner also
    skips `{...}` comments. */
module ScannerSource {
  /** The character Source returns at the end of the text. */
  const EOF: char := 0 as char

  /** Java's Character.isWhitespace: the Unicode space, line and paragraph
      separators other than the no-break spaces, and the ASCII controls
      tab, line feed, vertical tab, form feed, carriage return and the four
      information separators. */
  predicate IsWhitespace(c: char)
  {
    var n := c as int;
    n == 0x20 || 0x09 <= n <= 0x0D || 0x1C <= n <= 0x1F || n == 0x1680 || 0x2000 <= n <= 0x2006
    || 0x2008 <= n <= 0x200A || n == 0x2028 || n == 0x2029 || n == 0x205F || n == 0x3000
  }

  /** Character.isLetter, on ASCII. */
  predicate IsLetter(c: char)
  {
    'A' <= c <= 'Z' || 'a' <= c <= 'z'
  }

  /** Character.isDigit, on ASCII. */
  predicate IsDigit(c: char)
  {
    '0' <= c <= '9'
  }

  /** The character at position i, or EOF past the end. */
  function At(text: string, i: nat): char
  {
    if i < |text| then text[i] else EOF
  }

  /** Which Token factory a scanner hands the first character to. */
  datatype TokenKind = Word | Number | StringToken | CharacterOrString | SpecialSymbol

  class Source {
    const text: string
    var pos: nat

    constructor (text: string)
      ensures this.text == text && pos == 0
    {
      this.text := text;
      pos := 0;
    }

    function CurrentChar(): char
      reads this
    {
      At(text, pos)
    }

    /** Moves to the next character, staying at the end of the text once
        there, and returns the new current character. */
    method NextChar() returns (ch: char)
      requires pos <= |text|
      modifies this`pos
      ensures pos == if old(pos) < |text| then old(pos) + 1 else old(pos)
      ensures pos <= |text| && ch == CurrentChar()
    {
      if pos < |text| {
        pos := pos + 1;
      }
      ch := At(text, pos);
    }
  }
}

/** The Simple scanner: whitespace is skipped, nothing else. */
module SimpleScanner {
  import opened ScannerSource

  /** Where whitespace skipping from position i stops. */
  function WhitespaceEnd(text: string, i: nat): nat
    requires i <= |text|
    decreases |text| - i
  {
    if IsWhitespace(At(text, i)) then WhitespaceEnd(text, i + 1) else i
  }

  /** Token.word for a letter, Token.number for a digit, Token.string for a
      quote, Token.specialSymbol for anything else. */
  function Classify(ch: char): TokenKind
  {
    if IsLetter(ch) then Word
    else if IsDigit(ch) then Number
    else if ch == '\'' then StringToken
    else SpecialSymbol
  }

  class Scanner {
    const source: Source

    constructor (source: Source)
      ensures this.source == source
    {
      this.source := source;
    }

    /** Skips whitespace and dispatches on the first character of the token. */
    method NextToken() returns (kind: TokenKind, ch: char)
      requires source.pos <= |source.text|
      modifies source`pos
      ensures source.pos == WhitespaceEnd(source.text, old(source.pos))
      ensures ch == source.CurrentChar() && kind == Classify(ch)
    {
      ch := source.CurrentChar();
      while IsWhitespace(ch)
        invariant source.pos <= |source.text| && ch == source.CurrentChar()
        invariant WhitespaceEnd(source.text, source.pos) == WhitespaceEnd(source.text, old(source.pos))
        decreases |source.text| - source.pos
      {
        ch := source.NextChar();
      }
      kind := Classify(ch);
    }
  }

  /** Skipping stops at the first character that is not whitespace: all
      characters passed over are whitespace, and the one it stops at is not. */
  lemma {:induction false} WhitespaceEndFirst(text: string, i: nat)
    requires i <= |text|
    ensures var r := WhitespaceEnd(text, i);
            && i <= r <= |text| && !IsWhitespace(At(text, r))
            && forall k :: i <= k < r ==> IsWhitespace(text[k])
    decreases |text| - i
  {
    if IsWhitespace(At(text, i)) {
      WhitespaceEndFirst(text, i + 1);
    }
  }

  /** A brace is not a comment here: it starts a special symbol. */
  /** The character the scanner stops at is never whitespace, and it goes
      to specialSymbol exactly when it is neither a letter, a digit nor a
      quote: a `{` among them, which this scanner does not treat as a
      comment. */
  lemma SpecialSymbolStart(text: string, i: nat)
    requires i <= |text|
    ensures var c := At(text, WhitespaceEnd(text, i));
            && !IsWhitespace(c)
            && (Classify(c) == SpecialSymbol <==> !IsLetter(c) && !IsDigit(c) && c != '\'')
            && (c == '{' ==> Classify(c) == SpecialSymbol)
  {
    WhitespaceEndFirst(text, i);
  }
}

/** The Simple parser's scanner: whitespace and `{...}` comments are skipped. */
module CommentScanner {
  import opened ScannerSource
  import SimpleScanner

  /** Where the comment loop stops: at a `}` or at the end. */
  function CommentEnd(text: string, i: nat): (r: nat)
    requires i <= |text|
    ensures i <= r <= |text|
    ensures r < |text| ==> text[r] == '}' || text[r] == EOF
    decreases |text| - i
  {
    var c := At(text, i);
    if c != '}' && c != EOF then CommentEnd(text, i + 1) else i
  }

  /** The cursor after one more nextChar. */
  function Advance(text: string, i: nat): nat
  {
    if i < |text| then i + 1 else i
  }

  /** Where skipping whitespace and comments from position i stops. */
  function SkipBlanks(text: string, i: nat): nat
    requires i <= |text|
    decreases |text| - i
  {
    var c := At(text, i);
    if c == '{' then
      assert CommentEnd(text, i) == CommentEnd(text, i + 1);
      SkipBlanks(text, Advance(text, CommentEnd(text, i)))
    else if IsWhitespace(c) then SkipBlanks(text, i + 1)
    else i
  }

  /** Token.word for a letter, Token.number for a digit,
      Token.characterOrString for a quote, Token.specialSymbol otherwise. */
  function Classify(ch: char): TokenKind
  {
    if IsLetter(ch) then Word
    else if IsDigit(ch) then Number
    else if ch == '\'' then CharacterOrString
    else SpecialSymbol
  }

  class Scanner {
    const source: Source

    constructor (source: Source)
      ensures this.source == source
    {
      this.source := source;
    }

    method NextToken() returns (kind: TokenKind, ch: char)
      requires source.pos <= |source.text|
      modifies source`pos
      ensures source.pos == SkipBlanks(source.text, old(source.pos))
      ensures ch == source.CurrentChar() && kind == Classify(ch)
    {
      ch := NextNonBlankCharacter();
      kind := Classify(ch);
    }

    /** Skips whitespace and comments, a comment running to its `}` or to
        the end of the text, and returns the first other character. */
    method NextNonBlankCharacter() returns (ch: char)
      requires source.pos <= |source.text|
      modifies source`pos
      ensures source.pos == SkipBlanks(source.text, old(source.pos))
      ensures ch == source.CurrentChar()
    {
      ch := source.CurrentChar();
      while ch == '{' || IsWhitespace(ch)
        invariant source.pos <= |source.text| && ch == source.CurrentChar()
        invariant SkipBlanks(source.text, source.pos) == SkipBlanks(source.text, old(source.pos))
        decreases |source.text| - source.pos
      {
        if ch == '{' {
          ghost var start := source.pos;
          while ch != '}' && ch != EOF
            invariant start <= source.pos <= |source.text| && ch == source.CurrentChar()
            invariant CommentEnd(source.text, source.pos) == CommentEnd(source.text, start)
            decreases |source.text| - source.pos
          {
            ch := source.NextChar();
          }
        }
        ch := source.NextChar();
      }
    }
  }

  /** The scanner stops at a character that is neither whitespace nor the
      start of a comment. */
  lemma {:induction false} SkipBlanksStops(text: string, i: nat)
    requires i <= |text|
    ensures var r := SkipBlanks(text, i);
            i <= r <= |text| && At(text, r) != '{' && !IsWhitespace(At(text, r))
    decreases |text| - i
  {
    var c := At(text, i);
    if c == '{' {
      assert CommentEnd(text, i) == CommentEnd(text, i + 1);
      SkipBlanksStops(text, Advance(text, CommentEnd(text, i)));
    } else if IsWhitespace(c) {
      SkipBlanksStops(text, i + 1);
    }
  }

  /** A comment ends with the first `}` after its `{`, and that `}` is
      consumed: scanning resumes just after it. */
  lemma {:induction false} CommentConsumed(text: string, i: nat, j: nat)
    requires i < j < |text| && text[i] == '{' && text[j] == '}'
    requires forall k :: i < k < j ==> text[k] != '}' && text[k] != EOF
    ensures SkipBlanks(text, i) == SkipBlanks(text, j + 1)
  {
    CommentEndAt(text, i + 1, j);
  }

  lemma {:induction false} CommentEndAt(text: string, i: nat, j: nat)
    requires i <= j < |text| && text[j] == '}'
    requires forall k :: i <= k < j ==> text[k] != '}' && text[k] != EOF
    ensures CommentEnd(text, i) == j
    decreases j - i
  {
    if i < j {
      CommentEndAt(text, i + 1, j);
    }
  }

  /** A comment that is never closed runs to the end of the text. */
  lemma {:induction false} UnclosedComment(text: string, i: nat)
    requires i < |text| && text[i] == '{'
    requires forall k :: i < k < |text| ==> text[k] != '}' && text[k] != EOF
    ensures SkipBlanks(text, i) == |text|
  {
    CommentEndAtEnd(text, i + 1);
  }

  lemma {:induction false} CommentEndAtEnd(text: string, i: nat)
    requires i <= |text|
    requires forall k :: i <= k < |text| ==> text[k] != '}' && text[k] != EOF
    ensures CommentEnd(text, i) == |text|
    decreases |text| - i
  {
    if i < |text| {
      CommentEndAtEnd(text, i + 1);
    }
  }

  /** On text without braces the two scanners skip to the same character. */
  lemma {:induction false} AgreesWithoutComments(text: string, i: nat)
    requires i <= |text|
    requires forall k :: i <= k < |text| ==> text[k] != '{'
    ensures SkipBlanks(text, i) == SimpleScanner.WhitespaceEnd(text, i)
    decreases |text| - i
  {
    if IsWhitespace(At(text, i)) {
      AgreesWithoutComments(text, i + 1);
    }
  }
}

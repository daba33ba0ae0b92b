/** The lexer of minicalc: a cursor over the chars of the source text that
    yields one token per call, with the line it was read on. */
module Lexer {
  import opened Wrappers
  import opened Chars
  import opened Decimal

  datatype TokenType =
    | BeginParethesis
    | CloseParenthesis
    | Sum
    | Asterisk
    | Integer(value: i64)
    | Print
    | Eof

  datatype Token = Token(kind: TokenType, line: nat)
  {
    /** A token of the given kind, stamped with the given line. */
    static function Symbol(kind: TokenType, line: nat): (t: Token)
      ensures t.kind == kind && t.line == line
    {
      Token(kind, line)
    }

    /** The end-of-input token, stamped with the given line. */
    static function EofAt(line: nat): (t: Token)
      ensures t.kind == Eof && t.line == line
    {
      Token(Eof, line)
    }
  }

  /** The three ways the lexer aborts; each carries the offending char, digit
      string or word and the line the cursor is on. */
  datatype LexError =
    | UnexpectedCharacter(c: char, line: nat)
    | NumericOverflow(digits: string, line: nat)
    | UnrecognizedKeyword(word: string, line: nat)

  /** The one-char tokens. */
  function SymbolKind(c: char): Option<TokenType> {
    match c
    case '(' => Some(BeginParethesis)
    case ')' => Some(CloseParenthesis)
    case '+' => Some(Sum)
    case '*' => Some(Asterisk)
    case _ => None
  }

  /** What one call of the lexer yields, and where it leaves the cursor and
      the line counter. */
  datatype Scanned = Scanned(result: Result<Token, LexError>, pos: nat, line: nat)

  /** Reference definition of one lexer step over the chars `s`, from cursor
      `pos` on line `line`: skip the maximal run of whitespace, counting its
      newlines, then read the token that starts there. */
  function Scan(s: seq<char>, pos: nat, line: nat): (r: Scanned)
    requires pos <= |s|
    ensures pos <= r.pos <= |s| && line <= r.line
  {
    var start := RunEnd(s, pos, Space);
    Classify(s, start, line + Newlines(s[pos..start]))
  }

  /** The token that starts at `start`, read on line `ln`: the end of the
      text, one symbol, the maximal run of digits or the maximal run of
      letters. */
  function Classify(s: seq<char>, start: nat, ln: nat): Scanned
    requires start <= |s|
  {
    if start == |s| then
      Scanned(Ok(Token(Eof, ln)), start, ln)
    else
      var c := s[start];
      if SymbolKind(c).Some? then
        Scanned(Ok(Token(SymbolKind(c).value, ln)), start + 1, ln)
      else if IsDigit(c) then
        ScanNumber(s, start, ln)
      else if IsAlphabetic(c) then
        ScanWord(s, start, ln)
      else
        Scanned(Err(UnexpectedCharacter(c, ln)), start + 1, ln)
  }

  /** The maximal run of digits at `start`, as an `i64` if it fits. */
  function ScanNumber(s: seq<char>, start: nat, ln: nat): Scanned
    requires start <= |s|
  {
    var end := RunEnd(s, start, Digit);
    var ds := s[start..end];
    assert AllDigits(ds) by {
      forall i | 0 <= i < |ds| ensures IsDigit(ds[i]) {
        assert InClass(s[start + i], Digit);
      }
    }
    Scanned(NumberResult(ds, ln), end, ln)
  }

  /** The token for the digit string `ds` read on line `ln`: an integer when
      `from_str_radix` accepts the digits, and an overflow error otherwise. */
  function NumberResult(ds: seq<char>, ln: nat): (r: Result<Token, LexError>)
    requires AllDigits(ds)
    ensures r.Ok? <==> ds != [] && DecimalValue(ds) <= I64_MAX
    ensures r.Ok? ==> r.value.line == ln && r.value.kind.Integer?
                      && r.value.kind.value as int == DecimalValue(ds)
    ensures r.Err? ==> r.error == NumericOverflow(ds, ln)
  {
    match ParseI64(ds)
    case Some(v) => Ok(Token(Integer(v), ln))
    case None => Err(NumericOverflow(ds, ln))
  }

  /** The maximal run of letters at `start`, which must spell `print`. */
  function ScanWord(s: seq<char>, start: nat, ln: nat): Scanned
    requires start <= |s|
  {
    var end := RunEnd(s, start, Letter);
    Scanned(WordResult(s[start..end], ln), end, ln)
  }

  /** The token for the word `word` read on line `ln`. */
  function WordResult(word: seq<char>, ln: nat): (r: Result<Token, LexError>)
    ensures r.Ok? <==> word == "print"
    ensures r.Ok? ==> r.value == Token(Print, ln)
    ensures r.Err? ==> r.error == UnrecognizedKeyword(word, ln)
  {
    if word == "print" then Ok(Token(Print, ln))
    else Err(UnrecognizedKeyword(word, ln))
  }

  /** The lexer's state: the source text as chars, the cursor and the 1-based
      line counter. */
  class Buffer {
    const chars: seq<char>
    var pos: nat
    var line: nat

    ghost predicate Valid()
      reads this
    {
      pos <= |chars| && line >= 1
    }

    constructor CreateComString(s: string)
      ensures Valid()
      ensures chars == s && pos == 0 && line == 1
    {
      chars := s;
      pos := 0;
      line := 1;
    }

    /** No char is left to read. */
    function IsEnd(): (r: bool)
      reads this
      requires Valid()
      ensures r <==> chars[pos..] == []
    {
      pos >= |chars|
    }

    /** Reads the char under the cursor and moves past it; at the end of the
        text there is none, and the cursor stays. */
    method NextChar() returns (c: Option<char>)
      requires Valid()
      modifies this`pos
      ensures Valid()
      ensures old(pos) == |chars| ==> c == None && pos == old(pos)
      ensures old(pos) < |chars| ==> c == Some(chars[old(pos)]) && pos == old(pos) + 1
    {
      if IsEnd() {
        c := None;
      } else {
        c := Some(chars[pos]);
        pos := pos + 1;
      }
    }

    /** Undoes the last `NextChar`; the cursor must have moved. */
    method BackPos()
      requires Valid() && pos >= 1
      modifies this`pos
      ensures Valid()
      ensures pos == old(pos) - 1
    {
      pos := pos - 1;
    }

    /** Skips the maximal run of whitespace under the cursor, one line more
        for each newline skipped. */
    method EmptySpace()
      requires Valid()
      modifies this
      ensures Valid()
      ensures pos == RunEnd(chars, old(pos), Space)
      ensures line == old(line) + Newlines(chars[old(pos)..pos])
    {
      while !IsEnd() && IsWhitespace(chars[pos])
        invariant Valid() && old(pos) <= pos
        invariant RunEnd(chars, pos, Space) == RunEnd(chars, old(pos), Space)
        invariant line == old(line) + Newlines(chars[old(pos)..pos])
        decreases |chars| - pos
      {
        assert chars[old(pos)..pos + 1] == chars[old(pos)..pos] + [chars[pos]];
        NewlinesSnoc(chars[old(pos)..pos], chars[pos]);
        if chars[pos] == '\n' {
          line := line + 1;
        }
        pos := pos + 1;
      }
    }
  }

  /** One lexer step: the token under the cursor, or the error that aborts. */
  method NextToken(buffer: Buffer) returns (r: Result<Token, LexError>)
    requires buffer.Valid()
    modifies buffer
    ensures buffer.Valid()
    ensures old(buffer.pos) <= buffer.pos
    ensures Scanned(r, buffer.pos, buffer.line) == Scan(buffer.chars, old(buffer.pos), old(buffer.line))
  {
    if buffer.IsEnd() {
      assert RunEnd(buffer.chars, buffer.pos, Space) == buffer.pos;
      assert buffer.chars[buffer.pos..buffer.pos] == [];
      return Ok(Token.EofAt(buffer.line));
    }

    buffer.EmptySpace();
    ghost var s, start := buffer.chars, buffer.pos;
    assert Scan(s, old(buffer.pos), old(buffer.line)) == Classify(s, start, buffer.line);

    var next := buffer.NextChar();
    match next
    case Some('(') => r := Ok(Token.Symbol(BeginParethesis, buffer.line));
    case Some(')') => r := Ok(Token.Symbol(CloseParenthesis, buffer.line));
    case Some('+') => r := Ok(Token.Symbol(Sum, buffer.line));
    case Some('*') => r := Ok(Token.Symbol(Asterisk, buffer.line));
    case Some(c) =>
      if IsDigit(c) {
        RunEndStep(s, start, Digit);
        assert Classify(s, start, buffer.line) == ScanNumber(s, start, buffer.line);
        r := NumberToken(buffer, c);
      } else if IsAlphabetic(c) {
        RunEndStep(s, start, Letter);
        assert Classify(s, start, buffer.line) == ScanWord(s, start, buffer.line);
        r := WordToken(buffer, c);
      } else {
        r := Err(UnexpectedCharacter(c, buffer.line));
      }
    case None => r := Ok(Token.EofAt(buffer.line));
  }

  /** Reads the maximal run of digits that `c` starts (the cursor is on the
      char after `c`) and converts it to an `i64`. */
  method NumberToken(buffer: Buffer, c: char) returns (r: Result<Token, LexError>)
    requires buffer.Valid() && IsDigit(c)
    modifies buffer
    ensures buffer.Valid() && buffer.line == old(buffer.line)
    ensures buffer.pos == RunEnd(buffer.chars, old(buffer.pos), Digit)
    ensures var ds := [c] + buffer.chars[old(buffer.pos)..buffer.pos];
      AllDigits(ds) && r == NumberResult(ds, buffer.line)
  {
    var digits := [c];
    var next := buffer.NextChar();
    ghost var look: nat := old(buffer.pos);

    while next.Some? && IsDigit(next.value)
      invariant buffer.Valid() && buffer.line == old(buffer.line)
      invariant old(buffer.pos) <= look <= |buffer.chars|
      invariant next.Some? ==> buffer.pos == look + 1 && next.value == buffer.chars[look]
      invariant next.None? ==> buffer.pos == look == |buffer.chars|
      invariant digits == [c] + buffer.chars[old(buffer.pos)..look]
      invariant RunEnd(buffer.chars, look, Digit) == RunEnd(buffer.chars, old(buffer.pos), Digit)
      decreases |buffer.chars| - look
    {
      digits := digits + [next.value];
      next := buffer.NextChar();
      look := look + 1;
    }

    if next.Some? {
      buffer.BackPos();
    }

    assert AllDigits(digits) by {
      forall i | 1 <= i < |digits| ensures IsDigit(digits[i]) {
        assert InClass(buffer.chars[old(buffer.pos) + i - 1], Digit);
      }
    }
    var value := ParseI64(digits);
    if value.None? {
      return Err(NumericOverflow(digits, buffer.line));
    }
    r := Ok(Token(Integer(value.value), buffer.line));
  }

  /** Reads the maximal run of letters that `c` starts (the cursor is on the
      char after `c`); the only word it accepts is `print`. */
  method WordToken(buffer: Buffer, c: char) returns (r: Result<Token, LexError>)
    requires buffer.Valid()
    modifies buffer
    ensures buffer.Valid() && buffer.line == old(buffer.line)
    ensures buffer.pos == RunEnd(buffer.chars, old(buffer.pos), Letter)
    ensures r == WordResult([c] + buffer.chars[old(buffer.pos)..buffer.pos], buffer.line)
  {
    var letters := [c];
    var next := buffer.NextChar();
    ghost var look: nat := old(buffer.pos);

    while next.Some? && IsAlphabetic(next.value)
      invariant buffer.Valid() && buffer.line == old(buffer.line)
      invariant old(buffer.pos) <= look <= |buffer.chars|
      invariant next.Some? ==> buffer.pos == look + 1 && next.value == buffer.chars[look]
      invariant next.None? ==> buffer.pos == look == |buffer.chars|
      invariant letters == [c] + buffer.chars[old(buffer.pos)..look]
      invariant RunEnd(buffer.chars, look, Letter) == RunEnd(buffer.chars, old(buffer.pos), Letter)
      decreases |buffer.chars| - look
    {
      letters := letters + [next.value];
      next := buffer.NextChar();
      look := look + 1;
    }

    if next.Some? {
      buffer.BackPos();
    }

    if letters != "print" {
      return Err(UnrecognizedKeyword(letters, buffer.line));
    }
    r := Ok(Token(Print, buffer.line));
  }
}

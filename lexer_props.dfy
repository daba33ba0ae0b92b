/** What one call of the lexer promises, stated about the reference step
    `Scan` that `NextToken` is proved to follow. */
module LexerProps {
  import opened Wrappers
  import opened Chars
  import opened Decimal
  import opened Lexer

  /** The line an outcome is stamped with: a token's line, or the line an
      error names. */
  function Stamp(res: Result<Token, LexError>): nat {
    match res
    case Ok(t) => t.line
    case Err(e) => e.line
  }

  predicate IsEofToken(res: Result<Token, LexError>) {
    res.Ok? && res.value.kind == Eof
  }

  /** The classes the lexer tells apart do not overlap, and a newline is
      whitespace. */
  lemma ClassesDisjoint(c: char)
    ensures IsWhitespace('\n')
    ensures IsDigit(c) ==> !IsAlphabetic(c) && !IsWhitespace(c) && SymbolKind(c).None?
    ensures IsAlphabetic(c) ==> !IsWhitespace(c) && SymbolKind(c).None?
    ensures SymbolKind(c).Some? ==> !IsWhitespace(c)
  {
  }

  /** The cursor never moves back and never leaves the text; every outcome
      but the end of input consumes at least one char; the end of input
      leaves the cursor at the end of the text. */
  lemma ScanBounds(s: seq<char>, pos: nat, line: nat)
    requires pos <= |s|
    ensures var r := Scan(s, pos, line);
      && pos <= r.pos <= |s|
      && (IsEofToken(r.result) ==> r.pos == |s|)
      && (!IsEofToken(r.result) ==> pos < r.pos)
  {
  }

  /** The whitespace skipped before a token is the maximal run at the
      cursor; the line grows by exactly the newlines in it, and the token or
      error is stamped with the line reached. */
  lemma ScanLine(s: seq<char>, pos: nat, line: nat)
    requires pos <= |s|
    ensures var start := RunEnd(s, pos, Space);
      var r := Scan(s, pos, line);
      && (forall i :: pos <= i < start ==> IsWhitespace(s[i]))
      && r.line == line + Newlines(s[pos..start])
      && Stamp(r.result) == r.line
      && start <= r.pos
  {
  }

  /** The chars a step consumes after the whitespace, its token's own chars,
      hold no newline. */
  lemma TokenHasNoNewline(s: seq<char>, pos: nat, line: nat)
    requires pos <= |s|
    ensures var start := RunEnd(s, pos, Space);
      var r := Scan(s, pos, line);
      start <= r.pos && Newlines(s[start..r.pos]) == 0
  {
    var start := RunEnd(s, pos, Space);
    var r := Scan(s, pos, line);
    ScanLine(s, pos, line);
    ScanBounds(s, pos, line);
    ScanSymbol(s, pos, line);
    ScanInteger(s, pos, line);
    ScanKeyword(s, pos, line);
    ScanUnexpected(s, pos, line);
    if start < |s| {
      ClassesDisjoint(s[start]);
    }
    forall i | start <= i < r.pos ensures s[i] != '\n' {
      ClassesDisjoint(s[i]);
      if start < |s| && IsDigit(s[start]) {
        assert IsDigit(s[start..r.pos][i - start]);
      }
    }
    NoNewlines(s[start..r.pos]);
  }

  /** Counted from the start of the text, the line after a step is one more
      than the newlines before the cursor, as it was before the step: a
      token that follows k newlines is stamped line k + 1. */
  lemma {:induction false} ScanLineGlobal(s: seq<char>, pos: nat)
    requires pos <= |s|
    ensures var r := Scan(s, pos, 1 + Newlines(s[..pos]));
      && r.line == 1 + Newlines(s[..r.pos])
      && Stamp(r.result) == 1 + Newlines(s[..RunEnd(s, pos, Space)])
  {
    var line := 1 + Newlines(s[..pos]);
    var start := RunEnd(s, pos, Space);
    var r := Scan(s, pos, line);
    ScanLine(s, pos, line);
    TokenHasNoNewline(s, pos, line);
    NewlinesSplit(s, 0, pos, start);
    NewlinesSplit(s, 0, start, r.pos);
    assert s[..pos] == s[0..pos] && s[..start] == s[0..start] && s[..r.pos] == s[0..r.pos];
  }

  /** The cursor and line after `n` lexer steps from a fresh buffer. */
  function Steps(s: seq<char>, n: nat): (r: Scanned)
    ensures r.pos <= |s|
  {
    if n == 0 then Scanned(Ok(Token(Eof, 1)), 0, 1)
    else
      var prev := Steps(s, n - 1);
      Scan(s, prev.pos, prev.line)
  }

  /** From a fresh buffer, after any number of steps, the line counter is one
      more than the number of newlines before the cursor. */
  lemma {:induction false} StepsLine(s: seq<char>, n: nat)
    ensures Steps(s, n).line == 1 + Newlines(s[..Steps(s, n).pos])
  {
    if n == 0 {
      assert s[..0] == [];
    } else {
      StepsLine(s, n - 1);
      ScanLineGlobal(s, Steps(s, n - 1).pos);
    }
  }

  /** At the end of the text the lexer yields `Eof` on the current line and
      changes nothing. */
  lemma ScanAtEnd(s: seq<char>, line: nat)
    ensures Scan(s, |s|, line) == Scanned(Ok(Token(Eof, line)), |s|, line)
  {
    assert s[|s|..|s|] == [];
  }

  /** The lexer yields `Eof` exactly when nothing but whitespace is left;
      then the cursor is at the end and every newline left has been
      counted. */
  lemma ScanEof(s: seq<char>, pos: nat, line: nat)
    requires pos <= |s|
    ensures var r := Scan(s, pos, line);
      && (IsEofToken(r.result) <==> forall i :: pos <= i < |s| ==> IsWhitespace(s[i]))
      && (IsEofToken(r.result) ==> r.pos == |s| && r.line == line + Newlines(s[pos..]))
  {
    var start := RunEnd(s, pos, Space);
    assert start == |s| ==> s[pos..start] == s[pos..];
    if forall i :: pos <= i < |s| ==> IsWhitespace(s[i]) {
      RunEndUnique(s, pos, |s|, Space);
    }
  }

  /** After `Eof` every further call yields the same `Eof` and changes
      nothing: the lexer is idempotent at the end of input. */
  lemma ScanEofIdempotent(s: seq<char>, pos: nat, line: nat)
    requires pos <= |s|
    requires IsEofToken(Scan(s, pos, line).result)
    ensures var r := Scan(s, pos, line);
      Scan(s, r.pos, r.line) == r
  {
    ScanBounds(s, pos, line);
    ScanLine(s, pos, line);
    ScanAtEnd(s, Scan(s, pos, line).line);
  }

  /** The four one-char symbols, each consuming exactly its char. */
  lemma ScanSymbol(s: seq<char>, pos: nat, line: nat)
    requires pos <= |s|
    ensures var start := RunEnd(s, pos, Space);
      var r := Scan(s, pos, line);
      && ((r.result.Ok? && r.result.value.kind == BeginParethesis) <==> start < |s| && s[start] == '(')
      && ((r.result.Ok? && r.result.value.kind == CloseParenthesis) <==> start < |s| && s[start] == ')')
      && ((r.result.Ok? && r.result.value.kind == Sum) <==> start < |s| && s[start] == '+')
      && ((r.result.Ok? && r.result.value.kind == Asterisk) <==> start < |s| && s[start] == '*')
      && (start < |s| && SymbolKind(s[start]).Some? ==> r.pos == start + 1)
  {
  }

  /** A digit starts the maximal run of digits; the token is its decimal
      value when that fits an `i64`, and an overflow error otherwise; the
      cursor stops on the first char after the run, which is not consumed. */
  lemma ScanInteger(s: seq<char>, pos: nat, line: nat)
    requires pos <= |s|
    ensures var start := RunEnd(s, pos, Space);
      var r := Scan(s, pos, line);
      && ((r.result.Ok? && r.result.value.kind.Integer?) || (r.result.Err? && r.result.error.NumericOverflow?)
          <==> start < |s| && IsDigit(s[start]))
      && (start < |s| && IsDigit(s[start]) ==>
            && start < r.pos
            && AllDigits(s[start..r.pos])
            && (r.pos == |s| || !IsDigit(s[r.pos]))
            && (r.result.Ok? <==> DecimalValue(s[start..r.pos]) <= I64_MAX)
            && (r.result.Ok? ==> r.result.value.kind.Integer?
                                 && r.result.value.kind.value as int == DecimalValue(s[start..r.pos]))
            && (r.result.Err? ==> r.result.error == NumericOverflow(s[start..r.pos], r.line)))
  {
    var start := RunEnd(s, pos, Space);
    if start < |s| && IsDigit(s[start]) {
      ClassesDisjoint(s[start]);
    }
  }

  /** A letter starts the maximal run of letters; it yields `Print` when the
      run is exactly `print` and an unrecognized-keyword error naming the run
      otherwise; the cursor stops on the first char after the run. */
  lemma ScanKeyword(s: seq<char>, pos: nat, line: nat)
    requires pos <= |s|
    ensures var start := RunEnd(s, pos, Space);
      var r := Scan(s, pos, line);
      && ((r.result.Ok? && r.result.value.kind == Print) || (r.result.Err? && r.result.error.UnrecognizedKeyword?)
          <==> start < |s| && IsAlphabetic(s[start]))
      && (start < |s| && IsAlphabetic(s[start]) ==>
            && start < r.pos
            && (forall i :: start <= i < r.pos ==> IsAlphabetic(s[i]))
            && (r.pos == |s| || !IsAlphabetic(s[r.pos]))
            && (r.result.Ok? <==> s[start..r.pos] == "print")
            && (r.result.Err? ==> r.result.error == UnrecognizedKeyword(s[start..r.pos], r.line)))
  {
    var start := RunEnd(s, pos, Space);
    if start < |s| && IsAlphabetic(s[start]) {
      ClassesDisjoint(s[start]);
    }
  }

  /** Any other char that is not whitespace aborts the lexer, naming it. */
  lemma ScanUnexpected(s: seq<char>, pos: nat, line: nat)
    requires pos <= |s|
    ensures var start := RunEnd(s, pos, Space);
      var r := Scan(s, pos, line);
      && (r.result.Err? && r.result.error.UnexpectedCharacter?
          <==> start < |s| && SymbolKind(s[start]).None? && !IsDigit(s[start]) && !IsAlphabetic(s[start]))
      && (r.result.Err? && r.result.error.UnexpectedCharacter? ==>
            && !IsWhitespace(s[start])
            && r.result.error == UnexpectedCharacter(s[start], r.line)
            && r.pos == start + 1)
  {
  }

  /** The input of the source's own lexer test. */
  const TestOneText: string := "( + * print  \n\n43257)   "

  /** The source's own lexer test, the one-char tokens: each call starts
      where the previous one left the cursor and the line. */
  lemma TestOneSymbols()
    ensures Scan(TestOneText, 0, 1) == Scanned(Ok(Token(BeginParethesis, 1)), 1, 1)
    ensures Scan(TestOneText, 1, 1) == Scanned(Ok(Token(Sum, 1)), 3, 1)
    ensures Scan(TestOneText, 3, 1) == Scanned(Ok(Token(Asterisk, 1)), 5, 1)
    ensures Scan(TestOneText, 20, 3) == Scanned(Ok(Token(CloseParenthesis, 3)), 21, 3)
  {
    var s := TestOneText;
    RunEndUnique(s, 0, 0, Space);
    RunEndUnique(s, 1, 2, Space);
    RunEndUnique(s, 3, 4, Space);
    RunEndUnique(s, 20, 20, Space);
  }

  /** The source's own lexer test, the keyword: `print` is read whole and the
      cursor stops on the blank after it. */
  lemma TestOnePrint()
    ensures Scan(TestOneText, 5, 1) == Scanned(Ok(Token(Print, 1)), 11, 1)
  {
    var s := TestOneText;
    RunEndUnique(s, 5, 6, Space);
    RunEndUnique(s, 6, 11, Letter);
    assert s[6..11] == "print";
  }

  /** The source's own lexer test, the number: the two newlines before it
      are counted, so it is stamped line 3, and the cursor stops on the `)`
      after it. */
  lemma TestOneNumber()
    ensures Scan(TestOneText, 11, 1) == Scanned(Ok(Token(Integer(43257), 3)), 20, 3)
  {
    var s := TestOneText;
    RunEndUnique(s, 11, 15, Space);
    assert s[11..15] == "  \n\n";
    TwoNewlines();
    RunEndUnique(s, 15, 20, Digit);
    assert s[15..20] == "43257";
    Digits43257();
  }

  lemma TwoNewlines()
    ensures Newlines("  \n\n") == 2
  {
    NewlinesCount("  \n\n");
    assert "  \n\n" == [' ', ' '] + ['\n'] + ['\n'];
  }

  lemma Digits43257()
    ensures DecimalValue("43257") == 43257
  {
    assert "43257"[..4] == "4325" && "4325"[..3] == "432";
    assert "432"[..2] == "43" && "43"[..1] == "4" && "4"[..0] == [];
  }

  /** The source's own lexer test, the end: the trailing blanks are skipped
      and `Eof` is stamped line 3. */
  lemma TestOneEof()
    ensures Scan(TestOneText, 21, 3) == Scanned(Ok(Token(Eof, 3)), 24, 3)
  {
    var s := TestOneText;
    RunEndUnique(s, 21, 24, Space);
    assert s[21..24] == "   ";
    NewlinesCount("   ");
  }

  /** A word that is not `print` aborts the lexer, naming the word. */
  lemma MisspelledKeyword()
    ensures Scan("prin 42", 0, 1).result == Err(UnrecognizedKeyword("prin", 1))
  {
    var s := "prin 42";
    RunEndUnique(s, 0, 0, Space);
    RunEndUnique(s, 0, 4, Letter);
    assert s[0..4] == "prin";
  }

  /** The source's own lexer test run on a `Buffer`: seven calls of
      `NextToken` on a fresh buffer over the test's input yield its seven
      tokens, the last one `Eof`. */
  method TestOneRun() returns (tokens: seq<Result<Token, LexError>>)
    ensures tokens == [
      Ok(Token(BeginParethesis, 1)), Ok(Token(Sum, 1)), Ok(Token(Asterisk, 1)),
      Ok(Token(Print, 1)), Ok(Token(Integer(43257), 3)),
      Ok(Token(CloseParenthesis, 3)), Ok(Token(Eof, 3))]
  {
    var buffer := new Buffer.CreateComString(TestOneText);
    TestOneSymbols();
    var t1 := NextToken(buffer);
    assert t1 == Ok(Token(BeginParethesis, 1)) && buffer.pos == 1 && buffer.line == 1;
    var t2 := NextToken(buffer);
    assert t2 == Ok(Token(Sum, 1)) && buffer.pos == 3 && buffer.line == 1;
    var t3 := NextToken(buffer);
    assert t3 == Ok(Token(Asterisk, 1)) && buffer.pos == 5 && buffer.line == 1;
    TestOnePrint();
    var t4 := NextToken(buffer);
    assert t4 == Ok(Token(Print, 1)) && buffer.pos == 11 && buffer.line == 1;
    TestOneNumber();
    var t5 := NextToken(buffer);
    assert t5 == Ok(Token(Integer(43257), 3)) && buffer.pos == 20 && buffer.line == 3;
    var t6 := NextToken(buffer);
    assert t6 == Ok(Token(CloseParenthesis, 3)) && buffer.pos == 21 && buffer.line == 3;
    TestOneEof();
    var t7 := NextToken(buffer);
    assert t7 == Ok(Token(Eof, 3)) && buffer.pos == 24 && buffer.line == 3;
    tokens := [t1, t2, t3, t4, t5, t6, t7];
  }
}

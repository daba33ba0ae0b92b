# minicalc front end: lexer and `parse`, modelled in Dafny

minicalc reads a program such as `print (4 + 7)`. This project models the
part of it that exists in code: the lexer in `src/lexer.rs` and the first
step of the parser in `src/parser.rs`.

The lexer is a `Buffer` holding the source text as chars, a cursor `pos`
and a 1-based `line` counter. Each `next_token` call works in three steps:

1. It skips the whitespace under the cursor, counting newlines.
2. It reads one token: one of the four symbols `( ) + *`, the maximal run
   of digits as an `i64`, or the maximal run of letters, which must be
   `print`.
3. At the end of the text it yields `Eof`, and it keeps doing so.

Every `panic!` and `expect` of the source that can actually fail is an error value here:

- `LexError.UnexpectedCharacter`: a char that starts no token.
- `LexError.NumericOverflow`: a digit run above `i64::MAX`.
- `LexError.UnrecognizedKeyword`: a word other than `print`.
- `ParseError.UnexpectedToken`: a first token that is not `print`.
- `ParseError.LexFailure`: a lexer error during `parse`.

The four `expect("q?")` calls in the digit and letter loops (`src/lexer.rs`
lines 100-101 and 121-122) cannot fail: each runs right after an
`is_some()` test. The model's loop guards test `next.Some?` the same way,
so those failures are unreachable and have no error value. The
`pos -= 1` of `back_pos` would underflow at `pos = 0`. `BackPos` requires
`pos >= 1`, and both call sites prove it, since each follows a
`next_char` that moved the cursor.

`parse` is still a stub in the source. It pulls one token, fails unless that
token is `Print`, and returns `Constant(42)`. The model keeps it that way.

Layout, one module per file:

- `wrappers.dfy` (`Wrappers`): `Option` and `Result`.
- `chars.dfy` (`Chars`): the char classes and the end of a maximal run
  (`RunEnd`). It also counts newlines (`Newlines`).
- `decimal.dfy` (`Decimal`): the `i64` type, the value of a digit string, and
  `i64::from_str_radix(s, 10)` on digit strings (`ParseI64`).
- `lexer.dfy` (`Lexer`):
  - `TokenType`, `Token` (with `Token.Symbol` and `Token.EofAt` for
    `Token::symbol` and `Token::eof`) and `LexError`;
  - the class `Buffer`, whose methods update `pos` and `line` in place;
  - the methods `NextToken`, `NumberToken` and `WordToken`;
  - `Scan`, a reference definition of one lexer step as a function of
    (text, cursor, line). `NextToken` is proved to follow it.
- `lexer_props.dfy` (`LexerProps`): what one lexer step promises, as lemmas
  about `Scan`, and the source's own lexer test.
- `parser.dfy` (`Parser`): `Expression` and `Parse`.

The model follows the code as it stands:

- The code un-reads the lookahead char with `back_pos`. It does not peek.
- `parse` is a stub. There is no recursive-descent grammar and no evaluator.
- A wrong first token gives one error, carrying the token and the line.
- Token kinds keep the source's names, spelling included
  (`BeginParethesis`).

## Model

| member | source | states |
|---|---|---|
| `Chars.RunEnd` | src/lexer.rs:66-71 | the cursor stops at the end of the maximal run of one char class: every char before the stop is of the class, and the stop is the end of the text or a char of another class |
| `Chars.NewlinesCount` | src/lexer.rs:67-69 | the line increments while skipping are exactly the number of `'\n'` chars skipped |
| `Decimal.Accumulate` | src/lexer.rs:111-112 | digit-by-digit checked accumulation fails exactly when the digit string's value exceeds `i64::MAX`, and otherwise yields that value |
| `Decimal.ParseI64` | src/lexer.rs:111-112 | `from_str_radix` on digits succeeds exactly when the string is non-empty and its value fits `i64`, with that value |
| `Lexer.Token.Symbol` | src/lexer.rs:19-21 | the token built carries the given kind and the given line |
| `Lexer.Token.EofAt` | src/lexer.rs:23-25 | the token built is `Eof`, carrying the given line |
| `Lexer.Scan` | src/lexer.rs:75-93 | the reference step: skip the maximal whitespace run, counting its newlines, then read the end, a symbol, a digit run or a letter run; its own contract keeps the cursor within the text and never lowers the line |
| `Lexer.NumberResult` | src/lexer.rs:110-114 | a digit run becomes `Integer(value)` stamped with the current line when it fits `i64`, and a `NumericOverflow` error naming the digits otherwise |
| `Lexer.WordResult` | src/lexer.rs:130-135 | a letter run becomes `Print` stamped with the current line exactly when it is `print`, and otherwise an `UnrecognizedKeyword` error naming the word and line |
| `Lexer.Buffer.CreateComString` | src/lexer.rs:37-44 | a new buffer holds the input's chars, with `pos = 0` and `line = 1` |
| `Lexer.Buffer.IsEnd` | src/lexer.rs:46-48 | true exactly when no char is left after the cursor |
| `Lexer.Buffer.NextChar` | src/lexer.rs:50-58 | at the end it returns `None` and leaves `pos`; otherwise it returns the char at `pos` and advances `pos` by one; `line` is untouched |
| `Lexer.Buffer.BackPos` | src/lexer.rs:60-62 | moves the cursor back by one; only callable with `pos >= 1`, which every call site proves |
| `Lexer.Buffer.EmptySpace` | src/lexer.rs:65-72 | `pos` moves to the end of the maximal whitespace run, and `line` grows by the newlines in the skipped chars |
| `Lexer.NextToken` | src/lexer.rs:75-93 | the token or error, the new cursor and the new line are those of the reference step `Scan`; the cursor never moves back and stays within the text |
| `Lexer.NumberToken` | src/lexer.rs:95-115 | consumes the maximal digit run after `c`, undoing the one lookahead char, and yields the token or overflow error for `c` followed by that run; `line` is unchanged |
| `Lexer.WordToken` | src/lexer.rs:117-136 | consumes the maximal letter run after `c`, undoing the lookahead char, and yields `Print` when `c` and the run spell `print`, else an error naming the word |
| `LexerProps.ClassesDisjoint` | src/lexer.rs:84-89 | a newline is whitespace; digits, letters and the four symbols are pairwise distinct classes, none of them whitespace |
| `LexerProps.ScanBounds` | src/lexer.rs:75-93 | a step keeps `pos` within the text and never below where it started; every outcome but `Eof` consumes at least one char; `Eof` leaves `pos` at the end |
| `LexerProps.ScanLine` | src/lexer.rs:80-87 | the skipped chars are whitespace, the line grows by exactly their newlines, and the token or error carries the line reached |
| `LexerProps.TokenHasNoNewline` | src/lexer.rs:84-91 | the chars a step reads after the whitespace (symbol, digit run, letter run or unexpected char) contain no newline, so the line cannot change inside a token |
| `LexerProps.ScanLineGlobal` | src/lexer.rs:65-72 | if the line is one more than the newlines before the cursor, it still is after the step, and the token is stamped one more than the newlines before its first char |
| `LexerProps.StepsLine` | src/lexer.rs:37-44 | after any number of steps from a fresh buffer (line 1, cursor 0), the line is one more than the newlines before the cursor: a token after k newlines is on line k + 1 |
| `LexerProps.ScanAtEnd` | src/lexer.rs:76-77 | at the end of the text a step yields `Eof` on the current line and changes nothing |
| `LexerProps.ScanEof` | src/lexer.rs:80-90 | a step yields `Eof` if and only if only whitespace is left; the cursor then ends at the end and every newline left is counted |
| `LexerProps.ScanEofIdempotent` | src/lexer.rs:76-77 | after `Eof`, the next step yields the same `Eof` and leaves the state unchanged, so repeated calls keep returning `Eof` |
| `LexerProps.ScanSymbol` | src/lexer.rs:84-87 | `(`, `)`, `+` and `*` yield `BeginParethesis`, `CloseParenthesis`, `Sum` and `Asterisk`, if and only if that char is next, each consuming one char |
| `LexerProps.ScanInteger` | src/lexer.rs:95-115 | an integer token or overflow error comes if and only if a digit is next; the step consumes the maximal digit run, and the value is the run's decimal value; the error comes exactly when that value exceeds `i64::MAX` |
| `LexerProps.ScanKeyword` | src/lexer.rs:117-136 | `Print` or an unrecognized-keyword error comes if and only if a letter is next; the step consumes the maximal letter run, and succeeds exactly when the run is `print` |
| `LexerProps.ScanUnexpected` | src/lexer.rs:91 | an unexpected-character error comes if and only if the next non-whitespace char is no symbol, digit or letter; it names that char and the line |
| `LexerProps.TestOneSymbols` | src/lexer.rs:143-145 | on the test input, the one-char tokens come with their lines, each call starting where the last stopped |
| `LexerProps.TestOnePrint` | src/lexer.rs:146 | on the test input, `print` is read whole as `Print` on line 1 |
| `LexerProps.TestOneNumber` | src/lexer.rs:147 | on the test input, `43257` after two newlines is `Integer(43257)` on line 3 |
| `LexerProps.TestOneEof` | src/lexer.rs:149 | on the test input, the trailing blanks end in `Eof` on line 3 |
| `LexerProps.TestOneRun` | src/lexer.rs:138-150 | seven `NextToken` calls on a fresh buffer over the test input yield exactly the test's seven tokens |
| `LexerProps.MisspelledKeyword` | src/lexer.rs:130-133 | the word `prin` aborts the lexer with an unrecognized-keyword error naming `prin` on line 1 |
| `Parser.Parse` | src/parser.rs:16-23 | pulls exactly one token, leaving the buffer as one `NextToken` call does; succeeds if and only if that token is `Print`, then with `Constant(42)`; otherwise the lexer's error or an unexpected-token error naming the token and line; whitespace-only input fails on `Eof` |

## Left out

- `src/main.rs`, the demo driver, is not part of this model. It only prints tokens.
- The `opening: String` field of `Buffer` is not modelled. It duplicates `opening_chars` and is never read.
- `Chars.IsAlphabetic` covers ASCII letters only. Rust's `is_alphabetic` also accepts non-ASCII letters. Such a letter starts a word in the source and is an unexpected character here. So `printé` is rejected by the source and read as `Print` by the model.
- `Chars.IsWhitespace` is the full Unicode White_Space set that Rust's `is_whitespace` uses. No other Unicode classification is modelled.
- The `usize` fields `pos` and `line` are unbounded naturals. Wrap-around of `line` at `usize::MAX` is not modelled.
- Panic message text and `Debug` output are not modelled. Errors are variants carrying the char, digits, word or token and the line.
- After an error the source aborts the process. The model returns the error and still states the cursor and line the source would leave.
- `Lexer.NumberToken` requires its first char to be a decimal digit. Its one caller guarantees this. So the sign prefixes that `from_str_radix` would accept are not modelled.
- No expression grammar and no evaluator are modelled, since the source has none; `parse` stops after its first token.

/** The parser of minicalc as it stands: the expression tree, and a `parse`
    that so far only checks that the program starts with `print`. */
module Parser {
  import opened Wrappers
  import opened Chars
  import opened Decimal
  import opened Lexer
  import opened LexerProps

  /** A finite expression tree; each node owns its operands. */
  datatype Expression =
    | Constant(value: i64)
    | Sum(left: Expression, right: Expression)
    | Multiply(left: Expression, right: Expression)

  /** Why parsing aborts: the lexer aborted, or the first token was not
      `print` (the error names the token and the line the buffer is on). */
  datatype ParseError =
    | LexFailure(cause: LexError)
    | UnexpectedToken(token: Token, line: nat)

  /** Pulls exactly one token; the program must start with `print`, and the
      expression returned is, for now, always `Constant(42)`. */
  method Parse(buffer: Buffer) returns (r: Result<Expression, ParseError>)
    requires buffer.Valid()
    modifies buffer
    ensures buffer.Valid()
    ensures var step := Scan(buffer.chars, old(buffer.pos), old(buffer.line));
      && buffer.pos == step.pos && buffer.line == step.line
      && (r.Ok? <==> step.result.Ok? && step.result.value.kind == Print)
      && (r.Ok? ==> r.value == Constant(42))
      && (step.result.Err? ==> r == Err(LexFailure(step.result.error)))
      && (step.result.Ok? && step.result.value.kind != Print ==>
            r == Err(UnexpectedToken(step.result.value, buffer.line))
            && step.result.value.line == buffer.line)
    ensures (forall i :: old(buffer.pos) <= i < |buffer.chars| ==> IsWhitespace(buffer.chars[i]))
            ==> r == Err(UnexpectedToken(Token(Eof, buffer.line), buffer.line))
  {
    ScanEof(buffer.chars, buffer.pos, buffer.line);
    ScanLine(buffer.chars, buffer.pos, buffer.line);
    var tok := NextToken(buffer);
    if tok.Err? {
      return Err(LexFailure(tok.error));
    }
    if tok.value.kind != Print {
      return Err(UnexpectedToken(tok.value, buffer.line));
    }
    r := Ok(Constant(42));
  }
}

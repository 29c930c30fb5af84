/** The token and error records the scanner produces.

    Go keeps these in other files of the `lexer` package; only their shape is
    fixed by the scanner, which is what this module declares. */
module Tokens {

  datatype Option<T> = None | Some(value: T)

  /** Token kinds. The scanner names every kind below except `Keyword`, which
      stands for the reserved-word kinds that only reach the scanner through
      the keyword table it is given. */
  datatype TokenType =
    | LeftParen | RightParen | LeftBrace | RightBrace
    | Comma | Dot | Semicolon | Star
    | Minus | Decrement | Plus | Increment
    | Bang | BangEqual | Equal | EqualEqual
    | Less | LessEqual | Greater | GreaterEqual
    | Question | Colon | Slash
    | String | Number | Identifier
    | Keyword(word: string)
    | Eof

  /** The literal carried by a token. Tokens added without a literal carry
      the empty string, as the Go code passes "". A NUMBER token carries the
      value of its digits, kept here as the digits themselves. */
  datatype Literal = Text(text: string) | Float(digits: string)

  datatype Token = Token(kind: TokenType, lexeme: string, literal: Literal, line: int)

  /** The scanner's error record; the zero value means "no error". */
  datatype LexerError = LexerError(hasError: bool, line: int, reason: string)

  const NoError := LexerError(false, 0, "")

  const UnexpectedCharacter := "Unexpected character."
  const UnterminatedString := "Unterminated string"
  const FloatParseFailure := "lexing error failed to parse float literal"

  /** The token appended when the whole source has been scanned. */
  function EofToken(line: int): (t: Token) {
    Token(Eof, "", Text(""), line)
  }
}

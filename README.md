# golox scanner in Dafny

This project models the scanner of golox, a Go implementation of the Lox
language, and proves properties of it. The model covers `lox/lexer/lexer.go`.
The scanner walks a cursor over the source text, one lexeme per step, and
appends tokens to a buffer. It counts lines as it goes and stops at the first
error. A successful scan ends with an EOF token.

The model has two layers:

- **`Lex.Lexer`** (`lexer.dfy`) is the Go `Lexer` struct as a class. Its fields are
  `source`, `tokens`, `start`, `current`, `line` and `error`. Every Go method is a
  method or function of the class, and every loop keeps the Go loop's shape and
  condition. The scanning methods (`ScanTokens`, `ScanToken` and the
  per-lexeme methods) are proved against the reference scanner below. The
  primitives `Advance`, `Match`, `Peek`, `PeekNext`, `IsAtEnd`, `AddToken` and
  `AddTokenWithLiteral` carry contracts of their own about the cursor and the
  token buffer.
- **`ScanSpec`** (`scan_spec.dfy`) is the reference scanner as pure functions.
  `Step` is one lexeme step: the new cursor, the new line, the token emitted if
  any, and the error raised if any. `Run` is the `ScanTokens` loop over `Step`.
  `ScanProperties` (`scan_properties.dfy`) proves what the scanner promises about
  these functions. `CharClass` (`char_class.dfy`) holds the character
  predicates. `Tokens` (`tokens.dfy`) holds the token and error records.

Modelling choices:

- **Bytes.** Each character of a Dafny `string` stands for one byte of the Go
  string. The model takes Go's `string(t.source[i])` as the one-element
  sequence `[source[i]]`. That is exact for bytes below 0x80. For a byte from
  0x80 up, Go's conversion yields the two-byte UTF-8 encoding of U+0080..U+00FF
  instead. Neither form equals any `switch` case, character-class member or
  `match` argument in `lexer.go`, so the scanner treats both the same. At the
  start of a lexeme such a byte raises "Unexpected character.". Inside a
  string or a comment it is passed over like any other byte, because those
  loops compare the current byte only with `"\n"`, `"*"` and `"`.
- **`peek` and `peekNext`.** Past the end they return the two-byte string
  backslash-zero, as in Go. The character classes compare one-byte strings with
  Go's byte-wise string order, written out as `CharClass.LessEq`. So the proof
  that the sentinel belongs to no class is about the code as written.
- **Outside the file.** Two things come from outside `lexer.go`: the keyword
  table `KeyWords` and `strconv.ParseFloat`. The constructor takes them as
  parameters:
  - `keyWords` is a map from text to token kind.
  - `parseFloatFails` says whether the parser rejects a lexeme.
- **Number literals.** A NUMBER token's literal is kept as its digits
  (`Float(lexeme)`). The model does not compute the float value.
- **Block comments.** The inline comments at `lexer.go:124` and `:128`
  mention nested comments, but the loop keeps no depth counter, so a block
  comment ends at the first `*/`. `ScanProperties.BlockCommentsDoNotNest`
  shows this on a concrete source.
- **Unterminated block comments.** A block comment left open at the end of the
  source raises no error, as in the code.

## Model

| member | source | states |
|---|---|---|
| CharClass.IsDigit | lox/lexer/lexer.go:270-272 | On a one-byte string, Go's `c >= "0" && c <= "9"` holds exactly for the decimal digits. The end-of-input sentinel is not a digit. |
| CharClass.IsAlpha | lox/lexer/lexer.go:274-278 | On a one-byte string it holds exactly for `a`-`z`, `A`-`Z` and `_`. The sentinel is not alphabetic. |
| CharClass.IsAlphaNumeric | lox/lexer/lexer.go:280-282 | On a one-byte string it holds exactly for letters, `_` and digits. The sentinel is in neither class. |
| CharClass.OneByteOrder | lox/lexer/lexer.go:270-278 | Go's string comparison of one-byte strings is the order of the bytes. |
| ScanSpec.IndexOf | lox/lexer/lexer.go:113-115 | The scan for a byte stops at its first occurrence at or after `i`, or at the end. No earlier position holds it. |
| ScanSpec.DigitRunEnd | lox/lexer/lexer.go:225-227 | The longest run of digits from `i`: every byte in it is a digit and the byte after it is not. |
| ScanSpec.AlphaNumericRunEnd | lox/lexer/lexer.go:259-261 | The longest run of letters, digits and `_` from `i`, and the byte after it is none of them. |
| ScanSpec.BlockCommentEnd | lox/lexer/lexer.go:116-132 | Where the block-comment loop stops lies within the source, at or after `i`. Which position that is, is stated by `BlockCommentClosesAtFirstTerminator`. |
| ScanSpec.NumberEnd | lox/lexer/lexer.go:224-234 | The end of a number lies within the source, and the byte after it is never a digit. Its full shape is stated by `NumberEndShape`. |
| ScanSpec.BlockCommentClosesAtFirstTerminator | lox/lexer/lexer.go:116-132 | A block comment ends just after the first `*/` at or after `i`, with no `*/` before it. With no `*/` at all it ends at the end of the source. |
| ScanSpec.OneOrTwo | lox/lexer/lexer.go:56-104 | A one- or two-character operator consumes one or two bytes and leaves the line counter unchanged. |
| ScanSpec.SlashStep | lox/lexer/lexer.go:110-136 | After `/`, the step consumes at least one byte and stays in the source. The line counter moves by exactly the line breaks it consumed. |
| ScanSpec.StringStep | lox/lexer/lexer.go:203-222 | A string step consumes at least one byte. The line counter moves by exactly the line breaks inside the string. |
| ScanSpec.WordStep | lox/lexer/lexer.go:153-162 | A number, identifier or unexpected-character step consumes at least one byte and leaves the line counter unchanged. |
| ScanSpec.TextStep | lox/lexer/lexer.go:110-163 | Comments, layout, strings and the default case consume at least one byte. The line moves by the line breaks consumed. |
| ScanSpec.Step | lox/lexer/lexer.go:35-165 | Every step makes progress (`start < next <= |s|`). The line counter moves by exactly the line breaks in the consumed text. |
| ScanSpec.Run | lox/lexer/lexer.go:22-33 | The loop only appends to the tokens and spans. It stops at a point `end` between its start and the end of the source. A run that ends without error has reached the end of the source and appended at least one token; `RunEndsWithEof` states that the last one is EOF. |
| ScanSpec.Scan | lox/lexer/lexer.go:18-33 | A fresh lexer's scan stops within the source. Unless it fails, it reaches the end of the source and returns at least one token. |
| Lex.Lexer.NewLexer | lox/lexer/lexer.go:18-20 | A new lexer starts at offset 0, line 1, with no tokens and no error, and satisfies the class invariant. |
| Lex.Lexer.ScanTokens | lox/lexer/lexer.go:22-33 | The returned tokens and error are those of `Run` from the current state. These are also the fields left behind. The cursor is left where `Run` stops, and the invariant `line == 1 + line breaks before current` is kept. |
| Lex.Lexer.ScanToken | lox/lexer/lexer.go:35-165 | One call performs exactly the step `Step` describes: cursor, line, at most one appended token, and the error set or kept. |
| Lex.Lexer.ScanText | lox/lexer/lexer.go:110-163 | The cases after the operators (comments, layout, strings, default) perform `TextStep`. |
| Lex.Lexer.ScanOperator | lox/lexer/lexer.go:56-104 | A two-form operator performs `OneOrTwo`: the two-character kind when `match` succeeds, the one-character kind otherwise. |
| Lex.Lexer.ScanSlash | lox/lexer/lexer.go:110-136 | The `/` case performs `SlashStep`: a line comment, a block comment or SLASH. |
| Lex.Lexer.ScanWord | lox/lexer/lexer.go:153-162 | The default case performs `WordStep`: a number, an identifier, or the unexpected-character error. |
| Lex.Lexer.Advance | lox/lexer/lexer.go:167-170 | Advances the cursor by one and returns the byte passed over as a one-byte string. |
| Lex.Lexer.AddTokenWithLiteral | lox/lexer/lexer.go:176-179 | Appends one token whose lexeme is `source[start..current]` at the current line. Earlier tokens are unchanged. |
| Lex.Lexer.AddToken | lox/lexer/lexer.go:172-174 | The same as `AddTokenWithLiteral`, with the empty literal. |
| Lex.Lexer.IsAtEnd | lox/lexer/lexer.go:181-183 | Within bounds, true exactly when the cursor is at the end of the source. |
| Lex.Lexer.Match | lox/lexer/lexer.go:185-194 | Returns true exactly when a next byte exists and equals `expected`, and consumes it only then. |
| Lex.Lexer.Peek | lox/lexer/lexer.go:196-201 | Returns the byte under the cursor as a one-byte string, or the sentinel exactly when at the end. |
| Lex.Lexer.PeekNext | lox/lexer/lexer.go:250-256 | Returns the byte after the cursor, or the sentinel exactly when there is none. |
| Lex.Lexer.SkipLineComment | lox/lexer/lexer.go:111-115 | The loop stops at the next line break, without consuming it, or at the end of the source. |
| Lex.Lexer.SkipBlockComment | lox/lexer/lexer.go:116-132 | The loop stops at `BlockCommentEnd`. `line` grows by exactly the line breaks consumed, including one directly after a `*`. |
| Lex.Lexer.ScanString | lox/lexer/lexer.go:203-222 | Closed string: the cursor ends past the closing quote, one STRING token is appended with the inner text as its literal, and the line grows by the line breaks inside. Unclosed string: the cursor ends at the end of the source, nothing is appended, and "Unterminated string" is set at the final line. |
| Lex.Lexer.ScanNumber | lox/lexer/lexer.go:224-248 | The cursor ends at `NumberEnd` and one NUMBER token is appended. The float-parse error is set exactly when the parser rejects the lexeme, and the token is appended either way. |
| Lex.Lexer.ScanIdentifier | lox/lexer/lexer.go:258-268 | The cursor ends after the longest alphanumeric run. The appended token's kind is the keyword table's entry for its text, or IDENTIFIER. |
| ScanProperties.MaximalMunch | lox/lexer/lexer.go:56-104 | For `--`, `++`, `!=`, `==`, `<=` and `>=`: the two-character kind over two bytes exactly when the second character follows, otherwise the one-character kind over one byte. |
| ScanProperties.WhitespaceEmitsNothing | lox/lexer/lexer.go:138-147 | Space, `\r`, `\t` and `\n` emit nothing and raise nothing. Only `\n` moves the line. |
| ScanProperties.LineCommentEmitsNothing | lox/lexer/lexer.go:111-115 | `//` emits nothing and consumes up to, but not including, the next line break. |
| ScanProperties.BlockCommentEmitsNothing | lox/lexer/lexer.go:116-132 | A block comment emits nothing and raises nothing, even when unterminated. It ends after the first following `*/` or at the end of the source, and the line moves by the line breaks inside. |
| ScanProperties.LoneSlash | lox/lexer/lexer.go:133-135 | A `/` followed by neither `/` nor `*` is one SLASH token. |
| ScanProperties.StringLiteral | lox/lexer/lexer.go:203-222 | The step raises "Unterminated string" exactly when no quote follows. Otherwise the STRING lexeme is quoted and its literal is the lexeme without the two quotes, with no quote inside. |
| ScanProperties.NumberEndShape | lox/lexer/lexer.go:224-234 | A number lexeme is digits, optionally `.` and digits, and cannot be extended. A `.` not followed by a digit is left unconsumed. |
| ScanProperties.NumberLexeme | lox/lexer/lexer.go:224-248 | A digit starts a NUMBER of that shape whose literal is its lexeme. The float-parse error is raised exactly when the parser rejects the lexeme. |
| ScanProperties.IdentifierLexeme | lox/lexer/lexer.go:258-268 | A letter or `_` starts the longest alphanumeric run. Its kind is `KeyWords[text]` when the text is a key, and IDENTIFIER otherwise. |
| ScanProperties.UnexpectedCharacterIsFatal | lox/lexer/lexer.go:153-161 | "Unexpected character." is raised exactly for a byte that starts no lexeme. It is raised at the current line and emits nothing. |
| ScanProperties.StepFaithful | lox/lexer/lexer.go:172-179 | Every emitted token's lexeme is the text consumed by its step, at the line reached. Every error is one of the three scanner errors. |
| ScanProperties.RunTraced | lox/lexer/lexer.go:22-33 | From a step boundary, each added token is the text of its span, and every span ends by the stop point `end`. Spans are in order without overlap. Without error the scan appends one EOF at the line reached at the end of the source. Otherwise it appends no EOF, and the error is one of the three, carrying the line reached at `end`. |
| ScanProperties.RunEndsWithEof | lox/lexer/lexer.go:22-32 | A run that ends without error has EOF as its last token, for any keyword table. |
| ScanProperties.FirstFailure | lox/lexer/lexer.go:22-32 | Returns the step where a failing run stopped: it lies between the start and the stop point, every step before it raised no error, and its own step raised exactly the reported error and ended at the stop point. |
| ScanProperties.RunStopsAtFirstError | lox/lexer/lexer.go:22-32 | The first error wins: a run that fails stops right after the first step that raised an error, and reports that step's error. |
| ScanProperties.ScanStopsAtFirstError | lox/lexer/lexer.go:18-33 | The same for a whole scan from offset 0 and line 1. The failing step starts at line 1 + the line breaks before it. |
| ScanProperties.ScanEndsWithEof | lox/lexer/lexer.go:22-32 | On success the scan reads the whole source, and the only EOF token is the last one, at line 1 + the number of `\n` in the source. On failure there is no EOF, and the error is one of the three, at line 1 + the line breaks before the point where the scan stopped. |
| ScanProperties.ScanTokensMatchSource | lox/lexer/lexer.go:172-179 | Every non-EOF token is the text of its own span, which ends by the point where the scan stopped. Spans are in increasing, non-overlapping order, and each token's line is 1 + the line breaks before its end. |
| ScanProperties.LayoutStep | lox/lexer/lexer.go:110-147 | A step at a position followed only by whitespace and comments emits nothing, raises nothing, and lands on such a position again. |
| ScanProperties.LayoutRun | lox/lexer/lexer.go:22-32 | From such a position the scan appends nothing but EOF, raises nothing, adds no span and stops at the end of the source. The EOF line is 1 + the line breaks in the whole source. |
| ScanProperties.LayoutOnlyScan | lox/lexer/lexer.go:18-33 | A source holding only whitespace, line comments and block comments (closed or not) scans without error to exactly one token, EOF, at line 1 + the number of `\n`. |
| ScanProperties.BlockCommentsDoNotNest | lox/lexer/lexer.go:116-132 | In a block comment holding an inner opener, the first `*/` closes the comment, and the second `*/` is scanned as STAR and SLASH. |

## Left out

- `VM/run.go` is not part of this model. It reads files and standard input, prints, exits the process, and calls the parser and interpreter.
- `tests/astPrinter_test.go` is not part of this model. It is a build-ignored test for printers whose source is not shown.
- The numeric value from `strconv.ParseFloat` is not computed. The token keeps its digit lexeme, and whether the parse fails is the parameter `parseFloatFails`.
- The message that `utils.RaiseError` prints on a float-parse failure is not modelled. It is an output side effect; the error record it comes with is modelled.
- The contents of the `KeyWords` table and the numeric values of the token-kind constants are defined outside `lexer.go`. The table is a parameter, and reserved-word kinds appear as `Keyword(word)`.
- `RunTraced`, `ScanEndsWithEof` and `ScanTokensMatchSource` assume that no keyword maps to EOF (`NoEofKeyword`), because the table is not part of this model. The other whole-scan lemmas hold for any table.
- The `Token` and `LexerError` records, and `NewToken`, are defined outside `lexer.go`. Only their fields are modelled.
- A token's literal is Go's `interface{}`. It is modelled as a datatype with two cases: the text of a string (or "" for tokens added without a literal), or the digits of a number.
- Go's `int` is 64 bits wide. `current` and `line` are unbounded here, since they cannot reach 2^63 for a source that fits in memory.
- Lex.Lexer.Match: takes the expected byte as a `char`, not a one-byte string. Every call site in `lexer.go` passes a one-byte string, and the comparison is still made on one-byte strings.
- Lex.Lexer.ScanToken: the Go `switch` in `scanToken` is one function. Here it is split over `ScanToken`, `ScanText`, `ScanOperator`, `ScanSlash` and `ScanWord`. The two comment loops are the methods `SkipLineComment` and `SkipBlockComment`. The cases, their order and their effects are those of the Go code.
- Character classes are byte classes. A byte of a multi-byte UTF-8 character starts no lexeme, so it raises "Unexpected character." when it begins a lexeme. Inside a string or a comment it is passed over, as in the code.
- Lex.Lexer.ScanTokens: does not state the final value of `start`. It is the start of the last lexeme scanned, or unchanged when no lexeme was scanned. Nothing reads it after the scan, because `VM/run.go` builds a fresh lexer for every source.

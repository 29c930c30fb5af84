/** The scanner of lox/lexer/lexer.go: a cursor over the source that appends
    tokens to a buffer, one lexeme per step, and stops at the first error.

    Each character of `source` stands for one byte of the Go string. The
    package-level keyword table and the float parser's failure are given to
    the constructor: `keyWords` is the table, and `parseFloatFails` says of a
    number lexeme whether `strconv.ParseFloat` rejects it. */
module Lex {
  import opened Tokens
  import opened CharClass
  import opened ScanSpec

  class Lexer {
    const source: string
    const keyWords: map<string, TokenType>
    const parseFloatFails: string -> bool

    var tokens: seq<Token>
    var start: nat
    var current: nat
    var line: int
    var error: LexerError

    /** The cursor stays inside the source, behind the start of the lexeme. */
    ghost predicate InBounds()
      reads this
    {
      start <= current <= |source|
    }

    /** Between lexemes, `line` is one more than the line breaks consumed. */
    ghost predicate Valid()
      reads this
    {
      InBounds() && line == 1 + Newlines(source, 0, current)
    }

    constructor NewLexer(source: string, keyWords: map<string, TokenType>, parseFloatFails: string -> bool)
      ensures Valid()
      ensures this.source == source && this.keyWords == keyWords && this.parseFloatFails == parseFloatFails
      ensures tokens == [] && start == 0 && current == 0 && line == 1 && error == NoError
    {
      this.source := source;
      this.keyWords := keyWords;
      this.parseFloatFails := parseFloatFails;
      tokens := [];
      start := 0;
      current := 0;
      line := 1;
      error := NoError;
    }

    /** Scans the rest of the source: the tokens and error record are those
        of the reference scanner `Run` from the current state, and the cursor
        is left where `Run` stops, with the line counter matching it. */
    method ScanTokens() returns (toks: seq<Token>, err: LexerError)
      requires Valid()
      modifies this
      ensures Valid()
      ensures var r := Run(source, keyWords, parseFloatFails, old(current), old(line), old(tokens), [], old(error));
              toks == r.tokens && err == r.error && current == r.end
      ensures tokens == toks && error == err
    {
      ghost var spans: seq<Span> := [];
      while !IsAtEnd()
        invariant Valid()
        invariant Run(source, keyWords, parseFloatFails, current, line, tokens, spans, error)
               == Run(source, keyWords, parseFloatFails, old(current), old(line), old(tokens), [], old(error))
        decreases |source| - current
      {
        start := current;
        ghost var o := Step(source, keyWords, parseFloatFails, current, line);
        ghost var s0 := current;
        ScanToken();
        NewlinesSplit(source, 0, s0, current);
        spans := spans + (if o.token.Some? then [Span(s0, o.next)] else []);
        if error.hasError {
          return tokens, error;
        }
      }
      tokens := tokens + [EofToken(line)];
      return tokens, error;
    }

    /** The state has moved on from the `old` state as the step outcome `o`
        says: cursor, line, one token appended or none, error set or kept. */
    twostate predicate Performed(o: Lexed)
      reads this
    {
      current == o.next && line == o.line && tokens == old(tokens) + Emitted(o)
      && error == (if o.error.hasError then o.error else old(error))
    }

    /** One lexeme step: exactly what `Step` says. */
    method ScanToken()
      requires InBounds() && start == current < |source|
      modifies this`current, this`line, this`tokens, this`error
      ensures InBounds() && start == old(start)
      ensures Performed(Step(source, keyWords, parseFloatFails, old(current), old(line)))
    {
      var c := Advance();
      assert c[0] == source[start];
      match c[0] {
      case '(' => AddToken(LeftParen);
      case ')' => AddToken(RightParen);
      case '{' => AddToken(LeftBrace);
      case '}' => AddToken(RightBrace);
      case ',' => AddToken(Comma);
      case '.' => AddToken(Dot);
      case '-' => ScanOperator('-', Minus, Decrement);
      case '+' => ScanOperator('+', Plus, Increment);
      case ';' => AddToken(Semicolon);
      case '*' => AddToken(Star);
      case '!' => ScanOperator('=', Bang, BangEqual);
      case '=' => ScanOperator('=', Equal, EqualEqual);
      case '<' => ScanOperator('=', Less, LessEqual);
      case '>' => ScanOperator('=', Greater, GreaterEqual);
      case '?' => AddToken(Question);
      case ':' => AddToken(Colon);
      case _ => ScanText(c);
      }
    }

    /** The rest of the dispatch on the consumed character `c`: comments,
        layout, strings, and the default case. */
    method ScanText(c: string)
      requires InBounds() && current == start + 1 && c == [source[start]]
      modifies this`current, this`line, this`tokens, this`error
      ensures InBounds() && start == old(start)
      ensures Performed(TextStep(source, keyWords, parseFloatFails, start, old(line)))
    {
      match c[0] {
      case '/' => ScanSlash();
      case ' ' =>
      case '\r' =>
      case '\t' =>
      case '\n' =>
        line := line + 1;
      case '"' => ScanString();
      case _ => ScanWord(c);
      }
    }

    /** A one- or two-character operator whose first character was just
        consumed: `two` when `second` follows, `one` otherwise. */
    method ScanOperator(second: char, one: TokenType, two: TokenType)
      requires InBounds() && current == start + 1 && source[start] != '\n' && second != '\n'
      modifies this`current, this`tokens
      ensures InBounds() && start == old(start)
      ensures Performed(OneOrTwo(source, start, second, one, two, old(line)))
    {
      var matched := Match(second);
      if matched {
        AddToken(two);
      } else {
        AddToken(one);
      }
    }

    /** After a `/`: a line comment, a block comment, or the `/` operator. */
    method ScanSlash()
      requires InBounds() && current == start + 1 && source[start] == '/'
      modifies this`current, this`line, this`tokens
      ensures InBounds() && start == old(start)
      ensures Performed(SlashStep(source, start, old(line)))
    {
      var lineComment := Match('/');
      if lineComment {
        SkipLineComment();
      } else {
        var blockComment := Match('*');
        if blockComment {
          SkipBlockComment();
        } else {
          AddToken(Slash);
        }
      }
    }

    /** The default case of the dispatch on the consumed character `c`: a
        number, an identifier or keyword, or an unexpected character. */
    method ScanWord(c: string)
      requires InBounds() && current == start + 1 && source[start] != '\n' && c == [source[start]]
      modifies this`current, this`tokens, this`error
      ensures InBounds() && start == old(start)
      ensures Performed(WordStep(source, keyWords, parseFloatFails, start, old(line)))
    {
      if IsDigit(c) {
        ScanNumber();
      } else if IsAlpha(c) {
        ScanIdentifier();
      } else {
        error := LexerError(true, line, UnexpectedCharacter);
      }
    }

    /** Consumes one byte and returns it as a one-element string. For a byte
        below 0x80 this is exactly Go's `string(byte)`. For a byte from 0x80
        up, Go's conversion gives the two-byte UTF-8 encoding of that code
        point instead; neither string equals any case label, class member or
        `match` argument of the scanner, so both behave alike. */
    method Advance() returns (c: string)
      requires InBounds() && current < |source|
      modifies this`current
      ensures InBounds() && current == old(current) + 1
      ensures c == [source[old(current)]]
    {
      current := current + 1;
      c := [source[current - 1]];
    }

    /** Appends a token whose lexeme is the current span `[start, current)`. */
    method AddTokenWithLiteral(kind: TokenType, literal: Literal)
      requires InBounds()
      modifies this`tokens
      ensures tokens == old(tokens) + [Token(kind, source[start..current], literal, line)]
    {
      var text := source[start..current];
      tokens := tokens + [Token(kind, text, literal, line)];
    }

    method AddToken(kind: TokenType)
      requires InBounds()
      modifies this`tokens
      ensures tokens == old(tokens) + [Token(kind, source[start..current], Text(""), line)]
    {
      AddTokenWithLiteral(kind, Text(""));
    }

    /** `current` has reached the end of the source. */
    function IsAtEnd(): (b: bool)
      reads this
      ensures InBounds() ==> (b <==> current == |source|)
    {
      current >= |source|
    }

    /** Consumes the next byte exactly when it is `expected`. */
    method Match(expected: char) returns (matched: bool)
      requires InBounds()
      modifies this`current
      ensures InBounds()
      ensures matched <==> old(current) < |source| && source[old(current)] == expected
      ensures current == if matched then old(current) + 1 else old(current)
    {
      if IsAtEnd() {
        return false;
      }
      if [source[current]] != [expected] {
        return false;
      }
      current := current + 1;
      return true;
    }

    /** The byte under the cursor, or the sentinel past the end. */
    function Peek(): (p: string)
      reads this
      ensures |p| == 1 <==> current < |source|
      ensures current < |source| ==> p[0] == source[current]
      ensures current >= |source| ==> p == Sentinel
    {
      if IsAtEnd() then Sentinel else [source[current]]
    }

    /** The byte after the one under the cursor, or the sentinel. */
    function PeekNext(): (p: string)
      reads this
      ensures |p| == 1 <==> current + 1 < |source|
      ensures current + 1 < |source| ==> p[0] == source[current + 1]
      ensures current + 1 >= |source| ==> p == Sentinel
    {
      if current + 1 >= |source| then Sentinel else [source[current + 1]]
    }

    /** A `//` comment: runs up to, not including, the next line break. */
    method SkipLineComment()
      requires InBounds()
      modifies this`current
      ensures InBounds()
      ensures current == IndexOf(source, old(current), '\n')
    {
      ghost var from := current;
      while Peek() != "\n" && !IsAtEnd()
        invariant InBounds() && from <= current
        invariant IndexOf(source, current, '\n') == IndexOf(source, from, '\n')
        decreases |source| - current
      {
        var _ := Advance();
      }
    }

    /** A block comment: runs through the first following terminator, or to
        the end of the source; every line break inside is counted. */
    method SkipBlockComment()
      requires InBounds()
      modifies this`current, this`line
      ensures InBounds()
      ensures current == BlockCommentEnd(source, old(current))
      ensures line == old(line) + Newlines(source, old(current), current)
    {
      ghost var from, line0 := current, line;
      while !IsAtEnd()
        invariant InBounds() && from <= current
        invariant BlockCommentEnd(source, current) == BlockCommentEnd(source, from)
        invariant line == line0 + Newlines(source, from, current)
        decreases |source| - current
      {
        ghost var here := current;
        if Peek() == "*" {
          var _ := Advance();
          var closed := Match('/');
          if closed {
            return;
          }
          BlockCommentEndSkip(source, here);
          var newline := Match('\n');
          if newline {
            line := line + 1;
            BlockCommentEndSkip(source, here + 1);
          }
        } else {
          if Peek() == "\n" {
            line := line + 1;
          }
          var _ := Advance();
          BlockCommentEndSkip(source, here);
        }
      }
    }

    /** A string literal whose opening quote was just consumed. */
    method ScanString()
      requires InBounds() && current == start + 1 && source[start] == '"'
      modifies this`current, this`line, this`tokens, this`error
      ensures InBounds() && start == old(start)
      ensures var e := IndexOf(source, old(current), '"');
              line == old(line) + Newlines(source, old(current), e)
              && (if e == |source| then current == e && tokens == old(tokens) && error == LexerError(true, line, UnterminatedString)
                  else current == e + 1 && error == old(error)
                       && tokens == old(tokens) + [Token(String, source[start..current], Text(source[start + 1..e]), line)])
    {
      ghost var from, line0, tokens0, error0 := current, line, tokens, error;
      while Peek() != "\"" && !IsAtEnd()
        invariant InBounds() && from <= current
        invariant IndexOf(source, current, '"') == IndexOf(source, from, '"')
        invariant line == line0 + Newlines(source, from, current)
        invariant tokens == tokens0 && error == error0
        decreases |source| - current
      {
        if Peek() == "\n" {
          line := line + 1;
        }
        var _ := Advance();
      }
      if IsAtEnd() {
        error := LexerError(true, line, UnterminatedString);
        return;
      }
      var _ := Advance();
      var value := source[start + 1..current - 1];
      AddTokenWithLiteral(String, Text(value));
    }

    /** A number whose first digit was just consumed. */
    method ScanNumber()
      requires InBounds() && current == start + 1 && DigitChar(source[start])
      modifies this`current, this`tokens, this`error
      ensures InBounds() && start == old(start)
      ensures current == NumberEnd(source, old(current))
      ensures tokens == old(tokens) + [Token(Number, source[start..current], Float(source[start..current]), line)]
      ensures error == if parseFloatFails(source[start..current]) then LexerError(true, line, FloatParseFailure) else old(error)
    {
      ghost var from, tokens0, error0 := current, tokens, error;
      while IsDigit(Peek())
        invariant InBounds() && from <= current
        invariant DigitRunEnd(source, current) == DigitRunEnd(source, from)
        invariant tokens == tokens0 && error == error0
        decreases |source| - current
      {
        var _ := Advance();
      }
      if Peek() == "." && IsDigit(PeekNext()) {
        var _ := Advance();
        ghost var fraction := current;
        while IsDigit(Peek())
          invariant InBounds() && fraction <= current
          invariant DigitRunEnd(source, current) == DigitRunEnd(source, fraction)
          invariant tokens == tokens0 && error == error0
          decreases |source| - current
        {
          var _ := Advance();
        }
      }
      if parseFloatFails(source[start..current]) {
        error := LexerError(true, line, FloatParseFailure);
      }
      AddTokenWithLiteral(Number, Float(source[start..current]));
    }

    /** An identifier or keyword whose first letter was just consumed. */
    method ScanIdentifier()
      requires InBounds() && current == start + 1
      modifies this`current, this`tokens
      ensures InBounds() && start == old(start)
      ensures current == AlphaNumericRunEnd(source, old(current))
      ensures var text := source[start..current];
              tokens == old(tokens) + [Token(if text in keyWords then keyWords[text] else Identifier, text, Text(""), line)]
    {
      ghost var from, tokens0 := current, tokens;
      while IsAlphaNumeric(Peek())
        invariant InBounds() && from <= current
        invariant AlphaNumericRunEnd(source, current) == AlphaNumericRunEnd(source, from)
        invariant tokens == tokens0
        decreases |source| - current
      {
        var _ := Advance();
      }
      var text := source[start..current];
      var kind := if text in keyWords then keyWords[text] else Identifier;
      AddToken(kind);
    }
  }
}

/** Properties of the reference scanner: what one step consumes, emits and
    raises, and what a whole scan returns. */
module ScanProperties {
  import opened Tokens
  import opened CharClass
  import opened ScanSpec

  // ---------------------------------------------------------------------
  // One step
  // ---------------------------------------------------------------------

  /** The six operators that have a two-character form: first character,
      the character that extends it, and the kinds of the two forms. */
  predicate OperatorPair(c: char, second: char, one: TokenType, two: TokenType) {
    || (c == '-' && second == '-' && one == Minus && two == Decrement)
    || (c == '+' && second == '+' && one == Plus && two == Increment)
    || (c == '!' && second == '=' && one == Bang && two == BangEqual)
    || (c == '=' && second == '=' && one == Equal && two == EqualEqual)
    || (c == '<' && second == '=' && one == Less && two == LessEqual)
    || (c == '>' && second == '=' && one == Greater && two == GreaterEqual)
  }

  /** The characters `Step` dispatches on itself; every other character is
      handed to `TextStep`. */
  predicate OperatorChar(c: char) {
    c in {'(', ')', '{', '}', ',', '.', '-', '+', ';', '*', '!', '=', '<', '>', '?', ':'}
  }

  lemma StepOnText(s: string, keyWords: map<string, TokenType>, parseFloatFails: string -> bool,
                   start: nat, line: int)
    requires start < |s| && !OperatorChar(s[start])
    ensures Step(s, keyWords, parseFloatFails, start, line)
            == TextStep(s, keyWords, parseFloatFails, start, line)
  {
  }

  lemma TextStepOnWord(s: string, keyWords: map<string, TokenType>, parseFloatFails: string -> bool,
                       start: nat, line: int)
    requires start < |s| && s[start] !in {'/', ' ', '\r', '\t', '\n', '"'}
    ensures TextStep(s, keyWords, parseFloatFails, start, line)
            == WordStep(s, keyWords, parseFloatFails, start, line)
  {
  }

  /** Maximal munch: the two-character kind exactly when the second
      character immediately follows, consuming two bytes; otherwise the
      one-character kind, consuming one. */
  lemma MaximalMunch(s: string, keyWords: map<string, TokenType>, parseFloatFails: string -> bool,
                     start: nat, line: int, second: char, one: TokenType, two: TokenType)
    requires start < |s| && OperatorPair(s[start], second, one, two)
    ensures var o := Step(s, keyWords, parseFloatFails, start, line);
            o.error == NoError && o.line == line
            && if start + 1 < |s| && s[start + 1] == second
               then o.next == start + 2 && o.token == Some(Token(two, [s[start], second], Text(""), line))
               else o.next == start + 1 && o.token == Some(Token(one, [s[start]], Text(""), line))
  {
    if start + 1 < |s| && s[start + 1] == second {
      assert s[start..start + 2] == [s[start], second];
    } else {
      assert s[start..start + 1] == [s[start]];
    }
  }

  /** Layout: space, carriage return, tab and line break. */
  predicate Blank(c: char) {
    c == ' ' || c == '\r' || c == '\t' || c == '\n'
  }

  /** Whitespace emits nothing and consumes one byte; only a line break
      moves the line counter. */
  lemma WhitespaceEmitsNothing(s: string, keyWords: map<string, TokenType>, parseFloatFails: string -> bool,
                               start: nat, line: int)
    requires start < |s| && Blank(s[start])
    ensures Step(s, keyWords, parseFloatFails, start, line)
            == Lexed(start + 1, if s[start] == '\n' then line + 1 else line, None, NoError)
  {
  }

  /** A `//` comment emits nothing and consumes up to, not including, the
      next line break (or to the end of the source). */
  lemma LineCommentEmitsNothing(s: string, keyWords: map<string, TokenType>, parseFloatFails: string -> bool,
                                start: nat, line: int)
    requires start + 1 < |s| && s[start] == '/' && s[start + 1] == '/'
    ensures var o := Step(s, keyWords, parseFloatFails, start, line);
            o.token == None && o.error == NoError && o.line == line
            && start + 2 <= o.next <= |s|
            && (forall k | start + 2 <= k < o.next :: s[k] != '\n')
            && (o.next < |s| ==> s[o.next] == '\n')
  {
  }

  /** A block comment emits nothing and raises nothing; it ends just after
      the first terminator following its opening, with no nesting, or at the
      end of the source; the line counter moves by the line breaks inside. */
  lemma BlockCommentEmitsNothing(s: string, keyWords: map<string, TokenType>, parseFloatFails: string -> bool,
                                 start: nat, line: int)
    requires start + 1 < |s| && s[start] == '/' && s[start + 1] == '*'
    ensures var o := Step(s, keyWords, parseFloatFails, start, line);
            o.token == None && o.error == NoError
            && o.line == line + Newlines(s, start, o.next)
            && (forall k | start + 2 <= k < o.next - 2 :: !CloseAt(s, k))
            && ((start + 4 <= o.next && CloseAt(s, o.next - 2))
                || (o.next == |s| && forall k | start + 2 <= k :: !CloseAt(s, k)))
  {
    BlockCommentClosesAtFirstTerminator(s, start + 2);
  }

  /** A `/` followed by neither `/` nor `*` is the division operator. */
  lemma LoneSlash(s: string, keyWords: map<string, TokenType>, parseFloatFails: string -> bool,
                  start: nat, line: int)
    requires start < |s| && s[start] == '/'
    requires start + 1 == |s| || (s[start + 1] != '/' && s[start + 1] != '*')
    ensures Step(s, keyWords, parseFloatFails, start, line)
            == Lexed(start + 1, line, Some(Token(Slash, "/", Text(""), line)), NoError)
  {
    assert s[start..start + 1] == "/";
  }

  /** A string runs to the next `"`: its lexeme is quoted, its literal is the
      lexeme without the two quotes and holds no quote, and it carries the
      line reached at its end. Without a closing quote the step raises
      "Unterminated string" at the line reached at the end of the source,
      emits nothing and stops at the end. */
  lemma StringLiteral(s: string, keyWords: map<string, TokenType>, parseFloatFails: string -> bool,
                      start: nat, line: int)
    requires start < |s| && s[start] == '"'
    ensures var o := Step(s, keyWords, parseFloatFails, start, line);
            o.line == line + Newlines(s, start, o.next)
            && (o.error.hasError <==> forall k | start < k < |s| :: s[k] != '"')
            && (o.error.hasError ==>
                  o.token == None && o.next == |s| && o.error == LexerError(true, o.line, UnterminatedString))
            && (!o.error.hasError ==>
                  o.token.Some? && o.error == NoError
                  && var t := o.token.value;
                     t.kind == String && t.line == o.line && t.lexeme == s[start..o.next]
                     && |t.lexeme| >= 2 && t.lexeme[0] == '"' && t.lexeme[|t.lexeme| - 1] == '"'
                     && t.literal == Text(t.lexeme[1..|t.lexeme| - 1])
                     && '"' !in t.literal.text)
  {
    StepOnText(s, keyWords, parseFloatFails, start, line);
    var e := IndexOf(s, start + 1, '"');
    if e < |s| {
      var lexeme := s[start..e + 1];
      assert lexeme[1..|lexeme| - 1] == s[start + 1..e];
    }
  }

  /** A non-empty run of digits. */
  predicate Digits(t: string) {
    |t| > 0 && forall k | 0 <= k < |t| :: DigitChar(t[k])
  }

  /** The shape of a number lexeme: digits, optionally `.` and digits. */
  predicate NumberShape(t: string) {
    Digits(t) || exists k | 0 < k < |t| :: t[k] == '.' && Digits(t[..k]) && Digits(t[k + 1..])
  }

  /** `NumberEnd` takes the longest prefix of the number shape: after the
      first digit at `start`, the lexeme it delimits is digits, optionally
      `.` and digits; no digit follows it, and a `.` follows an integer part
      only when no digit follows the `.`. */
  lemma NumberEndShape(s: string, start: nat)
    requires start < |s| && DigitChar(s[start])
    ensures var e := NumberEnd(s, start + 1);
            var t := s[start..e];
            start < e <= |s| && NumberShape(t)
            && (e < |s| ==> !DigitChar(s[e]))
            && ('.' !in t && e + 1 < |s| && s[e] == '.' ==> !DigitChar(s[e + 1]))
  {
    var e := NumberEnd(s, start + 1);
    var t := s[start..e];
    var j := DigitRunEnd(s, start + 1);
    if j + 1 < |s| && s[j] == '.' && DigitChar(s[j + 1]) {
      var k := j - start;
      assert t[k] == '.' && t[..k] == s[start..j] && t[k + 1..] == s[j + 1..e];
      assert Digits(t[..k]) && Digits(t[k + 1..]);
    } else {
      assert Digits(t);
      assert '.' !in t;
    }
  }

  /** A digit starts a NUMBER whose lexeme has the number shape and cannot
      be extended (a trailing `.` is left for DOT); its literal is the value
      of that lexeme. The step raises the float-parse error exactly when the
      parser rejects the lexeme, and emits the token either way. */
  lemma NumberLexeme(s: string, keyWords: map<string, TokenType>, parseFloatFails: string -> bool,
                     start: nat, line: int)
    requires start < |s| && DigitChar(s[start])
    ensures var o := Step(s, keyWords, parseFloatFails, start, line);
            var t := s[start..o.next];
            o.token == Some(Token(Number, t, Float(t), line)) && o.line == line
            && NumberShape(t)
            && (o.next < |s| ==> !DigitChar(s[o.next]))
            && ('.' !in t && o.next + 1 < |s| && s[o.next] == '.' ==> !DigitChar(s[o.next + 1]))
            && (o.error.hasError <==> parseFloatFails(t))
            && (o.error.hasError ==> o.error == LexerError(true, line, FloatParseFailure))
  {
    StepOnText(s, keyWords, parseFloatFails, start, line);
    TextStepOnWord(s, keyWords, parseFloatFails, start, line);
    NumberEndShape(s, start);
  }

  /** A letter or underscore starts the longest run of letters, digits and
      underscores; its kind is the keyword table's entry for the text when
      there is one, and IDENTIFIER otherwise. */
  lemma IdentifierLexeme(s: string, keyWords: map<string, TokenType>, parseFloatFails: string -> bool,
                         start: nat, line: int)
    requires start < |s| && AlphaChar(s[start])
    ensures var o := Step(s, keyWords, parseFloatFails, start, line);
            var t := s[start..o.next];
            o.error == NoError && o.line == line
            && (forall k | start <= k < o.next :: AlphaNumericChar(s[k]))
            && (o.next < |s| ==> !AlphaNumericChar(s[o.next]))
            && o.token == Some(Token(if t in keyWords then keyWords[t] else Identifier, t, Text(""), line))
  {
    StepOnText(s, keyWords, parseFloatFails, start, line);
    TextStepOnWord(s, keyWords, parseFloatFails, start, line);
  }

  /** The characters that can begin a lexeme. */
  predicate StartsLexeme(c: char) {
    OperatorChar(c) || c == '/' || Blank(c) || c == '"' || DigitChar(c) || AlphaChar(c)
  }

  /** Any other character raises "Unexpected character." at the current
      line, emits nothing, and is consumed; no other step raises it. */
  lemma UnexpectedCharacterIsFatal(s: string, keyWords: map<string, TokenType>, parseFloatFails: string -> bool,
                                   start: nat, line: int)
    requires start < |s|
    ensures var o := Step(s, keyWords, parseFloatFails, start, line);
            (o.error.hasError && o.error.reason == UnexpectedCharacter) <==> !StartsLexeme(s[start])
    ensures !StartsLexeme(s[start]) ==>
              Step(s, keyWords, parseFloatFails, start, line)
              == Lexed(start + 1, line, None, LexerError(true, line, UnexpectedCharacter))
  {
    if !OperatorChar(s[start]) {
      StepOnText(s, keyWords, parseFloatFails, start, line);
      if s[start] !in {'/', ' ', '\r', '\t', '\n', '"'} {
        TextStepOnWord(s, keyWords, parseFloatFails, start, line);
      }
    }
  }

  /** What every step promises about its outcome: it consumes at least
      one byte and stays in the source; a token it emits has the consumed
      text as its lexeme and carries the line reached at the end of it; an
      error it raises is one of the three scanner errors, set at that same
      line; and when it raises none, its error is the zero value. A token is
      EOF only if the keyword table maps its text to EOF. */
  predicate Faithful(s: string, keyWords: map<string, TokenType>, start: nat, o: Lexed) {
    && start < o.next <= |s|
    && (o.token.Some? ==> o.token.value.lexeme == s[start..o.next] && o.token.value.line == o.line)
    && (o.token.Some? && o.token.value.kind == Eof ==>
          o.token.value.lexeme in keyWords && keyWords[o.token.value.lexeme] == Eof)
    && (o.error.hasError ==>
          o.error.line == o.line
          && o.error.reason in {UnexpectedCharacter, UnterminatedString, FloatParseFailure})
    && (!o.error.hasError ==> o.error == NoError)
  }

  lemma SlashStepFaithful(s: string, start: nat, line: int)
    requires start < |s| && s[start] == '/'
    ensures Faithful(s, map[], start, SlashStep(s, start, line))
  {
  }

  lemma StringStepFaithful(s: string, start: nat, line: int)
    requires start < |s| && s[start] == '"'
    ensures Faithful(s, map[], start, StringStep(s, start, line))
  {
  }

  lemma WordStepFaithful(s: string, keyWords: map<string, TokenType>, parseFloatFails: string -> bool,
                         start: nat, line: int)
    requires start < |s| && s[start] != '\n'
    ensures Faithful(s, keyWords, start, WordStep(s, keyWords, parseFloatFails, start, line))
  {
  }

  lemma TextStepFaithful(s: string, keyWords: map<string, TokenType>, parseFloatFails: string -> bool,
                         start: nat, line: int)
    requires start < |s|
    ensures Faithful(s, keyWords, start, TextStep(s, keyWords, parseFloatFails, start, line))
  {
    match s[start]
    case '/' => SlashStepFaithful(s, start, line);
    case '"' => StringStepFaithful(s, start, line);
    case ' ' =>
    case '\r' =>
    case '\t' =>
    case '\n' =>
    case _ =>
      TextStepOnWord(s, keyWords, parseFloatFails, start, line);
      WordStepFaithful(s, keyWords, parseFloatFails, start, line);
  }

  /** Every step is faithful: the scanner never emits a token whose text is
      not what it consumed, and never raises an error of another kind. */
  lemma StepFaithful(s: string, keyWords: map<string, TokenType>, parseFloatFails: string -> bool,
                     start: nat, line: int)
    requires start < |s|
    ensures Faithful(s, keyWords, start, Step(s, keyWords, parseFloatFails, start, line))
  {
    if !OperatorChar(s[start]) {
      StepOnText(s, keyWords, parseFloatFails, start, line);
      TextStepFaithful(s, keyWords, parseFloatFails, start, line);
    }
  }

  // ---------------------------------------------------------------------
  // A whole scan
  // ---------------------------------------------------------------------

  /** The keyword table holds reserved-word kinds only, never EOF. */
  predicate NoEofKeyword(keyWords: map<string, TokenType>) {
    forall w | w in keyWords :: keyWords[w] != Eof
  }

  /** A token against the span of source it was scanned from: its lexeme is
      the text of the span, and its line is one more than the number of line
      breaks before the end of the span. */
  predicate Matches(s: string, span: Span, token: Token) {
    && span.start < span.end <= |s|
    && token.lexeme == s[span.start..span.end]
    && token.line == 1 + Newlines(s, 0, span.end)
    && token.kind != Eof
  }

  /** Tokens scanned from spans that end by `upTo`, one span per token, the
      spans in source order without overlap. */
  predicate Traced(s: string, upTo: nat, tokens: seq<Token>, spans: seq<Span>) {
    && |tokens| == |spans|
    && (forall k | 0 <= k < |spans| :: spans[k].end <= upTo && Matches(s, spans[k], tokens[k]))
    && (forall k, m | 0 <= k < m < |spans| :: spans[k].end <= spans[m].start)
  }

  /** The three errors the scanner raises. */
  predicate ScannerError(e: LexerError) {
    e.hasError && e.reason in {UnexpectedCharacter, UnterminatedString, FloatParseFailure}
  }

  /** A scan from a step boundary: every token it adds is traced to its
      span, and every span ends by the point `r.end` where the scan stops.
      Either it reaches the end of the source without error and appends one
      EOF token at the line reached there, or it stops with an error,
      appends no EOF, and the error carries the line reached at the stop.
      `RunStopsAtFirstError` shows that the step it stops after is the
      first to raise an error. */
  lemma {:induction false} RunTraced(s: string, keyWords: map<string, TokenType>, parseFloatFails: string -> bool,
                                     current: nat, line: int, tokens: seq<Token>, spans: seq<Span>)
    requires current <= |s| && NoEofKeyword(keyWords)
    requires line == 1 + Newlines(s, 0, current)
    requires Traced(s, current, tokens, spans)
    ensures var r := Run(s, keyWords, parseFloatFails, current, line, tokens, spans, NoError);
            && |r.spans| <= |r.tokens|
            && Traced(s, r.end, r.tokens[..|r.spans|], r.spans)
            && (r.error.hasError ==>
                  ScannerError(r.error) && |r.tokens| == |r.spans|
                  && r.error.line == 1 + Newlines(s, 0, r.end))
            && (!r.error.hasError ==>
                  r.error == NoError && |r.tokens| == |r.spans| + 1
                  && r.tokens[|r.spans|] == EofToken(1 + Newlines(s, 0, |s|)))
    decreases |s| - current
  {
    if current < |s| {
      var o := Step(s, keyWords, parseFloatFails, current, line);
      StepFaithful(s, keyWords, parseFloatFails, current, line);
      NewlinesSplit(s, 0, current, o.next);
      var tokens' := tokens + Emitted(o);
      var spans' := spans + (if o.token.Some? then [Span(current, o.next)] else []);
      assert Traced(s, o.next, tokens', spans');
      if !o.error.hasError {
        RunTraced(s, keyWords, parseFloatFails, o.next, o.line, tokens', spans');
      } else {
        assert tokens'[..|spans'|] == tokens';
      }
    } else {
      assert (tokens + [EofToken(line)])[..|spans|] == tokens;
    }
  }

  /** A scan that ends without error has EOF as its last token, whatever
      the keyword table holds. */
  lemma RunEndsWithEof(s: string, keyWords: map<string, TokenType>, parseFloatFails: string -> bool,
                       current: nat, line: int, tokens: seq<Token>, spans: seq<Span>, error: LexerError)
    requires current <= |s|
    ensures var r := Run(s, keyWords, parseFloatFails, current, line, tokens, spans, error);
            !r.error.hasError ==> r.tokens[|r.tokens| - 1].kind == Eof
  {
    RunEofLast(s, keyWords, parseFloatFails, current, line, tokens, spans, error);
  }

  /** Without an error, the last of `tokens` is EOF. */
  predicate EofLast(error: LexerError, tokens: seq<Token>) {
    !error.hasError ==> |tokens| > 0 && tokens[|tokens| - 1].kind == Eof
  }

  /** `RunEndsWithEof`, by induction over the steps of the scan. */
  lemma {:induction false} RunEofLast(s: string, keyWords: map<string, TokenType>, parseFloatFails: string -> bool,
                                      current: nat, line: int, tokens: seq<Token>, spans: seq<Span>, error: LexerError)
    requires current <= |s|
    ensures var r := Run(s, keyWords, parseFloatFails, current, line, tokens, spans, error);
            EofLast(r.error, r.tokens)
    decreases |s| - current
  {
    if current < |s| {
      var o := Step(s, keyWords, parseFloatFails, current, line);
      if error.hasError || o.error.hasError {
        StoppingRunStep(s, keyWords, parseFloatFails, current, line, tokens, spans, error);
      } else {
        CleanRunStep(s, keyWords, parseFloatFails, current, line, tokens, spans, error, o);
        RunEofLast(s, keyWords, parseFloatFails, o.next, o.line, tokens + Emitted(o),
                   spans + (if o.token.Some? then [Span(current, o.next)] else []), error);
      }
    } else {
      RunAtEnd(s, keyWords, parseFloatFails, line, tokens, spans, error);
      assert (tokens + [EofToken(line)])[|tokens|] == EofToken(line);
    }
  }

  /** One step of `Run` before the end of the source. */
  lemma RunUnfold(s: string, keyWords: map<string, TokenType>, parseFloatFails: string -> bool,
                  current: nat, line: int, tokens: seq<Token>, spans: seq<Span>, error: LexerError)
    requires current < |s|
    ensures var o := Step(s, keyWords, parseFloatFails, current, line);
            var tokens' := tokens + Emitted(o);
            var spans' := spans + (if o.token.Some? then [Span(current, o.next)] else []);
            var error' := if o.error.hasError then o.error else error;
            Run(s, keyWords, parseFloatFails, current, line, tokens, spans, error)
            == if error'.hasError then Scanned(tokens', error', spans', o.next)
               else Run(s, keyWords, parseFloatFails, o.next, o.line, tokens', spans', error')
  {
  }

  /** Scanning from `current` at line `line` reaches `b` at line `lineB`
      cleanly: each step on the way raises no error, and the steps land
      exactly on `b`. */
  predicate Reaches(s: string, keyWords: map<string, TokenType>, parseFloatFails: string -> bool,
                    current: nat, line: int, b: nat, lineB: int)
    requires current <= b <= |s|
    decreases b - current
  {
    if current == b then line == lineB
    else
      var o := Step(s, keyWords, parseFloatFails, current, line);
      !o.error.hasError && o.next <= b && Reaches(s, keyWords, parseFloatFails, o.next, o.line, b, lineB)
  }

  /** The step at `b`, taken at line `line`, raises `error` and ends at `end`. */
  predicate FailsAt(s: string, keyWords: map<string, TokenType>, parseFloatFails: string -> bool,
                    b: nat, line: int, error: LexerError, end: nat)
  {
    && b < |s|
    && var o := Step(s, keyWords, parseFloatFails, b, line);
       o.error.hasError && o.error == error && o.next == end
  }

  /** A scan from `current` at line `line` that stopped at `end` with
      `error`, if it failed, failed at `b`: it reached `b` cleanly at line
      `lineB`, and the step there raised that error and ended at `end`. */
  predicate FailedAt(s: string, keyWords: map<string, TokenType>, parseFloatFails: string -> bool,
                     current: nat, line: int, b: nat, lineB: int, error: LexerError, end: nat)
  {
    error.hasError ==>
      && current <= b < end <= |s|
      && Reaches(s, keyWords, parseFloatFails, current, line, b, lineB)
      && FailsAt(s, keyWords, parseFloatFails, b, lineB, error, end)
  }

  /** A clean step in front of a scan that failed at `b` gives a scan that
      failed at `b`. */
  lemma FailsLater(s: string, keyWords: map<string, TokenType>, parseFloatFails: string -> bool,
                   current: nat, line: int, b: nat, lineB: int, error: LexerError, end: nat)
    requires current < |s|
    requires var o := Step(s, keyWords, parseFloatFails, current, line);
             !o.error.hasError && FailedAt(s, keyWords, parseFloatFails, o.next, o.line, b, lineB, error, end)
    ensures FailedAt(s, keyWords, parseFloatFails, current, line, b, lineB, error, end)
  {
  }

  /** `Run` past a step, when neither the step nor the scan so far raised
      an error. */
  lemma CleanRunStep(s: string, keyWords: map<string, TokenType>, parseFloatFails: string -> bool,
                     current: nat, line: int, tokens: seq<Token>, spans: seq<Span>, error: LexerError, o: Lexed)
    requires current < |s| && !error.hasError
    requires o == Step(s, keyWords, parseFloatFails, current, line) && !o.error.hasError
    ensures Run(s, keyWords, parseFloatFails, current, line, tokens, spans, error)
            == Run(s, keyWords, parseFloatFails, o.next, o.line, tokens + Emitted(o),
                   spans + (if o.token.Some? then [Span(current, o.next)] else []), error)
  {
    RunUnfold(s, keyWords, parseFloatFails, current, line, tokens, spans, error);
  }

  /** `Run` stops with an error after a step that raised one, or after any
      step once an error is recorded. */
  lemma StoppingRunStep(s: string, keyWords: map<string, TokenType>, parseFloatFails: string -> bool,
                        current: nat, line: int, tokens: seq<Token>, spans: seq<Span>, error: LexerError)
    requires current < |s|
    requires error.hasError || Step(s, keyWords, parseFloatFails, current, line).error.hasError
    ensures Run(s, keyWords, parseFloatFails, current, line, tokens, spans, error).error.hasError
  {
    RunUnfold(s, keyWords, parseFloatFails, current, line, tokens, spans, error);
  }

  /** `Run` stopped by its first step failed there. */
  lemma FailingRunStep(s: string, keyWords: map<string, TokenType>, parseFloatFails: string -> bool,
                       current: nat, line: int, tokens: seq<Token>, spans: seq<Span>)
    requires current < |s|
    requires Step(s, keyWords, parseFloatFails, current, line).error.hasError
    ensures var r := Run(s, keyWords, parseFloatFails, current, line, tokens, spans, NoError);
            FailedAt(s, keyWords, parseFloatFails, current, line, current, line, r.error, r.end)
  {
    RunUnfold(s, keyWords, parseFloatFails, current, line, tokens, spans, NoError);
  }

  /** A scan whose first step is clean failed where the rest of it failed. */
  lemma FailsThrough(s: string, keyWords: map<string, TokenType>, parseFloatFails: string -> bool,
                     current: nat, line: int, b: nat, lineB: int, tokens: seq<Token>, spans: seq<Span>)
    requires current < |s|
    requires var o := Step(s, keyWords, parseFloatFails, current, line);
             && !o.error.hasError
             && var r := Run(s, keyWords, parseFloatFails, o.next, o.line, tokens + Emitted(o),
                             spans + (if o.token.Some? then [Span(current, o.next)] else []), NoError);
                FailedAt(s, keyWords, parseFloatFails, o.next, o.line, b, lineB, r.error, r.end)
    ensures var r := Run(s, keyWords, parseFloatFails, current, line, tokens, spans, NoError);
            FailedAt(s, keyWords, parseFloatFails, current, line, b, lineB, r.error, r.end)
  {
    var o := Step(s, keyWords, parseFloatFails, current, line);
    var r := Run(s, keyWords, parseFloatFails, o.next, o.line, tokens + Emitted(o),
                 spans + (if o.token.Some? then [Span(current, o.next)] else []), NoError);
    CleanRunStep(s, keyWords, parseFloatFails, current, line, tokens, spans, NoError, o);
    FailsLater(s, keyWords, parseFloatFails, current, line, b, lineB, r.error, r.end);
  }

  /** The step at which a scan from a step boundary failed, if it did, and
      the line it was taken at. */
  lemma {:induction false} FirstFailure(s: string, keyWords: map<string, TokenType>, parseFloatFails: string -> bool,
                                        current: nat, line: int, tokens: seq<Token>, spans: seq<Span>)
      returns (b: nat, lineB: int)
    requires current <= |s|
    ensures var r := Run(s, keyWords, parseFloatFails, current, line, tokens, spans, NoError);
            FailedAt(s, keyWords, parseFloatFails, current, line, b, lineB, r.error, r.end)
    decreases |s| - current
  {
    b, lineB := current, line;
    if current < |s| {
      var o := Step(s, keyWords, parseFloatFails, current, line);
      if o.error.hasError {
        FailingRunStep(s, keyWords, parseFloatFails, current, line, tokens, spans);
      } else {
        b, lineB := FirstFailure(s, keyWords, parseFloatFails, o.next, o.line, tokens + Emitted(o),
                                 spans + (if o.token.Some? then [Span(current, o.next)] else []));
        FailsThrough(s, keyWords, parseFloatFails, current, line, b, lineB, tokens, spans);
      }
    } else {
      RunAtEnd(s, keyWords, parseFloatFails, line, tokens, spans, NoError);
    }
  }

  /** The line reached through clean steps from a line the source gives is
      the line the source gives. */
  lemma {:induction false} ReachesLine(s: string, keyWords: map<string, TokenType>, parseFloatFails: string -> bool,
                                       current: nat, line: int, b: nat, lineB: int)
    requires current <= b <= |s| && line == 1 + Newlines(s, 0, current)
    requires Reaches(s, keyWords, parseFloatFails, current, line, b, lineB)
    ensures lineB == 1 + Newlines(s, 0, b)
    decreases b - current
  {
    if current < b {
      var o := Step(s, keyWords, parseFloatFails, current, line);
      NewlinesSplit(s, 0, current, o.next);
      ReachesLine(s, keyWords, parseFloatFails, o.next, o.line, b, lineB);
    }
  }

  /** The first error wins: a scan that fails stops right after the step
      that raised its error. Every step before that one raised none, and
      the error reported is that step's own. */
  lemma RunStopsAtFirstError(s: string, keyWords: map<string, TokenType>, parseFloatFails: string -> bool,
                             current: nat, line: int, tokens: seq<Token>, spans: seq<Span>)
    requires current <= |s|
    ensures var r := Run(s, keyWords, parseFloatFails, current, line, tokens, spans, NoError);
            r.error.hasError ==>
              exists b, lineB | current <= b < r.end ::
                && Reaches(s, keyWords, parseFloatFails, current, line, b, lineB)
                && FailsAt(s, keyWords, parseFloatFails, b, lineB, r.error, r.end)
  {
    var b, lineB := FirstFailure(s, keyWords, parseFloatFails, current, line, tokens, spans);
  }

  /** The first error wins for a whole scan: a failed scan stopped right
      after the first step that raised an error, every step before it
      raised none, and the scan reports that step's error. That step was
      taken at the line the source gives its start. */
  lemma ScanStopsAtFirstError(s: string, keyWords: map<string, TokenType>, parseFloatFails: string -> bool)
    ensures var r := Scan(s, keyWords, parseFloatFails);
            r.error.hasError ==>
              exists b, lineB | 0 <= b < r.end ::
                && Reaches(s, keyWords, parseFloatFails, 0, 1, b, lineB)
                && FailsAt(s, keyWords, parseFloatFails, b, lineB, r.error, r.end)
                && lineB == 1 + Newlines(s, 0, b)
  {
    var b, lineB := FirstFailure(s, keyWords, parseFloatFails, 0, 1, [], []);
    ScanIsRun(s, keyWords, parseFloatFails);
    if Scan(s, keyWords, parseFloatFails).error.hasError {
      ReachesLine(s, keyWords, parseFloatFails, 0, 1, b, lineB);
    }
  }

  /** The number of line breaks in a source, counted as a multiset. */
  lemma {:induction false} NewlinesPrefix(s: string, n: nat)
    requires n <= |s|
    ensures Newlines(s, 0, n) == multiset(s[..n])['\n']
  {
    if n > 0 {
      NewlinesPrefix(s, n - 1);
      assert s[..n] == s[..n - 1] + [s[n - 1]];
    }
  }

  lemma NewlinesCount(s: string)
    ensures Newlines(s, 0, |s|) == multiset(s)['\n']
  {
    NewlinesPrefix(s, |s|);
    assert s[..|s|] == s;
  }

  /** A scan that succeeds reads the whole source and ends with exactly one
      EOF token, whose line is one more than the number of line breaks in the
      source. A scan that fails has no EOF token and reports one of the three
      scanner errors, at the line reached where it stopped. */
  lemma ScanEndsWithEof(s: string, keyWords: map<string, TokenType>, parseFloatFails: string -> bool)
    requires NoEofKeyword(keyWords)
    ensures var r := Scan(s, keyWords, parseFloatFails);
            && (forall k | 0 <= k < |r.tokens| :: r.tokens[k].kind == Eof <==> !r.error.hasError && k == |r.tokens| - 1)
            && (!r.error.hasError ==>
                  r.error == NoError && |r.tokens| > 0 && r.end == |s|
                  && r.tokens[|r.tokens| - 1] == EofToken(1 + multiset(s)['\n']))
            && (r.error.hasError ==>
                  ScannerError(r.error) && r.end <= |s| && r.error.line == 1 + Newlines(s, 0, r.end))
  {
    RunTraced(s, keyWords, parseFloatFails, 0, 1, [], []);
    ScanIsRun(s, keyWords, parseFloatFails);
    EofOnlyLast(s, Scan(s, keyWords, parseFloatFails));
  }

  /** `Scan` is `Run` from the start of the source at line 1. */
  lemma ScanIsRun(s: string, keyWords: map<string, TokenType>, parseFloatFails: string -> bool)
    ensures Scan(s, keyWords, parseFloatFails) == Run(s, keyWords, parseFloatFails, 0, 1, [], [], NoError)
  {
  }

  /** `ScanEndsWithEof` for any result of the shape that `RunTraced`
      establishes. */
  lemma EofOnlyLast(s: string, r: Scanned)
    requires |r.spans| <= |r.tokens| && Traced(s, r.end, r.tokens[..|r.spans|], r.spans)
    requires r.error.hasError ==> |r.tokens| == |r.spans|
    requires !r.error.hasError ==>
               |r.tokens| == |r.spans| + 1 && r.tokens[|r.spans|] == EofToken(1 + Newlines(s, 0, |s|))
    ensures forall k | 0 <= k < |r.tokens| :: r.tokens[k].kind == Eof <==> !r.error.hasError && k == |r.tokens| - 1
    ensures !r.error.hasError ==>
              |r.tokens| > 0 && r.tokens[|r.tokens| - 1] == EofToken(1 + multiset(s)['\n'])
  {
    forall k | 0 <= k < |r.tokens|
      ensures r.tokens[k].kind == Eof <==> !r.error.hasError && k == |r.tokens| - 1
    {
      if k < |r.spans| {
        assert r.tokens[k] == r.tokens[..|r.spans|][k];
        assert Matches(s, r.spans[k], r.tokens[k]);
      } else {
        assert !r.error.hasError && k == |r.spans|;
        assert r.tokens[k].kind == EofToken(1 + Newlines(s, 0, |s|)).kind;
      }
    }
    EofLine(s);
  }

  /** The line of the final EOF, counted both ways. */
  lemma EofLine(s: string)
    ensures EofToken(1 + Newlines(s, 0, |s|)) == EofToken(1 + multiset(s)['\n'])
  {
    NewlinesCount(s);
  }

  /** Every token but EOF is the text of its own span of the source, ending
      by the point where the scan stopped; the spans come in source order
      without overlap, and each token's line is one more than the number of
      line breaks before its end. */
  lemma ScanTokensMatchSource(s: string, keyWords: map<string, TokenType>, parseFloatFails: string -> bool)
    requires NoEofKeyword(keyWords)
    ensures var r := Scan(s, keyWords, parseFloatFails);
            && |r.spans| == |r.tokens| - (if r.error.hasError then 0 else 1)
            && (forall k, m | 0 <= k < m < |r.spans| :: r.spans[k].end <= r.spans[m].start)
            && (forall k | 0 <= k < |r.spans| ::
                  && r.spans[k].start < r.spans[k].end <= r.end <= |s|
                  && r.tokens[k].lexeme == s[r.spans[k].start..r.spans[k].end]
                  && r.tokens[k].line == 1 + Newlines(s, 0, r.spans[k].end))
  {
    RunTraced(s, keyWords, parseFloatFails, 0, 1, [], []);
    ScanIsRun(s, keyWords, parseFloatFails);
    SpansMatch(s, Scan(s, keyWords, parseFloatFails));
  }

  /** `ScanTokensMatchSource` for any result of the shape that `RunTraced`
      establishes. */
  lemma SpansMatch(s: string, r: Scanned)
    requires |r.spans| <= |r.tokens| && Traced(s, r.end, r.tokens[..|r.spans|], r.spans) && r.end <= |s|
    requires |r.tokens| == |r.spans| + (if r.error.hasError then 0 else 1)
    ensures forall k, m | 0 <= k < m < |r.spans| :: r.spans[k].end <= r.spans[m].start
    ensures forall k | 0 <= k < |r.spans| ::
              && r.spans[k].start < r.spans[k].end <= r.end
              && r.tokens[k].lexeme == s[r.spans[k].start..r.spans[k].end]
              && r.tokens[k].line == 1 + Newlines(s, 0, r.spans[k].end)
  {
    forall k | 0 <= k < |r.spans|
      ensures Matches(s, r.spans[k], r.tokens[k])
    {
      assert r.tokens[k] == r.tokens[..|r.spans|][k];
    }
  }

  /** From `i` on, the source holds only layout: whitespace, `//` comments
      running to the next line break, and block comments running to their
      first terminator (or to the end). */
  predicate LayoutOnly(s: string, i: nat)
    requires i <= |s|
    decreases |s| - i
  {
    if i == |s| then true
    else if Blank(s[i]) then LayoutOnly(s, i + 1)
    else if i + 1 < |s| && s[i] == '/' && s[i + 1] == '/' then LayoutOnly(s, IndexOf(s, i + 2, '\n'))
    else if i + 1 < |s| && s[i] == '/' && s[i + 1] == '*' then LayoutOnly(s, BlockCommentEnd(s, i + 2))
    else false
  }

  /** A step from a layout position emits nothing, raises nothing and lands
      on a layout position. */
  lemma LayoutStep(s: string, keyWords: map<string, TokenType>, parseFloatFails: string -> bool,
                   start: nat, line: int)
    requires start < |s| && LayoutOnly(s, start)
    ensures var o := Step(s, keyWords, parseFloatFails, start, line);
            o.token == None && o.error == NoError && LayoutOnly(s, o.next)
  {
    if Blank(s[start]) {
      WhitespaceEmitsNothing(s, keyWords, parseFloatFails, start, line);
    } else {
      StepOnText(s, keyWords, parseFloatFails, start, line);
      assert Step(s, keyWords, parseFloatFails, start, line) == SlashStep(s, start, line);
    }
  }

  /** A step that emits nothing and raises nothing leaves `Run` to carry
      on from where the step stops, with nothing appended. */
  lemma QuietStep(s: string, keyWords: map<string, TokenType>, parseFloatFails: string -> bool,
                  current: nat, line: int, tokens: seq<Token>, spans: seq<Span>, next: nat, nextLine: int)
    requires current < |s|
    requires Step(s, keyWords, parseFloatFails, current, line) == Lexed(next, nextLine, None, NoError)
    ensures Run(s, keyWords, parseFloatFails, current, line, tokens, spans, NoError)
            == Run(s, keyWords, parseFloatFails, next, nextLine, tokens, spans, NoError)
  {
    assert tokens + [] == tokens && spans + [] == spans;
  }

  /** From a layout position, `Run` moves to the next layout position with
      nothing appended. */
  lemma LayoutRunStep(s: string, keyWords: map<string, TokenType>, parseFloatFails: string -> bool,
                      current: nat, line: int, tokens: seq<Token>, spans: seq<Span>)
    returns (next: nat)
    requires current < |s| && LayoutOnly(s, current) && line == 1 + Newlines(s, 0, current)
    ensures current < next <= |s| && LayoutOnly(s, next)
    ensures Run(s, keyWords, parseFloatFails, current, line, tokens, spans, NoError)
            == Run(s, keyWords, parseFloatFails, next, 1 + Newlines(s, 0, next), tokens, spans, NoError)
  {
    var o := Step(s, keyWords, parseFloatFails, current, line);
    LayoutStep(s, keyWords, parseFloatFails, current, line);
    NewlinesSplit(s, 0, current, o.next);
    next := o.next;
    assert o == Lexed(next, 1 + Newlines(s, 0, next), None, NoError);
    QuietStep(s, keyWords, parseFloatFails, current, line, tokens, spans, next, 1 + Newlines(s, 0, next));
  }

  /** A scan over layout alone appends nothing but EOF, at the line reached
      at the end of the source. */
  lemma {:induction false} LayoutRun(s: string, keyWords: map<string, TokenType>, parseFloatFails: string -> bool,
                                     current: nat, line: int, tokens: seq<Token>, spans: seq<Span>)
    requires current <= |s| && LayoutOnly(s, current) && line == 1 + Newlines(s, 0, current)
    ensures Run(s, keyWords, parseFloatFails, current, line, tokens, spans, NoError)
            == Scanned(tokens + [EofToken(1 + Newlines(s, 0, |s|))], NoError, spans, |s|)
    decreases |s| - current
  {
    if current < |s| {
      var next := LayoutRunStep(s, keyWords, parseFloatFails, current, line, tokens, spans);
      LayoutRun(s, keyWords, parseFloatFails, next, 1 + Newlines(s, 0, next), tokens, spans);
    } else {
      RunAtEnd(s, keyWords, parseFloatFails, line, tokens, spans, NoError);
    }
  }

  /** At the end of the source `Run` appends EOF and stops. */
  lemma RunAtEnd(s: string, keyWords: map<string, TokenType>, parseFloatFails: string -> bool,
                 line: int, tokens: seq<Token>, spans: seq<Span>, error: LexerError)
    ensures Run(s, keyWords, parseFloatFails, |s|, line, tokens, spans, error)
            == Scanned(tokens + [EofToken(line)], error, spans, |s|)
  {
  }

  /** A source of whitespace and comments only scans, without error, to
      exactly one token: EOF, at line 1 + the number of line breaks. */
  lemma LayoutOnlyScan(s: string, keyWords: map<string, TokenType>, parseFloatFails: string -> bool)
    requires LayoutOnly(s, 0)
    ensures Scan(s, keyWords, parseFloatFails) == Scanned([EofToken(1 + multiset(s)['\n'])], NoError, [], |s|)
  {
    LayoutRun(s, keyWords, parseFloatFails, 0, 1, [], []);
    ScanIsRun(s, keyWords, parseFloatFails);
    assert [] + [EofToken(1 + Newlines(s, 0, |s|))] == [EofToken(1 + multiset(s)['\n'])] by {
      EofLine(s);
    }
  }

  /** The three steps over the eight-byte source of `BlockCommentsDoNotNest`:
      the comment ends at the first terminator, and STAR and SLASH follow. */
  lemma NonNestedSteps(keyWords: map<string, TokenType>, parseFloatFails: string -> bool)
    ensures var s := "/*/**/*/";
            && Step(s, keyWords, parseFloatFails, 0, 1) == Lexed(6, 1, None, NoError)
            && Step(s, keyWords, parseFloatFails, 6, 1) == Lexed(7, 1, Some(Token(Star, "*", Text(""), 1)), NoError)
            && Step(s, keyWords, parseFloatFails, 7, 1) == Lexed(8, 1, Some(Token(Slash, "/", Text(""), 1)), NoError)
  {
    var s := "/*/**/*/";
    assert CloseAt(s, 4) && !CloseAt(s, 3) && !CloseAt(s, 2);
    assert BlockCommentEnd(s, 2) == 6 by {
      assert BlockCommentEnd(s, 4) == 6;
      BlockCommentEndSkip(s, 3);
      BlockCommentEndSkip(s, 2);
    }
    NoNewlines(s, 0, 6);
    assert s[6..7] == "*";
    LoneSlash(s, keyWords, parseFloatFails, 7, 1);
  }

  /** Block comments do not nest: the source below opens a comment, then
      holds an opener and a terminator, then a second terminator. The
      comment ends at the first terminator, and the second one is scanned as
      STAR and SLASH. */
  lemma BlockCommentsDoNotNest(keyWords: map<string, TokenType>, parseFloatFails: string -> bool)
    ensures Scan("/*/**/*/", keyWords, parseFloatFails)
            == Scanned([Token(Star, "*", Text(""), 1), Token(Slash, "/", Text(""), 1), EofToken(1)],
                       NoError, [Span(6, 7), Span(7, 8)], 8)
  {
    NonNestedSteps(keyWords, parseFloatFails);
  }
}

/** A reference definition of the scanner as pure functions.

    `Step` says what one lexeme step does from a given start position and
    line, in terms of searches over the source (the first newline, the first
    closing quote, the first `*` `/` pair, the longest run of digits).
    `Run` strings steps together as `ScanTokens` does. The `Lexer` class is
    proved to compute exactly `Run`; the properties of the scanner are
    proved as lemmas about these functions. */
module ScanSpec {
  import opened Tokens
  import opened CharClass

  /** Number of line breaks in `s[a..b]`, counted from the right. */
  function Newlines(s: string, a: nat, b: nat): nat
    requires a <= b <= |s|
    decreases b - a
  {
    if a == b then 0 else Newlines(s, a, b - 1) + (if s[b - 1] == '\n' then 1 else 0)
  }

  /** Line breaks are additive over adjacent ranges. */
  lemma {:induction false} NewlinesSplit(s: string, a: nat, b: nat, c: nat)
    requires a <= b <= c <= |s|
    ensures Newlines(s, a, c) == Newlines(s, a, b) + Newlines(s, b, c)
    decreases c - b
  {
    if b < c {
      NewlinesSplit(s, a, b, c - 1);
    }
  }

  /** A range without line breaks counts none. */
  lemma {:induction false} NoNewlines(s: string, a: nat, b: nat)
    requires a <= b <= |s|
    requires forall k | a <= k < b :: s[k] != '\n'
    ensures Newlines(s, a, b) == 0
    decreases b - a
  {
    if a < b {
      NoNewlines(s, a, b - 1);
    }
  }

  /** The first index at or after `i` holding `ch`, or the end of `s`. */
  function IndexOf(s: string, i: nat, ch: char): (j: nat)
    requires i <= |s|
    ensures i <= j <= |s|
    ensures forall k | i <= k < j :: s[k] != ch
    ensures j < |s| ==> s[j] == ch
    decreases |s| - i
  {
    if i == |s| || s[i] == ch then i else IndexOf(s, i + 1, ch)
  }

  /** The end of the longest run of digits starting at `i`. */
  function DigitRunEnd(s: string, i: nat): (j: nat)
    requires i <= |s|
    ensures i <= j <= |s|
    ensures forall k | i <= k < j :: DigitChar(s[k])
    ensures j < |s| ==> !DigitChar(s[j])
    decreases |s| - i
  {
    if i < |s| && DigitChar(s[i]) then DigitRunEnd(s, i + 1) else i
  }

  /** The end of the longest run of letters, digits and underscores
      starting at `i`. */
  function AlphaNumericRunEnd(s: string, i: nat): (j: nat)
    requires i <= |s|
    ensures i <= j <= |s|
    ensures forall k | i <= k < j :: AlphaNumericChar(s[k])
    ensures j < |s| ==> !AlphaNumericChar(s[j])
    decreases |s| - i
  {
    if i < |s| && AlphaNumericChar(s[i]) then AlphaNumericRunEnd(s, i + 1) else i
  }

  /** A block-comment terminator `*` `/` starts at index `k`. */
  predicate CloseAt(s: string, k: int) {
    0 <= k && k + 1 < |s| && s[k] == '*' && s[k + 1] == '/'
  }

  /** Where a block comment whose body starts at `i` ends: just after the
      first terminator at or after `i`, or at the end of `s` if there is
      none. Comments do not nest. */
  function BlockCommentEnd(s: string, i: nat): (j: nat)
    requires i <= |s|
    ensures i <= j <= |s|
    decreases |s| - i
  {
    if i + 1 >= |s| then |s|
    else if CloseAt(s, i) then i + 2
    else BlockCommentEnd(s, i + 1)
  }

  /** A block comment closes at the first terminator after its opening and
      at no earlier one; with no terminator it runs to the end of the
      source. */
  lemma {:induction false} BlockCommentClosesAtFirstTerminator(s: string, i: nat)
    requires i <= |s|
    ensures var j := BlockCommentEnd(s, i);
            (forall k | i <= k < j - 2 :: !CloseAt(s, k))
            && ((i + 2 <= j && CloseAt(s, j - 2)) || (j == |s| && forall k | i <= k :: !CloseAt(s, k)))
    decreases |s| - i
  {
    if i + 1 < |s| && !CloseAt(s, i) {
      BlockCommentClosesAtFirstTerminator(s, i + 1);
    }
  }

  /** A block comment that does not close at `k` ends where one starting
      just after `k` does. */
  lemma BlockCommentEndSkip(s: string, k: nat)
    requires k < |s| && !CloseAt(s, k)
    ensures BlockCommentEnd(s, k) == BlockCommentEnd(s, k + 1)
  {
  }

  /** Where a number whose first digit is just before `i` ends: its digits,
      then a `.` and more digits only if a digit follows the `.`. */
  function NumberEnd(s: string, i: nat): (j: nat)
    requires i <= |s|
    ensures i <= j <= |s|
    ensures j < |s| ==> !DigitChar(s[j])
  {
    var j := DigitRunEnd(s, i);
    if j + 1 < |s| && s[j] == '.' && DigitChar(s[j + 1]) then DigitRunEnd(s, j + 1) else j
  }

  /** The outcome of one lexeme step: where the cursor and the line counter
      end up, the token emitted if any, and the error raised if any. */
  datatype Lexed = Lexed(next: nat, line: int, token: Option<Token>, error: LexerError)

  function Emitted(o: Lexed): (toks: seq<Token>) {
    if o.token.Some? then [o.token.value] else []
  }

  function Emit(s: string, start: nat, next: nat, line: int, kind: TokenType, literal: Literal): (o: Lexed)
    requires start <= next <= |s|
  {
    Lexed(next, line, Some(Token(kind, s[start..next], literal, line)), NoError)
  }

  function Skip(next: nat, line: int): (o: Lexed) {
    Lexed(next, line, None, NoError)
  }

  /** An operator that becomes `two` when `second` immediately follows its
      first character, and `one` otherwise. */
  function OneOrTwo(s: string, start: nat, second: char, one: TokenType, two: TokenType, line: int): (o: Lexed)
    requires start < |s| && s[start] != '\n' && second != '\n'
    ensures start < o.next <= start + 2 && o.next <= |s|
    ensures o.line == line && o.line == line + Newlines(s, start, o.next)
  {
    NoNewlines(s, start, if start + 1 < |s| && s[start + 1] == second then start + 2 else start + 1);
    if start + 1 < |s| && s[start + 1] == second then Emit(s, start, start + 2, line, two, Text(""))
    else Emit(s, start, start + 1, line, one, Text(""))
  }

  lemma SlashLines(s: string, start: nat)
    requires start < |s| && s[start] == '/'
    ensures start + 1 < |s| && s[start + 1] == '/' ==>
              Newlines(s, start, IndexOf(s, start + 2, '\n')) == 0
    ensures start + 1 < |s| && s[start + 1] == '*' ==>
              Newlines(s, start, BlockCommentEnd(s, start + 2)) == Newlines(s, start + 2, BlockCommentEnd(s, start + 2))
  {
    if start + 1 < |s| && s[start + 1] == '/' {
      NoNewlines(s, start, IndexOf(s, start + 2, '\n'));
    } else if start + 1 < |s| && s[start + 1] == '*' {
      NewlinesSplit(s, start, start + 2, BlockCommentEnd(s, start + 2));
      NoNewlines(s, start, start + 2);
    }
  }

  lemma StringLines(s: string, start: nat, e: nat)
    requires start < e <= |s| && s[start] == '"'
    requires e < |s| ==> s[e] == '"'
    ensures Newlines(s, start, e) == Newlines(s, start + 1, e)
    ensures e < |s| ==> Newlines(s, start, e + 1) == Newlines(s, start + 1, e)
  {
    NewlinesSplit(s, start, start + 1, e);
  }

  /** After a `/`: a line comment, a block comment or the `/` operator. */
  function SlashStep(s: string, start: nat, line: int): (o: Lexed)
    requires start < |s| && s[start] == '/'
    ensures start < o.next <= |s| && o.line == line + Newlines(s, start, o.next)
  {
    var i := start + 1;
    SlashLines(s, start);
    if i < |s| && s[i] == '/' then Skip(IndexOf(s, i + 1, '\n'), line)
    else if i < |s| && s[i] == '*' then
      var e := BlockCommentEnd(s, i + 1);
      Skip(e, line + Newlines(s, i + 1, e))
    else Emit(s, start, i, line, Slash, Text(""))
  }

  /** After an opening `"`: the string up to the next `"`, whose literal is
      the text between the quotes, or an error if there is none. */
  function StringStep(s: string, start: nat, line: int): (o: Lexed)
    requires start < |s| && s[start] == '"'
    ensures start < o.next <= |s| && o.line == line + Newlines(s, start, o.next)
  {
    var i := start + 1;
    var e := IndexOf(s, i, '"');
    StringLines(s, start, e);
    var l := line + Newlines(s, i, e);
    if e == |s| then Lexed(e, l, None, LexerError(true, l, UnterminatedString))
    else Emit(s, start, e + 1, l, String, Text(s[start + 1..e]))
  }

  /** After any other character: a number, an identifier or keyword, or an
      error. */
  function WordStep(s: string, keyWords: map<string, TokenType>, parseFloatFails: string -> bool,
                    start: nat, line: int): (o: Lexed)
    requires start < |s| && s[start] != '\n'
    ensures start < o.next <= |s|
    ensures o.line == line && o.line == line + Newlines(s, start, o.next)
  {
    var i := start + 1;
    NoNewlines(s, start, if DigitChar(s[start]) then NumberEnd(s, i)
                         else if AlphaChar(s[start]) then AlphaNumericRunEnd(s, i) else i);
    if DigitChar(s[start]) then
      var e := NumberEnd(s, i);
      var err := if parseFloatFails(s[start..e]) then LexerError(true, line, FloatParseFailure) else NoError;
      Lexed(e, line, Some(Token(Number, s[start..e], Float(s[start..e]), line)), err)
    else if AlphaChar(s[start]) then
      var e := AlphaNumericRunEnd(s, i);
      var text := s[start..e];
      Emit(s, start, e, line, if text in keyWords then keyWords[text] else Identifier, Text(""))
    else Lexed(i, line, None, LexerError(true, line, UnexpectedCharacter))
  }

  /** A step on any character that does not begin an operator or
      punctuation token: comments, layout, literals, words and errors. */
  function TextStep(s: string, keyWords: map<string, TokenType>, parseFloatFails: string -> bool,
                    start: nat, line: int): (o: Lexed)
    requires start < |s|
    ensures start < o.next <= |s|
    ensures o.line == line + Newlines(s, start, o.next)
  {
    var i := start + 1;
    match s[start]
    case '/' => SlashStep(s, start, line)
    case ' ' => Skip(i, line)
    case '\r' => Skip(i, line)
    case '\t' => Skip(i, line)
    case '\n' => Skip(i, line + 1)
    case '"' => StringStep(s, start, line)
    case _ => WordStep(s, keyWords, parseFloatFails, start, line)
  }

  /** One lexeme step starting at `start` with line counter `line`. */
  function Step(s: string, keyWords: map<string, TokenType>, parseFloatFails: string -> bool,
                start: nat, line: int): (o: Lexed)
    requires start < |s|
    ensures start < o.next <= |s|
    ensures o.line == line + Newlines(s, start, o.next)
  {
    var i := start + 1;
    match s[start]
    case '(' => Emit(s, start, i, line, LeftParen, Text(""))
    case ')' => Emit(s, start, i, line, RightParen, Text(""))
    case '{' => Emit(s, start, i, line, LeftBrace, Text(""))
    case '}' => Emit(s, start, i, line, RightBrace, Text(""))
    case ',' => Emit(s, start, i, line, Comma, Text(""))
    case '.' => Emit(s, start, i, line, Dot, Text(""))
    case '-' => OneOrTwo(s, start, '-', Minus, Decrement, line)
    case '+' => OneOrTwo(s, start, '+', Plus, Increment, line)
    case ';' => Emit(s, start, i, line, Semicolon, Text(""))
    case '*' => Emit(s, start, i, line, Star, Text(""))
    case '!' => OneOrTwo(s, start, '=', Bang, BangEqual, line)
    case '=' => OneOrTwo(s, start, '=', Equal, EqualEqual, line)
    case '<' => OneOrTwo(s, start, '=', Less, LessEqual, line)
    case '>' => OneOrTwo(s, start, '=', Greater, GreaterEqual, line)
    case '?' => Emit(s, start, i, line, Question, Text(""))
    case ':' => Emit(s, start, i, line, Colon, Text(""))
    case _ => TextStep(s, keyWords, parseFloatFails, start, line)
  }

  /** The source span `[start, end)` of an emitted token. */
  datatype Span = Span(start: nat, end: nat)

  /** What a scan returns, with the span of every token but the final EOF. */
  datatype Scanned = Scanned(tokens: seq<Token>, error: LexerError, spans: seq<Span>, end: nat)

  /** `ScanTokens` from cursor `current`, line `line`, tokens `tokens` and
      error record `error`: step until the end of the source, stopping at
      once when the error record is set after a step; on reaching the end
      append EOF. `end` is where the cursor stops. Tokens and spans are only
      ever appended; a scan that ends without error stops at the end of the
      source, having appended at least one token. */
  function Run(s: string, keyWords: map<string, TokenType>, parseFloatFails: string -> bool,
               current: nat, line: int, tokens: seq<Token>, spans: seq<Span>, error: LexerError): (r: Scanned)
    requires current <= |s|
    ensures |tokens| < |r.tokens| || (r.error.hasError && |tokens| == |r.tokens|)
    ensures r.tokens[..|tokens|] == tokens && |spans| <= |r.spans| && r.spans[..|spans|] == spans
    ensures current <= r.end <= |s| && (!r.error.hasError ==> r.end == |s|)
    decreases |s| - current
  {
    if current == |s| then Scanned(tokens + [EofToken(line)], error, spans, |s|)
    else
      var o := Step(s, keyWords, parseFloatFails, current, line);
      var tokens' := tokens + Emitted(o);
      var spans' := spans + (if o.token.Some? then [Span(current, o.next)] else []);
      var error' := if o.error.hasError then o.error else error;
      if error'.hasError then Scanned(tokens', error', spans', o.next)
      else Run(s, keyWords, parseFloatFails, o.next, o.line, tokens', spans', error')
  }

  /** A fresh lexer's `ScanTokens`: it returns at least one token unless it
      fails, and it reaches the end of the source unless it fails. */
  function Scan(s: string, keyWords: map<string, TokenType>, parseFloatFails: string -> bool): (r: Scanned)
    ensures r.end <= |s|
    ensures !r.error.hasError ==> |r.tokens| > 0 && r.end == |s|
  {
    Run(s, keyWords, parseFloatFails, 0, 1, [], [], NoError)
  }
}

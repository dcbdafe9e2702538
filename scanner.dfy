/** The scanner (Lexing/Scanner.cs): one pass over the source text with a `start` and a
    `current` index, appending tokens to a list and reporting errors through
    `Lox.Error(line, message)`, which is the `errors` field here. */
module Scanning {
  import opened Tokens
  import opened Exceptions

  // The messages of the errors reported here.
  const CommentLeftOpen := "Multiline Comment left open."
  const UnterminatedString := "Unterminated string."
  const BadNumberFormat := "Input string was not in a correct format."

  /** The text of a string token: quotes around text holding no quote. */
  predicate IsStringText(s: string) {
    |s| >= 2 && s[0] == '"' && s[|s| - 1] == '"' && forall i | 0 < i < |s| - 1 :: s[i] != '"'
  }

  /** Where a token's lexeme lies in the source. */
  datatype Span = Span(from: nat, to: nat)

  /** A token's type and literal agree with its text: a keyword is exactly a keyword's
      text, an identifier any other identifier text, a number a decimal numeral with its
      value, a string a quoted text with its contents, and every other type its one
      fixed lexeme. No scanned token is the end of file. */
  predicate LexemeFits(kind: TokenType, lexeme: string, literal: Lit) {
    if kind.Identifier? then IsIdentifierText(lexeme) && lexeme !in Keywords && literal == NilLit
    else if kind.Number? then IsNumberText(lexeme) && literal == NumLit(NumberValue(lexeme))
    else if kind.String? then IsStringText(lexeme) && literal == StrLit(lexeme[1..|lexeme| - 1])
    else if kind.Eof? then false
    else if IsKeywordType(kind) then
      IsIdentifierText(lexeme) && lexeme in Keywords && Keywords[lexeme] == kind && literal == NilLit
    else FixedLexeme(kind) == Some(lexeme) && literal == NilLit
  }

  /** A scanned token is the text of its span, and fits that text. */
  predicate Scanned(source: string, t: Token, span: Span) {
    && span.from < span.to <= |source|
    && t.lexeme == source[span.from..span.to]
    && LexemeFits(t.kind, t.lexeme, t.literal)
  }

  /** Every token is a scanned token of the source, lying after the one before it, on
      the same line or a later one. */
  predicate InOrder(source: string, tokens: seq<Token>, spans: seq<Span>)
    decreases |tokens|
  {
    && |tokens| == |spans|
    && (|tokens| > 0 ==>
          var n := |tokens| - 1;
          && Scanned(source, tokens[n], spans[n])
          && InOrder(source, tokens[..n], spans[..n])
          && (n > 0 ==> spans[n - 1].to <= spans[n].from && tokens[n - 1].line <= tokens[n].line))
  }

  lemma {:induction false} InOrderAt(source: string, tokens: seq<Token>, spans: seq<Span>, i: nat)
    requires InOrder(source, tokens, spans) && i < |tokens|
    ensures Scanned(source, tokens[i], spans[i])
    ensures 0 < i ==> spans[i - 1].to <= spans[i].from && tokens[i - 1].line <= tokens[i].line
    decreases |tokens|
  {
    var n := |tokens| - 1;
    if i < n {
      InOrderAt(source, tokens[..n], spans[..n], i);
    }
  }

  lemma {:induction false} InOrderAll(source: string, tokens: seq<Token>, spans: seq<Span>)
    requires InOrder(source, tokens, spans)
    ensures forall i | 0 <= i < |tokens| :: Scanned(source, tokens[i], spans[i]) && !tokens[i].kind.Eof?
    ensures forall i | 0 < i < |tokens| :: spans[i - 1].to <= spans[i].from && tokens[i - 1].line <= tokens[i].line
  {
    forall i | 0 <= i < |tokens|
      ensures Scanned(source, tokens[i], spans[i]) && !tokens[i].kind.Eof?
      ensures 0 < i ==> spans[i - 1].to <= spans[i].from && tokens[i - 1].line <= tokens[i].line
    {
      InOrderAt(source, tokens, spans, i);
    }
  }

  lemma {:induction false} InOrderSnoc(source: string, tokens: seq<Token>, spans: seq<Span>, t: Token, span: Span)
    requires InOrder(source, tokens, spans) && Scanned(source, t, span)
    requires |tokens| > 0 ==> spans[|spans| - 1].to <= span.from && tokens[|tokens| - 1].line <= t.line
    ensures InOrder(source, tokens + [t], spans + [span])
  {
    assert (tokens + [t])[..|tokens|] == tokens && (spans + [span])[..|spans|] == spans;
  }

  /** `tokens` is `tokens0` with one more token: the text from `from` to `to`, on line
      `line`, fitting that text. */
  predicate Extends(source: string, tokens0: seq<Token>, spans0: seq<Span>, tokens: seq<Token>, spans: seq<Span>,
                    from: nat, to: nat, line: nat)
  {
    && from < to <= |source|
    && |tokens| == |tokens0| + 1 && tokens[..|tokens0|] == tokens0
    && spans == spans0 + [Span(from, to)]
    && tokens[|tokens0|].lexeme == source[from..to] && tokens[|tokens0|].line == line
    && LexemeFits(tokens[|tokens0|].kind, tokens[|tokens0|].lexeme, tokens[|tokens0|].literal)
  }

  /** The token list stays a scan of the source when one scanning step, from `current0`
      to `current`, adds nothing or adds the token spanning exactly that text. */
  lemma {:induction false} ScanStep(source: string, tokens0: seq<Token>, spans0: seq<Span>, current0: nat, line0: nat,
                                    tokens: seq<Token>, spans: seq<Span>, current: nat, line: nat)
    requires InOrder(source, tokens0, spans0)
    requires |tokens0| > 0 ==> spans0[|spans0| - 1].to <= current0 && 1 <= tokens0[|tokens0| - 1].line <= line0
    requires current0 < current && 1 <= line0 <= line
    requires (tokens == tokens0 && spans == spans0) || Extends(source, tokens0, spans0, tokens, spans, current0, current, line)
    ensures InOrder(source, tokens, spans)
    ensures |tokens| > 0 ==> spans[|spans| - 1].to <= current && 1 <= tokens[|tokens| - 1].line <= line
  {
    if tokens != tokens0 || spans != spans0 {
      var t := tokens[|tokens0|];
      assert tokens == tokens0 + [t];
      assert Scanned(source, t, Span(current0, current));
      InOrderSnoc(source, tokens0, spans0, t, Span(current0, current));
    }
  }

  /** The number of line breaks in `s[lo..hi]`. */
  function Newlines(s: string, lo: nat, hi: nat): (n: nat)
    requires lo <= hi <= |s|
    ensures lo + n <= hi
    decreases hi
  {
    if lo == hi then 0 else Newlines(s, lo, hi - 1) + if s[hi - 1] == '\n' then 1 else 0
  }

  /** The character at index `i` of `s`, or '\0' past its end: what `Peek` sees there. */
  function At(s: string, i: nat): char {
    if i < |s| then s[i] else '\0'
  }

  /** Where the block-comment loop as written stops: at a '*', or just before a '/'. */
  predicate StopsAsWritten(s: string, i: nat) {
    At(s, i) == '*' || At(s, i + 1) == '/'
  }

  /** Whether "*" "/" closes a block comment at index `i`. */
  predicate ClosesComment(s: string, i: nat) {
    i + 1 < |s| && s[i] == '*' && s[i + 1] == '/'
  }

  /** The token type of a character that is a token by itself. */
  function SingleCharKind(c: char): (k: Option<TokenType>)
    ensures k.Some? ==> FixedLexeme(k.value) == Some([c]) && LexemeFits(k.value, [c], NilLit)
    ensures k.Some? ==> NotWordStart(c) && !IsBlank(c) && c != '/' && OperatorKind(c, false).None?
  {
    match c
    case '(' => Some(LeftParen)
    case ')' => Some(RightParen)
    case '{' => Some(LeftBrace)
    case '}' => Some(RightBrace)
    case ',' => Some(Comma)
    case '.' => Some(Dot)
    case '-' => Some(Minus)
    case '+' => Some(Plus)
    case ';' => Some(Semicolon)
    case '*' => Some(Asterisk)
    case '?' => Some(Ternary)
    case ':' => Some(Colon)
    case _ => None
  }

  /** The token type of `c` alone, or of `c` followed by '=' when `equal`, for the
      characters that may start a two-character operator. */
  function OperatorKind(c: char, equal: bool): (k: Option<TokenType>)
    ensures k.Some? <==> c == '!' || c == '=' || c == '<' || c == '>'
    ensures k.Some? ==> NotWordStart(c) && !IsBlank(c) && c != '/'
    ensures k.Some? ==> LexemeFits(k.value, if equal then [c, '='] else [c], NilLit)
  {
    match c
    case '!' => Some(if equal then BangEqual else Bang)
    case '=' => Some(if equal then EqualEqual else Equal)
    case '<' => Some(if equal then LessEqual else Less)
    case '>' => Some(if equal then GreaterEqual else Greater)
    case _ => None
  }

  /** `c` starts no string, number or identifier. */
  predicate NotWordStart(c: char) {
    c != '"' && !IsDigit(c) && !IsAlpha(c)
  }

  /** Characters the scanner skips without a token: blanks and line breaks. */
  predicate IsBlank(c: char) {
    c == ' ' || c == '\r' || c == '\t' || c == '\n'
  }

  /** Characters that start no lexeme at all. */
  predicate Unexpected(c: char) {
    SingleCharKind(c).None? && OperatorKind(c, false).None? && c != '/' && !IsBlank(c) && NotWordStart(c)
  }

  /* ---------------- The reference scan ---------------- */

  /** The first index from `i` on that holds a quote, or the end of `s`. */
  function QuoteFrom(s: string, i: nat): (j: nat)
    requires i <= |s|
    ensures i <= j <= |s| && (j == |s| || s[j] == '"')
    ensures forall k | i <= k < j :: s[k] != '"'
    decreases |s| - i
  {
    if i == |s| || s[i] == '"' then i else QuoteFrom(s, i + 1)
  }

  /** The first index from `i` on that holds a line break, or the end of `s`. */
  function LineEnd(s: string, i: nat): (j: nat)
    requires i <= |s|
    ensures i <= j <= |s| && (j == |s| || s[j] == '\n')
    ensures forall k | i <= k < j :: s[k] != '\n'
    decreases |s| - i
  {
    if i == |s| || s[i] == '\n' then i else LineEnd(s, i + 1)
  }

  /** The first index from `i` on where a block comment closes, or the end of `s`. */
  function CommentEnd(s: string, i: nat): (j: nat)
    requires i <= |s|
    ensures i <= j <= |s| && (j == |s| || ClosesComment(s, j))
    ensures forall k | i <= k < j :: !ClosesComment(s, k)
    decreases |s| - i
  {
    if i == |s| || ClosesComment(s, i) then i else CommentEnd(s, i + 1)
  }

  /** The end of the run of digits that starts at `i`. */
  function DigitsEnd(s: string, i: nat): (j: nat)
    requires i <= |s|
    ensures i <= j <= |s| && !IsDigit(At(s, j))
    ensures forall k | i <= k < j :: IsDigit(s[k])
    decreases |s| - i
  {
    if i == |s| || !IsDigit(s[i]) then i else DigitsEnd(s, i + 1)
  }

  /** The end of the numeral that starts at `i`: digits, then a '.' and digits only when
      a digit follows the '.'. */
  function NumeralEnd(s: string, i: nat): (j: nat)
    requires i <= |s|
    ensures i <= j <= |s| && !IsDigit(At(s, j))
    ensures forall k | i <= k < j :: IsDigit(s[k]) || s[k] == '.'
  {
    var whole := DigitsEnd(s, i);
    if At(s, whole) == '.' && IsDigit(At(s, whole + 1)) then DigitsEnd(s, whole + 1) else whole
  }

  /** The text up to `NumeralEnd` is a numeral, whose '.' ends the first run of digits. */
  lemma {:induction false} NumeralEndIsNumeral(s: string, i: nat)
    requires i < |s| && IsDigit(s[i])
    ensures IsNumberText(s[i..NumeralEnd(s, i)]) && DotIndex(s[i..NumeralEnd(s, i)]) == DigitsEnd(s, i) - i
  {
    var whole, end := DigitsEnd(s, i), NumeralEnd(s, i);
    var t := s[i..end];
    assert t[..whole - i] == s[i..whole];
    if end > whole {
      assert t[whole - i + 1..] == s[whole + 1..end];
    }
    NumeralIsScanned(t, whole - i);
  }

  /** The end of the run of letters, digits and underscores that starts at `i`. */
  function WordEnd(s: string, i: nat): (j: nat)
    requires i <= |s|
    ensures i <= j <= |s| && !IsAlphaNumeric(At(s, j))
    ensures forall k | i <= k < j :: IsAlphaNumeric(s[k])
    decreases |s| - i
  {
    if i == |s| || !IsAlphaNumeric(s[i]) then i else WordEnd(s, i + 1)
  }

  /** What scanning one lexeme does: where the scan resumes, the line it is then on, and
      the token it adds and the error it reports, if any. */
  datatype Lexeme = Lexeme(end: nat, line: nat, token: Option<Token>, error: Option<ScanError>)

  /** No element, or the one element of `o`. */
  function Listed<T>(o: Option<T>): seq<T> {
    if o.Some? then [o.value] else []
  }

  /** A lexeme consumes text, never moves back a line, and its token, if any, is the
      text it consumed, on the line the scan is then on, with no error beside it. */
  predicate Advances(s: string, i: nat, line: nat, x: Lexeme) {
    && i < x.end <= |s| && line <= x.line
    && (x.token.Some? ==> x.token.value.lexeme == s[i..x.end] && x.token.value.line == x.line && x.error.None?)
  }

  /** The lexeme that starts at index `i`, on line `line`. */
  function Step(s: string, i: nat, line: nat): (x: Lexeme)
    requires i < |s|
    ensures Advances(s, i, line, x)
  {
    if NotWordStart(s[i]) then SymbolStep(s, i, line) else WordStep(s, i, line)
  }

  /** A lexeme that starts with punctuation, a blank or a stray character: a one-character
      token, an operator of one or two characters, a slash or a comment, a skipped blank
      (a line break moves to the next line), or an error for a character no lexeme
      starts with. */
  function SymbolStep(s: string, i: nat, line: nat): (x: Lexeme)
    requires i < |s| && NotWordStart(s[i])
    ensures Advances(s, i, line, x)
    ensures Unexpected(s[i]) <==> x.error == Some(ScanError(line, UnexpectedCharacter(s[i])))
    ensures IsBlank(s[i]) ==> x.token.None? && x.error.None?
  {
    var c := s[i];
    if SingleCharKind(c).Some? then
      Lexeme(i + 1, line, Some(Token(SingleCharKind(c).value, s[i..i + 1], NilLit, line)), None)
    else if OperatorKind(c, false).Some? then
      var equal := At(s, i + 1) == '=';
      var end := if equal then i + 2 else i + 1;
      Lexeme(end, line, Some(Token(OperatorKind(c, equal).value, s[i..end], NilLit, line)), None)
    else if c == '/' then SlashStep(s, i, line)
    else if IsBlank(c) then Lexeme(i + 1, if c == '\n' then line + 1 else line, None, None)
    else Lexeme(i + 1, line, None, Some(ScanError(line, UnexpectedCharacter(c))))
  }

  function UnexpectedCharacter(c: char): string {
    "Unexpected character: " + [c]
  }

  /** After a '/': a line comment up to the next line break, a block comment up to and
      including its close (an error on the current line when it has none), or the `/`
      operator. Neither comment moves to another line. */
  function SlashStep(s: string, i: nat, line: nat): (x: Lexeme)
    requires i < |s| && s[i] == '/'
    ensures Advances(s, i, line, x) && x.line == line
    ensures At(s, i + 1) == '/' ==> x.token.None? && x.error.None? && (x.end == |s| || s[x.end] == '\n')
    ensures At(s, i + 1) == '*' ==> x.token.None?
    ensures At(s, i + 1) == '*' && x.error.None? ==> i + 4 <= x.end && ClosesComment(s, x.end - 2)
    ensures x.error.Some? ==> At(s, i + 1) == '*' && x.end == |s| && x.error == Some(ScanError(line, CommentLeftOpen))
  {
    if At(s, i + 1) == '/' then Lexeme(LineEnd(s, i + 2), line, None, None)
    else if At(s, i + 1) == '*' then
      var close := CommentEnd(s, i + 2);
      if close < |s| then Lexeme(close + 2, line, None, None)
      else Lexeme(|s|, line, None, Some(ScanError(line, CommentLeftOpen)))
    else Lexeme(i + 1, line, Some(Token(Slash, s[i..i + 1], NilLit, line)), None)
  }

  /** A lexeme that starts with a quote, a digit or a letter. */
  function WordStep(s: string, i: nat, line: nat): (x: Lexeme)
    requires i < |s| && !NotWordStart(s[i])
    ensures Advances(s, i, line, x)
    ensures x.error.None? ==> x.token.Some?
  {
    if s[i] == '"' then StringStep(s, i, line)
    else if IsDigit(s[i]) then NumberStep(s, i, line)
    else IdentifierStep(s, i, line)
  }

  /** A string runs to the next quote, whose line breaks it counts; without one, the rest
      of the source is consumed and the error is reported on the last line. */
  function StringStep(s: string, i: nat, line: nat): (x: Lexeme)
    requires i < |s| && s[i] == '"'
    ensures Advances(s, i, line, x)
    ensures x.token.Some? ==> && i + 2 <= x.end && x.line == line + Newlines(s, i + 1, x.end - 1)
                              && x.token.value.kind.String? && IsStringText(x.token.value.lexeme)
                              && x.token.value.literal == StrLit(s[i + 1..x.end - 1])
    ensures x.token.None? ==> x.end == |s| && x.line == line + Newlines(s, i + 1, |s|)
    ensures x.token.None? <==> x.error == Some(ScanError(x.line, UnterminatedString))
  {
    var close := QuoteFrom(s, i + 1);
    var last := line + Newlines(s, i + 1, close);
    if close < |s| then
      Lexeme(close + 1, last, Some(Token(String, s[i..close + 1], StrLit(s[i + 1..close]), last)), None)
    else Lexeme(|s|, last, None, Some(ScanError(last, UnterminatedString)))
  }

  /** A number is the longest numeral there, with its value. */
  function NumberStep(s: string, i: nat, line: nat): (x: Lexeme)
    requires i < |s| && IsDigit(s[i])
    ensures Advances(s, i, line, x) && x.line == line && x.error.None?
    ensures x.token.Some? && x.token.value.kind.Number?
  {
    var end := NumeralEnd(s, i);
    NumeralEndIsNumeral(s, i);
    Lexeme(end, line, Some(Token(Number, s[i..end], NumLit(NumberValue(s[i..end])), line)), None)
  }

  /** An identifier is the longest run of letters, digits and underscores; it is a
      keyword exactly when its text is one. */
  function IdentifierStep(s: string, i: nat, line: nat): (x: Lexeme)
    requires i < |s| && IsAlpha(s[i])
    ensures Advances(s, i, line, x) && x.line == line && x.error.None?
    ensures x.token.Some? && IsIdentifierText(x.token.value.lexeme)
    ensures x.token.Some? && (x.token.value.kind.Identifier? <==> x.token.value.lexeme !in Keywords)
  {
    var end := WordEnd(s, i + 1);
    var text := s[i..end];
    Lexeme(end, line, Some(Token(if text in Keywords then Keywords[text] else Identifier, text, NilLit, line)), None)
  }

  /** The tokens and errors of the whole scan from index `i` on line `line`, and the line
      it ends on. */
  datatype Scan = Scan(tokens: seq<Token>, errors: seq<ScanError>, line: nat)

  /** The reference scan: one lexeme after another, from `i` to the end of `s`. */
  function Tokenize(s: string, i: nat, line: nat): (r: Scan)
    requires i <= |s|
    ensures line <= r.line
    ensures |r.tokens| <= |s| - i
    decreases |s| - i
  {
    if i == |s| then Scan([], [], line)
    else
      var x := Step(s, i, line);
      var rest := Tokenize(s, x.end, x.line);
      Scan(Listed(x.token) + rest.tokens, Listed(x.error) + rest.errors, rest.line)
  }

  /** Whether a block comment opens at index `k`. */
  predicate OpensComment(s: string, k: nat) {
    k + 1 < |s| && s[k] == '/' && s[k + 1] == '*'
  }

  /** The line breaks of a stretch of text split at any point inside it. */
  lemma {:induction false} NewlinesSplit(s: string, lo: nat, mid: nat, hi: nat)
    requires lo <= mid <= hi <= |s|
    ensures Newlines(s, lo, hi) == Newlines(s, lo, mid) + Newlines(s, mid, hi)
    decreases hi
  {
    if mid < hi {
      NewlinesSplit(s, lo, mid, hi - 1);
    }
  }

  /** A stretch of text without a line break counts none. */
  lemma {:induction false} NoNewlines(s: string, lo: nat, hi: nat)
    requires lo <= hi <= |s|
    requires forall k | lo <= k < hi :: s[k] != '\n'
    ensures Newlines(s, lo, hi) == 0
    decreases hi
  {
    if lo < hi {
      NoNewlines(s, lo, hi - 1);
    }
  }

  /** A lexeme moves the line on by at most the line breaks it spans, and by exactly
      that many unless it is a block comment. */
  lemma {:induction false} StepLines(s: string, i: nat, line: nat)
    requires i < |s|
    ensures Step(s, i, line).line <= line + Newlines(s, i, Step(s, i, line).end)
    ensures !OpensComment(s, i) ==> Step(s, i, line).line == line + Newlines(s, i, Step(s, i, line).end)
  {
    if NotWordStart(s[i]) {
      SymbolLines(s, i, line);
    } else {
      WordLines(s, i, line);
    }
  }

  lemma {:induction false} SymbolLines(s: string, i: nat, line: nat)
    requires i < |s| && NotWordStart(s[i])
    ensures SymbolStep(s, i, line).line <= line + Newlines(s, i, SymbolStep(s, i, line).end)
    ensures !OpensComment(s, i) ==> SymbolStep(s, i, line).line == line + Newlines(s, i, SymbolStep(s, i, line).end)
  {
    var x := SymbolStep(s, i, line);
    if s[i] == '/' {
      if At(s, i + 1) != '*' {
        NoNewlines(s, i, x.end);
      }
    } else if x.end == i + 2 {
      NoNewlines(s, i, x.end);
    }
  }

  lemma {:induction false} WordLines(s: string, i: nat, line: nat)
    requires i < |s| && !NotWordStart(s[i])
    ensures WordStep(s, i, line).line == line + Newlines(s, i, WordStep(s, i, line).end)
  {
    if s[i] == '"' {
      StringLines(s, i, line);
    } else {
      NoNewlines(s, i, WordStep(s, i, line).end);
    }
  }

  lemma {:induction false} StringLines(s: string, i: nat, line: nat)
    requires i < |s| && s[i] == '"'
    ensures StringStep(s, i, line).line == line + Newlines(s, i, StringStep(s, i, line).end)
  {
    var close := QuoteFrom(s, i + 1);
    NewlinesSplit(s, i, i + 1, StringStep(s, i, line).end);
    if close < |s| {
      NewlinesSplit(s, i + 1, close, close + 1);
    }
  }

  /** The scan ends no further down than the line breaks in the text take it, and exactly
      there when no block comment opens in the text: a block comment is the only lexeme
      whose line breaks are not counted. */
  lemma {:induction false} TokenizeLines(s: string, i: nat, line: nat)
    requires i <= |s|
    ensures Tokenize(s, i, line).line <= line + Newlines(s, i, |s|)
    ensures (forall k | i <= k < |s| :: !OpensComment(s, k)) ==> Tokenize(s, i, line).line == line + Newlines(s, i, |s|)
    decreases |s| - i
  {
    if i < |s| {
      var x := Step(s, i, line);
      TokenizeLines(s, x.end, x.line);
      StepLines(s, i, line);
      NewlinesSplit(s, i, x.end, |s|);
    }
  }

  /** Scanning the lexeme at `i` moves its token and error from what is left to scan to
      what has been scanned. */
  lemma {:induction false} TokenizeThrough(s: string, i: nat, line: nat, tokens: seq<Token>, errors: seq<ScanError>,
                                           allTokens: seq<Token>, allErrors: seq<ScanError>)
    requires i < |s|
    requires allTokens == tokens + Tokenize(s, i, line).tokens && allErrors == errors + Tokenize(s, i, line).errors
    ensures var x := Step(s, i, line);
            && allTokens == tokens + Listed(x.token) + Tokenize(s, x.end, x.line).tokens
            && allErrors == errors + Listed(x.error) + Tokenize(s, x.end, x.line).errors
            && Tokenize(s, x.end, x.line).line == Tokenize(s, i, line).line
  {
    var x := Step(s, i, line);
    var rest := Tokenize(s, x.end, x.line);
    assert Tokenize(s, i, line).tokens == Listed(x.token) + rest.tokens;
    assert Tokenize(s, i, line).errors == Listed(x.error) + rest.errors;
    assert tokens + (Listed(x.token) + rest.tokens) == tokens + Listed(x.token) + rest.tokens;
    assert errors + (Listed(x.error) + rest.errors) == errors + Listed(x.error) + rest.errors;
  }

  class Scanner {
    const source: string
    var tokens: seq<Token>
    /** Where each token's lexeme lies in the source. */
    ghost var spans: seq<Span>
    var start: nat
    var current: nat
    var line: nat
    /** The errors reported through `Lox.Error`, in order. */
    var errors: seq<ScanError>

    /** The indices lie within the source and lines are counted from 1. */
    ghost predicate Valid()
      reads this
    {
      start <= current <= |source| && line >= 1
    }

    /** The tokens so far are a scan of the source, ending before `current` and no later
        than the current line. */
    ghost predicate Consistent()
      reads this`tokens, this`spans, this`current, this`line
    {
      && InOrder(source, tokens, spans)
      && (|tokens| > 0 ==> spans[|spans| - 1].to <= current && 1 <= tokens[|tokens| - 1].line <= line)
    }

    /** Exactly one token was appended to `before`: the text from `start` to `current`, on
        the current line, fitting that text. */
    ghost predicate Appended(before: seq<Token>, spansBefore: seq<Span>)
      reads this
    {
      Extends(source, before, spansBefore, tokens, spans, start, current, line)
    }

    /** The scan went from `tokens0` and `errors0` through the lexeme `x`: it resumes at
        its end, on its line, with its token and its error appended. */
    ghost predicate Took(x: Lexeme, tokens0: seq<Token>, errors0: seq<ScanError>)
      reads this`current, this`line, this`tokens, this`errors
    {
      && current == x.end && line == x.line
      && tokens == tokens0 + Listed(x.token) && errors == errors0 + Listed(x.error)
    }

    constructor (source: string)
      ensures Valid() && Consistent() && this.source == source
      ensures tokens == [] && errors == [] && current == 0 && line == 1
    {
      this.source := source;
      tokens := [];
      spans := [];
      start := 0;
      current := 0;
      line := 1;
      errors := [];
    }

    /** The whole source has been consumed: in a valid state, exactly at its length. */
    function IsAtEnd(): (r: bool)
      reads this
      ensures Valid() ==> (r <==> current == |source|)
    {
      current >= |source|
    }

    /** The character `amount` places ahead, or '\0' past the end of the source. */
    function Peek(amount: nat): (c: char)
      reads this
      ensures current + amount >= |source| ==> c == '\0'
      ensures current + amount < |source| ==> c == source[current + amount]
    {
      if current + amount >= |source| || IsAtEnd() then '\0' else source[current + amount]
    }

    /** Consumes the next character when it is `expected`. */
    method Match(expected: char) returns (matched: bool)
      modifies this`current
      ensures matched <==> old(Peek(0)) == expected
      ensures current == old(current) + if matched then 1 else 0
    {
      if Peek(0) != expected {
        return false;
      }
      current := current + 1;
      return true;
    }

    /** Appends a token whose lexeme is the text from `start` to `current`. */
    method AddToken(kind: TokenType, literal: Lit)
      requires Valid() && start < current
      requires LexemeFits(kind, source[start..current], literal)
      modifies this`tokens, this`spans
      ensures tokens == old(tokens) + [Token(kind, source[start..current], literal, line)]
      ensures Appended(old(tokens), old(spans))
    {
      var t := Token(kind, source[start..current], literal, line);
      assert (tokens + [t])[..|tokens|] == tokens;
      tokens := tokens + [t];
      spans := spans + [Span(start, current)];
    }

    /** Scans the whole source, then appends one end-of-file token carrying the final
        line: the tokens and errors are exactly those of the reference scan. */
    method ScanTokens() returns (r: seq<Token>)
      requires Valid() && Consistent()
      modifies this`tokens, this`spans, this`start, this`current, this`line, this`errors
      ensures var whole := Tokenize(source, old(current), old(line));
              && r == old(tokens) + whole.tokens + [Token(Eof, "", NilLit, whole.line)]
              && errors == old(errors) + whole.errors && line == whole.line
      ensures r == tokens && current == |source| && old(tokens) <= r
      ensures |r| == |spans| + 1 && r[|r| - 1] == Token(Eof, "", NilLit, line)
      ensures forall i | 0 <= i < |r| - 1 :: Scanned(source, r[i], spans[i]) && !r[i].kind.Eof?
      ensures forall i | 0 < i < |r| - 1 :: spans[i - 1].to <= spans[i].from && r[i - 1].line <= r[i].line
      ensures old(errors) <= errors
    {
      ScanAll();
      InOrderAll(source, tokens, spans);
      ghost var scanned := tokens;
      tokens := tokens + [Token(Eof, "", NilLit, line)];
      assert forall i | 0 <= i < |scanned| :: tokens[i] == scanned[i];
      r := tokens;
    }

    /** The loop of `ScanTokens`: lexeme after lexeme up to the end of the source. */
    method ScanAll()
      requires Valid() && Consistent()
      modifies this`tokens, this`spans, this`start, this`current, this`line, this`errors
      ensures Valid() && Consistent() && current == |source|
      ensures var whole := Tokenize(source, old(current), old(line));
              && tokens == old(tokens) + whole.tokens && errors == old(errors) + whole.errors && line == whole.line
    {
      ghost var whole := Tokenize(source, current, line);
      while !IsAtEnd()
        invariant Valid() && Consistent()
        invariant var rest := Tokenize(source, current, line);
                  && old(tokens) + whole.tokens == tokens + rest.tokens
                  && old(errors) + whole.errors == errors + rest.errors && whole.line == rest.line
        decreases |source| - current
      {
        TokenizeThrough(source, current, line, tokens, errors, old(tokens) + whole.tokens, old(errors) + whole.errors);
        ScanNext();
      }
      assert Tokenize(source, current, line) == Scan([], [], line);
    }

    /** One turn of the scanning loop: the next lexeme starts where the last one ended,
        and the tokens stay a scan of the source. */
    method ScanNext()
      requires Valid() && Consistent() && current < |source|
      modifies this`tokens, this`spans, this`start, this`current, this`line, this`errors
      ensures Valid() && Consistent() && old(current) < current
      ensures Took(Step(source, old(current), old(line)), old(tokens), old(errors))
    {
      start := current;
      ScanToken();
      ScanStep(source, old(tokens), old(spans), old(current), old(line), tokens, spans, current, line);
    }

    /** Scans one lexeme starting at `start`: it consumes at least one character and
        adds at most one token, which is the text it consumed. */
    method ScanToken()
      requires Valid() && start == current < |source|
      modifies this`tokens, this`spans, this`current, this`line, this`errors
      ensures Valid() && old(current) < current && old(line) <= line && old(errors) <= errors
      ensures (tokens == old(tokens) && spans == old(spans)) || Appended(old(tokens), old(spans))
      ensures Took(Step(source, old(current), old(line)), old(tokens), old(errors))
    {
      var c := source[current];
      current := current + 1;
      if NotWordStart(c) {
        ScanSymbol(c);
      } else {
        ScanWord(c);
      }
    }

    method ScanSymbol(c: char)
      requires Valid() && start + 1 == current <= |source| && source[start] == c && NotWordStart(c)
      modifies this`tokens, this`spans, this`current, this`line, this`errors
      ensures Valid() && old(current) <= current && old(line) <= line && old(errors) <= errors
      ensures (tokens == old(tokens) && spans == old(spans)) || Appended(old(tokens), old(spans))
      ensures Took(SymbolStep(source, start, old(line)), old(tokens), old(errors))
    {
      ghost var x := SymbolStep(source, start, line);
      var single := SingleCharKind(c);
      var operator := OperatorKind(c, false);
      if single.Some? {
        assert source[start..current] == [c];
        AddToken(single.value, NilLit);
        assert Took(x, old(tokens), old(errors));
      } else if operator.Some? {
        ScanOperator(c);
        assert Took(x, old(tokens), old(errors));
      } else if c == '/' {
        ScanSlash();
      } else if IsBlank(c) {
        if c == '\n' {
          line := line + 1;
        }
      } else {
        errors := errors + [ScanError(line, UnexpectedCharacter(c))];
      }
    }

    method ScanWord(c: char)
      requires Valid() && start + 1 == current <= |source| && source[start] == c && !NotWordStart(c)
      modifies this`tokens, this`spans, this`current, this`line, this`errors
      ensures Valid() && old(current) <= current && old(line) <= line && old(errors) <= errors
      ensures (tokens == old(tokens) && spans == old(spans)) || Appended(old(tokens), old(spans))
      ensures Took(WordStep(source, start, old(line)), old(tokens), old(errors))
    {
      if c == '"' {
        HandleString();
      } else if IsDigit(c) {
        HandleNumber();
      } else {
        HandleIdentifier();
      }
    }

    /** `!`, `=`, `<` or `>`, followed by `=` when the next character is one. */
    method ScanOperator(c: char)
      requires Valid() && start + 1 == current && source[start] == c && OperatorKind(c, false).Some?
      modifies this`tokens, this`spans, this`current
      ensures Appended(old(tokens), old(spans))
      ensures var equal := At(source, old(current)) == '=';
              && current == old(current) + (if equal then 1 else 0)
              && tokens == old(tokens) + [Token(OperatorKind(c, equal).value, source[start..current], NilLit, line)]
    {
      var equal := Match('=');
      assert source[start..current] == if equal then [c, '='] else [c];
      AddToken(OperatorKind(c, equal).value, NilLit);
    }

    /** After a '/': a line comment, a block comment, or the `/` operator. */
    method ScanSlash()
      requires Valid() && start + 1 == current && source[start] == '/'
      modifies this`tokens, this`spans, this`current, this`errors
      ensures Valid() && old(current) <= current && old(errors) <= errors
      ensures (tokens == old(tokens) && spans == old(spans)) || Appended(old(tokens), old(spans))
      ensures At(source, old(current)) == '/' ==>
                tokens == old(tokens) && (current == |source| || source[current] == '\n')
      ensures At(source, old(current)) != '/' && At(source, old(current)) != '*' ==>
                Appended(old(tokens), old(spans)) && tokens[|tokens| - 1].kind.Slash?
                && current == old(current)
      ensures Took(SlashStep(source, start, line), old(tokens), old(errors))
    {
      var lineComment := Match('/');
      if lineComment {
        SkipLineComment();
        return;
      }
      var blockComment := Match('*');
      if blockComment {
        SkipBlockComment();
        return;
      }
      assert source[start..current] == "/";
      AddToken(Slash, NilLit);
    }

    /** A line comment runs up to, not including, the next line break or the end. */
    method SkipLineComment()
      requires current <= |source|
      modifies this`current
      ensures old(current) <= current <= |source|
      ensures current == |source| || source[current] == '\n'
      ensures forall i | old(current) <= i < current :: source[i] != '\n'
      ensures current == LineEnd(source, old(current))
    {
      while Peek(0) != '\n' && !IsAtEnd()
        invariant old(current) <= current <= |source|
        invariant LineEnd(source, current) == LineEnd(source, old(current))
        invariant forall i | old(current) <= i < current :: source[i] != '\n'
        decreases |source| - current
      {
        current := current + 1;
      }
    }

    /** A block comment as written: the loop stops at the first place where EITHER the
        next character is '*' OR the one after it is '/', and then skips two characters;
        an unterminated comment is reported with `start`, a character offset, as its line,
        and the skip then runs past the end of the source. Line breaks are not counted. */
    method SkipBlockCommentAsWritten()
      requires current <= |source|
      modifies this`current, this`errors
      ensures old(current) + 2 <= current <= |source| + 2
      ensures forall i | old(current) <= i < current - 2 :: !StopsAsWritten(source, i)
      ensures current - 2 < |source| ==> errors == old(errors) && StopsAsWritten(source, current - 2)
      ensures current - 2 == |source| ==> errors == old(errors) + [ScanError(start, CommentLeftOpen)]
    {
      while Peek(0) != '*' && Peek(1) != '/'
        invariant old(current) <= current <= |source|
        invariant errors == old(errors)
        invariant forall i | old(current) <= i < current :: !StopsAsWritten(source, i)
        decreases |source| - current
      {
        if IsAtEnd() {
          errors := errors + [ScanError(start, CommentLeftOpen)];
          break;
        }
        current := current + 1;
      }
      current := current + 2;
    }

    /** A block comment as evidently intended: it ends at the first "*" followed by "/",
        which is consumed; an unterminated one is reported on the current line and the
        scan stops at the end of the source. Line breaks are not counted, as written. */
    method SkipBlockComment()
      requires current <= |source|
      modifies this`current, this`errors
      ensures old(current) <= current <= |source| && old(errors) <= errors
      ensures forall i | old(current) <= i < current - 2 :: !ClosesComment(source, i)
      ensures errors == old(errors) ==> old(current) + 2 <= current && ClosesComment(source, current - 2)
      ensures errors != old(errors) ==>
                && current == |source| && errors == old(errors) + [ScanError(line, CommentLeftOpen)]
                && forall i | old(current) <= i < current :: !ClosesComment(source, i)
      ensures errors == old(errors) ==> current == CommentEnd(source, old(current)) + 2
      ensures errors != old(errors) ==> CommentEnd(source, old(current)) == |source|
    {
      while !IsAtEnd() && !(Peek(0) == '*' && Peek(1) == '/')
        invariant old(current) <= current <= |source|
        invariant CommentEnd(source, current) == CommentEnd(source, old(current))
        invariant forall i | old(current) <= i < current :: !ClosesComment(source, i)
        invariant errors == old(errors)
        decreases |source| - current
      {
        current := current + 1;
      }
      if IsAtEnd() {
        errors := errors + [ScanError(line, CommentLeftOpen)];
        return;
      }
      current := current + 2;
    }

    /** A string runs to the first closing quote, which may lie on a later line; its
        literal is the text between the quotes. Without a closing quote the rest of the
        source is consumed, an error is reported and no token is added. */
    method HandleString()
      requires Valid() && start < current == start + 1 <= |source| && source[start] == '"'
      modifies this`tokens, this`spans, this`current, this`line, this`errors
      ensures Valid() && start < current <= |source| && old(line) <= line && old(errors) <= errors
      ensures errors == old(errors) ==>
                && start < current - 1 && source[current - 1] == '"'
                && (forall i | start < i < current - 1 :: source[i] != '"')
                && line == old(line) + Newlines(source, start + 1, current - 1)
                && tokens == old(tokens) + [Token(String, source[start..current], StrLit(source[start + 1..current - 1]), line)]
                && Appended(old(tokens), old(spans))
      ensures errors != old(errors) ==>
                && current == |source| && (forall i | start < i < current :: source[i] != '"')
                && line == old(line) + Newlines(source, start + 1, |source|)
                && tokens == old(tokens) && spans == old(spans)
                && errors == old(errors) + [ScanError(line, UnterminatedString)]
      ensures Took(StringStep(source, start, old(line)), old(tokens), old(errors))
    {
      SkipStringBody();
      if IsAtEnd() {
        errors := errors + [ScanError(line, UnterminatedString)];
        return;
      }
      current := current + 1;
      AddStringToken();
    }

    /** Adds the string token whose quotes are at `start` and `current - 1`. */
    method AddStringToken()
      requires Valid() && start + 1 < current
      requires source[start] == '"' && source[current - 1] == '"'
      requires forall i | start < i < current - 1 :: source[i] != '"'
      modifies this`tokens, this`spans
      ensures tokens == old(tokens) + [Token(String, source[start..current], StrLit(source[start + 1..current - 1]), line)]
      ensures Appended(old(tokens), old(spans))
    {
      assert LexemeFits(String, source[start..current], StrLit(source[start + 1..current - 1])) by {
        var lexeme := source[start..current];
        assert forall i | 0 < i < |lexeme| - 1 :: lexeme[i] == source[start + i];
        assert lexeme[1..|lexeme| - 1] == source[start + 1..current - 1];
      }
      AddToken(String, StrLit(source[start + 1..current - 1]));
    }

    /** Advances to the closing quote or the end of the source, counting line breaks. */
    method SkipStringBody()
      requires Valid() && start + 1 <= current
      modifies this`current, this`line
      ensures Valid() && old(current) <= current <= |source| && (current == |source| || source[current] == '"')
      ensures forall i | old(current) <= i < current :: source[i] != '"'
      ensures line == old(line) + Newlines(source, old(current), current)
      ensures current == QuoteFrom(source, old(current))
    {
      while Peek(0) != '"' && !IsAtEnd()
        invariant Valid() && old(current) <= current
        invariant QuoteFrom(source, current) == QuoteFrom(source, old(current))
        invariant forall i | old(current) <= i < current :: source[i] != '"'
        invariant line == old(line) + Newlines(source, old(current), current)
        decreases |source| - current
      {
        if Peek(0) == '\n' {
          line := line + 1;
        }
        current := current + 1;
      }
    }

    /** A number as written: a single loop takes digits, and a '.' whenever a digit follows
        it, any number of times, so "1.2.3" is one lexeme, which `double.Parse` rejects
        with an exception nothing catches. */
    method HandleNumberAsWritten() returns (r: Result<()>)
      requires Valid() && start < current == start + 1 <= |source| && IsDigit(source[start])
      modifies this`tokens, this`spans, this`current
      ensures start < current <= |source|
      ensures forall i | start <= i < current :: IsDigit(source[i]) || (source[i] == '.' && IsDigit(At(source, i + 1)))
      ensures !(IsDigit(At(source, current)) || (At(source, current) == '.' && IsDigit(At(source, current + 1))))
      ensures IsNumberText(source[start..current]) ==>
                r == Ok(()) && tokens == old(tokens) + [Token(Number, source[start..current], NumLit(NumberValue(source[start..current])), line)]
      ensures !IsNumberText(source[start..current]) ==>
                r.Err? && r.failure.HostFault? && tokens == old(tokens) && spans == old(spans)
    {
      ScanNumeralAsWritten();
      if !IsNumberText(source[start..current]) {
        return Err(HostFault(BadNumberFormat));
      }
      AddToken(Number, NumLit(NumberValue(source[start..current])));
      r := Ok(());
    }

    /** The loop of the number case as written: digits, and every '.' followed by a digit. */
    method ScanNumeralAsWritten()
      requires start < current <= |source|
      modifies this`current
      ensures old(current) <= current <= |source|
      ensures forall i | old(current) <= i < current :: IsDigit(source[i]) || (source[i] == '.' && IsDigit(At(source, i + 1)))
      ensures !(IsDigit(At(source, current)) || (At(source, current) == '.' && IsDigit(At(source, current + 1))))
    {
      while IsDigit(Peek(0)) || (Peek(0) == '.' && IsDigit(Peek(1)))
        invariant old(current) <= current <= |source|
        invariant forall i | old(current) <= i < current :: IsDigit(source[i]) || (source[i] == '.' && IsDigit(At(source, i + 1)))
        decreases |source| - current
      {
        current := current + 1;
      }
    }

    /** A number as evidently intended: digits, then a '.' and more digits only when a
        digit follows the '.'. The lexeme is always a numeral, and the longest one here. */
    method HandleNumber()
      requires Valid() && start + 1 == current <= |source| && IsDigit(source[start])
      modifies this`tokens, this`spans, this`current
      ensures Valid() && start < current <= |source|
      ensures IsNumberText(source[start..current])
      ensures tokens == old(tokens) + [Token(Number, source[start..current], NumLit(NumberValue(source[start..current])), line)]
      ensures Appended(old(tokens), old(spans))
      ensures !IsDigit(At(source, current))
      ensures At(source, current) == '.' && IsDigit(At(source, current + 1)) ==> DotIndex(source[start..current]) < current - start
      ensures Took(NumberStep(source, start, line), old(tokens), errors)
    {
      ScanNumeral();
      AddToken(Number, NumLit(NumberValue(source[start..current])));
    }

    /** Advances over the digits of a number literal and, when a '.' is followed by a
        digit, over the '.' and the digits after it. */
    method ScanNumeral()
      requires start + 1 == current <= |source| && IsDigit(source[start])
      modifies this`current
      ensures start < current <= |source| && IsNumberText(source[start..current])
      ensures !IsDigit(At(source, current))
      ensures At(source, current) == '.' && IsDigit(At(source, current + 1)) ==> DotIndex(source[start..current]) < current - start
      ensures current == NumeralEnd(source, start)
    {
      SkipDigits();
      ghost var whole := current;
      assert whole == DigitsEnd(source, start);
      if Peek(0) == '.' && IsDigit(Peek(1)) {
        current := current + 1;
        SkipDigits();
      }
      assert current == NumeralEnd(source, start);
      NumeralEndIsNumeral(source, start);
      assert DotIndex(source[start..current]) == whole - start <= current - start;
    }

    /** Advances over a run of decimal digits. */
    method SkipDigits()
      requires current <= |source|
      modifies this`current
      ensures old(current) <= current <= |source| && !IsDigit(At(source, current))
      ensures AllDigits(source[old(current)..current])
      ensures current == DigitsEnd(source, old(current))
    {
      while IsDigit(Peek(0))
        invariant old(current) <= current <= |source| && AllDigits(source[old(current)..current])
        invariant DigitsEnd(source, current) == DigitsEnd(source, old(current))
        decreases |source| - current
      {
        assert source[old(current)..current + 1] == source[old(current)..current] + [source[current]];
        current := current + 1;
      }
    }

    /** An identifier is the longest run of letters, digits and underscores; it is a
        keyword exactly when its text is in the keyword table. */
    method HandleIdentifier()
      requires Valid() && start < current == start + 1 <= |source| && IsAlpha(source[start])
      modifies this`tokens, this`spans, this`current
      ensures Valid() && start < current <= |source|
      ensures IsIdentifierText(source[start..current])
      ensures current == |source| || !IsAlphaNumeric(source[current])
      ensures var text := source[start..current];
              tokens == old(tokens) + [Token(if text in Keywords then Keywords[text] else Identifier, text, NilLit, line)]
      ensures Appended(old(tokens), old(spans))
      ensures Took(IdentifierStep(source, start, line), old(tokens), errors)
    {
      while IsAlphaNumeric(Peek(0))
        invariant start < current <= |source| && IsIdentifierText(source[start..current])
        invariant WordEnd(source, current) == WordEnd(source, start + 1)
        invariant tokens == old(tokens) && spans == old(spans)
        decreases |source| - current
      {
        assert source[start..current + 1] == source[start..current] + [source[current]];
        current := current + 1;
      }
      var text := source[start..current];
      var kind := Identifier;
      if text in Keywords {
        kind := Keywords[text];
      }
      KeywordTypes(text);
      AddToken(kind, NilLit);
    }
  }

  /** Every key of the keyword table is identifier text mapped to a keyword type. */
  lemma KeywordTypes(text: string)
    ensures text in Keywords ==> IsKeywordType(Keywords[text]) && IsIdentifierText(text)
  {
  }

  /** Digits, optionally followed by a '.' and digits, form a numeral. */
  lemma {:induction false} NumeralIsScanned(s: string, k: nat)
    requires 0 < k <= |s| && AllDigits(s[..k])
    requires k == |s| || (k + 1 < |s| && s[k] == '.' && AllDigits(s[k + 1..]))
    ensures IsNumberText(s) && DotIndex(s) == k
  {
    DotIndexOfDigits(s, k);
  }

  lemma {:induction false} DotIndexOfDigits(s: string, k: nat)
    requires k <= |s| && AllDigits(s[..k]) && (k == |s| || s[k] == '.')
    ensures DotIndex(s) == k
    decreases k
  {
    if k > 0 {
      assert s[1..][..k - 1] == s[1..k];
      DotIndexOfDigits(s[1..], k - 1);
    }
  }

  /** In a block comment holding " a/b ", the loop as written already stops before the
      '/' of "a/b": the scan resumes at index 5, so `b`, `*` and `/` become tokens. */
  method BlockCommentAsWrittenStopsEarly() returns (end: nat)
    ensures end == 5
  {
    var scanner := new Scanner("/* a/b */");
    scanner.current := 2;
    scanner.SkipBlockCommentAsWritten();
    assert StopsAsWritten(scanner.source, 3);
    assert !StopsAsWritten(scanner.source, 2);
    end := scanner.current;
  }

  /** The corrected loop skips that whole comment, up to its closing star and slash. */
  method BlockCommentSkipsToClose() returns (end: nat, reported: bool)
    ensures end == 9 && !reported
  {
    var scanner := new Scanner("/* a/b */");
    scanner.current := 2;
    scanner.SkipBlockComment();
    assert ClosesComment(scanner.source, 7);
    assert !ClosesComment(scanner.source, 2) && !ClosesComment(scanner.source, 3) && !ClosesComment(scanner.source, 4);
    assert !ClosesComment(scanner.source, 5) && !ClosesComment(scanner.source, 6) && !ClosesComment(scanner.source, 8);
    end := scanner.current;
    reported := scanner.errors != [];
  }

  /** Two line breaks and then an unclosed block comment: the comment opens on line 3, but
      as written the error names line 2, the offset of the comment's first character. */
  method OpenCommentLineAsWritten() returns (errors: seq<ScanError>)
    ensures errors == [ScanError(2, CommentLeftOpen)]
  {
    var scanner := new Scanner("\n\n/*");
    scanner.start, scanner.current, scanner.line := 2, 4, 3;
    scanner.SkipBlockCommentAsWritten();
    errors := scanner.errors;
  }

  /** The corrected scanner reports the same open comment on line 3. */
  method OpenCommentLine() returns (errors: seq<ScanError>)
    ensures errors == [ScanError(3, CommentLeftOpen)]
  {
    var scanner := new Scanner("\n\n/*");
    scanner.start, scanner.current, scanner.line := 2, 4, 3;
    scanner.SkipBlockComment();
    errors := scanner.errors;
  }

  /** As written, "1.2.3" is taken as one number lexeme, which is not a numeral, so
      parsing it throws. */
  method SecondDotAsWritten() returns (r: Result<()>, end: nat)
    ensures end == 5 && r.Err? && r.failure.HostFault?
  {
    var scanner := new Scanner("1.2.3");
    scanner.current := 1;
    r := scanner.HandleNumberAsWritten();
    end := scanner.current;
    assert end == 5 by {
      assert IsDigit(At(scanner.source, 2)) && IsDigit(At(scanner.source, 4));
      assert At(scanner.source, 1) == '.' && At(scanner.source, 3) == '.';
    }
    assert scanner.source[0..5] == "1.2.3";
    NotNumeral(scanner.source[0..5]);
  }

  /** The corrected number scan takes "1.2" from "1.2.3", leaving ".3" to scan next. */
  method SecondDot() returns (t: Token, end: nat)
    ensures end == 3 && t.kind.Number? && t.lexeme == "1.2"
  {
    var scanner := new Scanner("1.2.3");
    scanner.current := 1;
    scanner.HandleNumber();
    end := scanner.current;
    SecondDotStops(scanner.source, end);
    t := scanner.tokens[0];
  }

  /** The only place a maximal numeral starting at index 0 of "1.2.3" can end. */
  lemma SecondDotStops(s: string, end: nat)
    requires s == "1.2.3" && 0 < end <= 5 && IsNumberText(s[..end]) && !IsDigit(At(s, end))
    requires At(s, end) == '.' && IsDigit(At(s, end + 1)) ==> DotIndex(s[..end]) < end
    ensures end == 3
  {
    assert s[..1] == "1" && DotIndex(s[..1]) == 1;
    assert IsDigit(At(s, 2)) && IsDigit(At(s, 4));
    NotNumeral(s);
  }

  /** "1.2.3" is not a numeral: after its first '.' comes another. */
  lemma NotNumeral(s: string)
    requires s == "1.2.3"
    ensures !IsNumberText(s)
  {
    assert s[1..] == ".2.3" && DotIndex(s) == 1;
    assert s[2..][1] == '.';
  }
}

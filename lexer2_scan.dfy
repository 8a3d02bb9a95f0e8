/**
 * The template lexer Lexer2 (package hr.fer.zemris.java.custom.scripting.lexer)
 * as pure functions: the tokens it produces, and what one call of nextToken
 * does to the cursor and the current token in TEXT and in TAG mode.
 * Lexer2Class.Lexer2 is the imperative lexer proved against these functions.
 */
module Lexer2Scan {
  import opened Wrappers
  import opened Chars
  import opened Longs

  /** TokenType2. */
  datatype TokenType2 =
    | Eof | Text | Var | Integer | Double | Keyword | Operator
    | OpenBrackets | CloseBrackets | Dollar | At | Equals

  /**
   * The token's Object value: null, a String, a Character, a Long or a Double.
   * A Double keeps the lexeme it was scanned from (floating point is not modelled).
   */
  datatype Value = Null | Str(s: string) | Chr(c: char) | Long(n: int) | Dbl(lexeme: string)

  /** Token2. */
  datatype Token2 = Token2(kind: TokenType2, value: Value)

  /** Lexer2State. */
  datatype Lexer2State = TextMode | TagMode

  /** The exceptions nextToken can throw, one constructor per cause. */
  datatype LexError =
    | Exhausted              // LexerException: a token was asked for after EOF
    | InvalidSymbol(symbol: char)  // LexerException: a character no TAG rule accepts
    | UnterminatedString     // IllegalArgumentException: no closing quote
    | NumberFormat           // NumberFormatException from Long.parseLong
    | IndexOutOfBounds       // an index past the end of the input

  const EOF_TOKEN: Token2 := Token2(Eof, Null)

  /** The keywords collection, filled with FOR and END on construction. */
  const KEYWORDS: set<string> := {"FOR", "END"}

  predicate IsOperator(c: char) {
    c == '+' || c == '-' || c == '*' || c == '/' || c == '^'
  }

  /** getTypeFromSpecialSymbols. */
  function SpecialKind(c: char): (k: Option<TokenType2>)
    ensures k.Some? <==> c in "{}$@="
  {
    if c == '{' then Some(OpenBrackets)
    else if c == '}' then Some(CloseBrackets)
    else if c == '$' then Some(Dollar)
    else if c == '@' then Some(At)
    else if c == '=' then Some(Equals)
    else None
  }

  predicate IsNameChar(c: char) {
    IsLetter(c) || IsDigit(c) || c == '_'
  }

  /** A letter followed by letters, digits and underscores. */
  predicate ValidName(w: string) {
    |w| > 0 && IsLetter(w[0]) && forall k :: 1 <= k < |w| ==> IsNameChar(w[k])
  }

  predicate IsKeyword(w: string) {
    UpperCase(w) in KEYWORDS
  }

  /**
   * Reference definition of an escaped run ended by `stop`: each backslash
   * takes the next character with it, and `stop` never appears unescaped.
   */
  predicate EscapedUntil(s: string, stop: char)
    decreases |s|
  {
    if s == [] then true
    else if s[0] == '\\' then |s| >= 2 && EscapedUntil(s[2..], stop)
    else s[0] != stop && EscapedUntil(s[1..], stop)
  }

  /** Free text of TEXT mode. */
  predicate EscapedRun(s: string) {
    EscapedUntil(s, '{')
  }

  /** The raw content of a quoted string in TAG mode. */
  predicate QuotedRun(s: string) {
    EscapedUntil(s, '"')
  }

  // ---------------------------------------------------------------------------
  // The scanning loops of nextToken, as functions of the input and the cursor.

  /**
   * The loop of setCurrentTokenText (and of the quoted string in
   * setCurrentTokenTag): advance over characters other than `stop`, two at a
   * time after a backslash, until `stop` or the end. A backslash in the last
   * position carries the cursor one past the end.
   */
  function RunEnd(data: seq<char>, i: nat, stop: char): (e: nat)
    decreases |data| + 2 - i
    ensures i <= e
    ensures i <= |data| ==> e <= |data| + 1
    ensures i <= e <= |data| ==> EscapedUntil(data[i..e], stop) && (e == |data| || data[e] == stop)
  {
    if i >= |data| || data[i] == stop then i
    else if data[i] == '\\' then
      var e := RunEnd(data, i + 2, stop);
      assert e <= |data| ==> data[i..e][2..] == data[i + 2..e];
      e
    else
      var e := RunEnd(data, i + 1, stop);
      assert e <= |data| ==> data[i..e][1..] == data[i + 1..e];
      e
  }

  /** The loop over the rest of a name: letters, digits and underscores. */
  function NameEnd(data: seq<char>, i: nat): (j: nat)
    requires i <= |data|
    decreases |data| - i
    ensures i <= j <= |data|
    ensures forall k :: i <= k < j ==> IsNameChar(data[k])
    ensures j >= |data| || !IsNameChar(data[j])
  {
    if i < |data| && IsNameChar(data[i]) then NameEnd(data, i + 1) else i
  }

  /** One or more digits, a '.', then zero or more digits: the lexeme of a DOUBLE. */
  predicate ValidDoubleLexeme(s: string) {
    var k := DigitsEnd(s, 0);
    0 < k < |s| && s[k] == '.' && AllDigits(s[k + 1..])
  }

  /** What a token's value must be, given its kind. */
  predicate TokenWF(t: Token2) {
    match t.kind
    case Eof => t.value == Null
    case Text => t.value.Str?
    case Var => t.value.Str? && ValidName(t.value.s) && !IsKeyword(t.value.s)
    case Keyword => t.value.Str? && ValidName(t.value.s) && IsKeyword(t.value.s)
    case Integer => t.value.Long? && InLongRange(t.value.n)
    case Double => t.value.Dbl? && ValidDoubleLexeme(t.value.lexeme)
    case Operator => t.value.Chr? && IsOperator(t.value.c)
    case OpenBrackets => t.value == Chr('{')
    case CloseBrackets => t.value == Chr('}')
    case Dollar => t.value == Chr('$')
    case At => t.value == Chr('@')
    case Equals => t.value == Chr('=')
  }

  /** The tokens TEXT mode produces: EOF, '{', or non-empty free text. */
  predicate TextModeToken(t: Token2) {
    TokenWF(t) && t.kind in {Eof, OpenBrackets, Text} &&
    (t.kind == Text ==> |t.value.s| > 0 && EscapedRun(t.value.s))
  }

  /** The tokens TAG mode produces: a TEXT token there is a quoted string's content. */
  predicate TagModeToken(t: Token2) {
    TokenWF(t) && (t.kind == Text ==> QuotedRun(t.value.s))
  }

  /** The outcome of one scan: a token or an exception, and where the cursor stopped. */
  datatype Scan = Scan(result: Result<Token2, LexError>, next: nat)

  /** setCurrentTokenText, after the EOF check. */
  function ScanText(data: seq<char>, i: nat): (r: Scan)
    requires i <= |data|
    ensures r.result.Ok? ==> TextModeToken(r.result.value)
    ensures r.result == Ok(EOF_TOKEN) <==> i == |data|
    ensures r.result.Ok? && r.result.value.kind == Eof ==> r.next == i
    ensures r.result.Ok? && r.result.value.kind == OpenBrackets <==> i < |data| && data[i] == '{'
    ensures r.result.Ok? && r.result.value.kind == OpenBrackets ==> r.next == i + 1
    ensures r.result.Ok? && r.result.value.kind == Text ==>
      i < r.next <= |data| && r.result.value.value == Str(data[i..r.next]) &&
      (r.next == |data| || data[r.next] == '{')
    ensures r.result.Err? ==> r.result.error == IndexOutOfBounds && r.next == |data| + 1
  {
    if i >= |data| then Scan(Ok(EOF_TOKEN), i)
    else if data[i] == '{' then Scan(Ok(Token2(OpenBrackets, Chr('{'))), i + 1)
    else
      var e := RunEnd(data, i, '{');
      if e > |data| then Scan(Err(IndexOutOfBounds), e)
      else Scan(Ok(Token2(Text, Str(data[i..e]))), e)
  }

  /** The part of setCurrentTokenTag after the whitespace, for a letter at j. */
  function ScanName(data: seq<char>, j: nat): (r: Scan)
    requires j < |data| && IsLetter(data[j])
    ensures r.result.Ok? && TagModeToken(r.result.value) && j < r.next <= |data|
    ensures r.result.value.kind in {Var, Keyword}
  {
    var e := NameEnd(data, j + 1);
    var w := data[j..e];
    Scan(Ok(Token2(if IsKeyword(w) then Keyword else Var, Str(w))), e)
  }

  /** The part of setCurrentTokenTag after the whitespace, for a '"' at j. */
  function ScanQuoted(data: seq<char>, j: nat): (r: Scan)
    requires j < |data| && data[j] == '"'
    ensures r.result.Ok? ==> TagModeToken(r.result.value) && j < r.next <= |data|
    ensures r.result.Ok? ==> r.result.value.kind == Text
    ensures r.result.Err? ==> r.result.error == UnterminatedString
  {
    var q := RunEnd(data, j + 1, '"');
    if q >= |data| then Scan(Err(UnterminatedString), q)
    else Scan(Ok(Token2(Text, Str(data[j + 1..q]))), q + 1)
  }

  /** The part of setCurrentTokenTag after the whitespace, for a digit at j. */
  function ScanNumber(data: seq<char>, j: nat): (r: Scan)
    requires j < |data| && IsDigit(data[j])
    ensures r.result.Ok? ==> TagModeToken(r.result.value) && j < r.next <= |data|
    ensures r.result.Ok? ==> r.result.value.kind in {Integer, Double}
  {
    var e := DigitsEnd(data, j + 1);
    if e >= |data| then Scan(Err(IndexOutOfBounds), e)
    else if data[e] == '.' then
      var f := DigitsEnd(data, e + 1);
      var lexeme := data[j..f];
      DigitsEndUnique(lexeme, 0, e - j);
      assert lexeme[e - j + 1..] == data[e + 1..f];
      Scan(Ok(Token2(Double, Dbl(lexeme))), f)
    else
      match ParseLong(data[j..e])
      case None => Scan(Err(NumberFormat), e)
      case Some(n) => Scan(Ok(Token2(Integer, Long(n))), e)
  }

  /** The part of setCurrentTokenTag after the whitespace, for an operator at j. */
  function ScanOperator(data: seq<char>, j: nat): (r: Scan)
    requires j < |data| && IsOperator(data[j])
    ensures r.result.Ok? ==> TagModeToken(r.result.value) && j < r.next <= |data|
    ensures r.result.Ok? ==> r.result.value.kind in {Integer, Operator}
  {
    if data[j] == '-' && j + 1 < |data| && IsDigit(data[j + 1]) then
      var e := DigitsEnd(data, j + 2);
      match ParseLong(data[j..e])
      case None => Scan(Err(NumberFormat), j)
      case Some(n) => Scan(Ok(Token2(Integer, Long(n))), e)
    else Scan(Ok(Token2(Operator, Chr(data[j]))), j + 1)
  }

  /** setCurrentTokenTag, after the EOF check. */
  function ScanTag(data: seq<char>, i: nat): (r: Scan)
    requires i <= |data|
    ensures r.result.Ok? ==> TagModeToken(r.result.value)
    ensures r.result == Ok(EOF_TOKEN) <==> i == |data|
    ensures r.result.Ok? && r.result.value.kind == Eof ==> r.next == i
    ensures r.result.Ok? && r.result.value.kind != Eof ==> i < r.next <= |data|
  {
    if i >= |data| then Scan(Ok(EOF_TOKEN), i)
    else
      var j := SkipWs(data, i);
      if j >= |data| then Scan(Err(IndexOutOfBounds), j)
      else
        var c := data[j];
        if SpecialKind(c).Some? then Scan(Ok(Token2(SpecialKind(c).value, Chr(c))), j + 1)
        else if IsLetter(c) then ScanName(data, j)
        else if IsDigit(c) then ScanNumber(data, j)
        else if c == '"' then ScanQuoted(data, j)
        else if IsOperator(c) then ScanOperator(data, j)
        else Scan(Err(InvalidSymbol(c)), j)
  }

  // ---------------------------------------------------------------------------
  // One call of nextToken on the whole lexer state.

  /** The fields of a Lexer2: data, currentIndex, token (null = None) and state. */
  datatype LexState = LexState(data: seq<char>, index: nat, token: Option<Token2>, mode: Lexer2State)

  /** The token and the new state after one call of nextToken. */
  datatype StepResult = StepResult(result: Result<Token2, LexError>, after: LexState)

  predicate AtEof(ls: LexState) {
    ls.token.Some? && ls.token.value.kind == Eof
  }

  /** The state a fresh Lexer2 over `text` is in. */
  function Initial(text: string): LexState {
    LexState(text, 0, None, TextMode)
  }

  /**
   * nextToken: after EOF it throws and changes nothing; otherwise it scans in
   * the current mode, moves the cursor, and on success replaces the token.
   */
  function Step(ls: LexState): (r: StepResult)
    requires ls.index <= |ls.data|
    ensures r.after.data == ls.data && r.after.mode == ls.mode
    ensures AtEof(ls) ==> r.result == Err(Exhausted) && r.after == ls
    ensures r.result.Ok? ==> r.after.token == Some(r.result.value)
    ensures r.result.Err? ==> r.after.token == ls.token
  {
    if AtEof(ls) then StepResult(Err(Exhausted), ls)
    else
      var sc := if ls.mode == TextMode then ScanText(ls.data, ls.index) else ScanTag(ls.data, ls.index);
      StepResult(sc.result, Advance(ls, sc))
  }

  /** The state after a scan: the cursor where it stopped, the token replaced unless it threw. */
  function Advance(ls: LexState, sc: Scan): LexState {
    ls.(index := sc.next, token := if sc.result.Ok? then Some(sc.result.value) else ls.token)
  }

  /** The states the parser can see: the cursor is inside the input and the token is well formed. */
  predicate Valid(ls: LexState) {
    ls.index <= |ls.data| && (ls.token.Some? ==> TokenWF(ls.token.value))
  }

  /** A measure that every successful nextToken decreases. */
  function Rank(ls: LexState): nat
    requires ls.index <= |ls.data|
  {
    2 * (|ls.data| - ls.index) + (if AtEof(ls) then 0 else 1)
  }

  /** nextToken as the parser uses it: the new state, or the exception. */
  function Next(ls: LexState): (r: Result<LexState, LexError>)
    requires Valid(ls)
    ensures r.Ok? ==> Valid(r.value) && r.value.token.Some? && Rank(r.value) < Rank(ls)
    ensures r.Ok? ==> r.value.data == ls.data && r.value.mode == ls.mode
    ensures r.Ok? && ls.mode == TextMode ==> TextModeToken(r.value.token.value)
    ensures r.Ok? && ls.mode == TagMode ==> TagModeToken(r.value.token.value)
    ensures r.Ok? && r.value.token.value.kind == Eof ==> r.value.index == |ls.data|
    ensures r.Ok? && ls.mode == TextMode && r.value.token.value.kind == Text ==>
      r.value.index == |ls.data| || ls.data[r.value.index] == '{'
    ensures AtEof(ls) ==> r == Err(Exhausted)
  {
    var s := Step(ls);
    if s.result.Ok? then Ok(s.after) else Err(s.result.error)
  }

  // ---------------------------------------------------------------------------
  // The scanning loops stop exactly at the first position that ends them.

  lemma {:induction false} RunEndUnique(data: seq<char>, i: nat, e: nat, stop: char)
    requires stop != '\\'
    requires i <= e <= |data|
    requires EscapedUntil(data[i..e], stop) && (e == |data| || data[e] == stop)
    ensures RunEnd(data, i, stop) == e
    decreases e - i
  {
    if i < e {
      var s := data[i..e];
      if s[0] == '\\' {
        assert s[2..] == data[i + 2..e];
        RunEndUnique(data, i + 2, e, stop);
      } else {
        assert s[1..] == data[i + 1..e];
        RunEndUnique(data, i + 1, e, stop);
      }
    }
  }

  lemma {:induction false} NameEndUnique(data: seq<char>, i: nat, j: nat)
    requires i <= j <= |data|
    requires forall k :: i <= k < j ==> IsNameChar(data[k])
    requires j == |data| || !IsNameChar(data[j])
    ensures NameEnd(data, i) == j
    decreases j - i
  {
    if i < j {
      NameEndUnique(data, i + 1, j);
    }
  }

  // ---------------------------------------------------------------------------
  // What each branch of setCurrentTokenTag produces, stated against the maximal
  // run of characters it scans.

  /** A letter starts the longest valid name there; it is a KEYWORD exactly when it is FOR or END in any case. */
  lemma ScanNameToken(data: seq<char>, j: nat, e: nat)
    requires j < e <= |data|
    requires ValidName(data[j..e]) && (e == |data| || !IsNameChar(data[e]))
    ensures ScanName(data, j) == Scan(Ok(Token2(if IsKeyword(data[j..e]) then Keyword else Var, Str(data[j..e]))), e)
  {
    forall k | j + 1 <= k < e
      ensures IsNameChar(data[k])
    {
      assert data[j..e][k - j] == data[k];
    }
    NameEndUnique(data, j + 1, e);
  }

  /**
   * A run of digits not followed by '.' is an INTEGER with the run's decimal value,
   * or a NumberFormatException when that value does not fit in a long.
   */
  lemma ScanNumberInteger(data: seq<char>, j: nat, e: nat)
    requires j < e < |data|
    requires AllDigits(data[j..e]) && !IsDigit(data[e]) && data[e] != '.'
    ensures ScanNumber(data, j) ==
      if DigitsValue(data[j..e]) <= MAX_LONG then Scan(Ok(Token2(Integer, Long(DigitsValue(data[j..e])))), e)
      else Scan(Err(NumberFormat), e)
  {
    forall k | j + 1 <= k < e
      ensures IsDigit(data[k])
    {
      assert data[j..e][k - j] == data[k];
    }
    DigitsEndUnique(data, j + 1, e);
    assert IsDigit(data[j..e][0]);
  }

  /** Digits, a '.', then the longest run of digits after it: a DOUBLE of exactly that lexeme. */
  lemma ScanNumberDouble(data: seq<char>, j: nat, e: nat, f: nat)
    requires j < e < f <= |data|
    requires AllDigits(data[j..e]) && data[e] == '.'
    requires AllDigits(data[e + 1..f]) && (f == |data| || !IsDigit(data[f]))
    ensures ScanNumber(data, j) == Scan(Ok(Token2(Double, Dbl(data[j..f]))), f)
  {
    forall k | j + 1 <= k < e
      ensures IsDigit(data[k])
    {
      assert data[j..e][k - j] == data[k];
    }
    DigitsEndUnique(data, j + 1, e);
    forall k | e + 1 <= k < f
      ensures IsDigit(data[k])
    {
      assert data[e + 1..f][k - e - 1] == data[k];
    }
    DigitsEndUnique(data, e + 1, f);
  }

  /** Digits up to the end of the input: the check for '.' reads past the end. */
  lemma ScanNumberAtEnd(data: seq<char>, j: nat)
    requires j < |data| && AllDigits(data[j..])
    ensures ScanNumber(data, j) == Scan(Err(IndexOutOfBounds), |data|)
  {
    forall k | j + 1 <= k < |data|
      ensures IsDigit(data[k])
    {
      assert data[j..][k - j] == data[k];
    }
    DigitsEndUnique(data, j + 1, |data|);
  }

  /** A quote closed by a later unescaped quote: a TEXT token of the raw content between them. */
  lemma ScanQuotedClosed(data: seq<char>, j: nat, q: nat)
    requires j < q < |data| && data[j] == '"' && data[q] == '"'
    requires QuotedRun(data[j + 1..q])
    ensures ScanQuoted(data, j) == Scan(Ok(Token2(Text, Str(data[j + 1..q]))), q + 1)
  {
    RunEndUnique(data, j + 1, q, '"');
  }

  /** A quote fails as UnterminatedString exactly when no later quote closes it. */
  lemma ScanQuotedUnterminated(data: seq<char>, j: nat)
    requires j < |data| && data[j] == '"'
    ensures ScanQuoted(data, j).result == Err(UnterminatedString) <==>
      forall q :: j < q < |data| && data[q] == '"' ==> !QuotedRun(data[j + 1..q])
  {
    if ScanQuoted(data, j).result.Err? {
      forall q | j < q < |data| && data[q] == '"'
        ensures !QuotedRun(data[j + 1..q])
      {
        if QuotedRun(data[j + 1..q]) {
          ScanQuotedClosed(data, j, q);
        }
      }
    } else {
      var q := RunEnd(data, j + 1, '"');
      assert j < q < |data| && data[q] == '"' && QuotedRun(data[j + 1..q]);
    }
  }

  /**
   * '-' and the longest run of digits after it: an INTEGER of the negated value,
   * or a NumberFormatException with the cursor still on the '-'.
   */
  lemma ScanOperatorNegative(data: seq<char>, j: nat, e: nat)
    requires j + 1 < e <= |data| && data[j] == '-'
    requires AllDigits(data[j + 1..e]) && (e == |data| || !IsDigit(data[e]))
    ensures ScanOperator(data, j) ==
      if DigitsValue(data[j + 1..e]) <= -MIN_LONG then Scan(Ok(Token2(Integer, Long(0 - DigitsValue(data[j + 1..e]) as int))), e)
      else Scan(Err(NumberFormat), j)
  {
    forall k | j + 2 <= k < e
      ensures IsDigit(data[k])
    {
      assert data[j + 1..e][k - j - 1] == data[k];
    }
    DigitsEndUnique(data, j + 2, e);
    var w, ds := data[j..e], data[j + 1..e];
    assert w[0] == '-' && w[1..] == ds && ds != [];
    var m: int := DigitsValue(ds);
    assert ParseLong(w) == if m <= -MIN_LONG then Some(0 - m) else None;
  }

  /** Any other operator, or a '-' not followed by a digit, is an OPERATOR token of that character. */
  lemma ScanOperatorChar(data: seq<char>, j: nat)
    requires j < |data| && IsOperator(data[j])
    requires !(data[j] == '-' && j + 1 < |data| && IsDigit(data[j + 1]))
    ensures ScanOperator(data, j) == Scan(Ok(Token2(Operator, Chr(data[j]))), j + 1)
  {
  }

  /**
   * TAG mode before the end: whitespace is skipped to j; then only whitespace to
   * the end is an index error, a special character is its own token, a letter,
   * digit, quote or operator starts the matching branch, and anything else is
   * an invalid symbol, without moving past it.
   */
  lemma ScanTagDispatch(data: seq<char>, i: nat, j: nat)
    requires i < |data| && i <= j <= |data|
    requires forall k :: i <= k < j ==> IsWhitespace(data[k])
    requires j == |data| || !IsWhitespace(data[j])
    ensures j == |data| ==> ScanTag(data, i) == Scan(Err(IndexOutOfBounds), j)
    ensures j < |data| && SpecialKind(data[j]).Some? ==>
      ScanTag(data, i) == Scan(Ok(Token2(SpecialKind(data[j]).value, Chr(data[j]))), j + 1)
    ensures j < |data| && IsLetter(data[j]) ==> ScanTag(data, i) == ScanName(data, j)
    ensures j < |data| && IsDigit(data[j]) ==> ScanTag(data, i) == ScanNumber(data, j)
    ensures j < |data| && data[j] == '"' ==> ScanTag(data, i) == ScanQuoted(data, j)
    ensures j < |data| && IsOperator(data[j]) ==> ScanTag(data, i) == ScanOperator(data, j)
    ensures (j < |data| && data[j] !in "{}$@=" && !IsLetter(data[j]) && !IsDigit(data[j]) &&
             data[j] != '"' && !IsOperator(data[j])) ==> ScanTag(data, i) == Scan(Err(InvalidSymbol(data[j])), j)
  {
    SkipWsUnique(data, i, j);
  }

  /** In TEXT mode, where a text run stopped the next token is '{' or the end. */
  lemma NextAfterText(ls: LexState)
    requires Valid(ls) && ls.mode == TextMode && !AtEof(ls)
    requires ls.index == |ls.data| || ls.data[ls.index] == '{'
    ensures Next(ls).Ok? && Next(ls).value.token.value.kind in {Eof, OpenBrackets}
  {
  }
}

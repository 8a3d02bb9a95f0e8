/**
 * How Lexer2 reads back the pieces the serializer writes: for each piece
 * at a position of the input, the exact token nextToken returns and where
 * the cursor stops.
 */
module Relex {
  import opened Wrappers
  import opened Chars
  import opened Longs
  import opened Lexer2Scan
  import opened Shapes

  /** `w` occurs in `data` at position p. */
  predicate Occurs(data: seq<char>, p: nat, w: string) {
    p + |w| <= |data| && data[p..p + |w|] == w
  }

  lemma AtSplit(data: seq<char>, p: nat, a: string, b: string)
    requires Occurs(data, p, a + b)
    ensures Occurs(data, p, a) && Occurs(data, p + |a|, b)
  {
    assert data[p..p + |a|] == (a + b)[..|a|];
    assert data[p + |a|..p + |a| + |b|] == (a + b)[|a|..];
  }

  /** A lexer about to read at p in TEXT mode, before any token. */
  function TextAt(data: seq<char>, p: nat): LexState {
    LexState(data, p, None, TextMode)
  }

  /** A lexer about to read at p in TAG mode, before any token. */
  function TagAt(data: seq<char>, p: nat): LexState {
    LexState(data, p, None, TagMode)
  }

  /** Until EOF, what nextToken does depends on the cursor and the mode, not on the last token. */
  lemma NextIgnoresToken(ls: LexState)
    requires Valid(ls) && !AtEof(ls)
    ensures Next(ls) == Next(LexState(ls.data, ls.index, None, ls.mode))
  {
  }

  lemma NextText(data: seq<char>, p: nat, t: string)
    requires Occurs(data, p, t) && ValidText(t)
    requires p + |t| == |data| || data[p + |t|] == '{'
    ensures Next(TextAt(data, p)) == Ok(LexState(data, p + |t|, Some(Token2(Text, Str(t))), TextMode))
  {
    assert data[p] == t[0];
    RunEndUnique(data, p, p + |t|, '{');
  }

  lemma NextOpen(data: seq<char>, p: nat)
    requires p < |data| && data[p] == '{'
    ensures Next(TextAt(data, p)) == Ok(LexState(data, p + 1, Some(Token2(OpenBrackets, Chr('{'))), TextMode))
  {
  }

  lemma NextEnd(data: seq<char>)
    ensures Next(TextAt(data, |data|)) == Ok(LexState(data, |data|, Some(EOF_TOKEN), TextMode))
  {
  }

  lemma NextSpecial(data: seq<char>, p: nat)
    requires p < |data| && SpecialKind(data[p]).Some?
    ensures Next(TagAt(data, p)) ==
      Ok(LexState(data, p + 1, Some(Token2(SpecialKind(data[p]).value, Chr(data[p]))), TagMode))
  {
    SkipWsUnique(data, p, p);
  }

  /** One space before a token changes nothing but where the scan starts. */
  lemma NextSpace(data: seq<char>, p: nat)
    requires p + 1 < |data| && data[p] == ' ' && !IsWhitespace(data[p + 1])
    ensures Next(TagAt(data, p)) == Next(TagAt(data, p + 1))
  {
    SkipWsUnique(data, p, p + 1);
    SkipWsUnique(data, p + 1, p + 1);
  }

  /** nextToken in TAG mode is one ScanTag. */
  lemma NextTag(data: seq<char>, p: nat)
    requires p < |data|
    ensures var sc := ScanTag(data, p);
      Next(TagAt(data, p)) == if sc.result.Ok? then Ok(LexState(data, sc.next, Some(sc.result.value), TagMode))
                              else Err(sc.result.error)
  {
  }

  lemma ScanTagLetter(data: seq<char>, p: nat)
    requires p < |data| && IsLetter(data[p])
    ensures ScanTag(data, p) == ScanName(data, p)
  {
    SkipWsUnique(data, p, p);
  }

  lemma ScanTagDigit(data: seq<char>, p: nat)
    requires p < |data| && IsDigit(data[p])
    ensures ScanTag(data, p) == ScanNumber(data, p)
  {
    SkipWsUnique(data, p, p);
  }

  lemma ScanTagQuote(data: seq<char>, p: nat)
    requires p < |data| && data[p] == '"'
    ensures ScanTag(data, p) == ScanQuoted(data, p)
  {
    SkipWsUnique(data, p, p);
  }

  lemma ScanTagOperator(data: seq<char>, p: nat)
    requires p < |data| && IsOperator(data[p])
    ensures ScanTag(data, p) == ScanOperator(data, p)
  {
    SkipWsUnique(data, p, p);
  }

  lemma NextWord(data: seq<char>, p: nat, w: string)
    requires Occurs(data, p, w) && ValidName(w)
    requires p + |w| < |data| && !IsNameChar(data[p + |w|])
    ensures Next(TagAt(data, p)) ==
      Ok(LexState(data, p + |w|, Some(Token2(if IsKeyword(w) then Keyword else Var, Str(w))), TagMode))
  {
    assert data[p] == w[0];
    assert forall k :: p + 1 <= k < p + |w| ==> data[k] == w[k - p];
    NameEndUnique(data, p + 1, p + |w|);
    NextTag(data, p);
    ScanTagLetter(data, p);
  }

  /** A run of digits s, not followed by a digit or '.', is the INTEGER Long.parseLong(s). */
  lemma ScanDigits(data: seq<char>, p: nat, s: string, n: int)
    requires |s| > 0 && AllDigits(s) && Occurs(data, p, s) && ParseLong(s) == Some(n)
    requires p + |s| < |data| && data[p + |s|] == ' '
    ensures p < |data| && IsDigit(data[p])
    ensures ScanNumber(data, p) == Scan(Ok(Token2(Integer, Long(n))), p + |s|)
  {
    assert forall k :: p <= k < p + |s| ==> data[k] == s[k - p];
    DigitsEndUnique(data, p + 1, p + |s|);
  }

  lemma NextDigits(data: seq<char>, p: nat, s: string, n: int)
    requires |s| > 0 && AllDigits(s) && ParseLong(s) == Some(n) && Occurs(data, p, s + " ")
    ensures Next(TagAt(data, p)) == Ok(LexState(data, p + |s|, Some(Token2(Integer, Long(n))), TagMode))
  {
    AtSplit(data, p, s, " ");
    assert data[p + |s|] == ' ';
    ScanDigits(data, p, s, n);
    NextTag(data, p);
    ScanTagDigit(data, p);
  }

  /** '-' and a run of digits s, not followed by a digit, is the INTEGER Long.parseLong("-" + s). */
  lemma ScanMinusDigits(data: seq<char>, p: nat, s: string, n: int)
    requires |s| > 0 && AllDigits(s) && Occurs(data, p, "-" + s) && ParseLong("-" + s) == Some(n)
    requires p + 1 + |s| < |data| && data[p + 1 + |s|] == ' '
    ensures p < |data| && IsOperator(data[p])
    ensures ScanOperator(data, p) == Scan(Ok(Token2(Integer, Long(n))), p + 1 + |s|)
  {
    MinusRun(data, p, s);
    var w := "-" + s;
    assert data[p..p + 1 + |s|] == w;
  }

  /** Where the run of digits after '-' ends. */
  lemma MinusRun(data: seq<char>, p: nat, s: string)
    requires |s| > 0 && AllDigits(s) && Occurs(data, p, "-" + s)
    requires p + 1 + |s| < |data| && data[p + 1 + |s|] == ' '
    ensures data[p] == '-' && IsDigit(data[p + 1]) && DigitsEnd(data, p + 2) == p + 1 + |s|
  {
    assert data[p] == '-' && data[p + 1] == s[0];
    assert forall k :: p + 1 <= k < p + 1 + |s| ==> data[k] == s[k - p - 1];
    DigitsEndUnique(data, p + 2, p + 1 + |s|);
  }

  lemma NextMinusDigits(data: seq<char>, p: nat, s: string, n: int, w: string)
    requires p < |data| && MinusLexeme(w, s, n) && Occurs(data, p, w + " ")
    ensures Next(TagAt(data, p)) == Ok(LexState(data, p + |w|, Some(Token2(Integer, Long(n))), TagMode))
  {
    AtSplit(data, p, "-" + s, " ");
    assert data[p + 1 + |s|] == ' ';
    ScanMinusDigits(data, p, s, n);
    NextTag(data, p);
    ScanTagOperator(data, p);
    assert p + |w| == p + 1 + |s|;
  }

  /** A Long.parseLong lexeme followed by a space reads back as the INTEGER it denotes. */
  lemma NextLexeme(data: seq<char>, p: nat, w: string, n: int)
    requires p < |data| && LongLexeme(w, n) && Occurs(data, p, w + " ")
    ensures Next(TagAt(data, p)) == Ok(LexState(data, p + |w|, Some(Token2(Integer, Long(n))), TagMode))
  {
    if w[0] == '-' {
      var d := w[1..];
      assert w == "-" + d;
      NextMinusDigits(data, p, d, n, w);
    } else {
      NextDigits(data, p, w, n);
    }
  }

  /** Long.toString(n) followed by a space reads back as the INTEGER n. */
  lemma NextLong(data: seq<char>, p: nat, n: int)
    requires p < |data| && InLongRange(n) && Occurs(data, p, LongToString(n) + " ")
    ensures Next(TagAt(data, p)) ==
      Ok(LexState(data, p + |LongToString(n)|, Some(Token2(Integer, Long(n))), TagMode))
  {
    LongToStringLexeme(n);
    NextLexeme(data, p, LongToString(n), n);
  }

  lemma ScanDoubleLexeme(data: seq<char>, p: nat, lexeme: string)
    requires ValidDoubleLexeme(lexeme) && Occurs(data, p, lexeme + " ")
    ensures p < |data| && IsDigit(data[p])
    ensures ScanNumber(data, p) == Scan(Ok(Token2(Double, Dbl(lexeme))), p + |lexeme|)
  {
    AtSplit(data, p, lexeme, " ");
    var k := DigitsEnd(lexeme, 0);
    assert forall i :: p <= i < p + |lexeme| ==> data[i] == lexeme[i - p];
    assert data[p + |lexeme|] == ' ';
    DigitsEndUnique(data, p + 1, p + k);
    DigitsEndUnique(data, p + k + 1, p + |lexeme|);
  }

  lemma NextDouble(data: seq<char>, p: nat, lexeme: string)
    requires ValidDoubleLexeme(lexeme) && Occurs(data, p, lexeme + " ")
    ensures Next(TagAt(data, p)) ==
      Ok(LexState(data, p + |lexeme|, Some(Token2(Double, Dbl(lexeme))), TagMode))
  {
    ScanDoubleLexeme(data, p, lexeme);
    NextTag(data, p);
    ScanTagDigit(data, p);
  }

  lemma ScanQuotedRun(data: seq<char>, p: nat, t: string)
    requires QuotedRun(t) && Occurs(data, p, "\"" + t + "\"")
    ensures p < |data| && data[p] == '"'
    ensures ScanQuoted(data, p) == Scan(Ok(Token2(Text, Str(t))), p + |t| + 2)
  {
    AtSplit(data, p, "\"" + t, "\"");
    AtSplit(data, p, "\"", t);
    assert data[p] == '"' && data[p + 1 + |t|] == '"';
    RunEndUnique(data, p + 1, p + 1 + |t|, '"');
  }

  lemma NextQuoted(data: seq<char>, p: nat, t: string)
    requires QuotedRun(t) && Occurs(data, p, "\"" + t + "\"")
    ensures Next(TagAt(data, p)) ==
      Ok(LexState(data, p + |t| + 2, Some(Token2(Text, Str(t))), TagMode))
  {
    ScanQuotedRun(data, p, t);
    NextTag(data, p);
    ScanTagQuote(data, p);
  }

  lemma NextOperator(data: seq<char>, p: nat)
    requires p + 1 < |data| && IsOperator(data[p]) && data[p + 1] == ' '
    ensures Next(TagAt(data, p)) == Ok(LexState(data, p + 1, Some(Token2(Operator, Chr(data[p]))), TagMode))
  {
    SkipWsUnique(data, p, p);
  }
}

/**
 * The tokens the parser's nextToken calls return on the pieces the
 * serializer writes inside a tag: each piece is a space and a word,
 * number, string, function name or operator, and the tag ends with "$}".
 */
module Retokens {
  import opened Wrappers
  import opened Chars
  import opened Longs
  import opened Lexer2Scan
  import opened Shapes
  import opened ParserSpec
  import opened Relex

  /** The state of the lexer once a TAG-mode token has been read, ending at p. */
  function TagTok(data: seq<char>, p: nat, t: Token2): LexState {
    LexState(data, p, Some(t), TagMode)
  }

  const DOLLAR: Token2 := Token2(Dollar, Chr('$'))
  const CLOSE: Token2 := Token2(CloseBrackets, Chr('}'))

  /** Before EOF, the next token depends only on the cursor. */
  lemma Tok(data: seq<char>, p: nat, t: Token2)
    requires p <= |data| && TokenWF(t) && t.kind != Eof
    ensures NextP(TagTok(data, p, t)) == NextP(TagAt(data, p))
  {
    NextIgnoresToken(TagTok(data, p, t));
  }

  /** The same in TEXT mode. */
  lemma TextTok(data: seq<char>, p: nat, t: Token2)
    requires p <= |data| && TokenWF(t) && t.kind != Eof
    ensures NextP(LexState(data, p, Some(t), TextMode)) == NextP(TextAt(data, p))
  {
    NextIgnoresToken(LexState(data, p, Some(t), TextMode));
  }

  lemma AtJoin(data: seq<char>, p: nat, a: string, b: string)
    requires Occurs(data, p, a) && Occurs(data, p + |a|, b)
    ensures Occurs(data, p, a + b)
  {
    assert data[p..p + |a| + |b|] == data[p..p + |a|] + data[p + |a|..p + |a| + |b|];
  }

  /** A space, `w`, and the character at the end. */
  lemma SpacedSplit(data: seq<char>, p: nat, w: string)
    requires Occurs(data, p, " " + w) && p + 1 + |w| < |data|
    ensures data[p] == ' ' && Occurs(data, p + 1, w)
    ensures Occurs(data, p + 1, w + [data[p + 1 + |w|]])
    ensures |w| > 0 ==> data[p + 1] == w[0]
  {
    AtSplit(data, p, " ", w);
    assert data[p..p + 1] == " ";
    assert data[p + 1 + |w|..p + 1 + |w| + 1] == [data[p + 1 + |w|]];
    AtJoin(data, p + 1, w, [data[p + 1 + |w|]]);
    if |w| > 0 {
      assert data[p + 1..p + 1 + |w|][0] == w[0];
    }
  }

  /** A space before a token that is not whitespace is skipped. */
  lemma AfterSpace(data: seq<char>, p: nat, r: LexState)
    requires p + 1 < |data| && data[p] == ' ' && !IsWhitespace(data[p + 1])
    requires Next(TagAt(data, p + 1)) == Ok(r)
    ensures NextP(TagAt(data, p)) == Ok(r)
  {
    NextSpace(data, p);
  }

  lemma SpacedLong(data: seq<char>, p: nat, n: int)
    requires InLongRange(n) && Occurs(data, p, " " + LongToString(n))
    requires p + 1 + |LongToString(n)| < |data| && data[p + 1 + |LongToString(n)|] == ' '
    ensures NextP(TagAt(data, p)) == Ok(TagTok(data, p + 1 + |LongToString(n)|, Token2(Integer, Long(n))))
  {
    LongToStringLexeme(n);
    SpacedLexeme(data, p, LongToString(n), n);
  }

  /** A space and the lexeme of a long, followed by a space. */
  lemma SpacedLexeme(data: seq<char>, p: nat, w: string, n: int)
    requires LongLexeme(w, n) && Occurs(data, p, " " + w)
    requires p + 1 + |w| < |data| && data[p + 1 + |w|] == ' '
    ensures NextP(TagAt(data, p)) == Ok(TagTok(data, p + 1 + |w|, Token2(Integer, Long(n))))
  {
    SpacedSplit(data, p, w);
    assert w + [data[p + 1 + |w|]] == w + " ";
    LexemeHead(w, n);
    NextLexeme(data, p + 1, w, n);
    var r := TagTok(data, p + 1 + |w|, Token2(Integer, Long(n)));
    assert Next(TagAt(data, p + 1)) == Ok(r);
    AfterSpace(data, p, r);
  }

  /** The lexeme of a long starts with '-' or a digit. */
  lemma LexemeHead(w: string, n: int)
    requires LongLexeme(w, n)
    ensures !IsWhitespace(w[0])
  {
    if w[0] != '-' {
      assert IsDigit(w[0]);
    }
  }

  lemma SpacedIdent(data: seq<char>, p: nat, w: string)
    requires ValidIdent(w) && Occurs(data, p, " " + w)
    requires p + 1 + |w| < |data| && !IsNameChar(data[p + 1 + |w|])
    ensures NextP(TagAt(data, p)) == Ok(TagTok(data, p + 1 + |w|, Token2(Var, Str(w))))
  {
    SpacedSplit(data, p, w);
    NextWord(data, p + 1, w);
    AfterSpace(data, p, TagTok(data, p + 1 + |w|, Token2(Var, Str(w))));
  }

  lemma SpacedDouble(data: seq<char>, p: nat, lexeme: string)
    requires ValidDoubleLexeme(lexeme) && Occurs(data, p, " " + lexeme)
    requires p + 1 + |lexeme| < |data| && data[p + 1 + |lexeme|] == ' '
    ensures NextP(TagAt(data, p)) == Ok(TagTok(data, p + 1 + |lexeme|, Token2(Double, Dbl(lexeme))))
  {
    SpacedSplit(data, p, lexeme);
    assert lexeme + [data[p + 1 + |lexeme|]] == lexeme + " ";
    assert IsDigit(lexeme[0]);
    NextDouble(data, p + 1, lexeme);
    AfterSpace(data, p, TagTok(data, p + 1 + |lexeme|, Token2(Double, Dbl(lexeme))));
  }

  lemma SpacedQuoted(data: seq<char>, p: nat, t: string, q: nat)
    requires QuotedRun(t) && Occurs(data, p, " " + ("\"" + t + "\""))
    requires q == p + 3 + |t| && q < |data|
    ensures NextP(TagAt(data, p)) == Ok(TagTok(data, q, Token2(Text, Str(t))))
  {
    SpacedSplit(data, p, "\"" + t + "\"");
    NextQuoted(data, p + 1, t);
    AfterSpace(data, p, TagTok(data, q, Token2(Text, Str(t))));
  }

  lemma SpacedOperator(data: seq<char>, p: nat, c: char)
    requires IsOperator(c) && Occurs(data, p, " " + [c])
    requires p + 2 < |data| && data[p + 2] == ' '
    ensures NextP(TagAt(data, p)) == Ok(TagTok(data, p + 2, Token2(Operator, Chr(c))))
  {
    SpacedSplit(data, p, [c]);
    NextSpace(data, p);
    NextOperator(data, p + 1);
  }

  /** A name right after '@'. */
  lemma NameAfterAt(data: seq<char>, p: nat, w: string)
    requires ValidIdent(w) && Occurs(data, p, w)
    requires p + |w| < |data| && !IsNameChar(data[p + |w|])
    ensures NextP(TagTok(data, p, Token2(At, Chr('@')))) == Ok(TagTok(data, p + |w|, Token2(Var, Str(w))))
  {
    assert data[p + |w|..p + |w| + 1] == [data[p + |w|]];
    Tok(data, p, Token2(At, Chr('@')));
    NextWord(data, p, w);
  }

  /** " @name": the '@' token, then the name right after it. */
  lemma SpacedFunction(data: seq<char>, p: nat, w: string)
    requires ValidIdent(w) && Occurs(data, p, " " + ("@" + w))
    requires p + 2 + |w| < |data| && !IsNameChar(data[p + 2 + |w|])
    ensures NextP(TagAt(data, p)) == Ok(TagTok(data, p + 2, Token2(At, Chr('@'))))
    ensures NextP(TagTok(data, p + 2, Token2(At, Chr('@')))) == Ok(TagTok(data, p + 2 + |w|, Token2(Var, Str(w))))
  {
    SpacedSplit(data, p, "@" + w);
    AtSplit(data, p + 1, "@", w);
    NextSpace(data, p);
    NextSpecial(data, p + 1);
    NameAfterAt(data, p + 2, w);
  }

  /** "$}" ends a tag. */
  lemma DollarClose(data: seq<char>, p: nat)
    requires Occurs(data, p, "$}")
    ensures NextP(TagAt(data, p)) == Ok(TagTok(data, p + 1, DOLLAR))
    ensures NextP(TagTok(data, p + 1, DOLLAR)) == Ok(TagTok(data, p + 2, CLOSE))
  {
    assert data[p] == '$' && data[p + 1] == '}';
    NextSpecial(data, p);
    Tok(data, p + 1, DOLLAR);
    NextSpecial(data, p + 1);
  }

  /** " $}" ends a tag too. */
  lemma SpacedDollarClose(data: seq<char>, p: nat)
    requires Occurs(data, p, " $}")
    ensures NextP(TagAt(data, p)) == Ok(TagTok(data, p + 2, DOLLAR))
    ensures NextP(TagTok(data, p + 2, DOLLAR)) == Ok(TagTok(data, p + 3, CLOSE))
  {
    AtSplit(data, p, " ", "$}");
    assert data[p] == ' ' && data[p + 1] == '$';
    NextSpace(data, p);
    DollarClose(data, p + 1);
  }
}

/**
 * How the parser reads back the FOR header and the END tag that
 * getForLoopText and createOriginalDocumentBody write.
 */
module ForPieces {
  import opened Wrappers
  import opened Chars
  import opened Longs
  import opened Lexer2Scan
  import opened Nodes
  import opened Shapes
  import opened ParserSpec
  import opened Serializer
  import opened Relex
  import opened Retokens
  import opened ParseSteps
  import opened RoundTrip

  lemma ForShape(v: string, a: string, b: string, c: string)
    ensures "{$FOR " + v + " " + a + " " + b + " " + c + " $}" ==
      "{$FOR" + (" " + v) + (" " + a) + (" " + b) + (" " + c) + " $}"
    ensures ("{$FOR" + (" " + v))[1..6] == "$FOR "
  {
  }

  /** A piece w at p that starts with a space: the space is at p. */
  lemma SpaceAt(data: seq<char>, p: nat, w: string)
    requires Occurs(data, p, " " + w)
    ensures p < |data| && data[p] == ' ' && !IsNameChar(data[p])
  {
    OccursHead(data, p, " " + w);
  }

  /** Where the parts of a FOR header are, for a header written at q. */
  lemma ForParts(data: seq<char>, q: nat, v: string, a: string, b: string, c: string)
    requires |v| > 0 && Occurs(data, q, "{$FOR " + v + " " + a + " " + b + " " + c + " $}")
    ensures Occurs(data, q + 1, "$FOR ")
    ensures Occurs(data, q + 5, " " + v)
    ensures Occurs(data, q + 6 + |v|, " " + a)
    ensures Occurs(data, q + 7 + |v| + |a|, " " + b)
    ensures Occurs(data, q + 8 + |v| + |a| + |b|, " " + c)
    ensures Occurs(data, q + 9 + |v| + |a| + |b| + |c|, " $}")
  {
    ForShape(v, a, b, c);
    var h0 := "{$FOR";
    var h1 := h0 + (" " + v);
    var h2 := h1 + (" " + a);
    var h3 := h2 + (" " + b);
    var h4 := h3 + (" " + c);
    AtSplit(data, q, h4, " $}");
    AtSplit(data, q, h3, " " + c);
    AtSplit(data, q, h2, " " + b);
    AtSplit(data, q, h1, " " + a);
    AtSplit(data, q, h0, " " + v);
    assert data[q + 1..q + 6] == h1[1..6];
  }

  const FOR_KEYWORD: Token2 := Token2(Keyword, Str("FOR"))

  /** After any token ending at p, " " + Long.toString(n) and a space: the INTEGER n. */
  lemma LongAfter(data: seq<char>, p: nat, t: Token2, n: int, a: string, p2: nat)
    requires TokenWF(t) && t.kind != Eof && InLongRange(n) && a == LongToString(n)
    requires Occurs(data, p, " " + a) && p2 == p + 1 + |a| && p2 < |data| && data[p2] == ' '
    ensures NextP(TagTok(data, p, t)) == Ok(TagTok(data, p2, Token2(Integer, Long(n))))
  {
    Tok(data, p, t);
    SpacedLong(data, p, n);
  }

  /** After any token ending at p, " " + v and a space: the variable v. */
  lemma IdentAfter(data: seq<char>, p: nat, t: Token2, v: string, p2: nat)
    requires TokenWF(t) && t.kind != Eof && ValidIdent(v)
    requires Occurs(data, p, " " + v) && p2 == p + 1 + |v| && p2 < |data| && data[p2] == ' '
    ensures NextP(TagTok(data, p, t)) == Ok(TagTok(data, p2, Token2(Var, Str(v))))
  {
    Tok(data, p, t);
    SpacedIdent(data, p, v);
  }

  /** After any token ending at p, " $}": '$' and '}'. */
  lemma CloseAfter(data: seq<char>, p: nat, t: Token2)
    requires TokenWF(t) && t.kind != Eof && Occurs(data, p, " $}")
    ensures NextP(TagTok(data, p, t)) == Ok(TagTok(data, p + 2, DOLLAR))
    ensures NextP(TagTok(data, p + 2, DOLLAR)) == Ok(TagTok(data, p + 3, CLOSE))
  {
    Tok(data, p, t);
    SpacedDollarClose(data, p);
  }

  /** Where the parts of a FOR header are, and the spaces between them. */
  lemma ForLayout(data: seq<char>, q: nat, v: string, a: string, b: string, c: string,
                  a1: nat, a2: nat, a3: nat, a4: nat)
    requires |v| > 0 && Occurs(data, q, "{$FOR " + v + " " + a + " " + b + " " + c + " $}")
    requires a1 == q + 6 + |v| && a2 == a1 + 1 + |a| && a3 == a2 + 1 + |b| && a4 == a3 + 1 + |c|
    ensures Occurs(data, q + 1, "$FOR ")
    ensures Occurs(data, q + 5, " " + v) && Occurs(data, a1, " " + a) && Occurs(data, a2, " " + b)
    ensures Occurs(data, a3, " " + c) && Occurs(data, a4, " $}")
    ensures a1 < |data| && data[a1] == ' ' && a2 < |data| && data[a2] == ' '
    ensures a3 < |data| && data[a3] == ' ' && a4 < |data| && data[a4] == ' '
  {
    ForParts(data, q, v, a, b, c);
    SpaceAt(data, a1, a);
    SpaceAt(data, a2, b);
    SpaceAt(data, a3, c);
    SpaceAt(data, a4, "$}");
  }

  /** The tokens of a FOR header after the keyword, read at q + 5. */
  lemma ForTokens(data: seq<char>, q: nat, v: string, s: int, en: int, st: int,
                  a: string, b: string, c: string, a1: nat, a2: nat, a3: nat, a4: nat)
    requires ValidIdent(v) && InLongRange(s) && InLongRange(en) && InLongRange(st)
    requires a == LongToString(s) && b == LongToString(en) && c == LongToString(st)
    requires Occurs(data, q, "{$FOR " + v + " " + a + " " + b + " " + c + " $}")
    requires a1 == q + 6 + |v| && a2 == a1 + 1 + |a| && a3 == a2 + 1 + |b| && a4 == a3 + 1 + |c|
    ensures IsKeyword("FOR")
    ensures NextP(TagTok(data, q + 5, FOR_KEYWORD)) == Ok(TagTok(data, a1, Token2(Var, Str(v))))
    ensures ForLoopNodeSpec(TagTok(data, a1, Token2(Var, Str(v)))) ==
      Ok(Piece(ForLoopNode(v, s, en, st, []), TagTok(data, a4 + 3, CLOSE)))
  {
    UpperCaseWords();
    ForLayout(data, q, v, a, b, c, a1, a2, a3, a4);
    IdentAfter(data, q + 5, FOR_KEYWORD, v, a1);
    LongAfter(data, a1, Token2(Var, Str(v)), s, a, a2);
    LongAfter(data, a2, Token2(Integer, Long(s)), en, b, a3);
    LongAfter(data, a3, Token2(Integer, Long(en)), st, c, a4);
    CloseAfter(data, a4, Token2(Integer, Long(st)));
    ForLoopNodeFrom(TagTok(data, a1, Token2(Var, Str(v))), TagTok(data, a2, Token2(Integer, Long(s))),
      TagTok(data, a3, Token2(Integer, Long(en))), TagTok(data, a4, Token2(Integer, Long(st))),
      TagTok(data, a4 + 2, DOLLAR), TagTok(data, a4 + 3, CLOSE), v, s, en, st);
  }

  /** The FOR tag after its keyword: the new node goes on the stack, and the tag ends at a4 + 3. */
  lemma ForRead(data: seq<char>, q: nat, v: string, s: int, en: int, st: int, stack: seq<Node>,
                a: string, b: string, c: string, a1: nat, a2: nat, a3: nat, a4: nat)
    requires ValidIdent(v) && InLongRange(s) && InLongRange(en) && InLongRange(st)
    requires a == LongToString(s) && b == LongToString(en) && c == LongToString(st)
    requires Occurs(data, q, "{$FOR " + v + " " + a + " " + b + " " + c + " $}")
    requires a1 == q + 6 + |v| && a2 == a1 + 1 + |a| && a3 == a2 + 1 + |b| && a4 == a3 + 1 + |c|
    requires |stack| > 0 && StackShape(stack)
    ensures IsKeyword("FOR")
    ensures AfterTag(TagTok(data, a4 + 3, CLOSE), stack + [ForLoopNode(v, s, en, st, [])]) ==
      ForTag(TagTok(data, q + 5, FOR_KEYWORD), stack)
  {
    ForTokens(data, q, v, s, en, st, a, b, c, a1, a2, a3, a4);
    ForTagFrom(TagTok(data, q + 5, FOR_KEYWORD), stack, TagTok(data, a1, Token2(Var, Str(v))),
      Piece(ForLoopNode(v, s, en, st, []), TagTok(data, a4 + 3, CLOSE)));
  }

  /** The length of a FOR header. */
  lemma ForLength(v: string, s: int, en: int, st: int)
    ensures |ForLoopText(v, s, en, st)| ==
      12 + |v| + |LongToString(s)| + |LongToString(en)| + |LongToString(st)|
  {
  }

  /** A FOR header after its '{': the tag ends at a4 + 3 with the new node on the stack. */
  lemma ForAfterOpen(data: seq<char>, q: nat, v: string, s: int, en: int, st: int, stack: seq<Node>,
                     a: string, b: string, c: string, a1: nat, a2: nat, a3: nat, a4: nat)
    requires ValidIdent(v) && InLongRange(s) && InLongRange(en) && InLongRange(st)
    requires a == LongToString(s) && b == LongToString(en) && c == LongToString(st)
    requires Occurs(data, q, "{$FOR " + v + " " + a + " " + b + " " + c + " $}") && Occurs(data, q + 1, "$FOR ")
    requires a1 == q + 6 + |v| && a2 == a1 + 1 + |a| && a3 == a2 + 1 + |b| && a4 == a3 + 1 + |c|
    requires |stack| > 0 && StackShape(stack)
    ensures AfterTag(TagTok(data, a4 + 3, CLOSE), stack + [ForLoopNode(v, s, en, st, [])]) ==
      TagStep(TagTok(data, q + 1, OPEN), stack)
  {
    ForHead(data, q, stack);
    ForRead(data, q, v, s, en, st, stack, a, b, c, a1, a2, a3, a4);
  }

  /** The same, read from the text that precedes the tag. */
  lemma ForOpenTag(data: seq<char>, q: nat, v: string, s: int, en: int, st: int, stack: seq<Node>, q1: nat,
                   a: string, b: string, c: string, a1: nat, a2: nat, a3: nat, a4: nat)
    requires ValidIdent(v) && InLongRange(s) && InLongRange(en) && InLongRange(st)
    requires a == LongToString(s) && b == LongToString(en) && c == LongToString(st)
    requires Occurs(data, q, "{$FOR " + v + " " + a + " " + b + " " + c + " $}") && Occurs(data, q + 1, "$FOR ")
    requires a1 == q + 6 + |v| && a2 == a1 + 1 + |a| && a3 == a2 + 1 + |b| && a4 == a3 + 1 + |c|
    requires q < |data| && data[q] == '{' && |stack| > 0 && StackShape(stack) && q1 == a4 + 3
    ensures AfterText(TextAt(data, q), stack) ==
      AfterTag(TagTok(data, q1, CLOSE), stack + [ForLoopNode(v, s, en, st, [])])
  {
    OpenPiece(data, q, stack);
    ForAfterOpen(data, q, v, s, en, st, stack, a, b, c, a1, a2, a3, a4);
  }

  /** Where a FOR header written at q starts and ends. */
  lemma ForHeaderLayout(data: seq<char>, q: nat, v: string, s: int, en: int, st: int, q1: nat,
                        a: string, b: string, c: string, a1: nat, a2: nat, a3: nat, a4: nat)
    requires ValidIdent(v) && Occurs(data, q, ForLoopText(v, s, en, st)) && q1 == q + |ForLoopText(v, s, en, st)|
    requires a == LongToString(s) && b == LongToString(en) && c == LongToString(st)
    requires a1 == q + 6 + |v| && a2 == a1 + 1 + |a| && a3 == a2 + 1 + |b| && a4 == a3 + 1 + |c|
    ensures q1 == a4 + 3 && q1 <= |data| && q < |data| && data[q] == '{'
    ensures Occurs(data, q, "{$FOR " + v + " " + a + " " + b + " " + c + " $}") && Occurs(data, q + 1, "$FOR ")
  {
    ForLength(v, s, en, st);
    ForParts(data, q, v, a, b, c);
    OccursHead(data, q, ForLoopText(v, s, en, st));
  }

  /** A FOR header at q, read after a text, up to its "}". */
  lemma ForHeaderOpen(data: seq<char>, q: nat, v: string, s: int, en: int, st: int, stack: seq<Node>, q1: nat,
                      a: string, b: string, c: string, a1: nat, a2: nat, a3: nat, a4: nat)
    requires ValidIdent(v) && InLongRange(s) && InLongRange(en) && InLongRange(st)
    requires Occurs(data, q, ForLoopText(v, s, en, st)) && q1 == q + |ForLoopText(v, s, en, st)|
    requires a == LongToString(s) && b == LongToString(en) && c == LongToString(st)
    requires a1 == q + 6 + |v| && a2 == a1 + 1 + |a| && a3 == a2 + 1 + |b| && a4 == a3 + 1 + |c|
    requires |stack| > 0 && StackShape(stack)
    ensures q1 <= |data|
    ensures AfterText(TextAt(data, q), stack) == AfterTag(TagTok(data, q1, CLOSE), stack + [ForLoopNode(v, s, en, st, [])])
  {
    ForHeaderLayout(data, q, v, s, en, st, q1, a, b, c, a1, a2, a3, a4);
    ForOpenTag(data, q, v, s, en, st, stack, q1, a, b, c, a1, a2, a3, a4);
  }

  /** A FOR header at q, read after a text: TEXT mode resumes at q1 with the new node on the stack. */
  lemma ForHeaderPiece(data: seq<char>, q: nat, v: string, s: int, en: int, st: int, stack: seq<Node>, q1: nat)
    requires ValidIdent(v) && InLongRange(s) && InLongRange(en) && InLongRange(st)
    requires Occurs(data, q, ForLoopText(v, s, en, st)) && q1 == q + |ForLoopText(v, s, en, st)|
    requires |stack| > 0 && StackShape(stack)
    ensures q1 <= |data|
    ensures AfterText(TextAt(data, q), stack) == AfterTag(TextAt(data, q1), stack + [ForLoopNode(v, s, en, st, [])])
  {
    var a, b, c := LongToString(s), LongToString(en), LongToString(st);
    ForHeaderOpen(data, q, v, s, en, st, stack, q1, a, b, c, q + 6 + |v|, q + 7 + |v| + |a|,
      q + 8 + |v| + |a| + |b|, q + 9 + |v| + |a| + |b| + |c|);
    TagClose(data, q1, stack + [ForLoopNode(v, s, en, st, [])]);
  }

  const END_KEYWORD: Token2 := Token2(Keyword, Str("END"))

  lemma EndShape()
    ensures END_TAG == "{" + "$END$" + "}" && END_TAG[0] == '{'
    ensures "$END$" + "}" == "$END" + "$}" && |END_TAG| == 7
  {
  }

  lemma EndLayout(data: seq<char>, q: nat)
    requires Occurs(data, q, END_TAG)
    ensures q + 7 <= |data| && data[q] == '{'
    ensures Occurs(data, q + 1, "$END$") && Occurs(data, q + 5, "$}")
  {
    EndShape();
    OccursHead(data, q, END_TAG);
    AtSplit(data, q, "{", "$END$" + "}");
    AtSplit(data, q + 1, "$END$", "}");
    AtSplit(data, q + 1, "$END", "$}");
  }

  /** The tokens after END: '$' and '}'. */
  lemma EndTokens(data: seq<char>, q: nat)
    requires q + 7 <= |data| && Occurs(data, q + 5, "$}")
    ensures IsKeyword("END") && Valid(TagTok(data, q + 5, END_KEYWORD))
    ensures NextP(TagTok(data, q + 5, END_KEYWORD)) == Ok(TagTok(data, q + 6, DOLLAR))
    ensures NextP(TagTok(data, q + 6, DOLLAR)) == Ok(TagTok(data, q + 7, CLOSE))
  {
    UpperCaseWords();
    Tok(data, q + 5, END_KEYWORD);
    DollarClose(data, q + 5);
  }

  /** The END tag after its keyword: "$}", and the top FOR node is closed. */
  lemma EndRead(data: seq<char>, q: nat, stack: seq<Node>)
    requires q + 7 <= |data| && Occurs(data, q + 5, "$}") && |stack| > 0 && StackShape(stack)
    ensures IsKeyword("END")
    ensures AfterTag(TagTok(data, q + 7, CLOSE), CloseTop(stack)) == EndTag(TagTok(data, q + 5, END_KEYWORD), stack)
  {
    EndTokens(data, q);
    EndTagFrom(TagTok(data, q + 5, END_KEYWORD), stack, TagTok(data, q + 6, DOLLAR), TagTok(data, q + 7, CLOSE));
  }

  /** "{$END$}" at q, read after a text: the top FOR node is closed, and TEXT mode resumes at q + 7. */
  lemma EndPiece(data: seq<char>, q: nat, stack: seq<Node>)
    requires Occurs(data, q, END_TAG) && |stack| > 0 && StackShape(stack)
    ensures q + 7 <= |data|
    ensures AfterText(TextAt(data, q), stack) == AfterTag(TextAt(data, q + 7), CloseTop(stack))
  {
    EndLayout(data, q);
    OpenPiece(data, q, stack);
    EndHead(data, q, stack);
    EndRead(data, q, stack);
    TagClose(data, q + 7, CloseTop(stack));
  }
}

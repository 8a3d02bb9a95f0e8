/**
 * The round trip of SmartScriptTester: parsing the text that
 * createOriginalDocumentBody writes for a tree the parser can build gives
 * that tree back. The proof follows the parse over the written text piece
 * by piece: after each piece the parse goes on exactly as a fresh parse of
 * the rest would, with the piece's node added to the stack.
 */
module RoundTrip {
  import opened Wrappers
  import opened Chars
  import opened Longs
  import opened Lexer2Scan
  import opened Nodes
  import opened Shapes
  import opened ParserSpec
  import opened Serializer
  import opened Relex
  import opened Retokens
  import opened ParseSteps

  /** The parse of a whole document is the parse of it from position 0, in TEXT mode. */
  lemma ParseFromStart(d: string)
    ensures ParseDocument(Some(d)) == AfterTag(TextAt(d, 0), [DocumentNode([])])
  {
  }

  /** At the end of the input, the parse returns the only node on the stack. */
  lemma EndOfInput(data: seq<char>, stack: seq<Node>)
    requires |stack| == 1 && StackShape(stack)
    ensures AfterTag(TextAt(data, |data|), stack) == Ok(stack[0])
    ensures AfterText(TextAt(data, |data|), stack) == Ok(stack[0])
  {
    NextEnd(data);
  }

  /** The TEXT token for a text piece t that ends at e. */
  function TextTokenAt(data: seq<char>, e: nat, t: string): LexState {
    LexState(data, e, Some(Token2(Text, Str(t))), TextMode)
  }

  lemma TextRead(data: seq<char>, p: nat, t: string, stack: seq<Node>, e: nat)
    requires Occurs(data, p, t) && ValidText(t) && e == p + |t|
    requires e == |data| || data[e] == '{'
    requires StackShape(stack)
    ensures AfterTag(TextAt(data, p), stack) == ParseLoop(TextTokenAt(data, e, t), stack)
  {
    NextText(data, p, t);
    AfterTagFrom(TextAt(data, p), stack, TextTokenAt(data, e, t));
  }

  lemma TextAttach(data: seq<char>, t: string, stack: seq<Node>, e: nat)
    requires e <= |data| && t != [] && |stack| > 0 && StackShape(stack)
    ensures ParseLoop(TextTokenAt(data, e, t), stack) == AfterText(TextAt(data, e), AttachTop(stack, TextNode(t)))
  {
    LoopText(TextTokenAt(data, e, t), stack);
    TextTok(data, e, Token2(Text, Str(t)));
    AfterTextSame(TextTokenAt(data, e, t), TextAt(data, e), AttachTop(stack, TextNode(t)));
  }

  /** A text piece ending at e becomes a TextNode of the top container. */
  lemma TextPiece(data: seq<char>, p: nat, t: string, stack: seq<Node>, e: nat)
    requires Occurs(data, p, t) && ValidText(t) && e == p + |t|
    requires e == |data| || data[e] == '{'
    requires |stack| > 0 && StackShape(stack)
    ensures AfterTag(TextAt(data, p), stack) == AfterText(TextAt(data, e), AttachTop(stack, TextNode(t)))
  {
    TextRead(data, p, t, stack, e);
    TextAttach(data, t, stack, e);
  }

  const OPEN: Token2 := Token2(OpenBrackets, Chr('{'))

  /** "{" read in TEXT mode switches to TAG mode and starts a turn of TagStep. */
  lemma OpenPiece(data: seq<char>, q: nat, stack: seq<Node>)
    requires q < |data| && data[q] == '{' && StackShape(stack)
    ensures AfterText(TextAt(data, q), stack) == TagStep(TagTok(data, q + 1, OPEN), stack)
  {
    NextOpen(data, q);
    AfterTextOpen(TextAt(data, q), stack, LexState(data, q + 1, Some(OPEN), TextMode));
  }

  /** "{$": the '$' right after the '{'. */
  lemma TagOpen(data: seq<char>, q: nat)
    requires q + 1 < |data| && data[q + 1] == '$'
    ensures NextP(TagTok(data, q + 1, OPEN)) == Ok(TagTok(data, q + 2, DOLLAR))
  {
    NextIgnoresToken(TagTok(data, q + 1, OPEN));
    NextSpecial(data, q + 1);
  }

  /** The end of a tag, "$}" already read at p: the parse goes on in TEXT mode from p. */
  lemma TagClose(data: seq<char>, p: nat, stack: seq<Node>)
    requires p <= |data| && StackShape(stack)
    ensures AfterTag(TagTok(data, p, CLOSE), stack) == AfterTag(TextAt(data, p), stack)
  {
    NextIgnoresToken(TagTok(data, p, CLOSE).(mode := TextMode));
    AfterTagSame(TagTok(data, p, CLOSE), TextAt(data, p), stack);
  }

  const EQUALS: Token2 := Token2(Equals, Chr('='))

  /** "{$=" starts an echo tag. */
  lemma EchoHead(data: seq<char>, q: nat, stack: seq<Node>)
    requires q + 3 <= |data| && data[q + 1] == '$' && data[q + 2] == '=' && StackShape(stack)
    ensures TagStep(TagTok(data, q + 1, OPEN), stack) == EchoTag(TagTok(data, q + 3, EQUALS), stack)
  {
    TagOpen(data, q);
    NextIgnoresToken(TagTok(data, q + 2, DOLLAR));
    NextSpecial(data, q + 2);
    TagStepEcho(TagTok(data, q + 1, OPEN), TagTok(data, q + 2, DOLLAR), TagTok(data, q + 3, EQUALS), stack);
  }

  /** A keyword after "{$": FOR or END, ended by c. */
  lemma KeywordAfterDollar(data: seq<char>, q: nat, w: string, c: char)
    requires w == "FOR" || w == "END"
    requires Occurs(data, q + 1, "$" + w + [c]) && !IsNameChar(c)
    ensures IsKeyword(w)
    ensures NextP(TagTok(data, q + 2, DOLLAR)) == Ok(TagTok(data, q + 5, Token2(Keyword, Str(w))))
  {
    KeywordText(data, q, w, c);
    UpperCaseWords();
    NextWord(data, q + 2, w);
    Tok(data, q + 2, DOLLAR);
  }

  lemma KeywordText(data: seq<char>, q: nat, w: string, c: char)
    requires w == "FOR" || w == "END"
    requires Occurs(data, q + 1, "$" + w + [c])
    ensures Occurs(data, q + 2, w) && q + 5 < |data| && data[q + 5] == c && ValidName(w)
  {
    AtSplit(data, q + 1, "$", w + [c]);
    AtSplit(data, q + 2, w, [c]);
    assert data[q + 5] == c;
    assert w[0] == 'F' || w[0] == 'E';
  }

  /** "{$FOR " starts a FOR tag. */
  lemma ForHead(data: seq<char>, q: nat, stack: seq<Node>)
    requires Occurs(data, q + 1, "$FOR ") && StackShape(stack)
    ensures IsKeyword("FOR")
    ensures TagStep(TagTok(data, q + 1, OPEN), stack) == ForTag(TagTok(data, q + 5, Token2(Keyword, Str("FOR"))), stack)
  {
    assert "$FOR " == "$" + "FOR" + [' '];
    assert data[q + 1] == '$';
    KeywordAfterDollar(data, q, "FOR", ' ');
    TagOpen(data, q);
    TagStepFor(TagTok(data, q + 1, OPEN), TagTok(data, q + 2, DOLLAR), TagTok(data, q + 5, Token2(Keyword, Str("FOR"))), stack);
  }

  /** "{$END$" starts an END tag. */
  lemma EndHead(data: seq<char>, q: nat, stack: seq<Node>)
    requires Occurs(data, q + 1, "$END$") && StackShape(stack)
    ensures IsKeyword("END")
    ensures TagStep(TagTok(data, q + 1, OPEN), stack) == EndTag(TagTok(data, q + 5, Token2(Keyword, Str("END"))), stack)
  {
    assert "$END$" == "$" + "END" + ['$'];
    assert data[q + 1] == '$';
    KeywordAfterDollar(data, q, "END", '$');
    TagOpen(data, q);
    TagStepEnd(TagTok(data, q + 1, OPEN), TagTok(data, q + 2, DOLLAR), TagTok(data, q + 5, Token2(Keyword, Str("END"))), stack);
  }

  // ---------------------------------------------------------------------------
  // Echo tags.

  /** The loop of getEchoNode started on the token that begins at p. */
  function EchoFrom(data: seq<char>, p: nat, acc: seq<Element>): Result<Piece, ParseError>
    requires p <= |data|
  {
    match NextP(TagAt(data, p))
    case Err(e) => Err(e)
    case Ok(l) => EchoLoop(l, acc)
  }

  /** What one turn of the echo loop gives when the token after the element starts at p. */
  function ItemThen(data: seq<char>, p: nat, e: Element): Result<EchoItem, ParseError>
    requires p <= |data|
  {
    match NextP(TagAt(data, p))
    case Err(x) => Err(x)
    case Ok(l1) => Ok(Item(e, l1))
  }

  lemma ItemStep(data: seq<char>, p: nat, l: LexState, e: Element, p': nat, acc: seq<Element>)
    requires p <= |data| && p' <= |data| && NextP(TagAt(data, p)) == Ok(l)
    requires EchoStep(l) == ItemThen(data, p', e)
    ensures EchoFrom(data, p, acc) == EchoFrom(data, p', acc + [e])
  {
  }

  /** The element getEchoNode makes of a one-token element. */
  function SingleElement(t: Token2): Element
    requires TokenWF(t) && t.kind in {Var, Integer, Double, Text, Operator}
  {
    match t.kind
    case Var => ElementVariable(t.value.s)
    case Integer => ElementConstantInteger(t.value.n)
    case Double => ElementConstantDouble(t.value.lexeme)
    case Text => ElementString(t.value.s)
    case Operator => ElementOperator([t.value.c])
  }

  lemma ItemSingle(data: seq<char>, p: nat, t: Token2)
    requires p <= |data| && TokenWF(t) && t.kind in {Var, Integer, Double, Text, Operator}
    ensures EchoStep(TagTok(data, p, t)) == ItemThen(data, p, SingleElement(t))
  {
    Tok(data, p, t);
  }

  lemma FunctionStep(data: seq<char>, q: nat, n: string, p': nat)
    requires q <= |data| && p' <= |data| && ValidIdent(n)
    requires NextP(TagTok(data, q, Token2(At, Chr('@')))) == Ok(TagTok(data, p', Token2(Var, Str(n))))
    ensures EchoStep(TagTok(data, q, Token2(At, Chr('@')))) == ItemThen(data, p', ElementFunction(n))
  {
    Tok(data, p', Token2(Var, Str(n)));
  }

  /** The token at p and the token at q read as the element e. */
  predicate ReadsItem(data: seq<char>, p: nat, e: Element, q: nat)
    requires p <= |data| && q <= |data|
  {
    NextP(TagAt(data, p)).Ok? && EchoStep(NextP(TagAt(data, p)).value) == ItemThen(data, q, e)
  }

  /** An element read from p to q: the echo loop adds it and goes on at q. */
  lemma ItemRead(data: seq<char>, p: nat, e: Element, q: nat, acc: seq<Element>)
    requires p <= |data| && q <= |data| && ReadsItem(data, p, e, q)
    ensures EchoFrom(data, p, acc) == EchoFrom(data, q, acc + [e])
  {
    ItemStep(data, p, NextP(TagAt(data, p)).value, e, q, acc);
  }

  lemma FunctionItem(data: seq<char>, p: nat, n: string, e: Element, q: nat)
    requires e == ElementFunction(n) && ValidIdent(n) && Occurs(data, p, " " + ElementText(e))
    requires q == p + 1 + |ElementText(e)| && q < |data| && data[q] == ' '
    ensures ReadsItem(data, p, e, q)
  {
    SpacedFunction(data, p, n);
    FunctionStep(data, p + 2, n, q);
  }

  lemma VariableItem(data: seq<char>, p: nat, n: string, e: Element, q: nat)
    requires e == ElementVariable(n) && ValidIdent(n) && Occurs(data, p, " " + ElementText(e))
    requires q == p + 1 + |ElementText(e)| && q < |data| && data[q] == ' '
    ensures ReadsItem(data, p, e, q)
  {
    SpacedIdent(data, p, n);
    ItemSingle(data, q, Token2(Var, Str(n)));
  }

  lemma IntegerItem(data: seq<char>, p: nat, n: int, e: Element, q: nat)
    requires e == ElementConstantInteger(n) && InLongRange(n) && Occurs(data, p, " " + ElementText(e))
    requires q == p + 1 + |ElementText(e)| && q < |data| && data[q] == ' '
    ensures ReadsItem(data, p, e, q)
  {
    SpacedLong(data, p, n);
    ItemSingle(data, q, Token2(Integer, Long(n)));
  }

  lemma DoubleItem(data: seq<char>, p: nat, x: string, e: Element, q: nat)
    requires e == ElementConstantDouble(x) && ValidDoubleLexeme(x) && Occurs(data, p, " " + ElementText(e))
    requires q == p + 1 + |ElementText(e)| && q < |data| && data[q] == ' '
    ensures ReadsItem(data, p, e, q)
  {
    SpacedDouble(data, p, x);
    ItemSingle(data, q, Token2(Double, Dbl(x)));
  }

  lemma StringItem(data: seq<char>, p: nat, t: string, e: Element, q: nat)
    requires e == ElementString(t) && QuotedRun(t) && Occurs(data, p, " " + ElementText(e))
    requires q == p + 1 + |ElementText(e)| && q < |data|
    ensures ReadsItem(data, p, e, q)
  {
    SpacedQuoted(data, p, t, q);
    ItemSingle(data, q, Token2(Text, Str(t)));
  }

  lemma OperatorItem(data: seq<char>, p: nat, c: char, e: Element, q: nat)
    requires e == ElementOperator([c]) && IsOperator(c) && Occurs(data, p, " " + ElementText(e))
    requires q == p + 1 + |ElementText(e)| && q < |data| && data[q] == ' '
    ensures ReadsItem(data, p, e, q)
  {
    SpacedOperator(data, p, c);
    ItemSingle(data, q, Token2(Operator, Chr(c)));
  }

  /** One element of an echo tag, written with the space before it, and the space after it. */
  lemma ElementRead(data: seq<char>, p: nat, e: Element, q: nat)
    requires ValidElement(e) && Occurs(data, p, " " + ElementText(e))
    requires q == p + 1 + |ElementText(e)| && q < |data| && data[q] == ' '
    ensures ReadsItem(data, p, e, q)
  {
    match e
    case ElementVariable(n) =>
      VariableItem(data, p, n, e, q);
    case ElementConstantInteger(n) =>
      IntegerItem(data, p, n, e, q);
    case ElementConstantDouble(x) =>
      DoubleItem(data, p, x, e, q);
    case ElementString(t) =>
      StringItem(data, p, t, e, q);
    case ElementOperator(s) =>
      assert e == ElementOperator([s[0]]);
      OperatorItem(data, p, s[0], e, q);
    case ElementFunction(n) =>
      FunctionItem(data, p, n, e, q);
  }

  /** " $}" closes the echo tag with the elements read so far. */
  lemma EchoClose(data: seq<char>, p: nat, acc: seq<Element>)
    requires Occurs(data, p, " $}")
    ensures EchoFrom(data, p, acc) == Ok(Piece(EchoNode(acc), TagTok(data, p + 3, CLOSE)))
  {
    SpacedDollarClose(data, p);
  }

  /** The body of an echo tag: its first element, a space, and the rest. */
  lemma SplitShape(es: seq<Element>)
    requires es != []
    ensures " " + ElementsText(es) + "$}" == (" " + ElementText(es[0])) + (" " + ElementsText(es[1..]) + "$}")
    ensures |ElementsText(es)| == |ElementText(es[0])| + 1 + |ElementsText(es[1..])|
  {
    var x := ElementText(es[0]);
    var z := ElementsText(es[1..]);
    assert ElementsText(es) == x + " " + z;
    ConcatShape(x, z);
  }

  lemma ConcatShape(x: string, z: string)
    ensures " " + (x + " " + z) + "$}" == (" " + x) + (" " + z + "$}")
  {
  }

  /** The first element of an echo tag's body and the rest of it. */
  lemma ElementsSplit(data: seq<char>, p: nat, es: seq<Element>)
    requires es != [] && Occurs(data, p, " " + ElementsText(es) + "$}")
    ensures Occurs(data, p, " " + ElementText(es[0]))
    ensures Occurs(data, p + 1 + |ElementText(es[0])|, " " + ElementsText(es[1..]) + "$}")
    ensures p + 1 + |ElementText(es[0])| < |data| && data[p + 1 + |ElementText(es[0])|] == ' '
    ensures |ElementsText(es)| == |ElementText(es[0])| + 1 + |ElementsText(es[1..])|
  {
    var x := ElementText(es[0]);
    var z := ElementsText(es[1..]);
    SplitShape(es);
    AtSplit(data, p, " " + x, " " + z + "$}");
    OccursHead(data, p + 1 + |x|, " " + z + "$}");
  }

  lemma OccursHead(data: seq<char>, p: nat, w: string)
    requires Occurs(data, p, w) && |w| > 0
    ensures p < |data| && data[p] == w[0]
  {
    assert data[p..p + |w|][0] == w[0];
  }

  lemma ValidElementsTail(es: seq<Element>)
    requires es != [] && ValidElements(es)
    ensures ValidElement(es[0]) && ValidElements(es[1..])
  {
    assert ValidElement(es[0]);
    forall k | 0 <= k < |es[1..]| ensures ValidElement(es[1..][k]) {
      assert es[1..][k] == es[k + 1];
    }
  }

  /** What the echo loop gives on the elements es after acc, when the tag ends at e. */
  function EchoResult(data: seq<char>, e: nat, es: seq<Element>, acc: seq<Element>): Result<Piece, ParseError> {
    Ok(Piece(EchoNode(acc + es), TagTok(data, e, CLOSE)))
  }

  lemma EchoNone(data: seq<char>, p: nat, acc: seq<Element>, e: nat)
    requires Occurs(data, p, " " + ElementsText([]) + "$}") && e == p + 3
    ensures EchoFrom(data, p, acc) == EchoResult(data, e, [], acc)
  {
    assert " " + ElementsText([]) + "$}" == " $}";
    assert acc + [] == acc;
    EchoClose(data, p, acc);
  }

  lemma EchoMore(data: seq<char>, p: nat, es: seq<Element>, acc: seq<Element>, e: nat)
    requires es != [] && ValidElements(es) && Occurs(data, p, " " + ElementsText(es) + "$}")
    requires p + 1 + |ElementText(es[0])| <= |data|
    requires EchoFrom(data, p + 1 + |ElementText(es[0])|, acc + [es[0]]) == EchoResult(data, e, es[1..], acc + [es[0]])
    ensures EchoFrom(data, p, acc) == EchoResult(data, e, es, acc)
  {
    assert acc + [es[0]] + es[1..] == acc + es;
    var q := p + 1 + |ElementText(es[0])|;
    ElementsSplit(data, p, es);
    ValidElementsTail(es);
    ElementRead(data, p, es[0], q);
    ItemRead(data, p, es[0], q, acc);
  }

  /** The elements of an echo tag and its "$}", read from the space after "=". */
  lemma {:induction false} EchoElements(data: seq<char>, p: nat, es: seq<Element>, acc: seq<Element>, e: nat)
    requires ValidElements(es) && Occurs(data, p, " " + ElementsText(es) + "$}")
    requires e == p + 3 + |ElementsText(es)|
    ensures EchoFrom(data, p, acc) == EchoResult(data, e, es, acc)
    decreases |es|
  {
    if es == [] {
      EchoNone(data, p, acc, e);
    } else {
      ElementsSplit(data, p, es);
      ValidElementsTail(es);
      EchoElements(data, p + 1 + |ElementText(es[0])|, es[1..], acc + [es[0]], e);
      EchoMore(data, p, es, acc, e);
    }
  }

  lemma EchoShape(x: string)
    ensures "{$= " + x + "$}" == "{$=" + (" " + x + "$}")
    ensures "{$="[0] == '{' && "{$="[1] == '$' && "{$="[2] == '='
  {
  }

  /** The parts of an echo tag: "{$=" and the rest. */
  lemma EchoSplit(data: seq<char>, q: nat, es: seq<Element>)
    requires Occurs(data, q, EchoText(es))
    ensures q + 3 <= |data| && data[q] == '{' && data[q + 1] == '$' && data[q + 2] == '='
    ensures Occurs(data, q + 3, " " + ElementsText(es) + "$}")
    ensures |EchoText(es)| == 3 + |" " + ElementsText(es) + "$}"|
  {
    var x := ElementsText(es);
    EchoShape(x);
    AtSplit(data, q, "{$=", " " + x + "$}");
    assert data[q..q + 3] == "{$=";
    assert data[q..q + 3][1] == data[q + 1] && data[q..q + 3][2] == data[q + 2];
  }

  lemma EchoBody(data: seq<char>, q: nat, es: seq<Element>, stack: seq<Node>, e: nat)
    requires q + 3 <= |data| && Occurs(data, q + 3, " " + ElementsText(es) + "$}") && ValidElements(es)
    requires |stack| > 0 && StackShape(stack)
    requires e == q + 6 + |ElementsText(es)|
    ensures e <= |data|
    ensures EchoTag(TagTok(data, q + 3, EQUALS), stack) == AfterTag(TagTok(data, e, CLOSE), AttachTop(stack, EchoNode(es)))
  {
    Tok(data, q + 3, EQUALS);
    EchoElements(data, q + 3, es, [], e);
    assert [] + es == es;
    var l := NextP(TagAt(data, q + 3)).value;
    EchoTagFrom(TagTok(data, q + 3, EQUALS), stack, l, Piece(EchoNode(es), TagTok(data, e, CLOSE)));
  }

  lemma EchoOpen(data: seq<char>, q: nat, stack: seq<Node>)
    requires q + 3 <= |data| && data[q] == '{' && data[q + 1] == '$' && data[q + 2] == '=' && StackShape(stack)
    ensures AfterText(TextAt(data, q), stack) == EchoTag(TagTok(data, q + 3, EQUALS), stack)
  {
    OpenPiece(data, q, stack);
    EchoHead(data, q, stack);
  }

  /** An echo tag ending at e becomes an EchoNode of the top container. */
  lemma EchoPiece(data: seq<char>, q: nat, es: seq<Element>, stack: seq<Node>, e: nat)
    requires Occurs(data, q, EchoText(es)) && ValidElements(es)
    requires |stack| > 0 && StackShape(stack)
    requires e == q + |EchoText(es)|
    ensures e <= |data|
    ensures AfterText(TextAt(data, q), stack) == AfterTag(TextAt(data, e), AttachTop(stack, EchoNode(es)))
  {
    EchoSplit(data, q, es);
    EchoOpen(data, q, stack);
    EchoBody(data, q, es, stack, e);
    TagClose(data, e, AttachTop(stack, EchoNode(es)));
  }
}

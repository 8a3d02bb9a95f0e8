/**
 * What the parser and createOriginalDocumentBody promise about whole
 * documents: a second serialize-and-parse round changes nothing, a document
 * without tags is one TextNode, a tag may not come first or straight after
 * another tag, and a FOR tag without its END leaves the document unbalanced.
 */
module DocumentFacts {
  import opened Wrappers
  import opened Lexer2Scan
  import opened Nodes
  import opened Shapes
  import opened ParserSpec
  import opened Serializer
  import opened Relex
  import opened ParserImage
  import opened RoundTrip
  import opened DocumentRoundTrip

  /**
   * For every document d the parser accepts, the serialized tree parses
   * back to the same tree, so serializing that tree again gives the same
   * text: parse, serialize, parse and serialize is parse and serialize.
   */
  lemma SerializeStable(d: string)
    requires ParseDocument(Some(d)).Ok?
    ensures var n := ParseDocument(Some(d)).value;
      ParseDocument(Some(DocumentBody(Some(n)))) == Ok(n) &&
      DocumentBody(Some(ParseDocument(Some(DocumentBody(Some(n)))).value)) == DocumentBody(Some(n))
  {
    ParseDocumentImage(d);
    ParseSerialized(ParseDocument(Some(d)).value);
  }

  /** A text without tags and without a lone backslash at its end is one TextNode holding it. */
  lemma PlainText(t: string)
    requires ValidText(t)
    ensures ParseDocument(Some(t)) == Ok(DocumentNode([TextNode(t)]))
  {
    var n := DocumentNode([TextNode(t)]);
    assert ValidChild(n.children[0], 0);
    assert ValidDocument(n);
    assert n.children[1..] == [];
    assert ChildrenText(n.children) == ChildText(TextNode(t)) + ChildrenText([]);
    assert ChildrenText(n.children) == t + "";
    assert DocumentBody(Some(n)) == t;
    ParseSerialized(n);
  }

  /** The empty document is a document node without children. */
  lemma EmptyText()
    ensures ParseDocument(Some("")) == Ok(DocumentNode([]))
  {
    NextEnd("");
  }

  /** The parser wants a TEXT token first, so a document that starts with '{' is rejected. */
  lemma LeadingTag(d: string)
    requires |d| > 0 && d[0] == '{'
    ensures ParseDocument(Some(d)) == Err(TextExpected)
  {
    NextOpen(d, 0);
    var l := LexState(d, 1, Some(Token2(OpenBrackets, Chr('{'))), TextMode);
    assert NextP(Initial(d)) == Ok(l);
    assert TextStep(l, [DocumentNode([])]) == Err(TextExpected);
  }

  /** A whole document is parsed from position 0, expecting a text, with only the document node. */
  lemma DocumentAt(d: string)
    ensures ParseDocument(Some(d)) == ParseAt(d, 0, [DocumentNode([])], 0)
  {
    ParseFromStart(d);
  }

  /** At the end of the input with a FOR node still open, the stack check fails. */
  lemma EndUnbalanced(data: seq<char>, stack: seq<Node>, k: nat)
    requires |stack| > 1 && StackShape(stack)
    ensures ParseAt(data, |data|, stack, k) == Err(Unbalanced)
  {
    var ls := TextAt(data, |data|);
    NextEnd(data);
    assert ls.(mode := TextMode) == ls;
    var l := LexState(data, |data|, Some(EOF_TOKEN), TextMode);
    assert NextP(ls) == Ok(l);
    assert ParseLoop(l, stack) == Err(Unbalanced);
  }

  /** A '{' where a text is expected fails the parse. */
  lemma TextMissing(data: seq<char>, p: nat, stack: seq<Node>, k: nat)
    requires p < |data| && data[p] == '{' && k % 2 == 0 && StackShape(stack)
    ensures ParseAt(data, p, stack, k) == Err(TextExpected)
  {
    var ls := TextAt(data, p);
    NextOpen(data, p);
    assert ls.(mode := TextMode) == ls;
    var l := LexState(data, p + 1, Some(Token2(OpenBrackets, Chr('{'))), TextMode);
    assert NextP(ls) == Ok(l);
    assert ParseLoop(l, stack) == Err(TextExpected);
  }

  /** The valid children cs read one after the other from the start of d, up to e. */
  lemma LeadingChildren(d: string, cs: seq<Node>, e: nat)
    requires ValidChildren(cs) && Occurs(d, 0, ChildrenText(cs)) && e == |ChildrenText(cs)|
    requires e == |d| || (e < |d| && d[e] == '{')
    ensures ParseDocument(Some(d)) == ParseAt(d, e, AttachAll([DocumentNode([])], cs), |cs|)
  {
    DocumentAt(d);
    ChildrenOccur(d, 0, cs, 0);
    ChildrenPieces(d, 0, cs, 0, [DocumentNode([])], e, |cs|);
  }

  /**
   * Valid children cs ending on a text, then a FOR header, then the valid
   * children ds of its body and no "{$END$}": the FOR node is still on the
   * stack at the end, and the parse fails.
   */
  lemma UnclosedFor(cs: seq<Node>, h: Node, ds: seq<Node>, d: string)
    requires ValidChildren(cs) && |cs| % 2 == 1
    requires ValidHeader(h) && ValidChildren(ds)
    requires d == ChildrenText(cs) + ForLoopText(h.variable, h.start, h.end, h.step) + ChildrenText(ds)
    ensures ParseDocument(Some(d)) == Err(Unbalanced)
  {
    var a, b := ChildrenText(cs), ForLoopText(h.variable, h.start, h.end, h.step);
    assert b[0] == '{';
    ThreePieces(d, a, b, ChildrenText(ds));
    LeadingChildren(d, cs, |a|);
    ForBodyUnclosed(d, |a|, h, |cs|, AttachAll([DocumentNode([])], cs), ds);
  }

  /** The three pieces of a concatenation, where the middle one starts with '{'. */
  lemma ThreePieces(d: string, a: string, b: string, c: string)
    requires d == a + b + c && |b| > 0 && b[0] == '{'
    ensures Occurs(d, 0, a) && Occurs(d, |a|, b) && Occurs(d, |a| + |b|, c)
    ensures |d| == |a| + |b| + |c| && |a| < |d| && d[|a|] == '{'
  {
    assert d[0..|d|] == d;
    AtSplit(d, 0, a + b, c);
    AtSplit(d, 0, a, b);
  }

  /** A FOR header at p where a tag is expected, then valid children up to the end of the input. */
  lemma ForBodyUnclosed(d: string, p: nat, h: Node, k: nat, stack: seq<Node>, ds: seq<Node>)
    requires ValidHeader(h) && ValidChildren(ds) && k % 2 == 1
    requires Occurs(d, p, ForLoopText(h.variable, h.start, h.end, h.step))
    requires Occurs(d, p + |ForLoopText(h.variable, h.start, h.end, h.step)|, ChildrenText(ds))
    requires |d| == p + |ForLoopText(h.variable, h.start, h.end, h.step)| + |ChildrenText(ds)|
    requires |stack| > 0 && StackShape(stack)
    ensures ParseAt(d, p, stack, k) == Err(Unbalanced)
  {
    var q1 := p + |ForLoopText(h.variable, h.start, h.end, h.step)|;
    var f := ForLoopNode(h.variable, h.start, h.end, h.step, []);
    ForEnter(d, p, h, k, stack, f, q1);
    BodyUnclosed(d, q1, stack + [f], ds);
  }

  /** Valid children from q up to the end of the input, with a FOR node open. */
  lemma BodyUnclosed(d: string, q: nat, stack: seq<Node>, ds: seq<Node>)
    requires ValidChildren(ds) && Occurs(d, q, ChildrenText(ds)) && |d| == q + |ChildrenText(ds)|
    requires |stack| > 1 && StackShape(stack)
    ensures ParseAt(d, q, stack, 0) == Err(Unbalanced)
  {
    ChildrenOccur(d, q, ds, 0);
    ChildrenPieces(d, q, ds, 0, stack, |d|, |ds|);
    EndUnbalanced(d, AttachAll(stack, ds), |ds|);
  }

  /**
   * Valid children cs ending on a tag (or none at all), then '{': a text is
   * expected where a second tag starts, and the parse fails.
   */
  lemma TagAfterTag(cs: seq<Node>, d: string)
    requires ValidChildren(cs) && |cs| % 2 == 0
    requires Occurs(d, 0, ChildrenText(cs)) && |ChildrenText(cs)| < |d| && d[|ChildrenText(cs)|] == '{'
    ensures ParseDocument(Some(d)) == Err(TextExpected)
  {
    var e := |ChildrenText(cs)|;
    LeadingChildren(d, cs, e);
    TextMissing(d, e, AttachAll([DocumentNode([])], cs), |cs|);
  }
}

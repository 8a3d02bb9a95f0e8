/**
 * The parser reads back what createOriginalDocumentBody writes: for every
 * tree the parser can build, parsing the serialized text gives the same
 * tree. The proof walks the children of a container one at a time, text,
 * echo tag or FOR tag, with the FOR body handled by the same walk.
 */
module DocumentRoundTrip {
  import opened Wrappers
  import opened Lexer2Scan
  import opened Nodes
  import opened Shapes
  import opened ParserSpec
  import opened Serializer
  import opened Relex
  import opened RoundTrip
  import opened ForPieces

  /** Every node of cs added, in order, to the node on top of the stack. */
  function AttachAll(stack: seq<Node>, cs: seq<Node>): (r: seq<Node>)
    requires |stack| > 0 && StackShape(stack)
    ensures |r| == |stack| && StackShape(r)
  {
    var top := stack[|stack| - 1];
    stack[..|stack| - 1] + [top.(children := top.children + cs)]
  }

  /** Adding no node changes nothing. */
  lemma AttachNone(stack: seq<Node>)
    requires |stack| > 0 && StackShape(stack)
    ensures AttachAll(stack, []) == stack
  {
    var top := stack[|stack| - 1];
    assert top.children + [] == top.children;
  }

  /** Adding a list is adding its first node, then the rest. */
  lemma AttachStep(stack: seq<Node>, cs: seq<Node>)
    requires |stack| > 0 && StackShape(stack) && cs != []
    ensures AttachAll(stack, cs) == AttachAll(AttachTop(stack, cs[0]), cs[1..])
  {
    var top := stack[|stack| - 1];
    var s1 := AttachTop(stack, cs[0]);
    assert s1[|s1| - 1].children + cs[1..] == top.children + cs;
  }

  /** Where the parse stands at p: expecting a text (k even) or a tag (k odd). */
  function ParseAt(data: seq<char>, p: nat, stack: seq<Node>, k: nat): Result<Node, ParseError>
    requires p <= |data| && StackShape(stack)
  {
    if k % 2 == 0 then AfterTag(TextAt(data, p), stack) else AfterText(TextAt(data, p), stack)
  }

  /** The children of a FOR node, added to it on top of the stack and closed. */
  lemma CloseBody(stack: seq<Node>, f: Node, ch: seq<Node>)
    requires |stack| > 0 && StackShape(stack) && f.ForLoopNode? && f.children == []
    ensures StackShape(stack + [f])
    ensures CloseTop(AttachAll(stack + [f], ch)) == AttachTop(stack, f.(children := ch))
  {
    var r := AttachAll(stack + [f], ch);
    assert (stack + [f])[..|stack|] == stack;
    assert f.children + ch == ch;
    assert r == stack + [f.(children := ch)];
    assert r[..|r| - 1] == stack;
  }

  /** A tag's text starts with '{'. */
  lemma TagStart(c: Node, k: nat)
    requires ValidChild(c, k) && k % 2 == 1
    ensures |ChildText(c)| > 0 && ChildText(c)[0] == '{'
  {
    match c
    case EchoNode(es) =>
      EchoShape(ElementsText(es));
    case ForLoopNode(v, s, e, st, ch) =>
      var h := ForLoopText(v, s, e, st);
      assert h[0] == '{';
      assert ChildText(c) == h + (ChildrenText(ch) + END_TAG);
  }

  /** The texts of the children cs, one after the other from p, with cs[0] the k-th child of its container. */
  predicate ChildrenAt(data: seq<char>, p: nat, cs: seq<Node>, k: nat)
    decreases |cs|
  {
    if cs == [] then p <= |data|
    else
      Occurs(data, p, ChildText(cs[0])) && ValidChild(cs[0], k) &&
      ChildrenAt(data, p + |ChildText(cs[0])|, cs[1..], k + 1)
  }

  /** The text of a list of valid children, split child by child. */
  lemma {:induction false} ChildrenOccur(data: seq<char>, p: nat, cs: seq<Node>, k: nat)
    requires Occurs(data, p, ChildrenText(cs))
    requires forall i :: 0 <= i < |cs| ==> ValidChild(cs[i], k + i)
    ensures ChildrenAt(data, p, cs, k)
    decreases |cs|
  {
    if cs != [] {
      var e0 := p + |ChildText(cs[0])|;
      OccursSplit(data, p, cs, e0);
      ChildrenTail(cs, k);
      ChildrenOccur(data, e0, cs[1..], k + 1);
    }
  }

  /** The text of a list of children: the first child's, then the rest's. */
  lemma OccursSplit(data: seq<char>, p: nat, cs: seq<Node>, e0: nat)
    requires cs != [] && Occurs(data, p, ChildrenText(cs)) && e0 == p + |ChildText(cs[0])|
    ensures Occurs(data, p, ChildText(cs[0])) && Occurs(data, e0, ChildrenText(cs[1..]))
  {
    AtSplit(data, p, ChildText(cs[0]), ChildrenText(cs[1..]));
  }

  /** After a text child comes a tag, whose text starts with '{', or the end of the list. */
  lemma TextBoundary(data: seq<char>, e0: nat, rest: seq<Node>, k: nat, e: nat)
    requires ChildrenAt(data, e0, rest, k) && e == e0 + |ChildrenText(rest)| && k % 2 == 1
    requires e <= |data| && (e == |data| || data[e] == '{')
    ensures e0 == |data| || data[e0] == '{'
  {
    if rest != [] {
      TagStart(rest[0], k);
      OccursHead(data, e0, ChildText(rest[0]));
    }
  }

  /** The children after the first keep their places. */
  lemma ChildrenTail(cs: seq<Node>, k: nat)
    requires cs != [] && forall i :: 0 <= i < |cs| ==> ValidChild(cs[i], k + i)
    ensures ValidChild(cs[0], k)
    ensures forall i :: 0 <= i < |cs[1..]| ==> ValidChild(cs[1..][i], k + 1 + i)
  {
    assert ValidChild(cs[0], k + 0);
    forall i | 0 <= i < |cs[1..]|
      ensures ValidChild(cs[1..][i], k + 1 + i)
    {
      assert cs[1..][i] == cs[i + 1];
    }
  }

  /** The children after the first follow its text. */
  lemma ChildrenRest(data: seq<char>, p: nat, cs: seq<Node>, k: nat, e0: nat)
    requires cs != [] && ChildrenAt(data, p, cs, k) && e0 == p + |ChildText(cs[0])|
    ensures ChildrenAt(data, e0, cs[1..], k + 1)
  {
  }

  /** What the walk needs before reading the first of the children cs, and after it. */
  lemma ChildrenPrepare(data: seq<char>, p: nat, cs: seq<Node>, k: nat, e: nat, e0: nat)
    requires cs != [] && ChildrenAt(data, p, cs, k) && e == p + |ChildrenText(cs)|
    requires e <= |data| && (e == |data| || data[e] == '{')
    requires e0 == p + |ChildText(cs[0])|
    ensures Occurs(data, p, ChildText(cs[0])) && ValidChild(cs[0], k)
    ensures e == e0 + |ChildrenText(cs[1..])|
    ensures k % 2 == 0 ==> e0 == |data| || data[e0] == '{'
  {
    if k % 2 == 0 {
      TextBoundary(data, e0, cs[1..], k + 1, e);
    }
  }

  /** A FOR child: a tag with a header and a body that starts and ends with a text. */
  lemma ForChildShape(c: Node, k: nat)
    requires c.ForLoopNode? && ValidChild(c, k)
    ensures k % 2 == 1 && ValidHeader(c) && |c.children| % 2 == 1
    ensures forall i :: 0 <= i < |c.children| ==> ValidChild(c.children[i], 0 + i)
  {
    assert ValidTagBody(c.children);
    assert ValidChildren(c.children);
  }

  /** The start of a parse: the document node alone, and its children in place. */
  lemma DocumentStart(n: Node)
    requires ValidDocument(n)
    ensures AttachAll([DocumentNode([])], n.children) == [n]
    ensures forall i :: 0 <= i < |n.children| ==> ValidChild(n.children[i], 0 + i)
  {
    assert [] + n.children == n.children;
  }

  /** The parts of a FOR node's text: header, body, "{$END$}". */
  lemma ForSplit(data: seq<char>, p: nat, c: Node, q1: nat, e1: nat)
    requires c.ForLoopNode? && Occurs(data, p, ChildText(c))
    requires q1 == p + |ForLoopText(c.variable, c.start, c.end, c.step)| && e1 == q1 + |ChildrenText(c.children)|
    ensures Occurs(data, p, ForLoopText(c.variable, c.start, c.end, c.step))
    ensures Occurs(data, q1, ChildrenText(c.children)) && Occurs(data, e1, END_TAG)
    ensures p + |ChildText(c)| == e1 + 7 && data[e1] == '{'
  {
    var h := ForLoopText(c.variable, c.start, c.end, c.step);
    AtSplit(data, p, h + ChildrenText(c.children), END_TAG);
    AtSplit(data, p, h, ChildrenText(c.children));
    EndLayout(data, e1);
  }

  /** A text child, read where a text is expected. */
  lemma TextChild(data: seq<char>, p: nat, t: string, k: nat, stack: seq<Node>, e: nat)
    requires Occurs(data, p, t) && e == p + |t| && ValidText(t) && k % 2 == 0
    requires e <= |data| && (e == |data| || data[e] == '{')
    requires |stack| > 0 && StackShape(stack)
    ensures ParseAt(data, p, stack, k) == ParseAt(data, e, AttachTop(stack, TextNode(t)), k + 1)
  {
    TextPiece(data, p, t, stack, e);
  }

  /** An echo child, read where a tag is expected. */
  lemma EchoChild(data: seq<char>, p: nat, es: seq<Element>, k: nat, stack: seq<Node>, e: nat)
    requires Occurs(data, p, EchoText(es)) && e == p + |EchoText(es)| && ValidElements(es) && k % 2 == 1
    requires |stack| > 0 && StackShape(stack)
    ensures ParseAt(data, p, stack, k) == ParseAt(data, e, AttachTop(stack, EchoNode(es)), k + 1)
  {
    EchoPiece(data, p, es, stack, e);
  }

  /** A FOR header, read where a tag is expected: the body's first text is expected next. */
  lemma ForEnter(data: seq<char>, p: nat, c: Node, k: nat, stack: seq<Node>, f: Node, q1: nat)
    requires ValidHeader(c) && k % 2 == 1 && f == ForLoopNode(c.variable, c.start, c.end, c.step, [])
    requires Occurs(data, p, ForLoopText(c.variable, c.start, c.end, c.step))
    requires q1 == p + |ForLoopText(c.variable, c.start, c.end, c.step)|
    requires |stack| > 0 && StackShape(stack)
    ensures q1 <= |data| && StackShape(stack + [f])
    ensures ParseAt(data, p, stack, k) == ParseAt(data, q1, stack + [f], 0)
  {
    ForHeaderPiece(data, p, c.variable, c.start, c.end, c.step, stack, q1);
  }

  /** "{$END$}" after the body's last text: the FOR node joins its parent. */
  lemma ForLeave(data: seq<char>, e1: nat, c: Node, k: nat, stack: seq<Node>, f: Node, e: nat)
    requires c.ForLoopNode? && k % 2 == 1 && |c.children| % 2 == 1 && f == c.(children := [])
    requires Occurs(data, e1, END_TAG) && e == e1 + 7
    requires |stack| > 0 && StackShape(stack)
    ensures StackShape(stack + [f]) && e1 <= |data|
    ensures ParseAt(data, e1, AttachAll(stack + [f], c.children), |c.children|) ==
      ParseAt(data, e, AttachTop(stack, c), k + 1)
  {
    CloseBody(stack, f, c.children);
    assert f.(children := c.children) == c;
    EndPiece(data, e1, AttachAll(stack + [f], c.children));
  }

  /** Reading the children cs of the node on top of the stack, the k-th child first. */
  lemma {:induction false} ChildrenPieces(data: seq<char>, p: nat, cs: seq<Node>, k: nat, stack: seq<Node>, e: nat, n: nat)
    requires ChildrenAt(data, p, cs, k) && e == p + |ChildrenText(cs)|
    requires e <= |data| && (e == |data| || data[e] == '{')
    requires |stack| > 0 && StackShape(stack) && n == k + |cs|
    ensures e <= |data|
    ensures ParseAt(data, p, stack, k) == ParseAt(data, e, AttachAll(stack, cs), n)
    decreases cs, 3
  {
    if cs == [] {
      AttachNone(stack);
    } else {
      var e0 := p + |ChildText(cs[0])|;
      FirstChild(data, p, cs, k, stack, e, e0);
      ChildrenPieces(data, e0, cs[1..], k + 1, AttachTop(stack, cs[0]), e, n);
      AttachStep(stack, cs);
    }
  }

  /** Reading the first of the children cs. */
  lemma {:induction false} FirstChild(data: seq<char>, p: nat, cs: seq<Node>, k: nat, stack: seq<Node>, e: nat, e0: nat)
    requires cs != [] && ChildrenAt(data, p, cs, k) && e == p + |ChildrenText(cs)|
    requires e <= |data| && (e == |data| || data[e] == '{')
    requires e0 == p + |ChildText(cs[0])|
    requires |stack| > 0 && StackShape(stack)
    ensures e0 <= |data| && e == e0 + |ChildrenText(cs[1..])| && ChildrenAt(data, e0, cs[1..], k + 1)
    ensures ParseAt(data, p, stack, k) == ParseAt(data, e0, AttachTop(stack, cs[0]), k + 1)
    decreases cs, 2
  {
    ChildrenRest(data, p, cs, k, e0);
    ChildrenPrepare(data, p, cs, k, e, e0);
    ChildPiece(data, p, cs[0], k, stack, e0);
  }

  /** Reading one child, the k-th of its container. */
  lemma {:induction false} ChildPiece(data: seq<char>, p: nat, c: Node, k: nat, stack: seq<Node>, e: nat)
    requires Occurs(data, p, ChildText(c)) && e == p + |ChildText(c)| && ValidChild(c, k)
    requires k % 2 == 0 ==> e == |data| || data[e] == '{'
    requires |stack| > 0 && StackShape(stack)
    ensures e <= |data|
    ensures ParseAt(data, p, stack, k) == ParseAt(data, e, AttachTop(stack, c), k + 1)
    decreases c, 1
  {
    match c
    case TextNode(t) =>
      TextChild(data, p, t, k, stack, e);
    case EchoNode(es) =>
      EchoChild(data, p, es, k, stack, e);
    case ForLoopNode(_, _, _, _, _) =>
      ForPiece(data, p, c, k, stack, e);
  }

  /** Reading a FOR node: its header, its body as children of the new node, and "{$END$}". */
  lemma {:induction false} ForPiece(data: seq<char>, p: nat, c: Node, k: nat, stack: seq<Node>, e: nat)
    requires c.ForLoopNode? && Occurs(data, p, ChildText(c)) && e == p + |ChildText(c)| && ValidChild(c, k)
    requires |stack| > 0 && StackShape(stack)
    ensures e <= |data|
    ensures ParseAt(data, p, stack, k) == ParseAt(data, e, AttachTop(stack, c), k + 1)
    decreases c, 0
  {
    var f := ForLoopNode(c.variable, c.start, c.end, c.step, []);
    var q1 := p + |ForLoopText(c.variable, c.start, c.end, c.step)|;
    var e1 := q1 + |ChildrenText(c.children)|;
    ForChildShape(c, k);
    ForSplit(data, p, c, q1, e1);
    ChildrenOccur(data, q1, c.children, 0);
    ForEnter(data, p, c, k, stack, f, q1);
    ChildrenPieces(data, q1, c.children, 0, stack + [f], e1, |c.children|);
    ForLeave(data, e1, c, k, stack, f, e);
  }

  /**
   * createOriginalDocumentBody followed by parsing gives back the tree,
   * for every tree the parser can build.
   */
  lemma ParseSerialized(n: Node)
    requires ValidDocument(n)
    ensures ParseDocument(Some(DocumentBody(Some(n)))) == Ok(n)
  {
    var d := DocumentBody(Some(n));
    assert d[0..|d|] == d;
    DocumentStart(n);
    ParseFromStart(d);
    ChildrenOccur(d, 0, n.children, 0);
    ChildrenPieces(d, 0, n.children, 0, [DocumentNode([])], |d|, |n.children|);
    EndOfInput(d, AttachAll([DocumentNode([])], n.children));
  }
}

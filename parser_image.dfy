/**
 * What every successful parse produces: a document whose children alternate
 * between texts and tags, whose FOR bodies start and end with a text, and
 * whose pieces are all ones the lexer can read back.
 */
module ParserImage {
  import opened Wrappers
  import opened Lexer2Scan
  import opened Nodes
  import opened Shapes
  import opened ParserSpec

  function Top(stack: seq<Node>): Node
    requires |stack| > 0
  {
    stack[|stack| - 1]
  }

  /**
   * The open containers: each has valid children so far and the FOR nodes
   * valid headers; the ones below the top were interrupted by a FOR tag,
   * which comes after a text.
   */
  predicate Frames(stack: seq<Node>) {
    |stack| > 0 && StackShape(stack) &&
    (forall k :: 0 <= k < |stack| ==> ValidChildren(stack[k].children)) &&
    (forall k :: 1 <= k < |stack| ==> ValidHeader(stack[k])) &&
    (forall k :: 0 <= k < |stack| - 1 ==> |stack[k].children| % 2 == 1)
  }

  /**
   * What holds at the head of every turn of the parse loop: in TAG mode a
   * text was just added to the top; a text about to be added comes after a
   * tag, and its run stopped at '{' or the end.
   */
  predicate Inv(ls: LexState, stack: seq<Node>)
    requires Valid(ls) && ls.token.Some?
  {
    Frames(stack) &&
    (ls.mode == TagMode ==> |Top(stack).children| % 2 == 1) &&
    (ls.mode == TextMode && Kind(ls) == Text ==>
      |Top(stack).children| % 2 == 0 && ValidText(ls.token.value.value.s) &&
      (ls.index == |ls.data| || ls.data[ls.index] == '{'))
  }

  lemma {:induction false} ChildrenAppend(cs: seq<Node>, c: Node)
    requires ValidChildren(cs) && ValidChild(c, |cs|)
    ensures ValidChildren(cs + [c])
  {
    var cs' := cs + [c];
    forall k | 0 <= k < |cs'|
      ensures ValidChild(cs'[k], k)
    {
      if k < |cs| {
        assert cs'[k] == cs[k];
      }
    }
  }

  /** The state after a tag, when the stack kept its shape. */
  lemma {:induction false} AfterTagInv(l: LexState, stack: seq<Node>)
    requires Valid(l) && l.token.Some? && l.mode == TextMode
    requires TextModeToken(l.token.value)
    requires Kind(l) == Text ==> l.index == |l.data| || l.data[l.index] == '{'
    requires Frames(stack)
    requires |Top(stack).children| % 2 == 0
    ensures Inv(l, stack)
  {
  }

  /** After a text the stack's top has odd length, and the next token is '{' or the end. */
  lemma {:induction false} AfterTextInv(l: LexState, stack: seq<Node>)
    requires Valid(l) && l.token.Some? && Kind(l) in {Eof, OpenBrackets} && l.mode == TextMode
    requires Frames(stack)
    requires |Top(stack).children| % 2 == 1
    ensures var l' := if Kind(l) == OpenBrackets then l.(mode := TagMode) else l; Inv(l', stack)
  {
  }

  /** The stack after a text joins the top container. */
  lemma {:induction false} AttachTextFrames(stack: seq<Node>, t: string)
    requires |stack| > 0 && StackShape(stack) && ValidText(t)
    requires forall k :: 0 <= k < |stack| ==> ValidChildren(stack[k].children)
    requires |Top(stack).children| % 2 == 0
    ensures var stack' := AttachTop(stack, TextNode(t));
      (forall k :: 0 <= k < |stack'| ==> ValidChildren(stack'[k].children)) &&
      (forall k :: 0 <= k < |stack| - 1 ==> stack'[k] == stack[k]) &&
      |Top(stack').children| % 2 == 1
  {
    var stack' := AttachTop(stack, TextNode(t));
    ChildrenAppend(Top(stack).children, TextNode(t));
    assert forall k :: 0 <= k < |stack| - 1 ==> stack'[k] == stack[k];
  }

  /** Every element an echo tag yields is one the lexer can read back. */
  lemma {:induction false} EchoLoopValid(ls: LexState, elems: seq<Element>)
    requires Valid(ls) && ls.token.Some? && ls.mode == TagMode && TagModeToken(ls.token.value)
    requires ValidElements(elems)
    ensures EchoLoop(ls, elems).Ok? ==> ValidElements(EchoLoop(ls, elems).value.node.elements)
    decreases Rank(ls)
  {
    var s := EchoStep(ls);
    if s.Ok? && s.value.Item? {
      var e := s.value.elem;
      assert ValidElements(elems + [e]) by {
        assert forall i :: 0 <= i < |elems| ==> (elems + [e])[i] == elems[i];
      }
      EchoLoopValid(s.value.rest, elems + [e]);
    }
  }

  /** Pushing a new FOR node keeps the frames valid. */
  lemma {:induction false} PushFrames(stack: seq<Node>, f: Node)
    requires Frames(stack) && |Top(stack).children| % 2 == 1
    requires ValidHeader(f) && f.children == []
    ensures Frames(stack + [f]) && Top(stack + [f]).children == []
  {
    var stack' := stack + [f];
    assert forall k :: 0 <= k < |stack| ==> stack'[k] == stack[k];
  }

  /** An echo node joining the top container keeps the frames valid. */
  lemma {:induction false} AttachEchoFrames(stack: seq<Node>, n: Node)
    requires Frames(stack) && |Top(stack).children| % 2 == 1
    requires n.EchoNode? && ValidElements(n.elements)
    ensures Frames(AttachTop(stack, n)) && |Top(AttachTop(stack, n)).children| % 2 == 0
  {
    var stack' := AttachTop(stack, n);
    ChildrenAppend(Top(stack).children, n);
    assert forall k :: 0 <= k < |stack| - 1 ==> stack'[k] == stack[k];
  }

  /** Closing the top FOR node keeps the frames below it valid. */
  lemma {:induction false} CloseTopFrames(stack: seq<Node>)
    requires Frames(stack) && |stack| > 1 && |Top(stack).children| % 2 == 1
    ensures Frames(CloseTop(stack)) && |Top(CloseTop(stack)).children| % 2 == 0
  {
    var rest := stack[..|stack| - 1];
    var f := Top(stack);
    assert ValidHeader(f) && ValidChildren(f.children);
    assert ValidChild(f, |Top(rest).children|);
    ChildrenAppend(Top(rest).children, f);
    var stack' := CloseTop(stack);
    assert forall k :: 0 <= k < |rest| - 1 ==> stack'[k] == stack[k];
  }

  // ---------------------------------------------------------------------------
  // The loop, turn by turn: every continuation starts from a state where Inv
  // holds, so the document node at the end has valid children.

  lemma {:induction false} AfterTagImage(ls: LexState, stack: seq<Node>)
    requires Valid(ls) && StackShape(stack)
    requires stack == [] || (Frames(stack) && |Top(stack).children| % 2 == 0)
    ensures AfterTag(ls, stack).Ok? ==> ValidDocument(AfterTag(ls, stack).value)
    decreases Rank(ls), 0
  {
    var n := NextP(ls.(mode := TextMode));
    if n.Ok? && stack != [] {
      AfterTagInv(n.value, stack);
      ParseLoopImage(n.value, stack);
    }
  }

  lemma {:induction false} AfterTextImage(ls: LexState, stack: seq<Node>)
    requires Valid(ls) && ls.mode == TextMode && StackShape(stack)
    requires ls.index == |ls.data| || ls.data[ls.index] == '{'
    requires !AtEof(ls)
    requires Frames(stack) && |Top(stack).children| % 2 == 1
    ensures AfterText(ls, stack).Ok? ==> ValidDocument(AfterText(ls, stack).value)
    decreases Rank(ls), 0
  {
    var n := NextP(ls);
    if n.Ok? {
      NextAfterText(ls);
      var l := n.value;
      AfterTextInv(l, stack);
      ParseLoopImage(if Kind(l) == OpenBrackets then l.(mode := TagMode) else l, stack);
    }
  }

  lemma {:induction false} TextStepImage(ls: LexState, stack: seq<Node>)
    requires Valid(ls) && ls.token.Some? && ls.mode == TextMode && StackShape(stack) && Inv(ls, stack)
    ensures TextStep(ls, stack).Ok? ==> ValidDocument(TextStep(ls, stack).value)
    decreases Rank(ls), 1
  {
    if Kind(ls) == Text {
      var t := ls.token.value.value.s;
      AttachTextFrames(stack, t);
      AfterTextImage(ls, AttachTop(stack, TextNode(t)));
    }
  }

  lemma {:induction false} ForTagImage(ls: LexState, stack: seq<Node>)
    requires Valid(ls) && ls.mode == TagMode && Frames(stack) && |Top(stack).children| % 2 == 1
    ensures ForTag(ls, stack).Ok? ==> ValidDocument(ForTag(ls, stack).value)
    decreases Rank(ls), 1
  {
    var n := NextP(ls);
    if n.Ok? {
      var p := ForLoopNodeSpec(n.value);
      if p.Ok? {
        PushFrames(stack, p.value.node);
        AfterTagImage(p.value.after, stack + [p.value.node]);
      }
    }
  }

  lemma {:induction false} EchoTagImage(ls: LexState, stack: seq<Node>)
    requires Valid(ls) && ls.mode == TagMode && Frames(stack) && |Top(stack).children| % 2 == 1
    ensures EchoTag(ls, stack).Ok? ==> ValidDocument(EchoTag(ls, stack).value)
    decreases Rank(ls), 1
  {
    var n := NextP(ls);
    if n.Ok? {
      var p := EchoNodeSpec(n.value);
      if p.Ok? {
        EchoLoopValid(n.value, []);
        AttachEchoFrames(stack, p.value.node);
        AfterTagImage(p.value.after, AttachTop(stack, p.value.node));
      }
    }
  }

  lemma {:induction false} EndTagImage(ls: LexState, stack: seq<Node>)
    requires Valid(ls) && ls.mode == TagMode && Frames(stack) && |Top(stack).children| % 2 == 1
    ensures EndTag(ls, stack).Ok? ==> ValidDocument(EndTag(ls, stack).value)
    decreases Rank(ls), 1
  {
    var n1 := NextP(ls);
    if n1.Ok? && Kind(n1.value) == Dollar {
      var n2 := NextP(n1.value);
      if n2.Ok? && Kind(n2.value) == CloseBrackets {
        if |stack| > 1 {
          CloseTopFrames(stack);
        }
        AfterTagImage(n2.value, CloseTop(stack));
      }
    }
  }

  lemma {:induction false} TagStepImage(ls: LexState, stack: seq<Node>)
    requires Valid(ls) && ls.token.Some? && ls.mode == TagMode && StackShape(stack) && Inv(ls, stack)
    ensures TagStep(ls, stack).Ok? ==> ValidDocument(TagStep(ls, stack).value)
    decreases Rank(ls), 1
  {
    if Kind(ls) == OpenBrackets && NextP(ls).Ok? {
      var l1 := NextP(ls).value;
      if Kind(l1) == Dollar && NextP(l1).Ok? {
        TagBodyImage(NextP(l1).value, stack);
      }
    }
  }

  /** The three tags a "{$" can open. */
  lemma {:induction false} TagBodyImage(l2: LexState, stack: seq<Node>)
    requires Valid(l2) && l2.token.Some? && l2.mode == TagMode && Frames(stack) && |Top(stack).children| % 2 == 1
    ensures TagBody(l2, stack).Ok? ==> ValidDocument(TagBody(l2, stack).value)
    decreases Rank(l2), 2
  {
    ForTagImage(l2, stack);
    EchoTagImage(l2, stack);
    EndTagImage(l2, stack);
  }

  lemma {:induction false} ParseLoopImage(ls: LexState, stack: seq<Node>)
    requires Valid(ls) && ls.token.Some? && StackShape(stack) && Inv(ls, stack)
    ensures ParseLoop(ls, stack).Ok? ==> ValidDocument(ParseLoop(ls, stack).value)
    decreases Rank(ls), 2
  {
    if Kind(ls) == Eof {
      assert Frames(stack);
    } else if ls.mode == TextMode {
      TextStepImage(ls, stack);
    } else {
      TagStepImage(ls, stack);
    }
  }

  /** Every document the parser accepts becomes a valid tree. */
  lemma ParseDocumentImage(document: string)
    ensures ParseDocument(Some(document)).Ok? ==> ValidDocument(ParseDocument(Some(document)).value)
  {
    var l := NextP(Initial(document));
    if l.Ok? {
      assert Frames([DocumentNode([])]);
      AfterTagInv(l.value, [DocumentNode([])]);
      ParseLoopImage(l.value, [DocumentNode([])]);
    }
  }
}

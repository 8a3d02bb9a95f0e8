/**
 * One turn of the parse loop at a time: each lemma unfolds a single step of
 * ParseLoop and its continuations, given the tokens the lexer returns.
 */
module ParseSteps {
  import opened Wrappers
  import opened Chars
  import opened Lexer2Scan
  import opened Nodes
  import opened ParserSpec

  /** After a tag, the loop goes on from the next TEXT-mode token. */
  lemma AfterTagFrom(ls: LexState, stack: seq<Node>, l: LexState)
    requires Valid(ls) && StackShape(stack) && NextP(ls.(mode := TextMode)) == Ok(l)
    ensures AfterTag(ls, stack) == ParseLoop(l, stack)
  {
  }

  /** Two states the lexer reads the same next token from continue alike. */
  lemma AfterTagSame(l1: LexState, l2: LexState, stack: seq<Node>)
    requires Valid(l1) && Valid(l2) && StackShape(stack)
    requires NextP(l1.(mode := TextMode)) == NextP(l2.(mode := TextMode))
    ensures AfterTag(l1, stack) == AfterTag(l2, stack)
  {
  }

  lemma AfterTextSame(l1: LexState, l2: LexState, stack: seq<Node>)
    requires Valid(l1) && Valid(l2) && l1.mode == TextMode && l2.mode == TextMode && StackShape(stack)
    requires NextP(l1) == NextP(l2)
    ensures AfterText(l1, stack) == AfterText(l2, stack)
  {
  }

  /** A turn of the loop on a TEXT token: the text joins the top container. */
  lemma LoopText(l: LexState, stack: seq<Node>)
    requires Valid(l) && l.token.Some? && l.mode == TextMode && Kind(l) == Text
    requires |stack| > 0 && StackShape(stack)
    ensures ParseLoop(l, stack) == AfterText(l, AttachTop(stack, TextNode(l.token.value.value.s)))
  {
  }

  /** After a TEXT token, '{' switches the lexer to TAG mode for the next turn. */
  lemma AfterTextOpen(ls: LexState, stack: seq<Node>, l: LexState)
    requires Valid(ls) && ls.mode == TextMode && StackShape(stack)
    requires NextP(ls) == Ok(l) && Kind(l) == OpenBrackets
    ensures Valid(l.(mode := TagMode))
    ensures AfterText(ls, stack) == TagStep(l.(mode := TagMode), stack)
  {
  }

  lemma UpperCaseWords()
    ensures UpperCase("FOR") == "FOR" && UpperCase("END") == "END" && UpperCase("=") != "FOR"
    ensures UpperCase("END") != "FOR"
    ensures IsKeyword("FOR") && IsKeyword("END")
  {
    assert UpperCase("FOR") == "FOR";
    assert UpperCase("END") == "END";
    assert "END"[0] != "FOR"[0];
    assert |UpperCase("=")| == 1;
  }

  /** "{$" and then '=': an echo tag. */
  lemma TagStepEcho(ls: LexState, l1: LexState, l2: LexState, stack: seq<Node>)
    requires Valid(ls) && ls.token.Some? && Kind(ls) == OpenBrackets && StackShape(stack)
    requires NextP(ls) == Ok(l1) && Kind(l1) == Dollar && NextP(l1) == Ok(l2)
    requires l2.token == Some(Token2(Equals, Chr('=')))
    ensures TagStep(ls, stack) == EchoTag(l2, stack)
  {
    UpperCaseWords();
    assert ValueString(l2.token.value.value) == Some("=");
  }

  /** "{$" and then the word FOR: a FOR tag. */
  lemma TagStepFor(ls: LexState, l1: LexState, l2: LexState, stack: seq<Node>)
    requires Valid(ls) && ls.token.Some? && Kind(ls) == OpenBrackets && StackShape(stack)
    requires NextP(ls) == Ok(l1) && Kind(l1) == Dollar && NextP(l1) == Ok(l2)
    requires l2.token == Some(Token2(Keyword, Str("FOR")))
    ensures TagStep(ls, stack) == ForTag(l2, stack)
  {
    UpperCaseWords();
    assert ValueString(l2.token.value.value) == Some("FOR");
  }

  /** "{$" and then the word END: an END tag. */
  lemma TagStepEnd(ls: LexState, l1: LexState, l2: LexState, stack: seq<Node>)
    requires Valid(ls) && ls.token.Some? && Kind(ls) == OpenBrackets && StackShape(stack)
    requires NextP(ls) == Ok(l1) && Kind(l1) == Dollar && NextP(l1) == Ok(l2)
    requires l2.token == Some(Token2(Keyword, Str("END")))
    ensures TagStep(ls, stack) == EndTag(l2, stack)
  {
    UpperCaseWords();
    assert ValueString(l2.token.value.value) == Some("END");
  }

  /** The echo tag's elements and "$}" read: the node joins the top container. */
  lemma EchoTagFrom(ls: LexState, stack: seq<Node>, l: LexState, p: Piece)
    requires Valid(ls) && StackShape(stack) && |stack| > 0
    requires NextP(ls) == Ok(l) && EchoNodeSpec(l) == Ok(p)
    ensures AfterTag(p.after, AttachTop(stack, p.node)) == EchoTag(ls, stack)
  {
  }

  /** The FOR tag's header read: the new node goes on the stack. */
  lemma ForTagFrom(ls: LexState, stack: seq<Node>, l: LexState, p: Piece)
    requires Valid(ls) && StackShape(stack) && |stack| > 0
    requires NextP(ls) == Ok(l) && ForLoopNodeSpec(l) == Ok(p)
    ensures AfterTag(p.after, stack + [p.node]) == ForTag(ls, stack)
  {
  }

  /** "$}" after END: the top FOR node is closed. */
  lemma EndTagFrom(ls: LexState, stack: seq<Node>, l1: LexState, l2: LexState)
    requires Valid(ls) && StackShape(stack) && |stack| > 0
    requires NextP(ls) == Ok(l1) && Kind(l1) == Dollar && NextP(l1) == Ok(l2) && Kind(l2) == CloseBrackets
    ensures AfterTag(l2, CloseTop(stack)) == EndTag(ls, stack)
  {
  }

  /** getForLoopNode on a variable, three INTEGER tokens, '$' and '}'. */
  lemma ForLoopNodeFrom(l: LexState, l1: LexState, l2: LexState, l3: LexState, l4: LexState, l5: LexState,
                        v: string, start: int, end: int, step: int)
    requires Valid(l) && l.token == Some(Token2(Var, Str(v)))
    requires NextP(l) == Ok(l1) && l1.token == Some(Token2(Integer, Long(start)))
    requires NextP(l1) == Ok(l2) && l2.token == Some(Token2(Integer, Long(end)))
    requires NextP(l2) == Ok(l3) && l3.token == Some(Token2(Integer, Long(step)))
    requires NextP(l3) == Ok(l4) && Kind(l4) == Dollar
    requires NextP(l4) == Ok(l5) && Kind(l5) == CloseBrackets
    ensures ForLoopNodeSpec(l) == Ok(Piece(ForLoopNode(v, start, end, step, []), l5))
  {
    assert ForLoopInteger(l1.token.value) == Ok(start);
    assert ForLoopInteger(l2.token.value) == Ok(end);
    assert ForLoopInteger(l3.token.value) == Ok(step);
  }
}

/**
 * SmartScriptParser as pure functions: one function per private method, and
 * ParseLoop, whose every call is one turn of the while(true) loop of parse().
 *
 * The stack of open containers holds nodes by value. The source adds a FOR
 * node to its parent when the tag is read and keeps a reference to it on the
 * stack; here the node is added to its parent when END pops it. Nothing is
 * added to the parent while the FOR node is on top, so a successful parse
 * builds the same tree, and a document the source rejects is rejected here.
 */
module ParserSpec {
  import opened Wrappers
  import opened Chars
  import opened Longs
  import opened Lexer2Scan
  import opened Nodes
  import opened Shapes

  /** The exceptions parsing can end with (SmartScriptParserException and the ones it lets through). */
  datatype ParseError =
    | NullDocument      // NullPointerException: the document is null
    | LexFailure(cause: LexError)
    | TextExpected      // a token other than TEXT in TEXT mode
    | MalformedTag      // a tag not opened by "{$", an unknown tag head, END not closed by "$}"
    | MalformedFor
    | MalformedEcho
    | MalformedFunction // '@' not followed by a variable name
    | NullTokenValue    // NullPointerException: the tag head is EOF
    | EmptyStack        // EmptyStackException on peek or pop
    | Unbalanced        // the stack does not hold exactly the document node at the end

  /** One node parsed from a tag, and the lexer state after it. */
  datatype Piece = Piece(node: Node, after: LexState)

  /** The stack holds the document node at the bottom and open FOR nodes above it. */
  predicate StackShape(stack: seq<Node>) {
    forall k :: 0 <= k < |stack| ==> if k == 0 then stack[k].DocumentNode? else stack[k].ForLoopNode?
  }

  /** Adds a child to the node on top of the stack. */
  function AttachTop(stack: seq<Node>, child: Node): (r: seq<Node>)
    requires |stack| > 0 && StackShape(stack)
    ensures |r| == |stack| && StackShape(r) && r[..|r| - 1] == stack[..|stack| - 1]
    ensures r[|r| - 1].children == stack[|stack| - 1].children + [child]
  {
    stack[..|stack| - 1] + [AddChildNode(stack[|stack| - 1], child)]
  }

  /** stack.pop(), with the popped FOR node added to its parent. */
  function CloseTop(stack: seq<Node>): (r: seq<Node>)
    requires |stack| > 0 && StackShape(stack)
    ensures |r| == if |stack| == 1 then 0 else |stack| - 1
    ensures StackShape(r)
  {
    var rest := stack[..|stack| - 1];
    if rest == [] then [] else AttachTop(rest, stack[|stack| - 1])
  }

  function Kind(ls: LexState): TokenType2
    requires ls.token.Some?
  {
    ls.token.value.kind
  }

  /** lexer.nextToken() inside the parser; a lexer exception ends the parse. */
  function NextP(ls: LexState): (r: Result<LexState, ParseError>)
    requires Valid(ls)
    ensures r.Ok? ==> Valid(r.value) && r.value.token.Some? && Rank(r.value) < Rank(ls)
    ensures r.Ok? ==> r.value.data == ls.data && r.value.mode == ls.mode
    ensures r.Ok? && ls.mode == TextMode ==> TextModeToken(r.value.token.value)
    ensures r.Ok? && ls.mode == TagMode ==> TagModeToken(r.value.token.value)
    ensures r.Ok? && Kind(r.value) == Eof ==> r.value.index == |ls.data|
    ensures r.Ok? && ls.mode == TextMode && Kind(r.value) == Text ==>
      r.value.index == |ls.data| || ls.data[r.value.index] == '{'
  {
    match Next(ls)
    case Ok(l) => Ok(l)
    case Err(e) => Err(LexFailure(e))
  }

  /** getValue().toString(): None where the value is null. */
  function ValueString(v: Value): Option<string> {
    match v
    case Null => None
    case Str(s) => Some(s)
    case Chr(c) => Some([c])
    case Long(n) => Some(LongToString(n))
    case Dbl(lexeme) => Some(lexeme)
  }

  /** getForLoopInteger: a Long value, or a String value Long.parseLong accepts. */
  function ForLoopInteger(t: Token2): (r: Result<int, ParseError>)
    requires TokenWF(t)
    ensures r.Ok? ==> InLongRange(r.value)
    ensures r.Ok? <==> t.value.Long? || (t.value.Str? && ParseLong(t.value.s).Some?)
    ensures r.Err? ==> r.error == MalformedFor
  {
    match t.value
    case Str(s) => (match ParseLong(s) case Some(n) => Ok(n) case None => Err(MalformedFor))
    case Long(n) => Ok(n)
    case _ => Err(MalformedFor)
  }

  /** getForLoopNode: a variable, three bounds, then '$' and '}'. */
  function ForLoopNodeSpec(ls: LexState): (r: Result<Piece, ParseError>)
    requires Valid(ls) && ls.token.Some?
    ensures r.Ok? ==> Valid(r.value.after) && r.value.after.token.Some? && Rank(r.value.after) < Rank(ls)
    ensures r.Ok? ==> r.value.after.data == ls.data && r.value.after.mode == ls.mode
    ensures r.Ok? ==> Kind(r.value.after) == CloseBrackets
    ensures r.Ok? ==> Kind(ls) == Var
    ensures r.Ok? ==> var n := r.value.node;
      n.ForLoopNode? && n.children == [] && n.variable == ls.token.value.value.s &&
      InLongRange(n.start) && InLongRange(n.end) && InLongRange(n.step)
  {
    if Kind(ls) != Var then Err(MalformedFor)
    else
      var variable := ls.token.value.value.s;
      var l1 :- NextP(ls);
      var start :- ForLoopInteger(l1.token.value);
      var l2 :- NextP(l1);
      var end :- ForLoopInteger(l2.token.value);
      var l3 :- NextP(l2);
      var step :- ForLoopInteger(l3.token.value);
      var l4 :- NextP(l3);
      if Kind(l4) != Dollar then Err(MalformedFor)
      else
        var l5 :- NextP(l4);
        if Kind(l5) != CloseBrackets then Err(MalformedFor)
        else Ok(Piece(ForLoopNode(variable, start, end, step, []), l5))
  }

  /** What one turn of the loop of getEchoNode reads: an element, or the closing "$}". */
  datatype EchoItem = Item(elem: Element, rest: LexState) | Closed(rest: LexState)

  /** The token kinds an echo tag accepts; on any other the tag fails before the lexer moves. */
  predicate EchoKind(k: TokenType2) {
    k == Var || k == Integer || k == Double || k == Text || k == At || k == Operator || k == Dollar
  }

  /**
   * One turn of the loop of getEchoNode: a variable, a number, a string, "@"
   * and a function name, or an operator becomes an element; '$' must be
   * followed by '}'; any other token is an error.
   */
  function EchoStep(ls: LexState): (r: Result<EchoItem, ParseError>)
    requires Valid(ls) && ls.token.Some?
    ensures r.Ok? ==> Valid(r.value.rest) && r.value.rest.token.Some? && Rank(r.value.rest) < Rank(ls)
    ensures r.Ok? ==> r.value.rest.data == ls.data && r.value.rest.mode == ls.mode
    ensures r.Ok? && r.value.Closed? ==> Kind(ls) == Dollar && Kind(r.value.rest) == CloseBrackets
    ensures r.Ok? && ls.mode == TagMode ==> TagModeToken(r.value.rest.token.value)
    ensures r.Ok? && r.value.Item? && TagModeToken(ls.token.value) ==> ValidElement(r.value.elem)
  {
    var tok := ls.token.value;
    if !EchoKind(tok.kind) then Err(MalformedEcho)
    else
      var l1 :- NextP(ls);
      match tok.kind
      case Var => Ok(Item(ElementVariable(tok.value.s), l1))
      case Integer => Ok(Item(ElementConstantInteger(tok.value.n), l1))
      case Double => Ok(Item(ElementConstantDouble(tok.value.lexeme), l1))
      case Text => Ok(Item(ElementString(tok.value.s), l1))
      case At =>
        if Kind(l1) != Var then Err(MalformedFunction)
        else
          var l2 :- NextP(l1);
          Ok(Item(ElementFunction(l1.token.value.value.s), l2))
      case Operator => Ok(Item(ElementOperator([tok.value.c]), l1))
      case Dollar =>
        if Kind(l1) != CloseBrackets then Err(MalformedEcho)
        else Ok(Closed(l1))
      case _ => Err(MalformedEcho)
  }

  /** The loop of getEchoNode, with the elements collected so far. */
  function EchoLoop(ls: LexState, elems: seq<Element>): (r: Result<Piece, ParseError>)
    requires Valid(ls) && ls.token.Some?
    decreases Rank(ls)
    ensures r.Ok? ==> Valid(r.value.after) && r.value.after.token.Some? && Rank(r.value.after) < Rank(ls)
    ensures r.Ok? ==> r.value.after.data == ls.data && r.value.after.mode == ls.mode
    ensures r.Ok? ==> Kind(r.value.after) == CloseBrackets
    ensures r.Ok? ==> r.value.node.EchoNode? && |r.value.node.elements| >= |elems|
  {
    match EchoStep(ls)
    case Err(e) => Err(e)
    case Ok(Closed(l)) => Ok(Piece(EchoNode(elems), l))
    case Ok(Item(e, l)) => EchoLoop(l, elems + [e])
  }

  /** getEchoNode. */
  function EchoNodeSpec(ls: LexState): (r: Result<Piece, ParseError>)
    requires Valid(ls) && ls.token.Some?
    ensures r.Ok? ==> Valid(r.value.after) && r.value.after.token.Some? && Rank(r.value.after) < Rank(ls)
    ensures r.Ok? ==> r.value.after.data == ls.data && r.value.after.mode == ls.mode
    ensures r.Ok? ==> Kind(r.value.after) == CloseBrackets && r.value.node.EchoNode?
  {
    EchoLoop(ls, [])
  }

  // ---------------------------------------------------------------------------
  // The parse loop. Every function below ends by handing the lexer and the
  // stack to the next turn of the loop, so that together they are the whole
  // of parse() from the current token on.

  /** The end of every tag: back to TEXT mode, the next token, and the next turn. */
  function AfterTag(ls: LexState, stack: seq<Node>): (r: Result<Node, ParseError>)
    requires Valid(ls) && StackShape(stack)
    decreases Rank(ls), 0
    ensures r.Ok? ==> r.value.DocumentNode?
    ensures stack == [] ==> r.Err?
  {
    var l :- NextP(ls.(mode := TextMode));
    ParseLoop(l, stack)
  }

  /** After a TEXT token: the next token, TAG mode if it is '{', and the next turn. */
  function AfterText(ls: LexState, stack: seq<Node>): (r: Result<Node, ParseError>)
    requires Valid(ls) && ls.mode == TextMode && StackShape(stack)
    decreases Rank(ls), 0
    ensures r.Ok? ==> r.value.DocumentNode?
    ensures stack == [] ==> r.Err?
  {
    var l :- NextP(ls);
    ParseLoop(if Kind(l) == OpenBrackets then l.(mode := TagMode) else l, stack)
  }

  /** A turn of the loop in TEXT mode: a TEXT token becomes a TextNode of the top container. */
  function TextStep(ls: LexState, stack: seq<Node>): (r: Result<Node, ParseError>)
    requires Valid(ls) && ls.token.Some? && ls.mode == TextMode && StackShape(stack)
    decreases Rank(ls), 1
    ensures r.Ok? ==> r.value.DocumentNode?
    ensures stack == [] ==> r.Err?
  {
    if Kind(ls) != Text then Err(TextExpected)
    else if |stack| == 0 then Err(EmptyStack)
    else AfterText(ls, AttachTop(stack, TextNode(ls.token.value.value.s)))
  }

  /** A FOR tag after its head: the new node goes on the stack. */
  function ForTag(ls: LexState, stack: seq<Node>): (r: Result<Node, ParseError>)
    requires Valid(ls) && StackShape(stack)
    decreases Rank(ls), 1
    ensures r.Ok? ==> r.value.DocumentNode?
    ensures stack == [] ==> r.Err?
  {
    var l :- NextP(ls);
    var p :- ForLoopNodeSpec(l);
    if |stack| == 0 then Err(EmptyStack)
    else AfterTag(p.after, stack + [p.node])
  }

  /** An echo tag after its '=': the new node joins the top container. */
  function EchoTag(ls: LexState, stack: seq<Node>): (r: Result<Node, ParseError>)
    requires Valid(ls) && StackShape(stack)
    decreases Rank(ls), 1
    ensures r.Ok? ==> r.value.DocumentNode?
    ensures stack == [] ==> r.Err?
  {
    var l :- NextP(ls);
    var p :- EchoNodeSpec(l);
    if |stack| == 0 then Err(EmptyStack)
    else AfterTag(p.after, AttachTop(stack, p.node))
  }

  /** An END tag after its head: "$}", then the top FOR node is closed. */
  function EndTag(ls: LexState, stack: seq<Node>): (r: Result<Node, ParseError>)
    requires Valid(ls) && StackShape(stack)
    decreases Rank(ls), 1
    ensures r.Ok? ==> r.value.DocumentNode?
    ensures stack == [] ==> r.Err?
  {
    var l1 :- NextP(ls);
    if Kind(l1) != Dollar then Err(MalformedTag)
    else
      var l2 :- NextP(l1);
      if Kind(l2) != CloseBrackets then Err(MalformedTag)
      else if |stack| == 0 then Err(EmptyStack)
      else AfterTag(l2, CloseTop(stack))
  }

  /** A turn of the loop in TAG mode: "{$", then the rest of the tag. */
  function TagStep(ls: LexState, stack: seq<Node>): (r: Result<Node, ParseError>)
    requires Valid(ls) && ls.token.Some? && StackShape(stack)
    decreases Rank(ls), 1
    ensures r.Ok? ==> r.value.DocumentNode?
    ensures stack == [] ==> r.Err?
  {
    if Kind(ls) != OpenBrackets then Err(MalformedTag)
    else
      var l1 :- NextP(ls);
      if Kind(l1) != Dollar then Err(MalformedTag)
      else
        var l2 :- NextP(l1);
        TagBody(l2, stack)
  }

  /** A tag after its "{$": the head decides between FOR, echo and END. */
  function TagBody(ls: LexState, stack: seq<Node>): (r: Result<Node, ParseError>)
    requires Valid(ls) && ls.token.Some? && StackShape(stack)
    decreases Rank(ls), 2
    ensures r.Ok? ==> r.value.DocumentNode?
    ensures stack == [] ==> r.Err?
  {
    var head := ValueString(ls.token.value.value);
    if head.None? then Err(NullTokenValue)
    else if UpperCase(head.value) == "FOR" then ForTag(ls, stack)
    else if Kind(ls) == Equals then EchoTag(ls, stack)
    else if UpperCase(head.value) == "END" then EndTag(ls, stack)
    else Err(MalformedTag)
  }

  /** The while(true) loop of parse() from the current token, and the stack check after it. */
  function ParseLoop(ls: LexState, stack: seq<Node>): (r: Result<Node, ParseError>)
    requires Valid(ls) && ls.token.Some? && StackShape(stack)
    decreases Rank(ls), 2
    ensures r.Ok? ==> r.value.DocumentNode?
    ensures stack == [] ==> r.Err?
  {
    if Kind(ls) == Eof then
      if |stack| != 1 then Err(Unbalanced) else Ok(stack[0])
    else if ls.mode == TextMode then TextStep(ls, stack)
    else TagStep(ls, stack)
  }

  /** new SmartScriptParser(document).getDocumentNode(). */
  function ParseDocument(document: Option<string>): (r: Result<Node, ParseError>)
    ensures document.None? ==> r == Err(NullDocument)
    ensures r.Ok? ==> r.value.DocumentNode?
  {
    if document.None? then Err(NullDocument)
    else
      var l :- NextP(Initial(document.value));
      ParseLoop(l, [DocumentNode([])])
  }

  // ---------------------------------------------------------------------------
  // What the tag readers build, stated against the tokens they consume.

  /** pop: the FOR node on top joins, as its last child, the container under it; nothing else changes. */
  lemma CloseTopAttaches(stack: seq<Node>)
    requires |stack| > 1 && StackShape(stack)
    ensures var r := CloseTop(stack);
      |r| == |stack| - 1 && r[..|r| - 1] == stack[..|stack| - 2] &&
      r[|r| - 1] == AddChildNode(stack[|stack| - 2], stack[|stack| - 1]) &&
      r[|r| - 1].children == stack[|stack| - 2].children + [stack[|stack| - 1]]
  {
    var rest := stack[..|stack| - 1];
    assert rest[..|rest| - 1] == stack[..|stack| - 2];
  }

  /**
   * A FOR header read by getForLoopNode: after the VAR, three tokens whose
   * values are the start, end and step, then '$' and '}', where it stops.
   * (A head other than a VAR is refused at once: ForLoopNodeSpec's own contract.)
   */
  lemma ForLoopNodeTokens(ls: LexState, p: Piece)
    requires Valid(ls) && ls.token.Some? && ForLoopNodeSpec(ls) == Ok(p)
    ensures Kind(ls) == Var && NextP(ls).Ok?
    ensures var l1 := NextP(ls).value;
      ForLoopInteger(l1.token.value) == Ok(p.node.start) && NextP(l1).Ok? &&
      var l2 := NextP(l1).value;
      ForLoopInteger(l2.token.value) == Ok(p.node.end) && NextP(l2).Ok? &&
      var l3 := NextP(l2).value;
      ForLoopInteger(l3.token.value) == Ok(p.node.step) && NextP(l3).Ok? &&
      var l4 := NextP(l3).value;
      Kind(l4) == Dollar && NextP(l4) == Ok(p.after)
  {
  }

  /**
   * One turn of the echo loop: a token of a kind the tag does not accept fails
   * as MalformedEcho before the lexer moves; a VAR, number, string or operator
   * becomes the element holding its value; '@' must be followed by a VAR, whose
   * name is the function's; '$' closes the tag exactly when '}' follows.
   */
  lemma EchoStepCases(ls: LexState)
    requires Valid(ls) && ls.token.Some?
    ensures var tok := ls.token.value;
      !EchoKind(tok.kind) ==> EchoStep(ls) == Err(MalformedEcho)
    ensures var tok := ls.token.value;
      EchoKind(tok.kind) && NextP(ls).Err? ==> EchoStep(ls) == Err(NextP(ls).error)
    ensures var tok := ls.token.value;
      NextP(ls).Ok? ==>
        var l1 := NextP(ls).value;
        (tok.kind == Var ==> EchoStep(ls) == Ok(Item(ElementVariable(tok.value.s), l1))) &&
        (tok.kind == Integer ==> EchoStep(ls) == Ok(Item(ElementConstantInteger(tok.value.n), l1))) &&
        (tok.kind == Double ==> EchoStep(ls) == Ok(Item(ElementConstantDouble(tok.value.lexeme), l1))) &&
        (tok.kind == Text ==> EchoStep(ls) == Ok(Item(ElementString(tok.value.s), l1))) &&
        (tok.kind == Operator ==> EchoStep(ls) == Ok(Item(ElementOperator([tok.value.c]), l1))) &&
        (tok.kind == At && Kind(l1) != Var ==> EchoStep(ls) == Err(MalformedFunction)) &&
        (tok.kind == At && Kind(l1) == Var ==>
          (EchoStep(ls).Ok? <==> NextP(l1).Ok?) &&
          (NextP(l1).Ok? ==> EchoStep(ls) == Ok(Item(ElementFunction(l1.token.value.value.s), NextP(l1).value)))) &&
        (tok.kind == Dollar ==>
          EchoStep(ls) == if Kind(l1) == CloseBrackets then Ok(Closed(l1)) else Err(MalformedEcho))
  {
  }

  /** An echo tag's outcome with `elems` placed before its elements; a failure is kept. */
  function Prefixed(elems: seq<Element>, r: Result<Piece, ParseError>): Result<Piece, ParseError> {
    match r
    case Ok(Piece(EchoNode(es), after)) => Ok(Piece(EchoNode(elems + es), after))
    case _ => r
  }

  lemma PrefixedTwice(a: seq<Element>, b: seq<Element>, r: Result<Piece, ParseError>)
    ensures Prefixed(a, Prefixed(b, r)) == Prefixed(a + b, r)
  {
    match r
    case Ok(Piece(EchoNode(es), after)) =>
      assert a + (b + es) == (a + b) + es;
    case _ =>
  }

  /** One turn of the loop of getEchoNode, with the elements collected so far. */
  lemma EchoLoopUnfold(ls: LexState, elems: seq<Element>)
    requires Valid(ls) && ls.token.Some?
    ensures EchoStep(ls).Err? ==> EchoLoop(ls, elems) == Err(EchoStep(ls).error)
    ensures EchoStep(ls).Ok? && EchoStep(ls).value.Closed? ==>
      EchoLoop(ls, elems) == Ok(Piece(EchoNode(elems), EchoStep(ls).value.rest))
    ensures EchoStep(ls).Ok? && EchoStep(ls).value.Item? ==>
      EchoLoop(ls, elems) == EchoLoop(EchoStep(ls).value.rest, elems + [EchoStep(ls).value.elem])
  {
  }

  /**
   * The echo loop appends, after the elements already collected, exactly the
   * elements getEchoNode reads from the same token, and fails as it fails.
   */
  lemma {:induction false} EchoLoopCollects(ls: LexState, elems: seq<Element>)
    requires Valid(ls) && ls.token.Some?
    decreases Rank(ls)
    ensures EchoLoop(ls, elems) == Prefixed(elems, EchoNodeSpec(ls))
  {
    EchoLoopUnfold(ls, elems);
    EchoLoopUnfold(ls, []);
    var s := EchoStep(ls);
    if s.Ok? && s.value.Closed? {
      assert elems + [] == elems;
    } else if s.Ok? {
      var e, l := s.value.elem, s.value.rest;
      assert [] + [e] == [e];
      EchoLoopCollects(l, elems + [e]);
      EchoLoopCollects(l, [e]);
      PrefixedTwice(elems, [e], EchoNodeSpec(l));
    }
  }

  /**
   * getEchoNode element by element: "$}" gives an echo node without elements;
   * an element followed by the rest of the tag gives that element before the
   * rest's elements; a failing turn fails the tag.
   */
  lemma EchoNodeSteps(ls: LexState)
    requires Valid(ls) && ls.token.Some?
    ensures EchoStep(ls).Err? ==> EchoNodeSpec(ls) == Err(EchoStep(ls).error)
    ensures EchoStep(ls).Ok? && EchoStep(ls).value.Closed? ==>
      EchoNodeSpec(ls) == Ok(Piece(EchoNode([]), EchoStep(ls).value.rest))
    ensures EchoStep(ls).Ok? && EchoStep(ls).value.Item? ==>
      EchoNodeSpec(ls) == Prefixed([EchoStep(ls).value.elem], EchoNodeSpec(EchoStep(ls).value.rest))
  {
    EchoLoopUnfold(ls, []);
    if EchoStep(ls).Ok? && EchoStep(ls).value.Item? {
      var e, l := EchoStep(ls).value.elem, EchoStep(ls).value.rest;
      assert [] + [e] == [e];
      EchoLoopCollects(l, [e]);
    }
  }

  /** At EOF the loop ends: success exactly when only the document node is left, which is the result. */
  lemma ParseLoopEof(ls: LexState, stack: seq<Node>)
    requires Valid(ls) && ls.token.Some? && StackShape(stack) && Kind(ls) == Eof
    ensures ParseLoop(ls, stack).Ok? <==> |stack| == 1
    ensures ParseLoop(ls, stack).Err? ==> ParseLoop(ls, stack) == Err(Unbalanced)
    ensures |stack| == 1 ==> ParseLoop(ls, stack) == Ok(stack[0])
  {
  }

  /**
   * The opening of a tag in parse: anything but '{' is "'{' was expected", a
   * token after '{' other than '$' is "'$' was expected", a lexer failure on
   * either step ends the parse, and after "{$" the next token is the tag head.
   */
  lemma TagStepRejects(ls: LexState, stack: seq<Node>)
    requires Valid(ls) && ls.token.Some? && StackShape(stack)
    ensures Kind(ls) != OpenBrackets ==> TagStep(ls, stack) == Err(MalformedTag)
    ensures Kind(ls) == OpenBrackets && NextP(ls).Err? ==> TagStep(ls, stack) == Err(NextP(ls).error)
    ensures Kind(ls) == OpenBrackets && NextP(ls).Ok? ==>
      var l1 := NextP(ls).value;
      (Kind(l1) != Dollar ==> TagStep(ls, stack) == Err(MalformedTag)) &&
      (Kind(l1) == Dollar ==> TagStep(ls, stack) == if NextP(l1).Err? then Err(NextP(l1).error) else TagBody(NextP(l1).value, stack))
  {
  }

  /**
   * The tag head: a head without a string value fails with a null value; FOR
   * (in any case) is a FOR tag, '=' an echo tag, END (in any case) an END tag,
   * and every other head is an invalid tag.
   */
  lemma TagBodyRejects(ls: LexState, stack: seq<Node>)
    requires Valid(ls) && ls.token.Some? && StackShape(stack)
    ensures var head := ValueString(ls.token.value.value);
      head.None? ==> TagBody(ls, stack) == Err(NullTokenValue)
    ensures var head := ValueString(ls.token.value.value);
      (head.Some? && UpperCase(head.value) == "FOR") ==> TagBody(ls, stack) == ForTag(ls, stack)
    ensures var head := ValueString(ls.token.value.value);
      (head.Some? && UpperCase(head.value) != "FOR" && Kind(ls) == Equals) ==>
        TagBody(ls, stack) == EchoTag(ls, stack)
    ensures var head := ValueString(ls.token.value.value);
      (head.Some? && UpperCase(head.value) != "FOR" && Kind(ls) != Equals && UpperCase(head.value) == "END") ==>
        TagBody(ls, stack) == EndTag(ls, stack)
    ensures var head := ValueString(ls.token.value.value);
      (head.Some? && UpperCase(head.value) != "FOR" && Kind(ls) != Equals && UpperCase(head.value) != "END") ==>
        TagBody(ls, stack) == Err(MalformedTag)
  {
  }

  /**
   * The END tag: the token after END must be '$' and the one after that '}',
   * each otherwise an invalid END tag; a lexer failure ends the parse; with
   * "$}" read, an empty stack fails and otherwise the top node is popped.
   */
  lemma EndTagRejects(ls: LexState, stack: seq<Node>)
    requires Valid(ls) && StackShape(stack)
    ensures NextP(ls).Err? ==> EndTag(ls, stack) == Err(NextP(ls).error)
    ensures NextP(ls).Ok? && Kind(NextP(ls).value) != Dollar ==> EndTag(ls, stack) == Err(MalformedTag)
    ensures NextP(ls).Ok? && Kind(NextP(ls).value) == Dollar ==>
      var l1 := NextP(ls).value;
      (NextP(l1).Err? ==> EndTag(ls, stack) == Err(NextP(l1).error)) &&
      (NextP(l1).Ok? && Kind(NextP(l1).value) != CloseBrackets ==> EndTag(ls, stack) == Err(MalformedTag)) &&
      (NextP(l1).Ok? && Kind(NextP(l1).value) == CloseBrackets ==>
        EndTag(ls, stack) == if stack == [] then Err(EmptyStack) else AfterTag(NextP(l1).value, CloseTop(stack)))
  {
  }
}

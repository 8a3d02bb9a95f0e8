/**
 * The class SmartScriptParser: the document, the Lexer2 it drives, and the
 * stack of open containers, changed in place while parse() runs. Every
 * method is proved against the function of ParserSpec it stands for.
 */
module ParserClass {
  import opened Wrappers
  import opened Chars
  import opened Longs
  import opened Lexer2Scan
  import opened Nodes
  import opened ParserSpec
  import opened Lexer2Class

  /** What a call that may throw leaves behind: the lexer's new state, or the exception. */
  function Moved<T>(r: Result<T, ParseError>, ls: LexState): Result<LexState, ParseError> {
    if r.Ok? then Ok(ls) else Err(r.error)
  }

  /** The same for a call that builds a node. */
  function Built(r: Result<Node, ParseError>, ls: LexState): Result<Piece, ParseError> {
    if r.Ok? then Ok(Piece(r.value, ls)) else Err(r.error)
  }

  class SmartScriptParser {
    /** The text being parsed. */
    const document: string
    const lexer: Lexer2
    /** The open containers, the document node at the bottom. */
    var stack: seq<Node>
    /** The tree built by the constructor. */
    var mainNode: Node

    /** The parser's view of its lexer. */
    function Lexer(): LexState
      reads lexer, lexer.data
    {
      lexer.State()
    }

    /** Sets up the fields; the parse itself is done by New. */
    constructor Init(text: string)
      ensures document == text && Lexer() == Initial(text) && stack == []
      ensures fresh(lexer) && fresh(lexer.data)
    {
      document := text;
      lexer := new Lexer2(text);
      stack := [];
      mainNode := DocumentNode([]);
    }

    /**
     * new SmartScriptParser(document): a null document is refused; otherwise
     * the document is parsed at once and the parser keeps the tree.
     */
    static method New(text: Option<string>) returns (r: Result<SmartScriptParser, ParseError>)
      ensures r.Ok? <==> ParseDocument(text).Ok?
      ensures r.Ok? ==> fresh(r.value) && r.value.mainNode == ParseDocument(text).value
      ensures r.Err? ==> r.error == ParseDocument(text).error
    {
      if text.None? {
        return Err(NullDocument);
      }
      var p := new SmartScriptParser.Init(text.value);
      var tree := p.Parse();
      if tree.Err? {
        return Err(tree.error);
      }
      p.mainNode := tree.value;
      return Ok(p);
    }

    /** getDocumentNode. */
    method GetDocumentNode() returns (n: Node)
      ensures n == mainNode
    {
      n := mainNode;
    }

    /** lexer.nextToken() as parse sees it: a lexer exception ends the parse. */
    method NextToken() returns (r: Result<Token2, ParseError>)
      requires Valid(Lexer())
      modifies lexer
      ensures Moved(r, Lexer()) == NextP(old(Lexer()))
      ensures r.Ok? ==> lexer.token == Some(r.value)
    {
      var t := lexer.NextToken();
      if t.Err? {
        return Err(LexFailure(t.error));
      }
      return Ok(t.value);
    }

    /** isTokenOfType. */
    method IsTokenOfType(kind: TokenType2) returns (b: bool)
      requires lexer.token.Some?
      ensures b <==> lexer.token.value.kind == kind
    {
      var t := lexer.GetToken();
      b := t.value.kind == kind;
    }

    /** getTextNode: a text node holding the current token's text. */
    method GetTextNode() returns (n: Node)
      requires lexer.token.Some? && lexer.token.value.value.Str?
      ensures n == TextNode(lexer.token.value.value.s)
    {
      var t := lexer.GetToken();
      n := TextNode(t.value.value.s);
    }

    /** getForLoopInteger on the current token. */
    method GetForLoopInteger() returns (r: Result<int, ParseError>)
      requires lexer.token.Some? && TokenWF(lexer.token.value)
      ensures r == ForLoopInteger(lexer.token.value)
    {
      var t := lexer.GetToken();
      match t.value.value
      case Str(s) =>
        var n := ParseLong(s);
        if n.None? {
          return Err(MalformedFor);
        }
        return Ok(n.value);
      case Long(n) =>
        return Ok(n);
      case _ =>
        return Err(MalformedFor);
    }

    /** getForLoopNode. */
    method GetForLoopNode() returns (r: Result<Node, ParseError>)
      requires Valid(Lexer()) && lexer.token.Some?
      modifies lexer
      ensures Built(r, Lexer()) == ForLoopNodeSpec(old(Lexer()))
    {
      var isVar := IsTokenOfType(Var);
      if !isVar {
        return Err(MalformedFor);
      }
      var variable := lexer.token.value.value.s;
      var t := NextToken();
      if t.Err? {
        return Err(t.error);
      }
      var start := GetForLoopInteger();
      if start.Err? {
        return Err(start.error);
      }
      t := NextToken();
      if t.Err? {
        return Err(t.error);
      }
      var end := GetForLoopInteger();
      if end.Err? {
        return Err(end.error);
      }
      t := NextToken();
      if t.Err? {
        return Err(t.error);
      }
      var step := GetForLoopInteger();
      if step.Err? {
        return Err(step.error);
      }
      t := NextToken();
      if t.Err? {
        return Err(t.error);
      }
      var isDollar := IsTokenOfType(Dollar);
      if !isDollar {
        return Err(MalformedFor);
      }
      t := NextToken();
      if t.Err? {
        return Err(t.error);
      }
      var isClose := IsTokenOfType(CloseBrackets);
      if !isClose {
        return Err(MalformedFor);
      }
      return Ok(ForLoopNode(variable, start.value, end.value, step.value, []));
    }

    /** fillElement: the collected elements copied into a new array. */
    static method FillElement(coll: seq<Element>) returns (elements: array<Element>)
      ensures fresh(elements) && elements[..] == coll
    {
      elements := new Element[|coll|];
      for i := 0 to |coll|
        invariant elements[..i] == coll[..i]
      {
        elements[i] := coll[i];
      }
    }

    /** getEchoNode: elements up to "$}". */
    method GetEchoNode() returns (r: Result<Node, ParseError>)
      requires Valid(Lexer()) && lexer.token.Some?
      modifies lexer
      ensures Built(r, Lexer()) == EchoNodeSpec(old(Lexer()))
    {
      ghost var goal := EchoLoop(Lexer(), []);
      var elems: seq<Element> := [];
      while true
        invariant Valid(Lexer()) && lexer.token.Some?
        invariant EchoLoop(Lexer(), elems) == goal
        decreases Rank(Lexer())
      {
        var token := lexer.GetToken();
        var kind := token.value.kind;
        var t: Result<Token2, ParseError>;
        if kind == Var {
          elems := elems + [ElementVariable(token.value.value.s)];
          t := NextToken();
        } else if kind == Integer {
          elems := elems + [ElementConstantInteger(token.value.value.n)];
          t := NextToken();
        } else if kind == Double {
          elems := elems + [ElementConstantDouble(token.value.value.lexeme)];
          t := NextToken();
        } else if kind == Text {
          elems := elems + [ElementString(token.value.value.s)];
          t := NextToken();
        } else if kind == At {
          t := NextToken();
          if t.Err? {
            return Err(t.error);
          }
          var isVar := IsTokenOfType(Var);
          if !isVar {
            return Err(MalformedFunction);
          }
          elems := elems + [ElementFunction(lexer.token.value.value.s)];
          t := NextToken();
        } else if kind == Operator {
          elems := elems + [ElementOperator([token.value.value.c])];
          t := NextToken();
        } else if kind == Dollar {
          t := NextToken();
          if t.Err? {
            return Err(t.error);
          }
          var isClose := IsTokenOfType(CloseBrackets);
          if !isClose {
            return Err(MalformedEcho);
          }
          break;
        } else {
          return Err(MalformedEcho);
        }
        if t.Err? {
          return Err(t.error);
        }
      }
      var elements := FillElement(elems);
      return Ok(EchoNode(elements[..]));
    }

    /** The TEXT-mode branch of the loop of parse. */
    method ParseText() returns (r: Result<(), ParseError>)
      requires Valid(Lexer()) && lexer.token.Some? && lexer.state == TextMode && StackShape(stack)
      modifies this, lexer
      ensures r.Ok? ==> Valid(Lexer()) && lexer.token.Some? && StackShape(stack)
      ensures r.Ok? ==> Rank(Lexer()) < old(Rank(Lexer()))
      ensures r.Ok? ==> ParseLoop(Lexer(), stack) == old(TextStep(Lexer(), stack))
      ensures r.Err? ==> old(TextStep(Lexer(), stack)) == Err(r.error)
    {
      var isText := IsTokenOfType(Text);
      if !isText {
        return Err(TextExpected);
      }
      if |stack| == 0 {
        return Err(EmptyStack);
      }
      var textNode := GetTextNode();
      stack := AttachTop(stack, textNode);
      var t := NextToken();
      if t.Err? {
        return Err(t.error);
      }
      var isOpen := IsTokenOfType(OpenBrackets);
      if isOpen {
        lexer.SetState(TagMode);
      }
      return Ok(());
    }

    /** A FOR tag after its head: the FOR node goes on the stack. */
    method ParseForTag() returns (r: Result<(), ParseError>)
      requires Valid(Lexer()) && StackShape(stack)
      modifies this, lexer
      ensures r.Ok? ==> Valid(Lexer()) && StackShape(stack) && Rank(Lexer()) < old(Rank(Lexer()))
      ensures r.Ok? ==> AfterTag(Lexer(), stack) == old(ForTag(Lexer(), stack))
      ensures r.Err? ==> old(ForTag(Lexer(), stack)) == Err(r.error)
    {
      var t := NextToken();
      if t.Err? {
        return Err(t.error);
      }
      var forNode := GetForLoopNode();
      if forNode.Err? {
        return Err(forNode.error);
      }
      if |stack| == 0 {
        return Err(EmptyStack);
      }
      stack := stack + [forNode.value];
      return Ok(());
    }

    /** An echo tag after its '=': the echo node joins the top container. */
    method ParseEchoTag() returns (r: Result<(), ParseError>)
      requires Valid(Lexer()) && StackShape(stack)
      modifies this, lexer
      ensures r.Ok? ==> Valid(Lexer()) && StackShape(stack) && Rank(Lexer()) < old(Rank(Lexer()))
      ensures r.Ok? ==> AfterTag(Lexer(), stack) == old(EchoTag(Lexer(), stack))
      ensures r.Err? ==> old(EchoTag(Lexer(), stack)) == Err(r.error)
    {
      var t := NextToken();
      if t.Err? {
        return Err(t.error);
      }
      var echoNode := GetEchoNode();
      if echoNode.Err? {
        return Err(echoNode.error);
      }
      if |stack| == 0 {
        return Err(EmptyStack);
      }
      stack := AttachTop(stack, echoNode.value);
      return Ok(());
    }

    /** An END tag after its head: "$}", then the top container is popped. */
    method ParseEndTag() returns (r: Result<(), ParseError>)
      requires Valid(Lexer()) && StackShape(stack)
      modifies this, lexer
      ensures r.Ok? ==> Valid(Lexer()) && StackShape(stack) && Rank(Lexer()) < old(Rank(Lexer()))
      ensures r.Ok? ==> AfterTag(Lexer(), stack) == old(EndTag(Lexer(), stack))
      ensures r.Err? ==> old(EndTag(Lexer(), stack)) == Err(r.error)
    {
      var t := NextToken();
      if t.Err? {
        return Err(t.error);
      }
      if t.value.kind != Dollar {
        return Err(MalformedTag);
      }
      t := NextToken();
      if t.Err? {
        return Err(t.error);
      }
      if t.value.kind != CloseBrackets {
        return Err(MalformedTag);
      }
      if |stack| == 0 {
        return Err(EmptyStack);
      }
      stack := CloseTop(stack);
      return Ok(());
    }

    /** The rest of a tag after "{$": the head decides between FOR, echo and END. */
    method ParseTagBody() returns (r: Result<(), ParseError>)
      requires Valid(Lexer()) && lexer.token.Some? && StackShape(stack)
      modifies this, lexer
      ensures r.Ok? ==> Valid(Lexer()) && StackShape(stack) && Rank(Lexer()) < old(Rank(Lexer()))
      ensures r.Ok? ==> AfterTag(Lexer(), stack) == old(TagBody(Lexer(), stack))
      ensures r.Err? ==> old(TagBody(Lexer(), stack)) == Err(r.error)
    {
      var token := lexer.GetToken();
      var head := ValueString(token.value.value);
      if head.None? {
        return Err(NullTokenValue);
      }
      var isEquals := IsTokenOfType(Equals);
      if UpperCase(head.value) == "FOR" {
        r := ParseForTag();
      } else if isEquals {
        r := ParseEchoTag();
      } else if UpperCase(head.value) == "END" {
        r := ParseEndTag();
      } else {
        r := Err(MalformedTag);
      }
    }

    /** The TAG-mode branch of the loop of parse: one whole tag and the token after it. */
    method ParseTag() returns (r: Result<(), ParseError>)
      requires Valid(Lexer()) && lexer.token.Some? && StackShape(stack)
      modifies this, lexer
      ensures r.Ok? ==> Valid(Lexer()) && lexer.token.Some? && StackShape(stack)
      ensures r.Ok? ==> Rank(Lexer()) < old(Rank(Lexer()))
      ensures r.Ok? ==> ParseLoop(Lexer(), stack) == old(TagStep(Lexer(), stack))
      ensures r.Err? ==> old(TagStep(Lexer(), stack)) == Err(r.error)
    {
      var isEof := IsTokenOfType(Eof);
      if isEof {
        return Err(MalformedTag);
      }
      var isOpen := IsTokenOfType(OpenBrackets);
      if !isOpen {
        return Err(MalformedTag);
      }
      var t := NextToken();
      if t.Err? {
        return Err(t.error);
      }
      var isDollar := IsTokenOfType(Dollar);
      if !isDollar {
        return Err(MalformedTag);
      }
      t := NextToken();
      if t.Err? {
        return Err(t.error);
      }
      var tag := ParseTagBody();
      if tag.Err? {
        return Err(tag.error);
      }
      lexer.SetState(TextMode);
      t := NextToken();
      if t.Err? {
        return Err(t.error);
      }
      return Ok(());
    }

    /** parse, on a freshly made lexer: the tree the document describes, or the exception. */
    method Parse() returns (r: Result<Node, ParseError>)
      requires Lexer() == Initial(document)
      modifies this, lexer
      ensures r == ParseDocument(Some(document))
    {
      var t := NextToken();
      if t.Err? {
        return Err(t.error);
      }
      stack := [DocumentNode([])];
      while true
        invariant Valid(Lexer()) && lexer.token.Some? && StackShape(stack)
        invariant ParseLoop(Lexer(), stack) == ParseDocument(Some(document))
        decreases Rank(Lexer())
      {
        var isEof := IsTokenOfType(Eof);
        if isEof {
          break;
        }
        var state := lexer.GetState();
        var step: Result<(), ParseError>;
        if state == TextMode {
          step := ParseText();
        } else {
          step := ParseTag();
        }
        if step.Err? {
          return Err(step.error);
        }
      }
      if |stack| != 1 {
        return Err(Unbalanced);
      }
      return Ok(stack[0]);
    }
  }
}

/**
 * The trees the parser can build: node by node, what the lexer's tokens
 * guarantee about the pieces, and the order in which TEXT and tags can
 * follow each other in a document.
 */
module Shapes {
  import opened Longs
  import opened Lexer2Scan
  import opened Nodes

  /** The text of a TextNode: at least one character, '{' only escaped, no lone backslash at the end. */
  predicate ValidText(t: string) {
    |t| > 0 && EscapedRun(t)
  }

  /** A variable or function name the lexer reads as a VAR token. */
  predicate ValidIdent(n: string) {
    ValidName(n) && !IsKeyword(n)
  }

  predicate ValidElement(e: Element) {
    match e
    case ElementVariable(n) => ValidIdent(n)
    case ElementConstantInteger(v) => InLongRange(v)
    case ElementConstantDouble(lexeme) => ValidDoubleLexeme(lexeme)
    case ElementFunction(n) => ValidIdent(n)
    case ElementOperator(symbol) => |symbol| == 1 && IsOperator(symbol[0])
    case ElementString(t) => QuotedRun(t)
  }

  predicate ValidElements(es: seq<Element>) {
    forall i :: 0 <= i < |es| ==> ValidElement(es[i])
  }

  /** The FOR tag's own parts: a variable and three long bounds. */
  predicate ValidHeader(n: Node) {
    n.ForLoopNode? && ValidIdent(n.variable) &&
    InLongRange(n.start) && InLongRange(n.end) && InLongRange(n.step)
  }

  /**
   * Children of a container: TEXT at even positions and tags at odd ones,
   * because the parser reads a tag only after a text and a text only after
   * a tag or at the start.
   */
  predicate ValidChildren(cs: seq<Node>)
    decreases cs, 1
  {
    forall k :: 0 <= k < |cs| ==> ValidChild(cs[k], k)
  }

  /** The child at position k of a container. */
  predicate ValidChild(c: Node, k: nat)
    decreases c, 0
  {
    if k % 2 == 0 then c.TextNode? && ValidText(c.text)
    else
      match c
      case EchoNode(es) => ValidElements(es)
      case ForLoopNode(_, _, _, _, ch) => ValidHeader(c) && ValidTagBody(ch)
      case _ => false
  }

  /** The children of a closed FOR node: they start and end with a text. */
  predicate ValidTagBody(ch: seq<Node>)
    decreases ch, 2
  {
    |ch| % 2 == 1 && ValidChildren(ch)
  }

  /** A document the parser can produce. */
  predicate ValidDocument(n: Node) {
    n.DocumentNode? && ValidChildren(n.children)
  }
}

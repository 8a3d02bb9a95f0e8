/**
 * createOriginalDocumentBody and its helpers: a tree back to document text.
 * FOR headers and echo elements are written with single spaces, texts as
 * they were read.
 */
module Serializer {
  import opened Wrappers
  import opened Longs
  import opened Nodes

  /** asText of an element, with the quotes and '@' getEchoText adds. */
  function ElementText(e: Element): string {
    match e
    case ElementVariable(n) => n
    case ElementString(t) => "\"" + t + "\""
    case ElementFunction(n) => "@" + n
    case ElementConstantInteger(v) => LongToString(v)
    case ElementOperator(symbol) => symbol
    case ElementConstantDouble(lexeme) => lexeme
  }

  /** The loop of getEchoText: every element followed by a space. */
  function ElementsText(es: seq<Element>): string {
    if es == [] then "" else ElementText(es[0]) + " " + ElementsText(es[1..])
  }

  /** getEchoText. */
  function EchoText(es: seq<Element>): string {
    "{$= " + ElementsText(es) + "$}"
  }

  /** getForLoopText. */
  function ForLoopText(variable: string, start: int, end: int, step: int): string {
    "{$FOR " + variable + " " + LongToString(start) + " " + LongToString(end) + " " + LongToString(step) + " $}"
  }

  const END_TAG: string := "{$END$}"

  /** What the loop of createOriginalDocumentBody appends for one child. */
  function ChildText(c: Node): string
    decreases c, 0
  {
    match c
    case ForLoopNode(v, s, e, st, ch) => ForLoopText(v, s, e, st) + ChildrenText(ch) + END_TAG
    case EchoNode(es) => EchoText(es)
    case TextNode(t) => t
    case DocumentNode(_) => ""
  }

  /** The loop of createOriginalDocumentBody over a node's children. */
  function ChildrenText(cs: seq<Node>): string
    decreases cs, 1
  {
    if cs == [] then "" else ChildText(cs[0]) + ChildrenText(cs[1..])
  }

  /** createOriginalDocumentBody: "" for null and for a node without children. */
  function DocumentBody(node: Option<Node>): (r: string)
    ensures node.None? || !IsContainer(node.value) || node.value.children == [] ==> r == ""
  {
    match node
    case None => ""
    case Some(n) => if IsContainer(n) then ChildrenText(n.children) else ""
  }

  /** The text of a list of children is the texts of its parts, in order. */
  lemma {:induction false} ChildrenTextAppend(a: seq<Node>, b: seq<Node>)
    ensures ChildrenText(a + b) == ChildrenText(a) + ChildrenText(b)
    decreases |a|
  {
    if a == [] {
      assert a + b == b;
    } else {
      assert (a + b)[1..] == a[1..] + b;
      ChildrenTextAppend(a[1..], b);
    }
  }
}

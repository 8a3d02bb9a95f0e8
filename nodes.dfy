/**
 * The document tree: the Element classes (package ...scripting.elems) and the
 * Node classes (package ...scripting.nodes) as values. A parent owns its
 * children, in document order.
 */
module Nodes {

  datatype Element =
    | ElementVariable(name: string)
    | ElementConstantInteger(number: int)
    | ElementConstantDouble(lexeme: string)
    | ElementFunction(name: string)
    | ElementOperator(symbol: string)
    | ElementString(text: string)

  datatype Node =
    | DocumentNode(children: seq<Node>)
    | TextNode(text: string)
    | EchoNode(elements: seq<Element>)
    | ForLoopNode(variable: string, start: int, end: int, step: int, children: seq<Node>)

  predicate IsContainer(n: Node) {
    n.DocumentNode? || n.ForLoopNode?
  }

  /** addChildNode on a document or a for-loop node: the child goes last. */
  function AddChildNode(parent: Node, child: Node): (r: Node)
    requires IsContainer(parent)
    ensures IsContainer(r) && r.DocumentNode? == parent.DocumentNode?
    ensures r.children == parent.children + [child]
    ensures r.ForLoopNode? ==> r == parent.(children := parent.children + [child])
  {
    parent.(children := parent.children + [child])
  }
}

/**
 * The parsed XML document the registry reader walks, as the DOM presents it:
 * elements with attributes and ordered children, text nodes and comments.
 * Parsing bytes into this tree is not modelled; the reader receives the tree.
 */
module Dom {
  import opened Wrappers

  datatype Node =
    | Element(tagName: string, attributes: map<string, string>, children: seq<Node>)
    | Text(data: string)
    | Comment(data: string)

  datatype Document = Document(documentElement: Node)

  /** `Element.getAttribute`: the attribute's value, or "" when the element has none. */
  function GetAttribute(e: Node, name: string): string
    requires e.Element?
  {
    if name in e.attributes then e.attributes[name] else ""
  }

  /**
   * `getAttributes().getNamedItem(name)` followed by `getNodeValue()`:
   * `None` is the null attribute node the DOM returns when the attribute is absent.
   */
  function NamedItemValue(e: Node, name: string): Option<string>
    requires e.Element?
  {
    if name in e.attributes then Some(e.attributes[name]) else None
  }

  /** `Node.getTextContent`: an element's text is that of its subtree, comments excluded. */
  function TextContent(n: Node): string
  {
    match n
    case Element(_, _, children) => ChildrenText(children)
    case Text(data) => data
    case Comment(data) => data
  }

  function ChildrenText(nodes: seq<Node>): string
  {
    if nodes == [] then ""
    else (if nodes[0].Comment? then "" else TextContent(nodes[0])) + ChildrenText(nodes[1..])
  }

  /**
   * `getElementsByTagName` over a forest: every element with the given tag
   * name, in document (pre-)order, at any depth.
   */
  function ElementsByTagName(nodes: seq<Node>, tag: string): (r: seq<Node>)
    ensures forall i :: 0 <= i < |r| ==> r[i].Element? && r[i].tagName == tag
  {
    if nodes == [] then []
    else
      var here := match nodes[0]
        case Element(t, _, children) => (if t == tag then [nodes[0]] else []) + ElementsByTagName(children, tag)
        case _ => [];
      here + ElementsByTagName(nodes[1..], tag)
  }

  function DocumentElementsByTagName(doc: Document, tag: string): (r: seq<Node>)
    ensures forall i :: 0 <= i < |r| ==> r[i].Element? && r[i].tagName == tag
  {
    ElementsByTagName([doc.documentElement], tag)
  }
}

/** The XML side of the extractors: an abstract element tree, the values an
    extractor produces, and the XML library (parsing, location-path selection,
    serialisation) as functions the model does not implement. */
module Xml {
  import opened Base

  /** An element: its tag, its optional text content and its child elements
      (iterating an element yields its children). */
  datatype XmlNode = XmlNode(tag: string, text: Option<string>, children: seq<XmlNode>)

  /** Outcome of evaluating a location path: an evaluation error, or the
      selected elements in document order. */
  datatype XPathResult = XPathError | NodeSet(nodes: seq<XmlNode>)

  /** The XML library: `etree.fromstring` (None for malformed input),
      `element.xpath(path, namespaces=...)` with the fixed namespace table,
      and `etree.tostring`. */
  datatype XmlLib = XmlLib(
    fromstring: string -> Option<XmlNode>,
    xpath: (XmlNode, string) -> XPathResult,
    tostring: XmlNode -> string)

  /** What an extractor yields: None, a string, an element, or a list. */
  datatype Value = Null | Str(str: string) | Node(node: XmlNode) | List(items: seq<Value>)

  /** `value.text if hasattr(value, 'text') else value`: only elements have a
      `text` attribute, and an element without text content gives None. */
  function TextOf(v: Value): Value
  {
    match v
    case Node(n) => if n.text.Some? then Str(n.text.value) else Null
    case _ => v
  }

  /** `iter(v)`: a string yields its characters, an element its children, a
      list its items; None is not iterable. */
  function Iterate(v: Value): Option<seq<Value>>
  {
    match v
    case Null => None
    case Str(s) => Some(seq(|s|, k requires 0 <= k < |s| => Str([s[k]])))
    case Node(n) => Some(seq(|n.children|, k requires 0 <= k < |n.children| => Node(n.children[k])))
    case List(items) => Some(items)
  }

  /** The string an item of an iterated value adds to a `MultiAttribute`
      accumulator: an element's text, or the item itself when it is a string;
      None when `value + item + separator` raises `TypeError`. */
  function ItemText(v: Value): Option<string>
  {
    match v
    case Node(n) => n.text
    case Str(s) => Some(s)
    case _ => None
  }
}

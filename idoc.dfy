/** An IDoc as the scripts see it after `ElementTree` parsing: a tree of
    elements, each with a tag, attributes in document order, its text and
    its child elements in document order. */
module Idoc {

  /** `text` is the element's leading text; an element without text has "",
      which every script treats exactly as it treats None. */
  datatype Element = Element(tag: string, attrs: seq<(string, string)>, text: string, children: seq<Element>)
}

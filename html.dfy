/**
 * The markup the picture helpers build with MVC's `TagBuilder`.  A tag
 * builder keeps its attributes in a dictionary ordered by key, so an element
 * is its tag name and a map; the `InnerHtml` of a `<picture>` is the
 * sequence of the elements appended to it.
 */
module Html {
  datatype Element = Element(tag: string, attributes: map<string, string>)

  /** What a picture helper returns: the empty string, or a `<picture>` element with its children in order. */
  datatype Markup = NoMarkup | PictureElement(children: seq<Element>)
}

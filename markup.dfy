/** The parsed document as the portal's field lookups see it, the parser
    configuration, and the outcome of a parse. The parser itself (lxml,
    with its DTD loading and entity resolution) is not modelled: its
    outcome is an input of the portal. */
module Markup {

  import opened Wrappers

  /** One byte of an uploaded file. */
  newtype byte = x: int | 0 <= x < 256

  /** An element of the parsed tree: its tag, its own text (lxml's
      `.text`: the text before its first child, `None` when there is
      none) and its child elements, in document order. */
  datatype Element = Element(tag: string, text: Option<string>, children: seq<Element>)

  /** The three options the portal hands to `etree.XMLParser`. */
  datatype ParserPolicy = ParserPolicy(loadDtd: bool, resolveEntities: bool, noNetwork: bool)

  /** The options written out at the parser's construction: external DTDs
      are loaded, entities are resolved and the network may be used. */
  const PortalPolicy: ParserPolicy := ParserPolicy(loadDtd := true, resolveEntities := true, noNetwork := false)

  /** What `etree.fromstring` gives: the root element, or the text of the
      exception it raised. */
  datatype ParseOutcome = Parsed(root: Element) | Failed(detail: string)

  /** The text `findtext` reports for a matching element: its own text, or
      the empty string when it has none. */
  function OwnText(e: Element): string {
    match e.text
    case Some(t) => t
    case None => ""
  }

  /** Index `i` holds the first of `children` whose tag is `tag`. */
  predicate IsFirst(children: seq<Element>, tag: string, i: int) {
    0 <= i < |children| && children[i].tag == tag &&
    forall j :: 0 <= j < i ==> children[j].tag != tag
  }

  /** Some element of `children` has tag `tag`. */
  predicate HasChild(children: seq<Element>, tag: string) {
    exists i :: 0 <= i < |children| && children[i].tag == tag
  }

  /** The position of the first of `children` with tag `tag`, the element a
      bare tag name selects among the direct children. */
  function FirstChild(children: seq<Element>, tag: string): (r: Option<nat>)
    ensures r.Some? ==> IsFirst(children, tag, r.value)
    ensures r.None? <==> !HasChild(children, tag)
  {
    if children == [] then None
    else if children[0].tag == tag then Some(0)
    else
      match FirstChild(children[1..], tag)
      case None =>
        assert forall i :: 1 <= i < |children| ==> children[i] == children[1..][i - 1];
        None
      case Some(k) => Some(k + 1)
  }

  /** `root.findtext(tag)` with a bare tag name: `None` when no direct child
      of `root` has that tag, otherwise the own text of the first one (the
      empty string when it has no text). Deeper descendants are not searched. */
  function FindText(root: Element, tag: string): (r: Option<string>)
    ensures r.None? <==> !HasChild(root.children, tag)
    ensures forall i :: IsFirst(root.children, tag, i) ==> r == Some(OwnText(root.children[i]))
  {
    match FirstChild(root.children, tag)
    case None => None
    case Some(k) => Some(OwnText(root.children[k]))
  }

  /** `a` and `b` have the same direct children as far as tags and own texts go;
      their own tags, texts and grandchildren may differ. */
  predicate SameDirectChildren(a: Element, b: Element) {
    |a.children| == |b.children| &&
    forall i :: 0 <= i < |a.children| ==>
      a.children[i].tag == b.children[i].tag && a.children[i].text == b.children[i].text
  }

  /** A lookup depends on nothing but the tags and own texts of the root's
      direct children. */
  lemma {:induction false} FindTextReadsDirectChildrenOnly(a: Element, b: Element, tag: string)
    requires SameDirectChildren(a, b)
    ensures FindText(a, tag) == FindText(b, tag)
  {
    match FirstChild(a.children, tag)
    case None =>
    case Some(k) =>
      assert IsFirst(b.children, tag, k);
      assert OwnText(a.children[k]) == OwnText(b.children[k]);
  }

}

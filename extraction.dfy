/** Reading the three fields of a parsed scroll: `name`, `rank`, and
    `quote` with `message` standing in for it. */
module Extraction {

  import opened Wrappers
  import opened Markup

  const NameTag: string := "name"
  const RankTag: string := "rank"
  const QuoteTag: string := "quote"
  const MessageTag: string := "message"

  /** The values of the fields that make up the summary. */
  datatype Fields = Fields(name: string, rank: string, quote: string)

  /** Python's `a or b` for `a` a string or `None` and `b` a string. */
  function OrElse(a: Option<string>, b: string): (r: string)
    ensures a.Some? && a.value != "" ==> r == a.value
    ensures r == b || (a.Some? && r == a.value && r != "")
  {
    if a.Some? && a.value != "" then a.value else b
  }

  /** `root.findtext(tag) or ''`: the own text of the first direct child of
      `root` with tag `tag`; empty when there is no such child and when that
      child has no text. */
  function ChildText(root: Element, tag: string): (s: string)
    ensures forall i :: IsFirst(root.children, tag, i) ==> s == OwnText(root.children[i])
    ensures !HasChild(root.children, tag) ==> s == ""
  {
    OrElse(FindText(root, tag), "")
  }

  /** The three values the portal reads from a parsed document. The scroll
      text is `quote`'s when that is non-empty, and `message`'s otherwise,
      which covers a missing `quote`, one without text and one with empty text. */
  function Extract(root: Element): (f: Fields)
    ensures f.name == ChildText(root, NameTag)
    ensures f.rank == ChildText(root, RankTag)
    ensures ChildText(root, QuoteTag) != "" ==> f.quote == ChildText(root, QuoteTag)
    ensures ChildText(root, QuoteTag) == "" ==> f.quote == ChildText(root, MessageTag)
  {
    Fields(
      ChildText(root, NameTag),
      ChildText(root, RankTag),
      OrElse(FindText(root, QuoteTag), ChildText(root, MessageTag)))
  }

  /** The scroll text is empty exactly when both `quote` and `message` give
      empty text. */
  lemma ScrollEmptyIff(root: Element)
    ensures Extract(root).quote == "" <==> ChildText(root, QuoteTag) == "" && ChildText(root, MessageTag) == ""
  {
  }

  /** Extraction depends on nothing but the tags and own texts of the root's
      direct children. */
  lemma {:induction false} ExtractReadsDirectChildrenOnly(a: Element, b: Element)
    requires SameDirectChildren(a, b)
    ensures Extract(a) == Extract(b)
  {
    FindTextReadsDirectChildrenOnly(a, b, NameTag);
    FindTextReadsDirectChildrenOnly(a, b, RankTag);
    FindTextReadsDirectChildrenOnly(a, b, QuoteTag);
    FindTextReadsDirectChildrenOnly(a, b, MessageTag);
  }

}

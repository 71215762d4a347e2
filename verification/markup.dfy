/**
 * What the scrapers read from a parsed page. HTML parsing itself is not modelled:
 * each lookup the scripts make (`find`, `has_attr`, `get`) is a field of one of
 * these datatypes, `None` when the lookup finds nothing.
 */
module Markup {
  import opened Optional
  import opened Text

  /** An element, reduced to the text nodes beneath it, in document order. */
  datatype Element = Element(strings: seq<string>)

  /** `element.text` (also `get_text()` with no arguments): the text nodes concatenated. */
  function AllText(e: Element): string {
    Join(e.strings, "")
  }

  /** Every text node stripped, the blank ones dropped. */
  function StrippedStrings(strings: seq<string>): (r: seq<string>)
    ensures forall i | 0 <= i < |r| :: r[i] != "" && Trimmed(r[i])
    ensures |r| <= |strings|
  {
    if strings == [] then []
    else
      var head := Strip(strings[0]);
      (if head == "" then [] else [head]) + StrippedStrings(strings[1..])
  }

  /** `element.get_text(separator=sep, strip=True)`. */
  function GetText(e: Element, sep: string): (r: string)
    ensures Trimmed(r)
  {
    JoinTrimmed(StrippedStrings(e.strings), sep);
    Join(StrippedStrings(e.strings), sep)
  }

  /** `get_text(..., strip=True)` is empty exactly when every text node is blank. */
  lemma {:induction false} GetTextEmptyIff(e: Element, sep: string)
    ensures GetText(e, sep) == "" <==> forall i | 0 <= i < |e.strings| :: AllSpace(e.strings[i])
  {
    var pieces := StrippedStrings(e.strings);
    JoinTrimmed(pieces, sep);
    StrippedEmptyIff(e.strings);
  }

  lemma {:induction false} StrippedEmptyIff(strings: seq<string>)
    ensures StrippedStrings(strings) == [] <==> forall i | 0 <= i < |strings| :: AllSpace(strings[i])
  {
    if strings != [] {
      StrippedEmptyIff(strings[1..]);
      assert forall i | 1 <= i < |strings| :: strings[i] == strings[1..][i - 1];
    }
  }

  /** An `a` element: its `href` attribute, if it has one, and its content. */
  datatype Anchor = Anchor(href: Option<string>, content: Element)

  /** An `img` element's `src` and `data-srcset` attributes. */
  datatype ImgTag = ImgTag(src: Option<string>, dataSrcset: Option<string>)

  /** The element holding a product's name, and the first `a` inside it. */
  datatype TitleTag = TitleTag(firstAnchor: Option<Anchor>)

  /** A product container: its title element and its price element. */
  datatype Product = Product(titleTag: Option<TitleTag>, priceTag: Option<Element>)

  /** A listing page that is only read, not followed: its first `h2` and its product containers. */
  datatype Listing = Listing(h2: Option<Element>, products: seq<Product>)

  /** The first `a` of the title element, when both exist. */
  function LinkTag(p: Product): (a: Option<Anchor>)
    ensures a.Some? <==> p.titleTag.Some? && p.titleTag.value.firstAnchor.Some?
  {
    if p.titleTag.Some? then p.titleTag.value.firstAnchor else None
  }

  /** The category heading: `get_text(sep, strip=True)` of the first `h2`, or a default. */
  function Category(h2: Option<Element>, sep: string, default: string): (c: string)
    ensures h2.None? ==> c == default
    ensures h2.Some? ==> Trimmed(c)
  {
    if h2.Some? then GetText(h2.value, sep) else default
  }

  /** The `href` of the title's first anchor, as found, or the default when the anchor or the attribute is missing. */
  function RawLink(p: Product, default: string): (link: string)
    ensures LinkTag(p).None? || LinkTag(p).value.href.None? ==> link == default
    ensures LinkTag(p).Some? && LinkTag(p).value.href.Some? ==> link == LinkTag(p).value.href.value
  {
    var a := LinkTag(p);
    if a.Some? && a.value.href.Some? then a.value.href.value else default
  }

  /** The title's first anchor read with `get_text` and `strip=True` (no separator), or the default. */
  function Title(p: Product, default: string): (title: string)
    ensures LinkTag(p).None? ==> title == default
    ensures LinkTag(p).Some? ==> Trimmed(title)
    ensures LinkTag(p).Some? ==> title == GetText(LinkTag(p).value.content, "")
  {
    var a := LinkTag(p);
    if a.Some? then GetText(a.value.content, "") else default
  }

  /** The whole text of the price element, stripped once, or the default. */
  function Price(p: Product, default: string): (price: string)
    ensures p.priceTag.None? ==> price == default
    ensures p.priceTag.Some? ==> Trimmed(price)
    ensures p.priceTag.Some? ==> price == Strip(AllText(p.priceTag.value))
  {
    if p.priceTag.Some? then Strip(AllText(p.priceTag.value)) else default
  }
}

/**
 * What the two revibe.me scrapers share: the shape of a collection page once
 * scrolled, the product link rule, the first candidate of a `data-srcset`, the
 * title read from the card anchor, and the description fetched over HTTP.
 */
module Revibe {
  import opened Optional
  import opened Text
  import opened Markup

  const Origin := "https://revibe.me"
  const NoCategory := "No category available"
  const NoLink := "No link available"
  const NoImage := "No image available"
  const NoTitle := "No title available"
  const NoPrice := "No price available"
  const NoDescription := "No description available"

  /**
   * What `requests.get(product_link)` and `raise_for_status()` did: a page
   * (with its `tab-technical-specifications` div, if any), a `RequestException`,
   * or some other exception, which nothing catches.
   */
  datatype HttpFetch = Fetched(specs: Option<Element>) | RequestFailed | OtherFailure

  /**
   * A `product-item` container: its `a.card-title`, its `img.motion-reduce`,
   * its sale price span, and what fetching its link would give.
   */
  datatype Item = Item(cardTitle: Option<Anchor>, image: Option<ImgTag>, priceTag: Option<Element>, detail: HttpFetch)

  /** The collection page once scrolled: its first `h2` and its product containers. */
  datatype Page = Page(h2: Option<Element>, items: seq<Item>)

  /** The card anchor's whole text, stripped once, or the default when there is no anchor. */
  function ItemTitle(item: Item): (title: string)
    ensures item.cardTitle.None? ==> title == NoTitle
    ensures item.cardTitle.Some? ==> Trimmed(title)
    ensures item.cardTitle.Some? ==> title == Strip(AllText(item.cardTitle.value.content))
  {
    if item.cardTitle.Some? then Strip(AllText(item.cardTitle.value.content)) else NoTitle
  }

  /** The sale price span's whole text, stripped once. */
  function PriceText(e: Element): (text: string)
    ensures Trimmed(text)
    ensures text == Strip(AllText(e))
  {
    Strip(AllText(e))
  }

  /**
   * The URL of the first `srcset` candidate: the text before the first comma,
   * stripped, up to its first space, so without its width or density descriptor.
   */
  function FirstSrcsetCandidate(srcset: string): (url: string)
    ensures ',' !in url && ' ' !in url
    ensures url != [] ==> !IsSpace(url[0])
  {
    var first := Strip(TakeUntil(srcset, ','));
    var url := TakeUntil(first, ' ');
    assert url != [] ==> url[0] == first[..|url|][0] == first[0];
    url
  }

  /**
   * For a well-formed `srcset` whose first candidate is `url descriptor`
   * (the descriptor optional), the URL is what comes back.
   */
  lemma FirstSrcsetCandidateOf(url: string, descriptor: string, rest: string)
    requires url != [] && Trimmed(url) && ',' !in url && ' ' !in url
    requires ',' !in descriptor && Trimmed(descriptor)
    requires rest == [] || rest[0] == ','
    ensures FirstSrcsetCandidate((if descriptor == [] then url else url + " " + descriptor) + rest) == url
  {
    if descriptor == [] {
      BareCandidate(url, rest);
    } else {
      DescribedCandidate(url, descriptor, rest);
    }
  }

  lemma BareCandidate(url: string, rest: string)
    requires Trimmed(url) && ',' !in url && ' ' !in url
    requires rest == [] || rest[0] == ','
    ensures FirstSrcsetCandidate(url + rest) == url
  {
    TakeUntilConcat(url, rest, ',');
    StripTrimmed(url);
    TakeUntilAbsent(url, ' ');
  }

  lemma DescribedCandidate(url: string, descriptor: string, rest: string)
    requires url != [] && Trimmed(url) && ',' !in url && ' ' !in url
    requires descriptor != [] && ',' !in descriptor && Trimmed(descriptor)
    requires rest == [] || rest[0] == ','
    ensures FirstSrcsetCandidate(url + " " + descriptor + rest) == url
  {
    var tail := " " + descriptor;
    var candidate := url + tail;
    assert url + " " + descriptor == candidate;
    assert ',' !in tail;
    assert ',' !in candidate;
    TakeUntilConcat(candidate, rest, ',');
    assert candidate[0] == url[0];
    assert candidate[|candidate| - 1] == descriptor[|descriptor| - 1];
    StripTrimmed(candidate);
    TakeUntilConcat(url, tail, ' ');
  }

  /**
   * The description after the detail request: the specifications text, or the
   * default when the request failed or the div is missing; `None` when an
   * exception other than `RequestException` escapes.
   */
  function FetchDescription(detail: HttpFetch): (description: Option<string>)
    ensures description.None? <==> detail.OtherFailure?
    ensures detail.RequestFailed? ==> description == Some(NoDescription)
    ensures detail.Fetched? && detail.specs.None? ==> description == Some(NoDescription)
    ensures detail.Fetched? && detail.specs.Some? ==> description.value == GetText(detail.specs.value, "\n")
  {
    match detail
    case Fetched(specs) => Some(if specs.Some? then GetText(specs.value, "\n") else NoDescription)
    case RequestFailed => Some(NoDescription)
    case OtherFailure => None
  }

  /** The scraped specifications are never blank-padded, and only an empty div reads as empty. */
  lemma FetchedDescriptionTrimmed(specs: Element)
    ensures Trimmed(FetchDescription(Fetched(Some(specs))).value)
    ensures FetchDescription(Fetched(Some(specs))).value == "" <==>
              forall i | 0 <= i < |specs.strings| :: AllSpace(specs.strings[i])
  {
    GetTextEmptyIff(specs, "\n");
  }
}

/**
 * ui-scraper/scraper_project/products/scraper.py, `scrape_revibe_products`:
 * the revibe.me scraper behind the Django views. It scrolls the collection
 * until its height settles and returns one six-key dictionary per product.
 * Prices stay text, the image is the first `data-srcset` candidate with no
 * scheme fix, and the product link is returned as well.
 */
module RevibeUi {
  import opened Optional
  import opened Text
  import opened Markup
  import opened Loading
  import opened Revibe
  import opened Outcomes
  import RevibeScraper

  /** One returned dictionary: Category, Title, Image URL, Price, Description and Product Link. */
  datatype Record = Record(category: string, title: string, imageUrl: string, price: string, description: string, productLink: string)

  /** The exceptions that end the call: `KeyError` from an anchor without `href`, or an uncaught fetch error. */
  datatype Failure = MissingHref | FetchError

  /** How the call ends: the products, an exception at product `at`, or the scroll loop still running. */
  datatype Outcome = Returned(records: seq<Record>) | Raised(at: nat, failure: Failure) | Scrolling

  /**
   * The site origin followed by the card anchor's `href`, or the default when
   * there is no anchor. Only the anchor is tested, so an anchor without `href`
   * raises `KeyError` (`None`).
   */
  function ProductLink(item: Item): (link: Option<string>)
    ensures link.None? <==> item.cardTitle.Some? && item.cardTitle.value.href.None?
    ensures item.cardTitle.None? ==> link == Some(NoLink)
    ensures link.Some? && link.value != NoLink ==> StartsWith(link.value, Origin)
    ensures item.cardTitle.Some? && item.cardTitle.value.href.Some? ==> link.value != NoLink
    ensures item.cardTitle.Some? && item.cardTitle.value.href.Some? ==> link == Some(Origin + item.cardTitle.value.href.value)
  {
    match item.cardTitle
    case None => Some(NoLink)
    case Some(anchor) =>
      if anchor.href.Some? then
        var link := Origin + anchor.href.value;
        assert link[1] == 't' != NoLink[1];
        assert link[..|Origin|] == Origin;
        Some(link)
      else None
  }

  /** The first candidate of the image's `data-srcset` (read as empty when absent), or the default when there is no image tag. */
  function ImageUrl(item: Item): (url: string)
    ensures item.image.Some? ==> ',' !in url && ' ' !in url
    ensures item.image.None? ==> url == NoImage
    ensures item.image.Some? && item.image.value.dataSrcset.Some? ==> url == FirstSrcsetCandidate(item.image.value.dataSrcset.value)
    ensures item.image.Some? && item.image.value.dataSrcset.None? ==> url == ""
  {
    match item.image
    case None => NoImage
    case Some(img) => FirstSrcsetCandidate(if img.dataSrcset.Some? then img.dataSrcset.value else "")
  }

  /**
   * An image tag with only `src` yields the empty URL here, where scraper.py
   * falls back to `src` and puts a scheme in front.
   */
  lemma SourceOnlyImage(item: Item, src: string)
    requires item.image == Some(ImgTag(Some(src), None))
    ensures ImageUrl(item) == ""
    ensures RevibeScraper.ImageUrl(item) == RevibeScraper.NormalizeImage(src)
  {
  }

  /** The sale price span's text, stripped, or the default: the price stays text. */
  function ItemPrice(item: Item): (price: string)
    ensures item.priceTag.None? ==> price == NoPrice
    ensures item.priceTag.Some? ==> Trimmed(price)
    ensures item.priceTag.Some? ==> price == PriceText(item.priceTag.value)
  {
    if item.priceTag.Some? then PriceText(item.priceTag.value) else NoPrice
  }

  /** One iteration of the product loop: the link first, then the fields, then the request. */
  function ProductStep(category: string, item: Item): Step<Record, Failure> {
    match ProductLink(item)
    case None => Stop(MissingHref)
    case Some(link) =>
      var description := if link != NoLink then FetchDescription(item.detail) else Some(NoDescription);
      if description.None? then Stop(FetchError)
      else Row(Record(category, ItemTitle(item), ImageUrl(item), ItemPrice(item), description.value, link))
  }

  /**
   * A product raises `KeyError` exactly when its anchor has no `href`, and an
   * uncaught exception exactly when its link is fetched and the request fails
   * with something other than a `RequestException`; a row holds the link it
   * reports, and a product without an anchor is never fetched.
   */
  lemma ProductStepCases(category: string, item: Item)
    ensures ProductStep(category, item) == Stop(MissingHref) <==>
              item.cardTitle.Some? && item.cardTitle.value.href.None?
    ensures ProductStep(category, item) == Stop(FetchError) <==>
              item.cardTitle.Some? && item.cardTitle.value.href.Some? && item.detail.OtherFailure?
    ensures ProductStep(category, item).Row? ==>
              ProductStep(category, item).record ==
                Record(category, ItemTitle(item), ImageUrl(item), ItemPrice(item),
                  if item.cardTitle.None? then NoDescription else FetchDescription(item.detail).value,
                  ProductLink(item).value)
  {
  }

  function Steps(category: string, items: seq<Item>): (steps: seq<Step<Record, Failure>>)
    ensures |steps| == |items|
  {
    seq(|items|, i requires 0 <= i < |items| => ProductStep(category, items[i]))
  }

  /** The product loop: every record, or the first product that raises. */
  function ProductsOutcome(category: string, items: seq<Item>): (o: Outcome)
    ensures !o.Scrolling?
    ensures o.Returned? ==> |o.records| == |items|
    ensures o.Raised? ==> o.at < |items|
  {
    var steps := Steps(category, items);
    var k := FirstStop(steps);
    if k == |steps| then Returned(RecordsOf(steps))
    else Raised(k, steps[k].reason)
  }

  /** The whole function: the scroll loop, then the product loop; the scroll loop alone leaves it waiting. */
  function RunOutcome(initialHeight: int, heights: seq<int>, page: Page): (o: Outcome)
    ensures o.Scrolling? <==> FirstRepeat(initialHeight, heights) == |heights|
    ensures o.Returned? ==> |o.records| == |page.items|
  {
    if FirstRepeat(initialHeight, heights) == |heights| then Scrolling
    else ProductsOutcome(Category(page.h2, " ", NoCategory), page.items)
  }

  /**
   * When every product anchor has its `href` and no request fails outside
   * `RequestException`, the call returns one dictionary per product, in
   * order, each carrying the page's category and the link it was read from.
   */
  lemma EveryProductReturned(initialHeight: int, heights: seq<int>, page: Page)
    requires FirstRepeat(initialHeight, heights) < |heights|
    requires forall i | 0 <= i < |page.items| ::
               (page.items[i].cardTitle.Some? ==> page.items[i].cardTitle.value.href.Some?) &&
               !page.items[i].detail.OtherFailure?
    ensures RunOutcome(initialHeight, heights, page).Returned?
    ensures |RunOutcome(initialHeight, heights, page).records| == |page.items|
    ensures forall i | 0 <= i < |page.items| ::
              && RunOutcome(initialHeight, heights, page).records[i] == ProductStep(Category(page.h2, " ", NoCategory), page.items[i]).record
              && RunOutcome(initialHeight, heights, page).records[i].category == Category(page.h2, " ", NoCategory)
              && RunOutcome(initialHeight, heights, page).records[i].productLink == ProductLink(page.items[i]).value
  {
    var category := Category(page.h2, " ", NoCategory);
    var steps := Steps(category, page.items);
    forall i | 0 <= i < |page.items|
      ensures steps[i].Row?
      ensures steps[i].record.category == category
      ensures steps[i].record.productLink == ProductLink(page.items[i]).value
    {
      ProductStepCases(category, page.items[i]);
    }
    RecordsOfIndex(steps);
  }

  /** The call stops at the first product that raises, and every product before it has a usable anchor. */
  lemma RaisedAtFirstFailure(initialHeight: int, heights: seq<int>, page: Page)
    requires RunOutcome(initialHeight, heights, page).Raised?
    ensures var o := RunOutcome(initialHeight, heights, page);
            && o.at < |page.items|
            && (o.failure == MissingHref <==> ProductLink(page.items[o.at]).None?)
            && (o.failure == FetchError ==>
                  page.items[o.at].cardTitle.Some? && page.items[o.at].cardTitle.value.href.Some? &&
                  page.items[o.at].detail.OtherFailure?)
            && (forall i | 0 <= i < o.at :: ProductLink(page.items[i]).Some?)
            && forall i | 0 <= i < o.at :: ProductStep(Category(page.h2, " ", NoCategory), page.items[i]).Row?
  {
    var category := Category(page.h2, " ", NoCategory);
    var k := FirstStop(Steps(category, page.items));
    ProductStepCases(category, page.items[k]);
    forall i | 0 <= i < k
      ensures ProductLink(page.items[i]).Some? && ProductStep(category, page.items[i]).Row?
    {
      assert Steps(category, page.items)[i].Row?;
      ProductStepCases(category, page.items[i]);
    }
  }

  /** `scrape_revibe_products`, with the browser's page heights and the collection page supplied up front. */
  method ScrapeRevibeProducts(initialHeight: int, heights: seq<int>, page: Page) returns (outcome: Outcome)
    ensures outcome == RunOutcome(initialHeight, heights, page)
  {
    var _, _, settled := ScrollUntilStable(initialHeight, heights);
    if !settled {
      return Scrolling;
    }
    var category := Category(page.h2, " ", NoCategory);
    outcome := ScrapeProducts(category, page.items);
  }

  method ScrapeProducts(category: string, items: seq<Item>) returns (outcome: Outcome)
    ensures outcome == ProductsOutcome(category, items)
  {
    ghost var steps := Steps(category, items);
    var records := [];
    var i := 0;
    while i < |items|
      invariant 0 <= i <= |items|
      invariant i <= FirstStop(steps)
      invariant records == RecordsOf(steps[..i])
    {
      var step := ScrapeProduct(category, items[i]);
      assert step == steps[i];
      StepOfLoop(steps, i);
      if step.Stop? {
        return Raised(i, step.reason);
      }
      records := records + [step.record];
      i := i + 1;
    }
    assert steps[..i] == steps;
    return Returned(records);
  }

  /** One iteration: link, image, title, price, then the description request. */
  method ScrapeProduct(category: string, item: Item) returns (step: Step<Record, Failure>)
    ensures step == ProductStep(category, item)
  {
    var productLink;
    match item.cardTitle {
      case None => productLink := NoLink;
      case Some(anchor) =>
        if anchor.href.None? {
          return Stop(MissingHref);
        }
        productLink := Origin + anchor.href.value;
    }
    var imageUrl := ImageUrl(item);
    var title := ItemTitle(item);
    var price := ItemPrice(item);
    var description := NoDescription;
    if productLink != NoLink {
      match item.detail {
        case Fetched(specs) =>
          if specs.Some? {
            description := GetText(specs.value, "\n");
          }
        case RequestFailed =>
        case OtherFailure =>
          return Stop(FetchError);
      }
    }
    return Row(Record(category, title, imageUrl, price, description, productLink));
  }
}

/**
 * modified_1st.py: the first laptopengine.com scraper. It scrolls the listing
 * with END presses until the height stops changing, follows each product's raw
 * `href` (no normalisation), scrolls that page the same way, and takes the
 * description from the `name` div. Nothing is caught: a detail page that fails
 * to load ends the run before the CSV is written.
 */
module ModifiedFirst {
  import opened Optional
  import opened Text
  import opened Markup
  import opened Loading
  import opened LaptopEngine
  import opened Export
  import opened Outcomes

  const NoCategory := "No category available"
  const NoLink := "No link available"
  const NoTitle := "No title available"
  const NoImage := "No image available"
  const NoDescription := "No description available"
  const NoValidImages := "No valid images"

  /** One output row: the keys Categories, Name, Images and Description. */
  datatype Record = Record(categories: string, name: string, images: string, description: string)

  /**
   * How a run ends: the CSV rows; an exception while loading the detail page
   * of product `at`; or a scroll loop still running when the supplied heights
   * ran out (`page` is `None` for the listing page, else the product index).
   */
  datatype Outcome =
    | Exported(records: seq<Record>, file: string)
    | Raised(at: nat, url: string)
    | Scrolling(page: Option<nat>)

  /** Why a product ends the loop: its page raised while loading, or its scroll loop has not settled. */
  datatype Stopper = LoadFailed(url: string) | Unsettled

  /** The URL the browser is sent to: the raw `href`, whatever it is, unless it is missing. */
  function RequestedUrl(p: Product): (url: Option<string>)
    ensures url.None? <==> RawLink(p, NoLink) == NoLink
    ensures url.Some? ==> url.value == LinkTag(p).value.href.value
  {
    var raw := RawLink(p, NoLink);
    if raw != NoLink then Some(raw) else None
  }

  /** The detail page's `name` div, its stripped text nodes joined by newlines, or the default. */
  function Description(page: DetailPage): string {
    if page.nameDiv.Some? then GetText(page.nameDiv.value, "\n") else NoDescription
  }

  function ImagesField(images: seq<string>): string {
    if images != [] then Join(images, ", ") else NoValidImages
  }

  /**
   * A gallery of `https://` URLs gives `No valid images` exactly when it is
   * empty, and otherwise its `", "` join, which starts with the first URL.
   */
  lemma ImagesFieldOfGallery(images: seq<string>)
    requires forall k | 0 <= k < |images| :: StartsWith(images[k], Https)
    ensures ImagesField(images) == NoValidImages <==> images == []
    ensures images != [] ==> ImagesField(images) == Join(images, ", ") && StartsWith(ImagesField(images), images[0])
  {
    if images != [] {
      JoinStartsWithFirst(images, ", ");
      var joined := Join(images, ", ");
      assert joined[0] == images[0][0] == images[0][..|Https|][0] == 'h';
      assert NoValidImages[0] == 'N';
    }
  }

  /**
   * One iteration of the product loop: a product without a link gets the
   * placeholders; otherwise its page is loaded and scrolled before it is read.
   */
  function ProductStep(category: string, item: Listed): Step<Record, Stopper> {
    var title := Title(item.product, NoTitle);
    match RequestedUrl(item.product)
    case None => Row(Record(category, title, NoImage, NoDescription))
    case Some(url) =>
      match item.detail
      case Unreachable => Stop(LoadFailed(url))
      case Loaded(page) =>
        if FirstRepeat(page.initialHeight, page.heights) == |page.heights| then Stop(Unsettled)
        else Row(Record(category, title, ImagesField(GalleryImages(page.slides)), Description(page)))
  }

  /**
   * A product raises exactly when it has a link and its page fails to load,
   * and the exception names that link; it leaves the loop waiting exactly
   * when its page loads but never stops growing. Every row keeps the title.
   */
  lemma ProductStepCases(category: string, item: Listed)
    ensures ProductStep(category, item).Stop? && ProductStep(category, item).reason.LoadFailed? <==>
              RequestedUrl(item.product).Some? && item.detail.Unreachable?
    ensures ProductStep(category, item) == Stop(Unsettled) <==>
              RequestedUrl(item.product).Some? && item.detail.Loaded? &&
              FirstRepeat(item.detail.page.initialHeight, item.detail.page.heights) == |item.detail.page.heights|
    ensures ProductStep(category, item).Stop? && ProductStep(category, item).reason.LoadFailed? ==>
              Some(ProductStep(category, item).reason.url) == RequestedUrl(item.product)
    ensures ProductStep(category, item).Row? ==> ProductStep(category, item).record.name == Title(item.product, NoTitle)
    ensures RequestedUrl(item.product).None? ==>
              ProductStep(category, item) == Row(Record(category, Title(item.product, NoTitle), NoImage, NoDescription))
    ensures RequestedUrl(item.product).Some? && item.detail.Loaded? &&
            FirstRepeat(item.detail.page.initialHeight, item.detail.page.heights) < |item.detail.page.heights| ==>
              ProductStep(category, item) == Row(Record(category, Title(item.product, NoTitle),
                ImagesField(GalleryImages(item.detail.page.slides)),
                if item.detail.page.nameDiv.Some? then GetText(item.detail.page.nameDiv.value, "\n") else NoDescription))
  {
  }

  /**
   * A loaded, settled detail page gives `No valid images` exactly when none
   * of its slides has a valid `src`, and the description is the `name` div's
   * text, or the default without that div.
   */
  lemma LoadedRecord(category: string, item: Listed)
    requires RequestedUrl(item.product).Some? && item.detail.Loaded?
    requires FirstRepeat(item.detail.page.initialHeight, item.detail.page.heights) < |item.detail.page.heights|
    ensures ProductStep(category, item).Row?
    ensures ProductStep(category, item).record.images == NoValidImages <==>
              forall k | 0 <= k < |item.detail.page.slides| :: !KeepsImage(item.detail.page.slides[k])
    ensures item.detail.page.nameDiv.None? ==> ProductStep(category, item).record.description == NoDescription
    ensures item.detail.page.nameDiv.Some? ==>
              ProductStep(category, item).record.description == GetText(item.detail.page.nameDiv.value, "\n")
  {
    ProductStepCases(category, item);
    var slides := item.detail.page.slides;
    var gallery := GalleryImages(slides);
    ImagesFieldOfGallery(gallery);
    if gallery != [] {
      GalleryImagesMembers(slides, gallery[0]);
    } else if exists k | 0 <= k < |slides| :: KeepsImage(slides[k]) {
      var k :| 0 <= k < |slides| && KeepsImage(slides[k]);
      GalleryImagesMembers(slides, NormalizeImageUrl(SlideSource(slides[k]).value));
    }
  }

  function Steps(category: string, items: seq<Listed>): (steps: seq<Step<Record, Stopper>>)
    ensures |steps| == |items|
  {
    seq(|items|, i requires 0 <= i < |items| => ProductStep(category, items[i]))
  }

  /** The product loop: every row, or the first product that stops it. */
  function ProductsOutcome(category: string, items: seq<Listed>, file: string): (o: Outcome)
    ensures o.Exported? ==> |o.records| == |items| && o.file == file
    ensures o.Raised? ==> o.at < |items|
    ensures o.Scrolling? ==> o.page.Some? && o.page.value < |items|
  {
    var steps := Steps(category, items);
    var k := FirstStop(steps);
    if k == |steps| then Exported(RecordsOf(steps), file)
    else match steps[k].reason
      case LoadFailed(url) => Raised(k, url)
      case Unsettled => Scrolling(Some(k))
  }

  /** The whole script: scroll the listing, then the product loop. */
  function RunOutcome(initialHeight: int, heights: seq<int>, page: ListingPage, date: string, suffix: string): (o: Outcome)
    requires |suffix| == 6 && forall i | 0 <= i < 6 :: suffix[i] in SuffixAlphabet
    ensures o == Scrolling(None) <==> FirstRepeat(initialHeight, heights) == |heights|
    ensures o.Exported? ==> o.file == CsvFileName(date, suffix) && |o.records| == |page.items|
  {
    if FirstRepeat(initialHeight, heights) == |heights| then Scrolling(None)
    else ProductsOutcome(Category(page.h2, " ", NoCategory), page.items, CsvFileName(date, suffix))
  }

  /**
   * A CSV is written only when every product with a link had its page loaded
   * and settled; it then holds one row per product, in order.
   */
  lemma ExportedMeansEveryPageLoaded(initialHeight: int, heights: seq<int>, page: ListingPage, date: string, suffix: string)
    requires |suffix| == 6 && forall i | 0 <= i < 6 :: suffix[i] in SuffixAlphabet
    requires RunOutcome(initialHeight, heights, page, date, suffix).Exported?
    ensures |RunOutcome(initialHeight, heights, page, date, suffix).records| == |page.items|
    ensures forall i | 0 <= i < |page.items| && RequestedUrl(page.items[i].product).Some? ::
              && page.items[i].detail.Loaded?
              && FirstRepeat(page.items[i].detail.page.initialHeight, page.items[i].detail.page.heights)
                 < |page.items[i].detail.page.heights|
    ensures forall i | 0 <= i < |page.items| ::
              && ProductStep(Category(page.h2, " ", NoCategory), page.items[i]).Row?
              && RunOutcome(initialHeight, heights, page, date, suffix).records[i]
                 == ProductStep(Category(page.h2, " ", NoCategory), page.items[i]).record
    ensures forall i | 0 <= i < |page.items| ::
              RunOutcome(initialHeight, heights, page, date, suffix).records[i].name == Title(page.items[i].product, NoTitle)
  {
    var category := Category(page.h2, " ", NoCategory);
    var steps := Steps(category, page.items);
    forall i | 0 <= i < |page.items|
      ensures steps[i].Row?
      ensures RequestedUrl(page.items[i].product).Some? ==>
                page.items[i].detail.Loaded? &&
                FirstRepeat(page.items[i].detail.page.initialHeight, page.items[i].detail.page.heights)
                < |page.items[i].detail.page.heights|
      ensures steps[i].record.name == Title(page.items[i].product, NoTitle)
    {
      ProductStepCases(category, page.items[i]);
    }
    RecordsOfIndex(steps);
  }

  /**
   * The exception comes from the first product whose page failed to load, and
   * it names that product's raw link; every earlier product was scraped.
   */
  lemma RaisedAtFirstFailure(initialHeight: int, heights: seq<int>, page: ListingPage, date: string, suffix: string)
    requires |suffix| == 6 && forall i | 0 <= i < 6 :: suffix[i] in SuffixAlphabet
    requires RunOutcome(initialHeight, heights, page, date, suffix).Raised?
    ensures var o := RunOutcome(initialHeight, heights, page, date, suffix);
            && o.at < |page.items|
            && page.items[o.at].detail.Unreachable?
            && Some(o.url) == RequestedUrl(page.items[o.at].product)
            && forall i | 0 <= i < o.at :: ProductStep(Category(page.h2, " ", NoCategory), page.items[i]).Row?
  {
    var category := Category(page.h2, " ", NoCategory);
    var k := FirstStop(Steps(category, page.items));
    ProductStepCases(category, page.items[k]);
    forall i | 0 <= i < k
      ensures ProductStep(category, page.items[i]).Row?
    {
      assert Steps(category, page.items)[i].Row?;
    }
  }

  /**
   * Unlike the later scripts, this one sends the browser to a site-relative
   * `href` as it is, where they prepend the site's origin.
   */
  lemma RelativeLinkNotNormalised(p: Product)
    requires LinkTag(p).Some? && LinkTag(p).value.href.Some?
    requires StartsWith(LinkTag(p).value.href.value, "/")
    ensures RequestedUrl(p) == Some(LinkTag(p).value.href.value)
    ensures DetailLink(p, NoLink) == Some(Origin + LinkTag(p).value.href.value)
  {
    var href := LinkTag(p).value.href.value;
    assert href[..1][0] == '/' != NoLink[0];
  }

  /** The script, with the browser's page heights and pages supplied up front. */
  method Run(initialHeight: int, heights: seq<int>, page: ListingPage, date: string, suffix: string) returns (outcome: Outcome)
    requires |suffix| == 6 && forall i | 0 <= i < 6 :: suffix[i] in SuffixAlphabet
    ensures outcome == RunOutcome(initialHeight, heights, page, date, suffix)
  {
    var _, _, settled := ScrollUntilStable(initialHeight, heights);
    if !settled {
      return Scrolling(None);
    }
    var category := Category(page.h2, " ", NoCategory);
    outcome := ScrapeProducts(category, page.items, CsvFileName(date, suffix));
  }

  /** The product loop; it stops at the first product that does not yield a row. */
  method ScrapeProducts(category: string, items: seq<Listed>, file: string) returns (outcome: Outcome)
    ensures outcome == ProductsOutcome(category, items, file)
  {
    ghost var steps := Steps(category, items);
    var records := [];
    var i := 0;
    while i < |items|
      invariant 0 <= i <= |items|
      invariant i <= FirstStop(steps)
      invariant records == RecordsOf(steps[..i])
    {
      var step := ScrapeProduct(category, items[i]);
      assert step == steps[i];
      StepOfLoop(steps, i);
      match step {
        case Stop(LoadFailed(url)) => return Raised(i, url);
        case Stop(Unsettled) => return Scrolling(Some(i));
        case Row(record) => records := records + [record];
      }
      i := i + 1;
    }
    assert steps[..i] == steps;
    return Exported(records, file);
  }

  /** One iteration: the fields, then, for any link, the detail page and its scroll loop. */
  method ScrapeProduct(category: string, item: Listed) returns (step: Step<Record, Stopper>)
    ensures step == ProductStep(category, item)
  {
    var productLink := RawLink(item.product, NoLink);
    var title := Title(item.product, NoTitle);
    if productLink == NoLink {
      return Row(Record(category, title, NoImage, NoDescription));
    }
    match item.detail {
      case Unreachable =>
        return Stop(LoadFailed(productLink));
      case Loaded(detail) =>
        var _, _, settled := ScrollUntilStable(detail.initialHeight, detail.heights);
        if !settled {
          return Stop(Unsettled);
        }
        var sliderImages := CollectGallery(detail.slides);
        var description := if detail.nameDiv.Some? then GetText(detail.nameDiv.value, "\n") else NoDescription;
        var images := if sliderImages != [] then Join(sliderImages, ", ") else NoValidImages;
        return Row(Record(category, title, images, description));
    }
  }
}

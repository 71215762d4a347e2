/**
 * scrapingtools.py: the GUI scraper for laptopengine.com. Its worker clicks
 * "load more" until that fails, then builds one record per product container,
 * loading each product's detail page for its slide gallery and description.
 */
module ScrapingTools {
  import opened Optional
  import opened Sequences
  import opened Text
  import opened Markup
  import opened Loading
  import opened LaptopEngine

  const NoCategory := "No category"
  const NoLink := "No link"
  const NoTitle := "No title"
  const NoImage := "No image"
  const NoDescription := "No description"

  /** One output row: the keys Category, Name, Images, Description and Scraped. */
  datatype Record = Record(category: string, name: string, images: string, description: string, scraped: string)

  /** `start_scraping`: the stripped URL to scrape, or nothing (an error is logged) when it is blank. */
  function UrlToScrape(text: string): (url: Option<string>)
    ensures url.None? <==> AllSpace(text)
    ensures url.Some? ==> url.value == Strip(text) && url.value != ""
  {
    var u := Strip(text);
    if u == "" then None else Some(u)
  }

  /** The `product-desc-content` div's stripped text nodes joined by newlines, or the default. */
  function Description(page: DetailPage): string {
    if page.productDesc.Some? then GetText(page.productDesc.value, "\n") else NoDescription
  }

  /** The gallery and description of one product, or the defaults when it is not (or cannot be) loaded. */
  function Enrichment(link: Option<string>, detail: Fetch): (seq<string>, string) {
    if link.Some? && detail.Loaded? then (GalleryImages(detail.page.slides), Description(detail.page))
    else ([NoImage], NoDescription)
  }

  /**
   * The progress bar value after product `i` of `total`:
   * the share of products done, as a whole percentage rounded down, in exact arithmetic.
   */
  function Progress(i: nat, total: nat): (percent: int)
    requires i < total
    ensures 0 <= percent <= 100
    ensures percent == 100 <==> i == total - 1
  {
    PercentBounds(i, total);
    (i + 1) * 100 / total
  }

  lemma PercentBounds(i: nat, total: nat)
    requires i < total
    ensures var percent := (i + 1) * 100 / total;
            && 0 <= percent <= 100
            && (percent == 100 <==> i == total - 1)
            && percent * total <= (i + 1) * 100 < (percent + 1) * total
  {
    var percent := (i + 1) * 100 / total;
    DivBounds((i + 1) * 100, total);
    if percent > 100 {
      MulMonotone(101, percent, total);
    }
    if i == total - 1 && percent < 100 {
      MulMonotone(percent + 1, 100, total);
    }
  }

  lemma DivBounds(n: nat, t: nat)
    requires t > 0
    ensures 0 <= n / t
    ensures (n / t) * t <= n < (n / t + 1) * t
  {
    var q, r := n / t, n % t;
    assert n == q * t + r && 0 <= r < t;
    assert (q + 1) * t == q * t + t;
  }

  lemma MulMonotone(a: int, b: int, t: nat)
    requires a <= b
    ensures a * t <= b * t
  {
    assert b * t == a * t + (b - a) * t;
  }

  /** The value is the floor of the exact percentage `(i + 1) * 100 / total`. */
  lemma ProgressIsFloor(i: nat, total: nat)
    requires i < total
    ensures Progress(i, total) * total <= (i + 1) * 100 < (Progress(i, total) + 1) * total
  {
    PercentBounds(i, total);
  }

  /** The bar never moves backwards. */
  lemma ProgressMonotone(i: nat, j: nat, total: nat)
    requires i <= j < total
    ensures Progress(i, total) <= Progress(j, total)
  {
    var p, q := Progress(i, total), Progress(j, total);
    ProgressIsFloor(i, total);
    ProgressIsFloor(j, total);
    if q < p {
      MulMonotone(q + 1, p, total);
    }
  }

  /** The record the loop appends for one product container. */
  function ItemRecord(category: string, item: Listed): Record {
    var (images, description) := Enrichment(DetailLink(item.product, NoLink), item.detail);
    Record(category, Title(item.product, NoTitle), Join(images, ", "), description, "Yes")
  }

  /**
   * A product with no usable link, or whose detail page raised, gets the
   * default images and description; its name still comes from its anchor.
   */
  lemma ItemRecordDefaults(category: string, item: Listed)
    requires DetailLink(item.product, NoLink).None? || item.detail.Unreachable?
    ensures ItemRecord(category, item).images == NoImage
    ensures ItemRecord(category, item).description == NoDescription
    ensures ItemRecord(category, item).name == Title(item.product, NoTitle)
  {
  }

  /**
   * A loaded detail page gives the joined gallery; `Images` is the empty
   * string exactly when no slide passed the filter.
   */
  lemma ItemRecordEnriched(category: string, item: Listed)
    requires DetailLink(item.product, NoLink).Some? && item.detail.Loaded?
    ensures ItemRecord(category, item).images == Join(GalleryImages(item.detail.page.slides), ", ")
    ensures ItemRecord(category, item).images == "" <==> GalleryImages(item.detail.page.slides) == []
    ensures ItemRecord(category, item).description == Description(item.detail.page)
  {
    var gallery := GalleryImages(item.detail.page.slides);
    JoinEmptyIff(gallery, ", ");
    if gallery != [] {
      assert gallery[0] != "" by {
        assert StartsWith(gallery[0], Https);
      }
    }
  }

  /** Every record carries the page's one category, `'No category'` when there is no `h2`. */
  lemma CategoryShared(page: ListingPage, i: nat)
    requires i < |page.items|
    ensures ItemRecord(Category(page.h2, " ", NoCategory), page.items[i]).category
            == (if page.h2.Some? then GetText(page.h2.value, " ") else NoCategory)
  {
  }

  /**
   * `ScraperThread.run`: load every product, then append one record per
   * `electron-loop-product` container, in order. A detail page that raises
   * affects only its own record.
   */
  method Run(attempts: seq<Attempt>, page: ListingPage) returns (records: seq<Record>, progress: seq<int>)
    ensures |records| == |page.items| == |progress|
    ensures forall i {:trigger progress[i]} | 0 <= i < |progress| :: progress[i] == Progress(i, |page.items|)
    ensures forall i | 0 <= i < |page.items| ::
              records[i] == ItemRecord(Category(page.h2, " ", NoCategory), page.items[i])
  {
    // the listing page passed in is the one the browser shows once this returns
    var _, _, _ := LoadAllProducts(attempts);
    var category := Category(page.h2, " ", NoCategory);
    records, progress := ScrapeProducts(category, page.items);
  }

  /** The product loop, with the progress value emitted after each product. */
  method ScrapeProducts(category: string, items: seq<Listed>) returns (records: seq<Record>, progress: seq<int>)
    ensures |records| == |items| == |progress|
    ensures forall i {:trigger progress[i]} | 0 <= i < |progress| :: progress[i] == Progress(i, |items|)
    ensures forall i | 0 <= i < |items| :: records[i] == ItemRecord(category, items[i])
  {
    ghost var expected := seq(|items|, k requires 0 <= k < |items| => ItemRecord(category, items[k]));
    ghost var ticks := seq(|items|, k requires 0 <= k < |items| => Progress(k, |items|));
    records, progress := [], [];
    var i := 0;
    while i < |items|
      invariant 0 <= i <= |items|
      invariant records == expected[..i]
      invariant progress == ticks[..i]
    {
      var record := ScrapeProduct(category, items[i]);
      PrefixExtend(expected, i);
      PrefixExtend(ticks, i);
      records := records + [record];
      progress := progress + [Progress(i, |items|)];
      i := i + 1;
    }
    assert records == expected && progress == ticks;
  }

  /** One iteration of the product loop: the fields, then the detail page when the link is usable. */
  method ScrapeProduct(category: string, item: Listed) returns (record: Record)
    ensures record == ItemRecord(category, item)
  {
    var productLink := NormalizeProductLink(RawLink(item.product, NoLink));
    var title := Title(item.product, NoTitle);
    var sliderImages, description;
    if productLink != NoLinkAvailable {
      match item.detail {
        case Loaded(detail) =>
          sliderImages := CollectGallery(detail.slides);
          description := if detail.productDesc.Some? then GetText(detail.productDesc.value, "\n") else NoDescription;
        case Unreachable =>
          sliderImages, description := [NoImage], NoDescription;
      }
    } else {
      sliderImages, description := [NoImage], NoDescription;
    }
    record := Record(category, title, Join(sliderImages, ", "), description, "Yes");
  }
}

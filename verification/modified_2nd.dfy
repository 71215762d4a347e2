/**
 * modified_2nd.py: the command-line laptopengine.com scraper with the "load
 * more" click loop, link normalisation and per-product error handling. It
 * differs from scrapingtools.py in its placeholders, its column names, and in
 * writing `'No valid images'` when a loaded detail page has no usable slide.
 */
module ModifiedSecond {
  import opened Optional
  import opened Sequences
  import opened Text
  import opened Markup
  import opened Loading
  import opened LaptopEngine
  import opened Export

  const NoCategory := "No category available"
  const NoLink := "No link available"
  const NoTitle := "No title available"
  const NoImage := "No image available"
  const NoDescription := "No description available"
  const NoValidImages := "No valid images"

  /** One output row: the keys Categories, Name, Images, Description and `Meta: _scrapped`. */
  datatype Record = Record(categories: string, name: string, images: string, description: string, metaScrapped: string)

  function Description(page: DetailPage): string {
    if page.productDesc.Some? then GetText(page.productDesc.value, "\n") else NoDescription
  }

  /** The gallery and description of one product, or the placeholders when it is not (or cannot be) loaded. */
  function Enrichment(link: Option<string>, detail: Fetch): (seq<string>, string) {
    if link.Some? && detail.Loaded? then (GalleryImages(detail.page.slides), Description(detail.page))
    else ([NoImage], NoDescription)
  }

  /** The gallery joined by a comma and a space; an empty gallery is reported as `No valid images`. */
  function ImagesField(images: seq<string>): string {
    if images != [] then Join(images, ", ") else NoValidImages
  }

  function ItemRecord(category: string, item: Listed): Record {
    var (images, description) := Enrichment(DetailLink(item.product, NoLink), item.detail);
    Record(category, Title(item.product, NoTitle), ImagesField(images), description, "Yes")
  }

  /** Without a usable link, or when the detail page raised, the record gets the placeholders. */
  lemma ItemRecordDefaults(category: string, item: Listed)
    requires DetailLink(item.product, NoLink).None? || item.detail.Unreachable?
    ensures ItemRecord(category, item).images == NoImage
    ensures ItemRecord(category, item).description == NoDescription
    ensures ItemRecord(category, item).name == Title(item.product, NoTitle)
  {
  }

  /**
   * `'No valid images'` appears exactly when the detail page was loaded and
   * none of its slides had a usable image; otherwise `Images` is a non-empty
   * join of `https://` URLs or the "no image" placeholder.
   */
  lemma NoValidImagesIff(category: string, item: Listed)
    ensures ItemRecord(category, item).images == NoValidImages <==>
              DetailLink(item.product, NoLink).Some? && item.detail.Loaded? && GalleryImages(item.detail.page.slides) == []
  {
    var link := DetailLink(item.product, NoLink);
    if link.Some? && item.detail.Loaded? {
      var gallery := GalleryImages(item.detail.page.slides);
      if gallery != [] {
        JoinStartsWithFirst(gallery, ", ");
        var joined := Join(gallery, ", ");
        assert joined[0] == gallery[0][0] == gallery[0][..|Https|][0] == 'h';
        assert NoValidImages[0] == 'N';
      }
    } else {
      assert NoImage[3] != NoValidImages[3];
    }
  }

  /** A loaded page with usable slides yields their normalised URLs joined by `", "`. */
  lemma ItemRecordEnriched(category: string, item: Listed)
    requires DetailLink(item.product, NoLink).Some? && item.detail.Loaded?
    requires GalleryImages(item.detail.page.slides) != []
    ensures ItemRecord(category, item).images == Join(GalleryImages(item.detail.page.slides), ", ")
    ensures StartsWith(ItemRecord(category, item).images, Https)
    ensures ItemRecord(category, item).description == Description(item.detail.page)
  {
    var gallery := GalleryImages(item.detail.page.slides);
    JoinStartsWithFirst(gallery, ", ");
    var joined := Join(gallery, ", ");
    assert joined[..|gallery[0]|][..|Https|] == joined[..|Https|];
  }

  /**
   * The script as a whole: click "load more" until it fails, then one record
   * per `electron-loop-product` container, in order, written to a file named
   * after the date and six random characters.
   */
  method Run(attempts: seq<Attempt>, page: ListingPage, date: string, suffix: string)
    returns (records: seq<Record>, fileName: string)
    requires |suffix| == 6 && forall i | 0 <= i < 6 :: suffix[i] in SuffixAlphabet
    ensures fileName == CsvFileName(date, suffix)
    ensures |records| == |page.items|
    ensures forall i | 0 <= i < |page.items| ::
              records[i] == ItemRecord(Category(page.h2, " ", NoCategory), page.items[i])
  {
    var _, _, _ := LoadAllProducts(attempts);
    records := ScrapeProducts(Category(page.h2, " ", NoCategory), page.items);
    fileName := CsvFileName(date, suffix);
  }

  /** The product loop: one record per container, in order. */
  method ScrapeProducts(category: string, items: seq<Listed>) returns (records: seq<Record>)
    ensures |records| == |items|
    ensures forall i | 0 <= i < |items| :: records[i] == ItemRecord(category, items[i])
  {
    ghost var expected := seq(|items|, k requires 0 <= k < |items| => ItemRecord(category, items[k]));
    records := [];
    var i := 0;
    while i < |items|
      invariant 0 <= i <= |items|
      invariant records == expected[..i]
    {
      var record := ScrapeProduct(category, items[i]);
      PrefixExtend(expected, i);
      records := records + [record];
      i := i + 1;
    }
    assert records == expected;
  }

  /** One iteration of the product loop. */
  method ScrapeProduct(category: string, item: Listed) returns (record: Record)
    ensures record == ItemRecord(category, item)
  {
    var productLink := NormalizeProductLink(RawLink(item.product, NoLink));
    var title := Title(item.product, NoTitle);
    var sliderImages, description;
    if productLink != NoLinkAvailable {
      match item.detail {
        case Loaded(detail) =>
          sliderImages := CollectGallery(detail.slides);
          description := if detail.productDesc.Some? then GetText(detail.productDesc.value, "\n") else NoDescription;
        case Unreachable =>
          sliderImages, description := [NoImage], NoDescription;
      }
    } else {
      sliderImages, description := [NoImage], NoDescription;
    }
    var images := if sliderImages != [] then Join(sliderImages, ", ") else NoValidImages;
    record := Record(category, title, images, description, "Yes");
  }
}

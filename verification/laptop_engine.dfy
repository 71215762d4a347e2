/**
 * What the four laptopengine.com scrapers share: the shape of a listing page
 * and of a product's detail page, the image URL helpers `normalize_image_url`
 * and `is_valid_image_url`, the slide-gallery filter, and the product link rule.
 */
module LaptopEngine {
  import opened Optional
  import opened Text
  import opened Markup

  const Http := "http://"
  const Https := "https://"

  // ---------------------------------------------------------------------------
  // normalize_image_url / is_valid_image_url
  // ---------------------------------------------------------------------------

  /** `normalize_image_url`: protocol-relative, `http://` and scheme-less URLs become `https://` ones. */
  function NormalizeImageUrl(url: string): (r: string)
    ensures StartsWith(r, Https)
  {
    if StartsWith(url, "//") then "https:" + url
    else if StartsWith(url, Http) then Replace(url, Http, Https)
    else if !(StartsWith(url, Http) || StartsWith(url, Https)) then Https + url
    else url
  }

  /** `is_valid_image_url`: the URL begins with `http://` or `https://`. */
  function IsValidImageUrl(url: string): (b: bool)
    ensures b <==> StartsWith(url, Http) || StartsWith(url, Https)
  {
    StartsWithSplit(url, "http", "://");
    StartsWithSplit(url, "http", "s://");
    && StartsWith(url, "http")
    && var rest := url[4..];
       StartsWith(rest, "://") || StartsWith(rest, "s://")
  }

  /** A URL that is already `https://` is left alone, so normalising twice changes nothing. */
  lemma NormalizeImageUrlIdempotent(url: string)
    ensures StartsWith(url, Https) ==> NormalizeImageUrl(url) == url
    ensures NormalizeImageUrl(NormalizeImageUrl(url)) == NormalizeImageUrl(url)
  {
    HttpsIsFixed(url);
    HttpsIsFixed(NormalizeImageUrl(url));
  }

  lemma HttpsIsFixed(url: string)
    ensures StartsWith(url, Https) ==> NormalizeImageUrl(url) == url
  {
    if StartsWith(url, Https) {
      assert url[0] == url[..|Https|][0] == 'h';
      assert url[4] == url[..|Https|][4] == 's';
    }
  }

  /**
   * For an `http://` URL the code calls `str.replace`, which rewrites every
   * `http://` in the string, not only the leading one: none is left.
   */
  lemma NormalizeImageUrlRewritesEveryHttp(url: string)
    requires StartsWith(url, Http)
    ensures !Contains(NormalizeImageUrl(url), Http)
    ensures NormalizeImageUrl(url) == Https + Replace(url[|Http|..], Http, Https)
  {
    NoHttpAfterReplace(url);
  }

  lemma {:induction false} NoHttpAfterReplace(s: string)
    ensures !Contains(Replace(s, Http, Https), Http)
    decreases |s|
  {
    if |s| == 0 {
    } else if StartsWith(s, Http) {
      NoHttpAfterReplace(s[|Http|..]);
      NoHttpAfterReplacedMatch(s);
    } else {
      NoHttpAfterReplace(s[1..]);
      NoHttpAfterKeptChar(s);
    }
  }

  /** A leading `http://` becomes `https://`, which begins no `http://` of its own. */
  lemma NoHttpAfterReplacedMatch(s: string)
    requires StartsWith(s, Http)
    requires !Contains(Replace(s[|Http|..], Http, Https), Http)
    ensures !Contains(Replace(s, Http, Https), Http)
  {
    var t := Replace(s[|Http|..], Http, Https);
    assert Replace(s, Http, Https) == Https + t;
    HttpParts();
    NoHttpAfterWordWithoutH("ttps://", t);
    assert (Https + t)[1..] == "ttps://" + t;
    assert (Https + t)[..|Http|][4] == 's';
  }

  lemma HttpParts()
    ensures "h" + "ttp://" == Http
    ensures 'h' !in "ttp://" && 'h' !in "ttps://"
  {
  }

  /** A kept character cannot begin an `http://` either, since what follows it starts no `ttp://`. */
  lemma NoHttpAfterKeptChar(s: string)
    requires |s| > 0 && !StartsWith(s, Http)
    requires !Contains(Replace(s[1..], Http, Https), Http)
    ensures !Contains(Replace(s, Http, Https), Http)
  {
    var r := [s[0]] + Replace(s[1..], Http, Https);
    assert Replace(s, Http, Https) == r;
    assert r[1..] == Replace(s[1..], Http, Https);
    KeptCharStartsNoHttp(s);
  }

  lemma KeptCharStartsNoHttp(s: string)
    requires |s| > 0 && !StartsWith(s, Http)
    ensures !StartsWith([s[0]] + Replace(s[1..], Http, Https), Http)
  {
    var t := Replace(s[1..], Http, Https);
    var r := [s[0]] + t;
    assert r[1..] == t && r[..1] == s[..1] && s[1..] == s[1..];
    HttpParts();
    StartsWithSplit(r, "h", "ttp://");
    StartsWithSplit(s, "h", "ttp://");
    if StartsWith(t, "ttp://") {
      ReplacedPrefixWithoutH(s[1..], "ttp://");
    }
  }

  /** A word with no `h` in it cannot begin an `http://`, so prefixing it adds no occurrence. */
  lemma {:induction false} NoHttpAfterWordWithoutH(w: string, t: string)
    requires 'h' !in w
    requires !Contains(t, Http)
    ensures !Contains(w + t, Http)
  {
    if w != [] {
      assert (w + t)[0] == w[0];
      assert (w + t)[1..] == w[1..] + t;
      NoHttpAfterWordWithoutH(w[1..], t);
    } else {
      assert w + t == t;
    }
  }

  /** The replacement starts with `h`, so an `h`-free prefix of the result was already in the input. */
  lemma {:induction false} ReplacedPrefixWithoutH(x: string, p: string)
    requires 'h' !in p
    requires StartsWith(Replace(x, Http, Https), p)
    ensures StartsWith(x, p)
    decreases |x|
  {
    if p != [] && |x| > 0 {
      var r := Replace(x, Http, Https);
      assert r[0] == r[..|p|][0] == p[0];
      assert !StartsWith(x, Http);
      var t := Replace(x[1..], Http, Https);
      assert ([x[0]] + t)[1..] == t;
      assert ([x[0]] + t)[..|p|] == [x[0]] + t[..|p| - 1];
      assert StartsWith(t, p[1..]);
      ReplacedPrefixWithoutH(x[1..], p[1..]);
      assert x[..|p|] == [x[0]] + x[1..][..|p| - 1];
    }
  }

  // ---------------------------------------------------------------------------
  // The slide gallery of a detail page
  // ---------------------------------------------------------------------------

  /** A `swiper-slide` div, reduced to the first `img` inside it. */
  datatype Slide = Slide(img: Option<ImgTag>)

  /** The `src` of the slide's image, when it has an image with that attribute. */
  function SlideSource(s: Slide): Option<string> {
    if s.img.Some? then s.img.value.src else None
  }

  /** The slide contributes an image: its `src` exists and passes `is_valid_image_url`. */
  predicate KeepsImage(s: Slide) {
    SlideSource(s).Some? && IsValidImageUrl(SlideSource(s).value)
  }

  /**
   * A protocol-relative `src` fails `is_valid_image_url`, so such a slide is
   * skipped and the gallery never uses the `//` branch of `normalize_image_url`.
   */
  lemma ProtocolRelativeNotKept(s: Slide)
    requires SlideSource(s).Some? && StartsWith(SlideSource(s).value, "//")
    ensures !KeepsImage(s)
  {
    var src := SlideSource(s).value;
    assert src[..2][0] == '/';
  }

  /** The gallery a detail page yields: each kept `src`, normalised, in slide order. */
  function GalleryImages(slides: seq<Slide>): (images: seq<string>)
    ensures |images| <= |slides|
    ensures forall k | 0 <= k < |images| :: StartsWith(images[k], Https)
  {
    if slides == [] then []
    else
      var last := slides[|slides| - 1];
      GalleryImages(slides[..|slides| - 1])
        + (if KeepsImage(last) then [NormalizeImageUrl(SlideSource(last).value)] else [])
  }

  /** Earlier slides' images come first: the gallery of a concatenation is the concatenation. */
  lemma {:induction false} GalleryImagesAppend(a: seq<Slide>, b: seq<Slide>)
    ensures GalleryImages(a + b) == GalleryImages(a) + GalleryImages(b)
    decreases |b|
  {
    if b == [] {
      assert a + b == a;
    } else {
      assert (a + b)[..|a + b| - 1] == a + b[..|b| - 1];
      GalleryImagesAppend(a, b[..|b| - 1]);
    }
  }

  /** An image is in the gallery exactly when some slide keeps a `src` that normalises to it. */
  lemma {:induction false} GalleryImagesMembers(slides: seq<Slide>, x: string)
    ensures x in GalleryImages(slides) <==>
            exists i | 0 <= i < |slides| :: KeepsImage(slides[i]) && x == NormalizeImageUrl(SlideSource(slides[i]).value)
  {
    if slides != [] {
      var init := slides[..|slides| - 1];
      GalleryImagesMembers(init, x);
      if exists i | 0 <= i < |init| :: KeepsImage(init[i]) && x == NormalizeImageUrl(SlideSource(init[i]).value) {
        var i :| 0 <= i < |init| && KeepsImage(init[i]) && x == NormalizeImageUrl(SlideSource(init[i]).value);
        assert slides[i] == init[i];
      }
      if exists i | 0 <= i < |slides| :: KeepsImage(slides[i]) && x == NormalizeImageUrl(SlideSource(slides[i]).value) {
        var i :| 0 <= i < |slides| && KeepsImage(slides[i]) && x == NormalizeImageUrl(SlideSource(slides[i]).value);
        if i < |init| {
          assert init[i] == slides[i];
        }
      }
    }
  }

  /**
   * The gallery loop: slide by slide, a slide whose image has a valid `src`
   * contributes that URL, normalised; the others are skipped.
   */
  method CollectGallery(slides: seq<Slide>) returns (images: seq<string>)
    ensures images == GalleryImages(slides)
  {
    images := [];
    var i := 0;
    while i < |slides|
      invariant 0 <= i <= |slides|
      invariant images == GalleryImages(slides[..i])
    {
      assert slides[..i + 1][..i] == slides[..i];
      var imgTag := slides[i].img;
      if imgTag.Some? && imgTag.value.src.Some? {
        var imageUrl := imgTag.value.src.value;
        if IsValidImageUrl(imageUrl) {
          images := images + [NormalizeImageUrl(imageUrl)];
        }
      }
      i := i + 1;
    }
    assert slides[..i] == slides;
  }

  // ---------------------------------------------------------------------------
  // Product links
  // ---------------------------------------------------------------------------

  const Origin := "https://www.laptopengine.com"
  const NoLinkAvailable := "No link available"

  /**
   * A site-relative link gets the origin in front; any other link that does
   * not start with `http` is replaced by the "no link" sentinel, which turns
   * detail-page enrichment off.
   */
  function NormalizeProductLink(link: string): (r: string)
    ensures r != NoLinkAvailable <==> StartsWith(link, "/") || StartsWith(link, "http")
    ensures r != NoLinkAvailable ==> StartsWith(r, "http")
    ensures StartsWith(link, "/") ==> r == Origin + link
    ensures StartsWith(link, "http") ==> r == link
  {
    if StartsWith(link, "/") then
      assert (Origin + link)[..4] == "http";
      assert link[..1][0] == '/';
      Origin + link
    else if !StartsWith(link, "http") then NoLinkAvailable
    else link
  }

  /**
   * The detail page a product links to: its `href`, normalised, unless there
   * is none or it is not a usable link. `default` is the placeholder the
   * script uses for a missing `href`; it is never a usable link.
   */
  function DetailLink(p: Product, default: string): (link: Option<string>)
    requires default == [] || default[0] !in "/h"
    ensures link.Some? <==>
              LinkTag(p).Some? && LinkTag(p).value.href.Some? &&
              (StartsWith(LinkTag(p).value.href.value, "/") || StartsWith(LinkTag(p).value.href.value, "http"))
    ensures link.Some? ==> StartsWith(link.value, "http") && link.value != NoLinkAvailable
    ensures link.Some? ==> link.value == NormalizeProductLink(LinkTag(p).value.href.value)
  {
    var raw := RawLink(p, default);
    assert raw == default && |raw| >= 1 ==> raw[..1][0] == raw[0];
    assert raw == default && |raw| >= 4 ==> raw[..4][0] == raw[0];
    var link := NormalizeProductLink(raw);
    if link != NoLinkAvailable then Some(link) else None
  }

  /** Normalising a normalised link changes nothing. */
  lemma NormalizeProductLinkIdempotent(link: string)
    ensures NormalizeProductLink(NormalizeProductLink(link)) == NormalizeProductLink(link)
  {
    var r := NormalizeProductLink(link);
    if r == NoLinkAvailable {
      assert r[..1][0] == 'N' && r[..4][0] == 'N';
    } else {
      assert r[..1][0] == 'h' && r[..4] == "http";
    }
  }

  // ---------------------------------------------------------------------------
  // Pages
  // ---------------------------------------------------------------------------

  /**
   * A product's detail page once the browser has loaded it: its slides, the
   * `product-desc-content` div, the `name` div, and the page heights the
   * detail scroll loop of one script reads.
   */
  datatype DetailPage = DetailPage(
    slides: seq<Slide>,
    productDesc: Option<Element>,
    nameDiv: Option<Element>,
    initialHeight: int,
    heights: seq<int>)

  /** What loading a detail page did: it raised (timeout, driver error, ...) or it loaded. */
  datatype Fetch = Unreachable | Loaded(page: DetailPage)

  /** An `electron-loop-product` container, with what loading its link would give. */
  datatype Listed = Listed(product: Product, detail: Fetch)

  /** The listing page after loading: its first `h2` and its product containers in order. */
  datatype ListingPage = ListingPage(h2: Option<Element>, items: seq<Listed>)
}

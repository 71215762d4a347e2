/**
 * scraper.py: scrolls a revibe.me collection until its height settles, then
 * builds one record per `product-item`: the origin-prefixed link, an image
 * URL, the title, the price parsed to a number, and the technical
 * specifications fetched over HTTP. A price with no digits, or an exception
 * other than `RequestException`, ends the run before the CSV is written.
 */
module RevibeScraper {
  import opened Optional
  import opened Text
  import opened Markup
  import opened Loading
  import opened Export
  import opened Revibe
  import opened Outcomes

  // ---------------------------------------------------------------------------
  // Link and image
  // ---------------------------------------------------------------------------

  /** The site origin followed by the card anchor's `href`, or the default when the anchor or the attribute is missing. */
  function ProductLink(item: Item): (link: string)
    ensures link != NoLink <==> item.cardTitle.Some? && item.cardTitle.value.href.Some?
    ensures link != NoLink ==> link == Origin + item.cardTitle.value.href.value
  {
    if item.cardTitle.Some? && item.cardTitle.value.href.Some? then
      var link := Origin + item.cardTitle.value.href.value;
      assert link[1] == 't' != NoLink[1];
      link
    else NoLink
  }

  /** The raw image: the first `data-srcset` candidate when that attribute exists, else `src`, else the default. */
  function RawImage(img: ImgTag): (raw: string)
    ensures img.dataSrcset.Some? ==> raw == FirstSrcsetCandidate(img.dataSrcset.value)
    ensures img.dataSrcset.None? && img.src.None? ==> raw == NoImage
  {
    if img.dataSrcset.Some? then FirstSrcsetCandidate(img.dataSrcset.value)
    else if img.src.Some? then img.src.value
    else NoImage
  }

  /**
   * The scheme fix: a protocol-relative URL gets `https:`, anything else not
   * starting with `http` gets `https://`, and `http...` is kept as it is.
   */
  function NormalizeImage(raw: string): (url: string)
    ensures StartsWith(url, "http")
    ensures StartsWith(raw, "http") ==> url == raw
    ensures !StartsWith(raw, "http") ==> |url| > |raw|
    ensures StartsWith(raw, "//") ==> url == "https:" + raw
    ensures !StartsWith(raw, "//") && !StartsWith(raw, "http") ==> url == "https://" + raw
  {
    if StartsWith(raw, "//") then
      assert raw[..2][0] == '/';
      assert ("https:" + raw)[..4] == "http";
      "https:" + raw
    else if !StartsWith(raw, "http") then
      assert ("https://" + raw)[..4] == "http";
      "https://" + raw
    else raw
  }

  /** Fixing the scheme twice is fixing it once. */
  lemma NormalizeImageIdempotent(raw: string)
    ensures NormalizeImage(NormalizeImage(raw)) == NormalizeImage(raw)
  {
  }

  /** `'No image available'` when there is no image tag, else the fixed raw image. */
  function ImageUrl(item: Item): (url: string)
    ensures item.image.None? <==> url == NoImage
    ensures item.image.Some? ==> url == NormalizeImage(RawImage(item.image.value))
  {
    if item.image.Some? then
      var url := NormalizeImage(RawImage(item.image.value));
      assert url[..4] == "http" && NoImage[..4] == "No i";
      url
    else NoImage
  }

  /** An image tag with neither attribute yields the default text behind a scheme. */
  lemma ImageWithoutSource(item: Item)
    requires item.image == Some(ImgTag(None, None))
    ensures ImageUrl(item) == "https://" + NoImage
  {
    assert NoImage[..4][0] == 'N' && NoImage[..2][0] == 'N';
  }

  // ---------------------------------------------------------------------------
  // Price
  // ---------------------------------------------------------------------------

  /** The characters `[\d.]` keeps; digits are ASCII here. */
  predicate IsDigit(c: char) { '0' <= c <= '9' }
  predicate PriceChar(c: char) { IsDigit(c) || c == '.' }

  /** Every character other than a digit or a dot removed: the digits and dots, in order. */
  function FilterPrice(text: string): (numeric: string)
    ensures forall i | 0 <= i < |numeric| :: PriceChar(numeric[i])
    ensures |numeric| <= |text|
  {
    if text == [] then []
    else (if PriceChar(text[0]) then [text[0]] else []) + FilterPrice(text[1..])
  }

  /** A character survives the filter exactly when it is in the text and is a digit or a dot. */
  lemma {:induction false} FilterPriceMembers(text: string, c: char)
    ensures c in FilterPrice(text) <==> c in text && PriceChar(c)
  {
    if text != [] {
      FilterPriceMembers(text[1..], c);
      assert text == [text[0]] + text[1..];
    }
  }

  lemma {:induction false} FilterPriceAppend(a: string, b: string)
    ensures FilterPrice(a + b) == FilterPrice(a) + FilterPrice(b)
  {
    if a == [] {
      assert a + b == b;
    } else {
      assert (a + b)[1..] == a[1..] + b;
      FilterPriceAppend(a[1..], b);
    }
  }

  /** Text made only of digits and dots passes unchanged. */
  lemma {:induction false} FilterPriceKeeps(text: string)
    requires forall i | 0 <= i < |text| :: PriceChar(text[i])
    ensures FilterPrice(text) == text
  {
    if text != [] {
      FilterPriceKeeps(text[1..]);
    }
  }

  /** Text with no digit and no dot filters to nothing. */
  lemma {:induction false} FilterPriceDrops(text: string)
    requires forall i | 0 <= i < |text| :: !PriceChar(text[i])
    ensures FilterPrice(text) == ""
  {
    if text != [] {
      FilterPriceDrops(text[1..]);
    }
  }

  function DigitValue(c: char): nat
    requires IsDigit(c)
  {
    (c as int - '0' as int) as nat
  }

  /** `int(s)` for a non-empty string of ASCII digits. */
  function DigitsValue(s: string): nat
    requires forall i | 0 <= i < |s| :: IsDigit(s[i])
  {
    if s == [] then 0 else DigitsValue(s[..|s| - 1]) * 10 + DigitValue(s[|s| - 1])
  }

  /** `str(n)`: the decimal digits of `n`, without leading zeros. */
  function ShowNat(n: nat): (s: string)
    ensures s != []
    ensures forall i | 0 <= i < |s| :: IsDigit(s[i])
  {
    if n < 10 then [('0' as int + n) as char]
    else ShowNat(n / 10) + [('0' as int + n % 10) as char]
  }

  /** Reading the decimal digits of `n` gives `n` back: `int(str(n)) == n`. */
  lemma {:induction false} DigitsValueShowNat(n: nat)
    ensures DigitsValue(ShowNat(n)) == n
  {
    if n >= 10 {
      DigitsValueShowNat(n / 10);
      var s := ShowNat(n);
      assert s[..|s| - 1] == ShowNat(n / 10);
    }
  }

  /** What `'Regular price'` holds: an `int`, a `float` (its source text), or the placeholder text. */
  datatype PriceValue = IntPrice(value: nat) | FloatPrice(text: string) | TextPrice(text: string)

  function CountDots(s: string): nat {
    if s == [] then 0 else (if s[0] == '.' then 1 else 0) + CountDots(s[1..])
  }

  /** `float(s)` accepts a string of digits and dots exactly when it has one dot and a digit. */
  predicate FloatAccepts(numeric: string) {
    CountDots(numeric) == 1 && |numeric| >= 2
  }

  /**
   * The filtered text read as a float when it holds a dot and as an integer
   * otherwise; `None` is the `ValueError` either conversion raises.
   */
  function ParsePrice(text: string): (price: Option<PriceValue>)
    ensures var numeric := FilterPrice(text);
            && (price.None? <==> numeric == "" || ('.' in numeric && !FloatAccepts(numeric)))
            && (price.Some? && '.' !in numeric ==> price.value == IntPrice(DigitsValue(numeric)))
            && (price.Some? && '.' in numeric ==> price.value == FloatPrice(numeric))
  {
    var numeric := FilterPrice(text);
    if '.' in numeric then (if FloatAccepts(numeric) then Some(FloatPrice(numeric)) else None)
    else if numeric == "" then None
    else
      assert forall i | 0 <= i < |numeric| :: IsDigit(numeric[i]) by {
        forall i | 0 <= i < |numeric| ensures IsDigit(numeric[i]) {
          assert numeric[i] in numeric;
        }
      }
      Some(IntPrice(DigitsValue(numeric)))
  }

  /**
   * A price written as a currency word without dots followed by a whole
   * number parses back to that number.
   */
  lemma ParseWholePrice(currency: string, n: nat)
    requires forall i | 0 <= i < |currency| :: !PriceChar(currency[i])
    ensures ParsePrice(currency + ShowNat(n)) == Some(IntPrice(n))
  {
    FilterPriceAppend(currency, ShowNat(n));
    FilterPriceDrops(currency);
    FilterPriceKeeps(ShowNat(n));
    assert FilterPrice(currency + ShowNat(n)) == ShowNat(n);
    DigitsValueShowNat(n);
    assert '.' !in ShowNat(n) by {
      forall i | 0 <= i < |ShowNat(n)| ensures ShowNat(n)[i] != '.' {
        assert IsDigit(ShowNat(n)[i]);
      }
    }
  }

  /** A price text with no digit and no dot makes `int('')` raise. */
  lemma PriceWithoutDigitsRaises(text: string)
    requires forall i | 0 <= i < |text| :: !PriceChar(text[i])
    ensures ParsePrice(text) == None
  {
    FilterPriceDrops(text);
  }

  /**
   * A dot in the currency text is kept: a price written `Dhs. 1,299` becomes
   * the float `.1299`, and in general a dotted currency word in front of a
   * thousands-separated amount makes a fraction of its digits.
   */
  lemma CurrencyDotKept()
    ensures ParsePrice("Dhs. 1,299") == Some(FloatPrice(".1299"))
  {
    DottedCurrency("Dhs", "1", "299");
    assert "Dhs" + ". " + "1" + "," + "299" == "Dhs. 1,299";
    assert "." + "1" + "299" == ".1299";
  }

  lemma DottedCurrency(currency: string, whole: string, thousands: string)
    requires forall i | 0 <= i < |currency| :: !PriceChar(currency[i])
    requires forall i | 0 <= i < |whole| :: IsDigit(whole[i])
    requires forall i | 0 <= i < |thousands| :: IsDigit(thousands[i])
    requires whole != []
    ensures ParsePrice(currency + ". " + whole + "," + thousands) == Some(FloatPrice("." + whole + thousands))
  {
    DottedCurrencyFiltered(currency, whole, thousands);
    var digits := whole + thousands;
    assert forall i | 0 <= i < |digits| :: IsDigit(digits[i]);
    DotsOfDigits(digits);
    var numeric := "." + whole + thousands;
    assert numeric == ['.'] + digits;
    assert numeric[1..] == digits;
    assert '.' in numeric;
  }

  lemma DottedCurrencyFiltered(currency: string, whole: string, thousands: string)
    requires forall i | 0 <= i < |currency| :: !PriceChar(currency[i])
    requires forall i | 0 <= i < |whole| :: IsDigit(whole[i])
    requires forall i | 0 <= i < |thousands| :: IsDigit(thousands[i])
    ensures FilterPrice(currency + ". " + whole + "," + thousands) == "." + whole + thousands
  {
    Punctuation();
    var p1 := currency + ". ";
    FilterPriceAppend(currency, ". ");
    FilterPriceDrops(currency);
    assert FilterPrice(p1) == ".";
    var p2 := p1 + whole;
    FilterPriceAppend(p1, whole);
    FilterPriceKeeps(whole);
    assert FilterPrice(p2) == "." + whole;
    var p3 := p2 + ",";
    FilterPriceAppend(p2, ",");
    assert FilterPrice(p3) == "." + whole;
    FilterPriceAppend(p3, thousands);
    FilterPriceKeeps(thousands);
  }

  lemma Punctuation()
    ensures FilterPrice(". ") == "." && FilterPrice(",") == ""
  {
    FilterPriceDrops(",");
    FilterPriceDrops(" ");
    assert ". "[1..] == " ";
  }

  /** A string of digits has no dot. */
  lemma {:induction false} DotsOfDigits(s: string)
    requires forall i | 0 <= i < |s| :: IsDigit(s[i])
    ensures CountDots(s) == 0
  {
    if s != [] {
      DotsOfDigits(s[1..]);
    }
  }

  /** The `'Regular price'` value: the parsed price, or the placeholder when there is no price span. */
  function ItemPrice(item: Item): (price: Option<PriceValue>)
    ensures item.priceTag.None? ==> price == Some(TextPrice(NoPrice))
    ensures item.priceTag.Some? ==> price == ParsePrice(PriceText(item.priceTag.value))
  {
    if item.priceTag.Some? then ParsePrice(PriceText(item.priceTag.value)) else Some(TextPrice(NoPrice))
  }

  // ---------------------------------------------------------------------------
  // The run
  // ---------------------------------------------------------------------------

  /** One output row: the keys Categories, Name, Images, Regular price and Description. */
  datatype Record = Record(categories: string, name: string, images: string, regularPrice: PriceValue, description: string)

  /** The exception that ends a run: `ValueError` from the price, or an uncaught fetch error. */
  datatype Failure = PriceValueError | FetchError


  /** How a run ends: the CSV, an exception at product `at`, or the scroll loop still running. */
  datatype Outcome = Exported(records: seq<Record>, file: string) | Raised(at: nat, failure: Failure) | Scrolling

  /** One iteration of the product loop. The price is read before the detail request is made. */
  function ProductStep(category: string, item: Item): Step<Record, Failure> {
    var link := ProductLink(item);
    match ItemPrice(item)
    case None => Stop(PriceValueError)
    case Some(price) =>
      var description := if link != NoLink then FetchDescription(item.detail) else Some(NoDescription);
      if description.None? then Stop(FetchError)
      else Row(Record(category, ItemTitle(item), ImageUrl(item), price, description.value))
  }

  /**
   * A product raises `ValueError` exactly when its price does not parse, and
   * otherwise an uncaught exception exactly when its link is followed and the
   * request fails with something other than a `RequestException`; a row keeps
   * the category, title, image and parsed price, and a product without a link
   * is never fetched.
   */
  lemma ProductStepCases(category: string, item: Item)
    ensures ProductStep(category, item) == Stop(PriceValueError) <==> ItemPrice(item).None?
    ensures ProductStep(category, item) == Stop(FetchError) <==>
              ItemPrice(item).Some? && ProductLink(item) != NoLink && item.detail.OtherFailure?
    ensures ProductStep(category, item).Row? ==>
              ProductStep(category, item).record == Record(category, ItemTitle(item), ImageUrl(item),
                ItemPrice(item).value, if ProductLink(item) == NoLink then NoDescription else FetchDescription(item.detail).value)
  {
  }

  /** What each product of the loop contributes, in order. */
  function Steps(category: string, items: seq<Item>): (steps: seq<Step<Record, Failure>>)
    ensures |steps| == |items|
  {
    seq(|items|, i requires 0 <= i < |items| => ProductStep(category, items[i]))
  }

  /** The product loop: every row and the file, or the first product that raises. */
  function ProductsOutcome(category: string, items: seq<Item>, file: string): (o: Outcome)
    ensures !o.Scrolling?
    ensures o.Exported? ==> |o.records| == |items| && o.file == file
    ensures o.Raised? ==> o.at < |items|
  {
    var steps := Steps(category, items);
    var k := FirstStop(steps);
    if k == |steps| then Exported(RecordsOf(steps), file)
    else Raised(k, steps[k].reason)
  }

  /** The whole script: the scroll loop, then the product loop; the scroll loop alone leaves the run waiting. */
  function RunOutcome(initialHeight: int, heights: seq<int>, page: Page, date: string, suffix: string): (o: Outcome)
    requires |suffix| == 6 && forall i | 0 <= i < 6 :: suffix[i] in SuffixAlphabet
    ensures o.Scrolling? <==> FirstRepeat(initialHeight, heights) == |heights|
    ensures o.Exported? ==> o.file == CsvFileName(date, suffix) && |o.records| == |page.items|
  {
    if FirstRepeat(initialHeight, heights) == |heights| then Scrolling
    else ProductsOutcome(Category(page.h2, " ", NoCategory), page.items, CsvFileName(date, suffix))
  }

  /**
   * A failed request costs only that product its description: when every
   * price parses and no other exception escapes, the CSV has every product,
   * in order.
   */
  lemma RequestFailureIsolated(initialHeight: int, heights: seq<int>, page: Page, date: string, suffix: string)
    requires |suffix| == 6 && forall i | 0 <= i < 6 :: suffix[i] in SuffixAlphabet
    requires FirstRepeat(initialHeight, heights) < |heights|
    requires forall i | 0 <= i < |page.items| :: ItemPrice(page.items[i]).Some? && !page.items[i].detail.OtherFailure?
    ensures RunOutcome(initialHeight, heights, page, date, suffix).Exported?
    ensures |RunOutcome(initialHeight, heights, page, date, suffix).records| == |page.items|
    ensures forall i | 0 <= i < |page.items| && page.items[i].detail.RequestFailed? ::
              RunOutcome(initialHeight, heights, page, date, suffix).records[i].description == NoDescription
    ensures forall i | 0 <= i < |page.items| ::
              && ProductStep(Category(page.h2, " ", NoCategory), page.items[i]).Row?
              && RunOutcome(initialHeight, heights, page, date, suffix).records[i]
                 == ProductStep(Category(page.h2, " ", NoCategory), page.items[i]).record
  {
    var category := Category(page.h2, " ", NoCategory);
    var steps := Steps(category, page.items);
    forall i | 0 <= i < |page.items|
      ensures steps[i].Row?
      ensures page.items[i].detail.RequestFailed? ==> steps[i].record.description == NoDescription
    {
      ProductStepCases(category, page.items[i]);
    }
    RecordsOfIndex(steps);
  }

  /** The run stops at the first product that raises, and it is that product's exception. */
  lemma RaisedAtFirstFailure(initialHeight: int, heights: seq<int>, page: Page, date: string, suffix: string)
    requires |suffix| == 6 && forall i | 0 <= i < 6 :: suffix[i] in SuffixAlphabet
    requires RunOutcome(initialHeight, heights, page, date, suffix).Raised?
    ensures var o := RunOutcome(initialHeight, heights, page, date, suffix);
            && o.at < |page.items|
            && (o.failure == PriceValueError <==> ItemPrice(page.items[o.at]).None?)
            && (o.failure == FetchError ==>
                  ItemPrice(page.items[o.at]).Some? && ProductLink(page.items[o.at]) != NoLink &&
                  page.items[o.at].detail.OtherFailure?)
            && (forall i | 0 <= i < o.at :: ItemPrice(page.items[i]).Some?)
            && forall i | 0 <= i < o.at :: ProductStep(Category(page.h2, " ", NoCategory), page.items[i]).Row?
  {
    var category := Category(page.h2, " ", NoCategory);
    var k := FirstStop(Steps(category, page.items));
    ProductStepCases(category, page.items[k]);
    forall i | 0 <= i < k
      ensures ItemPrice(page.items[i]).Some? && ProductStep(category, page.items[i]).Row?
    {
      assert Steps(category, page.items)[i].Row?;
      ProductStepCases(category, page.items[i]);
    }
  }

  /** The script, with the browser's page heights and the collection page supplied up front. */
  method Run(initialHeight: int, heights: seq<int>, page: Page, date: string, suffix: string) returns (outcome: Outcome)
    requires |suffix| == 6 && forall i | 0 <= i < 6 :: suffix[i] in SuffixAlphabet
    ensures outcome == RunOutcome(initialHeight, heights, page, date, suffix)
  {
    var _, _, settled := ScrollUntilStable(initialHeight, heights);
    if !settled {
      return Scrolling;
    }
    var category := Category(page.h2, " ", NoCategory);
    outcome := ScrapeProducts(category, page.items, CsvFileName(date, suffix));
  }

  method ScrapeProducts(category: string, items: seq<Item>, file: string) returns (outcome: Outcome)
    ensures outcome == ProductsOutcome(category, items, file)
  {
    ghost var steps := Steps(category, items);
    var records := [];
    var i := 0;
    while i < |items|
      invariant 0 <= i <= |items|
      invariant i <= FirstStop(steps)
      invariant |records| == i
      invariant records == RecordsOf(steps[..i])
    {
      var step := ScrapeProduct(category, items[i]);
      assert step == steps[i];
      StepOfLoop(steps, i);
      if step.Stop? {
        return Raised(i, step.reason);
      }
      records := records + [step.record];
      i := i + 1;
    }
    assert steps[..i] == steps;
    return Exported(records, file);
  }

  /** One iteration: link, image, title, price, then the description request. */
  method ScrapeProduct(category: string, item: Item) returns (step: Step<Record, Failure>)
    ensures step == ProductStep(category, item)
  {
    var productLink := ProductLink(item);
    var imageUrl;
    if item.image.Some? {
      var imageUrlRaw := RawImage(item.image.value);
      if StartsWith(imageUrlRaw, "//") {
        imageUrl := "https:" + imageUrlRaw;
      } else if !StartsWith(imageUrlRaw, "http") {
        imageUrl := "https://" + imageUrlRaw;
      } else {
        imageUrl := imageUrlRaw;
      }
    } else {
      imageUrl := NoImage;
    }
    var title := ItemTitle(item);
    var price;
    if item.priceTag.Some? {
      var parsed := ParsePrice(PriceText(item.priceTag.value));
      if parsed.None? {
        return Stop(PriceValueError);
      }
      price := parsed.value;
    } else {
      price := TextPrice(NoPrice);
    }
    var description := NoDescription;
    if productLink != NoLink {
      match item.detail {
        case Fetched(specs) =>
          if specs.Some? {
            description := GetText(specs.value, "\n");
          }
        case RequestFailed =>
        case OtherFailure =>
          return Stop(FetchError);
      }
    }
    return Row(Record(category, title, imageUrl, price, description));
  }
}

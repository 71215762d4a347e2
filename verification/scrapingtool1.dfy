/**
 * scrapingtool1.py: a configurable scraper window. The user gives a URL and,
 * for each of seven page parts, an HTML tag (from a drop-down) and a class
 * (typed in); the worker reads name, price and link from each product
 * container those selectors find. There is no "load more" loop and no detail
 * page.
 */
module ScrapingTool1 {
  import opened Optional
  import opened Sequences
  import opened Text
  import opened Markup
  import ScrapingTools

  const NoLink := "No link"
  const NoTitle := "No title"
  const NoPrice := "No price"

  /** The keys of `fields_data`, in order; each gets a `_tag` drop-down and a `_class` line edit. */
  const FieldNames := ["load_more", "category", "products", "title", "price", "description", "image"]

  /** The drop-down's entries, `html_tags`. */
  const HtmlTags := ["div", "span", "h1", "h2", "h3", "h4", "h5", "h6", "a", "img", "p"]

  // ---------------------------------------------------------------------------
  // The worker
  // ---------------------------------------------------------------------------

  /** One output row: the keys Name, Price and Link. */
  datatype Record = Record(name: string, price: string, link: string)

  /** The row for one product container; the link is kept exactly as found. */
  function ItemRecord(p: Product): (r: Record)
    ensures LinkTag(p).None? ==> r.name == NoTitle && r.link == NoLink
    ensures LinkTag(p).Some? ==> Trimmed(r.name)
    ensures LinkTag(p).Some? && LinkTag(p).value.href.Some? ==> r.link == LinkTag(p).value.href.value
    ensures p.priceTag.None? ==> r.price == NoPrice
    ensures p.priceTag.Some? ==> Trimmed(r.price)
    ensures LinkTag(p).Some? && LinkTag(p).value.href.None? ==> r.link == NoLink
    ensures LinkTag(p).Some? ==> r.name == GetText(LinkTag(p).value.content, "")
    ensures p.priceTag.Some? ==> r.price == Strip(AllText(p.priceTag.value))
  {
    Record(Title(p, NoTitle), Price(p, NoPrice), RawLink(p, NoLink))
  }

  /**
   * `ScraperThread.run`: one record per product container the selectors
   * matched, in order, with the progress value after each.
   */
  method Run(products: seq<Product>) returns (records: seq<Record>, progress: seq<int>)
    ensures |records| == |products| == |progress|
    ensures forall i | 0 <= i < |products| :: records[i] == ItemRecord(products[i])
    ensures forall i {:trigger progress[i]} | 0 <= i < |progress| ::
              progress[i] == ScrapingTools.Progress(i, |products|)
  {
    ghost var expected := seq(|products|, k requires 0 <= k < |products| => ItemRecord(products[k]));
    ghost var ticks := seq(|products|, k requires 0 <= k < |products| => ScrapingTools.Progress(k, |products|));
    records, progress := [], [];
    var i := 0;
    while i < |products|
      invariant 0 <= i <= |products|
      invariant records == expected[..i]
      invariant progress == ticks[..i]
    {
      var product := products[i];
      var productLink := RawLink(product, NoLink);
      var title := Title(product, NoTitle);
      var price := Price(product, NoPrice);
      PrefixExtend(expected, i);
      PrefixExtend(ticks, i);
      records := records + [Record(title, price, productLink)];
      progress := progress + [ScrapingTools.Progress(i, |products|)];
      i := i + 1;
    }
    assert records == expected && progress == ticks;
  }

  // ---------------------------------------------------------------------------
  // The window
  // ---------------------------------------------------------------------------

  /** A `QComboBox` (its entries and the selected index) or a `QLineEdit` (its text). */
  datatype Widget = ComboBox(items: seq<string>, index: nat) | LineEdit(text: string)

  /** `currentText()`: the selected entry, or `""` when nothing is selected. */
  function CurrentText(w: Widget): string
    requires w.ComboBox?
  {
    if w.index < |w.items| then w.items[w.index] else ""
  }

  function TagKey(name: string): string { name + "_tag" }
  function ClassKey(name: string): string { name + "_class" }

  /** The keys of `self.fields`. */
  function FieldKeys(): set<string> {
    (set n | n in FieldNames :: TagKey(n)) + (set n | n in FieldNames :: ClassKey(n))
  }

  /** A tag key always contains `"tag"`. */
  lemma TagKeyHasTag(name: string)
    ensures Contains(TagKey(name), "tag")
  {
    ContainsSuffix(name + "_", "tag");
    assert name + "_tag" == (name + "_") + "tag";
  }

  /** None of the seven class keys contains `"tag"`, so each is read with `text()`. */
  lemma ClassKeyHasNoTag(name: string)
    requires name in FieldNames
    ensures !Contains(ClassKey(name), "tag")
  {
    if name == "category" {
      CategoryClassHasNoTag();
    } else if name in {"products", "title", "description"} {
      MissingCharNotContained(ClassKey(name), "tag", 'g');
    } else {
      MissingCharNotContained(ClassKey(name), "tag", 't');
    }
  }

  /** `category_class` has both a `t` and a `g`, but never in a row with an `a` between them. */
  lemma CategoryClassHasNoTag()
    ensures !Contains(ClassKey("category"), "tag")
  {
    CatPrefixHasNoTag("egory_class");
    assert ['c', 'a', 't'] + "egory_class" == ClassKey("category");
  }

  /** `cat` followed by a `t`-free word starting with `e`: its only `t` is followed by `e`. */
  lemma CatPrefixHasNoTag(rest: string)
    requires rest != [] && rest[0] == 'e' && 't' !in rest
    ensures !Contains(['c', 'a', 't'] + rest, "tag")
  {
    MissingCharNotContained(rest, "tag", 't');
    var t := ['t'] + rest;
    assert |t| >= 3 ==> t[..3][1] == 'e';
    PrependNoMatch('t', rest, "tag");
    var at := ['a'] + t;
    assert at[..3][0] == 'a';
    PrependNoMatch('a', t, "tag");
    assert ['c', 'a', 't'] + rest == ['c'] + at;
    assert (['c'] + at)[..3][0] == 'c';
    PrependNoMatch('c', at, "tag");
  }

  /** A character in front adds no occurrence unless the pattern starts right there. */
  lemma PrependNoMatch(c: char, rest: string, pattern: string)
    requires !Contains(rest, pattern) && !StartsWith([c] + rest, pattern)
    ensures !Contains([c] + rest, pattern)
  {
    assert ([c] + rest)[1..] == rest;
  }

  /** A tag key ends in `g`, a class key in `s`: the two never collide. */
  lemma TagAndClassKeysDiffer(a: string, b: string)
    ensures TagKey(a) != ClassKey(b)
  {
    assert TagKey(a)[|TagKey(a)| - 1] == 'g';
    assert ClassKey(b)[|ClassKey(b)| - 1] == 's';
  }

  /** The widgets `init_ui` creates for the given field names, in order. */
  function InitialFields(names: seq<string>): map<string, Widget> {
    if names == [] then map[]
    else
      var name := names[|names| - 1];
      InitialFields(names[..|names| - 1])[TagKey(name) := ComboBox(HtmlTags, 0)][ClassKey(name) := LineEdit("")]
  }

  /** Each name gets a drop-down on its first entry and an empty line edit, and no other key is added. */
  lemma {:induction false} InitialFieldsShape(names: seq<string>)
    ensures InitialFields(names).Keys ==
              (set n | n in names :: TagKey(n)) + (set n | n in names :: ClassKey(n))
    ensures forall n | n in names :: InitialFields(names)[TagKey(n)] == ComboBox(HtmlTags, 0)
    ensures forall n | n in names :: InitialFields(names)[ClassKey(n)] == LineEdit("")
  {
    if names != [] {
      var init := names[..|names| - 1];
      var name := names[|names| - 1];
      InitialFieldsShape(init);
      forall n | n in names
        ensures TagKey(name) != ClassKey(n) && ClassKey(name) != TagKey(n)
      {
        TagAndClassKeysDiffer(name, n);
        TagAndClassKeysDiffer(n, name);
      }
      assert forall n :: n in names <==> n in init || n == name;
    }
  }

  /** The URL and selectors handed to the worker. */
  datatype ScrapeRequest = ScrapeRequest(url: string, selectors: map<string, string>)

  class ScraperApp {
    var urlText: string
    var fields: map<string, Widget>

    /** Every field has its drop-down over `html_tags` and its line edit, and nothing else. */
    predicate Valid()
      reads this
    {
      && fields.Keys == FieldKeys()
      && (forall n | n in FieldNames :: fields[TagKey(n)].ComboBox? && fields[TagKey(n)].items == HtmlTags)
      && (forall n | n in FieldNames :: fields[ClassKey(n)].LineEdit?)
    }

    /** `init_ui`: an empty URL, every drop-down on its first entry, every class empty. */
    constructor ()
      ensures Valid()
      ensures urlText == ""
      ensures fields == InitialFields(FieldNames)
    {
      urlText := "";
      var fs: map<string, Widget> := map[];
      var i := 0;
      while i < |FieldNames|
        invariant 0 <= i <= |FieldNames|
        invariant fs == InitialFields(FieldNames[..i])
      {
        var key := FieldNames[i];
        assert FieldNames[..i + 1][..i] == FieldNames[..i];
        fs := fs[TagKey(key) := ComboBox(HtmlTags, 0)][ClassKey(key) := LineEdit("")];
        i := i + 1;
      }
      assert FieldNames[..i] == FieldNames;
      fields := fs;
      InitialFieldsShape(FieldNames);
    }

    /** `validate_inputs`: the URL field must hold something other than whitespace. */
    function ValidateInputs(): (ok: bool)
      reads this
      ensures ok <==> Strip(urlText) != ""
    {
      !AllSpace(urlText)
    }

    /** `start_scraping`: nothing when the URL is blank, else the stripped URL and the selectors. */
    method StartScraping() returns (request: Option<ScrapeRequest>)
      requires Valid()
      ensures request.None? <==> AllSpace(urlText)
      ensures request.Some? ==> request.value == ScrapeRequest(Strip(urlText), SelectorsOf(fields))
    {
      if !ValidateInputs() {
        return None;
      }
      var url := Strip(urlText);
      var selectors := SelectorsOf(fields);
      return Some(ScrapeRequest(url, selectors));
    }
  }

  /** The widgets of a well-formed window: a drop-down and a line edit per field name, and nothing else. */
  predicate WellFormedFields(fields: map<string, Widget>) {
    && fields.Keys == FieldKeys()
    && forall n | n in FieldNames :: fields[TagKey(n)].ComboBox? && fields[ClassKey(n)].LineEdit?
  }

  /**
   * The selectors dictionary: each key's widget text, stripped, read with
   * `currentText()` when the key contains `"tag"` and `text()` otherwise.
   */
  function SelectorsOf(fields: map<string, Widget>): (selectors: map<string, string>)
    requires WellFormedFields(fields)
    ensures selectors.Keys == FieldKeys()
  {
    FieldsMatch(fields);
    map key | key in fields :: SelectorOf(fields, key)
  }

  /** Each drop-down contributes its selected entry and each line edit its text, both stripped. */
  lemma SelectorsRead(fields: map<string, Widget>)
    requires WellFormedFields(fields)
    ensures forall n | n in FieldNames :: SelectorsOf(fields)[TagKey(n)] == Strip(CurrentText(fields[TagKey(n)]))
    ensures forall n | n in FieldNames :: SelectorsOf(fields)[ClassKey(n)] == Strip(fields[ClassKey(n)].text)
  {
    FieldsMatch(fields);
  }

  /** A window left as it opened asks for `div` elements with an empty class everywhere. */
  lemma DefaultSelectors(fields: map<string, Widget>)
    requires fields.Keys == FieldKeys()
    requires forall n | n in FieldNames :: fields[TagKey(n)] == ComboBox(HtmlTags, 0)
    requires forall n | n in FieldNames :: fields[ClassKey(n)] == LineEdit("")
    ensures WellFormedFields(fields)
    ensures forall n | n in FieldNames :: SelectorsOf(fields)[TagKey(n)] == "div"
    ensures forall n | n in FieldNames :: SelectorsOf(fields)[ClassKey(n)] == ""
  {
    StripTrimmed("div");
    SelectorsRead(fields);
  }

  /** In a well-formed window every widget is the kind its key's reader expects. */
  lemma FieldsMatch(fields: map<string, Widget>)
    requires WellFormedFields(fields)
    ensures forall key | key in fields :: WidgetMatches(key, fields[key])
    ensures forall n | n in FieldNames :: Contains(TagKey(n), "tag") && !Contains(ClassKey(n), "tag")
  {
    forall n | n in FieldNames
      ensures Contains(TagKey(n), "tag") && !Contains(ClassKey(n), "tag")
    {
      TagKeyHasTag(n);
      ClassKeyHasNoTag(n);
    }
  }

  /** The widget is the kind the key's reader expects: a drop-down for a key containing `"tag"`. */
  predicate WidgetMatches(key: string, w: Widget) {
    if Contains(key, "tag") then w.ComboBox? else w.LineEdit?
  }

  /** The selector value one key yields: `currentText().strip()` or `text().strip()`. */
  function SelectorOf(fields: map<string, Widget>, key: string): string
    requires key in fields && WidgetMatches(key, fields[key])
  {
    var w := fields[key];
    Strip(if Contains(key, "tag") then CurrentText(w) else w.text)
  }
}

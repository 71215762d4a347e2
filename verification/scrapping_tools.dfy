/**
 * scrapping-tools.py: a window that scrapes the laptopengine.com listing on
 * demand, shows one row per product in a four-column table, and writes the
 * rows to a CSV file the user picks. Products are not followed to their pages.
 */
module ScrappingTools {
  import opened Optional
  import opened Sequences
  import opened Text
  import opened Markup
  import opened Loading

  const NoCategory := "No category"
  const NoLink := "No link"
  const NoTitle := "No title"
  const NoPrice := "No price"

  const Columns := ["Category", "Title", "Price", "Link"]

  const Ready := "Status: Ready"
  const Completed := "Status: Scraping completed!"
  const ExportedTo := "Status: Data exported to "

  /** A CSV file as pandas writes it without the index: a header line, then the rows. */
  datatype CsvFile = CsvFile(name: string, header: seq<string>, rows: seq<seq<string>>)

  /** The four cells of one product container's row: category, title, price and link. */
  function ProductRow(category: string, p: Product): (row: seq<string>)
    ensures |row| == |Columns|
    ensures row[0] == category
    ensures LinkTag(p).Some? ==> Trimmed(row[1])
    ensures p.priceTag.Some? ==> Trimmed(row[2])
    ensures LinkTag(p).Some? && LinkTag(p).value.href.Some? ==> row[3] == LinkTag(p).value.href.value
    ensures LinkTag(p).None? ==> row[1] == NoTitle && row[3] == NoLink
    ensures LinkTag(p).Some? && LinkTag(p).value.href.None? ==> row[3] == NoLink
    ensures LinkTag(p).Some? ==> row[1] == GetText(LinkTag(p).value.content, "")
    ensures p.priceTag.None? ==> row[2] == NoPrice
    ensures p.priceTag.Some? ==> row[2] == Strip(AllText(p.priceTag.value))
  {
    [category, Title(p, NoTitle), Price(p, NoPrice), RawLink(p, NoLink)]
  }

  /** The category of the listing: `get_text(strip=True)`, whose separator is the empty string. */
  function ListingCategory(listing: Listing): string {
    Category(listing.h2, "", NoCategory)
  }

  /** The rows one scrape collects, in page order. */
  function Rows(listing: Listing): (rows: seq<seq<string>>)
    ensures |rows| == |listing.products|
    ensures forall r | 0 <= r < |rows| :: rows[r] == ProductRow(ListingCategory(listing), listing.products[r])
  {
    seq(|listing.products|, r requires 0 <= r < |listing.products| => ProductRow(ListingCategory(listing), listing.products[r]))
  }

  /**
   * Each product's row depends on that product and the heading alone: the
   * rows of a listing split anywhere are the rows of the two parts, in order.
   */
  lemma RowsAppend(h2: Option<Element>, a: seq<Product>, b: seq<Product>)
    ensures Rows(Listing(h2, a + b)) == Rows(Listing(h2, a)) + Rows(Listing(h2, b))
  {
    var whole, left, right := Rows(Listing(h2, a + b)), Rows(Listing(h2, a)), Rows(Listing(h2, b));
    assert |whole| == |left + right|;
    forall r | 0 <= r < |whole|
      ensures whole[r] == (left + right)[r]
    {
      if r < |a| {
        assert (a + b)[r] == a[r];
      } else {
        assert (a + b)[r] == b[r - |a|];
      }
    }
  }

  /**
   * Unlike the other laptopengine.com scrapers, this one reads the heading
   * with the empty separator, so its text nodes run together.
   */
  lemma CategorySeparator()
    ensures ListingCategory(Listing(Some(Element(["Gaming", "Laptops"])), [])) == "GamingLaptops"
    ensures Category(Some(Element(["Gaming", "Laptops"])), " ", NoCategory) == "Gaming Laptops"
  {
    HeadingPieces();
    var pieces := ["Gaming", "Laptops"];
    assert pieces[1..] == ["Laptops"];
    assert Join(pieces, "") == "Gaming" + "" + "Laptops";
    assert Join(pieces, " ") == "Gaming" + " " + "Laptops";
  }

  /** Both text nodes of the example heading survive `strip=True` unchanged. */
  lemma HeadingPieces()
    ensures StrippedStrings(["Gaming", "Laptops"]) == ["Gaming", "Laptops"]
  {
    assert Trimmed("Gaming") && Trimmed("Laptops");
    TrimmedPieces("Gaming", "Laptops");
  }

  lemma TrimmedPieces(a: string, b: string)
    requires a != [] && Trimmed(a) && b != [] && Trimmed(b)
    ensures StrippedStrings([a, b]) == [a, b]
  {
    StripTrimmed(a);
    StripTrimmed(b);
    assert [a, b][1..] == [b];
    assert [b][1..] == [];
  }

  /** Every row fills the table, so its width is the column count. */
  predicate WellFormed(rows: seq<seq<string>>) {
    forall r | 0 <= r < |rows| :: |rows[r]| == |Columns|
  }

  /** The window: its status label, its result table, its export button and the collected rows. */
  class ScraperApp {
    var status: string
    var table: array2<string>
    var exportEnabled: bool
    var productsData: seq<seq<string>>

    /** The table shows the rows once they are collected; export is on only then. */
    predicate Valid()
      reads this, table
    {
      && WellFormed(productsData)
      && (exportEnabled ==> Shows(table, productsData))
      && (!exportEnabled ==> productsData == [] || Shows(table, productsData))
    }

    /** The table has one row per product and four columns, each cell the row's value. */
    static predicate Shows(table: array2<string>, rows: seq<seq<string>>)
      reads table
    {
      && WellFormed(rows)
      && table.Length0 == |rows|
      && table.Length1 == |Columns|
      && forall r, c | 0 <= r < table.Length0 && 0 <= c < table.Length1 :: table[r, c] == rows[r][c]
    }

    /** `initUI`: status "Ready", an empty table, export disabled, no rows. */
    constructor ()
      ensures Valid()
      ensures status == Ready && !exportEnabled && productsData == []
      ensures table.Length0 == 0 && table.Length1 == 0
    {
      status := Ready;
      table := new string[0, 0];
      exportEnabled := false;
      productsData := [];
    }

    /**
     * `start_scraping`: click "load more" until it fails, collect one row per
     * product, show them, report completion and enable export.
     */
    method StartScraping(attempts: seq<Attempt>, listing: Listing)
      modifies this
      ensures Valid()
      ensures productsData == Rows(listing)
      ensures Shows(table, productsData) && fresh(table)
      ensures status == Completed && exportEnabled
    {
      status := "Status: Scraping started...";
      var _, _, _ := LoadAllProducts(attempts);
      var category := Category(listing.h2, "", NoCategory);
      productsData := [];
      var i := 0;
      while i < |listing.products|
        invariant 0 <= i <= |listing.products|
        invariant productsData == Rows(listing)[..i]
      {
        var product := listing.products[i];
        var title := Title(product, NoTitle);
        var price := Price(product, NoPrice);
        var productLink := RawLink(product, NoLink);
        PrefixExtend(Rows(listing), i);
        productsData := productsData + [[category, title, price, productLink]];
        i := i + 1;
      }
      assert productsData == Rows(listing);
      PopulateTable();
      status := Completed;
      exportEnabled := true;
    }

    /** `populate_table`: a fresh table of `|productsData|` rows and four columns, filled cell by cell. */
    method PopulateTable()
      requires WellFormed(productsData)
      modifies this
      ensures Shows(table, productsData) && fresh(table)
      ensures productsData == old(productsData) && status == old(status) && exportEnabled == old(exportEnabled)
    {
      var rows := productsData;
      var t := new string[|rows|, |Columns|];
      var row := 0;
      while row < |rows|
        modifies t
        invariant 0 <= row <= |rows|
        invariant forall r, c | 0 <= r < row && 0 <= c < |Columns| :: t[r, c] == rows[r][c]
      {
        var col := 0;
        while col < |Columns|
          modifies t
          invariant 0 <= col <= |Columns|
          invariant forall r, c | 0 <= r < row && 0 <= c < |Columns| :: t[r, c] == rows[r][c]
          invariant forall c | 0 <= c < col :: t[row, c] == rows[row][c]
        {
          t[row, col] := rows[row][col];
          col := col + 1;
        }
        row := row + 1;
      }
      table := t;
    }

    /**
     * `export_csv`, given what the save dialog returned (`""` when it was
     * cancelled): the rows under the four column names, and the status names
     * the file.
     */
    method ExportCsv(filename: string) returns (written: Option<CsvFile>)
      requires Valid()
      modifies this`status
      ensures Valid()
      ensures filename == "" ==> written == None && status == old(status)
      ensures filename != "" ==> written == Some(CsvFile(filename, Columns, productsData))
      ensures filename != "" ==> status == ExportedTo + filename
    {
      written := None;
      if filename != "" {
        written := Some(CsvFile(filename, Columns, productsData));
        status := ExportedTo + filename;
      }
    }

    /** A click on "Export CSV": the button does nothing until a scrape has completed. */
    method ClickExport(filename: string) returns (written: Option<CsvFile>)
      requires Valid()
      modifies this`status
      ensures Valid()
      ensures written.Some? ==> Shows(table, written.value.rows)
      ensures !exportEnabled ==> written == None && status == old(status)
      ensures exportEnabled && filename != "" ==>
                written == Some(CsvFile(filename, Columns, productsData)) && status == ExportedTo + filename
      ensures exportEnabled && filename == "" ==> written == None && status == old(status)
    {
      written := None;
      if exportEnabled {
        written := ExportCsv(filename);
      }
    }
  }

  /**
   * "Start Scraping" followed by "Export CSV": the file holds exactly the
   * rows of the scraped listing, one per product, which are also the rows
   * the table shows.
   */
  method ScrapeThenExport(app: ScraperApp, attempts: seq<Attempt>, listing: Listing, filename: string)
    returns (written: Option<CsvFile>)
    modifies app
    ensures app.Valid()
    ensures filename == "" <==> written == None
    ensures filename != "" ==> written == Some(CsvFile(filename, Columns, Rows(listing)))
    ensures written.Some? ==> |written.value.rows| == |listing.products| && ScraperApp.Shows(app.table, written.value.rows)
  {
    app.StartScraping(attempts, listing);
    written := app.ClickExport(filename);
  }
}

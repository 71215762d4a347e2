# scraping-app in Dafny

The scraping-app repository is a set of near-duplicate Python scripts. Each
one drives a Chrome browser to a product listing. Four of them scrape
laptopengine.com, and two scrape revibe.me: `scraper.py` and the Django
app's `products/scraper.py`. Each script waits until every product is on the
page, either by pressing END until the page height stops changing or by
clicking "load more" until that fails. It then reads each product container
into a record with per-field defaults. Some variants follow each product's
link for a slide gallery or a description. The records go to a CSV file, a
table widget or a returned list.

This project models that logic. The browser, the HTML parser and the HTTP
client are replaced by values supplied up front:

- **Loading oracles.** A scroll loop gets the sequence of page heights it
  would read. A click loop gets the outcome of each "load more" attempt.
- **Parsed pages.** A parsed page is a datatype whose fields are the results
  of the lookups the scripts make (`find`, `has_attr`, `get`), `None` where
  the lookup finds nothing.
- **Detail pages.** Each product carries what following its link would give:
  a loaded page, a load that raised, or an HTTP result.

An exception that nothing catches ends a run early. The run is then a
function returning an outcome value: the records, or the product at which
the run raised and why. Every script loop is a method proved equal to that
function.

Modules:

- `Text`, `Markup`: `str.strip`, `str.join`, `str.replace`, `split(c)[0]`, and
  BeautifulSoup's `get_text(sep, strip=True)` over an element's text nodes.
- `Loading`: the scroll-until-stable loop and the click-until-failure loop.
- `LaptopEngine`: `normalize_image_url`, `is_valid_image_url`, the slide
  gallery and the product link rule shared by the laptopengine.com scripts.
- `Revibe`: what the two revibe.me scrapers share.
- `Outcomes`: product loops that stop at the first product raising.
- `Export`: the date-and-random-suffix CSV file name.
- One module per script: `ScrapingTools`, `ScrapingTool1`, `ModifiedSecond`,
  `ModifiedFirst`, `ScrappingTools`, `RevibeScraper`, `RevibeUi`.

The two GUI windows that keep state between clicks are classes:
`ScrappingTools.ScraperApp` (a table as a two-dimensional array, the rows, the
status text, the export button) and `ScrapingTool1.ScraperApp` (the URL field
and the map of selector widgets).

Two behaviours of the code are worth stating on their own:

- **Gallery filter.** `is_valid_image_url` accepts only URLs starting
  `http://` or `https://`, so a protocol-relative `//…` slide is skipped,
  although `normalize_image_url` could have completed it
  (`LaptopEngine.ProtocolRelativeNotKept`).
- **Price filter.** The `[^\d.]` filter keeps every dot, so a price text with
  two or more dots makes `float()` raise (`RevibeScraper.ParsePrice`).

## Model

| member | source | states |
|---|---|---|
| Text.Strip | scrapingtools.py:179 | `str.strip()`: the result is the input with a leading and a trailing run of whitespace (Python's `isspace` set) removed, and has no whitespace at either end; it is empty exactly when the input is all whitespace |
| Text.StripIdempotent | scrapingtool1.py:154-163 | stripping an already stripped URL changes nothing, so `validate_inputs` and `start_scraping` agree on the URL |
| Text.JoinEmptyIff | scrapingtools.py:125 | `Text.Join` is `sep.join(xs)`; a `", "` join is empty exactly when it joins nothing or one empty string |
| Text.JoinStartsWithFirst | modified_2nd.py:137 | a join begins with its first piece |
| Text.JoinTrimmed | scrapingtools.py:113 | joining non-empty trimmed pieces gives a trimmed, non-empty string |
| Text.TakeUntil | scraper.py:71 | `s.split(c)[0]` is a prefix of `s` without `c`, and is followed by `c` when shorter than `s` |
| Text.TakeUntilConcat | scraper.py:71 | splitting `a + b` at `c`, with `c` absent from `a` and `b` empty or starting with `c`, gives `a` |
| Text.ReplaceAbsent | scrapingtools.py:76 | `Text.Replace` is `str.replace`; a string without the target is returned unchanged |
| Text.ContainsSuffix | scrapingtool1.py:164 | `b in a + b` always holds (Python's substring test) |
| Text.MissingCharNotContained | scrapingtool1.py:164 | a string lacking a character of the pattern does not contain the pattern |
| Markup.StrippedStrings | scrapingtools.py:113 | the text nodes `strip=True` keeps are non-empty, trimmed and no more than the element has |
| Markup.GetText | scrapingtools.py:113 | `get_text(sep, strip=True)` is always trimmed |
| Markup.GetTextEmptyIff | scrapingtools.py:113 | `get_text(sep, strip=True)` is empty exactly when every text node is whitespace |
| Markup.LinkTag | scrapingtools.py:85-86 | the anchor exists exactly when the title element and its first `a` both exist |
| Markup.Category | scrapingtools.py:63-64 | the category is the default when there is no `h2`, else a trimmed text |
| Markup.RawLink | scrapingtools.py:88 | a missing anchor or `href` yields the default link, else the `href` exactly as found |
| Markup.Title | scrapingtools.py:89 | a missing anchor yields the default title, else the anchor's `get_text(strip=True)`, which is trimmed |
| Markup.Price | scrapingtools.py:90-91 | a missing price span yields the default price, else the span's text stripped, which is trimmed |
| Loading.FirstRepeat | modified_1st.py:29-36 | the index at which the scroll loop stops is within the readings |
| Loading.FirstRepeatIsLeast | modified_1st.py:29-36 | that index is the first reading equal to the height before it, and no earlier reading repeats |
| Loading.ScrollUntilStable | modified_1st.py:29-36 | the loop settles exactly when some reading repeats; it presses END once per reading up to and including the first repeat; `last_height` is the last reading taken, or the initial height if none |
| Loading.SettledHeightIsFinal | scraper.py:39-43 | once settled, the final reading equals the height kept before it |
| Loading.BoundedGrowthSettles | scraper.py:29-43 | a page whose height never shrinks and is bounded by `cap` settles after at most `cap - initial + 1` presses |
| Loading.GrowthBeforeRepeat | scraper.py:29-43 | before the first repeat of a never-shrinking page, reading `m` is at least `initial + m + 1` |
| Loading.LeadingClicks | modified_2nd.py:35-54 | the successful clicks are the attempts before the first failure, and the attempt after them failed |
| Loading.LoadAllProducts | scrapingtools.py:46-57 | `load_all_products` never raises; it clicks once per leading successful attempt, ends at the first failed scroll, wait or click, and issues exactly those attempts' browser commands |
| Loading.LeadingClicksIsCount | modified_2nd.py:35-54 | any count of leading successful attempts followed by a failure or the end is `LeadingClicks` |
| Loading.IssuedShape | scrapping-tools.py:74-83 | every attempt starts with a scroll; the button is clicked once per successful attempt, plus once if the final attempt failed in the click |
| Loading.AllClickedIssued | scrapping-tools.py:74-83 | `n` successful attempts issue `3n` commands, `n` of them clicks |
| Loading.CountClicksAppend | scrapping-tools.py:74-83 | the click count of concatenated command lists is the sum |
| Loading.CommandsOfClicks | scrapping-tools.py:74-83 | an attempt clicks once unless its scroll or its wait failed |
| LaptopEngine.NormalizeImageUrl | scrapingtools.py:72-79 | `normalize_image_url` always returns an `https://` URL |
| LaptopEngine.IsValidImageUrl | scrapingtools.py:81-82 | `is_valid_image_url` holds exactly when the URL starts with `http://` or `https://` |
| LaptopEngine.NormalizeImageUrlIdempotent | modified_2nd.py:73-80 | an `https://` URL is returned unchanged, so normalising twice equals normalising once |
| LaptopEngine.HttpsIsFixed | modified_1st.py:52-59 | an `https://` URL is a fixed point of `normalize_image_url` |
| LaptopEngine.NormalizeImageUrlRewritesEveryHttp | scrapingtools.py:75-76 | for an `http://` URL every `http://`, not only the leading one, is rewritten: none is left |
| LaptopEngine.NoHttpAfterReplace | scrapingtools.py:76 | `str.replace("http://", "https://")` leaves no `http://` anywhere |
| LaptopEngine.NoHttpAfterReplacedMatch | scrapingtools.py:76 | a replaced occurrence begins no new `http://` |
| LaptopEngine.NoHttpAfterKeptChar | scrapingtools.py:76 | a kept character begins no new `http://` |
| LaptopEngine.KeptCharStartsNoHttp | scrapingtools.py:76 | a character that did not begin `http://` in the input does not begin one in the output |
| LaptopEngine.NoHttpAfterWordWithoutH | scrapingtools.py:76 | prefixing an `h`-free word adds no `http://` |
| LaptopEngine.ReplacedPrefixWithoutH | scrapingtools.py:76 | an `h`-free prefix of the replaced string was a prefix of the input |
| LaptopEngine.ProtocolRelativeNotKept | scrapingtools.py:108-111 | a slide whose `src` starts with `//` is skipped |
| LaptopEngine.GalleryImages | scrapingtools.py:104-111 | the gallery has at most one image per `swiper-slide` div, each an `https://` URL |
| LaptopEngine.GalleryImagesAppend | modified_2nd.py:112-119 | earlier slides' images come first: the gallery of a concatenation is the concatenation of the galleries |
| LaptopEngine.GalleryImagesMembers | modified_1st.py:100-107 | a URL is in the gallery exactly when some slide has a valid `src` that normalises to it |
| LaptopEngine.CollectGallery | scrapingtools.py:104-111 | the slide loop appends exactly the gallery |
| LaptopEngine.NormalizeProductLink | scrapingtools.py:93-96 | an href starting `/` gets the laptopengine origin; one starting `http` is kept; anything else, defaults included, becomes `No link available`, and only that value is the sentinel |
| LaptopEngine.NormalizeProductLinkIdempotent | modified_2nd.py:98-101 | normalising a normalised link changes nothing |
| LaptopEngine.DetailLink | scrapingtools.py:88-98 | the detail page is followed exactly when the anchor has an `href` starting `/` or `http`; the followed URL starts `http` |
| Export.CsvFileName | modified_2nd.py:149-151 | the file name is `product_list_`, the date and `_`, then the six random characters and `.csv`: the name ends with the suffix followed by `.csv` (24 characters besides the date) |
| Export.CsvFileNameDistinct | scraper.py:130-136 | two runs on the same date write the same file exactly when they drew the same six characters |
| Outcomes.FirstStop | scraper.py:62-124 | the loop stops at the first product that raises: every product before it gives a row |
| Outcomes.RecordsOf | scraper.py:117-124 | a loop with no stop gives one row per product |
| Outcomes.RecordsOfIndex | scraper.py:117-124 | row `i` is product `i`'s record |
| Outcomes.StepOfLoop | modified_1st.py:66-122 | one iteration either raises at the first stop or appends its own record |
| ScrapingTools.UrlToScrape | scrapingtools.py:178-182 | `start_scraping` refuses a blank URL and otherwise passes the stripped, non-empty URL |
| ScrapingTools.Progress | scrapingtools.py:130 | the progress value is between 0 and 100, and is 100 exactly after the last product |
| ScrapingTools.ProgressIsFloor | scrapingtools.py:130 | the value is the exact percentage of products done, rounded down |
| ScrapingTools.ProgressMonotone | scrapingtools.py:130 | the progress bar never moves backwards |
| ScrapingTools.PercentBounds | scrapingtools.py:130 | the bounds of `(i + 1) * 100 / total` used for the three properties above |
| ScrapingTools.ItemRecordDefaults | scrapingtools.py:114-120 | `ScrapingTools.ItemRecord` is one container's record; without a usable link, or when the detail page raised, it gets `No image` and `No description` and keeps its title |
| ScrapingTools.ItemRecordEnriched | scrapingtools.py:98-125 | a loaded detail page gives the `", "` join of its gallery, empty exactly when no slide passed, and its description |
| ScrapingTools.CategoryShared | scrapingtools.py:63-64 | every record carries the `h2` text, or `No category` |
| ScrapingTools.Run | scrapingtools.py:59-130 | after the load loop, one record per container in order, each from that container alone, with the progress value after each |
| ScrapingTools.ScrapeProducts | scrapingtools.py:84-130 | the product loop appends the record of each container in order, and the progress value after each |
| ScrapingTools.ScrapeProduct | scrapingtools.py:85-128 | one iteration gives the container's record: the detail page is read only for a usable link, and a raising page gives the defaults |
| ModifiedSecond.ItemRecordDefaults | modified_2nd.py:124-131 | `ModifiedSecond.ItemRecord` is one container's record; without a usable link, or when the detail page raised, it gets `No image available` and `No description available` |
| ModifiedSecond.NoValidImagesIff | modified_2nd.py:137 | `No valid images` appears exactly when a loaded detail page had no usable slide |
| ModifiedSecond.ItemRecordEnriched | modified_2nd.py:104-137 | a loaded page with usable slides gives their `https://` URLs joined by `", "`, and its description |
| ModifiedSecond.Run | modified_2nd.py:57-151 | after the load loop, one record per container in order, written to the date-and-suffix file |
| ModifiedSecond.ScrapeProducts | modified_2nd.py:87-140 | the product loop appends each container's record in order |
| ModifiedSecond.ScrapeProduct | modified_2nd.py:88-140 | one iteration gives the container's record, with the per-item try/except |
| ModifiedFirst.RequestedUrl | modified_1st.py:72-83 | the browser is sent to the raw `href`, unnormalised, unless the link is the default |
| ModifiedFirst.ProductStepCases | modified_1st.py:81-121 | `ModifiedFirst.ProductStep` is one iteration's row or stop; a product raises exactly when it has a link and its page fails to load, naming that link; its scroll loop is left running exactly when the page never settles; without a link the row is the category, the title, `No image available` and `No description available`; a loaded, settled page gives the category, the title, the gallery field and the `name` div's text or the default |
| ModifiedFirst.ImagesFieldOfGallery | modified_1st.py:120 | the images field is `No valid images` exactly when the gallery is empty, else the `", "` join of the gallery, starting with its first image |
| ModifiedFirst.LoadedRecord | modified_1st.py:97-120 | a loaded, settled page gives a row; its images are `No valid images` exactly when no slide passed the filter; the description is the `name` div's `\n`-joined text, or `No description available` without that div |
| ModifiedFirst.ExportedMeansEveryPageLoaded | modified_1st.py:66-136 | a CSV is written only if every linked page loaded and its scroll loop settled; it then has one row per container, row `i` being container `i`'s record, with its own title |
| ModifiedFirst.RaisedAtFirstFailure | modified_1st.py:82-83 | an abort comes from the first product whose page failed to load and names its raw link; every earlier product gave a row |
| ModifiedFirst.RelativeLinkNotNormalised | modified_1st.py:72 | a site-relative `href` is requested as is, where the other laptopengine scripts prepend the origin |
| ModifiedFirst.Run | modified_1st.py:29-136 | the script ends as `RunOutcome` says: still scrolling, raised at a product, or the CSV rows and file name |
| ModifiedFirst.ScrapeProducts | modified_1st.py:66-122 | the product loop ends as `ProductsOutcome` says |
| ModifiedFirst.ProductsOutcome | modified_1st.py:66-122 | the loop's end: every row and the file, the first product whose page raised, or a product page still scrolling |
| ModifiedFirst.RunOutcome | modified_1st.py:29-136 | the listing's scroll loop alone leaves the run scrolling exactly when no reading repeats; an export holds one row per container under the date-and-suffix file name |
| ModifiedFirst.ScrapeProduct | modified_1st.py:67-122 | one iteration gives `ProductStep`'s row or stop; its contents are stated by `ProductStepCases`, `LoadedRecord` and `ImagesFieldOfGallery` |
| ScrappingTools.ProductRow | scrapping-tools.py:93-100 | a row has four cells: the category; `No title` without an anchor, else the anchor's `get_text(strip=True)`; `No price` without a span, else its stripped text; `No link` without an anchor or `href`, else the `href` as found |
| ScrappingTools.Rows | scrapping-tools.py:91-100 | one row per container, in order |
| ScrappingTools.RowsAppend | scrapping-tools.py:91-100 | each row comes from its own container and the heading: the rows of a listing split in two are the rows of the parts, in order |
| ScrappingTools.CategorySeparator | scrapping-tools.py:88 | this script reads the heading without a separator, so the heading `Gaming`/`Laptops` gives `GamingLaptops` where the others give `Gaming Laptops` |
| ScrappingTools.ScraperApp.constructor | scrapping-tools.py:39-60 | the window opens with status `Ready`, an empty table, export disabled and no rows |
| ScrappingTools.ScraperApp.StartScraping | scrapping-tools.py:62-106 | after a scrape the rows are one per container, the table shows them, the status says completed and export is enabled |
| ScrappingTools.ScraperApp.PopulateTable | scrapping-tools.py:108-115 | the table gets one row per record and four columns, cell `(r, c)` holding value `c` of row `r` |
| ScrappingTools.ScraperApp.ExportCsv | scrapping-tools.py:117-122 | an empty file name writes nothing and keeps the status; otherwise the rows go out under the four column names and the status names the file; the window stays consistent |
| ScrappingTools.ScraperApp.ClickExport | scrapping-tools.py:54-57 | the export button does nothing until a scrape has completed; whatever it writes is the rows the table shows |
| ScrappingTools.ScrapeThenExport | scrapping-tools.py:62-122 | "Start Scraping" then "Export CSV": a file is written exactly when a name was chosen, and holds the scraped listing's rows, one per container, which the table shows |
| ScrapingTool1.ItemRecord | scrapingtool1.py:54-66 | without the title element or anchor: `No title` and `No link`; an anchor gives its `get_text(strip=True)` as the name, and its `href` exactly as found or `No link` without one; a missing price span gives `No price`, else the span's text stripped |
| ScrapingTool1.Run | scrapingtool1.py:53-68 | one record per matched container in order, with the progress value after each |
| ScrapingTool1.TagKeyHasTag | scrapingtool1.py:127 | every `_tag` key contains `tag` |
| ScrapingTool1.ClassKeyHasNoTag | scrapingtool1.py:128 | none of the seven `_class` keys contains `tag` |
| ScrapingTool1.CategoryClassHasNoTag | scrapingtool1.py:128 | `category_class` does not contain `tag` |
| ScrapingTool1.CatPrefixHasNoTag | scrapingtool1.py:128 | `cat` followed by a `t`-free word starting with `e` does not contain `tag` |
| ScrapingTool1.PrependNoMatch | scrapingtool1.py:164 | one character in front adds no occurrence unless the pattern starts there |
| ScrapingTool1.TagAndClassKeysDiffer | scrapingtool1.py:127-128 | a tag key never equals a class key |
| ScrapingTool1.InitialFieldsShape | scrapingtool1.py:114-129 | `init_ui` creates exactly one drop-down (on its first entry) and one empty line edit per field name, and no other key |
| ScrapingTool1.ScraperApp.constructor | scrapingtool1.py:101-129 | the window opens with an empty URL and the fourteen widgets `init_ui` builds |
| ScrapingTool1.ScraperApp.ValidateInputs | scrapingtool1.py:153-157 | the input is valid exactly when the URL is not blank after stripping |
| ScrapingTool1.ScraperApp.StartScraping | scrapingtool1.py:159-166 | nothing starts for a blank URL; otherwise the worker gets the stripped URL and the selectors |
| ScrapingTool1.SelectorsOf | scrapingtool1.py:164 | the selectors have exactly the fourteen field keys |
| ScrapingTool1.SelectorsRead | scrapingtool1.py:164 | each `_tag` selector is the stripped selected entry, each `_class` selector the stripped text |
| ScrapingTool1.DefaultSelectors | scrapingtool1.py:114-164 | a window left as it opened asks for `div` with an empty class for every field |
| ScrapingTool1.FieldsMatch | scrapingtool1.py:164 | in a well-formed window each key is read from the widget kind the comprehension expects |
| Revibe.ItemTitle | scraper.py:88 | no anchor gives `No title available`, else the anchor's whole text stripped (a trimmed text) |
| Revibe.PriceText | scraper.py:93 | the price is the span's whole text stripped, which is trimmed |
| Revibe.FirstSrcsetCandidate | scraper.py:71 | the first `srcset` candidate holds no comma or space and does not start with whitespace |
| Revibe.FirstSrcsetCandidateOf | scraper.py:71 | for a `srcset` whose first candidate is `url [descriptor]`, the URL is returned |
| Revibe.BareCandidate | scraper.py:71 | a first candidate without a descriptor is returned whole |
| Revibe.DescribedCandidate | scraper.py:71 | a first candidate with a descriptor is returned without it |
| Revibe.FetchDescription | scraper.py:104-114 | the description is the default after a `RequestException` or without the specifications div, that div's text when it is found, and the run aborts on any other exception |
| Revibe.FetchedDescriptionTrimmed | scraper.py:110-112 | a fetched description is trimmed, and is empty exactly when the div's text is all whitespace |
| RevibeScraper.ProductLink | scraper.py:64-65 | the link is the revibe origin plus the `href` exactly when the anchor and its `href` exist, else `No link available` |
| RevibeScraper.RawImage | scraper.py:69-73 | with `data-srcset` the raw image is its first candidate; without it or `src`, the default text |
| RevibeScraper.NormalizeImage | scraper.py:75-81 | a URL starting `//` gets `https:` in front; one starting `http` is kept; anything else gets `https://` in front; the result starts with `http` |
| RevibeScraper.NormalizeImageIdempotent | scraper.py:75-81 | fixing the scheme twice equals fixing it once |
| RevibeScraper.ImageUrl | scraper.py:68-83 | the image is `No image available` exactly when there is no image tag, else the raw image with its scheme fixed |
| RevibeScraper.ImageWithoutSource | scraper.py:73-79 | an image tag with neither attribute gives `https://No image available` |
| RevibeScraper.FilterPrice | scraper.py:96 | the filtered price holds only digits and dots and is no longer than the text |
| RevibeScraper.FilterPriceMembers | scraper.py:96 | a character survives exactly when it is in the text and is a digit or a dot |
| RevibeScraper.FilterPriceAppend | scraper.py:96 | filtering distributes over concatenation, keeping order |
| RevibeScraper.FilterPriceKeeps | scraper.py:96 | a text of digits and dots passes unchanged |
| RevibeScraper.FilterPriceDrops | scraper.py:96 | a text with no digit and no dot filters to nothing |
| RevibeScraper.ShowNat | scraper.py:99 | the decimal form of a number is a non-empty digit string |
| RevibeScraper.DigitsValueShowNat | scraper.py:99 | `RevibeScraper.DigitsValue` is `int` of a digit string; `int` of the decimal form of `n` is `n` |
| RevibeScraper.ParsePrice | scraper.py:96-99 | `ValueError` exactly when the filtered text is empty or has a dot but `float()` rejects it (`RevibeScraper.FloatAccepts`: one dot and a digit); otherwise an `int` of its digits when there is no dot, a `float` when there is one |
| RevibeScraper.ParseWholePrice | scraper.py:96-99 | a currency word without dots followed by a whole number parses to that number |
| RevibeScraper.PriceWithoutDigitsRaises | scraper.py:96-99 | a price text with no digit and no dot raises |
| RevibeScraper.CurrencyDotKept | scraper.py:95-99 | the dot in `Dhs. 1,299` is kept, so the price parses as the float `.1299` |
| RevibeScraper.DottedCurrency | scraper.py:95-99 | a dotted currency word before a thousands-separated amount turns the amount's digits into a fraction |
| RevibeScraper.DottedCurrencyFiltered | scraper.py:96 | the filtered text of such a price is the dot followed by the amount's digits |
| RevibeScraper.Punctuation | scraper.py:96 | the filter keeps `.` and drops `,` and space |
| RevibeScraper.DotsOfDigits | scraper.py:99 | a digit string holds no dot |
| RevibeScraper.ItemPrice | scraper.py:91-101 | no price span gives the text `No price available`; a span gives `ParsePrice` of its stripped text, so `ValueError` exactly when that text does not parse |
| RevibeScraper.ProductStepCases | scraper.py:62-124 | `RevibeScraper.ProductStep` is one iteration's row or stop; a product raises `ValueError` exactly when its price does not parse, and otherwise aborts exactly when its link is followed and fails outside `RequestException`; a row holds the category, title, image, parsed price and description |
| RevibeScraper.RequestFailureIsolated | scraper.py:103-114 | with every price parsing and no other exception, the CSV holds every product, row `i` being product `i`'s record, and a failed request costs only that product its description |
| RevibeScraper.RaisedAtFirstFailure | scraper.py:62-124 | the run stops at the first product that raises: `ValueError` exactly when its price does not parse, otherwise an exception outside `RequestException` from its followed link; every earlier product parsed its price and gave a row |
| RevibeScraper.Run | scraper.py:28-139 | the script ends as `RunOutcome` says: still scrolling, raised at a product, or the CSV rows and file name |
| RevibeScraper.ScrapeProducts | scraper.py:62-124 | the product loop ends as `ProductsOutcome` says |
| RevibeScraper.ProductsOutcome | scraper.py:62-124 | the loop's end: every row and the file, or the first product that raises |
| RevibeScraper.RunOutcome | scraper.py:28-139 | the scroll loop alone leaves the run scrolling exactly when no reading repeats; an export holds one row per container under the date-and-suffix file name |
| RevibeScraper.ScrapeProduct | scraper.py:63-124 | one iteration: link, image, title, price, then the description request |
| RevibeUi.ProductLink | ui-scraper/scraper_project/products/scraper.py:46-47 | the `KeyError` happens exactly when the anchor has no `href`; no anchor gives `No link available`; otherwise the link is the revibe origin plus the `href` |
| RevibeUi.ImageUrl | ui-scraper/scraper_project/products/scraper.py:48-49 | no image tag gives `No image available`; an image with `data-srcset` gives its first candidate, with no comma or space; one without it gives `""` |
| RevibeUi.SourceOnlyImage | ui-scraper/scraper_project/products/scraper.py:49 | an image with only `src` gives the empty URL here, where scraper.py gives the fixed `src` |
| RevibeUi.ItemPrice | ui-scraper/scraper_project/products/scraper.py:51-52 | the price stays text: the default without a span, else the span's text stripped |
| RevibeUi.ProductStepCases | ui-scraper/scraper_project/products/scraper.py:45-74 | `RevibeUi.ProductStep` is one iteration's row or stop; a product raises `KeyError` exactly when its anchor has no `href`, aborts exactly when its request fails outside `RequestException`, and otherwise gives its six-field record |
| RevibeUi.EveryProductReturned | ui-scraper/scraper_project/products/scraper.py:45-81 | with every anchor carrying an `href` and no other exception, one record per container is returned, in order, record `i` being product `i`'s, with the category and its own link |
| RevibeUi.RaisedAtFirstFailure | ui-scraper/scraper_project/products/scraper.py:45-65 | an abort comes from the first product that raises: `KeyError` exactly when its anchor has no `href`, otherwise an exception outside `RequestException` from its request; every earlier product had a usable link and gave a row |
| RevibeUi.ScrapeRevibeProducts | ui-scraper/scraper_project/products/scraper.py:24-81 | the function ends as `RunOutcome` says |
| RevibeUi.ScrapeProducts | ui-scraper/scraper_project/products/scraper.py:45-74 | the product loop ends as `ProductsOutcome` says |
| RevibeUi.ProductsOutcome | ui-scraper/scraper_project/products/scraper.py:45-74 | the loop's end: every record, or the first product that raises |
| RevibeUi.RunOutcome | ui-scraper/scraper_project/products/scraper.py:24-81 | the scroll loop alone leaves the function waiting exactly when no reading repeats; a return holds one record per container |
| RevibeUi.ScrapeProduct | ui-scraper/scraper_project/products/scraper.py:46-74 | one iteration: link, image, title, price, then the description request |

## Left out

- The browser (Selenium), the HTML parser (BeautifulSoup) and `requests` are not modelled. Their results are inputs: height readings, click outcomes, parsed pages with optional fields, and per-product fetch results.
- `time.sleep`, page-load timeouts and `WebDriverWait` affect only timing. A timeout is one of the failure values of the oracles.
- The PyQt layout, `QThread` and its signals, the icon, log messages and console output are left out. The worker runs as a plain call, and its progress values are returned as a sequence.
- `QFileDialog` is a parameter: the file name it returned, `""` when cancelled.
- The date and the random six characters of the file names are parameters.
- Writing the CSV or Excel file is left out; a run returns the rows, and the file name where the script builds one. The date-only file name of `scrapingtools.py` and `scrapingtool1.py` (`product_list_<date>.csv`) and the `scraped_products.xlsx` path of the Django app are not modelled.
- ScrapingTools.Progress: computed in exact arithmetic, not as `int((i + 1) / total * 100)` over floats, which can be one lower. In IEEE double arithmetic, 29 of 100 gives 28.
- RevibeScraper.ParsePrice: a float price keeps its filtered text; the float's value is not computed.
- RevibeScraper.IsDigit: only ASCII digits. Python's `\d` and `int()` also accept other Unicode digits.
- Loops that wait on the browser are modelled over finite oracles. When the readings run out before the height repeats, the outcome is `Scrolling`, where the real script would keep reading. A click loop whose attempts all succeed ends with the attempts.
- ScrapingTool1.Run takes the containers the user's selectors matched; how `find_all` and `find` match tag and class is parser behaviour and is not modelled.
- In `scrapingtools.py` and `modified_2nd.py`, an exception part-way through a detail page discards that page's partial gallery. The model treats such a page as one that raised.
- The Django `views.py`, `urls.py` and `models.py` hold routing and field declarations only, and are not part of this model.
- `revice-scraper (old_file).py` is an earlier copy of `scraper.py` and is not part of this model.

# hotdeal-scraper, modelled in Dafny

hotdeal-scraper collects "hot deal" posts from Korean bargain boards and stores them
in MySQL. This project models its core in Dafny and proves properties of the model.

- **Crawlers.** Each crawler reads a board listing into listing items of the form
  `{id, seller, category, categoryTitle}`. It reads each article page into a detail
  record.
  - `Ppomppu` takes the title, comment, product link, price, free-shipping flag, site
    link and thumbnail.
  - `Quasarzone` takes the label, the `[seller]` prefix, the price, the currency, the
    shipping flag and the links.
  - `BaseCrawler` is the contract both crawlers implement. Its own operations throw,
    and its `normalizeProduct` builds the standard product object.
- **Text normaliser.** `_cleanTitle` removes a trailing `)` + 1–2 digits artifact
  (keeping the `)`) and trims the title. The price comes from the first of three regular
  expressions that matches the title:
  - `35,750원`: digits with comma groups, then `원`;
  - `24만원`: digits, then `만원`, multiplied by 10 000;
  - `(35,750/`: a comma-grouped number in parentheses.

  A three-digit amount ending in `00` is read as thousands. The free-shipping flag
  tests the title for the keywords 무료, 무배 and 와우.
- **Image relocator (`S3Uploader`).** It normalises an image URL to an absolute one
  and downloads the image. It stores the image in a bucket under
  `folder/yyyy-mm/timestamp_random_name.ext` and returns the object's public URL. Every
  failure gives `null`.
- **Pipeline (`app.js`).** For each crawl target, it lists the products. For each
  product whose id is not in `expertnote_channelProducts` yet, it fetches the detail,
  merges it over the listing item, uploads the thumbnail and inserts a row. A failure
  on one product only skips that product. The run adds up the processed and saved
  counts, stops at the first target that throws, and always closes the connection.

Each operation is modelled in the form it has in the source:
- Parsing and normalisation are functions on values.
- The regular expressions become deterministic left-to-right scans that reproduce
  their leftmost, backtracking match.
- Loops (the listing loop, the product loop, the target loop) are methods with
  invariants, proved against recursive specification functions.
- The database connection and the S3 network are classes whose methods update the
  table's rows and the request logs. `HotdealScraper` is a class with `db` and
  `s3Uploader` fields.
- Fetching pages and the clock are inputs: a `Web` value maps page URLs to the text
  the CSS selectors extract, and a `Clock` gives the time and the random number.

The model follows the code as written where it departs from what its comments and
the project's documentation describe:
- Quasarzone's `getProducts` is Ppomppu's loop on the Ppomppu board, and its
  `getCrawlerName` returns `ppomppu`.
- The pipeline calls `getProductDetail(category, id)`. Quasarzone's version takes
  only a product id, so it receives the category as that id.
- The won pattern has no word boundary. A digit run without commas yields its last
  three digits (`35750원` gives 750), and `10000원` gives `000`, which the round-hundreds
  rule reads as 0. The documentation describes the pattern as comma-grouped amounts
  only.
- The duplicate check looks only at `channel_product_idx`, in every channel. The
  documentation describes it as a check on channel and id together.

There is one exception: Quasarzone's detail price. The code removes only the first
thousands separator, and the Findings table below records this. The detail uses the
corrected reading, which removes them all. The two readings agree whenever the price
cell has at most one comma.

## Model

| member | source | states |
|---|---|---|
| Strings.Trim | modules/Ppomppu.js:32 | `trim()` leaves no white space at either end and never lengthens the text |
| Strings.TrimIdempotent | modules/Ppomppu.js:173 | trimming twice is trimming once |
| Strings.ReplaceFirst | modules/Ppomppu.js:91-92 | a string `replace` replaces the first occurrence only, and changes nothing when the pattern does not occur |
| Strings.Without | modules/Ppomppu.js:40 | a global character-class `replace` leaves none of the removed characters, and a text without them is unchanged |
| Strings.AsciiLower | modules/S3Uploader.js:168 | `toLowerCase` keeps the length and lowers exactly the letters A–Z |
| Strings.NatToStringRoundTrip | modules/S3Uploader.js:158 | the decimal text of a number reads back as that number |
| Js.Or | modules/BaseCrawler.js:48-55 | `v \|\| d` is `v` when it is truthy, `d` otherwise |
| Js.Get | modules/BaseCrawler.js:48 | a missing property reads as `undefined` |
| Js.Spread | app.js:177 | `{...a, ...b}` has the keys of both; `b` wins where both have a key |
| Pages.Cell | modules/Quasarzone.js:103 | a `td` index past the last cell reads as empty text |
| Listing.ListingItem.ToObject | modules/Ppomppu.js:53-60 | the pushed object has exactly the keys id, seller, category and categoryTitle |
| Listing.ItemOf | modules/Ppomppu.js:32-51 | a row is skipped exactly when its trimmed id is empty |
| Listing.CollectItems | modules/Ppomppu.js:28-63 | the push loop returns the items of the rows in page order |
| Listing.ItemsAppend | modules/Ppomppu.js:31-63 | listing two runs of rows is listing each in turn |
| Listing.ItemsWellFormed | modules/Ppomppu.js:32-59 | every item has a non-empty trimmed id and the requested category; seller and category title hold no brackets |
| Listing.ItemsCount | modules/Ppomppu.js:31-37 | exactly one item per row with a non-empty id |
| Listing.ItemsIds | modules/Ppomppu.js:31-62 | the listed ids are the rows' non-empty trimmed ids, in order |
| Ppomppu.ListUrl | modules/Ppomppu.js:19 | the listing is read from the zboard page of the category |
| Ppomppu.ViewUrl | modules/Ppomppu.js:80 | the article is read from its view page |
| Ppomppu.GetProducts | modules/Ppomppu.js:17-70 | the items of the listing page; `[]` when the page cannot be read |
| Ppomppu.Detail.ToObject | modules/Ppomppu.js:130-139 | the detail object has exactly its seven fields, and no id, category or seller |
| Ppomppu.ProductLink | modules/Ppomppu.js:94 | the link's `href` when present and non-empty, else its trimmed text |
| Ppomppu.GetProductDetail | modules/Ppomppu.js:78-146 | `null` exactly when the page cannot be read. Otherwise: the cleaned title; price and free shipping read from the title before cleanup; the trimmed comment; the product link; the view URL; the image |
| Ppomppu.DetailTitleClean | modules/Ppomppu.js:127 | the stored title is trimmed and a fixed point of the cleanup |
| Ppomppu.CrawlerName | modules/Ppomppu.js:152-154 | the name is `ppomppu` |
| Ppomppu.SupportedCategories | modules/Ppomppu.js:160-162 | exactly the crawler's own name `ppomppu`, then `freeboard` |
| TextNormalizer.StripArtifact | modules/Ppomppu.js:172 | when the artifact pattern matches at a `)`, the text is cut just after it; otherwise it is unchanged |
| TextNormalizer.ArtifactsAtLastParen | modules/Ppomppu.js:172 | the artifact pattern can only match at the last `)` |
| TextNormalizer.CleanTitle | modules/Ppomppu.js:170-174 | the result is trimmed; it is the text up to the matching `)`, trimmed, or the trimmed text when nothing matches |
| TextNormalizer.CleanTitleHasNoArtifact | modules/Ppomppu.js:170-174 | a cleaned title has no artifact left |
| TextNormalizer.CleanTitleIdempotent | modules/Ppomppu.js:170-174 | cleaning twice is cleaning once |
| TextNormalizer.CleanTitleExample | modules/Ppomppu.js:172 | `[SellerX] Great Deal) 12` cleans to `[SellerX] Great Deal)` |
| TextNormalizer.FreeShipping | modules/Ppomppu.js:119 | `Y` exactly when 무료, 무배 or 와우 occurs in the title, else `N` |
| PriceExtraction.GroupsEnd | modules/Ppomppu.js:97 | `(?:,\d{3})*` takes the longest run of comma groups, made only of digits and commas |
| PriceExtraction.WonAt | modules/Ppomppu.js:97 | a won match captures a price text |
| PriceExtraction.ManwonAt | modules/Ppomppu.js:98 | a 만원 match captures a price text |
| PriceExtraction.ParenAt | modules/Ppomppu.js:99 | a parenthesis match captures a price text |
| PriceExtraction.MatchAt | modules/Ppomppu.js:97-99 | a match at a position captures a price text |
| PriceExtraction.FirstMatchFrom | modules/Ppomppu.js:97-99 | the first position from which the pattern matches; it never matches before it |
| PriceExtraction.Capture | modules/Ppomppu.js:97-99 | `match` captures at the leftmost match, and fails exactly when no position matches |
| PriceExtraction.LeftmostCapture | modules/Ppomppu.js:97 | a match with none to its left is the capture |
| PriceExtraction.PriceCapture | modules/Ppomppu.js:97-99 | the won pattern first, then 만원, then the parenthesis pattern |
| PriceExtraction.PriceTextDigits | modules/Ppomppu.js:103 | removing the commas from a capture leaves a non-empty digit string |
| PriceExtraction.ExtractPrice | modules/Ppomppu.js:96-115 | 0 without a capture; otherwise the capture's value, ×10 000 when the title mentions 만원 |
| PriceExtraction.CommafyValue | modules/Ppomppu.js:103 | a comma-grouped amount without its commas reads back as the amount |
| PriceExtraction.PriceOfCommafied | modules/Ppomppu.js:103-113 | a quoted amount is priced as itself, except three-digit round hundreds, which are read as thousands |
| PriceExtraction.RoundHundreds | modules/Ppomppu.js:110-112 | a three-digit amount ends in `00` exactly when it is a multiple of 100, and the repair makes it ten times larger |
| PriceExtraction.WonMatch | modules/Ppomppu.js:97 | a comma-grouped amount before optional space and `원` is captured whole |
| PriceExtraction.ManwonMatch | modules/Ppomppu.js:98 | digits before `만원` are not taken by the won pattern, and the 만원 pattern captures them |
| PriceExtraction.ParenMatch | modules/Ppomppu.js:99 | a comma-grouped amount between `(` and `/`, `,` or `)` is captured whole |
| PriceExtraction.WonRoundTrip | modules/Ppomppu.js:97-113 | a title quoting a comma-grouped amount in won is priced at that amount (round-hundreds rule aside) |
| PriceExtraction.ManwonRoundTrip | modules/Ppomppu.js:98-107 | a title quoting `n만원` is priced at n × 10 000 |
| PriceExtraction.ParenRoundTrip | modules/Ppomppu.js:99-113 | a title quoting an amount in parentheses is priced at it (round-hundreds rule aside) |
| PriceExtraction.NoWonWithoutWonSign | modules/Ppomppu.js:97 | without `원` the won pattern cannot match |
| PriceExtraction.NoManwonWithoutMan | modules/Ppomppu.js:98 | without `만` the 만원 pattern cannot match |
| PriceExtraction.UncommaedRunCapture | modules/Ppomppu.js:97 | a run of four or more digits before `원` captures only its last three digits |
| PriceExtraction.PriceOfWonCapture | modules/Ppomppu.js:102-113 | a won capture in a title without 만 is priced by itself |
| PriceExtraction.UncommaedRunPrice | modules/Ppomppu.js:97-113 | such a run is priced by its last three digits |
| PriceExtraction.UncommaedRunExample | modules/Ppomppu.js:97-113 | `35750원` is priced 750 |
| PriceExtraction.UncommaedZerosExample | modules/Ppomppu.js:97-113 | `10000원` is priced 0 |
| PriceExtraction.WonExample | modules/Ppomppu.js:97 | `[쿠팡] 마우스 35,750원 무료배송` is priced 35750 |
| PriceExtraction.SpacedWonExample | modules/Ppomppu.js:97 | `생수 9,000 원` is priced 9000 |
| PriceExtraction.ManwonExample | modules/Ppomppu.js:98-107 | `사과 24만원` is priced 240000 |
| PriceExtraction.ParenExample | modules/Ppomppu.js:99 | `라면 (35,750/무료)` is priced 35750 |
| PriceExtraction.RoundHundredsExample | modules/Ppomppu.js:110-113 | `커피 500원` is priced 5000 |
| Quasarzone.ListUrl | modules/Quasarzone.js:19 | the listing URL is Ppomppu's |
| Quasarzone.ViewUrl | modules/Quasarzone.js:82 | the sale page URL ends in the product id |
| Quasarzone.GetProducts | modules/Quasarzone.js:17-70 | the listing is Ppomppu's listing of the category |
| Quasarzone.SellerBracket | modules/Quasarzone.js:95 | `^\[([^\]]+)\]` matches exactly when the title opens with `[`, a non-empty text without `]`, and `]` |
| Quasarzone.SplitSeller | modules/Quasarzone.js:94-99 | without a bracket: no seller and the title unchanged; with one: a non-empty seller without `]` |
| Quasarzone.SplitSellerRecompose | modules/Quasarzone.js:95-98 | the title is `[seller]`, white space, then the remaining title |
| Quasarzone.SplitSellerOfComposed | modules/Quasarzone.js:95-98 | a title built as `[seller] rest` splits back into seller and rest |
| Quasarzone.PriceChars | modules/Quasarzone.js:112 | only digits, `.` and `,` are kept, in order |
| Quasarzone.ParseFloat | modules/Quasarzone.js:113 | `parseFloat` yields NaN exactly when the text does not start with a digit or with `.` followed by a digit |
| Quasarzone.ParseFloatOrZero | modules/Quasarzone.js:113 | `parseFloat(x) \|\| 0` is never negative and is 0 for NaN |
| Quasarzone.Currency | modules/Quasarzone.js:105-109 | `USD` exactly when the price text contains `USD` or `$`, else `KRW` |
| Quasarzone.ShippingFlag | modules/Quasarzone.js:115-120 | `Y` exactly when the shipping cell contains 무료 |
| Quasarzone.PriceNumberBelowMillion | modules/Quasarzone.js:112-113 | amounts below one million, with at most one separator, read back exactly |
| Quasarzone.PriceNumberMillions | modules/Quasarzone.js:112-113 | as written, amounts from one million up read as a thousandth of themselves |
| Quasarzone.PriceNumberMillionsExample | modules/Quasarzone.js:112-113 | as written, `1,234,567원` reads as 1234 |
| Quasarzone.IntendedPriceNumber | modules/Quasarzone.js:112-113 | the price with every separator removed is never negative |
| Quasarzone.IntendedPriceNumberRoundTrip | modules/Quasarzone.js:112-113 | with every separator removed, every comma-grouped amount reads back exactly |
| Quasarzone.PriceCharsCommas | modules/Quasarzone.js:112 | keeping digits, points and commas keeps every comma |
| Quasarzone.OneCommaReadings | modules/Quasarzone.js:112 | with at most one comma, removing the first comma removes them all |
| Quasarzone.PriceNumberOneComma | modules/Quasarzone.js:112-113 | a price cell with at most one comma reads the same as written and as corrected |
| Quasarzone.Detail.ToObject | modules/Quasarzone.js:129-141 | the detail object has exactly its eleven fields, and no id or category |
| Quasarzone.GetProductDetail | modules/Quasarzone.js:78-146 | the page read step by step is the detail specified by `DetailOf` |
| Quasarzone.DetailOfFields | modules/Quasarzone.js:92-141 | `null` exactly when the page cannot be read. Otherwise: channel 2; the trimmed label; the `og:image` as thumbnail; the price with every separator removed, equal to the code's reading when the cell has at most one comma; currency and shipping from their cells; the trimmed category and product-link cells; the page's own link; the seller split off the title without its label, as the content of the first bracket pair (non-empty, with no `]`), with the white space after the bracket removed from the title |
| Quasarzone.CrawlerName | modules/Quasarzone.js:153-155 | the name is Ppomppu's |
| Quasarzone.SupportedCategories | modules/Quasarzone.js:161-163 | the categories are Ppomppu's |
| BaseCrawler.CrawlerName | modules/BaseCrawler.js:29-31 | throws exactly for the base class; both crawlers answer `ppomppu` |
| BaseCrawler.SupportedCategories | modules/BaseCrawler.js:37-39 | throws exactly for the base class; both crawlers answer `ppomppu`, `freeboard` |
| BaseCrawler.GetProducts | modules/BaseCrawler.js:11-13 | throws exactly for the base class, otherwise the crawler's listing |
| BaseCrawler.DetailOf | modules/BaseCrawler.js:21-23 | throws exactly for the base class; a crawler's detail carries no id or category |
| BaseCrawler.GetProductDetail | modules/BaseCrawler.js:21-23 | the dispatched detail lookup is the one specified by `DetailOf` |
| BaseCrawler.CrawlersListAlike | modules/Quasarzone.js:17-70 | both crawlers list the same items |
| BaseCrawler.Normalized | modules/BaseCrawler.js:46-59 | the normalised object has exactly the nine standard keys |
| BaseCrawler.NormalizeProduct | modules/BaseCrawler.js:46-59 | throws exactly for the base class, through `getCrawlerName` |
| BaseCrawler.NormalizeProductFields | modules/BaseCrawler.js:47-56 | each field is the raw field when truthy, else its default (`null`, `''`, `0`, `'N'`); `crawlerName` is `ppomppu` |
| BaseCrawler.NormalizedIdempotent | modules/BaseCrawler.js:46-59 | normalising a normalised object changes nothing |
| BaseCrawler.NormalizeIdempotent | modules/BaseCrawler.js:46-59 | the same, through the dispatched operation |
| S3Uploader.Basename | modules/S3Uploader.js:145 | `path.basename` is the last slash-free segment after trailing slashes are dropped |
| S3Uploader.BasenameOfName | modules/S3Uploader.js:156 | a name without slashes is its own basename |
| S3Uploader.Extname | modules/S3Uploader.js:155 | `path.extname` is empty or a suffix of the basename from its last `.`, never the whole basename |
| S3Uploader.NormalizeUrl | modules/S3Uploader.js:72-79 | the result starts with `http` and ends with the input, and equals it exactly when the input already starts with `http` |
| S3Uploader.NormalizeUrlIdempotent | modules/S3Uploader.js:72-79 | normalising twice is normalising once |
| S3Uploader.MimeType | modules/S3Uploader.js:169-175 | only extensions with a `.` and no `?` are in the table |
| S3Uploader.TypeOfExtension | modules/S3Uploader.js:167-177 | the table's type, else `image/jpeg`; always one of the four image types |
| S3Uploader.ContentTypeWithQuery | modules/S3Uploader.js:125 | an extension that runs into a query string is typed `image/jpeg` |
| S3Uploader.BeforeQuery | modules/S3Uploader.js:145 | `split('?')[0]` is the prefix before the first `?` |
| S3Uploader.OriginalName | modules/S3Uploader.js:145-150 | the basename without its query, with `.jpg` appended when it has no `.`; it holds no `/` or `?` |
| S3Uploader.RandomComponent | modules/S3Uploader.js:154 | `Math.floor(Math.random() * 1000000)` is below a million |
| S3Uploader.FileName | modules/S3Uploader.js:143-159 | timestamp, random number and original name, joined by `_` |
| S3Uploader.NameSplit | modules/S3Uploader.js:155-158 | stem plus extension is the name again |
| S3Uploader.ConfigOf | modules/S3Uploader.js:19-23 | the input's keys plus region and bucket; the input's values win; region defaults to `ap-northeast-2` |
| S3Uploader.ConfigRegion | modules/S3Uploader.js:19-23 | the region is the default exactly when the input has none or gives the default |
| S3Uploader.ObjectKey | modules/S3Uploader.js:116-118 | the key is the folder, the first seven characters (`YYYY-MM`) of the ISO time, and the file name of time, random component and original name, joined by `/`; so it starts with the folder and ends with the original name |
| S3Uploader.ObjectUrl | modules/S3Uploader.js:133 | exactly `https://<bucket>.s3.<region>.amazonaws.com/` followed by the key, with a missing bucket or region read as `undefined` |
| S3Uploader.UploadOf | modules/S3Uploader.js:40-64 | nothing happens for a blank URL; otherwise one download of the normalised URL and at most one put; a URL is returned exactly when the put succeeded |
| S3Uploader.UploadedObject | modules/S3Uploader.js:114-135 | the stored object holds the downloaded bytes, the URL's content type, `public-read` and the bucket; its key is `ObjectKey` of the folder, the clock and the normalised URL, so it has the folder and the original name; the returned URL is the object's |
| S3Uploader.Network.Download | modules/S3Uploader.js:87-104 | a download returns what the server serves and logs the URL |
| S3Uploader.Network.Send | modules/S3Uploader.js:130 | a put is stored exactly when S3 accepts it |
| S3Uploader.S3Uploader.constructor | modules/S3Uploader.js:18-32 | the configuration is `ConfigOf` the input |
| S3Uploader.S3Uploader.GetConfig | modules/S3Uploader.js:183-188 | only region and bucket are exposed |
| S3Uploader.S3Uploader.UploadToS3 | modules/S3Uploader.js:114-135 | the put is logged when accepted, and its URL is returned; nothing is downloaded |
| S3Uploader.S3Uploader.UploadImageFromUrl | modules/S3Uploader.js:40-64 | result and logs are those of `UploadOf` |
| App.CountOf | app.js:215-217 | the count is positive exactly when some row has the id |
| App.Database.Count | app.js:216 | the count, or an error when the query throws |
| App.Database.Insert | app.js:246 | the row is appended unless the insert throws |
| App.Database.End | app.js:132 | the connection is ended and the rows are kept |
| App.RowOf | app.js:234-244 | channel 1 and the product id; category, seller, title and product link fall back to `''`, price to `0`, shipping to `'N'`; the thumbnail is a non-empty S3 URL, else the original, else empty |
| App.RowTextColumnsAreStrings | app.js:237-243 | no text column of an inserted row is `null` or `undefined` |
| App.UploadFor | app.js:180-186 | a product without a truthy thumbnail uploads nothing |
| App.StoreRows | app.js:177-190 | a stored product appends one row with its listing id and category; downloads are only appended |
| App.SkippedProducts | app.js:165-174 | a known id, a failing lookup or a `null` detail leaves the state as it was |
| App.StepRows | app.js:163-197 | a saved product was not stored before and appends exactly its own row; an unsaved one leaves the rows |
| App.DetailRows | app.js:170-190 | after the lookup, a saved product appends its row, an unsaved one changes no row |
| App.ProcessPrefixIs | app.js:160-198 | the loop's first n passes are the loop over the first n products |
| App.ProcessCounts | app.js:160-198 | every product is processed; the saved count grows by the rows appended, at most one per product |
| App.ProcessKeepsIdsDistinct | app.js:165-190 | rows with distinct ids keep them distinct over any listing, even one that repeats an id |
| App.ProcessAppend | app.js:160-198 | processing `a + b` is processing `a`, then `b` |
| App.FailureIsolated | app.js:194-197 | a product whose lookup throws only counts as processed; the rest proceed as without it |
| App.WithDetailSaved | app.js:170-190 | whether a looked-up product is saved does not depend on the state |
| App.StepSaves | app.js:163-190 | a product is saved exactly when its count query succeeds, its id is not stored, and its detail and insert succeed |
| App.StepLeavesDone | app.js:163-190 | after a step, the next pass skips its product, and still skips every product it skipped before |
| App.ProcessLeavesDone | app.js:160-198 | after a pass over a listing, the next pass skips every product in it |
| App.ProcessAllSkipped | app.js:160-198 | a pass that skips every product adds no row and saves nothing |
| App.ProcessIdempotent | app.js:160-198 | crawling the same listing again from the resulting table, with the same pages and the same failing queries, lookups and inserts, adds no row and saves nothing |
| App.CrawlOf | app.js:145-206 | an unknown crawler throws; otherwise no more products are saved than processed |
| App.RunNext | app.js:114-122 | each target's counts are added to the totals; a target that throws ends the loop |
| App.RunStopped | app.js:126-128 | once the loop has stopped, later targets change nothing |
| App.UnknownCrawlerStops | app.js:146-149 | a target with an unknown crawler stops the run with the totals before it |
| App.RunSavedAtMostProcessed | app.js:110-122 | over a run no more products are saved than processed |
| App.HotdealScraper.constructor | app.js:26-37 | no connection, no uploader; only `ppomppu` is registered |
| App.HotdealScraper.InitDatabase | app.js:60-75 | the connection is kept; success exactly when it connects |
| App.HotdealScraper.InitS3Uploader | app.js:81-89 | a new uploader with the fixed region and bucket |
| App.HotdealScraper.IsProductExists | app.js:214-218 | true exactly when some row has the id; an error when the query throws |
| App.HotdealScraper.SaveProduct | app.js:227-247 | `RowOf` is appended unless the insert throws |
| App.HotdealScraper.UploadThumbnail | app.js:179-186 | result and logs are `UploadFor`'s |
| App.HotdealScraper.StoreProduct | app.js:179-190 | upload first, then the insert of the row with the uploaded URL |
| App.HotdealScraper.ProcessProduct | app.js:163-197 | one pass of the product loop is `Step` |
| App.HotdealScraper.ProcessDetail | app.js:170-190 | the pass after the lookup is `WithDetail` |
| App.HotdealScraper.ProcessCrawler | app.js:145-206 | the result and new state are `CrawlOf`'s; when it throws, nothing has changed |
| App.HotdealScraper.ProcessProducts | app.js:151-198 | the loop's counters and state are `Process` over the products |
| App.HotdealScraper.CrawlTargets | app.js:104-122 | the target loop's totals and state are `RunOf` over all targets |
| App.HotdealScraper.Run | app.js:95-136 | without a connection nothing is crawled; an opened connection is always ended; a connected run's state is `RunOf`'s |

## Left out

- Fetching pages, EUC-KR decoding and HTML parsing (`node-fetch`, `iconv-lite`, `cheerio`) are not modelled. A `Web` value gives, for each page URL, the text the selectors extract, or nothing when fetching or parsing throws.
- The MySQL driver is not modelled. The connection is a `Database` object whose rows are the table; which queries throw is an input. Column collation and type coercion are not modelled, so ids compare as exact values.
- The AWS client and `axios` are not modelled. A `Network` object stands for both: what each URL serves and which puts S3 accepts are inputs. The download's 10-second timeout and `User-Agent` header are not modelled.
- `Date.now()`, `new Date().toISOString()` and `Math.random()` are inputs (a `Clock` per product).
- Floating point is not modelled. Numbers are exact reals, so NaN and the rounding of `parseFloat` are left out.
- The `quasarzone.html` dump, console logging, `Log.js`, `_loadConfig` (with its `process.exit`) and the deprecated `getList`/`getDetail` are left out. So is `createdAt` in `normalizeProduct`, which reads the clock.
- The listing loop's `title` and `thumbnail` are left out: they are computed but never pushed.
- App.HotdealScraper.Run is modelled for a scraper that is new: nothing connected yet.
- App.UploadFor: a thumbnail that is truthy but not a string makes `trim` throw inside the uploader, and the model gives the same `null` directly.
- `this.crawlers[name]` is modelled as a map lookup. Inherited object keys such as `constructor` are not modelled.
- Strings.AsciiLower lowers ASCII letters only. The extensions in the MIME table are ASCII.
- Quasarzone.GetProductDetail: the price uses the corrected reading from the Findings table, which removes every thousands separator. The code removes only the first. The two agree whenever the cell has at most one comma (Quasarzone.PriceNumberOneComma). They differ from one million up, and Quasarzone.PriceNumber models the code's reading.
- Quasarzone.DetailOf: the price is read in the same corrected way as in Quasarzone.GetProductDetail.
- Quasarzone.PriceNumber: its own contract states only that the price is not negative. What it computes is stated by PriceNumberBelowMillion, PriceNumberMillions and PriceNumberMillionsExample.

## Findings

| source | as written | input that shows it | evidently intended | confidence | as-written member | corrected member |
|---|---|---|---|---|---|---|
| modules/Quasarzone.js:112-113 | `.replace(',', '')` removes only the first comma, so `parseFloat` stops at the second | a price cell `1,234,567원` gives 1234 | every thousands separator removed, giving 1234567 | not executed | Quasarzone.PriceNumberMillionsExample | Quasarzone.IntendedPriceNumberRoundTrip |

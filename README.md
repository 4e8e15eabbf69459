# PriceTracker core in Dafny

PriceTracker watches product pages on Amazon and Flipkart. For each URL it scrapes a name and a
price and records the product in a SQLite database with a threshold price. On every hourly sweep
it re-scrapes each active product and stores the new price in the product's history. When the
new price is at or under the threshold and below the stored one, it records a price-drop
notification. Pending notifications are then emailed, one alert per drop, or one summary email
when there are more than five, and every pending notification is marked sent.

This project models that core and proves properties of the model:

- `text.dfy` (`Text`): the pieces of Python's string library the core relies on: `str.strip`,
  `str.lower` on ASCII, substring containment and `str(n)`.
- `price_parser.dfy` (`PriceParser`): `extract_price_from_text`, with prices as exact decimals.
- `sites.dfy` (`Sites`): the `SUPPORTED_SITES` selector table and `detect_site_type`, which
  classifies a URL by the lowercased network location that `urlparse` extracts.
- `extraction.dfy` (`Extraction`): the title and price selector walks of both scraping
  variants. A loaded page is seen only through its selector queries. The walks come as loop
  methods and as recursive specification functions.
- `scraper.dfy` (`Scraper`): the `WebScraper` class covers the static (requests) variant, the
  rendered (Playwright) variant with its lazily started browser, the fallback from the preferred
  variant to the other, `test_scraping` and `cleanup`. The `ScrapingManager` class adds three
  attempts with a 5-second delay between them. The web is a parameter: a function from
  (variant, URL, fetch number) to the fetched page.
- `database.dfy` (`Database`): the three tables held as sequences in a `Store` class whose
  methods update them in place. Every query is a function over the tables. Ids come from
  AUTOINCREMENT counters and timestamps from a store clock.
- `notifier.dfy` (`Notifier`): `EmailNotifier` covers configuration validation, the email
  subjects and single and summary sends. The SMTP exchange is an oracle that says whether a
  composed email was delivered. `NotificationManager` applies the batch policy.
- `price_tracker.dfy` (`Tracker`): the `PriceTracker` class covers adding a product, checking
  one product, the sweep, notification processing, the scheduler start and stop, statistics
  and the CSV/JSON export.

Where the code and its test file disagree, the model follows the code. `src/utils/test_app.py`
expects `export_price_history` to fail for a product without history. The code returns a
successful export holding only the header line, and `Tracker.EmptyHistoryExports` states that.

## Model

| member | source | states |
|---|---|---|
| Text.NatToString | src/core/notifier.py:138 | `str(n)` of a count is a non-empty run of decimal digits |
| Text.IntToString | price_tracker.py:94 | `str(i)` starts with a minus sign exactly when `i` is negative |
| Text.NatToStringRoundTrip | src/core/notifier.py:138 | reading back the digits written for `n` gives `n`, so the count in a subject is recoverable |
| Text.NatToStringInjective | src/core/notifier.py:138 | two different counts never print the same text |
| Text.FirstIndexOf | scraper.py:76-77 | the index of the first occurrence of the character, or the length when it is absent: nothing before it is that character |
| Text.StripLeft | scraper.py:61 | what is left after leading whitespace is a suffix of the input, everything dropped is whitespace, and the suffix does not start with whitespace |
| Text.StripRight | scraper.py:61 | what is left after trailing whitespace is a prefix of the input, everything dropped is whitespace, and the prefix does not end with whitespace |
| Text.StripIsTrimmedSlice | scraper.py:99 | `strip()` leaves a contiguous slice of the text with only whitespace outside it, neither starting nor ending with whitespace |
| Text.StripUnpadded | scraper.py:61 | text that neither starts nor ends with whitespace is unchanged by `strip()` |
| Text.AsciiLower | scraper.py:45 | `lower()` keeps the length, maps each capital A-Z to its small letter and leaves every other character alone |
| Text.ContainsIffOccurs | scraper.py:48-50 | the substring test succeeds exactly when the word occurs at some position of the text |
| PriceParser.Clean | scraper.py:61 | cleaning keeps only digits, '.' and ',' and never lengthens the text |
| PriceParser.RemoveCommas | scraper.py:64-74 | dropping commas leaves no comma and never lengthens the text |
| PriceParser.ParseDecimal | scraper.py:76-77 | `float()` on digits and dots never yields a negative number; which texts it accepts is stated by `PriceParser.ParseDecimalAccepts` |
| PriceParser.ExtractPrice | scraper.py:55-81 | empty text gives no price, and any price returned is strictly positive |
| PriceParser.ExtractPriceDropsEveryComma | scraper.py:63-81 | whichever of the three separator branches applies, the price is the parse of the cleaned text with every comma dropped, kept only when positive |
| PriceParser.CleanAppend | scraper.py:61 | cleaning a concatenation is the concatenation of the cleaned parts, so price characters keep their order |
| PriceParser.CleanIgnoresStrip | scraper.py:61 | stripping before cleaning changes nothing the parser sees |
| PriceParser.CleanStripLeft | scraper.py:61 | leading whitespace never reaches the parser |
| PriceParser.CleanStripRight | scraper.py:61 | trailing whitespace never reaches the parser |
| PriceParser.RemoveCommasNoComma | scraper.py:64-74 | text without a comma passes the separator rule unchanged |
| PriceParser.Normalize | scraper.py:63-74 | definition: the three separator branches as written; `PriceParser.NormalizeRemovesEveryComma` proves they all drop every comma |
| PriceParser.NormalizeRemovesEveryComma | scraper.py:64-74 | the separator rule, written branch by branch (comma and period; a single comma before three digits; any other commas; no comma), drops every comma and changes nothing else |
| PriceParser.ParseDecimalOfNat | scraper.py:76-77 | the parser reads a plain digit string back as the number it spells |
| PriceParser.ParseDecimalAccepts | scraper.py:76-80 | on text of digits and periods, `float()` reads a number exactly when there is at most one period and at least one digit |
| PriceParser.Occurrences | scraper.py:69 | `count` is zero exactly when the character is absent, and never more than the length |
| PriceParser.SecondField | scraper.py:69 | `split(',')[1]` of text with a comma holds no comma |
| PriceParser.ExampleRupees | src/utils/test_app.py:125-126 | "₹1,999" is the price 1999 |
| PriceParser.ExampleGroupedDecimal | src/utils/test_app.py:128-129 | "1,234.56" is the price 1234.56 |
| PriceParser.ExampleFree | scraper.py:76-81 | "free" holds no price characters and yields no price |
| PriceParser.ExampleRsPrefix | scraper.py:61-77 | the period of "Rs." survives cleaning, so "Rs. 1,999" reads as 0.1999 |
| Sites.Name | config.py:51-79 | the site keys "amazon" and "flipkart" name exactly their own site |
| Sites.Profile | config.py:51-79 | each profile's domain is its site's key, with at least three price selectors and exactly three title selectors |
| Sites.StripC0Left | scraper.py:45 | `urlsplit` drops a prefix made only of control characters and spaces, and what remains does not start with one |
| Sites.RemoveUnsafe | scraper.py:45 | after sanitising, no tab, line feed or carriage return is left in the URL |
| Sites.AfterScheme | scraper.py:45 | what follows the scheme is a suffix of the sanitised URL |
| Sites.Netloc | scraper.py:45 | the network location holds no '/', '?', '#', tab or line break |
| Sites.Host | scraper.py:45 | the clauses spell out the body (the lowercased netloc, or an error when the netloc has one IPv6 bracket without the other); the substance is in `Sites.HostOfHttpsUrl` and `Sites.DetectSiteClassifies` |
| Sites.DetectSite | scraper.py:43-53 | definition: the host of the URL, then the site-word tests in order; its behaviour is `Sites.DetectSiteClassifies` and `Sites.DetectByHost` |
| Sites.DetectSiteClassifies | scraper.py:43-53 | a URL is Amazon when its host contains "amazon" or "amzn" (tested first), else Flipkart when the host contains "flipkart", else an "Unsupported site: " error naming the host; a malformed host is an error |
| Sites.SanitizeWebUrl | scraper.py:45 | sanitising leaves an http(s) URL without tabs or line breaks unchanged |
| Sites.NetlocOfWebUrl | scraper.py:45 | the netloc of `scheme://host/rest` is exactly `host` |
| Sites.HostOfHttpsUrl | scraper.py:45 | the host of `https://host/path` is `host` when it has no capitals or brackets |
| Sites.DetectByHost | scraper.py:48-53 | given the host, each of the three outcomes follows from which site words occur in it: "amazon" or "amzn" gives Amazon |
| Sites.ExampleAmazon | src/utils/test_app.py:117-118 | any address on amazon.in is Amazon, whatever its path |
| Sites.ExampleFlipkart | src/utils/test_app.py:120-121 | any address on flipkart.com is Flipkart |
| Sites.ExampleUnsupported | src/utils/test_app.py:133-137 | any address on unsupported-site.com is refused |
| Extraction.PriceOf | scraper.py:105-108 | a selector offers a price only when it matched an element, and that price is positive |
| Extraction.FindTitle | scraper.py:95-100 | the title loop returns what the title walk specifies: the stripped text of the first matching selector, or a cut-short walk |
| Extraction.FindPrice | scraper.py:103-110 | the price loop returns what the price walk specifies: the first selector whose text parses to a price, or a cut-short walk |
| Extraction.TitleWalk | scraper.py:95-100 | definition: the title selectors in order, the first match giving its stripped text, a raising query ending a static walk; its properties are `Extraction.TitleWalkFinds`, `Extraction.TitleWalkEmpty` and `Extraction.TitleWalkAborts` |
| Extraction.PriceWalk | scraper.py:103-110 | definition: the price selectors in order, the first that yields a price giving it; its properties are `Extraction.PriceWalkFinds`, `Extraction.PriceWalkEmpty` and `Extraction.PriceWalkPositive` |
| Extraction.TitleWalkFinds | scraper.py:96-100 | when every earlier selector is passed over and selector k matches, the title is k's stripped text, even an empty one |
| Extraction.TitleWalkEmpty | scraper.py:95-100 | the title walk finds nothing exactly when every selector is passed over |
| Extraction.TitleWalkAborts | scraper.py:127-132 | a static walk is cut short exactly when a query raises before any selector matched; a rendered walk never is |
| Extraction.TolerantWalksFinish | scraper.py:160-180 | the rendered walks skip selectors that raise and always reach the end |
| Extraction.PriceWalkFinds | scraper.py:104-110 | when every earlier selector is passed over and selector k yields a price, the walk returns k's price; a match without a price does not stop it |
| Extraction.PriceWalkEmpty | scraper.py:103-110 | the price walk finds nothing exactly when every selector is passed over |
| Extraction.PriceWalkPositive | scraper.py:109-118 | every price the walk returns is strictly positive |
| Extraction.VariantResult | scraper.py:83-125 | definition: a loaded page of a detected site, then the title walk and the price walk; its properties are `Extraction.VariantResultSound` and `Extraction.VariantSucceeds` |
| Extraction.VariantResultSound | scraper.py:83-125 | a snapshot comes only from a loaded page of a supported site, and carries the input URL, the detected site, a non-empty title and a positive price, which are what the two walks found |
| Extraction.VariantSucceeds | scraper.py:112-125 | conversely, a supported page with a non-empty title and a price yields exactly that snapshot |
| Extraction.RunVariant | scraper.py:90-125 | the variant body computes the variant's specified result from the fetched page |
| Scraper.Other | scraper.py:215-230 | the fallback variant differs from the preferred one |
| Scraper.VariantCalls | scraper.py:139-150 | a variant makes one fetch of the URL, except the rendered variant once the browser is closed, which makes none |
| Scraper.Try | scraper.py:134-201 | the clauses spell out the body (nothing from the rendered variant with the browser closed, else the web's outcome); the substance is in `Scraper.Fallback` and `Scraper.WebScraper.ScrapeWithPlaywright` |
| Scraper.Fallback | scraper.py:215-230 | a preferred variant's result is kept; otherwise the other variant's result is returned; with the browser up both are fetched, in that order, and never the same variant twice |
| Scraper.Opened | scraper.py:139-143 | the browser is released after some fetches exactly when it was before, and a created browser stays as it was |
| Scraper.OpenedAppend | scraper.py:139-143 | starting the browser over two runs of fetches is starting it over both together |
| Scraper.MethodName | scraper.py:253-260 | the recommendation is one of "requests", "playwright" and "none" |
| Scraper.Recommend | scraper.py:253-260 | requests is recommended exactly when it worked, playwright exactly when only it worked, and none exactly when neither did |
| Scraper.WebScraper.constructor | scraper.py:21-26 | a new scraper has made no fetch and created no browser |
| Scraper.WebScraper.ScrapeWithRequests | scraper.py:83-132 | one static fetch is recorded and its result returned; the browser is untouched |
| Scraper.WebScraper.ScrapeWithPlaywright | scraper.py:134-201 | the browser is started on first use and never reopened after cleanup; the fetch is recorded only while the browser is usable |
| Scraper.WebScraper.Cleanup | scraper.py:36-41 | a created browser ends up released and no fetch is made |
| Scraper.WebScraper.StaticThenRendered | scraper.py:223-230 | with requests preferred, the result and the fetches are those of the fallback rule starting from the static variant |
| Scraper.WebScraper.RenderedThenStatic | scraper.py:215-222 | with Playwright preferred, the result and the fetches are those of the fallback rule starting from the rendered variant |
| Scraper.WebScraper.ScrapeProduct | scraper.py:203-234 | the result, the fetches appended and the browser state are those of one `Scraper.ScrapeOnce` step: nothing and no fetch for a URL without an http(s) scheme or of an unsupported site, otherwise the fallback rule |
| Scraper.WebScraper.TestScraping | scraper.py:236-262 | both variants are run, requests first, the recommendation is drawn from their two results, one static fetch then the rendered fetch are logged, and the browser is started when it was never created |
| Scraper.ProductRun | scraper.py:215-230 | definition: the fallback rule over the web's outcomes, starting at the preferred variant; `Scraper.Fallback` states its cases |
| Scraper.ScrapeOnce | scraper.py:203-234 | definition: one `scrape_product` call, refusing URLs without an http(s) scheme or of an unsupported site with no fetch, otherwise `Scraper.ProductRun`; its bounds are `Scraper.ScrapeOnceShape` |
| Scraper.ScrapeOnceShape | scraper.py:203-234 | one `scrape_product` call fetches at most twice, and only its own URL |
| Scraper.RetryLoop | scraper.py:284-301 | definition: up to three `Scraper.ScrapeOnce` steps, each from the fetch count the previous one left, stopping at the first snapshot; its shape is `Scraper.RetryLoopShape` |
| Scraper.Retried | scraper.py:278-301 | definition: `Scraper.RetryLoop` from attempt one; `Scraper.RefusedNeverFetches`, `Scraper.RenderedRescues` and `Scraper.RetryExhausts` state its cases |
| Scraper.RetryLoopShape | scraper.py:280-301 | the retry loop runs between one and three attempts, stops early only on a snapshot, keeps the fetches already made, and each attempt adds at most two fetches of the URL |
| Scraper.RefusedNeverFetches | scraper.py:280-301 | a URL `scrape_product` refuses uses every attempt, finds nothing and fetches nothing |
| Scraper.RenderedRescues | scraper.py:215-230 | when rendered fetches always find the product and the browser is usable, the next attempt on an accepted URL succeeds, with one or two fetches, whatever the static fetch does |
| Scraper.RetryExhausts | scraper.py:280-301 | when no variant ever finds the product on an accepted URL, all three attempts run and each fetches with both variants |
| Scraper.ScrapingManager.constructor | scraper.py:272-276 | a new manager owns a fresh scraper and has paused for nothing |
| Scraper.ScrapingManager.Attempt | scraper.py:284-290 | one pass of the retry loop is one `scrape_product` call, and the loop then goes on as `Scraper.RetryLoop` does after it |
| Scraper.ScrapingManager.ScrapeWithRetry | scraper.py:278-301 | the result, the number of attempts, the fetches appended and the browser state are exactly those of `Scraper.Retried`: the first snapshot of up to three `scrape_product` calls; nothing only after three attempts; one 5-second pause after each failed attempt but the last |
| Scraper.ScrapingManager.Cleanup | scraper.py:303-305 | the manager's cleanup releases its scraper's browser |
| Database.IntervalOrDefault | src/core/database.py:100-101 | a missing or zero check interval becomes the 3600-second default; any other is kept |
| Database.WithoutUrl | src/core/database.py:96-101 | the REPLACE half of INSERT OR REPLACE keeps exactly the rows with another url |
| Database.SetPrice | src/core/database.py:152-156 | the rows with the id get the new current price and the check time; every other row is unchanged |
| Database.SetInactive | src/core/database.py:253-257 | the rows with the id become inactive; every other row is unchanged |
| Database.MarkSent | src/core/database.py:217-221 | the notifications with the id become sent; every other row is unchanged |
| Database.ProductById | src/core/database.py:132-143 | a product is returned only if it is in the table with that id, and nothing is returned only when no row has it |
| Database.ActiveRows | src/core/database.py:118-122 | the active listing holds exactly the active rows |
| Database.InsertByLastChecked | src/core/database.py:121 | insertion adds one row, puts it or the old first row first, and keeps the table sorted by last check |
| Database.SortByLastChecked | src/core/database.py:121 | the ordering keeps the length and is sorted by last check; `Database.SortByLastCheckedPermutes` states it is a permutation |
| Database.InsertByLastCheckedPermutes | src/core/database.py:121 | insertion adds the row to the multiset of rows and nothing else |
| Database.SortByLastCheckedPermutes | src/core/database.py:121 | the ordering is a permutation of the rows |
| Database.AllProducts | src/core/database.py:112-130 | the listing is sorted by last check; `Database.AllProductsListing` states what it holds |
| Database.AllProductsListing | src/core/database.py:112-130 | the listing is a permutation of the active rows (or of every row), so a row is listed exactly when it is active (or at all) |
| Database.HistoryOf | src/core/database.py:171-189 | a product's history holds exactly its rows of the history table |
| Database.PendingRows | src/core/database.py:228-246 | every pending row is an unsent notification of the table |
| Database.SentCount | src/core/database.py:284-285 | the sent count never exceeds the number of notifications; `Database.SentCountCounts` states what it counts |
| Database.SentCountCounts | src/core/database.py:284-285 | the count equals the number of notifications whose email was sent |
| Database.Stats | src/core/database.py:265-300 | the product count is the number of active rows; products with drops never outnumber sent notifications; the distinct ids are those of sent notifications |
| Database.SentIdsBound | src/core/database.py:276-285 | `COUNT(DISTINCT product_id)` never exceeds `COUNT(*)` over sent notifications |
| Database.SentIdsMeaning | src/core/database.py:276-281 | an id is counted exactly when some sent notification is about it |
| Database.SetPriceKeyed | src/core/database.py:152-156 | a price update keeps product ids increasing and urls unique |
| Database.SetInactiveKeyed | src/core/database.py:253-257 | deactivation keeps product ids increasing and urls unique |
| Database.MarkSentOrdered | src/core/database.py:217-221 | marking a notification sent keeps the table in id and time order |
| Database.NotificationAppendOrdered | src/core/database.py:197-203 | a new notification with a fresh id, stamped now, keeps the table in id and time order |
| Database.HistoryAppendOrdered | src/core/database.py:159-162 | a new history row with a fresh id, stamped now, keeps the history in id and time order |
| Database.WithoutUrlKeyed | src/core/database.py:96-101 | deleting the row of a url keeps product ids increasing and urls unique |
| Database.AddProductReplaces | src/core/database.py:96-101 | after INSERT OR REPLACE the only row with the url is the new one, and every other row was there before |
| Database.PendingAppend | src/core/database.py:228-239 | the pending listing of a table with one more notification is the old listing followed by that notification's row |
| Database.AddedNotificationIsPending | src/core/database.py:228-239 | a new unsent notification of an existing product is listed last among the pending ones, with its product's name and url |
| Database.PendingSorted | src/core/database.py:238 | pending notifications come out in `sent_at` order |
| Database.MarkSentIdempotent | src/core/database.py:217-221 | marking a notification sent twice equals marking it once |
| Database.MarkingAllClearsPending | src/core/database.py:217-239 | once every pending notification's id is marked sent, nothing is pending |
| Database.MarkAllSent | src/core/database.py:217-221 | marking a list of ids keeps the table's length |
| Database.MarkAllSentRow | src/core/database.py:217-221 | after marking a list of ids, a row is sent exactly when it was already or its id is listed |
| Database.SetPriceOfNewRow | src/utils/test_app.py:45-47 | a price recorded for a freshly appended row lands on that row alone |
| Database.StoredPriceIsLatest | src/utils/test_app.py:45-47 | after a price update, the product reads back with that price and the new check time |
| Database.DeactivatedStaysFetchable | src/core/database.py:248-263 | a deactivated product leaves the active listing but can still be fetched by id |
| Database.HistoryAppend | src/utils/test_app.py:50-53 | a recorded price appears at the end of that product's history and in no other product's |
| Database.HistorySorted | src/core/database.py:181 | a product's history comes out oldest first |
| Database.Store.constructor | src/core/database.py:29-88 | a fresh database has three empty tables and every counter at 1 |
| Database.Store.Tick | src/core/database.py:45-46 | time moves forward and no table changes |
| Database.Store.AddProduct | src/core/database.py:90-110 | the url's old row is replaced by a new active row with a fresh id, no price, the default interval when none is given, and both timestamps now; the other tables are unchanged |
| Database.Store.UpdateProductPrice | src/core/database.py:145-169 | the product's price and last check are set and exactly one history row with a fresh id is appended |
| Database.Store.AddNotification | src/core/database.py:191-210 | exactly one unsent notification with a fresh id, stamped now, is appended |
| Database.Store.MarkNotificationSent | src/core/database.py:212-226 | only the email-sent flag of that notification changes |
| Database.Store.DeactivateProduct | src/core/database.py:248-263 | only the active flag of that product changes; the row stays |
| Notifier.ValidateConfig | src/core/notifier.py:31-42 | the configuration is valid exactly when username, password and recipient are all set |
| Notifier.DropSubject | src/core/notifier.py:47 | definition: the alert prefix followed by the product name; its properties are `Notifier.DropSubjectNamesProduct` and `Notifier.DropSubjectInjective` |
| Notifier.SummarySubject | src/core/notifier.py:138 | definition: the summary prefix, the decimal count of drops, then " Price Drops"; its property is `Notifier.SummarySubjectInjective` |
| Notifier.DropSubjectNamesProduct | src/core/notifier.py:47 | an alert subject is the fixed alert prefix followed by exactly the product name |
| Notifier.DropSubjectInjective | src/core/notifier.py:47 | alerts about differently named products have different subjects |
| Notifier.SummarySubjectInjective | src/core/notifier.py:138 | two summary subjects agree only when they report the same number of drops |
| Notifier.EmailNotifier.constructor | src/core/notifier.py:20-29 | a new notifier has sent nothing |
| Notifier.EmailNotifier.SendPriceDropNotification | src/core/notifier.py:226-252 | an invalid configuration or a zero old price (the percentage at line 55 divides by it) sends nothing and fails; otherwise one alert is handed over and the result is its delivery |
| Notifier.EmailNotifier.SendSummaryNotification | src/core/notifier.py:254-284 | an invalid configuration fails and an empty list succeeds, both without sending; a zero old price fails (lines 177 and 209 divide by it); otherwise one summary of all drops is handed over |
| Notifier.EmailNotifier.DropOutcome | src/core/notifier.py:226-252 | definition: an alert succeeds exactly when it is attempted (valid configuration, non-zero old price) and the SMTP oracle delivers it; `Notifier.EmailNotifier.SendPriceDropNotification` returns it |
| Notifier.EmailNotifier.SummaryOutcome | src/core/notifier.py:254-284 | definition: a summary succeeds when the configuration is valid and either the list is empty or no old price is zero and the oracle delivers it; `Notifier.EmailNotifier.SendSummaryNotification` returns it |
| Notifier.EmailNotifier.Delivered | src/core/notifier.py:370-376 | definition: the number of drops whose alert succeeded; with `Notifier.EmailNotifier.Failures` it covers every drop (`Notifier.EmailNotifier.EveryAlertCounted`) |
| Notifier.EmailNotifier.Failures | src/core/notifier.py:370-376 | definition: one "Failed to send email for <name>" per failed alert, in list order; each names a failed product (`Notifier.EmailNotifier.FailuresNameFailedProducts`) |
| Notifier.EmailNotifier.Attempted | src/core/notifier.py:370-376 | at most one alert is attempted per drop |
| Notifier.EmailNotifier.EveryAlertCounted | src/core/notifier.py:370-376 | every alert is either delivered or leaves one error message |
| Notifier.EmailNotifier.FailuresNameFailedProducts | src/core/notifier.py:374-376 | each error message names a product whose alert failed |
| Notifier.SendAttempts | src/core/notifier.py:356-376 | no send for no drops, one summary for more than a batch, one alert per drop otherwise |
| Notifier.NotificationManager.constructor | src/core/notifier.py:341-344 | the batch size is 5 |
| Notifier.NotificationManager.Handed | src/core/notifier.py:356-376 | the emails handed over for a batch: none for no drops, the summary (when the configuration is valid and no old price is zero) for more than five, else each attempted alert in order; never more than the sends `Notifier.SendAttempts` counts |
| Notifier.NotificationManager.ProcessNotifications | src/core/notifier.py:346-384 | the total is the number of drops; successes plus failures equal the sends the batch policy attempts; there is one error per failure; over five drops exactly one summary is tried; otherwise one alert per drop in order, carrying on past failures; the emails handed over are `Notifier.NotificationManager.Handed` of the drops |
| Tracker.DropFires | price_tracker.py:118 | definition: the new price is at or under the threshold, the stored price is set and non-zero, and the new price is strictly below it; used by `Tracker.PriceTracker.RecordPrice` and `Tracker.RecheckAtSamePriceIsQuiet` |
| Tracker.Recorded | price_tracker.py:108-128 | definition: the product's price and last check are set, one history row is appended, and one unsent notification is appended exactly when `Tracker.DropFires` holds; `Tracker.PriceTracker.RecordPrice` is proved against it |
| Tracker.CheckOn | price_tracker.py:86-130 | definition: a missing id fails with "Product with ID <id> not found" and changes nothing; a retry run that finds nothing fails with "Could not scrape current price" after its fetches; otherwise the scraped price is recorded by `Tracker.Recorded`; its growth is `Tracker.CheckOnGrowth` |
| Tracker.TallyStep | price_tracker.py:176-181 | definition: a success counts as checked and, when it dropped, as a drop; a failure appends "Product <name>: <error>" |
| Tracker.Tally | price_tracker.py:172-181 | definition: the report folded over the outcomes with `Tracker.TallyStep`; its counts are `Tracker.TallyCounts` |
| Tracker.RecheckAtSamePriceIsQuiet | price_tracker.py:108-119 | right after a price is recorded, a check at the same price raises no drop |
| Tracker.CsvLines | price_tracker.py:341-346 | the export has the `Date,Price` header first and one line per history entry |
| Tracker.DataLines | price_tracker.py:345-346 | each data line carries its entry's timestamp and price, in history order |
| Tracker.CsvRoundTrip | price_tracker.py:337-353 | reading the CSV export back gives every entry's date and price, in order |
| Tracker.PendingAllMarked | price_tracker.py:219-220 | marking the ids of all pending notifications leaves none pending |
| Tracker.MarkOneMore | price_tracker.py:219-220 | marking the first i + 1 pending rows is marking the first i and then row i |
| Tracker.CheckOnGrowth | price_tracker.py:86-147 | a check adds one history row exactly when it succeeds and one notification exactly when it reports a drop; a failed check leaves the tables alone; fetches are only appended |
| Tracker.Sweep | price_tracker.py:172-189 | the sweep gives one outcome per listed product |
| Tracker.CountsGrow | price_tracker.py:176-179 | one more outcome adds one success or drop position exactly when it is one |
| Tracker.TallyCounts | price_tracker.py:165-191 | the products checked are the successful outcomes, the drops are the successes reporting a drop, checks plus errors equal the listing's length, and every error starts "Product " |
| Tracker.SweepGrowth | price_tracker.py:149-191 | over a sweep, the history grows by the products checked, the notifications by the drops reported, and fetches are only appended |
| Tracker.EmptyHistoryExports | price_tracker.py:337-353 | an empty history still exports: the header line alone, which reads back as no entries |
| Tracker.PriceTracker.constructor | price_tracker.py:29-36 | a new tracker is stopped and starts from empty tables |
| Tracker.PriceTracker.AddProduct | price_tracker.py:38-84 | the scrape is the run `Scraper.Retried` specifies (requests preferred), with its fetches and browser state; the product is added exactly when it found a snapshot; a failed scrape writes nothing and reports "Could not scrape product information from URL"; otherwise the url's row is replaced by the product under the caller's name (the scraped one when none is given) with the scraped price, and one history row is added; one 5-second pause follows each failed attempt but the last; the store clock and the notification id counter do not move; the product and history id counters advance by one exactly when the product is added; a URL the scraper refuses always fails |
| Tracker.PriceTracker.StorePriced | price_tracker.py:57-67 | the url's row is replaced by the new product with a fresh id and the scraped price, and one history row records that price; the product and history id counters advance by one; notifications, the notification id counter and the store clock are unchanged |
| Tracker.PriceTracker.CheckProductPrice | price_tracker.py:86-147 | the result and every table, counter, fetch, browser state and pause count afterwards are those `Tracker.CheckOn` gives for the id, so the new price is the one the retry run scraped |
| Tracker.PriceTracker.RecordPrice | price_tracker.py:108-128 | the price is recorded as `Tracker.Recorded` says, and a notification is added exactly when the drop rule fires against the stored price |
| Tracker.PriceTracker.CheckAllProducts | price_tracker.py:149-191 | the active products, least recently checked first, are each checked by id in turn as `Tracker.Sweep` specifies, one outcome each, and the report is `Tracker.Tally` of those outcomes |
| Tracker.PriceTracker.CheckListed | price_tracker.py:172-189 | the loop leaves the outcomes and the state `Tracker.Sweep` gives for the listing, one outcome per product in order, and reports their tally |
| Tracker.PriceTracker.SweepStep | price_tracker.py:174-181 | the product is checked by its id as `Tracker.CheckOn` specifies, and its outcome is added to the report |
| Tracker.PriceTracker.ProcessNotifications | price_tracker.py:200-229 | the processed count is the number of pending notifications; with none, nothing is sent and the report is zeros; up to five, the emails sent are the alerts delivered, the failures are counted, and one alert per notification is handed over; over five, exactly one summary is tried and the emails sent are 1 exactly when it was delivered; in every case the emails handed over are `Notifier.NotificationManager.Handed` of the pending list; every pending notification is marked sent, so none is pending, and products, history and all three id counters are unchanged |
| Tracker.PriceTracker.MarkEachSent | price_tracker.py:219-220 | the notifications become `Database.MarkAllSent` of the listed ids; products, history, clock and the three id counters are unchanged |
| Tracker.PriceTracker.RunPriceCheckCycle | price_tracker.py:238-260 | products, history, fetches, browser and pause count are those the sweep of the active products leaves; the emails handed to the SMTP server are those `Notifier.NotificationManager.Handed` gives for the notifications the sweep left pending (none, up to five alerts, or one summary); the notifications are the sweep's with every pending one marked sent, so nothing is pending; the history and notification id counters are the sweep's, and the product id counter and the store clock do not move |
| Tracker.PriceTracker.StartScheduler | price_tracker.py:262-273 | one cycle runs at once with the effect `Tracker.PriceTracker.RunPriceCheckCycle` states (tables, id counters, fetches, browser, pauses, emails handed over, clock), then the tracker is running |
| Tracker.PriceTracker.StopScheduler | price_tracker.py:289-294 | the tracker stops, any browser it started is released, and no fetch is made |
| Tracker.PriceTracker.GetStatistics | price_tracker.py:296-310 | the active-product count agrees with the database's count; pending notifications never exceed the notifications table |
| Tracker.PriceTracker.ExportPriceHistory | price_tracker.py:332-359 | CSV exactly when the format lowercases to "csv", reading back the product's history and named `price_history_<id>.csv`; otherwise JSON holding exactly the product's history rows |

## Left out

- Network and browser I/O are not modelled. The HTTP session, Playwright's page loading and its waits, and the SMTP session become oracles: a web function from (variant, URL, fetch number) to the loaded page, and a delivery function on composed emails. Headers, timeouts and viewport settings are left out.
- Launching Playwright is assumed to succeed. `page.close()` and errors raised when the browser is started are not modelled.
- Prices are exact decimals (`real`), not binary floats. Only ASCII digits count for `\d`. Unicode lowercasing beyond A-Z is left out.
- `urlparse`'s handling of bracketed IPv6 hosts is reduced to the unbalanced-bracket error. Port and credential parts stay in the host, as in the code.
- The NFKC check `urlsplit` applies to a non-ASCII network location is not modelled. Some such hosts make it raise ValueError. The model classifies them by their characters instead.
- Database persistence is not modelled: the SQLite file, connections, `init_database` and its indexes. A SQL error raised by a statement is not modelled either. CURRENT_TIMESTAMP is a store clock that only `Tick` advances.
- Database.AllProducts: SQL leaves the order of rows with the same `last_checked` unspecified. The model keeps them in table order.
- Database.HistoryOf: the 30-day window of `get_price_history` is not applied. The model returns the whole history of the product. `ORDER BY timestamp` leaves rows with the same timestamp in an unspecified order. The model keeps them in table order.
- Database.PendingRows: `ORDER BY n.sent_at` leaves notifications with the same time in an unspecified order. The model keeps them in table order.
- Tracker.PriceTracker.ExportPriceHistory: the JSON branch returns whole history rows. The code's query (src/core/database.py:177) selects only price and timestamp.
- Database.PendingRows: only soundness is in its contract. Completeness is stated by `Database.PendingAppend` and `Database.AddedNotificationIsPending`.
- The email bodies (MIME structure, HTML, prices formatted to two decimals, drop percentages) are left out. The only body detail kept is that computing the percentage divides by the old price.
- The average drop percentage of `get_statistics`, with its rounding, and the report's `last_check` time are not modelled.
- The `notification.get('product_name', 'Unknown')` default is not modelled: the pending join always supplies the name.
- `test_email_configuration` and `test_configuration` are not modelled; they only send a test message through SMTP.
- The tracker's `test_scraping` is not modelled separately: it delegates to `Scraper.WebScraper.TestScraping`.
- The scheduler's hourly `schedule` registration, its one-minute polling loop and KeyboardInterrupt handling are left out. `StartScheduler` models the first cycle and the running flag.
- Sleeping is not modelled as time passing. The two-second sleep between products in `check_all_products` is left out, so every check of a sweep sees the same store clock. The retry delay of `scrape_with_retry` is counted instead: `ScrapingManager.pauses` grows by one per 5-second pause.
- The web oracle is not constrained for URLs without an http(s) scheme. For those, `requests` raises InvalidSchema and the static variant gives nothing. In the model, `Scraper.WebScraper.TestScraping` and the variants take whatever the oracle returns.
- Logging is left out throughout.
- The CSV export is modelled as lines of cells. How `csv.writer` renders floats and timestamps as text is left out.
- Sites.ExampleUnsupported: states only that the address is refused. The error message is given by `Sites.DetectByHost`.
- Tracker.PriceTracker.CheckAllProducts: the exception branch per product (lines 183-185) and the outer failure report (lines 193-198) are not modelled, since the modelled operations do not raise.

# Shopify QA funnel and report, modelled in Dafny

This project models the two scripts of a storefront QA tool.

`shopify_qa.py` drives one product page through a purchase funnel on a desktop
and a mobile viewport:

1. load the page;
2. pick the "Front & Rear Seats" option;
3. open the colour picker;
4. pick a colour;
5. add to cart;
6. click through to checkout.

Each step walks an ordered list of CSS selectors and acts on the first usable
element. The script takes numbered screenshots as it goes and logs severity-tagged
issues on an `EnhancedShopifyQA` object. At the end it writes the issues to
`qa-report.json` and tallies them by severity. `create_google_doc.py` reads that
list back and writes a report document: a header, an executive summary and one
section per page.

How the model is built:

- **The browser** is an oracle. `Page.PageState` maps each selector to what
  `query_selector` gives: it raises, returns None, or returns an element. An
  element records whether it is visible and enabled, at which interaction it
  first raises, and the URL the page shows once it is clicked. From that
  interaction on the element counts as detached: every later interaction with
  it raises too, so a colour button whose `is_visible()` raised also fails its
  hover.
  `Funnel.Observation` gathers everything one session reads: the navigation
  outcome, the broken-image count, the page seen by each selector loop, the
  error counts and the text of the exception that reaches the outer handler.
- **The clock and the camera** are the parameter `Journal.Env`: a timestamp
  and a saved/failed flag per screenshot number, and a timestamp per issue
  position. Any behaviour of `datetime.now()` and `page.screenshot()` is one
  choice of `Env`.
- **`test_url`** is specified twice, independently. `Funnel.Journey` is the
  trace of screenshots and issue reports, in call order. `Funnel.FunnelIssues`
  is the list of issues the nine failure kinds call for, each guarded by its
  own condition. `Funnel.JourneyReports` proves the two agree. The class
  `ShopifyQA.EnhancedShopifyQA` keeps the source's two fields,
  `screenshotCounter` and `issues`, and its methods mirror the source's
  blocks. Each method is proved to leave the object exactly as `Journal.Run`
  says the corresponding trace does.
- **The selector loops** are methods with loop invariants. Each is proved
  against a recursive function stating which candidate it settles on:
  `Resolver.FindSeatOption`, `Resolver.FindColourButton` and
  `ShopifyQA.EnhancedShopifyQA.RunStage`.
- **The report side** reads each issue as a JSON object: `Report.Record` is a
  `map<string, string>`. `Report.Summarise` is the counting loop of
  `_build_summary`. It either returns the three count dicts or stops with the
  missing key of the `KeyError` it would raise. `Document.ReportDocument`
  holds the text of the document body. Its methods append what each
  `_build_*` / `_add_*` method inserts at the end of the body.
- **The hand-over**: `Pipeline` connects the two sides through the JSON records
  `run_tests` writes.

Behaviour of the code worth knowing, which the model keeps:

- The seat option is the first non-null query result. It is not checked for
  visibility or enabledness.
- A missing colour button or colour option only prints; no issue is logged.
- The hover/click block of the seat step and of the colour-button step is not
  inside its own `try`. A fault there ends the session through the outer
  handler with a critical "Test Failure" issue.
- The checkout URL check looks only for `checkout` in the lower-cased URL. A
  mismatch is logged with severity high.

## Model

| member | source | states |
|---|---|---|
| ShopifyQA.EnhancedShopifyQA.constructor | shopify_qa.py:16-20 | a new collector has no issues and a screenshot counter of 0 |
| ShopifyQA.EnhancedShopifyQA.TakeScreenshot | shopify_qa.py:474-494 | the counter goes up by exactly one whether or not the capture succeeds; the issues are untouched; the result is the path `qa-screenshots/{counter:03d}_{device}_{step}_{timestamp}.png` when the capture succeeds and None when it fails |
| ShopifyQA.EnhancedShopifyQA.LogIssue | shopify_qa.py:496-498 | the issue is appended at the end, earlier issues are unchanged and the counter is unchanged |
| ShopifyQA.EnhancedShopifyQA.Shoot | shopify_qa.py:68-71 | a screenshot call site leaves the object as the trace extended by one screenshot says, and remembers its path as the one later issues attach |
| ShopifyQA.EnhancedShopifyQA.Log | shopify_qa.py:75-83 | a `log_issue` call site leaves the object as the trace extended by one issue report says; the issue gets the session's url and device, the last screenshot path and the clock's timestamp |
| ShopifyQA.EnhancedShopifyQA.LoadPage | shopify_qa.py:61-101 | step 1 takes the first screenshot, logs the HTTP and broken-image issues when they apply, and reports whether the session goes on (a failed navigation, a None response or a raising image probe reach the outer handler) |
| ShopifyQA.EnhancedShopifyQA.RunUnguarded | shopify_qa.py:139-162 | the unguarded hover/screenshot/click/screenshot block takes both screenshots, or stops after the first when the click raises, or takes none when the hover raises, and says whether the session goes on |
| ShopifyQA.EnhancedShopifyQA.SelectSeats | shopify_qa.py:116-175 | step 2 clicks the first seat candidate found, or logs the high "Element Not Found" issue when none is found |
| ShopifyQA.EnhancedShopifyQA.OpenColourPicker | shopify_qa.py:191-225 | step 3 acts on whatever `color_button` holds after its loop, and logs nothing when that is None |
| ShopifyQA.EnhancedShopifyQA.RunStage | shopify_qa.py:241-271 | an acting selector loop stops at the first candidate whose whole block completes, returns that candidate's index, and leaves the object as the loop's trace says, including the before-click screenshot of candidates whose click raised |
| ShopifyQA.EnhancedShopifyQA.AddToCart | shopify_qa.py:289-332 | `cart_added` is true exactly when some visible and enabled candidate completes its block; otherwise the critical "Add to Cart Failed" issue is logged |
| ShopifyQA.EnhancedShopifyQA.ClickCheckout | shopify_qa.py:349-419 | `checkout_clicked` is true exactly when some visible candidate completes its block, whatever URL it lands on; otherwise the critical "Checkout Button Not Found" issue is logged |
| ShopifyQA.EnhancedShopifyQA.WrapUp | shopify_qa.py:422-449 | the final screenshot, then one console issue and one network issue when their counts are positive |
| ShopifyQA.EnhancedShopifyQA.HandleCrash | shopify_qa.py:455-470 | the outer handler takes the error screenshot and logs one critical "Test Failure" issue with the exception text |
| ShopifyQA.EnhancedShopifyQA.OpenSession | shopify_qa.py:59-225 | steps 1 to 3 run as far as they get; the flag says whether an exception reached the outer handler |
| ShopifyQA.EnhancedShopifyQA.FinishSession | shopify_qa.py:227-449 | steps 4 to 6 and the wrap-up run in order, after whatever the first three steps did |
| ShopifyQA.EnhancedShopifyQA.TestUrl | shopify_qa.py:22-472 | one `test_url(url, device)` call leaves the object as `Session` says: the whole trace of the session folded into the collector |
| ShopifyQA.EnhancedShopifyQA.RunTests | shopify_qa.py:513-565 | the collector ends as `Campaign` says (desktop then mobile for each url, in order); the list returned is `self.issues`; the tally holds a severity exactly when it occurs, with its number of occurrences, and the tallies add up to the number of issues |
| ShopifyQA.SeverityTally | shopify_qa.py:549-552 | the `severity_count` loop gives each occurring severity its number of occurrences, has no key for a severity that does not occur, and its values add up to `len(issues)` |
| ShopifyQA.OccurrencesTotal | shopify_qa.py:549-552 | the four severity counts add up to the number of issues |
| ShopifyQA.SessionEffect | shopify_qa.py:22-472 | a session adds one to the counter per screenshot call of its trace, keeps every earlier issue, appends exactly the issues `FunnelIssues` lists in that order, and every issue it adds carries the call's url and device |
| ShopifyQA.SessionKeeps | shopify_qa.py:22-472 | a session keeps every earlier issue and tags each one it adds with its url and device |
| ShopifyQA.CampaignCounter | shopify_qa.py:524-535 | over a whole run the counter grows by the number of screenshot calls of all sessions and is never reset |
| ShopifyQA.CampaignKeeps | shopify_qa.py:524-535 | a whole run only appends to the issue list |
| ShopifyQA.CampaignTags | shopify_qa.py:524-535 | every issue a run adds carries one of the run's urls and the device "desktop" or "mobile" |
| ShopifyQA.CampaignEffect | shopify_qa.py:524-535 | the conjunction of the three campaign facts |
| ShopifyQA.TrailEffect | shopify_qa.py:496-498 | folding a trace whose reports are a given list appends exactly that list, tagged with the session's url and device |
| Journal.RunEffect | shopify_qa.py:474-498 | folding any trace into the collector adds one to the counter per screenshot, keeps the earlier issues, and appends one issue per report, in order, with the session's url and device |
| Journal.RunAppend | shopify_qa.py:22-472 | running two traces one after the other is running their concatenation |
| Journal.ReportsAppend | shopify_qa.py:22-472 | the reports of a concatenation are the reports of its parts, in order |
| Journal.CounterOfPath | shopify_qa.py:483 | the counter can be read back from a screenshot path: the `{counter:03d}` field is the number of the call |
| Journal.ScreenshotPathsDistinct | shopify_qa.py:477-483 | two calls with different counter values never produce the same path, whatever the device, step and timestamp |
| Resolver.FindSeatOption | shopify_qa.py:116-124 | the loop settles on the first candidate whose query returns an element; no candidate before it does, and none after it is queried; raising and None queries are skipped; when none is found every candidate has been queried |
| Resolver.FindColourButton | shopify_qa.py:191-201 | when some candidate is present and visible, `color_button` is the first such; when none is, it is the result of the last query that did not raise, which may be an invisible element, or None |
| Resolver.HeldIsLastAnswer | shopify_qa.py:191-199 | when no candidate from some point on is visible, the loop run from there ends holding the last answer of a query that did not raise |
| Resolver.Try | shopify_qa.py:290-320 | an attempt completes exactly when the element is found, passes the gate and nothing in its block raises; it takes the before screenshot exactly when only the click raises |
| Resolver.FirstCompletedIsFirst | shopify_qa.py:289-320 | the chosen candidate completes and no earlier one does; none is chosen exactly when no candidate completes |
| Resolver.StageReports | shopify_qa.py:385-403 | a stage logs no issue, except the checkout stage, which logs the URL check's issue for the candidate it settles on |
| Funnel.JourneyReports | shopify_qa.py:53-470 | the issues the trace of a session reports are exactly the issues of the nine failure kinds that apply, in the order the source logs them |
| Funnel.SeverityByCategory | shopify_qa.py:73-470 | each issue's severity is a function of its category; the checkout URL check is high, never critical |
| Funnel.OneIssuePerCategory | shopify_qa.py:73-470 | a session logs at most one issue of each category |
| Funnel.LoadAnomalyIssues | shopify_qa.py:74-101 | an HTTP issue is logged exactly when a response with status other than 200 arrives, and a broken-images issue with the count exactly when the probe counts at least one |
| Funnel.ErrorListIssues | shopify_qa.py:428-449 | one console issue and one network issue, with the count, exactly when the session survives and the count is positive |
| Funnel.SeatMissingIssueLogged | shopify_qa.py:165-175 | the high "Element Not Found" issue is logged exactly when step 2 finds no seat candidate |
| Funnel.CartFailedIssueLogged | shopify_qa.py:322-332 | the critical "Add to Cart Failed" issue is logged exactly when a surviving session adds nothing to the cart |
| Funnel.CheckoutMissingIssueLogged | shopify_qa.py:409-419 | the critical "Checkout Button Not Found" issue is logged exactly when a surviving session clicks no checkout candidate |
| Funnel.CheckoutNavigationIssue | shopify_qa.py:385-403 | checkout counts as clicked exactly when some candidate lands on a URL; the high "Checkout Navigation" issue, quoting that URL, is logged exactly when the lower-cased URL does not contain "checkout"; then no "Checkout Button Not Found" issue is logged |
| Funnel.CrashIssueLogged | shopify_qa.py:455-470 | a "Test Failure" issue is logged exactly when an exception reaches the outer handler; then only the step 1 and step 2 issues can precede it |
| Funnel.ColourButtonQuirk | shopify_qa.py:191-225 | when no colour-button candidate is visible, the element the loop ends holding (the last answer of a query that did not raise) goes through the unguarded hover/click block whatever its visibility: the 04/05 screenshots are taken only when its hover and click do not raise, a raising hover or click ends the session through the outer handler, and a later None answer leaves nothing to act on; the loop method `Resolver.FindColourButton` states the same for its result |
| Funnel.IssueSlotsWellFormed | shopify_qa.py:73-470 | the nine failure kinds have nine different categories |
| Report.Summarise | create_google_doc.py:100-109 | the counting loop returns the statistics of the whole list, or the key of the first KeyError it raises |
| Report.FirstRejectionFacts | create_google_doc.py:105-109 | no record is rejected exactly when every record has a known severity and device; otherwise the error names the key of the first rejected record, and all records before it are accepted |
| Report.StatisticsFailure | create_google_doc.py:105-109 | the summary succeeds exactly when every record's severity, read with default "low", is one of the four levels and its device, read with default "desktop", is desktop or mobile; a failure names the first offending record's key |
| Report.SeverityCounts | create_google_doc.py:101-106 | the severity dict has exactly the four levels as keys, each with its number of occurrences (missing counts as "low"), and they add up to `len(issues)` |
| Report.DeviceCounts | create_google_doc.py:103-109 | the device dict has exactly desktop and mobile, each with its number of occurrences (missing counts as "desktop"), and they add up to `len(issues)` |
| Report.CategoryCounts | create_google_doc.py:102-108 | the category dict's keys are the distinct categories in first-occurrence order (missing counts as "Unknown"), each with its number of occurrences, and they add up to `len(issues)` |
| Report.CategoryEntries | create_google_doc.py:107-108 | each category appears once in the dict, with its true count, in the order categories first appear |
| Report.AcceptedColumns | create_google_doc.py:106-109 | in an accepted list every severity read is a level and every device read is a device |
| Report.CriticalIssuesFacts | create_google_doc.py:138 | the filter keeps exactly the critical and high records, and there are as many as the critical and high counts add up to |
| Report.TopCategoriesFacts | create_google_doc.py:132-133 | at most five categories are listed, all of them when there are five or fewer; they are in non-increasing count order with their true counts; none left out has a larger count than one listed; equal counts keep the dict's order |
| Report.GroupByPage | create_google_doc.py:158-163 | the loop's dict has a key per distinct url (missing counts as "Unknown Page") in first-occurrence order, and each key's list is that page's records in their original order |
| Report.GroupingFacts | create_google_doc.py:158-167 | the pages have no repeats and cover every record; each group holds only records of its page; each group has as many records as its url occurs; the group sizes add up to `len(issues)` |
| Report.PagesCover | create_google_doc.py:158-166 | every record's url is one of the grouped pages, and no page is listed twice |
| Document.SeverityEmoji | create_google_doc.py:198-204 | each of the four levels gets its own symbol, a missing severity gets the "low" symbol, and the white circle is given exactly to a severity outside the four levels |
| Document.IssueNumbered | create_google_doc.py:207-208 | the number a reader finds after "Issue #" is the number the block was given |
| Document.MissingSeverity | create_google_doc.py:204-210 | a record without a severity is counted and shown as "low" but its text says "Severity: UNKNOWN" |
| Document.SectionNumbering | create_google_doc.py:189-190 | the k-th issue of a page section is numbered k+1 and shows its own severity symbol |
| Document.AttentionFacts | create_google_doc.py:138-141 | the alert appears exactly when some issue is critical or high, and the number it states is the sum of the critical and high counts |
| Document.ReportDocument.constructor | create_google_doc.py:33 | a new document has an empty body |
| Document.ReportDocument.BuildHeader | create_google_doc.py:58-92 | the header with the generation date, the store and the issue count is appended to the body |
| Document.ReportDocument.BuildSummary | create_google_doc.py:94-153 | when the summary does not raise, its text (the severity, device and top-category lines and the attention alert) is appended; when it raises, the body is unchanged and the error names the key |
| Document.ReportDocument.AddSingleIssue | create_google_doc.py:192-245 | the issue's numbered text and the separator are appended |
| Document.ReportDocument.AddPageSection | create_google_doc.py:169-190 | the page header with the issue count is appended, then each issue numbered from 1 |
| Document.ReportDocument.AddIssuesWithScreenshots | create_google_doc.py:155-167 | one page section per distinct url, in first-occurrence order, each holding that page's records |
| Document.CreateReport | create_google_doc.py:29-56 | a fresh document ends with the header, then the summary and the page sections; when the summary raises it holds only the header and the error is returned |
| Pipeline.ReportAccepts | create_google_doc.py:105-109 | a list written by the QA run, whose devices are all desktop or mobile, never makes the summary raise |
| Pipeline.ReportSeverities | create_google_doc.py:106 | the report's severity counts of a list the run wrote equal the run's own tally (shopify_qa.py:549-552) |
| Pipeline.ReportUrgent | create_google_doc.py:138 | the report's attention count is the number of critical and high issues the run logged |
| Pipeline.CampaignDevices | shopify_qa.py:524-532 | every issue of a whole run from a fresh collector is on desktop or mobile |
| Pipeline.RecordsAccepted | shopify_qa.py:538-539 | every JSON record the run writes passes the summary's key checks |
| Pipeline.SeverityColumnOccurs | shopify_qa.py:538-539 | each severity appears in the written records' severity column as often as the run logged it |
| UrlFile.UrlLinesClean | shopify_qa.py:575 | every url kept from `urls.txt` is non-empty, does not start with "#" and has no surrounding whitespace |
| UrlFile.UrlLinesSound | shopify_qa.py:575 | every url kept is the stripped form of some kept line |
| UrlFile.UrlLinesComplete | shopify_qa.py:575 | the stripped form of every non-blank, non-comment line is kept |
| UrlFile.SelectUrls | shopify_qa.py:570-582 | command-line urls win; otherwise the file's urls; no urls at all is the error exit |
| Ranking.SortFacts | create_google_doc.py:132 | the sort by count is in non-increasing order, is a permutation of its input, and keeps entries of equal count in input order (Python's sort is stable, also with `reverse=True`) |
| Ranking.InsertStable | create_google_doc.py:132 | inserting into a sorted list puts the entry after those of equal count and leaves every other count's entries in order |
| Ranking.TopFacts | create_google_doc.py:132 | `[:5]` of the sorted list has min(5, n) entries, stays sorted, is drawn from the input, and no entry cut off has a larger count than one kept |
| Counting.DistinctFacts | create_google_doc.py:158-166 | the distinct values of a column hold each value once, hold exactly the values of the column, and follow the order of first occurrence, as a dict's keys do |
| Counting.TalliedFacts | create_google_doc.py:107-108 | the `dict.get(k, 0) + 1` loop has the distinct values as keys, each with its number of occurrences, and the counts add up to the column's length |
| Text.NatToStringRoundTrip | shopify_qa.py:80 | reading back the digits `str(n)` writes gives n |
| Text.Pad3 | shopify_qa.py:483 | `{n:03d}` is at least three digits and reads back as n |
| Text.ContainsIff | shopify_qa.py:387 | the `in` test holds exactly when the pattern occurs at some position |
| Text.Lower | shopify_qa.py:387 | `lower()` maps each character to its lower-case form, keeping the length |
| Text.Upper | create_google_doc.py:210-211 | `upper()` maps each character to its upper-case form, keeping the length |
| Text.StripProperties | shopify_qa.py:575 | the result of `strip()` has no whitespace at either end, is a slice of the input, and stripping again changes nothing |

## Left out

- Playwright and asyncio are left out: launching the browser, contexts, viewports and user agents, `goto`, hover, click, scroll, the waits and the sleeps. The model replaces them with `Funnel.Observation`, the pages each selector loop sees.
- A raising `browser.launch` or `new_page`, outside the `try`, is not modelled; the model starts each session at the `try`.
- The label lookup for the seat radio (shopify_qa.py:129-143) is JavaScript DOM introspection. It is modelled only as the hover that may raise.
- `is_enabled()` raising is treated like `is_visible()` raising: the candidate is skipped.
- The `url_part` computed in `take_screenshot` (shopify_qa.py:481) is never used; it is not modelled.
- `datetime.now()` and the screenshot file writes are modelled by the `Env` parameter; the timestamp strings are opaque.
- Printing, including the emoji `log_issue` prints, is left out.
- JSON writing and reading are a fixed mapping from an issue to a `map<string, string>`. A screenshot of None, written as JSON null, is an absent key, which the modelled report never reads.
- `lower()`, `upper()` and `strip()` are modelled for ASCII letters and ASCII whitespace only.
- The Google Docs and Drive calls are left out: credentials, `documents().create/get/batchUpdate`, the `endIndex` arithmetic, the title's date, the heading style of the title, sharing, and `google_doc_url.txt`. The document is the string its body accumulates, with every insertion at the end.
- `_insert_screenshot` (create_google_doc.py:247-300) uploads to Drive and inserts an inline image; an image is not text, so the model's body holds the issue text followed directly by the separator.
- `main` of create_google_doc.py (303-344) is left out: file checks, exit codes, and the `urlparse` store-URL derivation (332-334). The store string is a parameter of `BuildHeader`.
- ShopifyQA.EnhancedShopifyQA.RunTests: `world` maps a url's position and device to the session's observation, so two sessions of the same url may observe different pages; the object's `screenshot_dir` is not modelled.

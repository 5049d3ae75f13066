# Sitemap crawler: a Dafny model

This project models the core of a small Go sitemap crawler (`main.go`). Starting from the URL of a
sitemap index, the crawler fetches each sitemap document and reads its `<loc>` entries. Entries
whose text contains `sitemap` are sitemap files to expand further. Every other entry is a page to
crawl. Once the expansion is done, each non-empty page URL is fetched and its SEO record is
extracted: URL, the text of its `title` and `h1` elements, meta description and status code
(the extraction is an oracle whose fields the model does not fix). The crawler returns the
records.

The model is split into modules:

- `Classifier` is `isSitemap`: a loop that splits a URL list into sitemap files and pages. The
  specification is two filters, `Sitemaps` and `Pages`. Lemmas prove that they partition the
  input, preserve its order, its elements and their multiplicity, and are idempotent.
- `Expander` is `extractSiteMapURLs` as a sequential state machine. It has the counter `n`, the
  queue of sent batches, the spawned tasks not yet run, and the growing `toCrawl` list.
  - Every spawned task runs as one atomic step, in spawn order, when the dispatcher waits for a
    batch and none is queued. This is one of the interleavings the Go scheduler allows.
  - The document a fetch returns is the parameter `children`.
  - Termination needs the sitemap graph reachable from the start URL to be acyclic. This is a
    ghost ranking `rank` of a ghost set of documents `live`. The set holds the start URL, and
    every sitemap URL a live document lists is live and ranks below that document
    (`LiveRanked`). Documents outside `live` are never fetched, so what they list does not
    matter. The documents reachable from the start form such a set exactly when their graph is
    ranked (`ReachableIsLive`, `WellFoundedFrom`).
  - The method is proved to reach `n == 0` and to return the queue-order traversal
    `QueueOrderPages` of the documents restricted to `live`. That traversal is a permutation of
    the depth-first specification `ExpectedPages`. Its elements are exactly the non-sitemap
    entries of the documents reachable from the start URL.
- `Scraper` is `scrapeURLs` and `scrapePage`. A page's fetch and parse are the oracles
  `crawlPage`/`getSeoData`, or a single `scrape` oracle. The module has two parts:
  - `ScrapeUrls` models the code as written. There, a failing task sends two completion batches.
  - `ScrapeUrlsFixed` models the evidently intended code (see Findings).
- `UserAgents` is the pool of twelve client identities and `randomUserAgent`. The random draw is a
  parameter.
- `Pipeline` is `ScrapeSiteMap`: expansion followed by the corrected scraper.

## Model

| member | source | states |
|---|---|---|
| Classifier.Contains | main.go:52 | `strings.Contains(url, "sitemap")`: true exactly when the marker occurs at some position of the URL |
| Classifier.IsSitemap | main.go:47-61 | the two lists returned are the sitemap-file filter and the page filter of the input |
| Classifier.PartitionAppend | main.go:51-58 | classifying a concatenation is concatenating the classifications, so the loop can consume its input one URL at a time |
| Classifier.PartitionMultiset | main.go:47-61 | the two outputs together hold every input URL exactly as often as the input does (no drop, no dedup); their lengths sum to the input length |
| Classifier.PartitionMembership | main.go:51-58 | a URL is among the sitemap files iff it is an input URL containing the marker, and among the pages iff it is an input URL lacking it |
| Classifier.PartitionOrder | main.go:51-58 | each output is a subsequence of the input: input order is kept |
| Classifier.ClassifyPagesIdempotent | main.go:47-61 | reclassifying the pages yields no sitemap file and the same pages |
| Classifier.ClassifySitemapsIdempotent | main.go:47-61 | reclassifying the sitemap files yields the same sitemap files and no page |
| Expander.ExpansionTask | main.go:74-93 | one spawned task sends exactly the sitemap part of its document as one batch, and appends the page part to the result in order |
| Expander.Dispatch | main.go:72-94 | receiving a batch spawns one task per listed link, in list order, and raises the counter by the batch length |
| Expander.RunOldestTask | main.go:74-93 | running the oldest waiting task keeps the collected-plus-remaining pages unchanged and shrinks the remaining traversal |
| Expander.Receive | main.go:71 | one receive takes the oldest queued batch, running a waiting task first when none is queued; spawned-plus-unreceived work drops by one |
| Expander.ExtractSiteMapUrls | main.go:63-98 | for any ranked live set holding the start URL, the loop ends with no batch outstanding (`n == 0`); a URL is in the result iff it is a non-sitemap entry of a document reachable from the start URL; the result is the queue-order traversal, a permutation of the depth-first one |
| Expander.LiveStep | main.go:85-88 | running a live task leaves only live URLs spawned or queued |
| Expander.AgreesAt | main.go:75-80 | the oldest spawned task is live, so the document it fetches is the one the restricted graph lists |
| Expander.ReachableSnoc | main.go:85-88 | a sitemap URL listed by a reachable document is reachable |
| Expander.ReachableIsLive | main.go:70-95 | the documents reachable from the start form a live set holding it iff their graph is ranked, so the method applies to every start URL whose reachable sitemap graph is ranked, whatever the rest of the graph lists |
| Expander.ChainLive | main.go:85-88 | every document on a sitemap chain from a live document is live |
| Expander.RestrictedChain | main.go:85-88 | a sitemap chain through the restricted graph is a chain through the documents |
| Expander.ChainRestricted | main.go:85-88 | a sitemap chain from a live document is a chain through the restricted graph |
| Expander.RestrictWellFounded | main.go:70-95 | the restricted graph is ranked everywhere once the live set is ranked |
| Expander.ExpectedPagesReachable | main.go:63-98 | the traversal of the restricted graph holds a URL iff it is a non-sitemap entry of a document reachable from the start |
| Expander.CollectedExactly | main.go:90-92 | any permutation of that traversal holds exactly the pages reachable from the start |
| Expander.UnreachableCycleAllowed | main.go:70-95 | a sitemap document that lists itself but is unreachable from the start: no ranking orders the whole graph, yet the reachable part is ranked and holds no page |
| Expander.MaxRank | main.go:72 | the largest rank in a batch bounds every element's rank and belongs to some element |
| Expander.RankDrops | main.go:85-88 | every sitemap file a document lists ranks below it, so expansion terminates on an acyclic sitemap graph |
| Expander.VisitsAllAppend | main.go:72-94 | traversing two lists of links, one after the other, is traversing their concatenation |
| Expander.PagesOfAppend | main.go:90-92 | pages collected from two document lists, one after the other, are the pages of their concatenation |
| Expander.FrontierStep | main.go:72-95 | running the oldest task replaces it by its sitemap children at the back of the frontier; the traversal shrinks and the same documents remain to be visited |
| Expander.QueueOrderPermutation | main.go:70-95 | spawn-order execution collects the same multiset of pages as the depth-first traversal |
| Expander.VisitsAllContains | main.go:72-94 | a document visited from one link of a batch is visited by the batch |
| Expander.VisitsComplete | main.go:70-95 | completeness: the end of every sitemap chain from the start URL is visited |
| Expander.ReachableCons | main.go:85-88 | a document reachable from a listed sitemap file is reachable from the listing document |
| Expander.VisitsSound | main.go:70-95 | soundness: every visited document is reachable through sitemap files |
| Expander.VisitsAllSound | main.go:72-94 | every document a batch visits is reachable from one of its links |
| Expander.PagesOfMembership | main.go:90-92 | a URL is collected iff it is a page entry of a visited document |
| Expander.ExpectedPagesExactly | main.go:63-98 | a URL is collected iff it is a non-sitemap entry of some document reachable from the start URL (both directions) |
| Scraper.ScrapePage | main.go:171-183 | a record comes back only when the fetch succeeds, and it is then exactly what the parser returns; a failed fetch or parse yields none |
| Scraper.NonEmptyMembership | main.go:129-131 | a URL gets a scraping task iff it is listed and non-empty |
| Scraper.DispatchNonEmpty | main.go:129-131 | a received batch spawns a task for each non-empty URL only, in order, and raises the counter by that number |
| Scraper.ScrapeTask | main.go:132-142 | as written, a task sends two empty batches when scraping fails and one otherwise, and appends its record, or `SeoData{}` on failure |
| Scraper.ProducedGrows | main.go:132-142 | each task sends at least one and at most two completion batches |
| Scraper.ProducedExact | main.go:132-142 | the tasks so far sent exactly one batch each iff none of them failed |
| Scraper.FirstCovering | main.go:127 | the dispatcher's stopping point: the first task count whose batches cover the counter; it is the least such count |
| Scraper.StoppingPointUnique | main.go:127 | the stopping rule admits only one task count |
| Scraper.RecordsAt | main.go:140 | as written, the i-th appended record is the i-th task's record or `SeoData{}` |
| Scraper.ReceiveCompletion | main.go:128 | one receive in the as-written loop: it runs waiting tasks until a batch is queued, then takes an empty completion batch |
| Scraper.ScrapeUrls | main.go:119-148 | as written, the result is the records of exactly the tasks run before the counter reached zero; the batches sent by those tasks and never received are the surplus sends |
| Scraper.AsWrittenAllSucceed | main.go:119-148 | when every scrape succeeds, the as-written result has one record per non-empty URL, in order |
| Scraper.AsWrittenRunsAllIff | main.go:127-145 | as written, with tasks running in spawn order, every spawned task runs before the loop exits iff none but possibly the last one fails |
| Scraper.AsWrittenLeavesAtMostOne | main.go:137-141 | as written, of the batches sent by the tasks run before the loop exits, at most one is never received |
| Scraper.AsWrittenLosesSecondPage | main.go:135-141 | as written, when the first of two pages fails, the result is `[SeoData{}]`, with no record of the second page |
| Scraper.AsWrittenCounterexample | main.go:135-141 | a concrete instance: pages "a" (fails) and "b" (would succeed) give `[SeoData{}]` |
| Scraper.SuccessesMembership | main.go:132-142 | corrected: a record is in the result iff some non-empty URL's scrape yields it |
| Scraper.SuccessesAllSucceed | main.go:119-148 | corrected: when every scrape succeeds, there is one record per URL, in order |
| Scraper.ScrapeTaskFixed | main.go:132-142 | corrected task: one completion batch always, and a record only on success |
| Scraper.ScrapeUrlsFixed | main.go:119-148 | corrected: the loop ends with no batch outstanding, and the result is the successful records of each non-empty URL in order |
| UserAgents.RandomUserAgent | main.go:43-45 | the drawn identity belongs to the pool declared at main.go:28-41 and is non-empty |
| UserAgents.EachAgentDrawnOnce | main.go:28-45 | every identity of the pool is drawn by exactly one index |
| Pipeline.ScrapedRecords | main.go:214-215 | scraping the expanded pages yields exactly the records of its non-empty pages whose scrape succeeds |
| Pipeline.ScrapeSiteMap | main.go:213-217 | with the corrected scraper, whenever the sitemap graph reachable from the start URL is ranked, the crawl list handed to the scraper is, as a multiset, the page list the expansion specifies (each page once per listing), the result is exactly the successful scrapes of its non-empty entries in list order, and so a record is returned iff it is the scrape of some non-empty page reachable from the start URL |

## Left out

- `makeRequest` and `crawlPage`: HTTP I/O. Their outcome is the oracle `crawlPage` (or the document
  oracle `children`).
  - When building the request fails, `req` is nil, and setting its header at main.go:106 panics
    before the error is checked. This happens in expansion tasks and scrape tasks alike. The
    model treats that case as a graceful failure: `None` from `crawlPage`, or an empty document
    from `children`.
- `extractURLs` and `getSEOData`: HTML/XML parsing. They are the oracles `children` and `getSeoData`.
  - An expansion task whose fetch fails goes on parsing a nil response, and Go panics there. The
    model's `children` oracle is total, so it models a failed fetch as a document with no entries.
- The token channel that bounds concurrent fetches, and the `concurrency` parameter. For
  `concurrency >= 1` they affect throughput only. Two other cases are not modelled:
  - a negative `concurrency` makes channel creation at main.go:120 panic;
  - with `concurrency == 0`, every task blocks on the unbuffered token channel at main.go:186,
    and the dispatcher deadlocks.
- Goroutines, channels and data races. The model runs one legal schedule.
  - The unsynchronised appends to `toCrawl` and `results` are modelled as if atomic.
  - An expansion task appends its pages after sending its batch. Under other schedules, pages
    appended after the last receive can be lost when `extractSiteMapURLs` returns. The model runs
    each task to completion.
- `rand.Intn`: it is the parameter `draw`. Logging and `main` are also left out.
- Cycles and infinite chains in the sitemap graph reachable from the start URL. On those the
  source never terminates, so `ExtractSiteMapUrls` requires a ranking of the reachable part only.
  Cycles no path from the start reaches are allowed (`UnreachableCycleAllowed`).
- Scraper.ScrapeUrls: the model's run leaves out the tasks that have not run when the loop
  exits. In Go they still run, append their records after `scrapeURLs` has returned, and block
  on their sends.
- Expander.ExtractSiteMapUrls: result equality is stated against the spawn-order traversal, and
  only as a permutation against the depth-first `ExpectedPages`. Other schedules give other orders.
- Pipeline.ScrapeSiteMap: it composes the expander with the corrected scraper `ScrapeUrlsFixed`;
  `Scraper.ScrapeUrls` covers the as-written scraper.

## Findings

| source | as written | input that shows it | evidently intended | confidence | as-written member | corrected member |
|---|---|---|---|---|---|---|
| main.go:135-141 | after a failed scrape the task sends an empty batch, and there is no `return`: it also appends `SeoData{}` and sends a second batch, so the counter drops by two for one task | two non-empty URLs whose first scrape fails: with tasks run in spawn order, the failed task's second send is the batch that ends the loop, before the second task has run. The result is `[SeoData{}]`, with no record of the second URL. That task still runs later, but its record is appended after the function has returned and its send blocks forever | return right after the error send, so each task sends exactly one batch and only successful records are appended | not executed | Scraper.AsWrittenLosesSecondPage | Scraper.ScrapeUrlsFixed |

/** `ScrapeSiteMap`: expand the sitemap index from `url`, then scrape every page found. */
module Pipeline {

  import opened Options
  import opened Classifier
  import opened Expander
  import opened Scraper

  /** Scraping `crawled` yields exactly the records of its non-empty URLs whose scrape succeeds. */
  lemma {:induction false} ScrapedRecords(scrape: Url -> Option<SeoData>, crawled: seq<Url>, d: SeoData)
    ensures d in Successes(scrape, NonEmpty(crawled)) <==>
            exists p :: p in crawled && p != "" && scrape(p) == Some(d)
  {
    SuccessesMembership(scrape, NonEmpty(crawled), d);
    forall p ensures p in NonEmpty(crawled) <==> p in crawled && p != "" {
      NonEmptyMembership(crawled, p);
    }
  }

  /**
    Composition of the two stages. The scraping stage is the corrected one (see Scraper), and the
    fetch and extraction of one page are `crawlPage` and the parser's `getSeoData`. The ranking
    is needed only on the sitemap graph reachable from `url`.
   */
  method ScrapeSiteMap<R>(url: Url, children: Url -> seq<Url>, ghost rank: Url -> nat,
                          crawlPage: Url -> Option<R>, getSeoData: R -> Option<SeoData>)
    returns (res: seq<SeoData>, ghost pages: seq<Url>)
    requires WellFoundedFrom(children, rank, url)
    ensures WellFounded(Restrict(children, ReachableFrom(children, url)), rank)
    ensures multiset(pages) == multiset(ExpectedPages(Restrict(children, ReachableFrom(children, url)), rank, url))
    ensures res == Successes((u: Url) => ScrapePage(u, crawlPage, getSeoData), NonEmpty(pages))
    ensures forall d :: d in res <==>
              exists p :: ReachablePage(children, url, p) && p != ""
                          && ScrapePage(p, crawlPage, getSeoData) == Some(d)
  {
    ReachableIsLive(children, rank, url);
    var results;
    ghost var outstanding;
    results, outstanding := ExtractSiteMapUrls(url, children, rank, ReachableFrom(children, url));
    pages := results;
    var scrape := (u: Url) => ScrapePage(u, crawlPage, getSeoData);
    res, outstanding := ScrapeUrlsFixed(results, scrape);
    forall d
      ensures d in res <==>
              exists p :: ReachablePage(children, url, p) && p != ""
                          && ScrapePage(p, crawlPage, getSeoData) == Some(d)
    {
      ScrapedRecords(scrape, results, d);
    }
  }
}

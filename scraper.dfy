/**
  The bounded scraper `scrapeURLs` of main.go, run sequentially with the same schedule as the
  expander: a spawned task runs, as one atomic step, when the dispatcher waits for a batch and
  none is queued. The fetch-and-extract pipeline `scrapePage` is the oracle `scrape`, which
  yields a record or fails. The token pool that bounds concurrent fetches is not modelled.

  As written, a failing task sends two completion batches and still appends `SeoData{}`, so the
  dispatcher can count a spawned task as completed before it has run. A task that has not run
  when the loop exits is left out of the model's run; in Go it still runs, but its record is
  appended after `scrapeURLs` has returned and its send blocks forever. `ScrapeUrls` models that
  code; `ScrapeUrlsFixed` models the evidently intended code, where a failing task sends
  one batch and contributes no record.
 */
module Scraper {

  import opened Options
  import opened Classifier

  /** The record extracted from one page. */
  datatype SeoData = SeoData(url: string, title: string, h1: string, metaDescription: string, statusCode: int)

  /** `SeoData{}`, the zero record. */
  const ZeroSeoData: SeoData := SeoData("", "", "", "", 0)

  /**
    `scrapePage`: fetch the page through the token gate, then extract its record; a failure of
    either step yields no record (the source returns `SeoData{}` with the error).
   */
  function ScrapePage<R>(url: Url, crawlPage: Url -> Option<R>, getSeoData: R -> Option<SeoData>): (r: Option<SeoData>)
    ensures r.Some? ==> crawlPage(url).Some? && r == getSeoData(crawlPage(url).value)
    ensures crawlPage(url).Some? ==> r == getSeoData(crawlPage(url).value)
  {
    match crawlPage(url)
    case None => None
    case Some(res) => getSeoData(res)
  }

  /** The value `scrapePage` hands back to the task: the record, or `SeoData{}` on failure. */
  function Record(outcome: Option<SeoData>): SeoData
  {
    match outcome
    case Some(data) => data
    case None => ZeroSeoData
  }

  /** The URLs the dispatcher spawns a task for: the non-empty ones, in order. */
  function NonEmpty(urls: seq<Url>): seq<Url>
  {
    if urls == [] then []
    else
      var last := urls[|urls| - 1];
      NonEmpty(urls[..|urls| - 1]) + (if last != "" then [last] else [])
  }

  lemma {:induction false} NonEmptyMembership(urls: seq<Url>, u: Url)
    ensures u in NonEmpty(urls) <==> u in urls && u != ""
  {
    if urls != [] {
      NonEmptyMembership(urls[..|urls| - 1], u);
      assert urls == urls[..|urls| - 1] + [urls[|urls| - 1]];
    }
  }

  /** The dispatcher's inner loop: one task spawned, and counted, per non-empty URL of the batch. */
  method DispatchNonEmpty(list: seq<Url>, pending: seq<Url>, n: int) returns (spawned: seq<Url>, n': int)
    ensures spawned == pending + NonEmpty(list)
    ensures n' == n + |NonEmpty(list)|
  {
    spawned, n' := pending, n;
    for i := 0 to |list|
      invariant spawned == pending + NonEmpty(list[..i])
      invariant n' == n + |NonEmpty(list[..i])|
    {
      assert list[..i + 1][..i] == list[..i];
      if list[i] != "" {
        n' := n' + 1;
        spawned := spawned + [list[i]];
      }
    }
    assert list[..|list|] == list;
  }

  // ---------------------------------------------------------------------------------------
  // The scraper as written.

  /** The batches a task sends as written: two when scraping fails, one otherwise. */
  function Sends(outcome: Option<SeoData>): nat
  {
    if outcome.None? then 2 else 1
  }

  /** The completion batches sent by the first `j` tasks of `us`. */
  function Produced(scrape: Url -> Option<SeoData>, us: seq<Url>, j: nat): nat
    requires j <= |us|
  {
    if j == 0 then 0 else Produced(scrape, us, j - 1) + Sends(scrape(us[j - 1]))
  }

  /** Each task sends at least one batch and at most two. */
  lemma {:induction false} ProducedGrows(scrape: Url -> Option<SeoData>, us: seq<Url>, i: nat, j: nat)
    requires i <= j <= |us|
    ensures Produced(scrape, us, i) + (j - i) <= Produced(scrape, us, j) <= Produced(scrape, us, i) + 2 * (j - i)
    decreases j
  {
    if i < j {
      ProducedGrows(scrape, us, i, j - 1);
    }
  }

  /** Exactly one batch per task so far exactly when none of those tasks failed. */
  lemma {:induction false} ProducedExact(scrape: Url -> Option<SeoData>, us: seq<Url>, j: nat)
    requires j <= |us|
    ensures Produced(scrape, us, j) == j <==> forall i :: 0 <= i < j ==> scrape(us[i]).Some?
  {
    if j > 0 {
      ProducedExact(scrape, us, j - 1);
      ProducedGrows(scrape, us, 0, j - 1);
    }
  }

  /** The first `m >= j` whose tasks have sent at least `need` batches (or all of `us`). */
  function FirstCovering(scrape: Url -> Option<SeoData>, us: seq<Url>, need: nat, j: nat): (m: nat)
    requires j <= |us|
    ensures j <= m <= |us|
    ensures m == |us| || Produced(scrape, us, m) >= need
    ensures forall i :: j <= i < m ==> Produced(scrape, us, i) < need
    decreases |us| - j
  {
    if j == |us| || Produced(scrape, us, j) >= need then j else FirstCovering(scrape, us, need, j + 1)
  }

  /**
    The number of tasks the dispatcher has run when its counter reaches zero: it expects one
    batch per spawned task and stops as soon as the tasks run so far have sent that many.
   */
  function TasksRun(scrape: Url -> Option<SeoData>, urls: seq<Url>): nat
  {
    var ne := NonEmpty(urls);
    FirstCovering(scrape, ne, |ne|, 0)
  }

  /** `TasksRun` is the only task count that the stopping rule admits. */
  lemma StoppingPointUnique(scrape: Url -> Option<SeoData>, us: seq<Url>, need: nat, j: nat)
    requires j <= |us| && need <= |us|
    requires Produced(scrape, us, j) >= need
    requires j == 0 || Produced(scrape, us, j - 1) < need
    ensures j == FirstCovering(scrape, us, need, 0)
  {
    var m := FirstCovering(scrape, us, need, 0);
    if m < j {
      ProducedGrows(scrape, us, m, j - 1);
    }
  }

  /** The records of the tasks `us`, in order, each as the task appends it. */
  function Records(scrape: Url -> Option<SeoData>, us: seq<Url>): seq<SeoData>
  {
    if us == [] then []
    else Records(scrape, us[..|us| - 1]) + [Record(scrape(us[|us| - 1]))]
  }

  lemma {:induction false} RecordsAt(scrape: Url -> Option<SeoData>, us: seq<Url>)
    ensures |Records(scrape, us)| == |us|
    ensures forall i :: 0 <= i < |us| ==> Records(scrape, us)[i] == Record(scrape(us[i]))
  {
    if us != [] {
      RecordsAt(scrape, us[..|us| - 1]);
    }
  }

  /** The records `scrapeURLs` returns as written: those of the first `TasksRun` tasks. */
  function AsWrittenResults(scrape: Url -> Option<SeoData>, urls: seq<Url>): seq<SeoData>
  {
    var ne := NonEmpty(urls);
    Records(scrape, ne[..TasksRun(scrape, urls)])
  }

  /** One scraping task as written: a failure sends a batch, appends `SeoData{}` and sends another. */
  method ScrapeTask(url: Url, scrape: Url -> Option<SeoData>, results: seq<SeoData>)
    returns (sent: seq<seq<Url>>, results': seq<SeoData>)
    ensures |sent| == Sends(scrape(url)) && forall i :: 0 <= i < |sent| ==> sent[i] == []
    ensures results' == results + [Record(scrape(url))]
  {
    var res := scrape(url);
    sent := [];
    if res.None? {
      sent := sent + [[]];
    }
    results' := results + [Record(res)];
    sent := sent + [[]];
  }

  /** The dispatcher has stopped at the right place: what has been sent covers `r` receipts, exactly. */
  ghost predicate StoppedAt(scrape: Url -> Option<SeoData>, us: seq<Url>, ran: nat, r: nat)
    requires ran <= |us|
  {
    Produced(scrape, us, ran) >= r && (ran == 0 || Produced(scrape, us, ran - 1) < r)
  }

  /**
    The dispatcher takes one completion batch off the channel, `r` having been received
    before. When none is queued it waits, and the oldest spawned task runs first.
   */
  method ReceiveCompletion(scrape: Url -> Option<SeoData>, ghost ne: seq<Url>, pending: seq<Url>,
                           worklist: seq<seq<Url>>, results: seq<SeoData>, ghost ran: nat, ghost r: nat)
    returns (pending': seq<Url>, list: seq<Url>, worklist': seq<seq<Url>>, results': seq<SeoData>,
             ghost ran': nat)
    requires r < |ne| && ran <= |ne| && pending == ne[ran..] && results == Records(scrape, ne[..ran])
    requires |worklist| + r == Produced(scrape, ne, ran)
    requires forall i :: 0 <= i < |worklist| ==> worklist[i] == []
    requires StoppedAt(scrape, ne, ran, r)
    ensures ran' <= |ne| && pending' == ne[ran'..] && results' == Records(scrape, ne[..ran'])
    ensures |worklist'| + r + 1 == Produced(scrape, ne, ran')
    ensures list == [] && forall i :: 0 <= i < |worklist'| ==> worklist'[i] == []
    ensures StoppedAt(scrape, ne, ran', r + 1)
  {
    pending', results', ran' := pending, results, ran;
    var queue := worklist;
    if queue == [] {
      ProducedGrows(scrape, ne, 0, |ne|);
      var url := pending[0];
      pending' := pending[1..];
      var sent;
      sent, results' := ScrapeTask(url, scrape, results);
      queue := queue + sent;
      assert ne[..ran + 1][..ran] == ne[..ran];
      ran' := ran + 1;
    }
    list := queue[0];
    worklist' := queue[1..];
  }

  /**
    `scrapeURLs` as written. The loop's first round, which receives the seed batch `urls` and
    spawns its tasks, is written out before the loop.
   */
  method ScrapeUrls(urls: seq<Url>, scrape: Url -> Option<SeoData>)
    returns (results: seq<SeoData>, ghost unreceived: nat)
    ensures results == AsWrittenResults(scrape, urls)
    ensures unreceived == Produced(scrape, NonEmpty(urls), TasksRun(scrape, urls)) - |NonEmpty(urls)|
  {
    ghost var ne := NonEmpty(urls);
    ghost var k := |ne|;
    results := [];
    var n := 1;
    var worklist: seq<seq<Url>> := [urls];
    var pending: seq<Url> := [];
    // First round: receive the seed batch and spawn a task per non-empty URL.
    var list := worklist[0];
    worklist := worklist[1..];
    pending, n := DispatchNonEmpty(list, pending, n);
    n := n - 1;
    ghost var ran: nat, r: nat := 0, 0;
    assert ne[..0] == [];
    while n > 0
      invariant 0 <= r <= k && n == k - r
      invariant ran <= k && pending == ne[ran..] && results == Records(scrape, ne[..ran])
      invariant |worklist| + r == Produced(scrape, ne, ran)
      invariant forall i :: 0 <= i < |worklist| ==> worklist[i] == []
      invariant StoppedAt(scrape, ne, ran, r)
      decreases n
    {
      pending, list, worklist, results, ran := ReceiveCompletion(scrape, ne, pending, worklist, results, ran, r);
      pending, n := DispatchNonEmpty(list, pending, n);
      assert NonEmpty(list) == [];
      n := n - 1;
      r := r + 1;
    }
    StoppingPointUnique(scrape, ne, k, ran);
    unreceived := |worklist|;
  }

  /** When every scrape succeeds, the source's result has exactly one record per non-empty URL, in order. */
  lemma AsWrittenAllSucceed(scrape: Url -> Option<SeoData>, urls: seq<Url>)
    requires forall u :: u in NonEmpty(urls) ==> scrape(u).Some?
    ensures |AsWrittenResults(scrape, urls)| == |NonEmpty(urls)|
    ensures forall i :: 0 <= i < |NonEmpty(urls)| ==> AsWrittenResults(scrape, urls)[i] == scrape(NonEmpty(urls)[i]).value
  {
    var ne := NonEmpty(urls);
    var k := |ne|;
    ProducedExact(scrape, ne, k);
    if k > 0 {
      ProducedExact(scrape, ne, k - 1);
      ProducedGrows(scrape, ne, 0, k - 1);
      StoppingPointUnique(scrape, ne, k, k);
    }
    assert ne[..k] == ne;
    RecordsAt(scrape, ne);
  }

  /**
    With tasks running in spawn order, every spawned task runs before the loop exits exactly
    when none but possibly the last one fails: the first failure among the others ends the loop
    before the last task has run.
   */
  lemma AsWrittenRunsAllIff(scrape: Url -> Option<SeoData>, urls: seq<Url>)
    ensures TasksRun(scrape, urls) == |NonEmpty(urls)|
            <==> forall i :: 0 <= i < |NonEmpty(urls)| - 1 ==> scrape(NonEmpty(urls)[i]).Some?
  {
    var ne := NonEmpty(urls);
    var k := |ne|;
    var m := TasksRun(scrape, urls);
    if k > 0 {
      ProducedExact(scrape, ne, k - 1);
      ProducedGrows(scrape, ne, 0, k - 1);
      if forall i :: 0 <= i < k - 1 ==> scrape(ne[i]).Some? {
        if m < k {
          ProducedGrows(scrape, ne, m, k - 1);
        }
      }
    }
  }

  /**
    Of the batches sent by the tasks run before the loop exits, at most one is never received.
    Each task still to run at that point also blocks on its send (not counted here).
   */
  lemma AsWrittenLeavesAtMostOne(scrape: Url -> Option<SeoData>, urls: seq<Url>)
    ensures var ne := NonEmpty(urls);
            |ne| <= Produced(scrape, ne, TasksRun(scrape, urls)) <= |ne| + 1
  {
    var ne := NonEmpty(urls);
    var m := TasksRun(scrape, urls);
    ProducedGrows(scrape, ne, 0, |ne|);
    if m > 0 {
      ProducedGrows(scrape, ne, m - 1, m);
    }
  }

  /**
    The discrepancy: when the first of two pages fails to scrape, its two sends end the loop
    before the second task has run, and the result holds `SeoData{}` and no record of the
    second page.
   */
  lemma AsWrittenLosesSecondPage(scrape: Url -> Option<SeoData>, first: Url, second: Url)
    requires first != "" && second != "" && scrape(first).None?
    ensures AsWrittenResults(scrape, [first, second]) == [ZeroSeoData]
  {
    var urls := [first, second];
    assert urls[..1] == [first] && urls[..1][..0] == [];
    assert NonEmpty([first]) == [first];
    assert NonEmpty(urls) == urls;
    assert Produced(scrape, urls, 1) == 2;
    StoppingPointUnique(scrape, urls, 2, 1);
    assert Records(scrape, urls[..1]) == [ZeroSeoData];
  }

  /** A concrete instance: the record of the second page is missing although its scrape succeeds. */
  lemma AsWrittenCounterexample()
    ensures var scrape := (u: Url) => if u == "a" then None else Some(SeoData(u, "", "", "", 200));
            AsWrittenResults(scrape, ["a", "b"]) == [ZeroSeoData] && scrape("b").Some?
  {
    var scrape := (u: Url) => if u == "a" then None else Some(SeoData(u, "", "", "", 200));
    AsWrittenLosesSecondPage(scrape, "a", "b");
  }

  // ---------------------------------------------------------------------------------------
  // The scraper as evidently intended: a failing task sends one batch and contributes nothing.

  /** The records of the tasks `us` that succeed, in order. */
  function Successes(scrape: Url -> Option<SeoData>, us: seq<Url>): seq<SeoData>
  {
    if us == [] then []
    else
      var last := us[|us| - 1];
      Successes(scrape, us[..|us| - 1]) + (if scrape(last).Some? then [scrape(last).value] else [])
  }

  /** A record is collected exactly when some task's scrape yields it: one failure costs only its own record. */
  lemma {:induction false} SuccessesMembership(scrape: Url -> Option<SeoData>, us: seq<Url>, d: SeoData)
    ensures d in Successes(scrape, us) <==> exists u :: u in us && scrape(u) == Some(d)
  {
    if us != [] {
      var init, last := us[..|us| - 1], us[|us| - 1];
      SuccessesMembership(scrape, init, d);
      assert us == init + [last];
      assert forall u :: u in us <==> u in init || u == last;
    }
  }

  /** When every scrape succeeds there is one record per task, each the task's own, in order. */
  lemma {:induction false} SuccessesAllSucceed(scrape: Url -> Option<SeoData>, us: seq<Url>)
    requires forall u :: u in us ==> scrape(u).Some?
    ensures |Successes(scrape, us)| == |us|
    ensures forall i :: 0 <= i < |us| ==> Successes(scrape, us)[i] == scrape(us[i]).value
  {
    if us != [] {
      var init := us[..|us| - 1];
      assert forall u :: u in init ==> u in us;
      SuccessesAllSucceed(scrape, init);
    }
  }

  /** One scraping task as intended: a single completion batch, and a record only on success. */
  method ScrapeTaskFixed(url: Url, scrape: Url -> Option<SeoData>, results: seq<SeoData>)
    returns (sent: seq<seq<Url>>, results': seq<SeoData>)
    ensures sent == [[]]
    ensures results' == results + (if scrape(url).Some? then [scrape(url).value] else [])
  {
    var res := scrape(url);
    if res.None? {
      sent := [[]];
      results' := results;
      return;
    }
    results' := results + [res.value];
    sent := [[]];
  }

  /**
    `scrapeURLs` with the missing `return` after the error send in place: the counter then
    equals the number of batches still to be received, every task runs, and the result holds
    exactly the successful records.
   */
  method ScrapeUrlsFixed(urls: seq<Url>, scrape: Url -> Option<SeoData>)
    returns (results: seq<SeoData>, ghost outstanding: int)
    ensures outstanding == 0
    ensures results == Successes(scrape, NonEmpty(urls))
  {
    ghost var ne := NonEmpty(urls);
    results := [];
    var n := 1;
    var worklist: seq<seq<Url>> := [urls];
    var pending: seq<Url> := [];
    // First round: receive the seed batch and spawn a task per non-empty URL.
    var list := worklist[0];
    worklist := worklist[1..];
    pending, n := DispatchNonEmpty(list, pending, n);
    n := n - 1;
    ghost var ran: nat := 0;
    assert ne[..0] == [];
    while n > 0
      invariant n == |pending| + |worklist|
      invariant worklist == [] && ran <= |ne|
      invariant pending == ne[ran..] && results == Successes(scrape, ne[..ran])
      decreases n
    {
      // The dispatcher waits on the channel: the oldest spawned task runs to completion.
      var url := pending[0];
      pending := pending[1..];
      var sent;
      sent, results := ScrapeTaskFixed(url, scrape, results);
      worklist := worklist + sent;
      assert ne[..ran + 1][..ran] == ne[..ran];
      ran := ran + 1;
      list := worklist[0];
      worklist := worklist[1..];
      pending, n := DispatchNonEmpty(list, pending, n);
      assert NonEmpty(list) == [];
      n := n - 1;
    }
    assert ne[..ran] == ne;
    outstanding := n;
  }
}

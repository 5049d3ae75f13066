/**
  The sitemap expander `extractSiteMapURLs` of main.go, run sequentially.

  The dispatcher keeps a counter `n` of batches it still expects, a queue of batches sent
  but not yet received, and the tasks it has spawned but that have not run yet. A task runs
  as one atomic step when the dispatcher waits for a batch and none is queued: it fetches
  its document (the oracle `children`), classifies the `<loc>` URLs, sends the sitemap part
  as one batch (always, as `isSitemap` never returns nil) and appends the page part to the
  result. The traversal specification assumes a ranked graph (`WellFounded`): every sitemap
  URL a document lists ranks strictly below the document. The method itself needs the ranking
  only on the part of the graph reachable from the start URL (`WellFoundedFrom`), and its
  specification is the traversal of the documents restricted to that part (`Restrict`).
 */
module Expander {

  import opened Classifier

  /** Every sitemap URL listed by a document ranks strictly below that document. */
  ghost predicate WellFounded(children: Url -> seq<Url>, rank: Url -> nat)
  {
    forall u, v :: v in Sitemaps(children(u)) ==> rank(v) < rank(u)
  }

  /** The largest rank of an element of `us` (0 for none). */
  ghost function MaxRank(rank: Url -> nat, us: seq<Url>): (m: nat)
    ensures forall i :: 0 <= i < |us| ==> rank(us[i]) <= m
    ensures us != [] ==> exists i :: 0 <= i < |us| && m == rank(us[i])
  {
    if us == [] then 0
    else
      var m := MaxRank(rank, us[1..]);
      assert forall i :: 1 <= i < |us| ==> us[i] == us[1..][i - 1];
      if rank(us[0]) >= m then rank(us[0]) else m
  }

  /** The sitemap URLs a document lists all rank below it. */
  lemma RankDrops(children: Url -> seq<Url>, rank: Url -> nat, u: Url)
    requires WellFounded(children, rank)
    requires Sitemaps(children(u)) != []
    ensures MaxRank(rank, Sitemaps(children(u))) < rank(u)
  {
    var s := Sitemaps(children(u));
    var i :| 0 <= i < |s| && MaxRank(rank, s) == rank(s[i]);
    assert s[i] in Sitemaps(children(u));
  }

  /** The URLs a traversal started at `u` runs a task for, in depth-first preorder. */
  ghost function Visits(children: Url -> seq<Url>, rank: Url -> nat, u: Url): seq<Url>
    requires WellFounded(children, rank)
    decreases rank(u), 0
  {
    var s := Sitemaps(children(u));
    [u] + if s == [] then [] else RankDrops(children, rank, u); VisitsAll(children, rank, s)
  }

  /** The visits of the traversals started at each of `us`, one after the other. */
  ghost function VisitsAll(children: Url -> seq<Url>, rank: Url -> nat, us: seq<Url>): seq<Url>
    requires WellFounded(children, rank)
    decreases MaxRank(rank, us), 1, |us|
  {
    if us == [] then [] else Visits(children, rank, us[0]) + VisitsAll(children, rank, us[1..])
  }

  /** The page parts of the documents `vs`, one after the other. */
  ghost function PagesOf(children: Url -> seq<Url>, vs: seq<Url>): seq<Url>
  {
    if vs == [] then [] else Pages(children(vs[0])) + PagesOf(children, vs[1..])
  }

  /** The pages collected by a traversal from `root`: the page part of every visited document. */
  ghost function ExpectedPages(children: Url -> seq<Url>, rank: Url -> nat, root: Url): seq<Url>
    requires WellFounded(children, rank)
  {
    PagesOf(children, Visits(children, rank, root))
  }

  /** The URLs of all queued batches, in queue order. */
  ghost function Flatten(batches: seq<seq<Url>>): seq<Url>
  {
    if batches == [] then [] else batches[0] + Flatten(batches[1..])
  }

  lemma {:induction false} VisitsAllAppend(children: Url -> seq<Url>, rank: Url -> nat, a: seq<Url>, b: seq<Url>)
    requires WellFounded(children, rank)
    ensures VisitsAll(children, rank, a + b) == VisitsAll(children, rank, a) + VisitsAll(children, rank, b)
  {
    if a == [] {
      assert a + b == b;
    } else {
      assert (a + b)[1..] == a[1..] + b;
      VisitsAllAppend(children, rank, a[1..], b);
    }
  }

  lemma {:induction false} PagesOfAppend(children: Url -> seq<Url>, a: seq<Url>, b: seq<Url>)
    ensures PagesOf(children, a + b) == PagesOf(children, a) + PagesOf(children, b)
  {
    if a == [] {
      assert a + b == b;
    } else {
      assert (a + b)[1..] == a[1..] + b;
      PagesOfAppend(children, a[1..], b);
    }
  }

  /**
    Running the task of `link`, the head of the frontier `[link] + rest`, leaves the frontier
    `rest + Sitemaps(children(link))` and takes exactly `link` off the outstanding visits.
   */
  lemma {:induction false} FrontierStep(children: Url -> seq<Url>, rank: Url -> nat, link: Url, rest: seq<Url>)
    requires WellFounded(children, rank)
    ensures VisitsAll(children, rank, [link] + rest)
            == [link] + VisitsAll(children, rank, Sitemaps(children(link))) + VisitsAll(children, rank, rest)
    ensures VisitsAll(children, rank, rest + Sitemaps(children(link)))
            == VisitsAll(children, rank, rest) + VisitsAll(children, rank, Sitemaps(children(link)))
  {
    assert ([link] + rest)[1..] == rest;
    VisitsAllAppend(children, rank, rest, Sitemaps(children(link)));
  }

  /**
    The pages the dispatcher collects from the frontier `frontier` (spawned tasks first, then the
    queued batches) when each task runs in spawn order: the queue-order counterpart of `ExpectedPages`.
   */
  ghost function QueueOrderPages(children: Url -> seq<Url>, rank: Url -> nat, frontier: seq<Url>): seq<Url>
    requires WellFounded(children, rank)
    decreases |VisitsAll(children, rank, frontier)|
  {
    if frontier == [] then []
    else
      var link, rest := frontier[0], frontier[1..];
      assert frontier == [link] + rest;
      FrontierStep(children, rank, link, rest);
      Pages(children(link)) + QueueOrderPages(children, rank, rest + Sitemaps(children(link)))
  }

  /** Queue order and depth-first order collect the same pages, each as often. */
  lemma {:induction false} QueueOrderPermutation(children: Url -> seq<Url>, rank: Url -> nat, frontier: seq<Url>)
    requires WellFounded(children, rank)
    ensures multiset(QueueOrderPages(children, rank, frontier))
            == multiset(PagesOf(children, VisitsAll(children, rank, frontier)))
    decreases |VisitsAll(children, rank, frontier)|
  {
    if frontier != [] {
      var link, rest := frontier[0], frontier[1..];
      var s := Sitemaps(children(link));
      assert frontier == [link] + rest;
      FrontierStep(children, rank, link, rest);
      QueueOrderPermutation(children, rank, rest + s);
      var vs, vr := VisitsAll(children, rank, s), VisitsAll(children, rank, rest);
      PagesOfAppend(children, vr, vs);
      PagesOfAppend(children, [link] + vs, vr);
      PagesOfAppend(children, [link], vs);
      assert PagesOf(children, [link]) == Pages(children(link)) by {
        assert [link][1..] == [];
      }
    }
  }

  /** `path` is a chain of documents, each listed as a sitemap URL by the one before it. */
  ghost predicate IsSitemapChain(children: Url -> seq<Url>, path: seq<Url>)
  {
    |path| > 0 && forall i :: 0 <= i < |path| - 1 ==> path[i + 1] in Sitemaps(children(path[i]))
  }

  /** `v` is reached from `root` by following sitemap URLs only. */
  ghost predicate Reachable(children: Url -> seq<Url>, root: Url, v: Url)
  {
    exists path :: IsSitemapChain(children, path) && path[0] == root && path[|path| - 1] == v
  }

  lemma {:induction false} VisitsAllContains(children: Url -> seq<Url>, rank: Url -> nat, us: seq<Url>, k: nat, x: Url)
    requires WellFounded(children, rank)
    requires k < |us| && x in Visits(children, rank, us[k])
    ensures x in VisitsAll(children, rank, us)
  {
    if k > 0 {
      VisitsAllContains(children, rank, us[1..], k - 1, x);
    }
  }

  /** Every document reachable from `root` through sitemap URLs is visited. */
  lemma {:induction false} VisitsComplete(children: Url -> seq<Url>, rank: Url -> nat, path: seq<Url>)
    requires WellFounded(children, rank)
    requires IsSitemapChain(children, path)
    ensures path[|path| - 1] in Visits(children, rank, path[0])
    decreases |path|
  {
    if |path| > 1 {
      var tail := path[1..];
      assert IsSitemapChain(children, tail) by {
        forall i | 0 <= i < |tail| - 1 ensures tail[i + 1] in Sitemaps(children(tail[i])) {
          assert tail[i + 1] == path[i + 2] && tail[i] == path[i + 1];
        }
      }
      VisitsComplete(children, rank, tail);
      var s := Sitemaps(children(path[0]));
      assert path[1] in s;
      var k :| 0 <= k < |s| && s[k] == path[1];
      VisitsAllContains(children, rank, s, k, path[|path| - 1]);
    }
  }

  /** A document listed as a sitemap URL by `u` passes on what it reaches to `u`. */
  lemma ReachableCons(children: Url -> seq<Url>, u: Url, w: Url, x: Url)
    requires w in Sitemaps(children(u)) && Reachable(children, w, x)
    ensures Reachable(children, u, x)
  {
    var q :| IsSitemapChain(children, q) && q[0] == w && q[|q| - 1] == x;
    var p := [u] + q;
    forall i | 0 <= i < |p| - 1 ensures p[i + 1] in Sitemaps(children(p[i])) {
      if i > 0 {
        assert p[i + 1] == q[i] && p[i] == q[i - 1];
      }
    }
    assert IsSitemapChain(children, p) && p[0] == u && p[|p| - 1] == x;
  }

  /** Every visited document is reachable from the start through sitemap URLs. */
  lemma {:induction false} VisitsSound(children: Url -> seq<Url>, rank: Url -> nat, u: Url, x: Url)
    requires WellFounded(children, rank)
    requires x in Visits(children, rank, u)
    ensures Reachable(children, u, x)
    decreases rank(u), 0
  {
    var s := Sitemaps(children(u));
    if x == u {
      assert IsSitemapChain(children, [u]);
    } else {
      assert s != [] && x in VisitsAll(children, rank, s);
      RankDrops(children, rank, u);
      var k := VisitsAllSound(children, rank, s, x);
      ReachableCons(children, u, s[k], x);
    }
  }

  lemma {:induction false} VisitsAllSound(children: Url -> seq<Url>, rank: Url -> nat, us: seq<Url>, x: Url)
    returns (k: nat)
    requires WellFounded(children, rank)
    requires x in VisitsAll(children, rank, us)
    ensures k < |us| && Reachable(children, us[k], x)
    decreases MaxRank(rank, us), 1, |us|
  {
    if x in Visits(children, rank, us[0]) {
      VisitsSound(children, rank, us[0], x);
      k := 0;
    } else {
      var k' := VisitsAllSound(children, rank, us[1..], x);
      k := k' + 1;
    }
  }

  lemma {:induction false} PagesOfMembership(children: Url -> seq<Url>, vs: seq<Url>, p: Url)
    ensures p in PagesOf(children, vs) <==> exists v :: v in vs && p in Pages(children(v))
  {
    if vs != [] {
      PagesOfMembership(children, vs[1..], p);
      assert forall v :: v in vs <==> v == vs[0] || v in vs[1..];
    }
  }

  /**
    Completeness and soundness of the traversal: a URL is collected exactly when it is a
    non-sitemap `<loc>` URL of some document reachable from `root` through sitemap URLs.
   */
  lemma ExpectedPagesExactly(children: Url -> seq<Url>, rank: Url -> nat, root: Url, p: Url)
    requires WellFounded(children, rank)
    ensures p in ExpectedPages(children, rank, root)
            <==> exists v :: Reachable(children, root, v) && p in children(v) && !IsSitemapUrl(p)
  {
    var visits := Visits(children, rank, root);
    PagesOfMembership(children, visits, p);
    if p in ExpectedPages(children, rank, root) {
      var v :| v in visits && p in Pages(children(v));
      VisitsSound(children, rank, root, v);
      PartitionMembership(children(v), p);
    }
    if exists v :: Reachable(children, root, v) && p in children(v) && !IsSitemapUrl(p) {
      var v :| Reachable(children, root, v) && p in children(v) && !IsSitemapUrl(p);
      var path :| IsSitemapChain(children, path) && path[0] == root && path[|path| - 1] == v;
      VisitsComplete(children, rank, path);
      PartitionMembership(children(v), p);
    }
  }

  // ---------------------------------------------------------------------------------------
  // The sitemap graph as seen from the start URL. Only documents the dispatcher can reach are
  // ever fetched, so only their edges need to be ranked. The method is stated for any set of
  // documents `live` that holds the start URL, is closed under listed sitemap URLs and is
  // ranked; the documents reachable from the start form such a set exactly when their graph
  // is ranked (`ReachableIsLive`).

  /** Every sitemap URL listed by a document reachable from `root` ranks strictly below that document. */
  ghost predicate WellFoundedFrom(children: Url -> seq<Url>, rank: Url -> nat, root: Url)
  {
    forall u, v :: Reachable(children, root, u) && v in Sitemaps(children(u)) ==> rank(v) < rank(u)
  }

  /** A live document lists only live sitemap URLs, each ranked strictly below it. */
  ghost predicate LiveRanked(children: Url -> seq<Url>, rank: Url -> nat, live: Url -> bool)
  {
    forall u, v :: live(u) && v in Sitemaps(children(u)) ==> live(v) && rank(v) < rank(u)
  }

  /** The documents reachable from `root`, as a predicate. */
  ghost function ReachableFrom(children: Url -> seq<Url>, root: Url): Url -> bool
  {
    u => Reachable(children, root, u)
  }

  /** The documents as seen through `live`: one that is not live lists nothing. */
  ghost function Restrict(children: Url -> seq<Url>, live: Url -> bool): Url -> seq<Url>
  {
    u => if live(u) then children(u) else []
  }

  /** All of `us` are live. */
  ghost predicate AllLive(live: Url -> bool, us: seq<Url>)
  {
    forall u :: u in us ==> live(u)
  }

  /** A sitemap URL listed by a reachable document is reachable. */
  lemma ReachableSnoc(children: Url -> seq<Url>, root: Url, u: Url, v: Url)
    requires Reachable(children, root, u) && v in Sitemaps(children(u))
    ensures Reachable(children, root, v)
  {
    var q :| IsSitemapChain(children, q) && q[0] == root && q[|q| - 1] == u;
    var p := q + [v];
    forall i | 0 <= i < |p| - 1 ensures p[i + 1] in Sitemaps(children(p[i])) {
      if i < |q| - 1 {
        assert p[i + 1] == q[i + 1] && p[i] == q[i];
      }
    }
    assert IsSitemapChain(children, p) && p[0] == root && p[|p| - 1] == v;
  }

  /** The documents reachable from `root` are a live set holding `root` exactly when their graph is ranked. */
  lemma ReachableIsLive(children: Url -> seq<Url>, rank: Url -> nat, root: Url)
    ensures ReachableFrom(children, root)(root)
    ensures WellFoundedFrom(children, rank, root) <==> LiveRanked(children, rank, ReachableFrom(children, root))
  {
    assert IsSitemapChain(children, [root]);
    var live := ReachableFrom(children, root);
    if WellFoundedFrom(children, rank, root) {
      forall u, v | live(u) && v in Sitemaps(children(u)) ensures live(v) && rank(v) < rank(u) {
        ReachableSnoc(children, root, u, v);
      }
    }
  }

  /** Every document on a chain from a live document is live. */
  lemma {:induction false} ChainLive(children: Url -> seq<Url>, rank: Url -> nat, live: Url -> bool, path: seq<Url>, i: nat)
    requires LiveRanked(children, rank, live) && IsSitemapChain(children, path) && live(path[0])
    requires i < |path|
    ensures live(path[i])
  {
    if i > 0 {
      ChainLive(children, rank, live, path, i - 1);
    }
  }

  /** A chain through the restricted documents is a chain through the documents. */
  lemma RestrictedChain(children: Url -> seq<Url>, live: Url -> bool, path: seq<Url>)
    requires IsSitemapChain(Restrict(children, live), path)
    ensures IsSitemapChain(children, path)
  {
  }

  /** A chain from a live document through the documents is a chain through the restricted ones. */
  lemma ChainRestricted(children: Url -> seq<Url>, rank: Url -> nat, live: Url -> bool, path: seq<Url>)
    requires LiveRanked(children, rank, live) && IsSitemapChain(children, path) && live(path[0])
    ensures IsSitemapChain(Restrict(children, live), path)
  {
    var spec := Restrict(children, live);
    forall i | 0 <= i < |path| - 1 ensures path[i + 1] in Sitemaps(spec(path[i])) {
      ChainLive(children, rank, live, path, i);
      assert spec(path[i]) == children(path[i]);
    }
  }

  /** The restricted documents are ranked everywhere. */
  lemma RestrictWellFounded(children: Url -> seq<Url>, rank: Url -> nat, live: Url -> bool)
    requires LiveRanked(children, rank, live)
    ensures WellFounded(Restrict(children, live), rank)
  {
  }

  /** A graph with a sitemap document that lists itself and a start document that lists nothing. */
  function SelfListing(u: Url): (urls: seq<Url>)
    ensures urls != [] <==> u == "sitemap"
  {
    if u == "sitemap" then ["sitemap"] else []
  }

  lemma RankedEdge(children: Url -> seq<Url>, rank: Url -> nat, u: Url, v: Url)
    requires WellFounded(children, rank) && v in Sitemaps(children(u))
    ensures rank(v) < rank(u)
  {
  }

  /** Only the start document is reachable from "root" in `SelfListing`. */
  lemma SelfListingReachable(u: Url)
    requires Reachable(SelfListing, "root", u)
    ensures u == "root"
  {
    var path :| IsSitemapChain(SelfListing, path) && path[0] == "root" && path[|path| - 1] == u;
    assert Sitemaps(SelfListing("root")) == [] by {
      assert Sitemaps([]) == [];
    }
    assert |path| == 1 || path[1] in Sitemaps(SelfListing(path[0]));
    assert |path| == 1;
  }

  /**
    The cycle of `SelfListing` is unreachable from "root": no ranking orders the whole graph,
    yet its reachable part is ranked (the traversal from "root" stops) and holds no page.
   */
  lemma UnreachableCycleAllowed(rank: Url -> nat, p: Url)
    ensures !WellFounded(SelfListing, rank)
    ensures WellFoundedFrom(SelfListing, rank, "root")
    ensures !ReachablePage(SelfListing, "root", p)
  {
    assert OccursAt(SitemapMarker, "sitemap", 0);
    assert Sitemaps(["sitemap"]) == ["sitemap"];
    var children: Url -> seq<Url> := SelfListing;
    assert "sitemap" in Sitemaps(children("sitemap"));
    if WellFounded(SelfListing, rank) {
      RankedEdge(SelfListing, rank, "sitemap", "sitemap");
    }
    forall u | Reachable(SelfListing, "root", u) ensures SelfListing(u) == [] && Sitemaps(SelfListing(u)) == [] {
      SelfListingReachable(u);
      assert Sitemaps([]) == [];
    }
  }

  /** `p` is a non-sitemap `<loc>` URL of some document reachable from `root`. */
  ghost predicate ReachablePage(children: Url -> seq<Url>, root: Url, p: Url)
  {
    exists v :: Reachable(children, root, v) && p in children(v) && !IsSitemapUrl(p)
  }

  /**
    The traversal of the restricted documents collects exactly the non-sitemap URLs of the
    documents reachable from `root`.
   */
  lemma ExpectedPagesReachable(children: Url -> seq<Url>, rank: Url -> nat, live: Url -> bool, root: Url, p: Url)
    requires LiveRanked(children, rank, live) && live(root)
    ensures WellFounded(Restrict(children, live), rank)
    ensures p in ExpectedPages(Restrict(children, live), rank, root) <==> ReachablePage(children, root, p)
  {
    var spec := Restrict(children, live);
    RestrictWellFounded(children, rank, live);
    ExpectedPagesExactly(spec, rank, root, p);
    if p in ExpectedPages(spec, rank, root) {
      var v :| Reachable(spec, root, v) && p in spec(v) && !IsSitemapUrl(p);
      var path :| IsSitemapChain(spec, path) && path[0] == root && path[|path| - 1] == v;
      RestrictedChain(children, live, path);
      assert Reachable(children, root, v);
    }
    if ReachablePage(children, root, p) {
      var v :| Reachable(children, root, v) && p in children(v) && !IsSitemapUrl(p);
      var path :| IsSitemapChain(children, path) && path[0] == root && path[|path| - 1] == v;
      ChainRestricted(children, rank, live, path);
      ChainLive(children, rank, live, path, |path| - 1);
      assert spec(v) == children(v);
      assert Reachable(spec, root, v);
    }
  }

  /** One expansion task: fetch and parse `link`, classify, send the sitemap part, append the pages. */
  method ExpansionTask(link: Url, children: Url -> seq<Url>, toCrawl: seq<Url>)
    returns (batch: seq<Url>, crawl: seq<Url>)
    ensures batch == Sitemaps(children(link))
    ensures crawl == toCrawl + Pages(children(link))
  {
    var urls := children(link);
    var sitemapFiles, pages := IsSitemap(urls);
    // `isSitemap` returns a non-nil slice, so the batch is always sent, possibly empty.
    batch := sitemapFiles;
    crawl := toCrawl;
    for j := 0 to |pages|
      invariant crawl == toCrawl + pages[..j]
    {
      crawl := crawl + [pages[j]];
    }
    assert pages[..|pages|] == pages;
  }

  /** The dispatcher's inner loop: spawn one task per URL of the received batch, counting each. */
  method Dispatch(list: seq<Url>, pending: seq<Url>, n: int) returns (spawned: seq<Url>, n': int)
    ensures spawned == pending + list
    ensures n' == n + |list|
  {
    spawned, n' := pending, n;
    for i := 0 to |list|
      invariant spawned == pending + list[..i]
      invariant n' == n + i
    {
      n' := n' + 1;
      spawned := spawned + [list[i]];
    }
    assert list[..|list|] == list;
  }

  /** `spec` lists what `children` lists for every live document. */
  ghost predicate Agrees(children: Url -> seq<Url>, spec: Url -> seq<Url>, live: Url -> bool)
  {
    forall u :: live(u) ==> spec(u) == children(u)
  }

  /** The oldest spawned task is live, so its document is the same in both. */
  lemma AgreesAt(children: Url -> seq<Url>, spec: Url -> seq<Url>, live: Url -> bool, pending: seq<Url>)
    requires Agrees(children, spec, live) && pending != [] && AllLive(live, pending)
    ensures spec(pending[0]) == children(pending[0])
  {
  }

  lemma RestrictAgrees(children: Url -> seq<Url>, live: Url -> bool)
    ensures Agrees(children, Restrict(children, live), live)
  {
  }

  /** Running the oldest live task leaves only live URLs spawned or queued. */
  lemma LiveStep(children: Url -> seq<Url>, rank: Url -> nat, live: Url -> bool, pending: seq<Url>)
    requires LiveRanked(children, rank, live)
    requires pending != [] && AllLive(live, pending)
    ensures AllLive(live, pending[1..] + Sitemaps(children(pending[0])))
  {
  }

  /** A permutation of the restricted traversal holds exactly the pages reachable from `root`. */
  lemma CollectedExactly(children: Url -> seq<Url>, rank: Url -> nat, live: Url -> bool, root: Url, crawl: seq<Url>)
    requires LiveRanked(children, rank, live) && live(root)
    requires WellFounded(Restrict(children, live), rank)
    requires multiset(crawl) == multiset(ExpectedPages(Restrict(children, live), rank, root))
    ensures forall p :: p in crawl <==> ReachablePage(children, root, p)
  {
    forall p ensures p in crawl <==> ReachablePage(children, root, p) {
      ExpectedPagesReachable(children, rank, live, root, p);
      assert p in crawl <==> p in multiset(crawl);
    }
  }

  /**
    The dispatcher finds no batch queued: the oldest spawned task, `pending[0]`, runs to
    completion and its batch becomes the only queued one. The spawned URLs are all live, so
    their documents are those of the restricted graph.
   */
  method RunOldestTask(children: Url -> seq<Url>, ghost spec: Url -> seq<Url>, ghost rank: Url -> nat,
                       ghost live: Url -> bool, pending: seq<Url>, toCrawl: seq<Url>)
    returns (rest: seq<Url>, batch: seq<Url>, crawl: seq<Url>)
    requires LiveRanked(children, rank, live) && WellFounded(spec, rank)
    requires pending != [] && AllLive(live, pending) && spec(pending[0]) == children(pending[0])
    ensures rest == pending[1..] && batch == Sitemaps(children(pending[0]))
    ensures AllLive(live, rest + batch)
    ensures crawl + QueueOrderPages(spec, rank, rest + batch)
            == toCrawl + QueueOrderPages(spec, rank, pending)
    ensures |VisitsAll(spec, rank, rest + batch)|
            < |VisitsAll(spec, rank, pending)|
  {
    var link := pending[0];
    rest := pending[1..];
    assert pending == [link] + rest;
    FrontierStep(spec, rank, link, rest);
    batch, crawl := ExpansionTask(link, children, toCrawl);
    LiveStep(children, rank, live, pending);
  }

  /**
    The dispatcher takes one batch off the channel. When no batch is queued it waits, and the
    oldest spawned task runs to completion first and sends its batch.
   */
  method Receive(children: Url -> seq<Url>, ghost spec: Url -> seq<Url>, ghost rank: Url -> nat,
                 ghost live: Url -> bool, pending: seq<Url>,
                 worklist: seq<seq<Url>>, toCrawl: seq<Url>, ghost frontier: seq<Url>)
    returns (pending': seq<Url>, list: seq<Url>, worklist': seq<seq<Url>>, crawl: seq<Url>,
             ghost frontier': seq<Url>)
    requires LiveRanked(children, rank, live) && WellFounded(spec, rank) && Agrees(children, spec, live)
    requires frontier == pending + Flatten(worklist) && AllLive(live, frontier)
    requires pending != [] || worklist != []
    ensures frontier' == pending' + list + Flatten(worklist') && AllLive(live, frontier')
    ensures |pending'| + |worklist'| + 1 == |pending| + |worklist|
    ensures crawl + QueueOrderPages(spec, rank, frontier')
            == toCrawl + QueueOrderPages(spec, rank, frontier)
    ensures || |VisitsAll(spec, rank, frontier')| < |VisitsAll(spec, rank, frontier)|
            || (frontier' == frontier && |worklist'| < |worklist|)
  {
    pending', crawl, frontier' := pending, toCrawl, frontier;
    var queue := worklist;
    if queue == [] {
      assert frontier == pending;
      AgreesAt(children, spec, live, pending);
      var batch;
      pending', batch, crawl := RunOldestTask(children, spec, rank, live, pending, toCrawl);
      queue := [batch];
      frontier' := pending' + batch;
      assert Flatten(queue) == batch by {
        assert queue[1..] == [];
      }
    }
    list := queue[0];
    worklist' := queue[1..];
    assert Flatten(queue) == list + Flatten(worklist');
  }

  /**
    `extractSiteMapURLs`: the counting-worklist traversal from `startUrl`. It needs a ranking
    only of the live documents, a set closed under listed sitemap URLs that holds `startUrl`;
    documents outside it are never fetched, whatever they list.
   */
  method ExtractSiteMapUrls(startUrl: Url, children: Url -> seq<Url>, ghost rank: Url -> nat,
                            ghost live: Url -> bool)
    returns (toCrawl: seq<Url>, ghost outstanding: int)
    requires live(startUrl) && LiveRanked(children, rank, live)
    ensures outstanding == 0
    ensures forall p :: p in toCrawl <==> ReachablePage(children, startUrl, p)
    ensures WellFounded(Restrict(children, live), rank)
    ensures toCrawl == QueueOrderPages(Restrict(children, live), rank, [startUrl])
    ensures multiset(toCrawl) == multiset(ExpectedPages(Restrict(children, live), rank, startUrl))
  {
    ghost var spec := Restrict(children, live);
    RestrictWellFounded(children, rank, live);
    RestrictAgrees(children, live);
    var worklist: seq<seq<Url>> := [[startUrl]];
    var pending: seq<Url> := [];
    toCrawl := [];
    var n := 1;
    // The URLs spawned or queued whose tasks have not run yet.
    ghost var frontier: seq<Url> := [startUrl];
    assert Flatten(worklist) == [startUrl];
    while n > 0
      invariant n == |pending| + |worklist|
      invariant frontier == pending + Flatten(worklist) && AllLive(live, frontier)
      invariant toCrawl + QueueOrderPages(spec, rank, frontier) == QueueOrderPages(spec, rank, [startUrl])
      decreases |VisitsAll(spec, rank, frontier)|, |worklist|
    {
      var list;
      pending, list, worklist, toCrawl, frontier := Receive(children, spec, rank, live, pending, worklist, toCrawl, frontier);
      ghost var before := pending;
      pending, n := Dispatch(list, pending, n);
      assert pending + Flatten(worklist) == before + list + Flatten(worklist);
      n := n - 1;
    }
    assert frontier == [];
    QueueOrderPermutation(spec, rank, [startUrl]);
    assert VisitsAll(spec, rank, [startUrl]) == Visits(spec, rank, startUrl) by {
      assert [startUrl][1..] == [];
    }
    CollectedExactly(children, rank, live, startUrl, toCrawl);
    outstanding := n;
  }
}

/**
  The URL classifier `isSitemap` of main.go: a URL is a sitemap document exactly when its
  text contains the case-sensitive substring "sitemap"; every other URL is a leaf page.
 */
module Classifier {

  type Url = string

  /** The marker that `isSitemap` looks for. */
  const SitemapMarker: string := "sitemap"

  /** `sub` occurs in `s` starting at position `i`. */
  ghost predicate OccursAt(sub: string, s: string, i: int)
  {
    0 <= i && i + |sub| <= |s| && s[i..i + |sub|] == sub
  }

  lemma OccursAtShift(sub: string, s: string, j: int)
    requires |s| > 0 && 0 <= j
    ensures OccursAt(sub, s[1..], j) <==> OccursAt(sub, s, j + 1)
  {
    if 0 <= j && j + |sub| <= |s| - 1 {
      assert s[1..][j..j + |sub|] == s[j + 1..j + 1 + |sub|];
    }
  }

  /** Substring search, as `strings.Contains(s, sub)`. */
  function Contains(s: string, sub: string): (b: bool)
    ensures b <==> exists i :: OccursAt(sub, s, i)
    decreases |s|
  {
    if |s| < |sub| then
      false
    else if s[..|sub|] == sub then
      assert OccursAt(sub, s, 0);
      true
    else
      assert (exists i :: OccursAt(sub, s, i)) <==> (exists j :: OccursAt(sub, s[1..], j)) by {
        forall j | OccursAt(sub, s[1..], j) ensures OccursAt(sub, s, j + 1) {
          OccursAtShift(sub, s, j);
        }
        forall i | OccursAt(sub, s, i) ensures OccursAt(sub, s[1..], i - 1) {
          assert i != 0;
          OccursAtShift(sub, s, i - 1);
        }
      }
      Contains(s[1..], sub)
  }

  /** A URL names a sitemap document exactly when the marker occurs in it. */
  ghost predicate IsSitemapUrl(url: Url)
  {
    exists i :: OccursAt(SitemapMarker, url, i)
  }

  /** The first output of `isSitemap`: the sitemap URLs of `urls`, in input order. */
  ghost function Sitemaps(urls: seq<Url>): seq<Url>
  {
    if urls == [] then []
    else
      var last := urls[|urls| - 1];
      Sitemaps(urls[..|urls| - 1]) + (if IsSitemapUrl(last) then [last] else [])
  }

  /** The second output of `isSitemap`: the page URLs of `urls`, in input order. */
  ghost function Pages(urls: seq<Url>): seq<Url>
  {
    if urls == [] then []
    else
      var last := urls[|urls| - 1];
      Pages(urls[..|urls| - 1]) + (if IsSitemapUrl(last) then [] else [last])
  }

  /** `isSitemap`: one pass over `urls`, appending each URL to the output it belongs to. */
  method IsSitemap(urls: seq<Url>) returns (sitemapFiles: seq<Url>, pages: seq<Url>)
    ensures sitemapFiles == Sitemaps(urls)
    ensures pages == Pages(urls)
  {
    sitemapFiles := [];
    pages := [];
    var i := 0;
    while i < |urls|
      invariant 0 <= i <= |urls|
      invariant sitemapFiles == Sitemaps(urls[..i])
      invariant pages == Pages(urls[..i])
    {
      var url := urls[i];
      assert urls[..i + 1][..i] == urls[..i];
      if Contains(url, SitemapMarker) {
        sitemapFiles := sitemapFiles + [url];
      } else {
        pages := pages + [url];
      }
      i := i + 1;
    }
    assert urls[..i] == urls;
  }

  /** Both outputs distribute over concatenation: classification works element by element. */
  lemma {:induction false} PartitionAppend(a: seq<Url>, b: seq<Url>)
    ensures Sitemaps(a + b) == Sitemaps(a) + Sitemaps(b)
    ensures Pages(a + b) == Pages(a) + Pages(b)
    decreases |b|
  {
    if b == [] {
      assert a + b == a;
    } else {
      var b' := b[..|b| - 1];
      assert (a + b)[..|a + b| - 1] == a + b';
      PartitionAppend(a, b');
    }
  }

  /** Every input URL lands in exactly one output, with its multiplicity: nothing is dropped or deduplicated. */
  lemma {:induction false} PartitionMultiset(urls: seq<Url>)
    ensures multiset(Sitemaps(urls)) + multiset(Pages(urls)) == multiset(urls)
    ensures |Sitemaps(urls)| + |Pages(urls)| == |urls|
  {
    if urls != [] {
      var init, last := urls[..|urls| - 1], urls[|urls| - 1];
      PartitionMultiset(init);
      assert urls == init + [last];
      assert multiset(urls) == multiset(init) + multiset{last};
      if IsSitemapUrl(last) {
        assert Sitemaps(urls) == Sitemaps(init) + [last];
        assert Pages(urls) == Pages(init);
      } else {
        assert Sitemaps(urls) == Sitemaps(init);
        assert Pages(urls) == Pages(init) + [last];
      }
    }
  }

  /** The sitemap output holds exactly the input URLs containing the marker, the page output exactly the others. */
  lemma {:induction false} PartitionMembership(urls: seq<Url>, x: Url)
    ensures x in Sitemaps(urls) <==> x in urls && IsSitemapUrl(x)
    ensures x in Pages(urls) <==> x in urls && !IsSitemapUrl(x)
  {
    if urls != [] {
      var init := urls[..|urls| - 1];
      PartitionMembership(init, x);
      assert urls == init + [urls[|urls| - 1]];
    }
  }

  /** `xs` is `ys` with some elements left out and the rest kept in their relative order. */
  predicate IsSubsequence(xs: seq<Url>, ys: seq<Url>)
    decreases |ys|
  {
    if ys == [] then xs == []
    else
      IsSubsequence(xs, ys[..|ys| - 1])
      || (xs != [] && xs[|xs| - 1] == ys[|ys| - 1] && IsSubsequence(xs[..|xs| - 1], ys[..|ys| - 1]))
  }

  /** Both outputs keep the input order. */
  lemma {:induction false} PartitionOrder(urls: seq<Url>)
    ensures IsSubsequence(Sitemaps(urls), urls)
    ensures IsSubsequence(Pages(urls), urls)
  {
    if urls != [] {
      var init, last := urls[..|urls| - 1], urls[|urls| - 1];
      PartitionOrder(init);
      if IsSitemapUrl(last) {
        assert (Sitemaps(init) + [last])[..|Sitemaps(init)|] == Sitemaps(init);
        assert Pages(urls) == Pages(init);
      } else {
        assert (Pages(init) + [last])[..|Pages(init)|] == Pages(init);
        assert Sitemaps(urls) == Sitemaps(init);
      }
    }
  }

  /** Classifying the page output again finds no sitemap and returns the same pages. */
  lemma {:induction false} ClassifyPagesIdempotent(urls: seq<Url>)
    ensures Sitemaps(Pages(urls)) == []
    ensures Pages(Pages(urls)) == Pages(urls)
  {
    if urls != [] {
      var init, last := urls[..|urls| - 1], urls[|urls| - 1];
      ClassifyPagesIdempotent(init);
      if IsSitemapUrl(last) {
        assert Pages(urls) == Pages(init);
      } else {
        assert Pages(urls) == Pages(init) + [last];
        PartitionAppend(Pages(init), [last]);
        assert Sitemaps([last]) == Sitemaps([]) + [] by { assert [last][..0] == []; }
        assert Pages([last]) == Pages([]) + [last] by { assert [last][..0] == []; }
      }
    }
  }

  /** Likewise the sitemap output is classified again as all sitemaps. */
  lemma {:induction false} ClassifySitemapsIdempotent(urls: seq<Url>)
    ensures Sitemaps(Sitemaps(urls)) == Sitemaps(urls)
    ensures Pages(Sitemaps(urls)) == []
  {
    if urls != [] {
      var init, last := urls[..|urls| - 1], urls[|urls| - 1];
      ClassifySitemapsIdempotent(init);
      if !IsSitemapUrl(last) {
        assert Sitemaps(urls) == Sitemaps(init);
      } else {
        assert Sitemaps(urls) == Sitemaps(init) + [last];
        PartitionAppend(Sitemaps(init), [last]);
        assert Sitemaps([last]) == Sitemaps([]) + [last] by { assert [last][..0] == []; }
        assert Pages([last]) == Pages([]) + [] by { assert [last][..0] == []; }
      }
    }
  }
}

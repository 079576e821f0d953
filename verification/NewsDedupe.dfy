/** Deduplication of fetched articles by URL fingerprint. */
module DedupeSteps {
  import opened Common

  datatype Article = Article(url: string, headline: string)

  /** A feed article; empty text counts as missing. */
  datatype FeedArticle = FeedArticle(url: string, title: string, headline: string)

  /** Hashing of normalised URLs, whatever it is. */
  type Fingerprint = string -> string

  /** `dedupe`: the articles whose fingerprint is new, also within the batch. */
  function Fresh(fp: Fingerprint, articles: seq<Article>, seen: set<string>): seq<Article> {
    if articles == [] then []
    else if articles[0].url == "" || fp(articles[0].url) in seen then Fresh(fp, articles[1..], seen)
    else [articles[0]] + Fresh(fp, articles[1..], seen + {fp(articles[0].url)})
  }

  function Prints(fp: Fingerprint, articles: seq<Article>): set<string> {
    set i | 0 <= i < |articles| :: fp(articles[i].url)
  }

  function SeenAfter(fp: Fingerprint, articles: seq<Article>, seen: set<string>): set<string> {
    seen + Prints(fp, Fresh(fp, articles, seen))
  }

  /** `ingest`: only what was seen before the batch is left out. */
  function Unseen(fp: Fingerprint, articles: seq<Article>, seen: set<string>): seq<Article> {
    if articles == [] then []
    else (if fp(articles[0].url) in seen then [] else [articles[0]]) + Unseen(fp, articles[1..], seen)
  }

  function Title(f: FeedArticle): string {
    if f.title != "" then f.title else f.headline
  }

  /** Some item has the article's URL and its text as title, or as headline for want of a title. */
  ghost predicate Announced(feed: seq<FeedArticle>, a: Article) {
    exists f :: f in feed && f.url == a.url && (f.title == a.headline || (f.title == "" && f.headline == a.headline))
  }

  /** `normalize_article` over a batch: no URL or no title means no article. */
  function Normalized(feed: seq<FeedArticle>): seq<Article> {
    if feed == [] then []
    else
      (if feed[0].url == "" || Title(feed[0]) == "" then [] else [Article(feed[0].url, Title(feed[0]))])
      + Normalized(feed[1..])
  }

  /** `out` is what remains of `all` after dropping some elements. */
  predicate Subsequence(out: seq<Article>, all: seq<Article>) {
    if all == [] then out == []
    else (out != [] && out[0] == all[0] && Subsequence(out[1..], all[1..])) || Subsequence(out, all[1..])
  }

  /** Each article not seen before is in `out` as often as in `all`; no other article is. */
  ghost predicate LeavesOutSeen(fp: Fingerprint, out: seq<Article>, all: seq<Article>, seen: set<string>) {
    forall a :: multiset(out)[a] == (if fp(a.url) in seen then 0 else multiset(all)[a])
  }
}

module Dedupers {
  import opened Common
  import opened DedupeSteps
  import opened DedupeProofs

  /** The seen set: the caller's set in `dedupe`, the durable store in `ingest`. */
  class SeenSet {
    var prints: set<string>

    constructor (prints: set<string>)
      ensures this.prints == prints
    {
      this.prints := prints;
    }
  }

  lemma PrintsSnoc(fp: Fingerprint, articles: seq<Article>, a: Article)
    ensures Prints(fp, articles + [a]) == Prints(fp, articles) + {fp(a.url)}
  {
    assert (articles + [a])[|articles|] == a;
    assert forall k :: 0 <= k < |articles| ==> (articles + [a])[k] == articles[k];
    forall p | p in Prints(fp, articles) ensures p in Prints(fp, articles + [a]) {
      var i :| 0 <= i < |articles| && p == fp(articles[i].url);
      assert (articles + [a])[i] == articles[i];
    }
  }

  lemma PrintsPrefix(fp: Fingerprint, articles: seq<Article>, i: nat)
    requires i < |articles|
    ensures Prints(fp, articles[..i + 1]) == Prints(fp, articles[..i]) + {fp(articles[i].url)}
  {
    assert articles[..i + 1] == articles[..i] + [articles[i]];
    PrintsSnoc(fp, articles[..i], articles[i]);
  }

  method Dedupe(fp: Fingerprint, articles: seq<Article>, seen: SeenSet) returns (news: seq<Article>)
    modifies seen
    ensures news == Fresh(fp, articles, old(seen.prints))
    ensures seen.prints == SeenAfter(fp, articles, old(seen.prints))
  {
    news := [];
    var i := 0;
    while i < |articles|
      invariant 0 <= i <= |articles|
      invariant Fresh(fp, articles, old(seen.prints)) == news + Fresh(fp, articles[i..], seen.prints)
      invariant seen.prints == old(seen.prints) + Prints(fp, news)
    {
      var a := articles[i];
      assert articles[i..][1..] == articles[i + 1..];
      if a.url != "" {
        var mark := fp(a.url);
        if mark !in seen.prints {
          Associative(news, [a], Fresh(fp, articles[i + 1..], seen.prints + {mark}));
          seen.prints := seen.prints + {mark};
          PrintsSnoc(fp, news, a);
          news := news + [a];
        }
      }
      i := i + 1;
    }
  }

  /** What comes through is the feed's usable articles that were not seen before, each as often as the
      feed has it and in feed order; afterwards the whole batch is remembered. */
  method Ingest(fp: Fingerprint, feed: seq<FeedArticle>, seen: SeenSet) returns (news: seq<Article>)
    modifies seen
    ensures news == Unseen(fp, Normalized(feed), old(seen.prints))
    ensures Subsequence(news, Normalized(feed))
    ensures LeavesOutSeen(fp, news, Normalized(feed), old(seen.prints))
    ensures seen.prints == old(seen.prints) + Prints(fp, Normalized(feed))
  {
    var articles := Normalize(feed);
    news := SelectUnseen(fp, articles, seen);
    UnseenKeepsOrder(fp, articles, seen.prints);
    UnseenCounts(fp, articles, seen.prints);
    UnseenMarks(fp, articles, seen.prints);
    Remember(fp, news, seen);
  }

  method SelectUnseen(fp: Fingerprint, articles: seq<Article>, seen: SeenSet) returns (news: seq<Article>)
    ensures news == Unseen(fp, articles, seen.prints)
  {
    news := [];
    for i := 0 to |articles|
      invariant Unseen(fp, articles, seen.prints) == news + Unseen(fp, articles[i..], seen.prints)
    {
      UnseenFrom(fp, articles, i, seen.prints);
      if fp(articles[i].url) !in seen.prints {
        Associative(news, [articles[i]], Unseen(fp, articles[i + 1..], seen.prints));
        news := news + [articles[i]];
      }
    }
  }

  method Normalize(feed: seq<FeedArticle>) returns (articles: seq<Article>)
    ensures articles == Normalized(feed)
    ensures forall a :: a in articles <==> a.url != "" && a.headline != "" && Announced(feed, a)
  {
    articles := [];
    for i := 0 to |feed|
      invariant Normalized(feed) == articles + Normalized(feed[i..])
    {
      assert feed[i..][1..] == feed[i + 1..];
      var title := if feed[i].title != "" then feed[i].title else feed[i].headline;
      if feed[i].url != "" && title != "" {
        Associative(articles, [Article(feed[i].url, title)], Normalized(feed[i + 1..]));
        articles := articles + [Article(feed[i].url, title)];
      }
    }
    NormalizedKeepsUsable(feed);
  }

  method Remember(fp: Fingerprint, news: seq<Article>, seen: SeenSet)
    modifies seen
    ensures seen.prints == old(seen.prints) + Prints(fp, news)
  {
    ghost var marks: set<string> := {};
    for i := 0 to |news|
      invariant marks == Prints(fp, news[..i])
      invariant seen.prints == old(seen.prints) + marks
    {
      seen.prints := seen.prints + {fp(news[i].url)};
      PrintsPrefix(fp, news, i);
      marks := marks + {fp(news[i].url)};
    }
    assert news[..|news|] == news;
  }
}

module DedupeProofs {
  import opened Common
  import opened DedupeSteps

  lemma PrintsOf(fp: Fingerprint, a: Article, rest: seq<Article>)
    ensures Prints(fp, [a] + rest) == {fp(a.url)} + Prints(fp, rest)
  {
    var all := [a] + rest;
    assert all[0] == a && forall i :: 0 <= i < |rest| ==> all[i + 1] == rest[i];
    forall p ensures p in Prints(fp, all) <==> p == fp(a.url) || p in Prints(fp, rest) {
      if p in Prints(fp, all) {
        var i :| 0 <= i < |all| && p == fp(all[i].url);
        if i > 0 { assert rest[i - 1] == all[i]; }
      }
      if p in Prints(fp, rest) {
        var i :| 0 <= i < |rest| && p == fp(rest[i].url);
        assert all[i + 1] == rest[i];
      }
    }
  }

  lemma SeenStep(fp: Fingerprint, articles: seq<Article>, seen: set<string>)
    requires articles != []
    ensures SeenAfter(fp, articles, seen) ==
      if articles[0].url == "" || fp(articles[0].url) in seen then SeenAfter(fp, articles[1..], seen)
      else SeenAfter(fp, articles[1..], seen + {fp(articles[0].url)})
  {
    PrintsOf(fp, articles[0], Fresh(fp, articles[1..], seen + {fp(articles[0].url)}));
  }

  lemma {:induction false} FreshOfCat(fp: Fingerprint, a: seq<Article>, b: seq<Article>, seen: set<string>)
    ensures Fresh(fp, a + b, seen) == Fresh(fp, a, seen) + Fresh(fp, b, SeenAfter(fp, a, seen))
    decreases |a|
  {
    if a == [] {
      assert a + b == b && Prints(fp, []) == {};
      assert SeenAfter(fp, a, seen) == seen;
    } else {
      var p := fp(a[0].url);
      assert (a + b)[1..] == a[1..] + b && (a + b)[0] == a[0];
      SeenStep(fp, a, seen);
      if a[0].url == "" || p in seen {
        FreshOfCat(fp, a[1..], b, seen);
      } else {
        FreshOfCat(fp, a[1..], b, seen + {p});
        Associative([a[0]], Fresh(fp, a[1..], seen + {p}), Fresh(fp, b, SeenAfter(fp, a, seen)));
      }
    }
  }

  lemma {:induction false} SeenOfCat(fp: Fingerprint, a: seq<Article>, b: seq<Article>, seen: set<string>)
    ensures SeenAfter(fp, a + b, seen) == SeenAfter(fp, b, SeenAfter(fp, a, seen))
    decreases |a|
  {
    if a == [] {
      assert a + b == b && Prints(fp, []) == {};
      assert SeenAfter(fp, a, seen) == seen;
    } else {
      var p := fp(a[0].url);
      assert (a + b)[1..] == a[1..] + b && (a + b)[0] == a[0];
      SeenStep(fp, a, seen);
      SeenStep(fp, a + b, seen);
      SeenOfCat(fp, a[1..], b, if a[0].url == "" || p in seen then seen else seen + {p});
    }
  }

  /** Deduplicating a concatenation is deduplicating batch by batch with the seen set threaded. */
  lemma BatchesThreadTheSeenSet(fp: Fingerprint, a: seq<Article>, b: seq<Article>, seen: set<string>)
    ensures Fresh(fp, a + b, seen) == Fresh(fp, a, seen) + Fresh(fp, b, SeenAfter(fp, a, seen))
    ensures SeenAfter(fp, a + b, seen) == SeenAfter(fp, b, SeenAfter(fp, a, seen))
  {
    FreshOfCat(fp, a, b, seen);
    SeenOfCat(fp, a, b, seen);
  }

  ghost predicate DistinctMarks(fp: Fingerprint, out: seq<Article>) {
    forall i, j :: 0 <= i < j < |out| ==> fp(out[i].url) != fp(out[j].url)
  }

  lemma DistinctCons(fp: Fingerprint, a: Article, rest: seq<Article>)
    requires DistinctMarks(fp, rest) && fp(a.url) !in Prints(fp, rest)
    ensures DistinctMarks(fp, [a] + rest)
  {
    var all := [a] + rest;
    forall i, j | 0 <= i < j < |all| ensures fp(all[i].url) != fp(all[j].url) {
      assert all[j] == rest[j - 1];
      if i > 0 { assert all[i] == rest[i - 1]; }
    }
  }

  /** The articles let through have pairwise distinct fingerprints, none of them seen before. */
  lemma {:induction false} FreshIsNewAndDistinct(fp: Fingerprint, articles: seq<Article>, seen: set<string>)
    ensures DistinctMarks(fp, Fresh(fp, articles, seen))
    ensures Prints(fp, Fresh(fp, articles, seen)) !! seen
    decreases |articles|
  {
    if articles != [] {
      var p := fp(articles[0].url);
      if articles[0].url == "" || p in seen {
        FreshIsNewAndDistinct(fp, articles[1..], seen);
      } else {
        var rest := Fresh(fp, articles[1..], seen + {p});
        FreshIsNewAndDistinct(fp, articles[1..], seen + {p});
        PrintsOf(fp, articles[0], rest);
        DistinctCons(fp, articles[0], rest);
      }
    }
  }

  /** Every article with a URL is accounted for afterwards, and only those are let through. */
  lemma {:induction false} EveryArticleIsSeen(fp: Fingerprint, articles: seq<Article>, seen: set<string>, a: Article)
    requires a in articles && a.url != ""
    ensures fp(a.url) in SeenAfter(fp, articles, seen)
    decreases |articles|
  {
    SeenStep(fp, articles, seen);
    var p := fp(articles[0].url);
    if a != articles[0] {
      EveryArticleIsSeen(fp, articles[1..], if articles[0].url == "" || p in seen then seen else seen + {p}, a);
    }
  }

  /** Outputs keep the input order. */
  lemma {:induction false} FreshKeepsOrder(fp: Fingerprint, articles: seq<Article>, seen: set<string>)
    ensures Subsequence(Fresh(fp, articles, seen), articles)
    decreases |articles|
  {
    if articles != [] {
      if articles[0].url == "" || fp(articles[0].url) in seen {
        FreshKeepsOrder(fp, articles[1..], seen);
      } else {
        FreshKeepsOrder(fp, articles[1..], seen + {fp(articles[0].url)});
      }
    }
  }

  // ---- ingest against dedupe ----

  ghost predicate RepeatAt(fp: Fingerprint, articles: seq<Article>, seen: set<string>, i: int, j: int) {
    0 <= i < j < |articles| && fp(articles[i].url) == fp(articles[j].url) && fp(articles[i].url) !in seen
  }

  /** Some fingerprint that was not seen before occurs twice in the batch. */
  ghost predicate RepeatsUnseen(fp: Fingerprint, articles: seq<Article>, seen: set<string>) {
    exists i, j :: RepeatAt(fp, articles, seen, i, j)
  }

  lemma {:induction false} UnseenWithMore(fp: Fingerprint, articles: seq<Article>, seen: set<string>, p: string)
    requires p !in seen
    ensures p !in Prints(fp, articles) ==> Unseen(fp, articles, seen + {p}) == Unseen(fp, articles, seen)
    ensures p in Prints(fp, articles) ==> |Unseen(fp, articles, seen + {p})| < |Unseen(fp, articles, seen)|
    decreases |articles|
  {
    if articles != [] {
      assert articles == [articles[0]] + articles[1..];
      PrintsOf(fp, articles[0], articles[1..]);
      UnseenWithMore(fp, articles[1..], seen, p);
    }
  }

  lemma {:induction false} FreshIsNoLonger(fp: Fingerprint, articles: seq<Article>, seen: set<string>)
    ensures |Fresh(fp, articles, seen)| <= |Unseen(fp, articles, seen)|
    decreases |articles|
  {
    if articles != [] {
      var p := fp(articles[0].url);
      if articles[0].url == "" || p in seen {
        FreshIsNoLonger(fp, articles[1..], seen);
      } else {
        FreshIsNoLonger(fp, articles[1..], seen + {p});
        UnseenWithMore(fp, articles[1..], seen, p);
      }
    }
  }

  lemma RepeatsInRest(fp: Fingerprint, a: Article, rest: seq<Article>, seen: set<string>)
    requires RepeatsUnseen(fp, [a] + rest, seen)
    ensures (fp(a.url) !in seen && fp(a.url) in Prints(fp, rest)) || RepeatsUnseen(fp, rest, seen + {fp(a.url)})
  {
    var all := [a] + rest;
    var i, j :| RepeatAt(fp, all, seen, i, j);
    assert rest[j - 1] == all[j];
    if i > 0 && fp(all[i].url) != fp(a.url) {
      assert rest[i - 1] == all[i];
      assert RepeatAt(fp, rest, seen + {fp(a.url)}, i - 1, j - 1);
    }
  }

  lemma RepeatsInAll(fp: Fingerprint, a: Article, rest: seq<Article>, seen: set<string>)
    requires (fp(a.url) !in seen && fp(a.url) in Prints(fp, rest)) || RepeatsUnseen(fp, rest, seen + {fp(a.url)})
    ensures RepeatsUnseen(fp, [a] + rest, seen)
  {
    var all := [a] + rest;
    if RepeatsUnseen(fp, rest, seen + {fp(a.url)}) {
      var i, j :| RepeatAt(fp, rest, seen + {fp(a.url)}, i, j);
      assert all[i + 1] == rest[i] && all[j + 1] == rest[j];
      assert RepeatAt(fp, all, seen, i + 1, j + 1);
    } else {
      var j :| 0 <= j < |rest| && fp(a.url) == fp(rest[j].url);
      assert all[0] == a && all[j + 1] == rest[j];
      assert RepeatAt(fp, all, seen, 0, j + 1);
    }
  }

  /** `ingest` filters like `dedupe` exactly when its batch repeats no unseen fingerprint. */
  lemma {:induction false} IngestIsDedupeIffNoRepeat(fp: Fingerprint, articles: seq<Article>, seen: set<string>)
    requires forall a :: a in articles ==> a.url != ""
    ensures Unseen(fp, articles, seen) == Fresh(fp, articles, seen) <==> !RepeatsUnseen(fp, articles, seen)
    decreases |articles|
  {
    if articles != [] {
      var a, rest := articles[0], articles[1..];
      var p := fp(a.url);
      assert articles == [a] + rest && a in articles;
      if RepeatsUnseen(fp, articles, seen) { RepeatsInRest(fp, a, rest, seen); }
      if (p !in seen && p in Prints(fp, rest)) || RepeatsUnseen(fp, rest, seen + {p}) {
        RepeatsInAll(fp, a, rest, seen);
      }
      if p in seen {
        assert seen + {p} == seen;
        IngestIsDedupeIffNoRepeat(fp, rest, seen);
      } else {
        IngestIsDedupeIffNoRepeat(fp, rest, seen + {p});
        UnseenWithMore(fp, rest, seen, p);
        FreshIsNoLonger(fp, rest, seen + {p});
        assert Unseen(fp, articles, seen) == [a] + Unseen(fp, rest, seen);
        assert Unseen(fp, articles, seen)[1..] == Unseen(fp, rest, seen);
        assert Fresh(fp, articles, seen)[1..] == Fresh(fp, rest, seen + {p});
      }
    }
  }

  lemma {:induction false} UnseenMarks(fp: Fingerprint, articles: seq<Article>, seen: set<string>)
    ensures seen + Prints(fp, Unseen(fp, articles, seen)) == seen + Prints(fp, articles)
    decreases |articles|
  {
    if articles == [] {
      assert Unseen(fp, articles, seen) == articles;
    } else {
      var a, rest := articles[0], articles[1..];
      assert articles == [a] + rest;
      PrintsOf(fp, a, rest);
      PrintsOf(fp, a, Unseen(fp, rest, seen));
      UnseenMarks(fp, rest, seen);
      assert Unseen(fp, articles, seen) ==
        if fp(a.url) in seen then Unseen(fp, rest, seen) else [a] + Unseen(fp, rest, seen);
    }
  }

  lemma {:induction false} FreshMarks(fp: Fingerprint, articles: seq<Article>, seen: set<string>)
    requires forall a :: a in articles ==> a.url != ""
    ensures SeenAfter(fp, articles, seen) == seen + Prints(fp, articles)
    decreases |articles|
  {
    if articles == [] {
      assert Fresh(fp, articles, seen) == articles;
    } else {
      var a, rest := articles[0], articles[1..];
      assert articles == [a] + rest && a in articles;
      PrintsOf(fp, a, rest);
      SeenStep(fp, articles, seen);
      FreshMarks(fp, rest, seen + {fp(a.url)});
      FreshMarks(fp, rest, seen);
    }
  }

  /** Either way the same fingerprints are remembered: those of the whole batch. */
  lemma SameFingerprintsRemembered(fp: Fingerprint, articles: seq<Article>, seen: set<string>)
    requires forall a :: a in articles ==> a.url != ""
    ensures SeenAfter(fp, articles, seen) == seen + Prints(fp, Unseen(fp, articles, seen))
  {
    UnseenMarks(fp, articles, seen);
    FreshMarks(fp, articles, seen);
  }

  lemma {:induction false} UnseenKeepsOrder(fp: Fingerprint, articles: seq<Article>, seen: set<string>)
    ensures Subsequence(Unseen(fp, articles, seen), articles)
    decreases |articles|
  {
    if articles != [] {
      var rest := Unseen(fp, articles[1..], seen);
      UnseenKeepsOrder(fp, articles[1..], seen);
      assert Unseen(fp, articles, seen) == if fp(articles[0].url) in seen then rest else [articles[0]] + rest;
      assert ([articles[0]] + rest)[1..] == rest;
    }
  }

  lemma UnseenFrom(fp: Fingerprint, articles: seq<Article>, i: nat, seen: set<string>)
    requires i < |articles|
    ensures var rest := Unseen(fp, articles[i + 1..], seen);
      Unseen(fp, articles[i..], seen) == if fp(articles[i].url) in seen then rest else [articles[i]] + rest
  {
    assert articles[i..][1..] == articles[i + 1..];
  }

  /** `ingest` lets an article through as often as the batch has it, unless it was seen before. */
  lemma {:induction false} UnseenCounts(fp: Fingerprint, articles: seq<Article>, seen: set<string>)
    ensures LeavesOutSeen(fp, Unseen(fp, articles, seen), articles, seen)
    decreases |articles|
  {
    if articles != [] {
      UnseenCounts(fp, articles[1..], seen);
      assert articles == [articles[0]] + articles[1..];
    }
  }

  lemma {:induction false} NormalizedKeepsUsable(feed: seq<FeedArticle>)
    ensures forall a :: a in Normalized(feed) <==> a.url != "" && a.headline != "" && Announced(feed, a)
    decreases |feed|
  {
    if feed != [] {
      NormalizedKeepsUsable(feed[1..]);
      forall f ensures f in feed <==> f == feed[0] || f in feed[1..] {
        assert feed == [feed[0]] + feed[1..];
      }
    }
  }

  // ---- repeated ingests ----

  function SeenAfterRounds(fp: Fingerprint, rounds: seq<seq<Article>>, seen: set<string>): set<string> {
    if rounds == [] then seen
    else
      var before := SeenAfterRounds(fp, rounds[..|rounds| - 1], seen);
      before + Prints(fp, Unseen(fp, rounds[|rounds| - 1], before))
  }

  /** What round `i` of a sequence of ingests lets through. */
  function Through(fp: Fingerprint, rounds: seq<seq<Article>>, seen: set<string>, i: nat): seq<Article>
    requires i < |rounds|
  {
    Unseen(fp, rounds[i], SeenAfterRounds(fp, rounds[..i], seen))
  }

  lemma {:induction false} UnseenIsUnseen(fp: Fingerprint, articles: seq<Article>, seen: set<string>)
    ensures Prints(fp, Unseen(fp, articles, seen)) !! seen
    decreases |articles|
  {
    if articles != [] {
      UnseenIsUnseen(fp, articles[1..], seen);
      if fp(articles[0].url) !in seen {
        PrintsOf(fp, articles[0], Unseen(fp, articles[1..], seen));
      }
    }
  }

  lemma {:induction false} RoundsAccumulate(fp: Fingerprint, rounds: seq<seq<Article>>, seen: set<string>, i: nat)
    requires i < |rounds|
    ensures Prints(fp, Through(fp, rounds, seen, i)) <= SeenAfterRounds(fp, rounds, seen)
    decreases |rounds|
  {
    var n := |rounds| - 1;
    if i < n {
      assert rounds[..n][..i] == rounds[..i];
      RoundsAccumulate(fp, rounds[..n], seen, i);
    }
  }

  /** No fingerprint comes through two different ingests. */
  lemma {:induction false} IngestsAreDisjoint(fp: Fingerprint, rounds: seq<seq<Article>>, seen: set<string>,
                                              i: nat, j: nat)
    requires i < j < |rounds|
    ensures Prints(fp, Through(fp, rounds, seen, i)) !! Prints(fp, Through(fp, rounds, seen, j))
  {
    assert rounds[..j][..i] == rounds[..i];
    RoundsAccumulate(fp, rounds[..j], seen, i);
    UnseenIsUnseen(fp, rounds[j], SeenAfterRounds(fp, rounds[..j], seen));
  }
}

/**
 * The "Discover" article feed (src/components/explore/discover.tsx): pages of three articles
 * fetched by offset, merged into the list without re-adding a URL that is already shown.
 */
module Discover {
  import opened Wrappers
  import opened Seqs
  import opened Text

  datatype Article = Article(
    id: int,
    title: string,
    excerpt: string,
    authors: Option<seq<string>>,
    imageUrl: string,
    readTime: Option<string>,
    category: Option<string>,
    url: string,
    publishedDate: Option<string>)

  /** Articles requested per page. */
  const Limit: nat := 3

  function Url(a: Article): string {
    a.url
  }

  /** `prev.some((p) => p.url === url)`. */
  predicate UrlShown(prev: seq<Article>, url: string) {
    exists i :: 0 <= i < |prev| && prev[i].url == url
  }

  /** The filter test of a merge: the article's URL is not shown in `prev`. */
  function NotShownIn(prev: seq<Article>): Article -> bool {
    (a: Article) => !UrlShown(prev, a.url)
  }

  /** The articles of a batch whose URL is not shown yet, in batch order. */
  function Fresh(prev: seq<Article>, batch: seq<Article>): (r: seq<Article>)
    ensures forall i :: 0 <= i < |r| ==> !UrlShown(prev, r[i].url)
    ensures forall i :: 0 <= i < |batch| && !UrlShown(prev, batch[i].url) ==> batch[i] in r
    ensures multiset(r) <= multiset(batch)
  {
    Filter(batch, NotShownIn(prev))
  }

  /** The state update after a page arrives: the old list, then the batch's new-URL articles. */
  function Merge(prev: seq<Article>, batch: seq<Article>): (r: seq<Article>)
    ensures prev <= r
    ensures forall i :: |prev| <= i < |r| ==> !UrlShown(prev, r[i].url)
    ensures forall i :: 0 <= i < |batch| ==> UrlShown(r, batch[i].url)
    ensures multiset(r[|prev|..]) <= multiset(batch)
  {
    var r := prev + Fresh(prev, batch);
    assert r[|prev|..] == Fresh(prev, batch);
    forall i | 0 <= i < |batch| ensures UrlShown(r, batch[i].url) {
      if UrlShown(prev, batch[i].url) {
        var j :| 0 <= j < |prev| && prev[j].url == batch[i].url;
        assert r[j] == prev[j];
      } else {
        var f := Fresh(prev, batch);
        assert batch[i] in f;
        var j :| 0 <= j < |f| && f[j] == batch[i];
        assert r[|prev| + j] == batch[i];
      }
    }
    r
  }

  /** Two batches merged against the same list: the second's survivors follow the first's. */
  lemma MergeKeepsBatchOrder(prev: seq<Article>, b1: seq<Article>, b2: seq<Article>)
    ensures Merge(prev, b1 + b2) == Merge(prev, b1) + Fresh(prev, b2)
  {
    FilterAppend(b1, b2, NotShownIn(prev));
  }

  /** Delivering the same page twice appends it once. */
  lemma MergeIsIdempotent(prev: seq<Article>, batch: seq<Article>)
    ensures Merge(Merge(prev, batch), batch) == Merge(prev, batch)
  {
    var once := Merge(prev, batch);
    FilterNone(batch, NotShownIn(once));
  }

  /** The merged list has distinct URLs when the old list and the batch each had. */
  lemma MergeKeepsUrlsDistinct(prev: seq<Article>, batch: seq<Article>)
    requires DistinctBy(prev, Url) && DistinctBy(batch, Url)
    ensures DistinctBy(Merge(prev, batch), Url)
  {
    var f := Fresh(prev, batch);
    FilterKeepsDistinct(batch, NotShownIn(prev), Url);
    var r := Merge(prev, batch);
    assert r == prev + f;
    forall i, j | 0 <= i < j < |r| ensures r[i].url != r[j].url {
      if j >= |prev| {
        assert r[j] == f[j - |prev|];
        if i >= |prev| {
          assert r[i] == f[i - |prev|];
        } else {
          assert r[i] == prev[i];
        }
      }
    }
  }

  /** Duplicates inside one batch are not removed. */
  lemma BatchDuplicatesSurvive(a: Article, b: Article)
    requires a.url == b.url
    ensures Merge([], [a, b]) == [a, b]
    ensures !DistinctBy(Merge([], [a, b]), Url)
  {
    var batch := [a, b];
    assert NotShownIn([])(batch[0]) && NotShownIn([])(batch[1]);
    FilterAll(batch, NotShownIn([]));
    var m := Merge([], batch);
    assert m == [] + batch == batch;
    assert Url(m[0]) == Url(m[1]);
  }

  /** The author line of a card: none for a missing or empty list, else the first name and a count. */
  function AuthorLine(authors: Option<seq<string>>): (r: Option<string>)
    ensures r.None? <==> authors.None? || authors.value == []
    ensures r.Some? && |authors.value| == 1 ==> r.value == authors.value[0]
    ensures r.Some? && |authors.value| > 1 ==>
      r.value == authors.value[0] + " +" + NatToString(|authors.value| - 1)
  {
    match authors
    case None => None
    case Some(names) =>
      if |names| == 0 then None
      else if |names| > 1 then Some(names[0] + " +" + NatToString(|names| - 1))
      else Some(names[0])
  }

  /** The component's state cells. */
  class DiscoverFeed {
    var articles: seq<Article>
    var loading: bool
    var page: nat
    var disabled: bool

    constructor()
      ensures articles == [] && !loading && page == 0 && !disabled
    {
      articles := [];
      loading := false;
      page := 0;
      disabled := false;
    }

    /** The effect's start: show the spinner and request `limit` articles from `page * limit`. */
    method StartFetch() returns (limit: nat, offset: nat)
      modifies this
      ensures limit == Limit && offset == page * Limit
      ensures loading
      ensures articles == old(articles) && page == old(page) && disabled == old(disabled)
    {
      loading := true;
      limit := Limit;
      offset := page * limit;
    }

    /**
     * The response arrives. `None` is a body without an `articles` array: reading its length
     * throws, so nothing after it runs and the spinner stays on.
     */
    method FinishFetch(batch: Option<seq<Article>>)
      modifies this
      ensures batch.None? ==> articles == old(articles) && loading == old(loading) && disabled == old(disabled)
      ensures batch.Some? ==>
        && articles == Merge(old(articles), batch.value)
        && !loading
        && disabled == (old(disabled) || batch.value == [])
      ensures old(articles) <= articles
      ensures old(disabled) ==> disabled
      ensures page == old(page)
    {
      if batch.None? {
        return;
      }
      if |batch.value| == 0 {
        disabled := true;
      }
      articles := Merge(articles, batch.value);
      loading := false;
    }

    /** "Load More Articles": the next page; a disabled button ignores the click. */
    method LoadMore()
      modifies this
      ensures page == if old(disabled) then old(page) else old(page) + 1
      ensures articles == old(articles) && loading == old(loading) && disabled == old(disabled)
    {
      if !disabled {
        page := page + 1;
      }
    }
  }
}

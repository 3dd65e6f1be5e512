/** `getTags`: fetch one page of tags from the store, newest first, then
    merge the usage counts into it. The store's pagination (mongoose-paginate)
    is library code; `Paginate` stands in for it. */
module Listing {
  import opened TagModel
  import opened KeywordFilter
  import opened TagCounts

  /** Ids of the stored tags below `bound` that pass the query, newest
      (largest id) first. */
  function MatchingIds(store: map<TagId, Tag>, bound: nat, q: Query): (r: seq<TagId>)
    ensures forall i :: 0 <= i < |r| ==> r[i] < bound && r[i] in store && Matches(q, store[r[i]])
    ensures forall i, j :: 0 <= i < j < |r| ==> r[i] > r[j]
    ensures forall id :: id < bound && id in store && Matches(q, store[id]) ==> id in r
    decreases bound
  {
    if bound == 0 then []
    else
      var id := bound - 1;
      (if id in store && Matches(q, store[id]) then [id] else []) + MatchingIds(store, id, q)
  }

  /** Number of pages: `Math.ceil(total / limit) || 1`. */
  function PageCount(total: nat, limit: Pos): (n: nat)
    ensures n >= 1 && (total == 0 ==> n == 1)
    ensures total <= n * limit
    ensures total > 0 ==> (n - 1) * limit < total
  {
    if total == 0 then 1 else (total + limit - 1) / limit
  }

  /** The ids of one page: skip `skip` ids, keep at most `limit`. */
  function Window(ids: seq<TagId>, skip: nat, limit: nat): (w: seq<TagId>)
    ensures |w| <= limit && |w| <= |ids|
    ensures forall i :: 0 <= i < |w| ==> skip + i < |ids| && w[i] == ids[skip + i]
    ensures skip < |ids| ==> |w| == if skip + limit <= |ids| then limit else |ids| - skip
  {
    if skip >= |ids| then []
    else ids[skip .. if skip + limit <= |ids| then skip + limit else |ids|]
  }

  /** One page of the listing: skip `(page - 1) * limit` ids, keep at most
      `limit`. */
  function Paginate(store: map<TagId, Tag>, bound: nat, q: Query, o: Options): (p: Page)
    requires WellKeyed(store)
    ensures p.total == |MatchingIds(store, bound, q)| && p.pages == PageCount(p.total, o.limit)
    ensures |p.docs| <= o.limit
    ensures forall i :: 0 <= i < |p.docs| ==>
      p.docs[i].id in store && store[p.docs[i].id] == p.docs[i] && Matches(q, p.docs[i])
    ensures forall i, j :: 0 <= i < j < |p.docs| ==> p.docs[i].id > p.docs[j].id
  {
    var ids := MatchingIds(store, bound, q);
    var slice := Window(ids, (o.page - 1) * o.limit, o.limit);
    Page(seq(|slice|, i requires 0 <= i < |slice| => store[slice[i]]), |ids|, PageCount(|ids|, o.limit))
  }

  /** What `getTags` hands to its success callback, or `None` when the page
      fetch failed (the error callback). */
  function TagsResult(store: map<TagId, Tag>, bound: nat, articles: seq<Article>, q: Query, o: Options,
                      req: Option<Caller>, fetchOk: bool, aggOk: bool): (r: Option<Page>)
    requires WellKeyed(store)
    ensures r.Some? <==> fetchOk
    ensures r.Some? ==> r.value.total == |MatchingIds(store, bound, q)| && r.value.pages == PageCount(r.value.total, o.limit)
    ensures r.Some? ==> |r.value.docs| <= o.limit
  {
    if !fetchOk then None
    else
      var page := Paginate(store, bound, q, o);
      Some(CountedPage(page, if aggOk then Some(Aggregate(articles, PublicOnly(req))) else None))
  }

  /** `getTags`: paginate, then run the aggregation and merge its counts. */
  method GetTags(store: map<TagId, Tag>, bound: nat, articles: seq<Article>, q: Query, o: Options,
                 req: Option<Caller>, fetchOk: bool, aggOk: bool) returns (r: Option<Page>)
    requires WellKeyed(store)
    ensures r == TagsResult(store, bound, articles, q, o, req, fetchOk, aggOk)
    ensures r.Some? <==> fetchOk
  {
    if !fetchOk {
      return None;
    }
    var page := Paginate(store, bound, q, o);
    if aggOk {
      var merged := MergeCounts(page.docs, Aggregate(articles, PublicOnly(req)));
      page := page.(docs := merged);
    }
    r := Some(page);
  }

  /** The counts in a fetched page: a tag's count is its usage among the
      articles visible to the caller; a page whose aggregation failed
      carries the stored tags unchanged. */
  lemma TagsResultCounts(store: map<TagId, Tag>, bound: nat, articles: seq<Article>, q: Query, o: Options,
                         req: Option<Caller>, aggOk: bool)
    requires WellKeyed(store)
    ensures var p := Paginate(store, bound, q, o);
      var r := TagsResult(store, bound, articles, q, o, req, true, aggOk).value;
      && |r.docs| == |p.docs| && r.total == p.total && r.pages == p.pages
      && forall i :: 0 <= i < |p.docs| ==>
           r.docs[i] == if aggOk then p.docs[i].(count := Some(Occurrences(articles, PublicOnly(req), p.docs[i].id)))
                        else p.docs[i]
  {
    CountedPageSpec(Paginate(store, bound, q, o), articles, PublicOnly(req), aggOk);
  }

  /** With the default keyword `''` a list request filters nothing: its
      listing is the listing of `{}`. */
  lemma {:induction false} DefaultKeywordListsAll(store: map<TagId, Tag>, bound: nat)
    ensures MatchingIds(store, bound, Keyword("")) == MatchingIds(store, bound, Everything)
    decreases bound
  {
    if bound > 0 {
      var id := bound - 1;
      if id in store {
        DefaultKeywordMatchesAll(store[id]);
      }
      DefaultKeywordListsAll(store, id);
    }
  }

  /** `spo` occurs in `sports` and not in `food`. */
  lemma SpoFilter()
    ensures Matches(Keyword("spo"), Tag(1, "sports", "sports", "", None))
    ensures !Matches(Keyword("spo"), Tag(2, "food", "food", "", None))
  {
    assert Contains("sports", "spo");
    MissingFirstChar("food", "spo");
    MissingFirstChar("", "spo");
  }

  /** Of two stored tags, the listing keeps exactly the one that passes. */
  lemma TwoTagListing(a: Tag, b: Tag, q: Query)
    requires Matches(q, a) && !Matches(q, b)
    ensures MatchingIds(map[1 := a, 2 := b], 3, q) == [1]
  {
    var store := map[1 := a, 2 := b];
    assert 0 !in store && 1 in store && 2 in store && store[1] == a && store[2] == b;
    assert MatchingIds(store, 0, q) == [];
    assert MatchingIds(store, 1, q) == [] + MatchingIds(store, 0, q);
    assert MatchingIds(store, 2, q) == [1] + MatchingIds(store, 1, q);
    assert MatchingIds(store, 3, q) == [] + MatchingIds(store, 2, q);
  }

  /** The keyword `spo` against tags named `sports` and `food` lists only
      `sports`. */
  lemma KeywordExample()
    ensures var store := map[1 := Tag(1, "sports", "sports", "", None), 2 := Tag(2, "food", "food", "", None)];
      MatchingIds(store, 3, Keyword("spo")) == [1]
  {
    SpoFilter();
    TwoTagListing(Tag(1, "sports", "sports", "", None), Tag(2, "food", "food", "", None), Keyword("spo"));
  }
}

/** Usage counts of tags: the `$match` / `$unwind` / `$group` pipeline over
    the article collection, and the merge of its result into a page of tags. */
module TagCounts {
  import opened TagModel

  // ---------------------------------------------------------------------
  // Visibility
  // ---------------------------------------------------------------------

  /** The `$match` stage is restricted to published public articles exactly
      when there is a request and it is not authorized; a call without a
      request (the warm-up) counts every article. */
  function PublicOnly(req: Option<Caller>): (r: bool)
    ensures req.None? || req.value.authorized ==> !r && forall a :: Visible(a, r)
    ensures req.Some? && !req.value.authorized ==> r && forall a :: Visible(a, r) ==> a.state == 1 && a.isPublic == 1
  {
    match req
    case None => false
    case Some(c) => !c.authorized
  }

  /** Whether an article passes the `$match` stage: under the public
      restriction, exactly when the published public filter keeps it. */
  predicate Visible(a: Article, publicOnly: bool): (r: bool)
    ensures !publicOnly ==> r
    ensures publicOnly ==> (r <==> PublishedPublic([a]) == [a])
  {
    !publicOnly || (a.state == 1 && a.isPublic == 1)
  }

  // ---------------------------------------------------------------------
  // $match + $unwind
  // ---------------------------------------------------------------------

  /** The tag ids of the matching articles, one entry per occurrence, in
      article order. */
  function Unwind(articles: seq<Article>, publicOnly: bool): (r: seq<TagId>)
    ensures |r| == TagLength(articles, publicOnly)
  {
    if articles == [] then []
    else (if Visible(articles[0], publicOnly) then articles[0].tag else [])
         + Unwind(articles[1..], publicOnly)
  }

  /** Reference definition of a tag's usage: its occurrences in the `tag`
      arrays of the matching articles, summed article by article. */
  function Occurrences(articles: seq<Article>, publicOnly: bool, id: TagId): nat {
    if articles == [] then 0
    else (if Visible(articles[0], publicOnly) then multiset(articles[0].tag)[id] else 0)
         + Occurrences(articles[1..], publicOnly, id)
  }

  /** The total length of the `tag` arrays of the matching articles. */
  function TagLength(articles: seq<Article>, publicOnly: bool): nat {
    if articles == [] then 0
    else (if Visible(articles[0], publicOnly) then |articles[0].tag| else 0)
         + TagLength(articles[1..], publicOnly)
  }

  lemma {:induction false} UnwindOccurrences(articles: seq<Article>, publicOnly: bool, id: TagId)
    ensures multiset(Unwind(articles, publicOnly))[id] == Occurrences(articles, publicOnly, id)
    ensures |Unwind(articles, publicOnly)| == TagLength(articles, publicOnly)
  {
    if articles != [] {
      UnwindOccurrences(articles[1..], publicOnly, id);
    }
  }

  /** The published public articles, in order. */
  function PublishedPublic(articles: seq<Article>): seq<Article> {
    if articles == [] then []
    else (if articles[0].state == 1 && articles[0].isPublic == 1 then [articles[0]] else [])
         + PublishedPublic(articles[1..])
  }

  /** Restricting the `$match` stage to public visibility counts exactly
      what counting all articles of the published public subset gives. */
  lemma {:induction false} PublicOnlyIsFilter(articles: seq<Article>, id: TagId)
    ensures Occurrences(articles, true, id) == Occurrences(PublishedPublic(articles), false, id)
  {
    if articles != [] {
      PublicOnlyIsFilter(articles[1..], id);
      var head := if articles[0].state == 1 && articles[0].isPublic == 1 then [articles[0]] else [];
      OccurrencesAppend(head, PublishedPublic(articles[1..]), id);
    }
  }

  lemma {:induction false} OccurrencesAppend(xs: seq<Article>, ys: seq<Article>, id: TagId)
    ensures Occurrences(xs + ys, false, id) == Occurrences(xs, false, id) + Occurrences(ys, false, id)
  {
    if xs != [] {
      assert (xs + ys)[0] == xs[0];
      assert (xs + ys)[1..] == xs[1..] + ys;
      OccurrencesAppend(xs[1..], ys, id);
    } else {
      assert xs + ys == ys;
    }
  }

  /** The visibility rule: a request that is present and not authorized
      counts only articles with `state == 1` and `public == 1`; an
      authorized request, or no request at all (the warm-up), counts every
      article. */
  lemma VisibilityRule(req: Option<Caller>, articles: seq<Article>, id: TagId)
    ensures req.Some? && !req.value.authorized ==>
      Occurrences(articles, PublicOnly(req), id) == Occurrences(PublishedPublic(articles), false, id)
    ensures req.None? || req.value.authorized ==>
      Occurrences(articles, PublicOnly(req), id) == Occurrences(articles, false, id)
  {
    PublicOnlyIsFilter(articles, id);
  }

  // ---------------------------------------------------------------------
  // $group
  // ---------------------------------------------------------------------

  /** No two groups share an id. */
  ghost predicate DistinctIds(groups: seq<Group>) {
    forall i, j :: 0 <= i < j < |groups| ==> groups[i].id != groups[j].id
  }

  /** The first group with the given id (`counts.find(...)`). */
  function Find(groups: seq<Group>, id: TagId): (r: Option<Group>)
    ensures r.Some? ==> r.value in groups && r.value.id == id
    ensures r.None? <==> forall g :: g in groups ==> g.id != id
  {
    if groups == [] then None
    else if groups[0].id == id then Some(groups[0])
    else Find(groups[1..], id)
  }

  /** The count merged into a tag: the group's `num_tutorial`, 0 if none. */
  function CountFor(groups: seq<Group>, id: TagId): nat {
    match Find(groups, id)
    case Some(g) => g.numTutorial
    case None => 0
  }

  /** Sum of `num_tutorial` over all groups. */
  function Total(groups: seq<Group>): nat {
    if groups == [] then 0 else groups[0].numTutorial + Total(groups[1..])
  }

  /** One `$sum: 1` step: the group of `id` gains one, or a new group with
      count 1 is appended. */
  function Bump(groups: seq<Group>, id: TagId): (r: seq<Group>)
    ensures |groups| <= |r| <= |groups| + 1
  {
    if groups == [] then [Group(id, 1)]
    else if groups[0].id == id then [groups[0].(numTutorial := groups[0].numTutorial + 1)] + groups[1..]
    else [groups[0]] + Bump(groups[1..], id)
  }

  /** `$group` by id with `$sum: 1`, folded over the unwound ids. Groups come
      out in order of first occurrence. */
  function GroupBy(ids: seq<TagId>): (r: seq<Group>)
    ensures |r| <= |ids|
    ensures ids != [] ==> r != []
  {
    if ids == [] then [] else Bump(GroupBy(ids[..|ids| - 1]), ids[|ids| - 1])
  }

  /** The whole aggregation pipeline. */
  function Aggregate(articles: seq<Article>, publicOnly: bool): (r: seq<Group>)
    ensures |r| <= TagLength(articles, publicOnly)
  {
    GroupBy(Unwind(articles, publicOnly))
  }

  lemma {:induction false} BumpCount(groups: seq<Group>, id: TagId, x: TagId)
    ensures CountFor(Bump(groups, id), x) == CountFor(groups, x) + (if x == id then 1 else 0)
  {
    if groups != [] && groups[0].id != id {
      BumpCount(groups[1..], id, x);
      assert Bump(groups, id)[1..] == Bump(groups[1..], id);
    }
  }

  lemma {:induction false} BumpTotal(groups: seq<Group>, id: TagId)
    ensures Total(Bump(groups, id)) == Total(groups) + 1
  {
    if groups == [] {
    } else if groups[0].id == id {
      assert Bump(groups, id)[1..] == groups[1..];
    } else {
      BumpTotal(groups[1..], id);
      assert Bump(groups, id)[1..] == Bump(groups[1..], id);
    }
  }

  lemma {:induction false} BumpShape(groups: seq<Group>, id: TagId)
    requires DistinctIds(groups)
    requires forall g :: g in groups ==> g.numTutorial >= 1
    ensures DistinctIds(Bump(groups, id))
    ensures forall g :: g in Bump(groups, id) ==> g.numTutorial >= 1
    ensures forall g :: g in Bump(groups, id) ==> g.id == id || g in groups
  {
    if groups != [] && groups[0].id != id {
      BumpShape(groups[1..], id);
      var r := Bump(groups, id);
      assert r[1..] == Bump(groups[1..], id);
      forall j | 0 < j < |r| ensures r[0].id != r[j].id {
        assert r[j] in r[1..];
        if r[j].id != id {
          assert r[j] in groups[1..];
        }
      }
    }
  }

  /** Grouped counts: after `$unwind` + `$group`, the count merged for an id
      is its number of occurrences among the unwound ids. */
  lemma {:induction false} GroupByCounts(ids: seq<TagId>, x: TagId)
    ensures CountFor(GroupBy(ids), x) == multiset(ids)[x]
  {
    if ids != [] {
      var n := |ids| - 1;
      GroupByCounts(ids[..n], x);
      BumpCount(GroupBy(ids[..n]), ids[n], x);
      assert ids == ids[..n] + [ids[n]];
    }
  }

  /** The counts summed over all groups equal the number of unwound ids. */
  lemma {:induction false} GroupByTotal(ids: seq<TagId>)
    ensures Total(GroupBy(ids)) == |ids|
  {
    if ids != [] {
      var n := |ids| - 1;
      GroupByTotal(ids[..n]);
      BumpTotal(GroupBy(ids[..n]), ids[n]);
    }
  }

  /** `$group` emits one document per distinct id, each with a positive
      count, and only for ids that occur. */
  lemma {:induction false} GroupByShape(ids: seq<TagId>)
    ensures DistinctIds(GroupBy(ids))
    ensures forall g :: g in GroupBy(ids) ==> g.numTutorial >= 1 && g.id in ids
  {
    if ids != [] {
      var n := |ids| - 1;
      GroupByShape(ids[..n]);
      BumpShape(GroupBy(ids[..n]), ids[n]);
      forall g | g in GroupBy(ids) ensures g.id in ids {
        if g.id != ids[n] {
          assert g in GroupBy(ids[..n]);
        }
      }
    }
  }

  /** With distinct ids the lookup does not depend on the order `$group`
      emits its documents in: every group is the one found for its id. */
  lemma {:induction false} FindDistinct(groups: seq<Group>, i: nat)
    requires DistinctIds(groups) && i < |groups|
    ensures CountFor(groups, groups[i].id) == groups[i].numTutorial
  {
    if i > 0 {
      assert DistinctIds(groups[1..]);
      FindDistinct(groups[1..], i - 1);
    }
  }

  /** Per-tag counts of the pipeline, against the article-by-article
      reference, and the grand total against the summed array lengths. */
  lemma AggregateCounts(articles: seq<Article>, publicOnly: bool, id: TagId)
    ensures CountFor(Aggregate(articles, publicOnly), id) == Occurrences(articles, publicOnly, id)
    ensures Total(Aggregate(articles, publicOnly)) == TagLength(articles, publicOnly)
  {
    GroupByCounts(Unwind(articles, publicOnly), id);
    GroupByTotal(Unwind(articles, publicOnly));
    UnwindOccurrences(articles, publicOnly, id);
  }

  /** Restricting to published public articles never raises a count. */
  lemma {:induction false} PublicAtMostAll(articles: seq<Article>, id: TagId)
    ensures Occurrences(articles, true, id) <= Occurrences(articles, false, id)
  {
    if articles != [] {
      PublicAtMostAll(articles[1..], id);
    }
  }

  /** An article that fails the public filter still counts for an
      authorized caller, and adds nothing to the public count. */
  lemma {:induction false} HiddenArticleCountsOnlyForAll(articles: seq<Article>, a: Article, id: TagId)
    requires !(a.state == 1 && a.isPublic == 1)
    ensures Occurrences([a] + articles, true, id) == Occurrences(articles, true, id)
    ensures Occurrences([a] + articles, false, id) == multiset(a.tag)[id] + Occurrences(articles, false, id)
  {
    assert ([a] + articles)[1..] == articles;
  }

  // ---------------------------------------------------------------------
  // Merge
  // ---------------------------------------------------------------------

  /** A tag with its count taken from the grouped counts. */
  function WithCount(t: Tag, groups: seq<Group>): Tag {
    t.(count := Some(CountFor(groups, t.id)))
  }

  /** Specification of the merge: every tag of the page, in order, with its
      count filled in. */
  function Enriched(docs: seq<Tag>, groups: seq<Group>): seq<Tag> {
    if docs == [] then []
    else Enriched(docs[..|docs| - 1], groups) + [WithCount(docs[|docs| - 1], groups)]
  }

  /** The merge keeps the page's length and order and changes only `count`,
      which becomes the group count of the tag's id, or 0. */
  lemma {:induction false} EnrichedAt(docs: seq<Tag>, groups: seq<Group>)
    ensures |Enriched(docs, groups)| == |docs|
    ensures forall i :: 0 <= i < |docs| ==>
      Enriched(docs, groups)[i] == docs[i].(count := Some(CountFor(groups, docs[i].id)))
  {
    if docs != [] {
      EnrichedAt(docs[..|docs| - 1], groups);
    }
  }

  /** The loop of `tags.docs.map(...)`: each tag of the page receives its
      count, the page keeps its length and order. */
  method MergeCounts(docs: seq<Tag>, groups: seq<Group>) returns (merged: seq<Tag>)
    ensures merged == Enriched(docs, groups)
  {
    merged := [];
    var i := 0;
    while i < |docs|
      invariant 0 <= i <= |docs|
      invariant merged == Enriched(docs[..i], groups)
    {
      var found := Find(groups, docs[i].id);
      var count := if found.Some? then found.value.numTutorial else 0;
      merged := merged + [docs[i].(count := Some(count))];
      assert docs[..i + 1][..i] == docs[..i];
      i := i + 1;
    }
    assert docs[..i] == docs;
  }

  /** `getTagsCount` on a fetched page: with grouped counts, the page with
      its docs enriched; when the aggregation failed (`None`), the page
      untouched. */
  function CountedPage(page: Page, counts: Option<seq<Group>>): (r: Page)
    ensures r.total == page.total && r.pages == page.pages && |r.docs| == |page.docs|
    ensures counts.None? ==> r == page
  {
    match counts
    case Some(groups) =>
      EnrichedAt(page.docs, groups);
      page.(docs := Enriched(page.docs, groups))
    case None => page
  }

  /** Public counts never exceed authorized counts: the same page merged
      with the public counts and with the full counts lists the same tags,
      and each public count is at most the full one. */
  lemma PublicPageAtMostAll(page: Page, articles: seq<Article>)
    ensures var pub := CountedPage(page, Some(Aggregate(articles, true)));
      var all := CountedPage(page, Some(Aggregate(articles, false)));
      && |pub.docs| == |all.docs| == |page.docs|
      && forall i :: 0 <= i < |page.docs| ==>
           && pub.docs[i].id == all.docs[i].id == page.docs[i].id
           && pub.docs[i].count.Some? && all.docs[i].count.Some?
           && pub.docs[i].count.value <= all.docs[i].count.value
  {
    var pubGroups, allGroups := Aggregate(articles, true), Aggregate(articles, false);
    EnrichedAt(page.docs, pubGroups);
    EnrichedAt(page.docs, allGroups);
    forall i | 0 <= i < |page.docs|
      ensures CountFor(pubGroups, page.docs[i].id) <= CountFor(allGroups, page.docs[i].id)
    {
      AggregateCounts(articles, true, page.docs[i].id);
      AggregateCounts(articles, false, page.docs[i].id);
      PublicAtMostAll(articles, page.docs[i].id);
    }
  }

  /** Count merge end to end: the page's length, order, total and page count
      survive; each tag's count is its usage among the visible articles; a
      failed aggregation hands the page on unchanged. */
  lemma CountedPageSpec(page: Page, articles: seq<Article>, publicOnly: bool, aggOk: bool)
    ensures var r := CountedPage(page, if aggOk then Some(Aggregate(articles, publicOnly)) else None);
      && r.total == page.total && r.pages == page.pages && |r.docs| == |page.docs|
      && (!aggOk ==> r == page)
      && (aggOk ==> forall i :: 0 <= i < |page.docs| ==>
            r.docs[i] == page.docs[i].(count := Some(Occurrences(articles, publicOnly, page.docs[i].id))))
  {
    var groups := Aggregate(articles, publicOnly);
    EnrichedAt(page.docs, groups);
    forall i | 0 <= i < |page.docs|
      ensures CountFor(groups, page.docs[i].id) == Occurrences(articles, publicOnly, page.docs[i].id)
    {
      AggregateCounts(articles, publicOnly, page.docs[i].id);
    }
  }
}

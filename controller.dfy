/** The tag controller: the list handler with its cache slot and refresh
    throttle, and the create / update / delete handlers over the tag store.

    The process-wide state of the source (the `canGetTags` flag, the `'tags'`
    cache entry, the tag collection) is the state of one `TagController`
    object. Time is an explicit clock that callers advance. A background
    `getTags` call (the start-up warm-up and every throttled public refresh)
    is queued in `pending` when it is started and takes effect when
    `CompleteRefresh` is called for it, so reads can interleave with it. */
module TagCtrl {
  import opened TagModel
  import opened KeywordFilter
  import opened TagCounts
  import opened Listing

  /** `req.query` of a list request (`page`, `per_page`, `keyword`, each
      possibly absent) and the outcome of the authorization check. */
  datatype ListRequest = ListRequest(page: Option<Pos>, perPage: Option<Pos>, keyword: Option<string>, authorized: bool)

  /** The body of a successful list response. */
  datatype Response = Response(total: nat, currentPage: nat, totalPage: nat, perPage: nat, data: seq<Tag>)

  /** A started background `getTags` call: what it will fetch, and for whom. */
  datatype Refresh = Refresh(query: Query, options: Options, req: Option<Caller>)

  datatype Error =
    | MissingSlug   // create without a slug
    | InvalidSlug   // update with an empty or absent slug
    | SlugTaken     // the slug belongs to (another) tag
    | MissingIds    // bulk delete without ids
    | StoreFailed   // a store operation failed
    | FetchFailed   // the page fetch of an authorized list request failed
    | CacheEmpty    // a public list request found no cache entry

  datatype Result<T> = Ok(value: T) | Err(error: Error)

  /** The body of a create request; `slug` is `None` when null or undefined. */
  datatype NewTag = NewTag(name: string, slug: Option<string>, description: string)

  /** The body of an update request; absent fields are left as they are. */
  datatype TagPatch = TagPatch(name: Option<string>, slug: Option<string>, description: Option<string>)

  /** Pagination options of a list request: `page` defaults to 1 and
      `per_page` to 12. */
  function RequestOptions(req: ListRequest): (o: Options)
    ensures o.page == if req.page.Some? then req.page.value else 1
    ensures o.limit == if req.perPage.Some? then req.perPage.value else 12
  {
    Options(req.page.GetOr(DefaultPage), req.perPage.GetOr(DefaultPerPage))
  }

  /** The store query of a list request; `keyword` defaults to `''`. */
  function RequestQuery(req: ListRequest): (q: Query)
    ensures q.Keyword? && (req.keyword.Some? ==> q.keyword == req.keyword.value)
    ensures req.keyword.None? ==> forall t :: Matches(q, t)
  {
    Keyword(req.keyword.GetOr(""))
  }

  /** The start-up warm-up: `{}`, newest first, page 1 of 160, no request. */
  const WarmUp: Refresh := Refresh(Everything, Options(DefaultPage, WarmUpLimit), None)

  /** `querySuccess`: totals and data from the page, `current_page` and
      `per_page` from the request's options. */
  function QuerySuccess(p: Page, o: Options): (r: Response)
    ensures r.data == p.docs && r.total == p.total && r.totalPage == p.pages
    ensures r.currentPage == o.page && r.perPage == o.limit
  {
    Response(p.total, o.page, p.pages, o.limit, p.docs)
  }

  /** Some stored tag has this slug (`Tag.find({ slug })` is non-empty). */
  predicate SlugHeld(store: map<TagId, Tag>, slug: string): (r: bool)
    ensures !r ==> forall self :: !SlugHeldByOther(store, slug, self)
    ensures r ==> forall self :: self !in store ==> SlugHeldByOther(store, slug, self)
  {
    exists id | id in store :: store[id].slug == slug
  }

  /** A stored tag other than `self` has this slug. */
  predicate SlugHeldByOther(store: map<TagId, Tag>, slug: string, self: TagId): (r: bool)
    ensures r ==> exists id | id in store :: store[id].slug == slug
    ensures (exists id | id in store :: store[id].slug == slug) && !r ==> self in store && store[self].slug == slug
  {
    exists id | id in store && id != self :: store[id].slug == slug
  }

  /** A tag after an update: the given fields replaced, the others kept.
      A patch that repeats the tag's own fields changes nothing, and
      applying the same patch twice is applying it once. */
  function Patched(t: Tag, p: TagPatch): (r: Tag)
    requires p.slug.Some?
    ensures r.id == t.id && r.count == t.count && r.slug == p.slug.value
    ensures r.name == (if p.name.Some? then p.name.value else t.name)
    ensures r.description == (if p.description.Some? then p.description.value else t.description)
    ensures p == TagPatch(Some(t.name), Some(t.slug), Some(t.description)) ==> r == t
    ensures r.(name := p.name.GetOr(r.name), slug := p.slug.value, description := p.description.GetOr(r.description)) == r
  {
    t.(name := p.name.GetOr(t.name), slug := p.slug.value, description := p.description.GetOr(t.description))
  }

  function IdSet(ids: seq<TagId>): set<TagId> {
    set id | id in ids
  }

  /** Trigger times at least one cooldown apart. */
  ghost predicate Spaced(ts: seq<nat>) {
    forall i, j :: 0 <= i < j < |ts| ==> ts[i] + Cooldown <= ts[j]
  }

  /** Throttle: in any window of one cooldown length at most one refresh is
      triggered, however many public reads arrive. */
  lemma AtMostOneTriggerPerWindow(ts: seq<nat>, t: nat)
    requires Spaced(ts)
    ensures |set k | 0 <= k < |ts| && t <= ts[k] < t + Cooldown| <= 1
  {
    var inWindow := set k | 0 <= k < |ts| && t <= ts[k] < t + Cooldown;
    if inWindow != {} {
      var k :| k in inWindow;
      forall j | j in inWindow ensures j == k {
      }
      assert inWindow == {k};
    }
  }

  class TagController {
    /** The tag collection, by id. */
    var store: map<TagId, Tag>
    /** The id the next created tag receives. */
    var nextId: nat
    /** The `'tags'` cache entry. */
    var cache: Option<Page>
    /** The refresh gate. */
    var canGetTags: bool
    /** When the gate's reopen timer fires (meaningful while it is closed). */
    var reopenAt: nat
    var clock: nat
    /** Background `getTags` calls started and not yet finished. */
    var pending: seq<Refresh>
    /** The times at which public reads triggered a refresh. */
    ghost var triggers: seq<nat>

    ghost predicate Valid()
      reads this
    {
      && WellKeyed(store) && SlugsUnique(store) && Below(store, nextId)
      && Spaced(triggers)
      && (forall k :: 0 <= k < |triggers| ==> triggers[k] <= clock)
      && (!canGetTags ==> triggers != [] && reopenAt == triggers[|triggers| - 1] + Cooldown && clock < reopenAt)
      && (canGetTags && triggers != [] ==> triggers[|triggers| - 1] + Cooldown <= clock)
    }

    /** Module load: the gate is open and the warm-up `getTags` has been
        started. The `'tags'` entry is whatever Redis still holds from an
        earlier run of the process (`cached`); loading the module does not
        clear it. */
    constructor (initial: map<TagId, Tag>, bound: nat, cached: Option<Page>, now: nat)
      requires WellKeyed(initial) && SlugsUnique(initial) && Below(initial, bound)
      ensures Valid()
      ensures store == initial && nextId == bound && clock == now
      ensures cache == cached && canGetTags && pending == [WarmUp] && triggers == []
    {
      store, nextId, clock := initial, bound, now;
      cache, canGetTags, reopenAt := cached, true, 0;
      pending, triggers := [WarmUp], [];
    }

    /** Time passes; the reopen timer fires once its deadline is reached. */
    method Tick(now: nat)
      requires Valid() && clock <= now
      modifies this
      ensures Valid() && clock == now
      ensures canGetTags == (old(canGetTags) || old(reopenAt) <= now)
      ensures store == old(store) && nextId == old(nextId) && cache == old(cache)
      ensures reopenAt == old(reopenAt) && pending == old(pending) && triggers == old(triggers)
    {
      clock := now;
      if !canGetTags && reopenAt <= now {
        canGetTags := true;
      }
    }

    /** `tagCtrl.list.GET`. An authorized request is answered from a fresh
        `getTags` with full counts and leaves cache and gate alone. A public
        request is answered with the cached page; if the gate is open it
        also starts a refresh with its own query and options, closes the
        gate and arms the timer one cooldown ahead. With no cache entry,
        building the response fails before the gate is consulted, so a
        public request then starts no refresh. */
    method ListGet(req: ListRequest, now: nat, articles: seq<Article>, fetchOk: bool, aggOk: bool)
      returns (r: Result<Response>)
      requires Valid() && clock <= now
      modifies this
      ensures Valid() && clock == now
      ensures store == old(store) && nextId == old(nextId) && cache == old(cache)
      ensures r.Ok? ==>
        r.value.currentPage == req.page.GetOr(DefaultPage) && r.value.perPage == req.perPage.GetOr(DefaultPerPage)
      ensures req.authorized ==>
        && r == (match TagsResult(store, nextId, articles, RequestQuery(req), RequestOptions(req),
                                  Some(Caller(true)), fetchOk, aggOk)
                 case Some(p) => Ok(QuerySuccess(p, RequestOptions(req)))
                 case None => Err(FetchFailed))
        && canGetTags == (old(canGetTags) || old(reopenAt) <= now)
        && reopenAt == old(reopenAt) && pending == old(pending) && triggers == old(triggers)
      ensures !req.authorized && old(cache).None? ==>
        && r == Err(CacheEmpty)
        && canGetTags == (old(canGetTags) || old(reopenAt) <= now)
        && reopenAt == old(reopenAt) && pending == old(pending) && triggers == old(triggers)
      ensures !req.authorized && old(cache).Some? ==>
        && r == Ok(QuerySuccess(old(cache).value, RequestOptions(req)))
        && r.value.data == old(cache).value.docs && r.value.total == old(cache).value.total
        && !canGetTags
        && if old(canGetTags) || old(reopenAt) <= now then
             && reopenAt == now + Cooldown
             && pending == old(pending) + [Refresh(RequestQuery(req), RequestOptions(req), Some(Caller(false)))]
             && triggers == old(triggers) + [now]
           else
             reopenAt == old(reopenAt) && pending == old(pending) && triggers == old(triggers)
    {
      Tick(now);
      var options := RequestOptions(req);
      var query := RequestQuery(req);
      if req.authorized {
        var tags := GetTags(store, nextId, articles, query, options, Some(Caller(true)), fetchOk, aggOk);
        r := if tags.Some? then Ok(QuerySuccess(tags.value, options)) else Err(FetchFailed);
        return;
      }
      if cache.None? {
        return Err(CacheEmpty);
      }
      r := Ok(QuerySuccess(cache.value, options));
      if canGetTags {
        pending := pending + [Refresh(query, options, Some(Caller(false)))];
        canGetTags := false;
        reopenAt := now + Cooldown;
        triggers := triggers + [now];
      }
    }

    /** A started `getTags` finishes: on success its page overwrites the
        cache entry wholesale; on failure nothing changes. The gate is not
        involved either way. */
    method CompleteRefresh(i: nat, articles: seq<Article>, fetchOk: bool, aggOk: bool)
      requires Valid() && i < |pending|
      modifies this
      ensures Valid()
      ensures pending == old(pending[..i] + pending[i + 1..])
      ensures var job := old(pending[i]);
        var result := TagsResult(old(store), old(nextId), articles, job.query, job.options, job.req, fetchOk, aggOk);
        cache == if result.Some? then result else old(cache)
      ensures store == old(store) && nextId == old(nextId) && clock == old(clock)
      ensures canGetTags == old(canGetTags) && reopenAt == old(reopenAt) && triggers == old(triggers)
    {
      var job := pending[i];
      pending := pending[..i] + pending[i + 1..];
      var tags := GetTags(store, nextId, articles, job.query, job.options, job.req, fetchOk, aggOk);
      if tags.Some? {
        cache := tags;
      }
    }

    /** `tagCtrl.list.POST`: a null or undefined slug is refused before the
        store is asked; a slug some tag holds is refused; otherwise exactly
        one tag is added. */
    method Post(body: NewTag, storeOk: bool) returns (r: Result<Tag>)
      requires Valid()
      modifies this
      ensures Valid()
      ensures body.slug.None? ==> r == Err(MissingSlug)
      ensures body.slug.Some? && !storeOk ==> r == Err(StoreFailed)
      ensures body.slug.Some? && storeOk && SlugHeld(old(store), body.slug.value) ==> r == Err(SlugTaken)
      ensures r.Ok? <==> body.slug.Some? && storeOk && !SlugHeld(old(store), body.slug.value)
      ensures r.Ok? ==>
        && r.value == Tag(old(nextId), body.name, body.slug.value, body.description, None)
        && old(nextId) !in old(store)
        && store == old(store)[old(nextId) := r.value] && nextId == old(nextId) + 1
      ensures r.Err? ==> store == old(store) && nextId == old(nextId)
      ensures cache == old(cache) && pending == old(pending) && clock == old(clock)
      ensures canGetTags == old(canGetTags) && reopenAt == old(reopenAt) && triggers == old(triggers)
    {
      if body.slug.None? {
        return Err(MissingSlug);
      }
      if !storeOk {
        return Err(StoreFailed);
      }
      var slug := body.slug.value;
      if SlugHeld(store, slug) {
        return Err(SlugTaken);
      }
      var tag := Tag(nextId, body.name, slug, body.description, None);
      store := store[nextId := tag];
      nextId := nextId + 1;
      r := Ok(tag);
    }

    /** `tagCtrl.item.PUT`: an absent or empty slug is refused; a slug held
        by a different tag is refused; otherwise only the target tag
        changes. An id with no tag is answered with `null`. */
    method Put(tagId: TagId, patch: TagPatch, storeOk: bool) returns (r: Result<Option<Tag>>)
      requires Valid()
      modifies this
      ensures Valid()
      ensures (patch.slug.None? || patch.slug == Some("")) ==> r == Err(InvalidSlug)
      ensures patch.slug.Some? && patch.slug.value != "" && !storeOk ==> r == Err(StoreFailed)
      ensures (patch.slug.Some? && patch.slug.value != "" && storeOk
               && SlugHeldByOther(old(store), patch.slug.value, tagId)) ==> r == Err(SlugTaken)
      ensures r.Ok? <==> patch.slug.Some? && patch.slug.value != "" && storeOk
                         && !SlugHeldByOther(old(store), patch.slug.value, tagId)
      ensures r.Ok? && tagId in old(store) ==>
        r.value == Some(Patched(old(store)[tagId], patch)) && store == old(store)[tagId := r.value.value]
      ensures r.Ok? && tagId !in old(store) ==> r.value == None && store == old(store)
      ensures r.Err? ==> store == old(store)
      ensures nextId == old(nextId) && cache == old(cache) && pending == old(pending) && clock == old(clock)
      ensures canGetTags == old(canGetTags) && reopenAt == old(reopenAt) && triggers == old(triggers)
    {
      if patch.slug.None? || patch.slug.value == "" {
        return Err(InvalidSlug);
      }
      if !storeOk {
        return Err(StoreFailed);
      }
      if SlugHeldByOther(store, patch.slug.value, tagId) {
        return Err(SlugTaken);
      }
      if tagId in store {
        var tag := Patched(store[tagId], patch);
        store := store[tagId := tag];
        r := Ok(Some(tag));
      } else {
        r := Ok(None);
      }
    }

    /** `tagCtrl.list.DELETE`: a missing or empty id list is refused;
        otherwise exactly the listed tags are removed, and the number
        removed is reported. */
    method DeleteMany(ids: Option<seq<TagId>>, storeOk: bool) returns (r: Result<nat>)
      requires Valid()
      modifies this
      ensures Valid()
      ensures (ids.None? || ids.value == []) ==> r == Err(MissingIds)
      ensures ids.Some? && ids.value != [] && !storeOk ==> r == Err(StoreFailed)
      ensures r.Ok? <==> ids.Some? && ids.value != [] && storeOk
      ensures r.Ok? ==>
        && store == old(store) - IdSet(ids.value)
        && r.value == |old(store).Keys * IdSet(ids.value)|
      ensures r.Err? ==> store == old(store)
      ensures nextId == old(nextId) && cache == old(cache) && pending == old(pending) && clock == old(clock)
      ensures canGetTags == old(canGetTags) && reopenAt == old(reopenAt) && triggers == old(triggers)
    {
      if ids.None? || ids.value == [] {
        return Err(MissingIds);
      }
      if !storeOk {
        return Err(StoreFailed);
      }
      var removed := store.Keys * IdSet(ids.value);
      store := store - IdSet(ids.value);
      r := Ok(|removed|);
    }

    /** `tagCtrl.item.DELETE`: the tag with the id is removed and returned,
        or `null` when there is none. */
    method DeleteOne(tagId: TagId, storeOk: bool) returns (r: Result<Option<Tag>>)
      requires Valid()
      modifies this
      ensures Valid()
      ensures !storeOk ==> r == Err(StoreFailed) && store == old(store)
      ensures storeOk ==>
        && r == Ok(if tagId in old(store) then Some(old(store)[tagId]) else None)
        && store == old(store) - {tagId}
      ensures nextId == old(nextId) && cache == old(cache) && pending == old(pending) && clock == old(clock)
      ensures canGetTags == old(canGetTags) && reopenAt == old(reopenAt) && triggers == old(triggers)
    {
      if !storeOk {
        return Err(StoreFailed);
      }
      r := Ok(if tagId in store then Some(store[tagId]) else None);
      store := store - {tagId};
    }
  }

  /** A run of the handlers. Before the warm-up lands, and for good once it
      has failed on an empty Redis, a public read is refused and starts no
      refresh; a process restarted over a filled cache serves it at once.
      The warm-up fills the cache; of three public
      reads only the first and the one a full cooldown later start a
      refresh, and the reads in between get the same answer; a taken slug
      is refused on create but a tag may keep its own slug on update. */
  method Scenario(articles: seq<Article>)
  {
    var req := ListRequest(None, None, None, false);

    var cold := new TagController(map[], 0, None, 0);
    cold.CompleteRefresh(0, articles, false, true);
    var r0 := cold.ListGet(req, 5, articles, true, true);
    assert r0 == Err(CacheEmpty) && cold.pending == [] && cold.cache.None?;

    var c := new TagController(map[], 0, None, 0);
    var early := c.ListGet(req, 0, articles, true, true);
    assert early == Err(CacheEmpty) && c.pending == [WarmUp];
    c.CompleteRefresh(0, articles, true, true);
    assert c.cache.Some? && c.pending == [];

    var restarted := new TagController(map[], 0, c.cache, 0);
    var rs := restarted.ListGet(req, 1, articles, true, true);
    assert rs.Ok? && restarted.pending == [WarmUp, Refresh(Keyword(""), Options(1, 12), Some(Caller(false)))];

    var r1 := c.ListGet(req, 10, articles, true, true);
    assert |c.pending| == 1 && !c.canGetTags;
    var r2 := c.ListGet(req, 20, articles, true, true);
    assert |c.pending| == 1 && r2 == r1;
    assert r1.value.currentPage == 1 && r1.value.perPage == 12;
    var r3 := c.ListGet(req, 10 + Cooldown, articles, true, true);
    assert |c.pending| == 2;

    var t1 := c.Post(NewTag("sports", Some("sports"), ""), true);
    assert t1.Ok? && c.store[0].slug == "sports";
    var t2 := c.Post(NewTag("sport", Some("sports"), ""), true);
    assert t2 == Err(SlugTaken);
    var u := c.Put(0, TagPatch(Some("Sports"), Some("sports"), None), true);
    assert u.Ok?;
    var d := c.DeleteMany(Some([]), true);
    assert d == Err(MissingIds);
  }
}

# Tag directory of nodepress, modelled in Dafny

This project models the tag controller of nodepress (`np-controller/tag.controller.js`).
The controller serves paginated, keyword-filtered tag lists. Each tag carries a usage count
taken from the article collection. Public list reads are served from a single cache entry,
and a throttle gate limits how often a public read may start a background refresh.
Authorized writers create, update and delete tags, and slugs stay unique.

Database, Redis and timers are replaced by explicit state:

- `types.dfy` (`TagModel`): tags, articles, grouped counts, queries, pages, the 5-minute cooldown and the default page sizes.
- `keyword.dfy` (`KeywordFilter`): the keyword filter, an OR of substring matches on name, slug and description.
- `counts.dfy` (`TagCounts`): the count pipeline.
  - the visibility rule of the `$match` stage
  - `$unwind` + `$group`, modelled as a fold (`GroupBy`)
  - the lookup `counts.find(...)`
  - the merge loop that writes `count` into every tag of a page (`MergeCounts`)
  - the pass-through when the aggregation fails
- `listing.dfy` (`Listing`): `getTags`, which fetches one page newest-first and merges the counts.
- `controller.dfy` (`TagCtrl`): class `TagController`. It holds:
  - the tag store as a map from id to tag, and the next id to hand out
  - the `'tags'` cache entry
  - the `canGetTags` gate and its reopen deadline
  - an explicit clock
  - the background `getTags` calls that have started (`pending`)

  Its methods are the list handler (`ListGet`), the completion of a background fetch
  (`CompleteRefresh`), the reopen timer (`Tick`) and the four mutation handlers.
  The constructor is module load: the gate opens, the warm-up fetch starts, and the cache entry is whatever Redis already holds.

Where a cache-aside reading of the handler differs from the code, the model follows the code:

- A public read with an empty cache gets no synchronous fallback. The code passes the missing entry to `querySuccess`, which fails at `tags.total` before the gate is consulted; the model answers `Err(CacheEmpty)` and starts no refresh. The warm-up has no error callback. So if Redis held no entry when the process started and the warm-up fails, the entry stays empty for the life of the process: an authorized read never writes the cache, and a public read can no longer start the refresh that would. Redis outlives the process, so after a restart over a filled entry this does not arise.
- A public refresh caches the page of the triggering request's own keyword, page and page size. It is not a canonical listing.
- The warm-up runs without a request, so its counts include unpublished and private articles.
- An update is refused for an empty slug as well as a missing one. Create refuses only a null or undefined slug.

## Model

| member | source | states |
|---|---|---|
| `KeywordFilter.ContainsAt` | np-controller/tag.controller.js:89-96 | keyword matching is substring containment: the text contains the keyword iff some position starts a copy of it |
| `KeywordFilter.Matches` | np-controller/tag.controller.js:89-96 | the store query: `{}` lets every tag through; the `$or` of three keyword matches lets a tag through iff the keyword occurs at some position of its name, its slug or its description |
| `KeywordFilter.NarrowerKeyword` | np-controller/tag.controller.js:89-96 | a tag that matches a keyword matches every keyword contained in it (longer keywords only narrow the `$or` filter) |
| `KeywordFilter.DefaultKeywordMatchesAll` | np-controller/tag.controller.js:79-96 | the default keyword `''` lets every tag through, exactly as the empty query does |
| `TagCounts.VisibilityRule` | np-controller/tag.controller.js:27-30 | the `$match` stage (`PublicOnly` choosing the restriction, `Visible` applying it): with a request that is present and not authorized, a tag's count equals its count over the published public articles alone (`state == 1 && public == 1`); with no request (the warm-up) or an authorized one, it equals its count over all articles |
| `TagCounts.Unwind` | np-controller/tag.controller.js:31-33 | `$match` + `$unwind` yields one id per entry of the matching articles' `tag` arrays: as many ids as those arrays hold together |
| `TagCounts.GroupBy` | np-controller/tag.controller.js:34-37 | `$group` with `$sum: 1` yields at most one document per unwound id, and at least one when there is any |
| `TagCounts.Aggregate` | np-controller/tag.controller.js:31-38 | the pipeline yields no more groups than the matching articles have tag entries |
| `TagCounts.Find` | np-controller/tag.controller.js:41 | the lookup returns a group of the collection with the sought id, and returns nothing exactly when no group has that id |
| `TagCounts.GroupByCounts` | np-controller/tag.controller.js:33-37 | after `$unwind` + `$group`, the count found for an id equals its number of occurrences among the unwound ids (0 when it does not occur) |
| `TagCounts.GroupByTotal` | np-controller/tag.controller.js:33-37 | the grouped counts summed over all ids equal the number of unwound ids |
| `TagCounts.GroupByShape` | np-controller/tag.controller.js:34-37 | `$group` yields one document per distinct id, each with a count of at least 1 and only for ids that occur |
| `TagCounts.FindDistinct` | np-controller/tag.controller.js:41 | with distinct group ids, the count found for each group's id is that group's count, whatever order the groups come in |
| `TagCounts.AggregateCounts` | np-controller/tag.controller.js:27-38 | each tag's count from the pipeline equals its occurrences in the `tag` arrays of the matching articles, summed article by article; the sum of all counts equals the total `tag`-array length of the matching articles |
| `TagCounts.PublicAtMostAll` | np-controller/tag.controller.js:27-30 | a tag's public count never exceeds its count over all articles |
| `TagCounts.HiddenArticleCountsOnlyForAll` | np-controller/tag.controller.js:28-30 | an article that is not published and public adds nothing to public counts but adds its occurrences to the full counts |
| `TagCounts.EnrichedAt` | np-controller/tag.controller.js:40-45 | the merged page has the page's length and order; each tag is unchanged except `count`, which is its group's `num_tutorial`, or 0 when no group has its id |
| `TagCounts.MergeCounts` | np-controller/tag.controller.js:40-45 | the loop over `tags.docs` computes the merged page |
| `TagCounts.PublicPageAtMostAll` | np-controller/tag.controller.js:27-45 | one page merged with public counts and with full counts lists the same tags in the same order, and every public count is at most the full one |
| `TagCounts.CountedPage` | np-controller/tag.controller.js:39-50 | the page handed to the success callback keeps `total`, `pages` and the number of tags; when the aggregation fails it is the fetched page unchanged |
| `TagCounts.CountedPageSpec` | np-controller/tag.controller.js:39-50 | the merge keeps total, page count, length and order; each count is the tag's usage among the visible articles; a failed aggregation passes the page on unchanged |
| `Listing.MatchingIds` | np-controller/tag.controller.js:54 | the store listing holds exactly the stored tags that pass the query, with strictly decreasing ids (`sort: { _id: -1 }`) |
| `Listing.PageCount` | np-controller/tag.controller.js:104-108 | exactly 1 page when no tag matches; otherwise the fewest pages of `limit` tags that hold every matching tag (`Math.ceil(total / limit)`), so the last page is not empty |
| `Listing.Paginate` | np-controller/tag.controller.js:54 | a page has at most `limit` tags; each is a stored tag that passes the query; they come newest first; `total` is the number of matching tags |
| `Listing.TagsResult` | np-controller/tag.controller.js:23-60 | `getTags` reaches its success callback exactly when the page fetch succeeds; the page it hands on reports the number of matching tags, its page count, and at most `limit` tags |
| `Listing.GetTags` | np-controller/tag.controller.js:23-60 | `getTags` yields a page exactly when the fetch succeeds: the fetched page with counts merged, or without them if the aggregation fails |
| `Listing.TagsResultCounts` | np-controller/tag.controller.js:23-60 | a fetched page keeps length, total and page count; each tag's count is its usage among the articles visible to the caller; if the aggregation fails the tags are passed on unchanged |
| `Listing.DefaultKeywordListsAll` | np-controller/tag.controller.js:79-96 | a list request with the default keyword lists the same tags as the empty query |
| `Listing.KeywordExample` | np-controller/tag.controller.js:89-96 | the keyword `spo` against tags `sports` and `food` lists only `sports` |
| `TagCtrl.RequestQuery` | np-controller/tag.controller.js:79-96 | the store query is the keyword filter on the request's keyword; without a keyword it lets every tag through |
| `TagCtrl.SlugHeld` | np-controller/tag.controller.js:173-175 | `Tag.find({ slug })` is non-empty; a slug no tag holds is free for every tag |
| `TagCtrl.SlugHeldByOther` | np-controller/tag.controller.js:223-225 | a slug held by a tag other than `self` is held; a slug that is held but not by another tag is held by `self` |
| `TagCtrl.AtMostOneTriggerPerWindow` | np-controller/tag.controller.js:132-146 | refresh triggers at least one cooldown apart put at most one trigger in any window of 300000 ms |
| `TagCtrl.TagController.constructor` | np-controller/tag.controller.js:63-73 | at start the gate is open, the cache entry is whatever Redis holds from before the process started (loading does not clear it), and the warm-up fetch (`{}`, page 1, limit 160, no request) has started |
| `TagCtrl.TagController.Tick` | np-controller/tag.controller.js:143-145 | the closed gate reopens exactly when the clock reaches its deadline, and nothing else changes |
| `TagCtrl.TagController.ListGet` | np-controller/tag.controller.js:77-147 | an authorized request gets a fresh `getTags` with full counts and leaves cache, gate and pending fetches alone. A public request with an empty cache fails (`Err(CacheEmpty)`) and starts no refresh; otherwise it gets exactly the cached page. It starts a refresh with its own query and options iff the gate is open, and then the gate closes until now + 300000. `current_page` / `per_page` echo the request, defaulting to 1 / 12 (`RequestOptions`, `QuerySuccess`). Slug uniqueness and trigger spacing are kept |
| `TagCtrl.TagController.CompleteRefresh` | np-controller/tag.controller.js:133-137 | a finished background fetch overwrites the cache entry wholesale with its page on success and changes nothing on failure; the gate is not involved |
| `TagCtrl.TagController.Post` | np-controller/tag.controller.js:151-180 | a null/undefined slug is refused (an empty slug is not); a slug held by any tag is refused; otherwise exactly one tag with a fresh id is added and nothing else changes; slugs stay unique |
| `TagCtrl.TagController.Put` | np-controller/tag.controller.js:202-231 | an absent or empty slug is refused; a slug held by a different tag is refused (keeping one's own slug succeeds). Otherwise, when the id has a tag, only that tag changes, to `Patched`: the given name, slug and description replace the old ones, and id and count are kept. When the id has no tag, nothing changes and the answer is `null`. Slugs stay unique |
| `TagCtrl.TagController.DeleteMany` | np-controller/tag.controller.js:183-199 | a missing or empty id list is refused and removes nothing; otherwise exactly the listed tags are removed, the others are untouched, and the number removed is reported |
| `TagCtrl.TagController.DeleteOne` | np-controller/tag.controller.js:234-243 | the tag with the id is removed and returned, or `null` when none exists; other tags are untouched |

## Left out

- MongoDB, Redis and mongoose-paginate are replaced by in-memory state: the store map, the cache field and `Paginate`.
  - `Paginate` stands in for the pagination library, which is not part of this model.
  - It skips `(page - 1) * limit` tags, keeps at most `limit`, and reports `Math.ceil(total / limit) || 1` pages.
- Store and aggregation failures are boolean inputs (`fetchOk`, `aggOk`, `storeOk`). When `storeOk` is false, the first store operation of a handler fails and nothing changes.
- Ids are natural numbers handed out in increasing order. This stands for object ids, whose order is creation order.
- `page` and `per_page` are modelled only as positive integers. `Number(...)` of other query strings (0, negative, non-numeric) is not modelled.
- Keywords are literal, so `new RegExp(keyword)` is modelled as substring containment. Regular-expression syntax is not modelled.
- The response of the background refresh's error callback, which answers a response already sent, is not modelled.
- Promise and callback plumbing is not modelled:
  - A background fetch reads the store and the articles when `CompleteRefresh` is called for it.
  - An authorized fetch completes within `ListGet`.
- The check-then-write races in create and update are concurrency and are not modelled. So is `$group`'s unspecified output order: `FindDistinct` shows that the lookup does not depend on it.
- Put: the slug check is modelled as "some other tag holds the slug". The code reads "the first tag found with the slug has a different id". The two agree because the store keeps slugs unique.
- Put: when the id has no tag, the code answers `null` and then fails while building the search-engine URL. Only the `null` answer is modelled.
- Schema validation inside the tag model file and the duplicate-key index are not modelled (np-model/tag.model is not part of this model).
- The sitemap rebuild, the search-engine notifications and the request/response formatting helpers are external side effects and are left out.
- The JSON deep copy of the fetched page is left out. Dafny values already have value semantics.
- The authorization check is a boolean field of the request.
- `ecosystem.config.js` is deployment configuration with no logic.

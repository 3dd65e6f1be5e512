/** The entities shared by the tag controller: tags, articles, the grouped
    counts of the aggregation pipeline, list queries and the paginated page
    that is cached. */
module TagModel {

  datatype Option<+T> = None | Some(value: T) {
    /** The value, or `default` when absent (a destructuring default). */
    function GetOr(default: T): T {
      if Some? then value else default
    }
  }

  /** A tag's `_id`. Object ids grow with insertion time, so "newest first"
      (`sort: { _id: -1 }`) is descending id order. */
  type TagId = nat

  /** Page numbers and page sizes as the list handler uses them. */
  type Pos = n: nat | n >= 1 witness 1

  /** A tag record. `count` is absent on stored tags; a listing that went
      through the count merge carries `Some(n)`. */
  datatype Tag = Tag(id: TagId, name: string, slug: string, description: string, count: Option<nat>)

  /** An article, seen only through the fields the count aggregation reads. */
  datatype Article = Article(tag: seq<TagId>, state: int, isPublic: int)

  /** Whoever issued a request: the outcome of the authorization check. */
  datatype Caller = Caller(authorized: bool)

  /** One output document of `$group`: an id and its `num_tutorial`. */
  datatype Group = Group(id: TagId, numTutorial: nat)

  /** The tag filter handed to the store: `{}` (warm-up) or the `$or` of the
      keyword over name, slug and description (list requests). */
  datatype Query = Everything | Keyword(keyword: string)

  /** Pagination options; the sort is always `_id` descending. */
  datatype Options = Options(page: Pos, limit: Pos)

  /** A paginated result: the page's tags, the number of matching tags and
      the number of pages. */
  datatype Page = Page(docs: seq<Tag>, total: nat, pages: nat)

  /** The throttle window of the public refresh: 1000 * 60 * 5 ms. */
  const Cooldown: nat := 1000 * 60 * 5

  const DefaultPage: Pos := 1
  const DefaultPerPage: Pos := 12
  const WarmUpLimit: Pos := 160

  /** Every key holds the tag with that id. */
  ghost predicate WellKeyed(store: map<TagId, Tag>) {
    forall id :: id in store ==> store[id].id == id
  }

  /** No two stored tags share a slug. */
  ghost predicate SlugsUnique(store: map<TagId, Tag>) {
    forall a, b :: a in store && b in store && a != b ==> store[a].slug != store[b].slug
  }

  /** Every stored id is below `bound` (ids are handed out increasingly). */
  ghost predicate Below(store: map<TagId, Tag>, bound: nat) {
    forall id :: id in store ==> id < bound
  }
}

/**
 * The entry store as the ingestion engine sees it: a feed table keyed by
 * feed id and a post table keyed by post URL (the URL column is unique).
 * The SQL behind the generated query methods is not part of this model; the
 * store is described by what each query does to the two tables.
 */
module Store {
  import opened Wrappers

  /** An opaque identity (a UUID). */
  type Uuid = nat

  /** An opaque instant (a time.Time value). */
  type Time = int

  /** The zero time.Time, carried by a null timestamp column. */
  const ZeroTime: Time := 0

  /** sql.NullString: `valid == false` is SQL NULL. */
  datatype NullString = NullString(str: string, valid: bool)

  /** sql.NullTime: `valid == false` is SQL NULL. */
  datatype NullTime = NullTime(time: Time, valid: bool)

  /** A row of the feeds table (database.Feed). */
  datatype Feed = Feed(
    id: Uuid,
    createdAt: Time,
    updatedAt: Time,
    name: string,
    url: string,
    userId: Uuid,
    lastFetchedAt: NullTime)

  /** A row of the posts table; also the parameters of CreatePost. */
  datatype Post = Post(
    id: Uuid,
    createdAt: Time,
    updatedAt: Time,
    feedId: Uuid,
    title: string,
    description: NullString,
    url: string,
    publishedAt: NullTime)

  /**
   * The ways a query can fail: no row matched, the unique constraint on
   * posts.url was violated, or any other database failure.
   */
  datatype DbError = NoRows | UniqueViolation | Failure

  /** The persisted state the ingestion engine reads and writes. */
  datatype Tables = Tables(feeds: map<Uuid, Feed>, posts: map<string, Post>)

  /** Every feed is stored under its own id and every post under its own URL. */
  ghost predicate TablesValid(t: Tables) {
    && (forall id :: id in t.feeds ==> t.feeds[id].id == id)
    && (forall u :: u in t.posts ==> t.posts[u].url == u)
  }

  /** The calls a scheduler cycle makes into the store and the fetcher, in order. */
  datatype Call =
    | QueryNextFeed
    | QueryMarkFetched(feedId: Uuid)
    | FetchDocument(url: string)
    | QueryCreatePost(params: Post)

  /** The tables after a query, together with what the query returned. */
  datatype Reply<+T> = Reply(tables: Tables, result: Result<T, DbError>)

  /**
   * MarkFeedFetched(id) against `t`, at database time `now`; `fault` stands
   * for a failure of the database itself. An id with no row gives NoRows.
   */
  function MarkFetched(t: Tables, id: Uuid, now: Time, fault: bool): (r: Reply<Feed>)
    ensures r.result.Ok? <==> !fault && id in t.feeds
    ensures fault ==> r.result == Err(Failure)
    ensures !fault && id !in t.feeds ==> r.result == Err(NoRows)
    ensures r.result.Err? ==> r.tables == t
    ensures r.result.Ok? ==>
      && r.result.value == t.feeds[id].(lastFetchedAt := NullTime(now, true))
      && r.tables.feeds == t.feeds[id := r.result.value]
    ensures r.tables.posts == t.posts
  {
    if fault then Reply(t, Err(Failure))
    else if id !in t.feeds then Reply(t, Err(NoRows))
    else
      var marked := t.feeds[id].(lastFetchedAt := NullTime(now, true));
      Reply(t.(feeds := t.feeds[id := marked]), Ok(marked))
  }

  /**
   * CreatePost(p) against `t`; `fault` stands for any failure other than a
   * duplicate URL. Only a successful insert changes the tables.
   */
  function InsertPost(t: Tables, p: Post, fault: bool): (r: Reply<Post>)
    ensures r.result.Ok? <==> !fault && p.url !in t.posts
    ensures fault ==> r.result == Err(Failure)
    ensures r.result == Err(UniqueViolation) <==> !fault && p.url in t.posts
    ensures r.result.Ok? ==> r.result.value == p && r.tables.posts == t.posts[p.url := p]
    ensures r.result.Err? ==> r.tables == t
    ensures r.tables.feeds == t.feeds
  {
    if fault then Reply(t, Err(Failure))
    else if p.url in t.posts then Reply(t, Err(UniqueViolation))
    else Reply(t.(posts := t.posts[p.url := p]), Ok(p))
  }

  /** Marking a feed keeps every row under its own key. */
  lemma MarkKeepsTablesValid(t: Tables, id: Uuid, now: Time, fault: bool)
    requires TablesValid(t)
    ensures TablesValid(MarkFetched(t, id, now, fault).tables)
  {
  }

  /** Inserting a post keeps every row under its own key. */
  lemma InsertKeepsTablesValid(t: Tables, p: Post, fault: bool)
    requires TablesValid(t)
    ensures TablesValid(InsertPost(t, p, fault).tables)
  {
  }

  /**
   * The database handle (database.Queries) over the two tables. `log`
   * records, in order, every call made through the handle and every fetch
   * made beside it.
   */
  class Queries {
    var feeds: map<Uuid, Feed>
    var posts: map<string, Post>
    ghost var log: seq<Call>

    ghost predicate Valid()
      reads this
    {
      TablesValid(Snapshot())
    }

    /** The tables as they are now. */
    function Snapshot(): (t: Tables)
      reads this
      ensures t.feeds == feeds && t.posts == posts
    {
      Tables(feeds, posts)
    }

    constructor (t: Tables)
      requires TablesValid(t)
      ensures Valid() && Snapshot() == t && log == []
    {
      feeds := t.feeds;
      posts := t.posts;
      log := [];
    }

    /**
     * GetNextFeedToFetch; `next` is the row (or error) the database gives,
     * since the SQL that picks it is not part of this model.
     */
    method NextFeedToFetch(next: Result<Feed, DbError>) returns (r: Result<Feed, DbError>)
      modifies this
      ensures r == next
      ensures Snapshot() == old(Snapshot())
      ensures log == old(log) + [QueryNextFeed]
    {
      r := next;
      log := log + [QueryNextFeed];
    }

    method MarkFeedFetched(id: Uuid, now: Time, fault: bool) returns (r: Result<Feed, DbError>)
      requires Valid()
      modifies this
      ensures Valid()
      ensures Reply(Snapshot(), r) == MarkFetched(old(Snapshot()), id, now, fault)
      ensures log == old(log) + [QueryMarkFetched(id)]
    {
      if fault {
        r := Err(Failure);
      } else if id !in feeds {
        r := Err(NoRows);
      } else {
        var marked := feeds[id].(lastFetchedAt := NullTime(now, true));
        feeds := feeds[id := marked];
        r := Ok(marked);
      }
      log := log + [QueryMarkFetched(id)];
    }

    method CreatePost(p: Post, fault: bool) returns (r: Result<Post, DbError>)
      requires Valid()
      modifies this
      ensures Valid()
      ensures Reply(Snapshot(), r) == InsertPost(old(Snapshot()), p, fault)
      ensures log == old(log) + [QueryCreatePost(p)]
    {
      if fault {
        r := Err(Failure);
      } else if p.url in posts {
        r := Err(UniqueViolation);
      } else {
        posts := posts[p.url := p];
        r := Ok(p);
      }
      log := log + [QueryCreatePost(p)];
    }
  }
}

/**
 * The ingestion step (scrapeFeed) and one scheduler cycle (scrapeFeeds).
 *
 * Everything that leaves the program is an input: the parsed feed document
 * (or the fetch failure), the row GetNextFeedToFetch returns (or its error),
 * RFC 1123 date parsing with a numeric zone, fresh UUIDs, the clock, and
 * whether a query fails for a reason of the database's own. The step itself
 * is the method ScrapeFeed; the function Scrape says what one step does to
 * the tables and which calls it makes, and the lemmas below state the
 * ingestion rules about Scrape.
 */
module Ingest {
  import opened Wrappers
  import opened Store

  /** One entry of a fetched channel (RSSItem). */
  datatype Item = Item(title: string, link: string, description: string, pubDate: string)

  /** A fetched and parsed syndication document (RSSFeed and its channel). */
  datatype RSSFeed = RSSFeed(title: string, link: string, description: string, items: seq<Item>)

  /**
   * What one ingestion step learns from outside the program. Functions of a
   * nat are indexed by the position of the item being inserted.
   */
  datatype Env = Env(
    now: Time,                         // the database clock when the feed is marked
    markFault: bool,                   // MarkFeedFetched fails in the database
    parseDate: string -> Option<Time>, // time.Parse(time.RFC1123Z, _)
    newId: nat -> Uuid,                // uuid.New() for the k-th item
    createdAt: nat -> Time,            // time.Now().UTC() for CreatedAt of the k-th item
    updatedAt: nat -> Time,            // time.Now().UTC() for UpdatedAt of the k-th item
    insertFault: nat -> bool)          // CreatePost of the k-th item fails other than by a duplicate URL

  /** What a cycle leaves behind: the tables and the calls it made. */
  datatype Cycle = Cycle(tables: Tables, calls: seq<Call>)

  /** The publication time of an item: null when the text is not an RFC 1123 date with numeric zone. */
  function PublishedAt(pubDate: string, parseDate: string -> Option<Time>): (t: NullTime)
    ensures t.valid <==> parseDate(pubDate).Some?
    ensures t.valid ==> t.time == parseDate(pubDate).value
    ensures !t.valid ==> t == NullTime(ZeroTime, false)
  {
    match parseDate(pubDate)
    case Some(time) => NullTime(time, true)
    case None => NullTime(ZeroTime, false)
  }

  /** The CreatePost parameters for the k-th item of `feed`'s document. */
  function NewPost(feed: Feed, item: Item, k: nat, env: Env): (p: Post)
    ensures PostFor(p, feed, item, env)
    ensures p.id == env.newId(k) && p.createdAt == env.createdAt(k) && p.updatedAt == env.updatedAt(k)
  {
    Post(env.newId(k), env.createdAt(k), env.updatedAt(k), feed.id, item.title,
         NullString(item.description, true), item.link, PublishedAt(item.pubDate, env.parseDate))
  }

  /** `p` carries `item` for `feed`, whatever its fresh id and timestamps. */
  ghost predicate PostFor(p: Post, feed: Feed, item: Item, env: Env) {
    && p.feedId == feed.id
    && p.title == item.title
    && p.url == item.link
    && p.description == NullString(item.description, true)
    && (p.publishedAt.valid <==> env.parseDate(item.pubDate).Some?)
    && (p.publishedAt.valid ==> p.publishedAt.time == env.parseDate(item.pubDate).value)
  }

  /** The tables after CreatePost has been tried once for each item, in order. */
  function Ingested(t: Tables, feed: Feed, items: seq<Item>, env: Env): (r: Tables)
    ensures r.feeds == t.feeds
    ensures t.posts.Keys <= r.posts.Keys
    decreases |items|
  {
    if items == [] then t
    else
      var k := |items| - 1;
      InsertPost(Ingested(t, feed, items[..k], env), NewPost(feed, items[k], k, env), env.insertFault(k)).tables
  }

  /** The CreatePost calls made for the items, in order. */
  function InsertCalls(feed: Feed, items: seq<Item>, env: Env): (c: seq<Call>)
    ensures |c| == |items|
    ensures forall k :: 0 <= k < |c| ==> c[k].QueryCreatePost?
    decreases |items|
  {
    if items == [] then []
    else
      var k := |items| - 1;
      InsertCalls(feed, items[..k], env) + [QueryCreatePost(NewPost(feed, items[k], k, env))]
  }

  /** The links of the items whose insert did not fail in the database. */
  ghost function Delivered(items: seq<Item>, env: Env): set<string> {
    set k | 0 <= k < |items| && !env.insertFault(k) :: items[k].link
  }

  /** The k-th item is the first one with link `u` whose insert did not fail in the database. */
  ghost predicate FirstDelivery(items: seq<Item>, env: Env, k: int, u: string) {
    && 0 <= k < |items|
    && !env.insertFault(k)
    && items[k].link == u
    && forall j :: 0 <= j < k && !env.insertFault(j) ==> items[j].link != u
  }

  /** The feed has been marked in the database and nothing else went wrong. */
  ghost predicate CleanRun(t: Tables, feed: Feed, items: seq<Item>, env: Env) {
    && !env.markFault
    && feed.id in t.feeds
    && forall k :: 0 <= k < |items| ==> !env.insertFault(k)
  }

  /**
   * One ingestion step for `feed` (scrapeFeed): mark the feed fetched, and
   * only then fetch it; on success try one insert per item.
   */
  function Scrape(t: Tables, feed: Feed, fetched: Result<RSSFeed, string>, env: Env): (c: Cycle)
    ensures |c.calls| >= 1 && c.calls[0] == QueryMarkFetched(feed.id)
    ensures |c.calls| >= 2 <==> !env.markFault && feed.id in t.feeds
    ensures |c.calls| >= 2 ==> c.calls[1] == FetchDocument(feed.url)
    ensures c.tables.feeds.Keys == t.feeds.Keys
    ensures t.posts.Keys <= c.tables.posts.Keys
  {
    var marked := MarkFetched(t, feed.id, env.now, env.markFault);
    if marked.result.Err? then
      Cycle(marked.tables, [QueryMarkFetched(feed.id)])
    else match fetched
      case Err(_) =>
        Cycle(marked.tables, [QueryMarkFetched(feed.id), FetchDocument(feed.url)])
      case Ok(doc) =>
        Cycle(Ingested(marked.tables, feed, doc.items, env),
              [QueryMarkFetched(feed.id), FetchDocument(feed.url)] + InsertCalls(feed, doc.items, env))
  }

  // ---------------------------------------------------------------------
  // The inserts of one step

  lemma {:induction false} InsertCallsAt(feed: Feed, items: seq<Item>, env: Env)
    ensures |InsertCalls(feed, items, env)| == |items|
    ensures forall k :: 0 <= k < |items| ==>
      InsertCalls(feed, items, env)[k] == QueryCreatePost(NewPost(feed, items[k], k, env))
    decreases |items|
  {
    if items != [] {
      var n := |items| - 1;
      InsertCallsAt(feed, items[..n], env);
      assert forall k :: 0 <= k < n ==> items[..n][k] == items[k];
    }
  }

  /** The delivered links of a document are those of all but its last item, plus the last one's if delivered. */
  lemma DeliveredStep(items: seq<Item>, env: Env)
    requires items != []
    ensures var n := |items| - 1;
      Delivered(items, env)
        == Delivered(items[..n], env) + (if env.insertFault(n) then {} else {items[n].link})
  {
  }

  /** Which URLs the post table holds after the inserts: the old ones and every delivered link. */
  lemma {:induction false} IngestedKeys(t: Tables, feed: Feed, items: seq<Item>, env: Env)
    ensures Ingested(t, feed, items, env).posts.Keys == t.posts.Keys + Delivered(items, env)
    ensures Ingested(t, feed, items, env).feeds == t.feeds
    decreases |items|
  {
    if items == [] {
      assert Delivered(items, env) == {};
    } else {
      IngestedKeys(t, feed, items[..|items| - 1], env);
      DeliveredStep(items, env);
    }
  }

  /** A stored post is never replaced or removed by the inserts. */
  lemma {:induction false} IngestedKeepsExisting(t: Tables, feed: Feed, items: seq<Item>, env: Env)
    ensures forall u :: u in t.posts ==>
      u in Ingested(t, feed, items, env).posts && Ingested(t, feed, items, env).posts[u] == t.posts[u]
    decreases |items|
  {
    if items != [] {
      IngestedKeepsExisting(t, feed, items[..|items| - 1], env);
    }
  }

  /**
   * A post the inserts add under URL `u` comes from the first delivered item
   * with that URL, whose position is returned.
   */
  lemma {:induction false} NewPostOrigin(t: Tables, feed: Feed, items: seq<Item>, env: Env, u: string)
    returns (k: nat)
    requires u in Ingested(t, feed, items, env).posts && u !in t.posts
    ensures FirstDelivery(items, env, k, u)
    ensures Ingested(t, feed, items, env).posts[u] == NewPost(feed, items[k], k, env)
    decreases |items|
  {
    var n := |items| - 1;
    var prefix := items[..n];
    var before := Ingested(t, feed, prefix, env);
    if u in before.posts {
      k := NewPostOrigin(t, feed, prefix, env, u);
      assert prefix[k] == items[k];
      assert forall j :: 0 <= j < k ==> prefix[j] == items[j];
    } else {
      k := n;
      IngestedKeys(t, feed, prefix, env);
      forall j | 0 <= j < n && !env.insertFault(j) ensures items[j].link != u {
        assert prefix[j] == items[j];
        assert items[j].link in Delivered(prefix, env);
      }
    }
  }

  /**
   * Every post the inserts add comes from the first delivered item with its
   * URL and carries that item for `feed`.
   */
  lemma IngestedNewPosts(t: Tables, feed: Feed, items: seq<Item>, env: Env)
    ensures forall u :: u in Ingested(t, feed, items, env).posts && u !in t.posts ==>
      exists k :: (FirstDelivery(items, env, k, u)
                   && Ingested(t, feed, items, env).posts[u] == NewPost(feed, items[k], k, env)
                   && PostFor(Ingested(t, feed, items, env).posts[u], feed, items[k], env))
  {
    var after := Ingested(t, feed, items, env);
    forall u | u in after.posts && u !in t.posts
      ensures exists k :: (FirstDelivery(items, env, k, u)
                           && after.posts[u] == NewPost(feed, items[k], k, env)
                           && PostFor(after.posts[u], feed, items[k], env))
    {
      var k := NewPostOrigin(t, feed, items, env, u);
      assert PostFor(after.posts[u], feed, items[k], env);
    }
  }

  /** The inserts keep every row under its own key. */
  lemma {:induction false} IngestedValid(t: Tables, feed: Feed, items: seq<Item>, env: Env)
    requires TablesValid(t)
    ensures TablesValid(Ingested(t, feed, items, env))
    decreases |items|
  {
    if items != [] {
      var n := |items| - 1;
      IngestedValid(t, feed, items[..n], env);
      InsertKeepsTablesValid(Ingested(t, feed, items[..n], env), NewPost(feed, items[n], n, env),
                             env.insertFault(n));
    }
  }

  /**
   * When every link is already stored, the inserts change nothing: each one
   * is a duplicate or fails. This holds whichever feed the items come from.
   */
  lemma {:induction false} IngestedAllSeen(t: Tables, feed: Feed, items: seq<Item>, env: Env)
    requires forall k :: 0 <= k < |items| ==> items[k].link in t.posts
    ensures Ingested(t, feed, items, env) == t
    decreases |items|
  {
    if items != [] {
      var n := |items| - 1;
      assert forall k :: 0 <= k < n ==> items[..n][k] == items[k];
      IngestedAllSeen(t, feed, items[..n], env);
    }
  }

  // ---------------------------------------------------------------------
  // One ingestion step

  /** If the feed cannot be marked, nothing is fetched and nothing changes. */
  lemma ScrapeWhenMarkFails(t: Tables, feed: Feed, fetched: Result<RSSFeed, string>, env: Env)
    requires env.markFault || feed.id !in t.feeds
    ensures Scrape(t, feed, fetched, env).calls == [QueryMarkFetched(feed.id)]
    ensures Scrape(t, feed, fetched, env).tables == t
  {
  }

  /** If the fetch fails after the mark, the feed stays marked and the posts are untouched. */
  lemma ScrapeWhenFetchFails(t: Tables, feed: Feed, fetched: Result<RSSFeed, string>, env: Env)
    requires !env.markFault && feed.id in t.feeds && fetched.Err?
    ensures Scrape(t, feed, fetched, env).calls == [QueryMarkFetched(feed.id), FetchDocument(feed.url)]
    ensures Scrape(t, feed, fetched, env).tables.posts == t.posts
    ensures Scrape(t, feed, fetched, env).tables.feeds
      == t.feeds[feed.id := t.feeds[feed.id].(lastFetchedAt := NullTime(env.now, true))]
  {
  }

  /**
   * A fetched document: the feed is marked, the document fetched, then
   * exactly one CreatePost is made per item in document order; the post
   * table gains the delivered links and keeps every post it had.
   */
  lemma ScrapeWhenFetched(t: Tables, feed: Feed, doc: RSSFeed, env: Env)
    requires !env.markFault && feed.id in t.feeds
    ensures var c := Scrape(t, feed, Ok(doc), env);
      && |c.calls| == 2 + |doc.items|
      && c.calls[0] == QueryMarkFetched(feed.id)
      && c.calls[1] == FetchDocument(feed.url)
      && (forall k :: 0 <= k < |doc.items| ==>
            c.calls[2 + k] == QueryCreatePost(NewPost(feed, doc.items[k], k, env)))
      && c.tables.feeds == t.feeds[feed.id := t.feeds[feed.id].(lastFetchedAt := NullTime(env.now, true))]
      && c.tables.posts.Keys == t.posts.Keys + Delivered(doc.items, env)
      && (forall u :: u in t.posts ==> u in c.tables.posts && c.tables.posts[u] == t.posts[u])
  {
    var marked := MarkFetched(t, feed.id, env.now, env.markFault).tables;
    InsertCallsAt(feed, doc.items, env);
    IngestedKeys(marked, feed, doc.items, env);
    IngestedKeepsExisting(marked, feed, doc.items, env);
  }

  /** After a clean step every item's link is stored. */
  lemma CleanScrapeStoresAll(t: Tables, feed: Feed, doc: RSSFeed, env: Env)
    requires CleanRun(t, feed, doc.items, env)
    ensures forall k :: 0 <= k < |doc.items| ==> doc.items[k].link in Scrape(t, feed, Ok(doc), env).tables.posts
  {
    ScrapeWhenFetched(t, feed, doc, env);
    forall k | 0 <= k < |doc.items| ensures doc.items[k].link in Delivered(doc.items, env) {
    }
  }

  /**
   * After a clean step on well-formed tables, each item's link looks up a
   * post stored under that very link, and the feed is still there.
   */
  lemma CleanScrapeFindsEachLink(t: Tables, feed: Feed, doc: RSSFeed, env: Env)
    requires TablesValid(t) && CleanRun(t, feed, doc.items, env)
    ensures var after := Scrape(t, feed, Ok(doc), env).tables;
      && feed.id in after.feeds
      && forall k :: 0 <= k < |doc.items| ==>
           doc.items[k].link in after.posts && after.posts[doc.items[k].link].url == doc.items[k].link
  {
    CleanScrapeStoresAll(t, feed, doc, env);
    ScrapeValid(t, feed, Ok(doc), env);
  }

  /**
   * Ingesting the same document again after a clean step leaves the post
   * table as it was, so both runs store the same set of URLs.
   */
  lemma ScrapeIdempotent(t: Tables, feed: Feed, doc: RSSFeed, env1: Env, env2: Env)
    requires CleanRun(t, feed, doc.items, env1)
    ensures var once := Scrape(t, feed, Ok(doc), env1).tables;
      Scrape(once, feed, Ok(doc), env2).tables.posts == once.posts
  {
    var once := Scrape(t, feed, Ok(doc), env1).tables;
    CleanScrapeStoresAll(t, feed, doc, env1);
    var marked := MarkFetched(once, feed.id, env2.now, env2.markFault).tables;
    IngestedAllSeen(marked, feed, doc.items, env2);
  }

  /** A step keeps every row under its own key. */
  lemma ScrapeValid(t: Tables, feed: Feed, fetched: Result<RSSFeed, string>, env: Env)
    requires TablesValid(t)
    ensures TablesValid(Scrape(t, feed, fetched, env).tables)
  {
    var m := MarkFetched(t, feed.id, env.now, env.markFault);
    MarkKeepsTablesValid(t, feed.id, env.now, env.markFault);
    if m.result.Ok? && fetched.Ok? {
      IngestedValid(m.tables, feed, fetched.value.items, env);
    }
  }

  /** An item whose insert does not fail in the database has its link delivered. */
  lemma DeliveredAt(items: seq<Item>, env: Env, k: nat)
    requires k < |items| && !env.insertFault(k)
    ensures items[k].link in Delivered(items, env)
  {
  }

  /**
   * Three items, one of whose links is already stored, all inserts clean:
   * exactly two new posts.
   */
  lemma ThreeItemsOneSeen(t: Tables, feed: Feed, a: Item, b: Item, c: Item, env: Env)
    requires CleanRun(t, feed, [a, b, c], env)
    requires a.link != b.link && b.link != c.link && a.link != c.link
    requires a.link !in t.posts && b.link in t.posts && c.link !in t.posts
    ensures |Scrape(t, feed, Ok(RSSFeed("", "", "", [a, b, c])), env).tables.posts| == |t.posts| + 2
  {
    var items := [a, b, c];
    var doc := RSSFeed("", "", "", items);
    ScrapeWhenFetched(t, feed, doc, env);
    var delivered := Delivered(items, env);
    assert delivered <= {a.link, b.link, c.link};
    DeliveredAt(items, env, 0);
    DeliveredAt(items, env, 2);
    TwoNewKeys(t.posts.Keys, delivered, a.link, b.link, c.link);
  }

  /** Adding links x, y, z to a key set that holds only y grows it by two. */
  lemma TwoNewKeys(keys: set<string>, added: set<string>, x: string, y: string, z: string)
    requires added <= {x, y, z} && x in added && z in added
    requires x !in keys && y in keys && z !in keys && x != z
    ensures |keys + added| == |keys| + 2
  {
    assert keys + added == (keys + {x}) + {z};
  }

  /** The inserts for the first k + 1 items are those for the first k, then the k-th one. */
  lemma IngestedStep(t: Tables, feed: Feed, items: seq<Item>, k: nat, env: Env)
    requires k < |items|
    ensures Ingested(t, feed, items[..k + 1], env)
      == InsertPost(Ingested(t, feed, items[..k], env), NewPost(feed, items[k], k, env), env.insertFault(k)).tables
    ensures InsertCalls(feed, items[..k + 1], env)
      == InsertCalls(feed, items[..k], env) + [QueryCreatePost(NewPost(feed, items[k], k, env))]
  {
    assert items[..k + 1][..k] == items[..k];
  }

  // ---------------------------------------------------------------------
  // The imperative step and cycle

  /**
   * fetchFeed(ctx, url): the document, or the error text, is `fetched`,
   * since HTTP and XML are not part of this model. It leaves the store alone.
   */
  method FetchFeed(db: Queries, url: string, fetched: Result<RSSFeed, string>)
    returns (r: Result<RSSFeed, string>)
    modifies db
    ensures r == fetched
    ensures db.Snapshot() == old(db.Snapshot())
    ensures db.log == old(db.log) + [FetchDocument(url)]
  {
    r := fetched;
    db.log := db.log + [FetchDocument(url)];
  }

  /** scrapeFeed: one ingestion step for `feed` against the store `db`. */
  method ScrapeFeed(db: Queries, feed: Feed, fetched: Result<RSSFeed, string>, env: Env)
    requires db.Valid()
    modifies db
    ensures db.Valid()
    ensures db.Snapshot() == Scrape(old(db.Snapshot()), feed, fetched, env).tables
    ensures db.log == old(db.log) + Scrape(old(db.Snapshot()), feed, fetched, env).calls
  {
    var marked := db.MarkFeedFetched(feed.id, env.now, env.markFault);
    if marked.Err? {
      return;
    }
    var feedData := FetchFeed(db, feed.url, fetched);
    if feedData.Err? {
      return;
    }
    CreatePosts(db, feed, feedData.value.items, env);
    assert db.log == old(db.log) + ([QueryMarkFetched(feed.id), FetchDocument(feed.url)]
                                    + InsertCalls(feed, feedData.value.items, env));
  }

  /** The item loop of scrapeFeed: one CreatePost per item, in order, whatever each returns. */
  method CreatePosts(db: Queries, feed: Feed, items: seq<Item>, env: Env)
    requires db.Valid()
    modifies db
    ensures db.Valid()
    ensures db.Snapshot() == Ingested(old(db.Snapshot()), feed, items, env)
    ensures db.log == old(db.log) + InsertCalls(feed, items, env)
  {
    var k := 0;
    while k < |items|
      invariant 0 <= k <= |items|
      invariant db.Valid()
      invariant db.Snapshot() == Ingested(old(db.Snapshot()), feed, items[..k], env)
      invariant db.log == old(db.log) + InsertCalls(feed, items[..k], env)
    {
      var item := items[k];
      var publishedAt := NullTime(ZeroTime, false);
      match env.parseDate(item.pubDate) {
        case Some(time) => publishedAt := NullTime(time, true);
        case None =>
      }
      var params := Post(env.newId(k), env.createdAt(k), env.updatedAt(k), feed.id, item.title,
                         NullString(item.description, true), item.link, publishedAt);
      assert params == NewPost(feed, items[k], k, env);
      IngestedStep(old(db.Snapshot()), feed, items, k, env);
      // A duplicate URL and any other failure alike move on to the next item.
      var created := db.CreatePost(params, env.insertFault(k));
      k := k + 1;
    }
    assert items[..k] == items;
  }

  /**
   * scrapeFeeds: one scheduler cycle. `next` is what GetNextFeedToFetch
   * returns; when it errors the cycle does nothing more.
   */
  method ScrapeFeeds(db: Queries, next: Result<Feed, DbError>, fetched: Result<RSSFeed, string>, env: Env)
    requires db.Valid()
    modifies db
    ensures db.Valid()
    ensures next.Err? ==> db.log == old(db.log) + [QueryNextFeed] && db.Snapshot() == old(db.Snapshot())
    ensures next.Ok? ==>
      && db.Snapshot() == Scrape(old(db.Snapshot()), next.value, fetched, env).tables
      && db.log == old(db.log) + ([QueryNextFeed] + Scrape(old(db.Snapshot()), next.value, fetched, env).calls)
  {
    var feed := db.NextFeedToFetch(next);
    if feed.Err? {
      return;
    }
    ScrapeFeed(db, feed.value, fetched, env);
  }
}

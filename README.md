# Feed ingestion engine of the gator aggregator, in Dafny

gator is a command-line feed aggregator written in Go. Users follow RSS feeds. The `agg` command polls them on a timer and stores each new entry as a post. This project models, in `commands.go`:

- the ingestion step `scrapeFeed`;
- one scheduler cycle `scrapeFeeds`;
- the command dispatch table (`Commands.register`, `Commands.run`);
- the argument checks of `agg` (`handlerAgg`) and `browse` (`handlerBrowse`).

Layout:

- `wrappers.dfy` holds `Option`, `Result` and `Outcome`.
- `store.dfy` (module `Store`) holds the store. It has a feed table keyed by id and a post table keyed by URL, since the URL column is unique. The pure functions `MarkFetched` and `InsertPost` say what the queries `MarkFeedFetched` and `CreatePost` do to the tables. The class `Queries` holds the two tables as fields, and its methods update them in place. Its ghost field `log` records every call made through it (and each fetch made beside it), in order.
- `ingest.dfy` (module `Ingest`) holds the ingestion step. `Scrape` is a pure function. It gives the tables after one step and the calls the step makes, in order: mark, fetch, one `CreatePost` per item. The methods `ScrapeFeed` and `ScrapeFeeds` are the imperative step and the cycle; the source's `for` loop over the items is the `while` loop of `CreatePosts`. They are proved to leave the store in the state `Scrape` gives, and the store's call log records exactly the calls `Scrape` lists. The lemmas state the ingestion rules about `Scrape` and about the insert fold `Ingested`.
- `dispatch.dfy` (module `Dispatch`) holds the class `Commands`, whose field `handlers` maps command names to handlers.
- `args.dfy` (module `Args`) holds the argument checks as functions.

Every outside input is a parameter:

- the parsed feed document, or the fetch failure;
- the row `GetNextFeedToFetch` returns, or its error;
- `time.Parse(time.RFC1123Z, _)`, `time.ParseDuration` and `strconv.Atoi`;
- `uuid.New()` and `time.Now()`;
- the database clock;
- whether a query fails for a reason of the database's own.

In the model:

- A duplicate URL is the error kind `UniqueViolation`. The source finds it by matching the error text.
- A handler is modelled by its effect: the state it leaves and the error it returns.
- `MarkFeedFetched` on an id with no row fails with `NoRows`. `CreatePost` on a stored URL fails with `UniqueViolation`.

Behaviour of the code that the model keeps:

- `time.ParseDuration` accepts `0s` and `-1s`, and `time.NewTicker` then panics. `Args.Agg` models that outcome as `TickerPanics`.
- An empty feed table makes `GetNextFeedToFetch` return `sql.ErrNoRows`. `scrapeFeeds` logs it and returns like any other error.
- `scrapeFeed` marks the feed fetched before it fetches the document, and so does the model.
- A post URL seen under another feed suppresses the new item. `Ingest.IngestedAllSeen` holds for any feed, which records this behaviour.

## Model

| member | source | states |
|---|---|---|
| `Store.MarkFetched` | commands.go:190-194 | Marking succeeds exactly when the store does not fail and the feed's row exists. It then sets that feed's last-fetched time to the database clock and leaves every other feed and every post alone. A failure (`Failure`, or `NoRows` for a missing row) changes nothing. |
| `Store.InsertPost` | commands.go:210-229 | An insert succeeds exactly when the store does not fail and the URL is not stored yet, and then stores the post under its URL. `UniqueViolation` comes back exactly for a stored URL, and a database fault gives `Failure`. Any failure leaves the tables unchanged. Feeds are never touched. |
| `Store.MarkKeepsTablesValid` | commands.go:190 | Marking keeps every feed under its own id and every post under its own URL. |
| `Store.InsertKeepsTablesValid` | commands.go:210-222 | Inserting keeps every feed under its own id and every post under its own URL. |
| `Store.Queries.constructor` | main.go:34 | A new database handle (`database.New`) holds exactly the given tables, with every row under its own key, and has made no calls. |
| `Store.Queries.NextFeedToFetch` | commands.go:180 | The next-feed query returns the row or error the database gives, changes no table and logs one `QueryNextFeed` call. |
| `Store.Queries.MarkFeedFetched` | commands.go:190 | The store object's tables and the returned row are exactly what `MarkFetched` gives for the old tables, and exactly one `QueryMarkFetched` call is logged. |
| `Store.Queries.CreatePost` | commands.go:210-222 | The store object's tables and the returned result are exactly what `InsertPost` gives for the old tables, and exactly one `QueryCreatePost` call with these parameters is logged. |
| `Ingest.PublishedAt` | commands.go:202-208 | The publish time is valid exactly when the item's date text parses as RFC 1123 with a numeric zone. It is then the parsed time, and otherwise the null zero time. |
| `Ingest.NewPost` | commands.go:202-222 | The `CreatePost` parameters for the k-th item carry the feed's id, the item's title and link, an always-valid description holding the item's description, a publish time that is valid exactly when the date parses, and the fresh id and timestamps drawn for that item. |
| `Ingest.Ingested` | commands.go:201-230 | The effect of trying `CreatePost` once per item, in order. It never touches the feeds and never drops a stored URL. What it adds is stated by `IngestedKeys`, `IngestedKeepsExisting`, `NewPostOrigin` and `IngestedNewPosts`. |
| `Ingest.InsertCalls` | commands.go:201-230 | The calls the item loop makes: one `CreatePost` per item and nothing else. Their order and parameters are stated by `InsertCallsAt`. |
| `Ingest.Scrape` | commands.go:189-230 | One step always starts with marking the feed. The fetch is the second call exactly when marking succeeds. The step keeps the set of feed ids and every stored URL. The rest of its behaviour is stated by the `Scrape…` lemmas below. |
| `Ingest.InsertCallsAt` | commands.go:201-230 | The inserts make exactly one `CreatePost` call per item, the k-th for the k-th item in document order. |
| `Ingest.IngestedKeys` | commands.go:210-229 | After the inserts, the post URLs are the old ones plus the link of every item whose insert did not fail in the database. Duplicates and failures do not stop later items (partial success). Feeds are unchanged. |
| `Ingest.IngestedKeepsExisting` | commands.go:223-228 | A stored post is never replaced or removed. A duplicate URL leaves the original post. |
| `Ingest.NewPostOrigin` | commands.go:201-229 | A post the inserts add under a URL is the one built for the first item with that link whose insert did not fail in the database. The lemma returns that item's position. |
| `Ingest.IngestedNewPosts` | commands.go:202-222 | Every added post comes from the first delivered item with that URL. It has the feed's id, the item's title and link, an always-valid description holding the item's description, and a publish time that is valid exactly when the date parses. |
| `Ingest.IngestedValid` | commands.go:210-222 | The inserts keep every row under its own key. |
| `Ingest.IngestedAllSeen` | commands.go:223-226 | When every item's link is already stored, the inserts change nothing, whatever feed the items come from and whatever the store does. |
| `Ingest.ScrapeWhenMarkFails` | commands.go:189-194 | If marking fails, only the mark call is made: no fetch and no insert. The tables are unchanged. |
| `Ingest.ScrapeWhenFetchFails` | commands.go:196-200 | If the fetch fails after a successful mark, the calls are mark and then fetch. The feed stays marked at the database clock, and the post table is unchanged. |
| `Ingest.ScrapeWhenFetched` | commands.go:189-230 | For a fetched document, the calls are mark, then fetch, then one `CreatePost` per item in order. The feed is marked. The post table gains exactly the delivered links and keeps every post it had. |
| `Ingest.CleanScrapeStoresAll` | commands.go:210-229 | After a step in which no query fails in the database, every item's link is stored. |
| `Ingest.CleanScrapeFindsEachLink` | commands.go:210-229 | After a clean step on well-formed tables, the feed is still stored and each item's link finds a post whose own URL is that link. |
| `Ingest.ScrapeIdempotent` | commands.go:210-229 | After a clean step, ingesting the same document again leaves the post table exactly as it was, so the set of post URLs is the same as after one run. |
| `Ingest.ScrapeValid` | commands.go:189-230 | A step keeps every row under its own key. |
| `Ingest.ThreeItemsOneSeen` | commands.go:201-230 | Take a document of three items with distinct links, one of them already stored, and no store failures. Ingesting it adds exactly two posts. |
| `Ingest.ScrapeFeed` | commands.go:189-232 | The imperative step, with its item loop, leaves the store object in the state `Scrape` gives, and the calls it makes through the store and the fetcher, as the store logs them, are exactly `Scrape`'s calls in the same order. |
| `Ingest.CreatePosts` | commands.go:201-230 | The item loop calls `CreatePost` exactly once per item, in order, and goes on past duplicates and other failures: the store logs exactly the calls `InsertCalls` lists. It leaves the store in the state `Ingested` gives. |
| `Ingest.ScrapeFeeds` | commands.go:179-187 | The first logged call asks for the next feed. If that query errors, nothing else is called and the store is unchanged. Otherwise the rest of the log and the final store are exactly one `Scrape` of the returned feed. |
| `Ingest.FetchFeed` | commands.go:196 | The fetch returns the given document or error text, changes no table and logs one `FetchDocument` call for the feed's URL. |
| `Dispatch.UnknownCommand` | commands.go:77 | The unknown-command error is a failure whose message ends with the command name, after the `unknown command: ` prefix. |
| `Dispatch.Commands.Run` | commands.go:74-80 | An unregistered name gives the unknown-command error and leaves the state unchanged, because no handler runs. A registered name gives exactly what its handler gives. |
| `Dispatch.Commands.Register` | commands.go:82-84 | The table maps the name to the new handler, replacing any earlier one. `Run` on that name now gives the new handler's result, and `Run` on every other name gives what it gave before. |
| `Dispatch.Commands.constructor` | main.go:42-44 | A new table has no handlers. |
| `Args.Agg` | commands.go:160-172 | `agg` is rejected exactly when it has fewer than 1 or more than 2 arguments (the usage error, naming the command) or the first argument is not a duration (`invalid duration: ` and the parse error). A parsed non-positive interval makes the ticker panic. A positive one starts polling at that interval. |
| `Args.BrowseLimit` | commands.go:387-395 | With anything but exactly one argument the limit is 2. With one argument it is that argument's integer value, or the error `invalid limit: ` plus `Atoi`'s error when it is not an integer. |
| `Args.ToInt32` | commands.go:397-400 | The limit passed to the query is the int32 congruent to it modulo 2^32. A limit already in int32 range passes unchanged. |

## Left out

- Logging (`log.Printf`, `log.Println`) is left out because it is console output only. Each logged failure is modelled by the path it takes.
- `fetchFeed` and the HTTP and XML work are left out. They are network I/O and a foreign parser, so their result is an input: a document or an error text.
- The SQL behind `GetNextFeedToFetch`, `MarkFeedFetched` and `CreatePost` is not part of this model. No staleness order is claimed for `GetNextFeedToFetch`. `MarkFeedFetched` is modelled as setting only `last_fetched_at`; whether it also sets `updated_at` is not known here.
- The store model checks no other constraint, such as a UUID collision on the post id or a foreign-key failure on `feed_id`. Those fall under the generic `Failure` kind, which each insert may take.
- The ticker loop of `handlerAgg` is left out (`for ; ; <-ticker.C`: unbounded and time-driven). Only one cycle (`Ingest.ScrapeFeeds`) and the checks before the loop (`Args.Agg`) are modelled.
- `time.Parse`, `time.ParseDuration`, `strconv.Atoi`, `uuid.New` and `time.Now` are foreign library calls and appear as parameters. Error texts are what those oracles return.
- `Args.BrowseLimit`: the `Atoi` error is modelled as an opaque text. The quoting `strconv` applies to the argument inside that text is not modelled.
- The `GetPostsForUser` query and the printing in `handlerBrowse` are left out. They are a database read and console output.
- The handlers `handlerLogin`, `handlerRegister`, `handlerReset`, `handlerUsers`, `handlerAddFeed`, `handlerFeeds`, `handlerFollow`, `handlerFollowing`, `handlerUnfollow` and the `requireLogin` middleware are left out. They are record CRUD with console output and `os.Exit`.
- `internal/config/config.go` and `internal/database/feed_follows.sql.go` are left out: file and JSON I/O, and generated SQL wrappers.
- `main.go`'s wiring is left out, apart from the empty table it creates.
- `Dispatch.Commands.Run`: only handlers that return are modelled, since a `Handler` is a total function. A handler that calls `os.Exit`, or never returns (the ticker loop of `handlerAgg`), is not expressible.

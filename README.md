# news-rss, modelled in Dafny

news-rss scrapes a news site (RTÉ) once an hour and serves what it found as an
RSS feed. This project models its two pieces of logic and proves what they
promise:

- **The article extraction pipeline** (`src/lib.rs`, module `Scraper` in
  `scraper.dfy`). A `Scraper` describes a site by its base URL, listing path,
  CSS selectors and a date parser. `GetArticles` fetches the listing page. It
  selects the listing entries and turns each one into an `Article` with
  `GetArticle`. It joins the per-entry results with `TryJoinAll`, which models
  `try_join_all`. Every step that can fail ends the whole extraction with that
  step's error. The network, the HTML query engine (`nipper`) and the URL
  library are the capabilities of an `Env`. These are total functions about
  which nothing is assumed. The scraper's `parseDate` field is likewise an
  arbitrary fallible function. `Rte` builds the program's one configured
  scraper, with its date parser as a parameter.
- **Rust's `str::trim`** (module `Text` in `text.dfy`). Headlines are trimmed of
  Unicode White_Space, which is what `char::is_whitespace` tests.
- **The feed cache and the feed handler** (`src/main.rs`, module `Feeds` in
  `feeds.dfy`). `FeedCache` is a class whose `feeds` map goes from source name
  to article list. It starts empty. `Refresh` is one cycle of the scrape loop:
  it extracts every source, then `Commit` inserts each result under its
  scraper's name, pairing them by position as `zip` does. `Render` is the
  handler: not found for a name with no entry, otherwise a channel titled with
  the name and one item per article, in order.

`Wrappers` (`wrappers.dfy`) gives `Option` and `Result` so that Dafny's `:-`
plays the part of Rust's `?`.

## Model

| member | source | states |
|---|---|---|
| `Wrappers.Option.OkOr` | src/lib.rs:72 | `.context(..)` turns a missing value into the given error and keeps a present one |
| `Text.TrimStart` | src/lib.rs:66 | `trim_start` keeps a suffix of the text, everything dropped is whitespace, and the suffix does not start with whitespace |
| `Text.TrimEnd` | src/lib.rs:66 | `trim_end` keeps a prefix of the text, everything dropped is whitespace, and the prefix does not end with whitespace |
| `Text.Trim` | src/lib.rs:66 | the trimmed headline is no longer than the text and neither starts nor ends with whitespace |
| `Text.TrimIsSlice` | src/lib.rs:62-67 | the trimmed headline is a slice of the text; only whitespace is cut on either side; the slice neither starts nor ends with whitespace |
| `Text.TrimIdempotent` | src/lib.rs:62-67 | trimming an already trimmed headline changes nothing |
| `Scraper.ResolveUrl` | src/lib.rs:34-39 | no contract: it is `join` of the parsed base URL and the path, and `join` is an abstract capability, so nothing more can be said; its callers state what they get from it |
| `Scraper.ArticleLink` | src/lib.rs:68-74 | no `href` on the link selection gives exactly the "Require article link to have href" error; otherwise the link is the base URL joined with the `href`, join errors included |
| `Scraper.ImageOf` | src/lib.rs:88-99 | no image selector gives no image; with one, a missing `src` gives "Expect image to have src", an unparsable `src` gives the parser's error, and a parsable one gives that URL; the image is absent exactly when no selector is configured |
| `Scraper.GetArticle` | src/lib.rs:61-110 | a successful article has the trimmed headline, the resolved link, the fetched page's body markup verbatim, that page's image and the parsed date of that page's date text; image absent exactly when no image selector; each failing step (link, fetch, image, date) makes the article that step's error, and when none fails the article succeeds |
| `Scraper.TryJoinAll` | src/lib.rs:52-56 | succeeds exactly when every element succeeds, then with one result per element in input order; otherwise fails with the error of an element before which all succeeded |
| `Scraper.GetArticles` | src/lib.rs:42-58 | an unresolvable or failed listing fetch is the result's error; otherwise the result succeeds exactly when every listing entry's article does, with one article per entry in listing order, and a failure is some entry's error (no partial list) |
| `Scraper.ArticlesFollowListing` | src/lib.rs:51-57 | the i-th extracted article comes from the i-th listing entry: its link is the base joined with that entry's `href`, its headline is that entry's trimmed headline text |
| `Scraper.Rte` | src/lib.rs:112-134 | no contract: the RTE configuration value, with its date parser as a parameter |
| `Scraper.RteHasNoImages` | src/lib.rs:120 | the RTE scraper has no image selector, so every article it extracts has no image |
| `Feeds.ItemOf` | src/main.rs:43-56 | no contract of its own: the item built for one article; `Items` and `Render` state its fields |
| `Feeds.Items` | src/main.rs:40-58 | one item per article, in order, with title = headline, guid = link marked permalink, link = link, date = date, content = body |
| `Feeds.Render` | src/main.rs:32-64 | not found exactly when the name has no entry (an empty list still renders); otherwise the channel title is the name and the items follow the cached list one to one, in order, field by field |
| `Feeds.Zip` | src/main.rs:91 | pairs scrapers and results by position, as long as the shorter list |
| `Feeds.Committed` | src/main.rs:91-93 | no contract of its own: the map after inserting each pair in turn; `CommittedElsewhere`, `CommittedLastWins` and `CommittedKeys` characterise it |
| `Feeds.CommittedElsewhere` | src/main.rs:91-93 | a commit leaves every name it does not write as it was, present or absent |
| `Feeds.CommittedLastWins` | src/main.rs:91-93 | a written name holds the list of the last pair carrying it, whatever it held before |
| `Feeds.CommittedKeys` | src/main.rs:91-93 | after a commit the keys are the old keys plus the written names |
| `Feeds.CommitByPosition` | src/main.rs:89-93 | with distinct names and one result per scraper, scraper i's entry is result i and renders as a channel of that result's items; other names render as before |
| `Feeds.GetAllArticles` | src/main.rs:89 | succeeds exactly when every scraper's extraction does, with scraper i's articles in position i; a failure is some scraper's error |
| `Feeds.FeedCache.constructor` | src/main.rs:18 | the cache starts with no entries |
| `Feeds.FeedCache.Commit` | src/main.rs:90-93 | the new map is the old map with each zipped pair inserted in turn |
| `Feeds.FeedCache.Refresh` | src/main.rs:89-93 | if any source fails, the cycle returns that error and the map is unchanged; otherwise every scraper's entry is replaced by its result |
| `Feeds.FeedCache.Serve` | src/main.rs:32-64 | a request reads the map and answers with `Render` of it |
| `Feeds.ServeTwice` | src/main.rs:32-33 | two requests with no commit in between get the same answer |
| `Feeds.RequestBeforeRefresh` | src/main.rs:32-39 | on a fresh cache, a request for the RTE feed is not found, not an empty feed |

## One failing source aborts the whole cycle

`try_join_all(..).await?` at src/main.rs:89 leaves `scrape` at the first
failing source, before the lock is taken. Nothing is committed that cycle, not
even the sources that succeeded. `scrape` then returns the error, and `select!`
at src/main.rs:19-22 ends the program. Keeping the sources independent would let
the others stay fresh. The model follows the code: `Refresh` returns the error
and leaves the map unchanged. The model does not continue past that error.

## Left out

- Network I/O (`reqwest` client, `send`, `error_for_status`, `text`): the `fetch` capability of `Env`, one fallible function from URL to page text.
- HTML parsing and selection (`nipper`): the `parseHtml`, `select`, `text`, `attr` and `html` capabilities; a selection is a sequence of nodes.
- URL parsing and joining (the WHATWG URL parser behind `Url::parse`, `join` and `str::parse`): the `parseUrl` and `join` capabilities; a URL stands for its serialisation.
- The panic of `Url::parse(base_url).expect(..)` (src/lib.rs:35-36): not modelled as behaviour; the extraction functions require that the base URL parses.
- The RTE date parser (src/lib.rs:122-133): chrono formats, the Europe/Dublin zone, and a fallback to the wall clock for malformed dates. `Rte` takes the parser as a parameter, and the model assumes nothing about it.
- `Scraper.TryJoinAll`: `try_join_all` runs its futures concurrently and reports whichever error completes first. The model reports the first error by position. `GetArticles` and `GetAllArticles` promise only that the error is one of the failing elements' errors.
- How long the lock is held: the `MutexGuard` taken at src/main.rs:90 is bound inside the loop body, so it is dropped only after the one-hour `sleep` at src/main.rs:94. After every commit a feed request waits at `feeds.lock().await` (src/main.rs:32) for up to an hour, and requests are answered only while a cycle is fetching. `Feeds.FeedCache.Serve` is one atomic read and does not capture this wait.
- Concurrency: tokio tasks, the `Mutex` (each `FeedCache` method is one atomic step), `select!`, and the unbounded fan-out of article fetches.
- The endless loop and the one-hour `sleep` of `scrape` (src/main.rs:88, 94): `Refresh` is one cycle.
- `to_rfc2822()` and RSS XML serialisation: items keep the article's `Date`, and channels are records, not XML text.
- Tracing spans and logging, axum routing (`/rte.rss` to the "RTE" feed), socket binding, and `main`.

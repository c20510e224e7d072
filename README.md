# baonews server core in Dafny

baonews is a Vietnamese news aggregator. Its server has three routes, and this
project models them:

- **Feed ingestion** (`fetchNews` behind `/api/fetch-news`). It reads three RSS feeds
  (VnExpress, VietnamNet, DanTri) and inserts one Article row per new item link. It
  skips items that have no link, and links that are already stored. An item's image
  URL comes from its enclosure or from the first `<img src="…">` in its HTML. It
  counts the insertions. A feed that fails is logged and skipped, and that is the
  only way the function can fail.
- **Cached summary** (`POST /api/rewrite`). Given an article id, it returns the
  summary held in the Rewrite table. If there is none, it summarises
  `title. description` with the Hugging Face inference endpoint and upserts the
  result. The endpoint is retried once after a 503 "model loading".
- **Stateless summary** (`POST /api/summarize`). It summarises a text supplied by
  the client with the same endpoint, but stores nothing.

Modules:

- `Wrappers`: `Option`.
- `JsText`: JavaScript truthiness, `||` on optional strings, and
  `String.prototype.trim` with the ECMAScript white-space set.
- `ImageSniff`: the regular expression `<img[^>]+src="([^">]+)"`, including which
  match backtracking reports.
- `FetchNews`:
  - Item and Article records.
  - The ingestion as left folds (`Step`, `ItemsPrefix`, `RunFeed`, `FeedsPrefix`,
    `Ingest`).
  - The `ArticleStore` class, whose `rows` map (url to row) the loops of
    `FetchNews` update in place.
- `Inference`: the upstream endpoint, modelled as an oracle `Upstream` from
  `(inputs, attempt)` to an outcome (an answer within the 20-second bound, a late answer, no answer, or a network failure), plus the bounded and unbounded fetch, the
  retry-once-after-503 protocol, and the extraction of `summary_text` /
  `generated_text`.
- `RewriteRoute`: the decision procedure `Handle`, and the class `RewriteTable`
  whose `Post` updates its `rows` map (article id to stored content).
- `SummarizeRoute`: the decision procedure `Handle` and the stateless `Post`.
- `RouteComparison`: where the two summarisation routes agree and where they differ.

The program's environment is modelled as parameters:

- the fetched feeds (`FeedResult`: a parse failure, or the items plus the index of
  the item whose store access throws, if any);
- the article table;
- the `HF_API_KEY` setting;
- the inference endpoint's answers.

## Model

| member | source | states |
|---|---|---|
| JsText.TrimStartSpec | src/app/api/rewrite/route.ts:58 | The start-trimmed string is a suffix of the input that does not begin with white space, and everything removed was white space. |
| JsText.TrimEndSpec | src/app/api/rewrite/route.ts:58 | The end-trimmed string is a prefix of the input that does not end with white space, and everything removed was white space. |
| JsText.Trim | src/app/api/rewrite/route.ts:58 | No contract of its own; specified by `TrimStartSpec`, `TrimEndSpec` and `TrimSpec`. |
| JsText.TrimBounds | src/app/api/rewrite/route.ts:58 | The trimmed string occurs in the input right after the leading white space. It spans every position that holds a non-white-space character. |
| JsText.TrimSpec | src/app/api/rewrite/route.ts:58 | `trim()` returns the slice of the input that starts at some index `lo`. Neither end of it is white space. Every position of the input that holds a non-white-space character lies inside that slice. |
| ImageSniff.RunEnd | src/app/api/fetch-news/route.ts:36 | The `[^">]+` run from `k` ends at the first `"` or `>`, or at the end of the content. |
| ImageSniff.MatchAt | src/app/api/fetch-news/route.ts:36 | No contract of its own: it is the regex `<img[^>]+src="([^">]+)"` matched with `<img` at one index and `src="` at another. It is specified through `LastSrc`, `FirstMatchFrom`, `FirstImgSrc` and `CaptureShape`. |
| ImageSniff.LastSrc | src/app/api/fetch-news/route.ts:36 | For one `<img` position, it gives the largest matching `src="` position up to a bound, and no larger position matches. This is the greedy `[^>]+`. |
| ImageSniff.FirstMatchFrom | src/app/api/fetch-news/route.ts:36 | It gives the leftmost `<img` start that has a match, with that start's greedy `src`. No earlier start matches. |
| ImageSniff.FirstImgSrc | src/app/api/fetch-news/route.ts:36-39 | There is no result exactly when the content has no match. Otherwise the result is the capture of the match that the regex engine reports: leftmost start, then greedy. |
| ImageSniff.CaptureShape | src/app/api/fetch-news/route.ts:36 | A capture is non-empty. It contains no `"` or `>`. It is followed by `"` and sits right after `src="` in the content. |
| ImageSniff.FirstImgSrcShape | src/app/api/fetch-news/route.ts:36-39 | The sniffed URL is non-empty, contains no `"` or `>`, and occurs verbatim in the content. |
| FetchNews.ImageUrl | src/app/api/fetch-news/route.ts:32-40 | A truthy enclosure URL always wins. Otherwise the URL is the regex capture from a truthy content, and it is absent exactly when neither source yields one. A present URL is never empty. |
| FetchNews.NewArticle | src/app/api/fetch-news/route.ts:46-55 | The url is the item's link, and the source is the feed's. The category is null. The title is the item's title or `''`. The description is the snippet, else the content, and null exactly when both are falsy. |
| FetchNews.Step | src/app/api/fetch-news/route.ts:20-58 | One item: existing rows are never changed. The count grows by exactly the number of keys added. An abandoned feed processes nothing more. |
| FetchNews.ItemsPrefix | src/app/api/fetch-news/route.ts:20-59 | For the items of one feed: existing rows are kept. The count equals the keys added. A thrown feed stays thrown. |
| FetchNews.RunFeed | src/app/api/fetch-news/route.ts:16-62 | For one feed, inside its try/catch: existing rows are kept, and the count equals the keys added. |
| FetchNews.FeedsPrefix | src/app/api/fetch-news/route.ts:16-63 | For the first `k` feeds: existing rows are kept, and the count equals the keys added. |
| FetchNews.Ingest | src/app/api/fetch-news/route.ts:13-66 | The returned count is the number of urls newly present in the table. No existing row is removed or changed. |
| FetchNews.ArticleStore.constructor | src/app/api/fetch-news/route.ts:3 | The Article table the route writes starts empty, and it is keyed by url. |
| FetchNews.ArticleStore.FetchNews | src/app/api/fetch-news/route.ts:7-66 | The loop over the three `FEEDS` leaves the table and returns the count that `Ingest` specifies from the old table. It keeps one row per url. |
| FetchNews.ArticleStore.IngestItems | src/app/api/fetch-news/route.ts:20-59 | The loop over one feed's items ends in the state that `ItemsPrefix` specifies. A store fault abandons the rest of the feed, and what was inserted before it is kept. |
| FetchNews.FailedStays | src/app/api/fetch-news/route.ts:17-62 | Once the feed's store access has thrown, later items change nothing. |
| FetchNews.ItemsProvenance | src/app/api/fetch-news/route.ts:21-56 | Every row added while processing a feed is `NewArticle` of an earlier item whose link is that row's url. |
| FetchNews.FeedsProvenance | src/app/api/fetch-news/route.ts:16-56 | Every row added by the first `k` feeds is derived from an item of one of them, and is labelled with that feed's source. |
| FetchNews.IngestProvenance | src/app/api/fetch-news/route.ts:13-66 | Every new row comes from a parsed feed's item carrying that url. The table stays keyed by url, one row per URL. |
| FetchNews.ItemsStoreReached | src/app/api/fetch-news/route.ts:20-59 | After `n` items, every processed item with a link is stored. The feed has thrown exactly when its fault fired among those items. |
| FetchNews.ItemsNoop | src/app/api/fetch-news/route.ts:21-29 | A feed whose processed links are all stored already inserts nothing. |
| FetchNews.FeedsStoreReached | src/app/api/fetch-news/route.ts:16-63 | After `k` feeds, every link those feeds process is a key of the table. |
| FetchNews.FeedsNoop | src/app/api/fetch-news/route.ts:16-63 | When every processed link is stored already, a run leaves the table and the count unchanged. |
| FetchNews.RerunInsertsNothing | src/app/api/fetch-news/route.ts:23-29 | Running the ingestion again on the same feed contents returns 0 and leaves the table as it was. |
| FetchNews.FeedsPrefixLocal | src/app/api/fetch-news/route.ts:16 | The state after `n` feeds depends only on the first `n` feeds and results. |
| FetchNews.FeedsPrefixSkip | src/app/api/fetch-news/route.ts:17-18 | A feed whose parse fails contributes nothing to any later prefix of the run. |
| FetchNews.FailedFeedSkipped | src/app/api/fetch-news/route.ts:17-18 | A run with a failing feed equals the run with that feed removed: same table, same count. |
| FetchNews.BeforeFault | src/app/api/fetch-news/route.ts:20-29 | Before the faulting item, a feed behaves as if it had no fault. |
| FetchNews.FaultKeepsPrefix | src/app/api/fetch-news/route.ts:24-62 | A store fault at item `f` keeps exactly what items `0..f` inserted, with their count, and abandons the rest of the feed. |
| FetchNews.FirstOccurrenceWins | src/app/api/fetch-news/route.ts:24-56 | Among duplicate links in a feed, the first processed occurrence supplies the row. Later ones are skipped. |
| FetchNews.GrowsLater | src/app/api/fetch-news/route.ts:20-59 | Processing more items never removes or changes a row. |
| Inference.Fetch | src/app/api/summarize/route.ts:23-47 | A call that answers within 20 s gives that status and body. A call bounded by the 20-second abort raises `AbortError` exactly when the endpoint is slow, whether it answers late or not at all. An unbounded call takes a late answer as it is, and never returns when there is no answer. A network failure raises another error. |
| Inference.CallWithRetry | src/app/api/rewrite/route.ts:92-96 | The endpoint gets one or two calls, all with the same text. The second happens exactly when the first returned 503. The outcome is that of the last call. |
| Inference.FieldText | src/app/api/rewrite/route.ts:107-111 | `summary_text` takes precedence over `generated_text`. The result is non-empty exactly when the carrier is an object with one of them truthy. |
| RewriteRoute.SourceText | src/app/api/rewrite/route.ts:58 | The trimmed text still contains the `.` that joins title and description, so it is never empty. |
| RewriteRoute.Extract | src/app/api/rewrite/route.ts:104-112 | It throws exactly when the body is a non-empty array whose first element is `null`. Otherwise it gives the shared field extraction. |
| RewriteRoute.Failure | src/app/api/rewrite/route.ts:136-145 | The catch block gives 504 "Summarization timed out" exactly for an `AbortError`, and 500 "Internal server error" otherwise. Both are `no-store`. |
| RewriteRoute.Conclude | src/app/api/rewrite/route.ts:98-116 | A non-2xx status is passed through as "Failed to generate summary". A thrown error goes to the catch block. On a 2xx, a body that does not parse or has a `null` head goes to the catch block (500). An empty extraction is a 500 "No summary generated". Otherwise the extracted `summary_text`/`generated_text` becomes the summary. |
| RewriteRoute.RewriteTable.constructor | src/app/api/rewrite/route.ts:30-32 | The Rewrite table starts empty. |
| RewriteRoute.RewriteTable.Post | src/app/api/rewrite/route.ts:16-147 | The reply, the calls made and the new table are those `Handle` gives for the old table. |
| RewriteRoute.Handle | src/app/api/rewrite/route.ts:16-27 | No contract of its own. It is the route's decision procedure: it rejects a malformed body or a falsy id, then continues with `Lookup`. It is specified by the lemmas below and by `RewriteTable.Post`. |
| RewriteRoute.Lookup | src/app/api/rewrite/route.ts:29-68 | No contract of its own. It checks, in the source's order, the cache, the article, the text and the key. It is specified by `CacheHit`, `UnknownArticle`, `NoContentUnreachable` and `KeyMissing`. |
| RewriteRoute.Generate | src/app/api/rewrite/route.ts:70-135 | No contract of its own. It covers the calls, the extraction and the upsert under the id. It is specified by `CallsBounded`, `TimeoutReply`, `GenerationOutcome` and `WritesOnlyOnSuccess`. |
| RewriteRoute.MissingIdRejected | src/app/api/rewrite/route.ts:22-27 | A falsy `articleId` gives 400 with no call and no write. |
| RewriteRoute.CacheHit | src/app/api/rewrite/route.ts:30-45 | A stored summary is returned (200, `no-store`) with no call and no write. This holds with or without a key and whether or not the article exists: the cache check comes first. |
| RewriteRoute.UnknownArticle | src/app/api/rewrite/route.ts:48-55 | An uncached id without an article gives 404, before any key check. |
| RewriteRoute.KeyMissing | src/app/api/rewrite/route.ts:64-68 | An uncached, existing article without a key gives 500 "HF_API_KEY not configured", with no call. |
| RewriteRoute.NoContentUnreachable | src/app/api/rewrite/route.ts:58-62 | The "no content" reply never happens. An article with an empty title and no description is sent as ".". |
| RewriteRoute.CallsBounded | src/app/api/rewrite/route.ts:92-96 | At most two calls, all with the article's text. A second call happens only after a 503. A second 503 is answered as 503. |
| RewriteRoute.WritesOnlyOnSuccess | src/app/api/rewrite/route.ts:114-135 | The table changes only on a 200 with a non-empty summary, and only at the requested id, which then maps to that summary. |
| RewriteRoute.TimeoutReply | src/app/api/rewrite/route.ts:71-96 | The timeout reply happens exactly when the first call, or the retry after a 503, did not answer within the 20-second abort, whether the answer would have come late or never. |
| RewriteRoute.SecondRequestServedFromCache | src/app/api/rewrite/route.ts:30-45 | After a successful summary, asking again returns the same reply with no call, whatever the key and the endpoint do. |
| RewriteRoute.RetryRecovers | src/app/api/rewrite/route.ts:93-135 | A 503 followed by a summary gives that summary after two calls and stores it. |
| RewriteRoute.GenerationOutcome | src/app/api/rewrite/route.ts:98-135 | When the last call answers 2xx: a body that does not parse, or a `null` head, gives 500 "Internal server error". An empty extraction gives 500 "No summary generated". In both cases nothing is written. Otherwise the reply is a 200 with the extracted text, and the table maps the id to that text. |
| SummarizeRoute.Extract | src/app/api/summarize/route.ts:59-66 | A `null` first element yields the empty summary. A non-empty summary is one of the carrier's two fields. `summary_text` wins, and `generated_text` is taken when `summary_text` is falsy. |
| SummarizeRoute.Failure | src/app/api/summarize/route.ts:76-86 | It gives 504 "Summarization timed out" exactly for an `AbortError`, and 500 "Internal server error" otherwise. Only the 500 is `no-store`. |
| SummarizeRoute.Answer | src/app/api/summarize/route.ts:50-75 | There is no reply exactly when the unbounded retry never answers. A thrown error goes to the catch block, and a non-2xx status is passed through. On a 2xx, a body that does not parse gives 500 internal, and an empty extraction gives 500 "No summary generated". Otherwise the reply is a 200 with the extracted text, with `no-store`. |
| SummarizeRoute.Post | src/app/api/summarize/route.ts:6-87 | The reply and the calls made are those `Handle` gives. |
| SummarizeRoute.Handle | src/app/api/summarize/route.ts:6-87 | No contract of its own. It is the route's decision procedure: validation, then the key, then the calls, then `Answer`. It is specified by the lemmas below and by `Post`. |
| SummarizeRoute.InvalidTextRejected | src/app/api/summarize/route.ts:8-14 | A missing, empty or non-string `text` gives 400 with no call, whatever the key. |
| SummarizeRoute.KeyMissing | src/app/api/summarize/route.ts:17-20 | A valid text without a key gives 500 with no call. |
| SummarizeRoute.CallsBounded | src/app/api/summarize/route.ts:26-48 | At most two calls, all with the request's text, and a second call only after a 503. |
| SummarizeRoute.OnlyFirstCallTimesOut | src/app/api/summarize/route.ts:23-47 | The timeout reply happens exactly when the first call did not answer within the abort. There is no reply exactly when the unbounded retry gets no answer at all. A late answer to the retry is handled like a timely one. |
| SummarizeRoute.StatusPassedThrough | src/app/api/summarize/route.ts:50-54 | A non-2xx status from the last call is the reply's status, with "Failed to generate summary". This includes a status the unbounded retry received late. |
| SummarizeRoute.SuccessCarriesSummary | src/app/api/summarize/route.ts:56-75 | A 200 carries exactly the non-empty text extracted from the last call's 2xx JSON body. |
| SummarizeRoute.GenerationOutcome | src/app/api/summarize/route.ts:56-75 | When the last call answers 2xx: a body that does not parse gives 500 "Internal server error". An empty extraction, including one from a `null` head, gives 500 "No summary generated". Otherwise the reply is a 200 with the extracted text. |
| RouteComparison.ExtractionsAgree | src/app/api/summarize/route.ts:59-66 | Both routes extract the same field. Where the rewrite route throws on a `null` first element, the summarize route finds nothing. |
| RouteComparison.RoutesAgree | src/app/api/rewrite/route.ts:71-116 | For an uncached article and its text, both routes make the same calls. When the retry after a 503 is slow, the rewrite route answers 504 and writes nothing. In that case the summarize route handles a late answer as usual, and gives no reply when there is no answer. Otherwise both give the same status, and the same summary on success, which the rewrite route stores. |

## Left out

- Database row ids, `createdAt`, and the timestamps and `success`/`articleId`/`rewrittenContent` fields of the replies. Replies carry only the status, the summary or error message, and whether `Cache-Control: no-store` is set. The other JSON fields restate the summary or come from the clock.
- Date parsing. `publishedAt` keeps the raw `pubDate` string (`new Date` is a host library).
- Console logging, `await response.text()` on a failed call, and the 15-second warm-up wait, which is only a delay here.
- The RSS download and parser. Each feed is given as its parsed items or as a parse failure. The store access that throws is given as an index.
- Concurrency. Each request and each run is modelled as atomic, so two overlapping ingestions or rewrites that race on the same url or id are not modelled.
- A store fault on the Rewrite or Article lookup, or on the upsert. Each would reach the rewrite route's catch block as a 500.
- A non-string truthy `articleId`. The route passes it to the database unchecked.
- The GET and POST wrappers of `/api/fetch-news` and the GET of `/api/rewrite`. The wrappers only call `fetchNews`, which catches every failure per feed, so their 500 branch is unreachable.
- The mapping from raw JSON bodies to `Request`, `Body` and `Value`. Only the shapes the routes distinguish are modelled.
- FetchNews.ImageUrl: the regex is matched character by character. Characters outside the Basic Multilingual Plane are not split into surrogate pairs.

## Notes

- The rewrite route's 400 "Article has no content to summarize" branch can never be
  taken. The template `${title}. ${description || ''}` always contains the `.`, so
  `trim()` never returns an empty string. An article with an empty title and no
  description is sent to the endpoint as `"."` (`NoContentUnreachable`).
- The rewrite route bounds both calls by the 20-second abort. The summarize route
  bounds only the first call: its retry takes a late answer as it is, and a retry
  that never answers leaves the request without a reply (`NoReply`).

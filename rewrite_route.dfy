/**
 * The cache-first summarisation route (`POST /api/rewrite`): given an article id,
 * answer from the Rewrite table if it holds a summary; otherwise summarise the
 * article's title and description with the inference endpoint and upsert the
 * result. Every exit has its own status.
 *
 * The article table is a read-only map from id to the two columns read; the
 * Rewrite table is a map from article id to stored content, updated in place.
 */
module RewriteRoute {
  import opened Wrappers
  import opened JsText
  import opened Inference

  /** The request body: not JSON (or JSON `null`, which destructuring rejects), or
      an object whose `articleId` is a string or absent. */
  datatype Request = Malformed | Fields(articleId: Option<string>)

  /** The columns of an article the route selects. */
  datatype ArticleText = ArticleText(title: string, description: Option<string>)

  const MSG_ID_REQUIRED: string := "articleId is required"
  const MSG_NOT_FOUND: string := "Article not found"
  const MSG_NO_CONTENT: string := "Article has no content to summarize"

  /** The template `${title}. ${description || ''}` before trimming. */
  function Joined(a: ArticleText): string {
    a.title + ". " + (if Truthy(a.description) then a.description.value else "")
  }

  /** `Joined(a).trim()`: it always keeps the `.` that joins title and description,
      so it is never empty. */
  function SourceText(a: ArticleText): (text: string)
    ensures '.' in text && text != ""
  {
    var raw := Joined(a);
    assert raw[|a.title|] == '.' && !IsSpace('.');
    TrimSpec(raw);
    Trim(raw)
  }

  datatype Extraction = Extracted(text: string) | Threw

  /** A non-empty array whose first element is `null`: `data[0].summary_text` throws. */
  predicate NullHead(v: Value) {
    v.List? && |v.elems| > 0 && v.elems[0].Null?
  }

  /** The extraction of this route: the first element of a non-empty array is
      dereferenced without a guard, so a `null` there throws. */
  function Extract(v: Value): (r: Extraction)
    ensures r.Threw? <==> NullHead(v)
    ensures r.Extracted? ==> r.text == FieldText(Carrier(v))
  {
    if v.List? && |v.elems| > 0 then
      if v.elems[0].Null? then Threw else Extracted(FieldText(v.elems[0]))
    else if v.Record? && Truthy(v.summaryText) then Extracted(v.summaryText.value)
    else if v.Record? && Truthy(v.generatedText) then Extracted(v.generatedText.value)
    else Extracted("")
  }

  /** The `catch` block: an abort is a 504, anything else a 500; both are no-store. */
  function Failure(e: Thrown): (r: Reply)
    ensures r.Reply? && r.noStore && r.payload.Error?
    ensures r.status == 504 <==> e == AbortError
    ensures r.status == 504 || r.status == 500
    ensures r.payload.message == if e == AbortError then MSG_TIMEOUT else MSG_INTERNAL
  {
    match e
    case AbortError => Reply(504, Error(MSG_TIMEOUT), true)
    case OtherError => Reply(500, Error(MSG_INTERNAL), true)
  }

  /** How the upstream part ends: a summary to store, or a reply without one. */
  datatype Conclusion = Done(summary: string) | Refused(reply: Reply)

  /** The steps after the calls: a non-2xx status is passed through, the body is
      parsed and the summary extracted; an unparseable body or a `null` head goes to
      the `catch` block, an empty summary is a 500, and a non-empty one is kept. */
  function Conclude(resp: Response): (c: Conclusion)
    requires !resp.Hung?
    ensures c.Done? ==> c.summary != "" && resp.Responded? && IsOk(resp.code)
    ensures resp.Responded? && !IsOk(resp.code) ==> c == Refused(Reply(resp.code, Error(MSG_FAILED), false))
    ensures resp.Raised? ==> c == Refused(Failure(resp.error))
    ensures resp.Responded? && IsOk(resp.code) && resp.body.NotJson? ==> c == Refused(Failure(OtherError))
    ensures resp.Responded? && IsOk(resp.code) && resp.body.Json? ==>
      var v := resp.body.value;
      && (NullHead(v) ==> c == Refused(Failure(OtherError)))
      && (!NullHead(v) && FieldText(Carrier(v)) == "" ==> c == Refused(Reply(500, Error(MSG_EMPTY), false)))
      && (!NullHead(v) && FieldText(Carrier(v)) != "" ==> c == Done(FieldText(Carrier(v))))
  {
    match resp
    case Raised(e) => Refused(Failure(e))
    case Responded(code, body) =>
      if !IsOk(code) then Refused(Reply(code, Error(MSG_FAILED), false))
      else if body.NotJson? then Refused(Failure(OtherError))
      else match Extract(body.value)
        case Threw => Refused(Failure(OtherError))
        case Extracted(s) => if s == "" then Refused(Reply(500, Error(MSG_EMPTY), false)) else Done(s)
  }

  /** A request's reply, the texts sent upstream, and the Rewrite table after it. */
  datatype Run = Run(reply: Reply, sent: seq<string>, rows: map<string, string>)

  /** The route as a decision procedure over the table `rows`. */
  function Handle(req: Request, rows: map<string, string>, articles: map<string, ArticleText>,
                  apiKey: Option<string>, upstream: Upstream): Run
  {
    match req
    case Malformed => Run(Failure(OtherError), [], rows)
    case Fields(articleId) =>
      if !Truthy(articleId) then Run(Reply(400, Error(MSG_ID_REQUIRED), false), [], rows)
      else Lookup(articleId.value, rows, articles, apiKey, upstream)
  }

  /** From the cache check to the key check, for a present id. */
  function Lookup(id: string, rows: map<string, string>, articles: map<string, ArticleText>,
                  apiKey: Option<string>, upstream: Upstream): Run
  {
    if id in rows then Run(Reply(200, Summary(rows[id]), true), [], rows)
    else if id !in articles then Run(Reply(404, Error(MSG_NOT_FOUND), false), [], rows)
    else
      var text := SourceText(articles[id]);
      if text == "" then assert false; Run(Reply(400, Error(MSG_NO_CONTENT), false), [], rows)
      else if !Truthy(apiKey) then Run(Reply(500, Error(MSG_NO_KEY), false), [], rows)
      else Generate(id, text, rows, upstream)
  }

  /** The upstream part for an uncached article with a key configured: the
      summary, if there is one, is upserted under `id`. */
  function Generate(id: string, text: string, rows: map<string, string>, upstream: Upstream): Run {
    var x := CallWithRetry(text, upstream, true);
    match Conclude(x.response)
    case Done(s) => Run(Reply(200, Summary(s), true), x.sent, rows[id := s])
    case Refused(reply) => Run(reply, x.sent, rows)
  }

  /** The Rewrite table: article id to stored summary. */
  class RewriteTable {
    var rows: map<string, string>

    constructor ()
      ensures rows == map[]
    {
      rows := map[];
    }

    /** `POST` for one request; `sent` lists the `inputs` of each upstream call. */
    method Post(req: Request, articles: map<string, ArticleText>, apiKey: Option<string>, upstream: Upstream)
      returns (reply: Reply, sent: seq<string>)
      modifies this
      ensures Run(reply, sent, rows) == Handle(req, old(rows), articles, apiKey, upstream)
    {
      sent := [];
      if req.Malformed? {
        reply := Failure(OtherError);
        return;
      }
      var articleId := req.articleId;
      if !Truthy(articleId) {
        reply := Reply(400, Error(MSG_ID_REQUIRED), false);
        return;
      }
      var id := articleId.value;
      if id in rows {
        reply := Reply(200, Summary(rows[id]), true);
        return;
      }
      if id !in articles {
        reply := Reply(404, Error(MSG_NOT_FOUND), false);
        return;
      }
      var text := SourceText(articles[id]);
      if text == "" {
        assert false;
        reply := Reply(400, Error(MSG_NO_CONTENT), false);
        return;
      }
      if !Truthy(apiKey) {
        reply := Reply(500, Error(MSG_NO_KEY), false);
        return;
      }
      assert Handle(req, old(rows), articles, apiKey, upstream) == Generate(id, text, rows, upstream);
      ghost var x := CallWithRetry(text, upstream, true);
      var response := Fetch(upstream(text, 0), true);
      sent := [text];
      if response.Raised? {
        reply := Failure(response.error);
        return;
      }
      if response.code == MODEL_LOADING {
        // after the warm-up wait
        response := Fetch(upstream(text, 1), true);
        sent := [text, text];
        if response.Raised? {
          reply := Failure(response.error);
          return;
        }
      }
      assert x.response == response && x.sent == sent;
      if !IsOk(response.code) {
        reply := Reply(response.code, Error(MSG_FAILED), false);
        return;
      }
      if response.body.NotJson? {
        reply := Failure(OtherError);
        return;
      }
      var summary := "";
      var extraction := Extract(response.body.value);
      if extraction.Threw? {
        reply := Failure(OtherError);
        return;
      }
      summary := extraction.text;
      if summary == "" {
        reply := Reply(500, Error(MSG_EMPTY), false);
        return;
      }
      rows := rows[id := summary];
      reply := Reply(200, Summary(summary), true);
    }
  }

  /** A missing or empty `articleId` is a 400, before any table read, write or call. */
  lemma MissingIdRejected(articleId: Option<string>, rows: map<string, string>, articles: map<string, ArticleText>,
                          apiKey: Option<string>, upstream: Upstream)
    requires !Truthy(articleId)
    ensures Handle(Fields(articleId), rows, articles, apiKey, upstream) ==
      Run(Reply(400, Error(MSG_ID_REQUIRED), false), [], rows)
  {
  }

  /** A cached summary is returned as stored, with no call and no write, whether
      or not a key is configured and whether or not the article still exists. */
  lemma CacheHit(id: string, rows: map<string, string>, articles: map<string, ArticleText>,
                 apiKey: Option<string>, upstream: Upstream)
    requires id != "" && id in rows
    ensures Handle(Fields(Some(id)), rows, articles, apiKey, upstream) ==
      Run(Reply(200, Summary(rows[id]), true), [], rows)
  {
  }

  /** An unknown article is a 404 even without a key: the lookup comes first. */
  lemma UnknownArticle(id: string, rows: map<string, string>, articles: map<string, ArticleText>,
                       apiKey: Option<string>, upstream: Upstream)
    requires id != "" && id !in rows && id !in articles
    ensures Handle(Fields(Some(id)), rows, articles, apiKey, upstream) ==
      Run(Reply(404, Error(MSG_NOT_FOUND), false), [], rows)
  {
  }

  /** A known, uncached article without a key is a 500 with no call. */
  lemma KeyMissing(id: string, rows: map<string, string>, articles: map<string, ArticleText>,
                   apiKey: Option<string>, upstream: Upstream)
    requires id != "" && id !in rows && id in articles && !Truthy(apiKey)
    ensures Handle(Fields(Some(id)), rows, articles, apiKey, upstream) ==
      Run(Reply(500, Error(MSG_NO_KEY), false), [], rows)
  {
  }

  /** The "no content" 400 never happens: an article with an empty title and no
      description is sent upstream as ".". */
  lemma NoContentUnreachable(req: Request, rows: map<string, string>, articles: map<string, ArticleText>,
                             apiKey: Option<string>, upstream: Upstream)
    ensures var run := Handle(req, rows, articles, apiKey, upstream);
      run.reply.Reply? ==> run.reply.payload != Error(MSG_NO_CONTENT)
    ensures SourceText(ArticleText("", None)) == "."
  {
  }

  /** Upstream is called at most twice, always with the article's text, a second
      time only after a first 503; a second 503 is not retried but answered as 503. */
  lemma CallsBounded(req: Request, rows: map<string, string>, articles: map<string, ArticleText>,
                     apiKey: Option<string>, upstream: Upstream)
    ensures var run := Handle(req, rows, articles, apiKey, upstream);
      && |run.sent| <= 2
      && (run.sent != [] ==>
            && req.Fields? && Truthy(req.articleId) && req.articleId.value in articles
            && forall i :: 0 <= i < |run.sent| ==> run.sent[i] == SourceText(articles[req.articleId.value]))
      && (|run.sent| == 2 ==>
            && upstream(run.sent[0], 0).Status? && upstream(run.sent[0], 0).code == MODEL_LOADING
            && (upstream(run.sent[0], 1).Status? && upstream(run.sent[0], 1).code == MODEL_LOADING ==>
                  run.reply == Reply(503, Error(MSG_FAILED), false)))
  {
  }

  /** The Rewrite table changes only on success, and then only at the requested id,
      which now maps to exactly the returned summary. */
  lemma WritesOnlyOnSuccess(req: Request, rows: map<string, string>, articles: map<string, ArticleText>,
                            apiKey: Option<string>, upstream: Upstream)
    ensures var run := Handle(req, rows, articles, apiKey, upstream);
      || run.rows == rows
      || (&& req.Fields? && req.articleId.Some? && req.articleId.value !in rows
          && run.reply.Reply? && run.reply.status == 200 && run.reply.payload.Summary?
          && run.reply.payload.text != ""
          && run.rows == rows[req.articleId.value := run.reply.payload.text])
  {
  }

  /** The timeout reply comes exactly from a call that hit the 20-second abort,
      whether the endpoint would have answered later or not at all; a
      504 of the endpoint itself is passed through as a failed generation. */
  lemma TimeoutReply(id: string, rows: map<string, string>, articles: map<string, ArticleText>,
                     apiKey: Option<string>, upstream: Upstream)
    requires id != "" && id !in rows && id in articles && Truthy(apiKey)
    ensures var run := Handle(Fields(Some(id)), rows, articles, apiKey, upstream);
      var text := SourceText(articles[id]);
      var timedOut := Slow(upstream(text, 0)) ||
        (upstream(text, 0).Status? && upstream(text, 0).code == 503 && Slow(upstream(text, 1)));
      run.reply == Reply(504, Error(MSG_TIMEOUT), true) <==> timedOut
  {
  }

  /** Asking again for an article just summarised returns the stored summary with
      no further call, whatever the key and the endpoint now do. */
  lemma SecondRequestServedFromCache(id: string, rows: map<string, string>, articles: map<string, ArticleText>,
                                     apiKey: Option<string>, upstream: Upstream,
                                     apiKey': Option<string>, upstream': Upstream)
    requires id != ""
    requires var first := Handle(Fields(Some(id)), rows, articles, apiKey, upstream);
      first.reply.Reply? && first.reply.status == 200
    ensures var first := Handle(Fields(Some(id)), rows, articles, apiKey, upstream);
      Handle(Fields(Some(id)), first.rows, articles, apiKey', upstream') == Run(first.reply, [], first.rows)
  {
  }

  /** A 503 answered by a summary on the retry gives that summary, and stores it. */
  lemma RetryRecovers(id: string, rows: map<string, string>, articles: map<string, ArticleText>,
                      apiKey: Option<string>, upstream: Upstream, s: string)
    requires id != "" && id !in rows && id in articles && Truthy(apiKey) && s != ""
    requires var text := SourceText(articles[id]);
      upstream(text, 0).Status? && upstream(text, 0).code == 503 &&
      upstream(text, 1) == Status(200, Json(Record(Some(s), None)))
    ensures var run := Handle(Fields(Some(id)), rows, articles, apiKey, upstream);
      run.reply == Reply(200, Summary(s), true) && run.rows == rows[id := s] && |run.sent| == 2
  {
  }

  /** What a 2xx from the last call leads to: an unparseable body or a `null` head
      is a 500 "Internal server error", an empty extraction a 500 "No summary
      generated", both without a write; otherwise a 200 with the extracted text,
      which is upserted under the id. */
  lemma GenerationOutcome(id: string, rows: map<string, string>, articles: map<string, ArticleText>,
                          apiKey: Option<string>, upstream: Upstream)
    requires id != "" && id !in rows && id in articles && Truthy(apiKey)
    requires var text := SourceText(articles[id]);
      var n := |CallWithRetry(text, upstream, true).sent|;
      upstream(text, n - 1).Status? && IsOk(upstream(text, n - 1).code)
    ensures var text := SourceText(articles[id]);
      var run := Handle(Fields(Some(id)), rows, articles, apiKey, upstream);
      var last := upstream(text, |run.sent| - 1);
      && (last.body.NotJson? ==> run.reply == Reply(500, Error(MSG_INTERNAL), true) && run.rows == rows)
      && (last.body.Json? && NullHead(last.body.value) ==>
            run.reply == Reply(500, Error(MSG_INTERNAL), true) && run.rows == rows)
      && (last.body.Json? && !NullHead(last.body.value) && FieldText(Carrier(last.body.value)) == "" ==>
            run.reply == Reply(500, Error(MSG_EMPTY), false) && run.rows == rows)
      && (last.body.Json? && !NullHead(last.body.value) && FieldText(Carrier(last.body.value)) != "" ==>
            var s := FieldText(Carrier(last.body.value));
            run.reply == Reply(200, Summary(s), true) && run.rows == rows[id := s])
  {
  }
}

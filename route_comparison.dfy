/**
 * The two summarisation routes share their upstream protocol but differ in the
 * bound on the retry, in how a `null` first element is extracted, and in the
 * `no-store` header of a timeout. These lemmas state exactly where they agree.
 */
module RouteComparison {
  import opened Wrappers
  import opened JsText
  import opened Inference
  import RewriteRoute
  import SummarizeRoute

  /** Both extractions pick the same field; where the rewrite route throws, the
      summarize route finds nothing. */
  lemma ExtractionsAgree(v: Value)
    ensures RewriteRoute.Extract(v).Extracted? ==> RewriteRoute.Extract(v).text == SummarizeRoute.Extract(v)
    ensures RewriteRoute.Extract(v).Threw? ==> SummarizeRoute.Extract(v) == ""
  {
  }

  /** An uncached article, and its source text given to the summarize route: both
      send the same calls. When the retry after a 503 is slow they part: the rewrite
      route aborts it with a 504, while the summarize route takes a late answer as
      it is and never answers if the endpoint never does. Otherwise both end with
      the same status, and with the same summary when they succeed; the rewrite
      route then stores exactly that summary. */
  lemma RoutesAgree(id: string, rows: map<string, string>, articles: map<string, RewriteRoute.ArticleText>,
                    apiKey: Option<string>, upstream: Upstream)
    requires id != "" && id !in rows && id in articles
    ensures var text := RewriteRoute.SourceText(articles[id]);
      var rw := RewriteRoute.Handle(RewriteRoute.Fields(Some(id)), rows, articles, apiKey, upstream);
      var sm := SummarizeRoute.Handle(SummarizeRoute.Fields(SummarizeRoute.Str(text)), apiKey, upstream);
      var retry := upstream(text, 1);
      var slowRetry := |rw.sent| == 2 && Slow(retry);
      && rw.sent == sm.sent
      && (slowRetry ==> rw.reply == Reply(504, Error(MSG_TIMEOUT), true) && rw.rows == rows)
      && (sm.reply.NoReply? <==> slowRetry && retry.Timeout?)
      && (slowRetry && retry.Late? ==> sm.reply == SummarizeRoute.Answer(Responded(retry.code, retry.body)))
      && (!slowRetry ==>
            && sm.reply.Reply? && rw.reply.status == sm.reply.status
            && (sm.reply.payload.Summary? ==> rw.reply == sm.reply)
            && (rw.rows != rows <==> sm.reply.payload.Summary?)
            && (rw.rows != rows ==> rw.rows == rows[id := sm.reply.payload.text]))
  {
  }
}

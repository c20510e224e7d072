/**
 * The stateless summarisation route (`POST /api/summarize`): validate the text,
 * call the inference endpoint (the first call bounded by the 20-second abort, the
 * retry after a 503 not bounded), extract the summary and return it. Nothing is
 * stored.
 */
module SummarizeRoute {
  import opened Wrappers
  import opened JsText
  import opened Inference

  /** The `text` property of the request body: absent (or `null`), a string, or
      some other JSON value. */
  datatype TextField = Absent | Str(s: string) | NonString

  /** The request body: not JSON, or a value whose `text` property is read
      (`body ?? {}` makes a JSON `null` body an empty object). */
  datatype Request = Malformed | Fields(text: TextField)

  const MSG_TEXT_REQUIRED: string := "Text is required"

  /** `!text || typeof text !== 'string'` rejects: only a non-empty string passes. */
  predicate Acceptable(t: TextField) {
    t.Str? && t.s != ""
  }

  /** The extraction of this route: `data[0]?.…` tolerates a `null` first element,
      which yields the empty summary. */
  function Extract(v: Value): (s: string)
    ensures v.List? && |v.elems| > 0 && v.elems[0].Null? ==> s == ""
    ensures s != "" ==> Carrier(v).Record? && (Carrier(v).summaryText == Some(s) || Carrier(v).generatedText == Some(s))
    ensures Carrier(v).Record? && Truthy(Carrier(v).summaryText) ==> s == Carrier(v).summaryText.value
    ensures Carrier(v).Record? && !Truthy(Carrier(v).summaryText) && Truthy(Carrier(v).generatedText) ==>
      s == Carrier(v).generatedText.value
  {
    FieldText(Carrier(v))
  }

  /** The `catch` block: an abort is a 504 (without `no-store`), anything else a
      500 with `no-store`. */
  function Failure(e: Thrown): (r: Reply)
    ensures r.Reply? && r.payload.Error?
    ensures r.status == 504 <==> e == AbortError
    ensures r.status == 504 || r.status == 500
    ensures r.payload.message == if e == AbortError then MSG_TIMEOUT else MSG_INTERNAL
    ensures r.noStore <==> e == OtherError
  {
    match e
    case AbortError => Reply(504, Error(MSG_TIMEOUT), false)
    case OtherError => Reply(500, Error(MSG_INTERNAL), true)
  }

  /** The steps after the calls; a retry that never answers leaves the request
      unanswered. A 2xx body that does not parse goes to the `catch` block; an empty
      extraction is a 500, a non-empty one the summary. */
  function Answer(resp: Response): (r: Reply)
    ensures r.NoReply? <==> resp.Hung?
    ensures resp.Raised? ==> r == Failure(resp.error)
    ensures resp.Responded? && !IsOk(resp.code) ==> r == Reply(resp.code, Error(MSG_FAILED), false)
    ensures r.Reply? && r.payload.Summary? ==> r.status == 200 && r.payload.text != "" && resp.Responded? && IsOk(resp.code)
    ensures resp.Responded? && IsOk(resp.code) && resp.body.NotJson? ==> r == Reply(500, Error(MSG_INTERNAL), true)
    ensures resp.Responded? && IsOk(resp.code) && resp.body.Json? ==>
      var s := FieldText(Carrier(resp.body.value));
      r == if s == "" then Reply(500, Error(MSG_EMPTY), false) else Reply(200, Summary(s), true)
  {
    match resp
    case Hung => NoReply
    case Raised(e) => Failure(e)
    case Responded(code, body) =>
      if !IsOk(code) then Reply(code, Error(MSG_FAILED), false)
      else if body.NotJson? then Failure(OtherError)
      else
        var s := Extract(body.value);
        if s == "" then Reply(500, Error(MSG_EMPTY), false) else Reply(200, Summary(s), true)
  }

  /** A request's reply and the texts sent upstream. */
  datatype Run = Run(reply: Reply, sent: seq<string>)

  /** The route as a decision procedure. */
  function Handle(req: Request, apiKey: Option<string>, upstream: Upstream): Run {
    match req
    case Malformed => Run(Failure(OtherError), [])
    case Fields(t) =>
      if !Acceptable(t) then Run(Reply(400, Error(MSG_TEXT_REQUIRED), false), [])
      else if !Truthy(apiKey) then Run(Reply(500, Error(MSG_NO_KEY), false), [])
      else
        var x := CallWithRetry(t.s, upstream, false);
        Run(Answer(x.response), x.sent)
  }

  /** `POST` for one request; `sent` lists the `inputs` of each upstream call. */
  method Post(req: Request, apiKey: Option<string>, upstream: Upstream) returns (reply: Reply, sent: seq<string>)
    ensures Run(reply, sent) == Handle(req, apiKey, upstream)
  {
    sent := [];
    if req.Malformed? {
      reply := Failure(OtherError);
      return;
    }
    var t := req.text;
    if !t.Str? || t.s == "" {
      reply := Reply(400, Error(MSG_TEXT_REQUIRED), false);
      return;
    }
    if !Truthy(apiKey) {
      reply := Reply(500, Error(MSG_NO_KEY), false);
      return;
    }
    var text := t.s;
    ghost var x := CallWithRetry(text, upstream, false);
    var response := Fetch(upstream(text, 0), true);
    sent := [text];
    if response.Raised? {
      reply := Failure(response.error);
      return;
    }
    if response.code == MODEL_LOADING {
      // after the warm-up wait; this call carries no abort signal
      response := Fetch(upstream(text, 1), false);
      sent := [text, text];
      if response.Hung? {
        reply := NoReply;
        return;
      }
      if response.Raised? {
        reply := Failure(response.error);
        return;
      }
    }
    assert x.response == response && x.sent == sent;
    if !IsOk(response.code) {
      reply := Reply(response.code, Error(MSG_FAILED), false);
      return;
    }
    if response.body.NotJson? {
      reply := Failure(OtherError);
      return;
    }
    var data := response.body.value;
    var summary := "";
    if data.List? && |data.elems| > 0 {
      var first := data.elems[0];
      summary := if first.Record? && Truthy(first.summaryText) then first.summaryText.value
                 else if first.Record? && Truthy(first.generatedText) then first.generatedText.value
                 else "";
    } else if data.Record? && Truthy(data.summaryText) {
      summary := data.summaryText.value;
    } else if data.Record? && Truthy(data.generatedText) {
      summary := data.generatedText.value;
    }
    if summary == "" {
      reply := Reply(500, Error(MSG_EMPTY), false);
      return;
    }
    reply := Reply(200, Summary(summary), true);
  }

  /** A missing, empty or non-string `text` is a 400 with no call, whatever the key. */
  lemma InvalidTextRejected(t: TextField, apiKey: Option<string>, upstream: Upstream)
    requires !Acceptable(t)
    ensures Handle(Fields(t), apiKey, upstream) == Run(Reply(400, Error(MSG_TEXT_REQUIRED), false), [])
  {
  }

  /** A valid text without a key is a 500 with no call. */
  lemma KeyMissing(text: string, apiKey: Option<string>, upstream: Upstream)
    requires text != "" && !Truthy(apiKey)
    ensures Handle(Fields(Str(text)), apiKey, upstream) == Run(Reply(500, Error(MSG_NO_KEY), false), [])
  {
  }

  /** Upstream is called at most twice, with the request's text, and a second time
      only after a first 503. */
  lemma CallsBounded(req: Request, apiKey: Option<string>, upstream: Upstream)
    ensures var run := Handle(req, apiKey, upstream);
      && |run.sent| <= 2
      && (run.sent != [] ==> req.Fields? && Acceptable(req.text) && forall i :: 0 <= i < |run.sent| ==> run.sent[i] == req.text.s)
      && (|run.sent| == 2 ==> upstream(run.sent[0], 0).Status? && upstream(run.sent[0], 0).code == MODEL_LOADING)
  {
  }

  /** Only the first call is bounded: the timeout reply comes exactly from a first
      call that hit the abort, a retry that does not answer leaves the request
      unanswered, and a retry that answers late is taken as it is. */
  lemma OnlyFirstCallTimesOut(text: string, apiKey: Option<string>, upstream: Upstream)
    requires text != "" && Truthy(apiKey)
    ensures var run := Handle(Fields(Str(text)), apiKey, upstream);
      && (run.reply == Reply(504, Error(MSG_TIMEOUT), false) <==> Slow(upstream(text, 0)))
      && (run.reply.NoReply? <==>
            upstream(text, 0).Status? && upstream(text, 0).code == MODEL_LOADING && upstream(text, 1).Timeout?)
      && (upstream(text, 0).Status? && upstream(text, 0).code == MODEL_LOADING && upstream(text, 1).Late? ==>
            run.reply == Answer(Responded(upstream(text, 1).code, upstream(text, 1).body)))
  {
  }

  /** A non-2xx final status is the reply's status, including one the unbounded
      retry receives late. */
  lemma StatusPassedThrough(text: string, apiKey: Option<string>, upstream: Upstream)
    requires text != "" && Truthy(apiKey)
    ensures var run := Handle(Fields(Str(text)), apiKey, upstream);
      var last := upstream(text, |run.sent| - 1);
      (last.Status? || (|run.sent| == 2 && last.Late?)) && !IsOk(last.code) ==>
        run.reply == Reply(last.code, Error(MSG_FAILED), false)
  {
  }

  /** A 200 carries exactly the non-empty text extracted from the last call's
      2xx JSON body. */
  lemma SuccessCarriesSummary(req: Request, apiKey: Option<string>, upstream: Upstream)
    ensures var run := Handle(req, apiKey, upstream);
      run.reply.Reply? && run.reply.status == 200 ==>
        && run.sent != []
        && var last := upstream(run.sent[0], |run.sent| - 1);
        && (last.Status? || last.Late?) && IsOk(last.code) && last.body.Json?
        && run.reply.payload == Summary(FieldText(Carrier(last.body.value)))
        && run.reply.payload.text != ""
  {
  }

  /** What a 2xx answer of the last call leads to: an unparseable body is a 500
      "Internal server error", an empty extraction (a `null` head included) a 500
      "No summary generated", and otherwise a 200 with the extracted text. */
  lemma GenerationOutcome(text: string, apiKey: Option<string>, upstream: Upstream)
    requires text != "" && Truthy(apiKey)
    requires var n := |CallWithRetry(text, upstream, false).sent|;
      var last := upstream(text, n - 1);
      (last.Status? || (n == 2 && last.Late?)) && IsOk(last.code)
    ensures var run := Handle(Fields(Str(text)), apiKey, upstream);
      var last := upstream(text, |run.sent| - 1);
      && (last.body.NotJson? ==> run.reply == Reply(500, Error(MSG_INTERNAL), true))
      && (last.body.Json? && FieldText(Carrier(last.body.value)) == "" ==>
            run.reply == Reply(500, Error(MSG_EMPTY), false))
      && (last.body.Json? && FieldText(Carrier(last.body.value)) != "" ==>
            run.reply == Reply(200, Summary(FieldText(Carrier(last.body.value))), true))
  {
  }
}

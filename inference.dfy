/**
 * The protocol both summarisation routes speak with the inference endpoint:
 * POST `{inputs: text}`, retry once after a 503 ("model loading"), and read the
 * summary out of a response body whose shape varies.
 *
 * The endpoint is an input: `Upstream(text, attempt)` is what the `attempt`-th
 * call (0 or 1) for `text` gives: an answer within the 20-second bound, an
 * answer that only comes after it (`Late`), no answer at all (`Timeout`), or a
 * network failure. The 15-second wait before the retry is not modelled as time.
 */
module Inference {
  import opened Wrappers
  import opened JsText

  /** A JSON value as far as extraction looks into it; an object keeps only the two
      properties extraction reads. `Scalar` is a string, number or boolean. */
  datatype Value =
    | Null
    | Record(summaryText: Option<string>, generatedText: Option<string>)
    | List(elems: seq<Value>)
    | Scalar

  /** A response body: parseable JSON, or text on which `response.json()` throws. */
  datatype Body = Json(value: Value) | NotJson

  datatype Outcome =
    | Status(code: int, body: Body)
    | Late(code: int, body: Body)
    | Timeout
    | NetworkError

  /** The endpoint does not answer within the 20-second bound. */
  predicate Slow(o: Outcome) {
    o.Late? || o.Timeout?
  }

  type Upstream = (string, nat) -> Outcome

  /** The kinds of exception the routes tell apart: an abort of a bounded call, and any other. */
  datatype Thrown = AbortError | OtherError

  /** What one `fetch` gives the route: a response, an exception, or (an unbounded
      call to an endpoint that does not answer) nothing at all. */
  datatype Response = Responded(code: int, body: Body) | Raised(error: Thrown) | Hung

  const MODEL_LOADING: int := 503

  /** `response.ok` */
  predicate IsOk(code: int) {
    200 <= code <= 299
  }

  /** One `fetch`, with the 20-second abort signal or without it: the abort turns
      every slow answer into an `AbortError`; without it a late answer is taken
      and a missing one is waited for forever. */
  function Fetch(o: Outcome, bounded: bool): (r: Response)
    ensures r.Responded? <==> o.Status? || (o.Late? && !bounded)
    ensures r.Responded? ==> r.code == o.code && r.body == o.body
    ensures r == Raised(AbortError) <==> bounded && Slow(o)
    ensures r == Raised(OtherError) <==> o.NetworkError?
    ensures r.Hung? <==> !bounded && o.Timeout?
  {
    match o
    case Status(code, body) => Responded(code, body)
    case Late(code, body) => if bounded then Raised(AbortError) else Responded(code, body)
    case Timeout => if bounded then Raised(AbortError) else Hung
    case NetworkError => Raised(OtherError)
  }

  /** The calls made for `text` and the response the route goes on with. */
  datatype Exchange = Exchange(response: Response, sent: seq<string>)

  /** Call once (bounded); after a 503 call a second time, bounded or not as the
      route does, and keep whatever that gives. */
  function CallWithRetry(text: string, upstream: Upstream, retryBounded: bool): (x: Exchange)
    ensures 1 <= |x.sent| <= 2 && forall i :: 0 <= i < |x.sent| ==> x.sent[i] == text
    ensures |x.sent| == 2 <==> upstream(text, 0).Status? && upstream(text, 0).code == MODEL_LOADING
    ensures |x.sent| == 1 ==> x.response == Fetch(upstream(text, 0), true)
    ensures |x.sent| == 2 ==> x.response == Fetch(upstream(text, 1), retryBounded)
  {
    var first := Fetch(upstream(text, 0), true);
    if first.Responded? && first.code == MODEL_LOADING then
      Exchange(Fetch(upstream(text, 1), retryBounded), [text, text])
    else
      Exchange(first, [text])
  }

  /** The value whose properties extraction reads: the first element of a
      non-empty array, otherwise the body itself. */
  function Carrier(v: Value): Value {
    if v.List? && |v.elems| > 0 then v.elems[0] else v
  }

  /** `c.summary_text || c.generated_text || ''`: `summary_text` wins when it is
      non-empty, and a non-empty result is always one of the two properties. */
  function FieldText(c: Value): (s: string)
    ensures c.Record? && Truthy(c.summaryText) ==> s == c.summaryText.value
    ensures c.Record? && !Truthy(c.summaryText) && Truthy(c.generatedText) ==> s == c.generatedText.value
    ensures s != "" <==> c.Record? && (Truthy(c.summaryText) || Truthy(c.generatedText))
  {
    if c.Record? then
      if Truthy(c.summaryText) then c.summaryText.value
      else if Truthy(c.generatedText) then c.generatedText.value
      else ""
    else ""
  }

  datatype Payload = Summary(text: string) | Error(message: string)

  /** A JSON reply with its status and whether it carries `Cache-Control: no-store`;
      `NoReply` when the handler never answers. */
  datatype Reply = Reply(status: int, payload: Payload, noStore: bool) | NoReply

  const MSG_NO_KEY: string := "HF_API_KEY not configured"
  const MSG_FAILED: string := "Failed to generate summary"
  const MSG_EMPTY: string := "No summary generated"
  const MSG_TIMEOUT: string := "Summarization timed out"
  const MSG_INTERNAL: string := "Internal server error"
}

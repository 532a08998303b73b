/** How the page scripts read the reply of one `fetch` call: the error detail of
    a non-2xx reply, the connectivity/auth probe decision, and the delete summary.
    Both the key-asset page and the delete panel use these same rules. */
module Dispatch {
  import opened Wrappers
  import opened JsValues
  import Text

  /** What one `fetch` produced: a 2xx reply whose JSON body parsed, a reply
      with `response.ok` false (its status and body text), or a failure with no
      usable body (network error, malformed JSON). */
  datatype Response<T> = Ok(json: T) | HttpStatus(code: nat, body: string) | Transport

  /** The error a call is abandoned with. */
  datatype FetchError = HttpFailure(detail: string) | TransportFailure

  /** `detail || \`HTTP ${status}\``: the body text of a failed reply, or a
      message naming the status when the body is empty. Never empty. */
  function ErrorDetail(code: nat, body: string): (d: string)
    ensures d != ""
    ensures body != "" ==> d == body
    ensures body == "" ==> d == "HTTP " + Text.Decimal(code)
  {
    if body != "" then body else "HTTP " + Text.Decimal(code)
  }

  /** With an empty body the detail tells the statuses apart. */
  lemma ErrorDetailNamesStatus(a: nat, b: nat)
    ensures ErrorDetail(a, "") == ErrorDetail(b, "") ==> a == b
  {
    if ErrorDetail(a, "") == ErrorDetail(b, "") {
      assert Text.Decimal(a) == ErrorDetail(a, "")[5..];
      assert Text.Decimal(b) == ErrorDetail(b, "")[5..];
      Text.DecimalInjective(a, b);
    }
  }

  /** The common shape of every call: a 2xx reply yields its JSON, a non-2xx
      reply fails with its error detail, a transport failure fails as such. */
  function Interpret<T>(r: Response<T>): (res: Result<T, FetchError>)
    ensures res.Success? <==> r.Ok?
    ensures r.Ok? ==> res.value == r.json
    ensures r.HttpStatus? ==> res == Failure(HttpFailure(ErrorDetail(r.code, r.body)))
    ensures r.Transport? ==> res == Failure(TransportFailure)
  {
    match r
    case Ok(json) => Success(json)
    case HttpStatus(code, body) => Failure(HttpFailure(ErrorDetail(code, body)))
    case Transport => Failure(TransportFailure)
  }

  /** The JSON of `GET /api/scanner/ping`. */
  datatype PingBody = PingBody(connectivity: bool, auth: bool, message: Option<string>)

  /** What the probe button reports: the call failed, the scanner is unreachable,
      the scanner rejected the key, or all is well. */
  datatype ProbeOutcome =
    | ProbeFailed(error: FetchError)
    | Unreachable(message: string)
    | Rejected(message: string)
    | Healthy

  const UnreachableMessage: string := "无法连接 scanner"
  const RejectedMessage: string := "API Key 无效"

  /** The probe decision: connectivity is judged before auth, each failing
      dimension shows the server's message or its own fixed fallback, and only
      both flags true is success. A negative answer is a result, not a failure. */
  function Probe(r: Response<PingBody>): (o: ProbeOutcome)
    ensures o.ProbeFailed? <==> !r.Ok?
    ensures o.ProbeFailed? ==> Interpret(r) == Failure(o.error)
    ensures o.Unreachable? <==> r.Ok? && !r.json.connectivity
    ensures o.Rejected? <==> r.Ok? && r.json.connectivity && !r.json.auth
    ensures o.Healthy? <==> r.Ok? && r.json.connectivity && r.json.auth
    ensures o.Unreachable? ==> o.message == OrText(r.json.message, UnreachableMessage)
    ensures o.Rejected? ==> o.message == OrText(r.json.message, RejectedMessage)
  {
    match Interpret(r)
    case Failure(e) => ProbeFailed(e)
    case Success(data) =>
      if !data.connectivity then Unreachable(OrText(data.message, UnreachableMessage))
      else if !data.auth then Rejected(OrText(data.message, RejectedMessage))
      else Healthy
  }

  /** A reply reporting no connectivity is unreachable whatever its auth flag says. */
  lemma ProbeConnectivityFirst(c: bool, a: bool, m: Option<string>)
    ensures !c ==> Probe(Ok(PingBody(c, a, m))) == Probe(Ok(PingBody(c, !a, m)))
    ensures Probe(Ok(PingBody(c, a, m))).Healthy? <==> c && a
  {
  }

  /** The JSON of `POST /api/scanner/delete-invalid`. */
  datatype DeleteReply = DeleteReply(deleted: Option<int>, requested: Option<int>)

  /** The "deleted / requested" summary the delete buttons show. */
  datatype DeleteReport = DeleteReport(deleted: int, requested: int)

  /** The limit a delete button sends: the limit field, or 50 when it is empty. */
  function DeleteLimit(field: Option<int>): (n: int)
    ensures field.Some? ==> n == field.value
    ensures field == None ==> n == 50
  {
    field.GetOr(50)
  }

  /** The delete summary: `deleted ?? 0` and `requested ?? limit`, with the limit
      taken from the field (50 when empty); a reported 0 is kept while a missing
      field falls back. */
  function DeleteOutcome(limitField: Option<int>, r: Response<DeleteReply>): (res: Result<DeleteReport, FetchError>)
    ensures res.Success? <==> r.Ok?
    ensures !r.Ok? ==> res.error == Interpret(r).error
    ensures r.Ok? ==> res.value.deleted == r.json.deleted.GetOr(0)
    ensures r.Ok? && r.json.requested.Some? ==> res.value.requested == r.json.requested.value
    ensures r.Ok? && r.json.requested == None && limitField.Some? ==> res.value.requested == limitField.value
    ensures r.Ok? && r.json.requested == None && limitField == None ==> res.value.requested == 50
  {
    match Interpret(r)
    case Failure(e) => Failure(e)
    case Success(data) => Success(DeleteReport(data.deleted.GetOr(0), data.requested.GetOr(DeleteLimit(limitField))))
  }
}

/** The server's client of the scanner: the service record, the bearer header,
    the translation of upstream failures into HTTP errors, the two-step health
    and auth probe, and the application of synced keys to the local
    configuration. Each upstream request is replaced by what it returned. */
module ScannerService {
  import opened Wrappers
  import opened JsValues
  import Text

  /** A configured scanner client. */
  datatype Service = Service(baseUrl: string, apiKey: string, timeout: int)

  /** `ScannerService(base_url, api_key, timeout)`: a missing URL or key becomes
      "", and the URL loses every trailing "/" (it stays a prefix of the input). */
  function NewService(baseUrl: Option<string>, apiKey: Option<string>, timeout: int): (s: Service)
    ensures var u := baseUrl.GetOr("");
      && |s.baseUrl| <= |u| && s.baseUrl == u[..|s.baseUrl|]
      && (forall k :: |s.baseUrl| <= k < |u| ==> u[k] == '/')
      && (|s.baseUrl| > 0 ==> s.baseUrl[|s.baseUrl| - 1] != '/')
    ensures s.apiKey == apiKey.GetOr("") && s.timeout == timeout
  {
    Service(Text.StripTrailing(baseUrl.GetOr(""), '/'), apiKey.GetOr(""), timeout)
  }

  /** An HTTP error the route's caller receives: an `HTTPException` raised on
      purpose, or an exception that escaped every handler and became the
      framework's own error response. */
  datatype HttpError =
    | HttpError(status: int, detail: string)
    | Escaped(status: int, detail: string)

  const MissingKeyDetail: string := "Scanner API Key 未配置"
  const UnreachableDetail: string := "无法连接 scanner API"

  /** `_auth_headers`: a 400 error when no key is configured, otherwise the
      Authorization value `Bearer <key>`. */
  function AuthHeader(svc: Service): (r: Result<string, HttpError>)
    ensures r.Failure? <==> svc.apiKey == ""
    ensures r.Failure? ==> r.error == HttpError(400, MissingKeyDetail)
    ensures r.Success? ==> r.value == "Bearer " + svc.apiKey
  {
    if svc.apiKey == "" then Failure(HttpError(400, MissingKeyDetail))
    else Success("Bearer " + svc.apiKey)
  }

  /** The header carries exactly the key: different keys give different headers. */
  lemma AuthHeaderInjective(a: Service, b: Service)
    requires AuthHeader(a).Success? && AuthHeader(b).Success?
    ensures AuthHeader(a).value == AuthHeader(b).value ==> a.apiKey == b.apiKey
  {
    if AuthHeader(a).value == AuthHeader(b).value {
      assert a.apiKey == AuthHeader(a).value[7..];
      assert b.apiKey == AuthHeader(b).value[7..];
    }
  }

  /** What one upstream request produced: a 2xx reply and its JSON object, a 2xx
      reply whose body is not a JSON object, a non-2xx reply (its status, body
      text and reason phrase), or a transport error. */
  datatype Upstream<T> =
    | Reply(json: T)
    | Malformed
    | StatusError(code: int, text: string, reason: string)
    | RequestError

  /** The status of an exception no handler catches (`response.json()` failing
      on a 2xx reply raises neither `HTTPStatusError` nor `RequestError`). */
  const UnhandledStatus: int := 500
  const UnhandledDetail: string := "Internal Server Error"

  predicate IsSuccessStatus(code: int) {
    200 <= code < 300
  }

  /** The shared shape of `fetch_key_assets`, `trigger_reverify` and
      `delete_invalid`: the header check comes first (so a missing key is a 400
      whatever the scanner would say); a non-2xx reply keeps its status with the
      body text, or the reason phrase when the body is empty; a transport error
      becomes 502; a 2xx reply that does not decode escapes every handler and
      ends as a 500. */
  function Call<T>(svc: Service, resp: Upstream<T>): (r: Result<T, HttpError>)
    ensures svc.apiKey == "" ==> r == Failure(HttpError(400, MissingKeyDetail))
    ensures svc.apiKey != "" ==> (r.Success? <==> resp.Reply?)
    ensures svc.apiKey != "" && resp.Reply? ==> r.value == resp.json
    ensures svc.apiKey != "" && resp.StatusError? ==>
      r.error == HttpError(resp.code, if resp.text != "" then resp.text else resp.reason)
    ensures svc.apiKey != "" && resp.RequestError? ==> r.error == HttpError(502, UnreachableDetail)
    ensures svc.apiKey != "" && resp.Malformed? ==> r.error == Escaped(UnhandledStatus, UnhandledDetail)
  {
    match AuthHeader(svc)
    case Failure(e) => Failure(e)
    case Success(_) =>
      match resp
      case Reply(json) => Success(json)
      case Malformed => Failure(Escaped(UnhandledStatus, UnhandledDetail))
      case StatusError(code, text, reason) => Failure(HttpError(code, if text != "" then text else reason))
      case RequestError => Failure(HttpError(502, UnreachableDetail))
  }

  // ---------------------------------------------------------------------------
  // Upstream request bodies

  /** The JSON body of the scanner's reverify call. */
  datatype ReverifyBody = ReverifyBody(count: int, filterByStatus: Option<string>)

  /** `trigger_reverify`'s payload: always the count; `filter_by_status` (the
      statuses joined by ",") only when a non-empty list was given. */
  function ReverifyUpstreamBody(count: int, statuses: Option<seq<string>>): (b: ReverifyBody)
    ensures b.count == count
    ensures b.filterByStatus.Some? <==> statuses.Some? && statuses.value != []
    ensures b.filterByStatus.Some? ==> b.filterByStatus.value == Text.Join(statuses.value, ',')
  {
    if statuses.Some? && statuses.value != [] then ReverifyBody(count, Some(Text.Join(statuses.value, ',')))
    else ReverifyBody(count, None)
  }

  /** The comma-joined filter loses nothing: when no status holds a comma, the
      scanner can split the filter back into exactly the statuses sent. */
  lemma FilterByStatusLossless(count: int, statuses: seq<string>)
    requires statuses != []
    requires forall i :: 0 <= i < |statuses| ==> ',' !in statuses[i]
    ensures Text.Split(ReverifyUpstreamBody(count, Some(statuses)).filterByStatus.value, ',') == statuses
  {
    Text.SplitJoin(statuses, ',');
  }

  // ---------------------------------------------------------------------------
  // Ping

  /** What the health request produced: an exception, or a status code. */
  datatype HealthObs = HealthRaised | HealthStatus(code: int)

  /** What the one-item key-asset request produced: a status (with body text
      and reason phrase), or a transport error. */
  datatype AuthObs = AuthStatus(code: int, text: string, reason: string) | AuthTransport

  datatype ErrorType = ConnectivityError | AuthError | ScannerError

  /** The `ping` result dictionary. */
  datatype PingResult = PingResult(connectivity: bool, auth: bool, message: Option<string>, errorType: Option<ErrorType>)

  const ServiceUnreachableMessage: string := "无法连接 scanner 服务"
  const UnhealthyMessage: string := "scanner 启动或响应异常"
  const KeyRejectedMessage: string := "scanner API Key 无效"

  predicate Healthy(h: HealthObs) {
    h == HealthStatus(200)
  }

  /** `ping`: connectivity is exactly a 200 from the health check; the auth probe
      runs only after that; 401/403 means a bad key, another non-2xx status is a
      scanner error carrying the reply's text, a transport failure counts against
      connectivity. The missing-key 400 raised while building the probe's header
      is not caught and fails the whole call. */
  function Ping(svc: Service, health: HealthObs, probe: AuthObs): (r: Result<PingResult, HttpError>)
    ensures r.Failure? <==> Healthy(health) && svc.apiKey == ""
    ensures r.Failure? ==> r.error == HttpError(400, MissingKeyDetail)
    ensures r.Success? ==> (r.value.connectivity <==> Healthy(health))
    ensures r.Success? ==> (r.value.auth ==> r.value.connectivity)
    ensures r.Success? ==> (r.value.auth <==> probe.AuthStatus? && IsSuccessStatus(probe.code) && Healthy(health))
    ensures r.Success? ==> (r.value.auth <==> r.value.errorType == None && r.value.message == None)
    ensures r.Success? ==> (r.value.errorType == Some(ConnectivityError) <==> !Healthy(health) || probe.AuthTransport?)
    ensures r.Success? ==> (r.value.errorType == Some(AuthError) <==>
      Healthy(health) && probe.AuthStatus? && (probe.code == 401 || probe.code == 403))
    ensures r.Success? ==> (r.value.errorType == Some(ScannerError) <==>
      Healthy(health) && probe.AuthStatus? && probe.code != 401 && probe.code != 403 && !IsSuccessStatus(probe.code))
    ensures r.Success? && r.value.errorType == Some(ScannerError) ==>
      probe.AuthStatus? && r.value.message == Some(if probe.text != "" then probe.text else probe.reason)
    ensures r.Success? && r.value.errorType == Some(AuthError) ==> r.value.message == Some(KeyRejectedMessage)
    ensures r.Success? && r.value.errorType == Some(ConnectivityError) ==>
      r.value.message == Some(if health.HealthStatus? && health.code != 200 then UnhealthyMessage else ServiceUnreachableMessage)
  {
    if health.HealthRaised? then
      Success(PingResult(false, false, Some(ServiceUnreachableMessage), Some(ConnectivityError)))
    else if health.code != 200 then
      Success(PingResult(false, false, Some(UnhealthyMessage), Some(ConnectivityError)))
    else
      match AuthHeader(svc)
      case Failure(e) => Failure(e)
      case Success(_) =>
        match probe
        case AuthTransport =>
          Success(PingResult(true, false, Some(ServiceUnreachableMessage), Some(ConnectivityError)))
        case AuthStatus(code, text, reason) =>
          if code == 401 || code == 403 then
            Success(PingResult(true, false, Some(KeyRejectedMessage), Some(AuthError)))
          else if !IsSuccessStatus(code) then
            Success(PingResult(true, false, Some(if text != "" then text else reason), Some(ScannerError)))
          else
            Success(PingResult(true, true, None, None))
  }

  /** When the health check fails the auth probe is never consulted. */
  lemma PingSkipsProbeWhenUnhealthy(svc: Service, health: HealthObs, p1: AuthObs, p2: AuthObs)
    requires !Healthy(health)
    ensures Ping(svc, health, p1) == Ping(svc, health, p2)
    ensures Ping(svc, health, p1).Success? && !Ping(svc, health, p1).value.connectivity
  {
  }

  // ---------------------------------------------------------------------------
  // Sync

  /** One record of the scanner's key listing, as far as syncing reads it. */
  datatype ScannerItem = ScannerItem(key: Option<string>, recheckStatus: Option<string>)

  /** `[str(item.get("key", "")).strip() for item in items if item.get("key")]`:
      the stripped keys of the items with a non-empty key, in order (a key of
      blanks is kept, stripped to ""). */
  function SyncedKeys(items: seq<ScannerItem>): (keys: seq<string>)
    ensures |keys| <= |items|
    ensures forall i :: 0 <= i < |keys| ==> Text.NoSurroundingSpace(keys[i])
  {
    if |items| == 0 then []
    else (if NonEmpty(items[0].key) then [Text.Trim(items[0].key.value)] else []) + SyncedKeys(items[1..])
  }

  /** An item that may supply the paid key: billable (any letter case) and keyed. */
  predicate PaidSource(item: ScannerItem) {
    Text.Lower(item.recheckStatus.GetOr("")) == "billable" && NonEmpty(item.key)
  }

  /** The stripped key of the first paid source, if any. */
  function PaidCandidate(items: seq<ScannerItem>): (r: Option<string>)
    ensures r.Some? ==> Text.NoSurroundingSpace(r.value)
    ensures r.Some? ==> exists i :: 0 <= i < |items| && PaidSource(items[i])
  {
    if |items| == 0 then None
    else if PaidSource(items[0]) then Some(Text.Trim(items[0].key.value))
    else PaidCandidate(items[1..])
  }

  /** PaidCandidate picks the first paid source and no other. */
  lemma {:induction false} PaidCandidateIsFirst(items: seq<ScannerItem>)
    ensures PaidCandidate(items) == None <==> forall i :: 0 <= i < |items| ==> !PaidSource(items[i])
    ensures PaidCandidate(items).Some? ==>
      exists i :: && 0 <= i < |items| && PaidSource(items[i])
                  && PaidCandidate(items).value == Text.Trim(items[i].key.value)
                  && (forall j :: 0 <= j < i ==> !PaidSource(items[j]))
  {
    if |items| > 0 && !PaidSource(items[0]) {
      var rest := items[1..];
      assert PaidCandidate(items) == PaidCandidate(rest);
      PaidCandidateIsFirst(rest);
      if PaidCandidate(rest).Some? {
        var i :| 0 <= i < |rest| && PaidSource(rest[i])
          && PaidCandidate(rest).value == Text.Trim(rest[i].key.value)
          && forall j :: 0 <= j < i ==> !PaidSource(rest[j]);
        assert items[i + 1] == rest[i];
        assert forall j :: 0 <= j < i + 1 ==> !PaidSource(items[j]) by {
          forall j | 0 <= j < i + 1
            ensures !PaidSource(items[j])
          {
            if j > 0 {
              assert items[j] == rest[j - 1];
            }
          }
        }
      } else {
        assert forall i :: 0 <= i < |items| ==> !PaidSource(items[i]) by {
          forall i | 0 <= i < |items|
            ensures !PaidSource(items[i])
          {
            if i > 0 {
              assert items[i] == rest[i - 1];
            }
          }
        }
      }
    }
  }

  /** The fields a sync writes into the local configuration. */
  datatype ConfigUpdate = ConfigUpdate(apiKeys: Option<seq<string>>, paidKey: Option<string>)

  /** What `apply_synced_keys` returns, with the update it applied. */
  datatype SyncSummary = SyncSummary(synced: int, applied: bool, update: Option<ConfigUpdate>)

  /** `apply_synced_keys`: no keys means nothing is written; otherwise a "paid"
      sync writes only PAID_KEY (the first key) and any other type writes
      API_KEYS (all keys, in order) plus PAID_KEY when the first billable keyed
      item strips to a non-empty key. With keys, something is always applied. */
  function ApplySyncedKeys(items: seq<ScannerItem>, keyType: string): (s: SyncSummary)
    ensures SyncedKeys(items) == [] ==> s == SyncSummary(0, false, None)
    ensures SyncedKeys(items) != [] ==> s.applied && s.synced == |SyncedKeys(items)|
    ensures s.applied <==> s.update.Some?
    ensures s.applied && keyType == "paid" ==> s.update.value == ConfigUpdate(None, Some(SyncedKeys(items)[0]))
    ensures s.applied && keyType != "paid" ==> s.update.value.apiKeys == Some(SyncedKeys(items))
    ensures s.applied && keyType != "paid" ==>
      (s.update.value.paidKey.Some? <==> PaidCandidate(items).Some? && PaidCandidate(items).value != "")
    ensures s.applied && keyType != "paid" && s.update.value.paidKey.Some? ==>
      s.update.value.paidKey == PaidCandidate(items)
  {
    var keys := SyncedKeys(items);
    if keys == [] then SyncSummary(0, false, None)
    else
      var update :=
        if keyType == "paid" then ConfigUpdate(None, Some(keys[0]))
        else
          var candidate := PaidCandidate(items);
          ConfigUpdate(Some(keys), if candidate.Some? && candidate.value != "" then candidate else None);
      if update != ConfigUpdate(None, None) then SyncSummary(|keys|, true, Some(update))
      else SyncSummary(|keys|, false, None)
  }

  /** Every keyed item contributes its stripped key, and there are no keys at all
      exactly when no item has a non-empty key. */
  lemma {:induction false} SyncedKeysMembership(items: seq<ScannerItem>)
    ensures forall i :: 0 <= i < |items| && NonEmpty(items[i].key) ==> Text.Trim(items[i].key.value) in SyncedKeys(items)
    ensures SyncedKeys(items) == [] <==> forall i :: 0 <= i < |items| ==> !NonEmpty(items[i].key)
  {
    if |items| > 0 {
      SyncedKeysMembership(items[1..]);
      forall i | 0 <= i < |items| && NonEmpty(items[i].key)
        ensures Text.Trim(items[i].key.value) in SyncedKeys(items)
      {
        if i > 0 {
          assert items[i] == items[1..][i - 1];
        }
      }
      if SyncedKeys(items) == [] {
        forall i | 0 <= i < |items|
          ensures !NonEmpty(items[i].key)
        {
          if i > 0 {
            assert items[i] == items[1..][i - 1];
          }
        }
      }
    }
  }

  /** Conversely, every synced key is the stripped key of some keyed item: the
      sync invents nothing. */
  lemma {:induction false} SyncedKeysFromItems(items: seq<ScannerItem>, k: string)
    requires k in SyncedKeys(items)
    ensures exists i :: 0 <= i < |items| && NonEmpty(items[i].key) && k == Text.Trim(items[i].key.value)
  {
    if !(NonEmpty(items[0].key) && k == Text.Trim(items[0].key.value)) {
      SyncedKeysFromItems(items[1..], k);
      var j :| 0 <= j < |items[1..]| && NonEmpty(items[1..][j].key) && k == Text.Trim(items[1..][j].key.value);
      assert items[j + 1] == items[1..][j];
    }
  }

  /** Syncing distributes over concatenation, so API_KEYS keeps the item order:
      the keys of earlier items come first. */
  lemma {:induction false} SyncedKeysAppend(a: seq<ScannerItem>, b: seq<ScannerItem>)
    ensures SyncedKeys(a + b) == SyncedKeys(a) + SyncedKeys(b)
  {
    if |a| == 0 {
      assert a + b == b;
    } else {
      assert (a + b)[1..] == a[1..] + b;
      SyncedKeysAppend(a[1..], b);
    }
  }

  /** The paid key a sync writes is always one of the keys it synced, so a
      "valid" sync never sets PAID_KEY to a key missing from API_KEYS. */
  lemma PaidKeyIsSynced(items: seq<ScannerItem>, keyType: string)
    ensures var s := ApplySyncedKeys(items, keyType);
      s.applied && s.update.value.paidKey.Some? ==> s.update.value.paidKey.value in SyncedKeys(items)
  {
    var s := ApplySyncedKeys(items, keyType);
    if s.applied && s.update.value.paidKey.Some? && keyType != "paid" {
      PaidCandidateIsFirst(items);
      var i :| 0 <= i < |items| && PaidSource(items[i]) && PaidCandidate(items).value == Text.Trim(items[i].key.value);
      SyncedKeysMembership(items);
    }
  }

  /** The JSON of the scanner's key listing, as syncing reads it. */
  datatype AssetsReply = AssetsReply(items: Option<seq<ScannerItem>>, total: Option<int>)

  /** What `sync_keys_from_scanner` returns. */
  datatype SyncReport = SyncReport(summary: SyncSummary, total: int, keyType: string)

  /** `sync_keys_from_scanner`: a failed listing fails the sync with the listing's
      error; otherwise the keys of `items or []` are applied and the report adds
      the listing's `total` (else the number of items) and echoes the type. */
  function SyncKeysFromScanner(svc: Service, keyType: string, resp: Upstream<AssetsReply>): (r: Result<SyncReport, HttpError>)
    ensures r.Failure? <==> Call(svc, resp).Failure?
    ensures r.Failure? ==> r.error == Call(svc, resp).error
    ensures r.Success? ==> var items := resp.json.items.GetOr([]);
      && r.value.summary == ApplySyncedKeys(items, keyType)
      && r.value.total == resp.json.total.GetOr(|items|)
      && r.value.keyType == keyType
  {
    match Call(svc, resp)
    case Failure(e) => Failure(e)
    case Success(data) =>
      var items := data.items.GetOr([]);
      Success(SyncReport(ApplySyncedKeys(items, keyType), data.total.GetOr(|items|), keyType))
  }
}

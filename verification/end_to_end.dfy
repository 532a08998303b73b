/** The page scripts and the server routes together: what a load-then-save
    through the browser does to the stored settings, what the probe button
    shows for each `ping` result, and what the reverify and sync buttons make
    the server send and report. The JSON between the two sides is written out
    as plain conversion functions. */
module EndToEnd {
  import opened Wrappers
  import Text
  import JsValues
  import Dispatch
  import Assets
  import Schedule
  import ScannerService
  import ScannerRoutes

  // ---------------------------------------------------------------------------
  // JSON between server and page

  /** The schedule document as `GET /api/scanner/schedule` serialises it. */
  function ScheduleJson(t: ScannerRoutes.ScheduleSettings): Schedule.ScheduleDoc {
    Schedule.ScheduleDoc(
      Some(t.reverifyEnabled), Some(t.reverifyTime), Some(t.reverifyCount), Some(t.reverifyStatuses),
      Some(t.syncEnabled), Some(t.syncTime), Some(t.syncLimit), Some(t.syncType),
      Some(t.deleteEnabled), Some(t.deleteTime), Some(t.deleteLimit))
  }

  /** The page's schedule payload as the server receives it. */
  function ScheduleBody(p: Schedule.SchedulePayload): ScannerRoutes.SchedulePayloadIn {
    ScannerRoutes.SchedulePayloadIn(
      Some(p.syncEnabled), Some(p.syncTime), Some(p.syncLimit), Some(p.syncType),
      Some(p.reverifyEnabled), Some(p.reverifyTime), Some(p.reverifyCount), Some(p.reverifyStatuses),
      Some(p.deleteEnabled), Some(p.deleteTime), Some(p.deleteLimit))
  }

  /** The configuration view as the page receives it. */
  function ConfigJson(v: ScannerRoutes.ConfigView): Assets.ConfigReply {
    Assets.ConfigReply(Some(v.baseUrl), Some(v.timeout), Some(v.defaultLimit))
  }

  /** The page's configuration payload as the server receives it. */
  function ConfigBody(c: Assets.ConfigPayload): ScannerRoutes.ConfigPayloadIn {
    ScannerRoutes.ConfigPayloadIn(Some(c.baseUrl), Some(c.apiKey), Some(c.timeout), Some(c.defaultLimit))
  }

  /** The `ping` result as the page receives it. */
  function PingJson(r: ScannerService.PingResult): Dispatch.PingBody {
    Dispatch.PingBody(r.connectivity, r.auth, r.message)
  }

  /** The reverify trigger's body as the server receives it. */
  function ReverifyJson(q: Schedule.ReverifyRequest): ScannerRoutes.ReverifyPayloadIn {
    ScannerRoutes.ReverifyPayloadIn(Some(q.count), q.statuses)
  }

  /** The sync report as the page receives it. */
  function SyncJson(r: ScannerService.SyncReport): Schedule.SyncReply {
    Schedule.SyncReply(Some(r.summary.synced), Some(r.total))
  }

  /** The body FastAPI sends for a raised `HTTPException`: `{"detail":"…"}`
      (the detail is assumed to need no JSON escaping). */
  function ErrorJson(e: ScannerService.HttpError): string {
    "{\"detail\":\"" + e.detail + "\"}"
  }

  /** What the server puts on the wire for an error: the JSON body of a raised
      `HTTPException`, the bare text of an escaped exception's response. */
  function ErrorBody(e: ScannerService.HttpError): string {
    if e.Escaped? then e.detail else ErrorJson(e)
  }

  // ---------------------------------------------------------------------------
  // Schedule round trip

  /** A time the page shows and sends back unchanged. */
  predicate PlainText(s: string) {
    s != "" && Text.NoSurroundingSpace(s)
  }

  /** Stored schedule settings the page can reproduce: times non-empty without
      surrounding whitespace, counts within the payload bounds, a valid type, a
      well-formed status list. */
  predicate ReproducibleSchedule(t: ScannerRoutes.ScheduleSettings) {
    && PlainText(t.syncTime) && PlainText(t.reverifyTime) && PlainText(t.deleteTime)
    && 1 <= t.syncLimit <= 1000 && 1 <= t.reverifyCount <= 1000 && 1 <= t.deleteLimit <= 1000
    && ScannerRoutes.ValidKeyType(t.syncType)
    && Schedule.StatusList(t.reverifyStatuses)
  }

  /** The payload the panel sends for stored settings it shows unedited. */
  function UneditedPayload(t: ScannerRoutes.ScheduleSettings): Schedule.SchedulePayload {
    Schedule.SchedulePayload(
      t.reverifyEnabled, t.reverifyTime, t.reverifyCount, t.reverifyStatuses,
      t.syncEnabled, t.syncTime, t.syncLimit, t.syncType,
      t.deleteEnabled, t.deleteTime, t.deleteLimit)
  }

  lemma LoadSaveReproduces(form: Schedule.ScheduleForm, t: ScannerRoutes.ScheduleSettings)
    requires ReproducibleSchedule(t)
    ensures Schedule.SaveSchedulePayload(Schedule.LoadSchedule(form, Dispatch.Ok(ScheduleJson(t)))) == UneditedPayload(t)
  {
    Schedule.LoadThenSave(form, ScheduleJson(t));
  }

  lemma ServerStoresUnedited(s: ScannerRoutes.Settings)
    requires ReproducibleSchedule(s.schedule)
    ensures ScannerRoutes.ValidateSchedule(ScheduleBody(UneditedPayload(s.schedule))).Success?
    ensures ScannerRoutes.UpdateSchedule(s, ScannerRoutes.ValidateSchedule(ScheduleBody(UneditedPayload(s.schedule))).value) == s
  {
    var t := s.schedule;
    var v := ScannerRoutes.ValidateSchedule(ScheduleBody(UneditedPayload(t)));
    assert v.Success?;
    assert v.value.reverifyStatuses == Some(t.reverifyStatuses);
  }

  /** The schedule document round-trips losslessly: loading reproducible stored
      settings into the panel and saving them unedited is accepted by the server
      and stores exactly the same settings. */
  lemma ScheduleRoundTrip(s: ScannerRoutes.Settings, form: Schedule.ScheduleForm)
    requires ReproducibleSchedule(s.schedule)
    ensures var p := Schedule.SaveSchedulePayload(Schedule.LoadSchedule(form, Dispatch.Ok(ScheduleJson(s.schedule))));
      && ScannerRoutes.ValidateSchedule(ScheduleBody(p)).Success?
      && ScannerRoutes.UpdateSchedule(s, ScannerRoutes.ValidateSchedule(ScheduleBody(p)).value) == s
  {
    LoadSaveReproduces(form, s.schedule);
    ServerStoresUnedited(s);
  }

  /** The panel's fallbacks for empty fields are the server's own defaults. */
  lemma EmptyFieldsSaveServerDefaults(f: Schedule.ScheduleForm)
    requires f.syncLimit == None && f.reverifyCount == None && f.deleteLimit == None && f.syncType == ""
    ensures var p := Schedule.SaveSchedulePayload(f);
      && p.syncLimit == ScannerRoutes.ServerDefaultSyncLimit
      && p.reverifyCount == ScannerRoutes.ServerDefaultReverifyCount
      && p.deleteLimit == ScannerRoutes.ServerDefaultDeleteLimit
      && p.syncType == ScannerRoutes.ServerDefaultSyncType
      && ScannerRoutes.ValidateSchedule(ScheduleBody(p)).Success?
  {
  }

  // ---------------------------------------------------------------------------
  // Configuration round trip

  /** A stored connection the page can reproduce: URL without surrounding
      whitespace or trailing "/", timeout and default limit within bounds. */
  predicate ReproducibleConnection(c: ScannerRoutes.Connection) {
    && Text.NoSurroundingSpace(c.baseUrl)
    && (|c.baseUrl| == 0 || c.baseUrl[|c.baseUrl| - 1] != '/')
    && 1 <= c.timeout <= 120 && 1 <= c.defaultLimit <= 1000
  }

  /** Loading the configuration and saving it with `typedKey` in the key field
      is accepted and stores the same connection, with the key replaced by the
      trimmed field: since the key is never loaded, saving with the field left
      empty stores an empty key. */
  lemma ConfigRoundTrip(s: ScannerRoutes.Settings, page: Assets.Page, typedKey: string)
    requires ReproducibleConnection(s.connection)
    ensures var loaded := Assets.LoadConfig(page, Dispatch.Ok(ConfigJson(ScannerRoutes.GetConfig(s))));
      var body := Assets.SaveConfigPayload(loaded.(form := loaded.form.(apiKey := typedKey)));
      && ScannerRoutes.ValidateConfig(ConfigBody(body)).Success?
      && ScannerRoutes.UpdateConfig(s, ScannerRoutes.ValidateConfig(ConfigBody(body)).value)
         == s.(connection := s.connection.(apiKey := Text.Trim(typedKey)))
  {
    var c := s.connection;
    var loaded := Assets.LoadConfig(page, Dispatch.Ok(ConfigJson(ScannerRoutes.GetConfig(s))));
    assert loaded.form.baseUrl == c.baseUrl;
    var body := Assets.SaveConfigPayload(loaded.(form := loaded.form.(apiKey := typedKey)));
    assert body.baseUrl == c.baseUrl;
    var v := ScannerRoutes.ValidateConfig(ConfigBody(body));
    assert v.Success?;
    assert Text.StripTrailing(c.baseUrl, '/') == c.baseUrl;
  }

  // ---------------------------------------------------------------------------
  // Probe and ping

  /** What the probe button shows follows the server's `ping`: success exactly
      when auth passed, "unreachable" exactly when the health check failed, and
      "rejected" when the scanner was up but the key check did not pass. */
  lemma ProbeAgreesWithPing(svc: ScannerService.Service, h: ScannerService.HealthObs, a: ScannerService.AuthObs)
    requires ScannerService.Ping(svc, h, a).Success?
    ensures var r := ScannerService.Ping(svc, h, a).value;
      var o := Dispatch.Probe(Dispatch.Ok(PingJson(r)));
      && (o.Healthy? <==> r.auth)
      && (o.Unreachable? <==> !ScannerService.Healthy(h))
      && (o.Rejected? <==> ScannerService.Healthy(h) && !r.auth)
  {
  }

  // ---------------------------------------------------------------------------
  // Reverify and sync

  /** The statuses typed into the panel reach the scanner intact: the filter is
      sent exactly when the parsed list is non-empty, and it splits back into
      that list. */
  lemma ReverifyFilterReachesScanner(f: Schedule.ScheduleForm)
    requires f.reverifyCount == None || 1 <= f.reverifyCount.value <= 1000
    ensures var r := ScannerRoutes.ReverifyRoute(ReverifyJson(Schedule.ReverifyTrigger(f)));
      var parsed := Schedule.ParseStatuses(f.reverifyStatuses);
      && r.Success?
      && (r.value.filterByStatus.Some? <==> parsed != [])
      && (r.value.filterByStatus.Some? ==> Text.Split(r.value.filterByStatus.value, ',') == parsed)
  {
    var parsed := Schedule.ParseStatuses(f.reverifyStatuses);
    if parsed != [] {
      ScannerService.FilterByStatusLossless(f.reverifyCount.GetOr(50), parsed);
    }
  }

  /** The sync button reports the number of keys the server applied. */
  lemma SyncButtonReportsSyncedKeys(svc: ScannerService.Service, keyType: string, listing: ScannerService.Upstream<ScannerService.AssetsReply>)
    requires ScannerService.SyncKeysFromScanner(svc, keyType, listing).Success?
    ensures var report := ScannerService.SyncKeysFromScanner(svc, keyType, listing).value;
      Schedule.SyncOutcome(Dispatch.Ok(SyncJson(report)))
        == Success(|ScannerService.SyncedKeys(listing.json.items.GetOr([]))|)
  {
  }

  /** The fetch button's query, after a load, is accepted by the key-asset route
      whenever the loaded default limit is in bounds, and the route fetches with
      exactly that limit and the type "valid". */
  lemma FetchAfterLoadReachesRoute(s: ScannerRoutes.Settings, page: Assets.Page, d: Assets.ConfigReply)
    requires 1 <= JsValues.OrInt(d.defaultLimit, 50) <= 1000
    ensures var q := Assets.FetchQuery(Assets.LoadConfig(page, Dispatch.Ok(d)));
      && q == Assets.AssetsQuery(JsValues.OrInt(d.defaultLimit, 50), "valid")
      && ScannerRoutes.KeyAssetsQuery(s, Some(q.limit), Some(q.keyType)) == Success((q.limit, q.keyType))
  {
  }

  /** The sync and delete buttons always send a limit, so the server's configured
      fallbacks never apply to them: when the panel's fields are in bounds, the
      routes act on exactly the limit and type the panel would save. */
  lemma RunNowUsesPanelValues(s: ScannerRoutes.Settings, f: Schedule.ScheduleForm)
    requires f.syncLimit == None || 1 <= f.syncLimit.value <= 1000
    requires f.deleteLimit == None || 1 <= f.deleteLimit.value <= 1000
    requires f.syncType == "" || ScannerRoutes.ValidKeyType(f.syncType)
    ensures var q := Schedule.SyncTrigger(f);
      var p := Schedule.SaveSchedulePayload(f);
      && ScannerRoutes.SyncNowQuery(s, Some(q.limit), Some(q.keyType)) == Success((p.syncLimit, p.syncType))
      && ScannerRoutes.DeleteInvalidQuery(s, Some(Dispatch.DeleteLimit(f.deleteLimit))) == Success(p.deleteLimit)
  {
  }

  // ---------------------------------------------------------------------------
  // Reply reports

  /** An error the server ends in reaches the page as the body it was sent in:
      the JSON body of a raised `HTTPException`, which holds the server's detail
      and so never falls back to naming the bare status, or the bare text of an
      escaped exception's response. */
  lemma ServerErrorReachesPage<T>(e: ScannerService.HttpError)
    requires e.status >= 0
    ensures e.HttpError? || e.detail != "" ==>
      Dispatch.Interpret<T>(Dispatch.HttpStatus(e.status, ErrorBody(e))) == Failure(Dispatch.HttpFailure(ErrorBody(e)))
    ensures e.HttpError? ==> ErrorBody(e)[11..11 + |e.detail|] == e.detail
    ensures e.HttpError? ==> ErrorBody(e) != "HTTP " + Text.Decimal(e.status)
    ensures e.Escaped? ==> ErrorBody(e) == e.detail
  {
    if e.HttpError? {
      assert ErrorBody(e)[0] == '{';
      assert ("HTTP " + Text.Decimal(e.status))[0] == 'H';
    }
  }

  /** A scanner status error, with a key configured, reaches the page with the
      scanner's own body text (or reason phrase) inside the route's JSON body. */
  lemma UpstreamErrorReachesPage<T>(svc: ScannerService.Service, code: nat, text: string, reason: string)
    requires svc.apiKey != ""
    ensures var r := ScannerService.Call<T>(svc, ScannerService.StatusError(code, text, reason));
      var detail := if text != "" then text else reason;
      && r == Failure(ScannerService.HttpError(code, detail))
      && Dispatch.Interpret<T>(Dispatch.HttpStatus(r.error.status, ErrorBody(r.error)))
         == Failure(Dispatch.HttpFailure("{\"detail\":\"" + detail + "\"}"))
  {
  }

  /** The undecodable scanner reply reaches the page as "Internal Server Error". */
  lemma MalformedReplyReachesPage<T>(svc: ScannerService.Service)
    requires svc.apiKey != ""
    ensures var r := ScannerService.Call<T>(svc, ScannerService.Malformed);
      && r.Failure?
      && Dispatch.Interpret<T>(Dispatch.HttpStatus(r.error.status, ErrorBody(r.error)))
         == Failure(Dispatch.HttpFailure("Internal Server Error"))
  {
  }

  /** When the scanner's delete reply leaves out `requested`, the number the delete
      button shows is exactly the limit the delete route acted on, since the
      button always sends its limit. */
  lemma DeleteSummaryNamesRouteLimit(s: ScannerRoutes.Settings, field: Option<int>, deleted: Option<int>)
    requires 1 <= Dispatch.DeleteLimit(field) <= 1000
    ensures var q := ScannerRoutes.DeleteInvalidQuery(s, Some(Dispatch.DeleteLimit(field)));
      && q.Success?
      && Dispatch.DeleteOutcome(field, Dispatch.Ok(Dispatch.DeleteReply(deleted, None)))
         == Success(Dispatch.DeleteReport(deleted.GetOr(0), q.value))
  {
  }

  /** When the scanner's reverify reply leaves out `checked`, the number the
      reverify button shows is exactly the count the route forwarded. */
  lemma ReverifyReportNamesForwardedCount(f: Schedule.ScheduleForm)
    requires f.reverifyCount == None || 1 <= f.reverifyCount.value <= 1000
    ensures var q := Schedule.ReverifyTrigger(f);
      var r := ScannerRoutes.ReverifyRoute(ReverifyJson(q));
      && r.Success?
      && Schedule.ReverifyOutcome(q, Dispatch.Ok(Schedule.ReverifyReply(None))) == Success(r.value.count)
  {
  }

  /** The schedule panel's delete button and the page's delete button read the
      same reply the same way: both fail together, and report the same number of
      deleted keys. */
  lemma DeleteButtonsAgree(f: Schedule.ScheduleForm, page: Assets.Page, r: Dispatch.Response<Dispatch.DeleteReply>)
    ensures Schedule.DeleteTriggerOutcome(f, r).Success? <==> Assets.DeleteInvalid(page, r).1.Success?
    ensures Schedule.DeleteTriggerOutcome(f, r).Failure? ==>
      Schedule.DeleteTriggerOutcome(f, r).error == Assets.DeleteInvalid(page, r).1.error
    ensures Schedule.DeleteTriggerOutcome(f, r).Success? ==>
      Schedule.DeleteTriggerOutcome(f, r).value == Assets.DeleteInvalid(page, r).1.value.deleted
  {
  }
}

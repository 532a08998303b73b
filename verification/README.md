# Scanner integration: a Dafny model of its decision logic

The repository connects an API-key gateway to an external key scanner. An
operator uses two admin pages (the key-asset page and the schedule panel, plus
a small delete panel) to configure the scanner connection, pull key lists,
trigger reverification, sync keys into the gateway's own configuration and
delete invalid keys. Behind those pages sit FastAPI routes under
`/api/scanner` and a `ScannerService` client that talks to the scanner.

Underneath the `fetch`/`httpx` calls the code is a layer of small, total
decisions. This project models that layer as pure Dafny functions over
immutable datatypes and proves what those decisions promise:

- which defaults a falsy JSON field or an empty form field gets;
- what each payload contains;
- how a status list survives a `join(",")` on load and a split-trim-filter on save;
- how the probe button and the server's `ping` judge connectivity before auth;
- which keys a sync writes to `API_KEYS` and `PAID_KEY`;
- how routes mask the key, strip the URL, bound numbers and pick effective limits.

Every HTTP exchange becomes a plain input:

- On the page side it is a `Response<T> = Ok(json) | HttpStatus(code, body) | Transport`.
- On the server side it is an `Upstream<T> = Reply(json) | Malformed | StatusError(code, text, reason) | RequestError`, where `Malformed` is a 2xx reply whose body is not JSON.
- The two observations `ping` makes are `HealthObs` and `AuthObs`.

Stored settings are one `Settings` record, and an update returns the record it would store.

Modules, one per file:

| module | file | models |
|---|---|---|
| `Wrappers` | wrappers.dfy | `Option` and `Result` |
| `JsValues` | js_values.dfy | JavaScript `x \|\| d`, `x ?? d` and `!!x` on JSON values |
| `Text` | text.dfy | `trim`/`strip`, ASCII lower-casing, `split`/`join` on one character, `rstrip`, decimal rendering |
| `Display` | display.dfy | status tone, status-pill class, date cell |
| `Dispatch` | dispatch.dfy | how a page reads one reply: error detail, probe decision, delete summary |
| `Assets` | assets.dfy | the key-asset page (`gemini_assets.js`) |
| `Schedule` | schedule.dfy | the schedule panel (`scanner_schedule.js`) |
| `ScannerService` | scanner_service.dfy | `scanner_service.py` |
| `ScannerRoutes` | scanner_routes.dfy | `scanner_routes.py` |
| `EndToEnd` | end_to_end.dfy | page and server together: the load/save round trips, probe vs `ping`, error bodies, reverify filter, run-now reports |

The delete panel (`scanner_delete.js`) repeats the key-asset page's probe,
pill and delete logic line for line. It is therefore modelled by the shared
members of `Display` and `Dispatch`, which the table cites against both files.

Three behaviours of the code are kept as they are:

- A recheck status of "pending" is gray like every unknown status
  (`gemini_assets.js:50,55`).
- `ping` does not catch the 400 that `_auth_headers` raises when no key is
  configured. After a healthy health check, `ping` with an empty key therefore
  fails with that 400 instead of returning a result dictionary
  (`scanner_service.py:108-132`).
- The inline masking in `get_scanner_config` maps a key such as `***abcd` to itself, so the configuration view
  can contain the raw key. `ConfigViewHidesKey` proves that the view depends on
  the key only through its last four characters, and not at all for keys of
  four characters or fewer (`scanner_routes.py:63-73`).

## Model

| member | source | states |
|---|---|---|
| Display.StatusTone | app/static/js/gemini_assets.js:45-56 | amber exactly for "billable", green exactly for "effective"/"valid", yellow exactly for "rate_limited"/"rate-limited", red exactly for "invalid"/"error", each compared after lower-casing; everything else, including an absent or empty status, is gray |
| Display.StatusToneCaseInsensitive | app/static/js/gemini_assets.js:46 | the colour of a status does not depend on its letter case |
| Display.ToneClass | app/static/js/gemini_assets.js:47-55 | every colour's class string ends in the 700-shade text class |
| Display.ToneClassInjective | app/static/js/gemini_assets.js:47-55 | the five colour families emit five different class strings, so a row's colour identifies its family |
| Display.PillClass | app/static/js/gemini_assets.js:30-35 | "success" and "error" get the green and red pill; "info" and every unknown tone get the info pill |
| Display.PillFallbackIsInfo | app/static/js/scanner_delete.js:10-16 | the pill is the info pill exactly when the tone is neither "success" nor "error" |
| Display.FormatDate | app/static/js/gemini_assets.js:38-43 | a falsy value shows "—", an unparseable value is echoed unchanged, a parseable one is shown as the host renders it |
| Display.FormatDateNonEmpty | app/static/js/gemini_assets.js:38-43 | the date cell is never empty when the host never renders a date as "" |
| Dispatch.ErrorDetail | app/static/js/scanner_delete.js:24-27 | the detail of a failed reply is never empty: its body text, or "HTTP " followed by the status in decimal when the body is empty |
| Dispatch.ErrorDetailNamesStatus | app/static/js/gemini_assets.js:206-209 | with an empty body, different statuses give different details |
| Dispatch.Interpret | app/static/js/gemini_assets.js:166-170 | a call succeeds exactly on a 2xx reply and yields its JSON; a non-2xx reply fails with its error detail, a transport failure fails as such |
| Dispatch.Probe | app/static/js/gemini_assets.js:203-229 | a failed request is a probe failure; otherwise no connectivity means unreachable (server message or "无法连接 scanner"), connectivity without auth means rejected (message or "API Key 无效"), and healthy exactly when both flags are true |
| Dispatch.ProbeConnectivityFirst | app/static/js/scanner_delete.js:29-41 | without connectivity the auth flag is ignored, and success requires both flags |
| Dispatch.DeleteLimit | app/static/js/scanner_delete.js:51 | the delete limit is the field's value when it is filled (0 included) and 50 when it is empty |
| Dispatch.DeleteOutcome | app/static/js/scanner_delete.js:50-63 | succeeds exactly on a 2xx reply; reports `deleted`, else 0, and `requested`, else the limit field, else 50; a reported 0 is kept |
| Assets.LoadConfig | app/static/js/gemini_assets.js:101-124 | a failed load changes nothing; a successful one sets URL, timeout (falsy gives 15) and default limit (falsy gives 50) and copies the limit to the fetch field and the session, resets the type to "valid", and never touches the key field, the delete limit or the items |
| Assets.SaveConfigPayload | app/static/js/gemini_assets.js:126-133 | URL and key are sent trimmed; an empty timeout is sent as 15, an empty default limit as the session's default limit |
| Assets.ApplySaveConfig | app/static/js/gemini_assets.js:134-155 | the key field is cleared exactly when the save succeeds; nothing else on the page changes, and a failure carries the error detail |
| Assets.FetchQuery | app/static/js/gemini_assets.js:157-159 | the limit is the field, else the session default when non-zero, else 50; the type is never empty and is the field when filled |
| Assets.ApplyFetch | app/static/js/gemini_assets.js:160-186 | a 2xx reply replaces the items by exactly the returned list (none gives []) and reports its length; a failure leaves the page unchanged; the form and default limit are never touched |
| Assets.FetchForgetsPreviousItems | app/static/js/gemini_assets.js:171 | the items after a fetch do not depend on the items before it (no merge) |
| Assets.ExportKeys | app/static/js/gemini_assets.js:193 | at most one key per item, and no exported key is empty |
| Assets.ExportKeysAppend | app/static/js/gemini_assets.js:193 | exporting keys distributes over concatenation, so item order is kept |
| Assets.ExportKeysMembership | app/static/js/gemini_assets.js:193 | a string is exported exactly when it is the non-empty key of some item |
| Assets.CopyKeys | app/static/js/gemini_assets.js:188-201 | nothing is copied exactly when there are no items; otherwise the copied text joins the exported keys with newlines and the reported count is the number of items, keyless ones included |
| Assets.CopiedTextSplitsIntoKeys | app/static/js/gemini_assets.js:193 | when at least one key is exported and no key holds a newline, the copied text splits back into exactly the exported keys |
| Assets.DeleteInvalid | app/static/js/gemini_assets.js:232-257 | the page, and with it the item list, is unchanged whatever the reply; the summary is `deleted ?? 0` / `requested ?? (field or 50)` |
| Schedule.ParseStatuses | app/static/js/scanner_schedule.js:32-35 | every parsed status is non-empty, comma-free and without surrounding whitespace |
| Schedule.TrimNonEmpty | app/static/js/scanner_schedule.js:34-35 | trimming the comma-free pieces and dropping the empty ones gives a well-formed status list no longer than the pieces |
| Schedule.Kept | app/static/js/scanner_schedule.js:34-35 | one piece contributes at most one entry, and contributes exactly its trim when that is non-empty |
| Schedule.TrimNonEmptyAppend | app/static/js/scanner_schedule.js:34-35 | trim-and-filter distributes over concatenation of the pieces, so it keeps their order and treats each piece on its own |
| Schedule.TrimNonEmptyMembership | app/static/js/scanner_schedule.js:34-35 | an entry survives exactly when it is the non-empty trim of some piece |
| Schedule.ParseStatusesMembership | app/static/js/scanner_schedule.js:32-35 | a status is parsed from the field exactly when it is the non-empty trim of one of the field's comma-separated pieces |
| Schedule.ParseStatusesOne | app/static/js/scanner_schedule.js:32-35 | a field without a comma parses as its trim, or as nothing when it is blank |
| Schedule.ParseStatusesComma | app/static/js/scanner_schedule.js:32-35 | the statuses of `a,b` (with `a` comma-free) are those of `a` followed by those of `b`; with ParseStatusesOne this fixes the parse of every field |
| Schedule.ParseStatusesSpacedPair | app/static/js/scanner_schedule.js:32-35 | two well-formed statuses typed as "a, b" parse as `[a, b]` |
| Schedule.TrimNonEmptyKeeps | app/static/js/scanner_schedule.js:34-35 | trim-and-filter leaves an already well-formed list unchanged |
| Schedule.StatusesRoundTrip | app/static/js/scanner_schedule.js:12-35 | parsing the comma-join of a well-formed list gives the list back |
| Schedule.ParseStatusesStable | app/static/js/scanner_schedule.js:64-67 | re-joining and re-parsing a parsed list is stable |
| Schedule.LoadSchedule | app/static/js/scanner_schedule.js:4-25 | a failed load leaves the form alone; a successful one coerces the flags with `!!` and gives falsy fields the defaults "02:30", 50, "03:00", 100, "valid", "04:00", 50; the statuses are shown comma-joined; times and type are never empty |
| Schedule.SaveSchedulePayload | app/static/js/scanner_schedule.js:27-43 | all eleven fields are sent: times trimmed, empty counts as 50/100/50, an empty type as "valid", and the parsed status list even when it is empty |
| Schedule.SaveOfFilledForm | app/static/js/scanner_schedule.js:27-43 | a form whose times carry no surrounding whitespace, whose counts and type are filled and whose status field joins a well-formed list is saved with exactly its own values and that list |
| Schedule.LoadThenSave | app/static/js/scanner_schedule.js:9-43 | loading a document with trimmed times and a well-formed status list and saving it sends the document back with only its falsy fields defaulted |
| Schedule.ReverifyTrigger | app/static/js/scanner_schedule.js:61-69 | the count is the field or 50; `statuses` is sent exactly when the parsed list is non-empty, and then equals it |
| Schedule.ReverifyOutcome | app/static/js/scanner_schedule.js:76-81 | succeeds exactly on 2xx; reports `checked`, else the count sent |
| Schedule.SyncTrigger | app/static/js/scanner_schedule.js:88-90 | the limit is the field or 100; the type is never empty and is the field when filled |
| Schedule.SyncOutcome | app/static/js/scanner_schedule.js:96-102 | succeeds exactly on 2xx; reports `synced`, else `total`, else 0 |
| Schedule.DeleteTriggerOutcome | app/static/js/scanner_schedule.js:109-120 | succeeds exactly on 2xx; reports `deleted`, else 0 |
| Schedule.TriggersMatchSavedSchedule | app/static/js/scanner_schedule.js:61-110 | the run-now buttons send the same count, status list, limit and type that a save would store |
| ScannerService.NewService | app/service/scanner/scanner_service.py:14-17 | a missing URL or key becomes ""; the stored URL is the input with its trailing "/" run removed: a prefix, the removed part all "/", and not ending in "/" |
| ScannerService.AuthHeader | app/service/scanner/scanner_service.py:19-22 | fails with 400 exactly when the key is empty; otherwise the header is "Bearer " and the key |
| ScannerService.AuthHeaderInjective | app/service/scanner/scanner_service.py:22 | equal headers mean equal keys |
| ScannerService.Call | app/service/scanner/scanner_service.py:28-44 | an empty key fails with 400 before anything else; otherwise a 2xx reply yields its JSON, a 2xx reply that is not JSON escapes every handler and ends in the framework's 500 "Internal Server Error", a non-2xx reply keeps its status with the body text or else the reason phrase, a transport error becomes 502 |
| ScannerService.ReverifyUpstreamBody | app/service/scanner/scanner_service.py:46-50 | always carries the count; `filter_by_status` is present exactly when the list is non-empty, and is then its comma-join |
| ScannerService.FilterByStatusLossless | app/service/scanner/scanner_service.py:49-50 | a comma-free status list splits back out of `filter_by_status` unchanged |
| ScannerService.Ping | app/service/scanner/scanner_service.py:84-132 | connectivity exactly when the health check returned 200; auth exactly when additionally the probe returned 2xx, so auth implies connectivity; error type connectivity exactly on an unhealthy check or a probe transport failure, auth exactly on 401/403, scanner_error exactly on any other non-2xx probe status, with the body or else the reason as message; the message is "scanner 启动或响应异常" for an unhealthy status, "无法连接 scanner 服务" for the other connectivity errors and "scanner API Key 无效" for auth errors; no error and no message exactly when auth; a 400 exactly when healthy with an empty key |
| ScannerService.PingSkipsProbeWhenUnhealthy | app/service/scanner/scanner_service.py:93-106 | when the health check fails the probe's outcome is irrelevant and connectivity is false |
| ScannerService.SyncedKeys | app/service/scanner/scanner_service.py:137 | no more keys than items, each without surrounding whitespace |
| ScannerService.SyncedKeysAppend | app/service/scanner/scanner_service.py:137 | the keys of two concatenated item lists are the keys of the first followed by the keys of the second, so item order is kept |
| ScannerService.SyncedKeysMembership | app/service/scanner/scanner_service.py:137-140 | every keyed item contributes its stripped key; there are no keys exactly when no item has a non-empty key |
| ScannerService.SyncedKeysFromItems | app/service/scanner/scanner_service.py:137 | every synced key is the stripped key of some keyed item |
| ScannerService.PaidCandidate | app/service/scanner/scanner_service.py:147-154 | a paid candidate has no surrounding whitespace and exists only when some item is a billable keyed item |
| ScannerService.PaidCandidateIsFirst | app/service/scanner/scanner_service.py:147-154 | the paid candidate is absent exactly when no keyed item is billable (any case), and otherwise is the stripped key of the first such item |
| ScannerService.ApplySyncedKeys | app/service/scanner/scanner_service.py:135-162 | no keys: synced 0, nothing applied; with keys: always applied with synced = number of keys; a "paid" sync writes only PAID_KEY = the first key; any other writes API_KEYS = all keys in order, plus PAID_KEY = the paid candidate exactly when it is non-empty |
| ScannerService.PaidKeyIsSynced | app/service/scanner/scanner_service.py:143-156 | the PAID_KEY a sync writes is always one of the synced keys |
| ScannerService.SyncKeysFromScanner | app/service/scanner/scanner_service.py:165-175 | fails exactly when the listing call fails, with its error; otherwise applies the keys of `items or []`, reports `total` or else the number of items, and echoes the type |
| ScannerRoutes.Bounded | app/router/scanner_routes.py:26-27 | a given number is accepted exactly within its inclusive bounds and kept; an absent one takes the default; rejection is a 422 |
| ScannerRoutes.ValidateConfig | app/router/scanner_routes.py:23-27 | accepted exactly when URL and key are present and timeout (default 15) lies in 1..120 and default limit (default 50) in 1..1000 |
| ScannerRoutes.MaskKey | app/router/scanner_routes.py:63-67 | a key longer than four characters masks to "***" and its last four characters; a shorter or empty key masks to "" |
| ScannerRoutes.GetConfig | app/router/scanner_routes.py:68-73 | the view carries URL, timeout and default limit as stored and the key only masked |
| ScannerRoutes.ConfigViewHidesKey | app/router/scanner_routes.py:63-73 | two keys with the same last four characters (or both short) give identical views |
| ScannerRoutes.UpdateConfig | app/router/scanner_routes.py:82-89 | stores the URL with every trailing "/" removed (a prefix not ending in "/"), key, timeout and limit as given; the schedule is untouched |
| ScannerRoutes.UpdateConfigIdempotent | app/router/scanner_routes.py:84 | saving the stored configuration again changes nothing |
| ScannerRoutes.ValidateSchedule | app/router/scanner_routes.py:38-49 | accepted exactly when the three counts lie in 1..1000 and the type is "valid" or "paid"; omitted fields take "03:00", 100, "valid", "02:30", 50, "04:00", 50 and false flags |
| ScannerRoutes.UpdateSchedule | app/router/scanner_routes.py:135-149 | stores every field as given, an absent or empty status list as [] and a non-empty one unchanged; the connection is untouched |
| ScannerRoutes.KeyAssetsQuery | app/router/scanner_routes.py:162-174 | accepted exactly for a limit in 1..1000 (or none) and a valid type (or none); the limit falls back to the configured default limit, the type to "valid" |
| ScannerRoutes.ReverifyRoute | app/router/scanner_routes.py:177-189 | accepted exactly for a count in 1..1000 (or none, giving 50); the scanner gets that count and the statuses as its reverify body |
| ScannerRoutes.SyncNowQuery | app/router/scanner_routes.py:192-203 | accepted exactly for a limit in 1..1000 and a valid type (each optional); they fall back to the configured sync limit and sync type |
| ScannerRoutes.SyncNow | app/router/scanner_routes.py:192-206 | a rejected query is a 422; otherwise the route is the sync with the effective type, which the report echoes |
| ScannerRoutes.DeleteInvalidQuery | app/router/scanner_routes.py:209-219 | accepted exactly for a limit in 1..1000 (or none); it falls back to the configured delete limit |
| EndToEnd.ScheduleRoundTrip | app/router/scanner_routes.py:109-149 | loading stored settings (trimmed times, bounded counts, valid type, well-formed statuses) into the panel and saving them unedited is accepted and stores exactly the same settings |
| EndToEnd.LoadSaveReproduces | app/static/js/scanner_schedule.js:4-43 | for such settings the panel's save payload is the stored settings field for field |
| EndToEnd.ServerStoresUnedited | app/router/scanner_routes.py:129-149 | the server accepts that payload and stores exactly the settings it came from |
| EndToEnd.EmptyFieldsSaveServerDefaults | app/static/js/scanner_schedule.js:38-42 | the panel's fallbacks for empty count and type fields are the server's own defaults, and that payload is accepted |
| EndToEnd.ConfigRoundTrip | app/static/js/gemini_assets.js:101-133 | loading a well-formed stored configuration and saving it is accepted and stores the same connection, with the key replaced by the trimmed key field, so an untouched (empty) field stores an empty key |
| EndToEnd.ProbeAgreesWithPing | app/static/js/scanner_delete.js:21-48 | the probe button is healthy exactly when `ping` found auth, unreachable exactly when the health check failed, rejected exactly when healthy without auth |
| EndToEnd.ReverifyFilterReachesScanner | app/service/scanner/scanner_service.py:46-50 | the statuses typed into the panel reach the scanner exactly when the parsed list is non-empty, and the filter splits back into that list |
| EndToEnd.SyncButtonReportsSyncedKeys | app/static/js/scanner_schedule.js:100-102 | after a successful server sync the button reports the number of keys synced |
| EndToEnd.FetchAfterLoadReachesRoute | app/static/js/gemini_assets.js:157-164 | after a config load, the fetch button sends the loaded default limit and "valid", and the key-asset route accepts them unchanged when the limit is in bounds |
| EndToEnd.ServerErrorReachesPage | app/static/js/gemini_assets.js:166-170 | a raised `HTTPException` reaches the page as a failure whose detail is the `{"detail": …}` body, which holds the server's message and is never the bare "HTTP <status>" fallback; an escaped exception reaches it as its bare response text |
| EndToEnd.UpstreamErrorReachesPage | app/service/scanner/scanner_service.py:38-41 | with a key configured, a scanner status error keeps its code, and the page reports the route's JSON body holding the scanner's body text, or else its reason phrase |
| EndToEnd.MalformedReplyReachesPage | app/service/scanner/scanner_service.py:35 | a 2xx scanner reply the service cannot decode reaches the page as "Internal Server Error" |
| EndToEnd.DeleteSummaryNamesRouteLimit | app/static/js/scanner_delete.js:51-62 | with an in-bounds limit field the delete route accepts it, and when the reply omits `requested` the summary names exactly the limit the route deleted with |
| EndToEnd.ReverifyReportNamesForwardedCount | app/static/js/scanner_schedule.js:61-81 | the reverify route accepts the button's body, and when the reply omits `checked` the report names exactly the count the route forwarded |
| EndToEnd.DeleteButtonsAgree | app/static/js/scanner_schedule.js:109-120 | the schedule panel's delete button and the key-asset page's succeed and fail together, with the same error and the same deleted count |
| EndToEnd.RunNowUsesPanelValues | app/static/js/scanner_schedule.js:88-112 | the sync and delete buttons always send a limit, so with in-bounds fields the routes act on exactly the limit and type a save would store, never on the configured fallbacks |
| Text.Trim | app/static/js/gemini_assets.js:129-130 | the result has no surrounding whitespace, holds only characters of the input and is no longer than it; a trimmed string is left alone |
| Text.TrimIsWindow | app/static/js/gemini_assets.js:129-130 | the trim is a contiguous window of the input with only whitespace before and after it, so every inner character is kept |
| Text.TrimLeadingSpace | app/static/js/scanner_schedule.js:34 | a leading whitespace character does not change the trim |
| Text.Lower | app/static/js/gemini_assets.js:46 | lower-casing keeps the length and lower-cases each character in place |
| Text.Split | app/static/js/scanner_schedule.js:33 | a split gives at least one piece, and no piece holds the separator |
| Text.Join | app/static/js/scanner_schedule.js:12 | a join starts with the first part, and holds the separator when there are two parts or more |
| Text.SplitJoin | app/service/scanner/scanner_service.py:50 | splitting the join of separator-free parts gives the parts back |
| Text.JoinSplit | app/static/js/scanner_schedule.js:33 | joining the pieces of a split gives the string back |
| Text.StripTrailing | app/router/scanner_routes.py:84 | removes every trailing occurrence of the character and nothing else: a prefix, the removed part all that character, not ending in it |
| Text.StripTrailingIdempotent | app/service/scanner/scanner_service.py:15 | stripping twice is stripping once |
| JsValues.OrInt | app/static/js/scanner_schedule.js:11 | `x \|\| d` on a number: a non-zero value is kept; an absent value or 0 gives the default |
| JsValues.OrText | app/static/js/scanner_schedule.js:10 | `x \|\| d` on a string: a non-empty value is kept; an absent or empty one gives the default |
| JsValues.Truthy | app/static/js/scanner_schedule.js:9 | `!!x` on a JSON flag: true only for a present `true`; absent, null and `false` read as false |
| Text.Decimal | app/static/js/scanner_delete.js:26 | the rendering is a non-empty string of digits without a leading zero (except "0" itself) |
| Text.DecimalRoundTrip | app/static/js/scanner_delete.js:26 | the decimal rendering of a status reads back as that status |

## Left out

- I/O and sequencing are not modelled: `fetch` and `httpx` transport, `async`/`await`, and the button-disable `finally` blocks. Each call is one function over the reply it got.
- The DOM is not modelled. That covers element lookup and the `if (selectors.x)` presence guards (all fields are assumed present), `renderRows`' HTML, the clipboard write, `showNotification` and `console`/`logger` output. The model keeps only the values these would show.
- Display.FormatDate: real date parsing and `toLocaleString()` depend on the host and locale. They are an input (`rendered`, `None` when the date is invalid).
- `Number()` on non-numeric text (NaN) is not modelled. A numeric form field is an `Option<int>`, `None` while empty. A JSON number is an `Option<int>`, and `|| d` treats both `None` and 0 as falsy.
- JSON `null` and an absent field are both `None`. Python's `response.get("total", len(items))` keeps an explicit `null` where the model falls back to the item count.
- Cookie authentication and the 302 redirect of every route are not modelled, and neither is the 500 wrapping of a failing config write.
- `ConfigService.update_config`, `reload_scanner_jobs` and the `settings` globals are replaced by the `Settings` record that a route reads and returns.
- Pydantic's machinery is not modelled. The model keeps defaults, inclusive bounds, required fields and the `^(valid|paid)$` pattern, read as an exact match. Type coercion (e.g. "5" to 5, a string flag) and the detailed 422 body are left out.
- Text.Trim: whitespace is ASCII only. It removes the six characters space, tab, `\n`, `\r`, `\v` and `\f`. JavaScript's `trim()` also removes Unicode spaces. Python's `str.strip()` (`scanner_service.py:137,149`) also removes `\x1c`–`\x1f` and Unicode spaces, so a scanner key such as `"abc\x1f"` is synced by the source as `"abc"` but kept whole by the model.
- Text.Lower: only A-Z are folded. JavaScript and Python also fold non-ASCII letters.
- The JavaScript `toneMap[tone]` lookup also finds prototype keys such as "toString". Display.PillClass treats every name other than the three tones as unknown.
- Messages are not modelled except for the fixed fallback strings of the probe (`Dispatch.UnreachableMessage`, `Dispatch.RejectedMessage`) and the service (`MissingKeyDetail`, `UnreachableDetail`, and the three `ping` messages, each tied to its error type in `ScannerService.Ping`). The other Chinese notification texts and the "已删除 x / y" formatting are left out. The summaries are modelled as the numbers they show.
- `delete_invalid`'s upstream body (`{"count": limit}`) and `fetch_key_assets`' query are not modelled as records. The error translation these calls share is `ScannerService.Call`.
- ScannerService.Ping: `_build_client`'s timeout is not modelled. A time-out is one of the transport failures in `HealthObs`/`AuthObs`.
- ScannerService.Call: an undecodable 2xx body is modelled as the framework's default 500 response (`HttpError.Escaped`, sent as plain text). Exception handlers the application may install are not part of this model.
- EndToEnd.ErrorBody: ErrorJson writes the `{"detail": …}` body without JSON escaping, so a detail holding `"` or `\` is not rendered as FastAPI would render it.

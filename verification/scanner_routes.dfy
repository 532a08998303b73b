/** The server routes under `/api/scanner`: the validation of their payloads and
    query parameters (defaults, numeric bounds, the `valid|paid` type pattern),
    the masked configuration view, the settings each update writes, and the
    effective limit and type of the run-now routes. The stored settings are
    one record; an update returns the record it stores. */
module ScannerRoutes {
  import opened Wrappers
  import Text
  import opened ScannerService

  /** The connection part of the stored settings. */
  datatype Connection = Connection(baseUrl: string, apiKey: string, timeout: int, defaultLimit: int)

  /** The schedule part of the stored settings. */
  datatype ScheduleSettings = ScheduleSettings(
    syncEnabled: bool, syncTime: string, syncLimit: int, syncType: string,
    reverifyEnabled: bool, reverifyTime: string, reverifyCount: int, reverifyStatuses: seq<string>,
    deleteEnabled: bool, deleteTime: string, deleteLimit: int)

  datatype Settings = Settings(connection: Connection, schedule: ScheduleSettings)

  /** The status FastAPI answers a payload or query that fails validation with. */
  const ValidationStatus: int := 422

  function Invalid<T>(field: string): Result<T, HttpError> {
    Failure(HttpError(ValidationStatus, field))
  }

  /** An optional integer with a default and inclusive bounds (`Field(default=d,
      ge=lo, le=hi)`): a given value outside the bounds is rejected; an absent
      one takes the default, which is not itself checked. */
  function Bounded(field: Option<int>, default: int, lo: int, hi: int, name: string): (r: Result<int, HttpError>)
    ensures r.Success? <==> field == None || lo <= field.value <= hi
    ensures r.Success? ==> r.value == field.GetOr(default)
    ensures r.Failure? ==> r.error.status == ValidationStatus
  {
    match field
    case None => Success(default)
    case Some(n) => if lo <= n <= hi then Success(n) else Invalid(name)
  }

  /** `pattern="^(valid|paid)$"`: the whole string is one of the two types. */
  predicate ValidKeyType(t: string) {
    t == "valid" || t == "paid"
  }

  // ---------------------------------------------------------------------------
  // Configuration

  /** `***` followed by the last four characters of a key longer than four
      characters; the empty string for a shorter or empty key. */
  function MaskKey(key: string): (m: string)
    ensures |key| > 4 ==> |m| == 7 && m[..3] == "***" && m[3..] == key[|key| - 4..]
    ensures |key| <= 4 ==> m == ""
  {
    if key != "" && |key| > 4 then "***" + key[|key| - 4..] else ""
  }

  /** The JSON of `GET /api/scanner/config`: no raw key, only its mask. */
  datatype ConfigView = ConfigView(baseUrl: string, apiKeyMasked: string, timeout: int, defaultLimit: int)

  function GetConfig(s: Settings): (v: ConfigView)
    ensures v.baseUrl == s.connection.baseUrl && v.timeout == s.connection.timeout
    ensures v.defaultLimit == s.connection.defaultLimit
    ensures v.apiKeyMasked == MaskKey(s.connection.apiKey)
  {
    ConfigView(s.connection.baseUrl, MaskKey(s.connection.apiKey), s.connection.timeout, s.connection.defaultLimit)
  }

  /** The configuration view reveals at most the last four characters of the
      key: two settings that differ only in keys agreeing on those characters
      (or both short) give the same view. */
  lemma ConfigViewHidesKey(s: Settings, k1: string, k2: string)
    requires (|k1| > 4 && |k2| > 4 && k1[|k1| - 4..] == k2[|k2| - 4..]) || (|k1| <= 4 && |k2| <= 4)
    ensures GetConfig(s.(connection := s.connection.(apiKey := k1))) ==
            GetConfig(s.(connection := s.connection.(apiKey := k2)))
  {
    var m1 := MaskKey(k1);
    var m2 := MaskKey(k2);
    if |k1| > 4 {
      assert m1 == m1[..3] + m1[3..];
      assert m2 == m2[..3] + m2[3..];
    }
  }

  /** The body of `PUT /api/scanner/config` before validation. */
  datatype ConfigPayloadIn = ConfigPayloadIn(baseUrl: Option<string>, apiKey: Option<string>, timeout: Option<int>, defaultLimit: Option<int>)

  /** A validated `ScannerConfigPayload`. */
  datatype ConfigPayload = ConfigPayload(baseUrl: string, apiKey: string, timeout: int, defaultLimit: int)

  /** `ScannerConfigPayload`: URL and key required, timeout 15 by default and
      within 1..120, default limit 50 by default and within 1..1000. */
  function ValidateConfig(p: ConfigPayloadIn): (r: Result<ConfigPayload, HttpError>)
    ensures r.Success? <==> && p.baseUrl.Some? && p.apiKey.Some?
                            && (p.timeout == None || 1 <= p.timeout.value <= 120)
                            && (p.defaultLimit == None || 1 <= p.defaultLimit.value <= 1000)
    ensures r.Success? ==> && r.value.baseUrl == p.baseUrl.value && r.value.apiKey == p.apiKey.value
                           && r.value.timeout == p.timeout.GetOr(15) && 1 <= r.value.timeout <= 120
                           && r.value.defaultLimit == p.defaultLimit.GetOr(50)
                           && 1 <= r.value.defaultLimit <= 1000
    ensures r.Failure? ==> r.error.status == ValidationStatus
  {
    if p.baseUrl == None then Invalid("base_url")
    else if p.apiKey == None then Invalid("api_key")
    else
      match Bounded(p.timeout, 15, 1, 120, "timeout")
      case Failure(e) => Failure(e)
      case Success(timeout) =>
        match Bounded(p.defaultLimit, 50, 1, 1000, "default_limit")
        case Failure(e) => Failure(e)
        case Success(limit) => Success(ConfigPayload(p.baseUrl.value, p.apiKey.value, timeout, limit))
  }

  /** `update_scanner_config`: stores the payload with every trailing "/" of the
      URL removed; the schedule settings are untouched. */
  function UpdateConfig(s: Settings, p: ConfigPayload): (s': Settings)
    ensures s'.schedule == s.schedule
    ensures s'.connection.baseUrl == Text.StripTrailing(p.baseUrl, '/')
    ensures |s'.connection.baseUrl| <= |p.baseUrl| && s'.connection.baseUrl == p.baseUrl[..|s'.connection.baseUrl|]
    ensures |s'.connection.baseUrl| > 0 ==> s'.connection.baseUrl[|s'.connection.baseUrl| - 1] != '/'
    ensures s'.connection.apiKey == p.apiKey && s'.connection.timeout == p.timeout
    ensures s'.connection.defaultLimit == p.defaultLimit
  {
    s.(connection := Connection(Text.StripTrailing(p.baseUrl, '/'), p.apiKey, p.timeout, p.defaultLimit))
  }

  /** Saving the same configuration twice stores the same settings: stripping
      the URL is idempotent. */
  lemma UpdateConfigIdempotent(s: Settings, p: ConfigPayload)
    ensures UpdateConfig(UpdateConfig(s, p), p.(baseUrl := UpdateConfig(s, p).connection.baseUrl)) == UpdateConfig(s, p)
  {
    Text.StripTrailingIdempotent(p.baseUrl, '/');
  }

  // ---------------------------------------------------------------------------
  // Schedule

  /** The body of `PUT /api/scanner/schedule` before validation. */
  datatype SchedulePayloadIn = SchedulePayloadIn(
    syncEnabled: Option<bool>, syncTime: Option<string>, syncLimit: Option<int>, syncType: Option<string>,
    reverifyEnabled: Option<bool>, reverifyTime: Option<string>, reverifyCount: Option<int>,
    reverifyStatuses: Option<seq<string>>,
    deleteEnabled: Option<bool>, deleteTime: Option<string>, deleteLimit: Option<int>)

  /** A validated `ScannerSchedulePayload`. */
  datatype SchedulePayload = SchedulePayload(
    syncEnabled: bool, syncTime: string, syncLimit: int, syncType: string,
    reverifyEnabled: bool, reverifyTime: string, reverifyCount: int, reverifyStatuses: Option<seq<string>>,
    deleteEnabled: bool, deleteTime: string, deleteLimit: int)

  const ServerDefaultSyncTime: string := "03:00"
  const ServerDefaultSyncLimit: int := 100
  const ServerDefaultSyncType: string := "valid"
  const ServerDefaultReverifyTime: string := "02:30"
  const ServerDefaultReverifyCount: int := 50
  const ServerDefaultDeleteTime: string := "04:00"
  const ServerDefaultDeleteLimit: int := 50

  /** `ScannerSchedulePayload`: flags false by default; times "03:00", "02:30",
      "04:00"; sync limit 100, reverify count 50, delete limit 50, each within
      1..1000; sync type "valid" and otherwise exactly "valid" or "paid". */
  function ValidateSchedule(p: SchedulePayloadIn): (r: Result<SchedulePayload, HttpError>)
    ensures r.Success? <==>
      && (p.syncLimit == None || 1 <= p.syncLimit.value <= 1000)
      && (p.syncType == None || ValidKeyType(p.syncType.value))
      && (p.reverifyCount == None || 1 <= p.reverifyCount.value <= 1000)
      && (p.deleteLimit == None || 1 <= p.deleteLimit.value <= 1000)
    ensures r.Success? ==> var v := r.value;
      && v.syncEnabled == p.syncEnabled.GetOr(false)
      && v.reverifyEnabled == p.reverifyEnabled.GetOr(false)
      && v.deleteEnabled == p.deleteEnabled.GetOr(false)
      && v.syncTime == p.syncTime.GetOr(ServerDefaultSyncTime)
      && v.reverifyTime == p.reverifyTime.GetOr(ServerDefaultReverifyTime)
      && v.deleteTime == p.deleteTime.GetOr(ServerDefaultDeleteTime)
      && v.syncLimit == p.syncLimit.GetOr(ServerDefaultSyncLimit) && 1 <= v.syncLimit <= 1000
      && v.reverifyCount == p.reverifyCount.GetOr(ServerDefaultReverifyCount) && 1 <= v.reverifyCount <= 1000
      && v.deleteLimit == p.deleteLimit.GetOr(ServerDefaultDeleteLimit) && 1 <= v.deleteLimit <= 1000
      && v.syncType == p.syncType.GetOr(ServerDefaultSyncType) && ValidKeyType(v.syncType)
      && v.reverifyStatuses == p.reverifyStatuses
    ensures r.Failure? ==> r.error.status == ValidationStatus
  {
    match Bounded(p.syncLimit, ServerDefaultSyncLimit, 1, 1000, "sync_limit")
    case Failure(e) => Failure(e)
    case Success(syncLimit) =>
      if p.syncType.Some? && !ValidKeyType(p.syncType.value) then Invalid("sync_type")
      else
        match Bounded(p.reverifyCount, ServerDefaultReverifyCount, 1, 1000, "reverify_count")
        case Failure(e) => Failure(e)
        case Success(reverifyCount) =>
          match Bounded(p.deleteLimit, ServerDefaultDeleteLimit, 1, 1000, "delete_limit")
          case Failure(e) => Failure(e)
          case Success(deleteLimit) =>
            Success(SchedulePayload(
              p.syncEnabled.GetOr(false), p.syncTime.GetOr(ServerDefaultSyncTime), syncLimit,
              p.syncType.GetOr(ServerDefaultSyncType),
              p.reverifyEnabled.GetOr(false), p.reverifyTime.GetOr(ServerDefaultReverifyTime), reverifyCount,
              p.reverifyStatuses,
              p.deleteEnabled.GetOr(false), p.deleteTime.GetOr(ServerDefaultDeleteTime), deleteLimit))
  }

  /** `update_schedule_config`: stores every schedule field as given, with an
      absent or empty status list stored as `[]` and a non-empty one unchanged;
      the connection settings are untouched. */
  function UpdateSchedule(s: Settings, p: SchedulePayload): (s': Settings)
    ensures s'.connection == s.connection
    ensures p.reverifyStatuses.Some? && p.reverifyStatuses.value != [] ==>
      s'.schedule.reverifyStatuses == p.reverifyStatuses.value
    ensures p.reverifyStatuses == None || p.reverifyStatuses == Some([]) ==> s'.schedule.reverifyStatuses == []
    ensures var t := s'.schedule;
      && t.syncEnabled == p.syncEnabled && t.syncTime == p.syncTime && t.syncLimit == p.syncLimit
      && t.syncType == p.syncType && t.reverifyEnabled == p.reverifyEnabled
      && t.reverifyTime == p.reverifyTime && t.reverifyCount == p.reverifyCount
      && t.deleteEnabled == p.deleteEnabled && t.deleteTime == p.deleteTime && t.deleteLimit == p.deleteLimit
  {
    var statuses := if p.reverifyStatuses.Some? && p.reverifyStatuses.value != [] then p.reverifyStatuses.value else [];
    s.(schedule := ScheduleSettings(
      p.syncEnabled, p.syncTime, p.syncLimit, p.syncType,
      p.reverifyEnabled, p.reverifyTime, p.reverifyCount, statuses,
      p.deleteEnabled, p.deleteTime, p.deleteLimit))
  }

  // ---------------------------------------------------------------------------
  // Run-now routes

  /** `GET /api/scanner/key-assets`: a given limit must lie in 1..1000 and a
      given type must be `valid` or `paid`; the effective limit is the given one,
      else the configured default limit, and the type defaults to "valid". */
  function KeyAssetsQuery(s: Settings, limit: Option<int>, keyType: Option<string>): (r: Result<(int, string), HttpError>)
    ensures r.Success? <==> (limit == None || 1 <= limit.value <= 1000) && (keyType == None || ValidKeyType(keyType.value))
    ensures r.Success? ==> r.value.0 == limit.GetOr(s.connection.defaultLimit)
    ensures r.Success? ==> r.value.1 == keyType.GetOr("valid") && ValidKeyType(r.value.1)
  {
    if limit.Some? && !(1 <= limit.value <= 1000) then Invalid("limit")
    else if keyType.Some? && !ValidKeyType(keyType.value) then Invalid("key_type")
    else Success((limit.GetOr(s.connection.defaultLimit), keyType.GetOr("valid")))
  }

  /** The body of `POST /api/scanner/reverify` before validation. */
  datatype ReverifyPayloadIn = ReverifyPayloadIn(count: Option<int>, statuses: Option<seq<string>>)

  /** `POST /api/scanner/reverify`: the count (50 by default, within 1..1000) and
      the statuses go to the scanner as its reverify body. */
  function ReverifyRoute(p: ReverifyPayloadIn): (r: Result<ReverifyBody, HttpError>)
    ensures r.Success? <==> p.count == None || 1 <= p.count.value <= 1000
    ensures r.Success? ==> r.value == ReverifyUpstreamBody(p.count.GetOr(50), p.statuses)
    ensures r.Success? ==> 1 <= r.value.count <= 1000
  {
    match Bounded(p.count, 50, 1, 1000, "count")
    case Failure(e) => Failure(e)
    case Success(count) => Success(ReverifyUpstreamBody(count, p.statuses))
  }

  /** `POST /api/scanner/sync-now`: the effective limit is the given one, else
      the configured sync limit; the effective type is the given one (which must
      be `valid` or `paid`), else the configured sync type. */
  function SyncNowQuery(s: Settings, limit: Option<int>, keyType: Option<string>): (r: Result<(int, string), HttpError>)
    ensures r.Success? <==> (limit == None || 1 <= limit.value <= 1000) && (keyType == None || ValidKeyType(keyType.value))
    ensures r.Success? ==> r.value.0 == limit.GetOr(s.schedule.syncLimit)
    ensures r.Success? ==> r.value.1 == keyType.GetOr(s.schedule.syncType)
  {
    if limit.Some? && !(1 <= limit.value <= 1000) then Invalid("limit")
    else if keyType.Some? && !ValidKeyType(keyType.value) then Invalid("key_type")
    else Success((limit.GetOr(s.schedule.syncLimit), keyType.GetOr(s.schedule.syncType)))
  }

  /** The whole sync-now route: validation, then `sync_keys_from_scanner` with the
      effective type over what the listing returned. */
  function SyncNow(s: Settings, svc: Service, limit: Option<int>, keyType: Option<string>, listing: Upstream<AssetsReply>): (r: Result<SyncReport, HttpError>)
    ensures SyncNowQuery(s, limit, keyType).Failure? ==> r.Failure? && r.error.status == ValidationStatus
    ensures r.Success? ==> r.value.keyType == keyType.GetOr(s.schedule.syncType)
    ensures SyncNowQuery(s, limit, keyType).Success? ==> r == SyncKeysFromScanner(svc, keyType.GetOr(s.schedule.syncType), listing)
  {
    match SyncNowQuery(s, limit, keyType)
    case Failure(e) => Failure(e)
    case Success(q) => SyncKeysFromScanner(svc, q.1, listing)
  }

  /** `POST /api/scanner/delete-invalid`: the effective limit is the given one
      (within 1..1000), else the configured delete limit. */
  function DeleteInvalidQuery(s: Settings, limit: Option<int>): (r: Result<int, HttpError>)
    ensures r.Success? <==> limit == None || 1 <= limit.value <= 1000
    ensures r.Success? ==> r.value == limit.GetOr(s.schedule.deleteLimit)
  {
    Bounded(limit, s.schedule.deleteLimit, 1, 1000, "limit")
  }
}

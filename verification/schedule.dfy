/** The schedule panel: the three recurring jobs (reverify, sync, delete) shown
    as one form, loaded from and saved to one schedule document, and the three
    "run now" buttons. */
module Schedule {
  import opened Wrappers
  import opened JsValues
  import opened Dispatch
  import Text

  // ---------------------------------------------------------------------------
  // The status list field

  /** One entry of a parsed status list: non-empty, without a comma and without
      surrounding whitespace. */
  predicate StatusItem(s: string) {
    s != "" && ',' !in s && Text.NoSurroundingSpace(s)
  }

  predicate StatusList(xs: seq<string>) {
    forall i :: 0 <= i < |xs| ==> StatusItem(xs[i])
  }

  /** Pieces of a comma split: none holds a comma. */
  predicate CommaFree(pieces: seq<string>) {
    forall k :: 0 <= k < |pieces| ==> ',' !in pieces[k]
  }

  /** `x` is the trim of one of the pieces. */
  predicate TrimOfPiece(pieces: seq<string>, x: string) {
    exists k :: 0 <= k < |pieces| && x == Text.Trim(pieces[k])
  }

  /** Trims every piece and drops the pieces left empty, keeping the order. */
  function TrimNonEmpty(pieces: seq<string>): (r: seq<string>)
    requires CommaFree(pieces)
    ensures StatusList(r)
    ensures |r| <= |pieces|
  {
    if |pieces| == 0 then [] else Kept(pieces[0]) + TrimNonEmpty(pieces[1..])
  }

  /** What one piece contributes: its trim, unless that is empty. */
  function Kept(piece: string): (r: seq<string>)
    ensures |r| <= 1
    ensures forall x :: x in r <==> x != "" && x == Text.Trim(piece)
  {
    var t := Text.Trim(piece);
    if t == "" then [] else [t]
  }

  lemma TrimNonEmptyHead(pieces: seq<string>)
    requires CommaFree(pieces) && |pieces| > 0
    ensures TrimNonEmpty(pieces) == Kept(pieces[0]) + TrimNonEmpty(pieces[1..])
  {
  }

  /** `value.split(",").map(s => s.trim()).filter(Boolean)`: the comma-separated
      statuses of the field; no entry is empty or holds a comma. */
  function ParseStatuses(field: string): (r: seq<string>)
    ensures StatusList(r)
  {
    TrimNonEmpty(Text.Split(field, ','))
  }

  /** A list of well-formed entries passes through trim-and-filter unchanged. */
  lemma {:induction false} TrimNonEmptyKeeps(xs: seq<string>)
    requires StatusList(xs)
    ensures TrimNonEmpty(xs) == xs
  {
    if |xs| > 0 {
      TrimNonEmptyKeeps(xs[1..]);
      assert [xs[0]] + xs[1..] == xs;
    }
  }

  lemma CommaFreeAppend(a: seq<string>, b: seq<string>)
    requires CommaFree(a) && CommaFree(b)
    ensures CommaFree(a + b)
  {
    var ab := a + b;
    forall k | 0 <= k < |ab|
      ensures ',' !in ab[k]
    {
      if k < |a| { assert ab[k] == a[k]; } else { assert ab[k] == b[k - |a|]; }
    }
  }

  /** Trim-and-filter works piece by piece: it distributes over concatenation,
      so it keeps the order of the pieces and drops only blank ones. */
  lemma {:induction false} TrimNonEmptyAppend(a: seq<string>, b: seq<string>)
    requires CommaFree(a) && CommaFree(b)
    ensures TrimNonEmpty(a + b) == TrimNonEmpty(a) + TrimNonEmpty(b)
  {
    CommaFreeAppend(a, b);
    if |a| == 0 {
      assert a + b == b;
    } else {
      AppendTail(a, b);
      TrimNonEmptyHead(a + b);
      TrimNonEmptyHead(a);
      TrimNonEmptyAppend(a[1..], b);
      AppendAssoc(Kept(a[0]), TrimNonEmpty(a[1..]), TrimNonEmpty(b));
    }
  }

  lemma AppendTail<T>(a: seq<T>, b: seq<T>)
    requires |a| > 0
    ensures (a + b)[0] == a[0] && (a + b)[1..] == a[1..] + b
  {
  }

  lemma AppendAssoc<T>(x: seq<T>, y: seq<T>, z: seq<T>)
    ensures x + (y + z) == (x + y) + z
  {
  }

  /** An entry survives trim-and-filter exactly when it is the non-empty trim of
      some piece. */
  lemma {:induction false} TrimNonEmptyMembership(pieces: seq<string>, x: string)
    requires CommaFree(pieces)
    ensures x in TrimNonEmpty(pieces) <==> x != "" && TrimOfPiece(pieces, x)
  {
    if |pieces| > 0 {
      var rest := pieces[1..];
      TrimNonEmptyHead(pieces);
      TrimNonEmptyMembership(rest, x);
      if x in TrimNonEmpty(pieces) {
        if x in TrimNonEmpty(rest) {
          var k :| 0 <= k < |rest| && x == Text.Trim(rest[k]);
          assert x == Text.Trim(pieces[k + 1]);
        } else {
          assert x == Text.Trim(pieces[0]);
        }
      }
      if x != "" && exists k :: 0 <= k < |pieces| && x == Text.Trim(pieces[k]) {
        var k :| 0 <= k < |pieces| && x == Text.Trim(pieces[k]);
        if k > 0 {
          assert x == Text.Trim(rest[k - 1]);
        }
      }
    }
  }

  /** A status is parsed from the field exactly when it is the non-empty trim of
      one of the field's comma-separated pieces. */
  lemma ParseStatusesMembership(field: string, x: string)
    ensures x in ParseStatuses(field) <==> x != "" && TrimOfPiece(Text.Split(field, ','), x)
  {
    var pieces := Text.Split(field, ',');
    assert ParseStatuses(field) == TrimNonEmpty(pieces);
    TrimNonEmptyMembership(pieces, x);
  }

  /** A comma-free field is one status, trimmed, or none when it is blank. */
  lemma ParseStatusesOne(s: string)
    requires ',' !in s
    ensures ParseStatuses(s) == (if Text.Trim(s) == "" then [] else [Text.Trim(s)])
  {
    Text.SplitNoSeparator(s, ',');
  }

  /** A comma ends one entry: the statuses of `a,b` are those of `a` followed by
      those of `b`. With ParseStatusesOne this fixes the result for every field. */
  lemma ParseStatusesComma(a: string, b: string)
    requires ',' !in a
    ensures ParseStatuses(a + [','] + b) == ParseStatuses(a) + ParseStatuses(b)
  {
    Text.SplitCons(a, b, ',');
    Text.SplitNoSeparator(a, ',');
    TrimNonEmptyAppend([a], Text.Split(b, ','));
  }

  /** Statuses typed with a space after the comma, "a, b", parse as `[a, b]`. */
  lemma ParseStatusesSpacedPair(a: string, b: string)
    requires StatusItem(a) && StatusItem(b)
    ensures ParseStatuses(a + [',', ' '] + b) == [a, b]
  {
    var sb := [' '] + b;
    assert ParseStatuses(a) == [a] by {
      ParseStatusesOne(a);
    }
    assert ParseStatuses(sb) == [b] by {
      ParseStatusesOne(sb);
      Text.TrimLeadingSpace(' ', b);
    }
    assert a + [',', ' '] + b == a + [','] + sb;
    assert ParseStatuses(a + [','] + sb) == ParseStatuses(a) + ParseStatuses(sb) by {
      ParseStatusesComma(a, sb);
    }
  }

  /** Round trip: joining a well-formed list with "," (as loading does) and parsing
      the field again (as saving does) gives the list back. */
  lemma StatusesRoundTrip(xs: seq<string>)
    requires StatusList(xs)
    ensures ParseStatuses(Text.Join(xs, ',')) == xs
  {
    if |xs| == 0 {
      assert Text.Split("", ',') == [""];
    } else {
      Text.SplitJoin(xs, ',');
      TrimNonEmptyKeeps(xs);
    }
  }

  /** Parsing is a normal form: re-joining and re-parsing a parsed list is stable. */
  lemma ParseStatusesStable(field: string)
    ensures ParseStatuses(Text.Join(ParseStatuses(field), ',')) == ParseStatuses(field)
  {
    StatusesRoundTrip(ParseStatuses(field));
  }

  // ---------------------------------------------------------------------------
  // Load and save

  /** The schedule document as `GET /api/scanner/schedule` returns it. */
  datatype ScheduleDoc = ScheduleDoc(
    reverifyEnabled: Option<bool>, reverifyTime: Option<string>,
    reverifyCount: Option<int>, reverifyStatuses: Option<seq<string>>,
    syncEnabled: Option<bool>, syncTime: Option<string>,
    syncLimit: Option<int>, syncType: Option<string>,
    deleteEnabled: Option<bool>, deleteTime: Option<string>, deleteLimit: Option<int>)

  /** The panel's fields; a numeric field is `None` while empty, the statuses
      field is free text. */
  datatype ScheduleForm = ScheduleForm(
    reverifyEnabled: bool, reverifyTime: string,
    reverifyCount: Option<int>, reverifyStatuses: string,
    syncEnabled: bool, syncTime: string,
    syncLimit: Option<int>, syncType: string,
    deleteEnabled: bool, deleteTime: string, deleteLimit: Option<int>)

  const DefaultReverifyTime: string := "02:30"
  const DefaultReverifyCount: int := 50
  const DefaultSyncTime: string := "03:00"
  const DefaultSyncLimit: int := 100
  const DefaultSyncType: string := "valid"
  const DefaultDeleteTime: string := "04:00"
  const DefaultDeleteLimit: int := 50

  /** Loading fills every field from the document, each falsy value replaced by
      its default and each flag coerced with `!!`; the status list is shown
      comma-joined. A failed load leaves the form as it was. */
  function LoadSchedule(form: ScheduleForm, r: Response<ScheduleDoc>): (f: ScheduleForm)
    ensures !r.Ok? ==> f == form
    ensures r.Ok? ==> var d := r.json;
      && f.reverifyEnabled == Truthy(d.reverifyEnabled)
      && f.syncEnabled == Truthy(d.syncEnabled)
      && f.deleteEnabled == Truthy(d.deleteEnabled)
      && f.reverifyTime == OrText(d.reverifyTime, DefaultReverifyTime)
      && f.syncTime == OrText(d.syncTime, DefaultSyncTime)
      && f.deleteTime == OrText(d.deleteTime, DefaultDeleteTime)
      && f.reverifyCount == Some(OrInt(d.reverifyCount, DefaultReverifyCount))
      && f.syncLimit == Some(OrInt(d.syncLimit, DefaultSyncLimit))
      && f.deleteLimit == Some(OrInt(d.deleteLimit, DefaultDeleteLimit))
      && f.syncType == OrText(d.syncType, DefaultSyncType)
      && f.reverifyStatuses == Text.Join(d.reverifyStatuses.GetOr([]), ',')
    ensures r.Ok? ==> f.reverifyTime != "" && f.syncTime != "" && f.deleteTime != "" && f.syncType != ""
  {
    match r
    case Ok(d) =>
      ScheduleForm(
        Truthy(d.reverifyEnabled), OrText(d.reverifyTime, DefaultReverifyTime),
        Some(OrInt(d.reverifyCount, DefaultReverifyCount)), Text.Join(d.reverifyStatuses.GetOr([]), ','),
        Truthy(d.syncEnabled), OrText(d.syncTime, DefaultSyncTime),
        Some(OrInt(d.syncLimit, DefaultSyncLimit)), OrText(d.syncType, DefaultSyncType),
        Truthy(d.deleteEnabled), OrText(d.deleteTime, DefaultDeleteTime),
        Some(OrInt(d.deleteLimit, DefaultDeleteLimit)))
    case _ => form
  }

  /** The body of `PUT /api/scanner/schedule`: all eleven fields, always. */
  datatype SchedulePayload = SchedulePayload(
    reverifyEnabled: bool, reverifyTime: string,
    reverifyCount: int, reverifyStatuses: seq<string>,
    syncEnabled: bool, syncTime: string,
    syncLimit: int, syncType: string,
    deleteEnabled: bool, deleteTime: string, deleteLimit: int)

  /** The save payload: times trimmed, empty numeric fields sent as 50/100/50, an
      empty type sent as "valid", and the parsed status list sent explicitly even
      when it is empty. */
  function SaveSchedulePayload(f: ScheduleForm): (p: SchedulePayload)
    ensures p.reverifyTime == Text.Trim(f.reverifyTime) && p.syncTime == Text.Trim(f.syncTime)
      && p.deleteTime == Text.Trim(f.deleteTime)
    ensures p.reverifyCount == f.reverifyCount.GetOr(DefaultReverifyCount)
      && p.syncLimit == f.syncLimit.GetOr(DefaultSyncLimit)
      && p.deleteLimit == f.deleteLimit.GetOr(DefaultDeleteLimit)
    ensures p.syncType == (if f.syncType != "" then f.syncType else DefaultSyncType)
    ensures p.reverifyStatuses == ParseStatuses(f.reverifyStatuses) && StatusList(p.reverifyStatuses)
    ensures p.reverifyEnabled == f.reverifyEnabled && p.syncEnabled == f.syncEnabled
      && p.deleteEnabled == f.deleteEnabled
  {
    SchedulePayload(
      f.reverifyEnabled, Text.Trim(f.reverifyTime),
      f.reverifyCount.GetOr(DefaultReverifyCount), ParseStatuses(f.reverifyStatuses),
      f.syncEnabled, Text.Trim(f.syncTime),
      f.syncLimit.GetOr(DefaultSyncLimit), if f.syncType != "" then f.syncType else DefaultSyncType,
      f.deleteEnabled, Text.Trim(f.deleteTime),
      f.deleteLimit.GetOr(DefaultDeleteLimit))
  }

  /** Whitespace-free times and a well-formed status list survive a load followed
      by a save: the payload is the document with its falsy fields defaulted. */
  lemma LoadThenSave(form: ScheduleForm, d: ScheduleDoc)
    requires StatusList(d.reverifyStatuses.GetOr([]))
    requires d.reverifyTime.Some? ==> Text.NoSurroundingSpace(d.reverifyTime.value)
    requires d.syncTime.Some? ==> Text.NoSurroundingSpace(d.syncTime.value)
    requires d.deleteTime.Some? ==> Text.NoSurroundingSpace(d.deleteTime.value)
    ensures SaveSchedulePayload(LoadSchedule(form, Ok(d))) == SchedulePayload(
      Truthy(d.reverifyEnabled), OrText(d.reverifyTime, DefaultReverifyTime),
      OrInt(d.reverifyCount, DefaultReverifyCount), d.reverifyStatuses.GetOr([]),
      Truthy(d.syncEnabled), OrText(d.syncTime, DefaultSyncTime),
      OrInt(d.syncLimit, DefaultSyncLimit), OrText(d.syncType, DefaultSyncType),
      Truthy(d.deleteEnabled), OrText(d.deleteTime, DefaultDeleteTime),
      OrInt(d.deleteLimit, DefaultDeleteLimit))
  {
    var f := LoadSchedule(form, Ok(d));
    DefaultTimesClean();
    DefaultedClean(d.reverifyTime, DefaultReverifyTime);
    DefaultedClean(d.syncTime, DefaultSyncTime);
    DefaultedClean(d.deleteTime, DefaultDeleteTime);
    SaveOfFilledForm(f, d.reverifyStatuses.GetOr([]));
  }

  /** Saving a filled-in form whose times are already trimmed and whose status
      field is a joined well-formed list sends the form's values unchanged. */
  lemma SaveOfFilledForm(f: ScheduleForm, statuses: seq<string>)
    requires StatusList(statuses) && f.reverifyStatuses == Text.Join(statuses, ',')
    requires Text.NoSurroundingSpace(f.reverifyTime) && Text.NoSurroundingSpace(f.syncTime)
      && Text.NoSurroundingSpace(f.deleteTime)
    requires f.reverifyCount.Some? && f.syncLimit.Some? && f.deleteLimit.Some? && f.syncType != ""
    ensures SaveSchedulePayload(f) == SchedulePayload(
      f.reverifyEnabled, f.reverifyTime, f.reverifyCount.value, statuses,
      f.syncEnabled, f.syncTime, f.syncLimit.value, f.syncType,
      f.deleteEnabled, f.deleteTime, f.deleteLimit.value)
  {
    StatusesRoundTrip(statuses);
  }

  /** The default times carry no surrounding whitespace. */
  lemma DefaultTimesClean()
    ensures Text.NoSurroundingSpace(DefaultReverifyTime)
    ensures Text.NoSurroundingSpace(DefaultSyncTime)
    ensures Text.NoSurroundingSpace(DefaultDeleteTime)
  {
  }

  /** Defaulting a whitespace-free value with a whitespace-free default gives a
      whitespace-free text. */
  lemma DefaultedClean(x: Option<string>, d: string)
    requires Text.NoSurroundingSpace(d)
    requires x.Some? ==> Text.NoSurroundingSpace(x.value)
    ensures Text.NoSurroundingSpace(OrText(x, d))
  {
  }

  // ---------------------------------------------------------------------------
  // Run-now buttons

  /** The body of `POST /api/scanner/reverify`; `statuses` is left out when None. */
  datatype ReverifyRequest = ReverifyRequest(count: int, statuses: Option<seq<string>>)

  /** The reverify trigger: count from the field (50 when empty), and the status
      list only when it is non-empty — unlike the save payload. */
  function ReverifyTrigger(f: ScheduleForm): (q: ReverifyRequest)
    ensures q.count == f.reverifyCount.GetOr(DefaultReverifyCount)
    ensures q.statuses.Some? <==> ParseStatuses(f.reverifyStatuses) != []
    ensures q.statuses.Some? ==> q.statuses.value == ParseStatuses(f.reverifyStatuses)
  {
    var statuses := ParseStatuses(f.reverifyStatuses);
    ReverifyRequest(f.reverifyCount.GetOr(DefaultReverifyCount), if statuses == [] then None else Some(statuses))
  }

  /** The JSON of the reverify reply. */
  datatype ReverifyReply = ReverifyReply(checked: Option<int>)

  /** The reverify report: `checked ?? count`. */
  function ReverifyOutcome(q: ReverifyRequest, r: Response<ReverifyReply>): (res: Result<int, FetchError>)
    ensures res.Success? <==> r.Ok?
    ensures !r.Ok? ==> res.error == Interpret(r).error
    ensures r.Ok? && r.json.checked.Some? ==> res.value == r.json.checked.value
    ensures r.Ok? && r.json.checked == None ==> res.value == q.count
  {
    match Interpret(r)
    case Success(data) => Success(data.checked.GetOr(q.count))
    case Failure(e) => Failure(e)
  }

  /** The query of `POST /api/scanner/sync-now`. */
  datatype SyncQuery = SyncQuery(limit: int, keyType: string)

  /** The sync trigger: limit from the field (100 when empty), type from the
      field ("valid" when empty). */
  function SyncTrigger(f: ScheduleForm): (q: SyncQuery)
    ensures q.limit == f.syncLimit.GetOr(DefaultSyncLimit)
    ensures q.keyType != "" && (f.syncType != "" ==> q.keyType == f.syncType)
  {
    SyncQuery(f.syncLimit.GetOr(DefaultSyncLimit), if f.syncType != "" then f.syncType else DefaultSyncType)
  }

  /** The JSON of the sync reply. */
  datatype SyncReply = SyncReply(synced: Option<int>, total: Option<int>)

  /** The sync report: `synced ?? total ?? 0`, preferring `synced`. */
  function SyncOutcome(r: Response<SyncReply>): (res: Result<int, FetchError>)
    ensures res.Success? <==> r.Ok?
    ensures !r.Ok? ==> res.error == Interpret(r).error
    ensures r.Ok? && r.json.synced.Some? ==> res.value == r.json.synced.value
    ensures r.Ok? && r.json.synced == None && r.json.total.Some? ==> res.value == r.json.total.value
    ensures r.Ok? && r.json.synced == None && r.json.total == None ==> res.value == 0
  {
    match Interpret(r)
    case Success(data) => Success(data.synced.GetOr(data.total.GetOr(0)))
    case Failure(e) => Failure(e)
  }

  /** The delete trigger: limit from the field (50 when empty), and the report
      `deleted ?? 0`. */
  function DeleteTriggerOutcome(f: ScheduleForm, r: Response<DeleteReply>): (res: Result<int, FetchError>)
    ensures res.Success? <==> r.Ok?
    ensures !r.Ok? ==> res.error == Interpret(r).error
    ensures r.Ok? ==> res.value == r.json.deleted.GetOr(0)
  {
    match DeleteOutcome(f.deleteLimit, r)
    case Success(report) => Success(report.deleted)
    case Failure(e) => Failure(e)
  }

  /** The run-now buttons act on what the panel would save: each sends the same
      count, limit, type and status list as the save payload carries. */
  lemma TriggersMatchSavedSchedule(f: ScheduleForm)
    ensures var p := SaveSchedulePayload(f);
      && ReverifyTrigger(f).count == p.reverifyCount
      && ReverifyTrigger(f).statuses.GetOr([]) == p.reverifyStatuses
      && SyncTrigger(f) == SyncQuery(p.syncLimit, p.syncType)
      && DeleteLimit(f.deleteLimit) == p.deleteLimit
  {
  }
}

/** The key-asset page: its session state (the fetched items and the default
    fetch size), its configuration form, and the actions its buttons run —
    load and save the scanner configuration, fetch keys, copy keys and delete
    invalid keys (the probe button runs the shared decision of `Dispatch.Probe`). Each action is one function from the page
    and the reply of its single request to the next page and what it reports. */
module Assets {
  import opened Wrappers
  import opened JsValues
  import opened Dispatch
  import Text

  /** One key record as the scanner lists it. */
  datatype KeyAsset = KeyAsset(
    key: Option<string>,
    keyType: Option<string>,
    recheckStatus: Option<string>,
    lastVerifiedAt: Option<string>,
    url: Option<string>)

  /** The page's module state: the items of the last fetch, and the fetch size
      used when the fetch-limit field is empty. */
  datatype Session = Session(items: seq<KeyAsset>, defaultLimit: int)

  /** The state the page starts with. */
  const InitialSession: Session := Session([], 50)

  /** The editable fields of the page; a numeric field is `None` while empty. */
  datatype Form = Form(
    baseUrl: string,
    apiKey: string,
    timeout: Option<int>,
    defaultLimit: Option<int>,
    fetchLimit: Option<int>,
    fetchType: string,
    deleteLimit: Option<int>)

  datatype Page = Page(session: Session, form: Form)

  // ---------------------------------------------------------------------------
  // Configuration load and save

  /** The JSON of `GET /api/scanner/config`. */
  datatype ConfigReply = ConfigReply(baseUrl: Option<string>, timeout: Option<int>, defaultLimit: Option<int>)

  /** Loading the configuration fills the connection fields with falsy values
      replaced by defaults (timeout 15, default limit 50), copies the default
      limit into the fetch-limit field and the session, and resets the fetch
      type to "valid". The key field, the delete limit and the items are never
      touched, and a failed load changes nothing. */
  function LoadConfig(page: Page, r: Response<ConfigReply>): (p: Page)
    ensures !r.Ok? ==> p == page
    ensures p.session.items == page.session.items
    ensures p.form.apiKey == page.form.apiKey && p.form.deleteLimit == page.form.deleteLimit
    ensures r.Ok? ==> var limit := OrInt(r.json.defaultLimit, 50);
      && p.session.defaultLimit == limit
      && p.form.defaultLimit == Some(limit) && p.form.fetchLimit == Some(limit)
      && p.form.timeout == Some(OrInt(r.json.timeout, 15))
      && p.form.baseUrl == OrText(r.json.baseUrl, "")
      && p.form.fetchType == "valid"
    ensures r.Ok? && r.json.defaultLimit != Some(0) && r.json.defaultLimit.Some? ==>
      p.session.defaultLimit == r.json.defaultLimit.value
  {
    match r
    case Ok(data) =>
      var limit := OrInt(data.defaultLimit, 50);
      Page(
        page.session.(defaultLimit := limit),
        page.form.(
          baseUrl := OrText(data.baseUrl, ""),
          timeout := Some(OrInt(data.timeout, 15)),
          defaultLimit := Some(limit),
          fetchLimit := Some(limit),
          fetchType := "valid"))
    case _ => page
  }

  /** The body of `PUT /api/scanner/config`. */
  datatype ConfigPayload = ConfigPayload(baseUrl: string, apiKey: string, timeout: int, defaultLimit: int)

  /** The save payload: URL and key trimmed, an empty timeout field sent as 15 and
      an empty default-limit field sent as the session's default limit. */
  function SaveConfigPayload(page: Page): (c: ConfigPayload)
    ensures Text.NoSurroundingSpace(c.baseUrl) && Text.NoSurroundingSpace(c.apiKey)
    ensures c.baseUrl == Text.Trim(page.form.baseUrl) && c.apiKey == Text.Trim(page.form.apiKey)
    ensures page.form.timeout == None ==> c.timeout == 15
    ensures page.form.timeout.Some? ==> c.timeout == page.form.timeout.value
    ensures page.form.defaultLimit == None ==> c.defaultLimit == page.session.defaultLimit
    ensures page.form.defaultLimit.Some? ==> c.defaultLimit == page.form.defaultLimit.value
  {
    ConfigPayload(
      Text.Trim(page.form.baseUrl),
      Text.Trim(page.form.apiKey),
      page.form.timeout.GetOr(15),
      page.form.defaultLimit.GetOr(page.session.defaultLimit))
  }

  /** Applying the save reply: only a 2xx reply clears the key field; nothing else
      on the page changes either way, and a failure carries the error detail. */
  function ApplySaveConfig(page: Page, r: Response<()>): (res: (Page, Result<(), FetchError>))
    ensures r.Ok? <==> res.1.Success?
    ensures r.Ok? ==> res.0 == page.(form := page.form.(apiKey := ""))
    ensures !r.Ok? ==> res.0 == page && res.1 == Interpret(r)
    ensures res.0.session == page.session && res.0.form.baseUrl == page.form.baseUrl
  {
    match Interpret(r)
    case Success(_) => (page.(form := page.form.(apiKey := "")), Success(()))
    case Failure(e) => (page, Failure(e))
  }

  // ---------------------------------------------------------------------------
  // Fetch

  /** The query of `GET /api/scanner/key-assets`. */
  datatype AssetsQuery = AssetsQuery(limit: int, keyType: string)

  /** The fetch query: the fetch-limit field, else the session default, else 50
      (`Number(field || state.defaultLimit || 50)`), and the type, else "valid". */
  function FetchQuery(page: Page): (q: AssetsQuery)
    ensures page.form.fetchLimit.Some? ==> q.limit == page.form.fetchLimit.value
    ensures page.form.fetchLimit == None ==> q.limit == OrInt(Some(page.session.defaultLimit), 50)
    ensures q.keyType != ""
    ensures page.form.fetchType != "" ==> q.keyType == page.form.fetchType
  {
    AssetsQuery(
      page.form.fetchLimit.GetOr(OrInt(Some(page.session.defaultLimit), 50)),
      if page.form.fetchType != "" then page.form.fetchType else "valid")
  }

  /** The JSON of the key-asset listing. */
  datatype AssetsReply = AssetsReply(items: Option<seq<KeyAsset>>)

  /** Applying a fetch reply: a 2xx reply replaces the items wholesale with the
      returned list, in the returned order and with duplicates kept (no list at
      all means no items) and reports their number; a failure changes nothing. */
  function ApplyFetch(page: Page, r: Response<AssetsReply>): (res: (Page, Result<nat, FetchError>))
    ensures r.Ok? ==> res.0.session.items == r.json.items.GetOr([])
    ensures r.Ok? ==> res.1 == Success(|res.0.session.items|)
    ensures !r.Ok? ==> res.0 == page && res.1.Failure? && res.1.error == Interpret(r).error
    ensures res.0.form == page.form && res.0.session.defaultLimit == page.session.defaultLimit
  {
    match Interpret(r)
    case Success(data) =>
      var items := data.items.GetOr([]);
      (page.(session := page.session.(items := items)), Success(|items|))
    case Failure(e) => (page, Failure(e))
  }

  /** The items after a successful fetch do not depend on the items before it. */
  lemma FetchForgetsPreviousItems(p1: Page, p2: Page, reply: AssetsReply)
    ensures ApplyFetch(p1, Ok(reply)).0.session.items == ApplyFetch(p2, Ok(reply)).0.session.items
  {
  }

  // ---------------------------------------------------------------------------
  // Copy

  /** The keys of the items that have a non-empty key, in item order
      (`items.map(i => i.key).filter(Boolean)`). */
  function ExportKeys(items: seq<KeyAsset>): (keys: seq<string>)
    ensures |keys| <= |items|
    ensures forall i :: 0 <= i < |keys| ==> keys[i] != ""
  {
    if |items| == 0 then []
    else
      var head := if NonEmpty(items[0].key) then [items[0].key.value] else [];
      head + ExportKeys(items[1..])
  }

  /** Export distributes over concatenation, so it keeps the item order. */
  lemma {:induction false} ExportKeysAppend(a: seq<KeyAsset>, b: seq<KeyAsset>)
    ensures ExportKeys(a + b) == ExportKeys(a) + ExportKeys(b)
  {
    if |a| == 0 {
      assert a + b == b;
    } else {
      assert (a + b)[1..] == a[1..] + b;
      ExportKeysAppend(a[1..], b);
    }
  }

  /** A string is exported exactly when it is the non-empty key of some item. */
  lemma {:induction false} ExportKeysMembership(items: seq<KeyAsset>, k: string)
    ensures k in ExportKeys(items) <==> k != "" && exists i :: 0 <= i < |items| && items[i].key == Some(k)
  {
    if |items| > 0 {
      ExportKeysMembership(items[1..], k);
      if k != "" && items[0].key != Some(k) && (exists i :: 0 <= i < |items| && items[i].key == Some(k)) {
        var i :| 0 <= i < |items| && items[i].key == Some(k);
        assert items[1..][i - 1].key == Some(k);
      }
      if exists i :: 0 <= i < |items[1..]| && items[1..][i].key == Some(k) {
        var i :| 0 <= i < |items[1..]| && items[1..][i].key == Some(k);
        assert items[i + 1].key == Some(k);
      }
    }
  }

  /** What the copy button does: with no items it reports an error and copies
      nothing; otherwise it copies the exported keys one per line and reports the
      number of items (keyless items included). */
  datatype CopyResult = NothingToCopy | Copied(text: string, reported: nat)

  function CopyKeys(session: Session): (c: CopyResult)
    ensures c.NothingToCopy? <==> |session.items| == 0
    ensures c.Copied? ==> c.reported == |session.items|
    ensures c.Copied? ==> c.text == Text.Join(ExportKeys(session.items), '\n')
  {
    if |session.items| == 0 then NothingToCopy
    else Copied(Text.Join(ExportKeys(session.items), '\n'), |session.items|)
  }

  /** When no key holds a line break and some key is exported, the copied text
      splits back into exactly the exported keys. */
  lemma CopiedTextSplitsIntoKeys(session: Session)
    requires forall i :: 0 <= i < |session.items| && session.items[i].key.Some? ==> '\n' !in session.items[i].key.value
    requires ExportKeys(session.items) != []
    ensures CopyKeys(session).Copied?
    ensures Text.Split(CopyKeys(session).text, '\n') == ExportKeys(session.items)
  {
    var keys := ExportKeys(session.items);
    forall j | 0 <= j < |keys|
      ensures '\n' !in keys[j]
    {
      assert keys[j] in keys;
      ExportKeysMembership(session.items, keys[j]);
    }
    Text.SplitJoin(keys, '\n');
  }

  // ---------------------------------------------------------------------------
  // Delete

  /** The delete button: it reports the shared delete summary for the page's
      delete-limit field and leaves the page — in particular the fetched items —
      exactly as it was, whatever the reply. */
  function DeleteInvalid(page: Page, r: Response<DeleteReply>): (res: (Page, Result<DeleteReport, FetchError>))
    ensures res.0 == page
    ensures res.1.Success? <==> r.Ok?
    ensures r.Ok? ==> res.1.value.deleted == r.json.deleted.GetOr(0)
    ensures r.Ok? ==> res.1.value.requested == r.json.requested.GetOr(page.form.deleteLimit.GetOr(50))
  {
    (page, DeleteOutcome(page.form.deleteLimit, r))
  }
}

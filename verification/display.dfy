/** The pure presentation helpers of the key-asset page: the colour of a
    recheck-status pill, the class of a status pill, and the date cell. */
module Display {
  import opened Wrappers
  import Text

  /** The colour families a recheck-status pill can take. */
  datatype Tone = Amber | Green | Gray | Yellow | Red

  /** The CSS classes the page emits for each colour: a background class, then
      the 700-shade text class of the same family. */
  function ToneClass(t: Tone): (c: string)
    ensures |c| >= 4 && c[|c| - 4..] == "-700"
  {
    match t
    case Amber => "bg-amber-50 text-amber-700"
    case Green => "bg-green-50 text-green-700"
    case Gray => "bg-gray-100 text-gray-700"
    case Yellow => "bg-yellow-50 text-yellow-700"
    case Red => "bg-red-50 text-red-700"
  }

  lemma ToneClassInjective(a: Tone, b: Tone)
    ensures ToneClass(a) == ToneClass(b) ==> a == b
  {
  }

  /** The recheck-status colour: an exact match on the lower-cased label, with
      every unlisted label, "pending", the empty label and an absent one gray. */
  function StatusTone(status: Option<string>): (t: Tone)
    ensures var n := Text.Lower(status.GetOr(""));
      && (t == Amber <==> n == "billable")
      && (t == Green <==> n == "effective" || n == "valid")
      && (t == Yellow <==> n == "rate_limited" || n == "rate-limited")
      && (t == Red <==> n == "invalid" || n == "error")
    ensures status == None || status == Some("") ==> t == Gray
  {
    var n := Text.Lower(status.GetOr(""));
    if n == "billable" then Amber
    else if n == "effective" || n == "valid" then Green
    else if n == "pending" then Gray
    else if n == "rate_limited" || n == "rate-limited" then Yellow
    else if n == "invalid" || n == "error" then Red
    else Gray
  }

  /** The classification ignores letter case. */
  lemma StatusToneCaseInsensitive(s: string)
    ensures StatusTone(Some(s)) == StatusTone(Some(Text.Lower(s)))
  {
    Text.LowerIdempotent(s);
  }

  /** The tone names the pill setters know; any other name falls back to "info". */
  predicate KnownPillTone(tone: string) {
    tone == "info" || tone == "success" || tone == "error"
  }

  const InfoPill: string := "pill bg-blue-50 text-blue-700"

  /** The class string of a status pill for a tone name
      (`toneMap[tone] || toneMap.info`): an unknown tone is shown as info. */
  function PillClass(tone: string): (r: string)
    ensures !KnownPillTone(tone) ==> r == InfoPill
    ensures tone == "info" ==> r == InfoPill
    ensures tone == "success" ==> r == "pill bg-green-50 text-green-700"
    ensures tone == "error" ==> r == "pill bg-red-50 text-red-700"
  {
    if tone == "success" then "pill bg-green-50 text-green-700"
    else if tone == "error" then "pill bg-red-50 text-red-700"
    else InfoPill
  }

  /** The three known tones give three different pills, and an unknown tone gives
      the info pill, so the pill shows "info" exactly when the tone is not a
      success or error tone. */
  lemma PillFallbackIsInfo(tone: string)
    ensures PillClass(tone) == InfoPill <==> tone != "success" && tone != "error"
  {
  }

  /** The placeholder shown for a missing timestamp. */
  const Placeholder: string := "—"

  /** The date cell: a falsy value gives the placeholder; a value the host cannot
      parse is echoed unchanged; a parseable one is shown as the host renders it.
      `rendered` is the host's locale rendering, `None` when `new Date(value)` is
      an invalid date. */
  function FormatDate(value: Option<string>, rendered: Option<string>): (r: string)
    ensures value == None || value == Some("") ==> r == Placeholder
    ensures value.Some? && value.value != "" && rendered == None ==> r == value.value
    ensures value.Some? && value.value != "" && rendered.Some? ==> r == rendered.value
  {
    if value == None || value.value == "" then Placeholder
    else if rendered == None then value.value
    else rendered.value
  }

  /** The formatter never yields an empty cell unless the host renders a date as
      the empty string: every falsy or unparseable input is shown as something. */
  lemma FormatDateNonEmpty(value: Option<string>, rendered: Option<string>)
    requires rendered.Some? ==> rendered.value != ""
    ensures FormatDate(value, rendered) != ""
  {
  }
}

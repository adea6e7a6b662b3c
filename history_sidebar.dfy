/** The chat-history sidebar's helpers (frontend/src/components/ChatHistorySidebar.tsx):
    shortening a title, the relative date shown beside a history, and the
    normalisation of a loaded history's messages. Dates are milliseconds
    since the epoch; the clock, `toISOString`, `toLocaleDateString` and
    date-string parsing are parameters. */
module HistorySidebar {
  import opened Common
  import opened Domain

  /** A timestamp as the API delivers it: text, a store timestamp object
      with `_seconds` and/or `seconds`, or null/undefined. */
  datatype Stamp =
    | StampText(text: string)
    | StampObject(underscoreSeconds: Option<int>, seconds: Option<int>)
    | NoStamp

  /** Milliseconds per day. */
  const DayMs: int := 86400000

  /** The largest magnitude of a valid JavaScript time value. */
  const MaxTime: int := 8640000000000000

  // ---------------------------------------------------------------------
  // truncateText
  // ---------------------------------------------------------------------

  const Ellipsis: string := "..."

  /** `truncateText(text, maxLength)`: the text itself when it fits, else
      its first maxLength characters (none for a negative maxLength, as
      `substring` clamps) followed by "...". */
  function TruncateText(text: string, maxLength: int): (r: string)
    ensures |text| <= maxLength ==> r == text
    ensures |text| > maxLength ==>
      var keep := if maxLength < 0 then 0 else maxLength;
      |r| == keep + 3 && r[..keep] == text[..keep] && r[keep..] == Ellipsis
  {
    if |text| <= maxLength then text
    else text[..if maxLength < 0 then 0 else maxLength] + Ellipsis
  }

  /** A shortened title never exceeds maxLength plus the three dots, and
      always begins like the original. */
  lemma TruncateBounds(text: string, maxLength: nat)
    ensures |TruncateText(text, maxLength)| <= maxLength + 3
    ensures var r := TruncateText(text, maxLength);
      var shown := if |text| <= maxLength then |text| else maxLength;
      r[..shown] == text[..shown]
  {
  }

  // ---------------------------------------------------------------------
  // Store timestamps
  // ---------------------------------------------------------------------

  /** `ts._seconds || ts.seconds`, kept only when truthy (non-zero). */
  function StampSeconds(s: Stamp): (r: Option<int>)
    requires s.StampObject?
    ensures r.Some? ==> r.value != 0
    ensures r.Some? && s.underscoreSeconds.Some? && s.underscoreSeconds.value != 0 ==> r == s.underscoreSeconds
    ensures r.None? <==>
      (s.underscoreSeconds.None? || s.underscoreSeconds.value == 0) && (s.seconds.None? || s.seconds.value == 0)
  {
    if s.underscoreSeconds.Some? && s.underscoreSeconds.value != 0 then s.underscoreSeconds
    else if s.seconds.Some? && s.seconds.value != 0 then s.seconds
    else None
  }

  /** `new Date(ms)` is a valid date. */
  predicate ValidTime(ms: int) {
    -MaxTime <= ms <= MaxTime
  }

  // ---------------------------------------------------------------------
  // formatDate
  // ---------------------------------------------------------------------

  const JustNow: string := "Just now"
  const Today: string := "Today"
  const Yesterday: string := "Yesterday"
  const DaysAgoSuffix: string := " days ago"

  /** The date a value denotes, if any: a timestamp object with non-zero
      seconds, or text the parser accepts. */
  function DateOf(value: Stamp, parse: string -> Option<int>): Option<int> {
    match value
    case NoStamp => None
    case StampText(text) =>
      if text == "" then None
      else var d := parse(text); if d.Some? && ValidTime(d.value) then d else None
    case StampObject(_, _) =>
      var seconds := StampSeconds(value);
      if seconds.Some? && ValidTime(seconds.value * 1000) then Some(seconds.value * 1000) else None
  }

  /** The label for a date `diffDays` whole days before now. */
  function DaysLabel(diffDays: int, date: int, localeDate: int -> string): string {
    if diffDays == 0 then Today
    else if diffDays == 1 then Yesterday
    else if diffDays < 7 then IntToString(diffDays) + DaysAgoSuffix
    else localeDate(date)
  }

  /** `formatDate`: "Just now" without a usable date; otherwise the whole
      days elapsed, `Math.floor((now - date) / DayMs)`, pick the label. */
  function FormatDate(value: Stamp, now: int, parse: string -> Option<int>, localeDate: int -> string): string {
    var date := DateOf(value, parse);
    if date.None? then JustNow
    else DaysLabel((now - date.value) / DayMs, date.value, localeDate)
  }

  /** No date, an empty text, a timestamp object without seconds and an
      unparsable text all read "Just now". */
  lemma JustNowCases(now: int, parse: string -> Option<int>, localeDate: int -> string, text: string, u: Option<int>, s: Option<int>)
    ensures FormatDate(NoStamp, now, parse, localeDate) == JustNow
    ensures FormatDate(StampText(""), now, parse, localeDate) == JustNow
    ensures parse(text) == None ==> FormatDate(StampText(text), now, parse, localeDate) == JustNow
    ensures (u.None? || u.value == 0) && (s.None? || s.value == 0) ==>
      FormatDate(StampObject(u, s), now, parse, localeDate) == JustNow
  {
  }

  /** A timestamp object dates from `_seconds`, or from `seconds` when
      `_seconds` is missing or zero, times 1000. */
  lemma ObjectDate(u: Option<int>, s: Option<int>, parse: string -> Option<int>)
    ensures u.Some? && u.value != 0 && ValidTime(u.value * 1000) ==>
      DateOf(StampObject(u, s), parse) == Some(u.value * 1000)
    ensures (u.None? || u.value == 0) && s.Some? && s.value != 0 && ValidTime(s.value * 1000) ==>
      DateOf(StampObject(u, s), parse) == Some(s.value * 1000)
  {
  }

  /** "Today" covers the last 24 hours, "Yesterday" the 24 hours before;
      a date in the future is counted as a negative number of days ago. */
  lemma DateBuckets(date: int, now: int, localeDate: int -> string)
    ensures 0 <= now - date < DayMs ==> DaysLabel((now - date) / DayMs, date, localeDate) == Today
    ensures DayMs <= now - date < 2 * DayMs ==> DaysLabel((now - date) / DayMs, date, localeDate) == Yesterday
    ensures 2 * DayMs <= now - date < 7 * DayMs ==>
      DaysLabel((now - date) / DayMs, date, localeDate) == IntToString((now - date) / DayMs) + DaysAgoSuffix
    ensures 7 * DayMs <= now - date ==> DaysLabel((now - date) / DayMs, date, localeDate) == localeDate(date)
    ensures date > now ==>
      var text := DaysLabel((now - date) / DayMs, date, localeDate);
      text == IntToString((now - date) / DayMs) + DaysAgoSuffix && text[0] == '-'
  {
    FloorDays(now - date);
    if date > now {
      var r := IntToString((now - date) / DayMs);
      assert (r + DaysAgoSuffix)[0] == r[0];
    }
  }

  /** Euclidean division by the positive day length is the floor. */
  lemma FloorDays(diff: int)
    ensures (diff / DayMs) * DayMs <= diff < (diff / DayMs + 1) * DayMs
    ensures 0 <= diff < DayMs ==> diff / DayMs == 0
    ensures DayMs <= diff < 2 * DayMs ==> diff / DayMs == 1
    ensures 2 * DayMs <= diff < 7 * DayMs ==> 2 <= diff / DayMs < 7
    ensures 7 * DayMs <= diff ==> diff / DayMs >= 7
    ensures diff < 0 ==> diff / DayMs < 0
  {
  }

  // ---------------------------------------------------------------------
  // Message normalisation in handleSelectHistory
  // ---------------------------------------------------------------------

  /** A message as `getHistory` returns it to the client. */
  datatype RawMessage = RawMessage(id: Option<string>, role: Role, content: string, timestamp: Stamp)

  /** A message as the chat view receives it. */
  datatype ShownMessage = ShownMessage(id: string, role: Role, content: string, timestamp: Option<string>)

  const IdPrefix: string := "msg-"

  /** `new Date(seconds * 1000).toISOString()` throws for an invalid date. */
  predicate Convertible(s: Stamp) {
    s.StampObject? && StampSeconds(s).Some? ==> ValidTime(StampSeconds(s).value * 1000)
  }

  /** One message of the `.map`: the id defaults to "msg-<index>"; an
      object timestamp becomes the ISO text of its seconds, or of now when
      it has none; text, null and undefined pass through. */
  function NormalizeMessage(m: RawMessage, index: nat, nowIso: string, toIso: int -> string): ShownMessage {
    var stamp :=
      match m.timestamp
      case StampText(text) => Some(text)
      case NoStamp => None
      case StampObject(_, _) =>
        var seconds := StampSeconds(m.timestamp);
        if seconds.Some? then Some(toIso(seconds.value * 1000)) else Some(nowIso);
    ShownMessage(if Given(m.id) then m.id.value else IdPrefix + NatToString(index), m.role, m.content, stamp)
  }

  /** The messages handed to the chat view, or None when a conversion threw
      (the selection is then abandoned). */
  function NormalizeMessages(msgs: seq<RawMessage>, nowIso: string, toIso: int -> string): (r: Option<seq<ShownMessage>>)
    ensures r.Some? <==> forall i :: 0 <= i < |msgs| ==> Convertible(msgs[i].timestamp)
    ensures r.Some? ==> |r.value| == |msgs|
  {
    if forall i :: 0 <= i < |msgs| ==> Convertible(msgs[i].timestamp) then
      Some(seq(|msgs|, i requires 0 <= i < |msgs| => NormalizeMessage(msgs[i], i, nowIso, toIso)))
    else None
  }

  /** Normalisation keeps every message in place with its role and
      content, keeps a given id, and dates an object timestamp from its
      seconds, or from now when it has none. */
  lemma NormalizeKeepsMessages(msgs: seq<RawMessage>, nowIso: string, toIso: int -> string, i: nat)
    requires NormalizeMessages(msgs, nowIso, toIso).Some? && i < |msgs|
    ensures var out := NormalizeMessages(msgs, nowIso, toIso).value[i];
      && out.role == msgs[i].role && out.content == msgs[i].content
      && (Given(msgs[i].id) ==> out.id == msgs[i].id.value)
      && (!Given(msgs[i].id) ==> out.id == IdPrefix + NatToString(i))
      && (msgs[i].timestamp.StampText? ==> out.timestamp == Some(msgs[i].timestamp.text))
      && (msgs[i].timestamp.NoStamp? ==> out.timestamp.None?)
      && (msgs[i].timestamp.StampObject? && StampSeconds(msgs[i].timestamp).None? ==> out.timestamp == Some(nowIso))
  {
  }

  /** Messages without an id get pairwise different ids. */
  lemma DefaultIdsDistinct(msgs: seq<RawMessage>, nowIso: string, toIso: int -> string, i: nat, j: nat)
    requires NormalizeMessages(msgs, nowIso, toIso).Some?
    requires i < |msgs| && j < |msgs| && i != j && !Given(msgs[i].id) && !Given(msgs[j].id)
    ensures NormalizeMessages(msgs, nowIso, toIso).value[i].id != NormalizeMessages(msgs, nowIso, toIso).value[j].id
  {
    var out := NormalizeMessages(msgs, nowIso, toIso).value;
    if out[i].id == out[j].id {
      var a := NatToString(i);
      var b := NatToString(j);
      assert IdPrefix + a == IdPrefix + b;
      assert a == (IdPrefix + a)[|IdPrefix|..];
      assert b == (IdPrefix + b)[|IdPrefix|..];
      NatToStringInjective(i, j);
    }
  }
}

/** Helpers of the browser-side utility script: the seconds formatter, the status
    badge colour, the checks on a picked audio file, the live-search trigger and the
    width of a rating bar. */
module ClientUtils {
  import opened Wrappers
  import opened Text
  import opened Numbers

  // ---------------------------------------------------------------------------------
  // formatDuration(seconds)
  // ---------------------------------------------------------------------------------

  /** "{h}h{mm}min" from one hour on (the seconds are dropped), else "{m}min{ss}s";
      the two-digit fields are padStart(2, '0') renderings (TwoDigitsIsPadStart). */
  function FormatDuration(seconds: nat): string
  {
    var hours := seconds / 3600;
    var minutes := (seconds % 3600) / 60;
    var secs := seconds % 60;
    if hours > 0 then NatToString(hours) + "h" + TwoDigits(minutes) + "min"
    else NatToString(minutes) + "min" + TwoDigits(secs) + "s"
  }

  /** Hours, minutes within the hour and seconds within the minute. */
  lemma SecondsParts(seconds: nat)
    ensures seconds == seconds / 3600 * 3600 + (seconds % 3600) / 60 * 60 + seconds % 60
    ensures (seconds % 3600) / 60 < 60 && (seconds / 3600 > 0 <==> seconds >= 3600)
    ensures seconds < 3600 ==> (seconds % 3600) / 60 == seconds / 60
  {
  }

  /** The text reads back (the leading digits are the decimal rendering of a number and
      so read back as it): the leading number is the hours (from one hour on) or the
      minutes, and the two-digit field after the unit is the minutes within the hour
      or the seconds within the minute. */
  lemma FormatDurationReadsBack(seconds: nat)
    ensures seconds >= 3600 ==>
      DigitPrefix(FormatDuration(seconds)) == NatToString(seconds / 3600) &&
      TwoDigitsAt(FormatDuration(seconds), |NatToString(seconds / 3600)| + 1) == Some((seconds % 3600) / 60)
    ensures seconds < 3600 ==>
      DigitPrefix(FormatDuration(seconds)) == NatToString(seconds / 60) &&
      TwoDigitsAt(FormatDuration(seconds), |NatToString(seconds / 60)| + 3) == Some(seconds % 60)
  {
    if seconds >= 3600 {
      HoursReadBack(seconds);
    } else {
      MinutesReadBack(seconds);
    }
  }

  lemma HoursReadBack(seconds: nat)
    requires seconds >= 3600
    ensures DigitPrefix(FormatDuration(seconds)) == NatToString(seconds / 3600)
    ensures TwoDigitsAt(FormatDuration(seconds), |NatToString(seconds / 3600)| + 1) == Some((seconds % 3600) / 60)
  {
    SecondsParts(seconds);
    var h, m := seconds / 3600, (seconds % 3600) / 60;
    ClockReadsBack(h, "h", m, "min");
    assert FormatDuration(seconds) == NatToString(h) + "h" + TwoDigits(m) + "min";
  }

  lemma MinutesReadBack(seconds: nat)
    requires seconds < 3600
    ensures DigitPrefix(FormatDuration(seconds)) == NatToString(seconds / 60)
    ensures TwoDigitsAt(FormatDuration(seconds), |NatToString(seconds / 60)| + 3) == Some(seconds % 60)
  {
    SecondsParts(seconds);
    var m, x := seconds / 60, seconds % 60;
    ClockReadsBack(m, "min", x, "s");
    assert FormatDuration(seconds) == NatToString(m) + "min" + TwoDigits(x) + "s";
  }

  /** From one hour on, the seconds do not show: the text is that of the whole minute. */
  lemma FormatDurationDropsSeconds(seconds: nat)
    requires seconds >= 3600
    ensures FormatDuration(seconds) == FormatDuration(seconds - seconds % 60)
  {
    SecondsParts(seconds);
    var t := seconds - seconds % 60;
    SecondsParts(t);
    WholeMinute(seconds / 3600, (seconds % 3600) / 60, seconds % 60);
  }

  lemma WholeMinute(h: nat, m: nat, x: nat)
    requires m < 60 && x < 60
    ensures (h * 3600 + m * 60 + x - x) / 3600 == h
    ensures ((h * 3600 + m * 60 + x - x) % 3600) / 60 == m
    ensures (h * 3600 + m * 60 + x) / 3600 == h
    ensures ((h * 3600 + m * 60 + x) % 3600) / 60 == m
  {
  }

  // ---------------------------------------------------------------------------------
  // getStatusColor
  // ---------------------------------------------------------------------------------

  const StatusColors: map<string, string> :=
    map["active" := "success", "paused" := "warning", "completed" := "info", "discontinued" := "danger"]

  const DefaultStatusColor: string := "secondary"

  /** The badge colour of a therapy status; an unknown status gets the default. */
  function StatusColor(status: string): (r: string)
    ensures status in StatusColors ==> r == StatusColors[status]
    ensures status !in StatusColors ==> r == DefaultStatusColor
  {
    if status in StatusColors then StatusColors[status] else DefaultStatusColor
  }

  /** The four statuses get four different colours, none of them the default. */
  lemma StatusColorsDistinct(s: string, t: string)
    requires s in StatusColors && t in StatusColors && s != t
    ensures StatusColor(s) != StatusColor(t)
    ensures StatusColor(s) != DefaultStatusColor
  {
  }

  // ---------------------------------------------------------------------------------
  // handleFileUpload checks
  // ---------------------------------------------------------------------------------

  const AllowedTypes: set<string> := {"audio/mp3", "audio/wav", "audio/flac", "audio/m4a", "audio/ogg", "audio/aac"}

  /** 100 MB. */
  const MaxUploadSize: nat := 100 * 1024 * 1024

  datatype UploadRefusal = UnsupportedType | UploadTooLarge

  /** The type is checked before the size; None means the upload starts. */
  function CheckUpload(mimeType: string, size: nat): (r: Option<UploadRefusal>)
    ensures r.None? <==> mimeType in AllowedTypes && size <= MaxUploadSize
    ensures mimeType !in AllowedTypes ==> r == Some(UnsupportedType)
  {
    if mimeType !in AllowedTypes then Some(UnsupportedType)
    else if size > MaxUploadSize then Some(UploadTooLarge)
    else None
  }

  /** A file of an unsupported type is refused for its type, whatever its size. */
  lemma TypeCheckedFirst(mimeType: string, size: nat)
    requires mimeType !in AllowedTypes && size > MaxUploadSize
    ensures CheckUpload(mimeType, size) == Some(UnsupportedType)
  {
  }

  // ---------------------------------------------------------------------------------
  // initLiveSearch
  // ---------------------------------------------------------------------------------

  /** What one input event does: any pending search is cancelled first; then a search
      for the query is scheduled (two characters or more), the results are cleared (empty
      query), or nothing more happens (one character). */
  datatype SearchStep = SearchStep(pending: Option<string>, cleared: bool)

  function OnSearchInput(query: string): (s: SearchStep)
    ensures s.pending.Some? <==> |query| >= 2
    ensures s.pending.Some? ==> s.pending.value == query
    ensures s.cleared <==> query == []
  {
    if |query| >= 2 then SearchStep(Some(query), false)
    else if |query| == 0 then SearchStep(None, true)
    else SearchStep(None, false)
  }

  /** The search pending after a burst of input events (no timer firing in between). */
  function PendingAfter(queries: seq<string>, pending: Option<string>): Option<string>
  {
    if queries == [] then pending
    else PendingAfter(queries[1..], OnSearchInput(queries[0]).pending)
  }

  /** Only the latest query can be searched: after a burst of events, the pending
      search is the last query when it has two characters or more, and none otherwise. */
  lemma {:induction false} LatestQueryWins(queries: seq<string>, pending: Option<string>)
    requires queries != []
    ensures |queries[|queries| - 1]| >= 2 ==> PendingAfter(queries, pending) == Some(queries[|queries| - 1])
    ensures |queries[|queries| - 1]| < 2 ==> PendingAfter(queries, pending) == None
  {
    if |queries| > 1 {
      LatestQueryWins(queries[1..], OnSearchInput(queries[0]).pending);
    }
  }

  // ---------------------------------------------------------------------------------
  // updateRatingDisplay
  // ---------------------------------------------------------------------------------

  /** The scale's maximum; a missing or zero data-max falls back to 5. */
  function RatingMax(dataMax: Option<real>): (m: real)
    ensures m != 0.0
  {
    if dataMax.None? || dataMax.value == 0.0 then 5.0 else dataMax.value
  }

  /** The width of the rating bar, in percent of the scale. */
  function RatingPercent(value: real, dataMax: Option<real>): (p: real)
    ensures p * RatingMax(dataMax) == value * 100.0
    ensures 0.0 <= value <= RatingMax(dataMax) ==> 0.0 <= p <= 100.0
  {
    var maxValue := RatingMax(dataMax);
    var p := value / maxValue * 100.0;
    RatingPercentBounds(value, maxValue, p);
    p
  }

  lemma RatingPercentBounds(value: real, maxValue: real, p: real)
    requires maxValue != 0.0 && p == value / maxValue * 100.0
    ensures p * maxValue == value * 100.0
    ensures 0.0 <= value <= maxValue ==> 0.0 <= p <= 100.0
  {
    if 0.0 <= value <= maxValue {
      assert value / maxValue <= 1.0;
    }
  }
}

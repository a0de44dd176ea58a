/** The deterministic parts of report generation: the context gathered from the
    sessions of the period, the checks made before anything is generated, and the
    engagement statistics and period label put into the report. */
module Reports {
  import opened Wrappers
  import opened Text
  import opened Stats

  // ---------------------------------------------------------------------------------
  // build_context
  // ---------------------------------------------------------------------------------

  /** What a session contributes: its date (as an ordinal), its AI summary and its
      engagement score, each possibly missing. */
  datatype SessionData = SessionData(date: int, syntheseIa: Option<string>, scoreEngagement: Option<int>)

  datatype Synthese = Synthese(date: int, texte: string)

  datatype Context = Context(syntheses: seq<Synthese>, engagements: seq<int>)

  /** A summary is kept when it is present and not empty, stripped. */
  function SyntheseOf(s: SessionData): (r: seq<Synthese>)
    ensures |r| <= 1
    ensures r != [] <==> s.syntheseIa.Some? && s.syntheseIa.value != []
    ensures r != [] ==> r[0] == Synthese(s.date, Strip(s.syntheseIa.value))
  {
    if s.syntheseIa.Some? && s.syntheseIa.value != [] then [Synthese(s.date, Strip(s.syntheseIa.value))] else []
  }

  /** A score is kept when present. */
  function EngagementOf(s: SessionData): (r: seq<int>)
    ensures r == (if s.scoreEngagement.Some? then [s.scoreEngagement.value] else [])
  {
    match s.scoreEngagement
    case Some(e) => [e]
    case None => []
  }

  function Syntheses(ss: seq<SessionData>): seq<Synthese>
  {
    if ss == [] then [] else Syntheses(ss[..|ss| - 1]) + SyntheseOf(ss[|ss| - 1])
  }

  /** The engagement scores that are set, in session order. */
  function Engagements(ss: seq<SessionData>): seq<int>
  {
    if ss == [] then [] else Engagements(ss[..|ss| - 1]) + EngagementOf(ss[|ss| - 1])
  }

  /** Never more scores than sessions, and one per session when every session has one. */
  lemma {:induction false} EngagementsCount(ss: seq<SessionData>)
    ensures |Engagements(ss)| <= |ss|
    ensures (forall j :: 0 <= j < |ss| ==> ss[j].scoreEngagement.Some?) ==> |Engagements(ss)| == |ss|
  {
    if ss != [] {
      EngagementsCount(ss[..|ss| - 1]);
    }
  }

  /** Gathering distributes over the session list: what is gathered from two runs of
      sessions is what each gives, in order. */
  lemma {:induction false} GatherConcat(a: seq<SessionData>, b: seq<SessionData>)
    ensures Syntheses(a + b) == Syntheses(a) + Syntheses(b)
    ensures Engagements(a + b) == Engagements(a) + Engagements(b)
  {
    if b != [] {
      var init := b[..|b| - 1];
      assert (a + b)[..|a + b| - 1] == a + init;
      assert (a + b)[|a + b| - 1] == b[|b| - 1];
      GatherConcat(a, init);
    } else {
      assert a + b == a;
    }
  }

  /** A summary of whitespace only is still kept, as an empty text. */
  lemma BlankSummaryKept(date: int, blank: string, e: Option<int>)
    requires blank != [] && forall k :: 0 <= k < |blank| ==> blank[k] in Whitespace
    ensures Syntheses([SessionData(date, Some(blank), e)]) == [Synthese(date, [])]
  {
    StripEmptyIffBlank(blank);
    var ss := [SessionData(date, Some(blank), e)];
    assert ss[..0] == [];
  }

  /** `build_context`: the kept summaries and scores, in session order. */
  method BuildContext(ss: seq<SessionData>) returns (ctx: Context)
    ensures ctx == Context(Syntheses(ss), Engagements(ss))
  {
    var syntheses: seq<Synthese> := [];
    var engagements: seq<int> := [];
    for i := 0 to |ss|
      invariant syntheses == Syntheses(ss[..i]) && engagements == Engagements(ss[..i])
    {
      assert ss[..i + 1][..i] == ss[..i];
      var s := ss[i];
      if s.syntheseIa.Some? && s.syntheseIa.value != [] {
        syntheses := syntheses + [Synthese(s.date, Strip(s.syntheseIa.value))];
      }
      if s.scoreEngagement.Some? {
        engagements := engagements + [s.scoreEngagement.value];
      }
    }
    assert ss[..|ss|] == ss;
    ctx := Context(syntheses, engagements);
  }

  // ---------------------------------------------------------------------------------
  // generate_report: checks, statistics, label
  // ---------------------------------------------------------------------------------

  datatype ReportRefusal = PatientNotFound | InvalidPeriod | NoSession

  /** The checks in their order: the patient, then the period (equal ends allowed),
      then the sessions found in it. None means the report is generated. */
  function ReportCheck(patientFound: bool, debut: int, fin: int, sessions: seq<SessionData>): (r: Option<ReportRefusal>)
    ensures r.None? <==> patientFound && debut <= fin && sessions != []
    ensures !patientFound ==> r == Some(PatientNotFound)
    ensures patientFound && debut > fin ==> r == Some(InvalidPeriod)
    ensures r == Some(NoSession) <==> patientFound && debut <= fin && sessions == []
  {
    if !patientFound then Some(PatientNotFound)
    else if debut > fin then Some(InvalidPeriod)
    else if sessions == [] then Some(NoSession)
    else None
  }

  function AsReals(xs: seq<int>): (r: seq<real>)
    ensures |r| == |xs| && forall k :: 0 <= k < |xs| ==> r[k] == xs[k] as real
  {
    seq(|xs|, k requires 0 <= k < |xs| => xs[k] as real)
  }

  /** The mean engagement, or none ('NA') without scores. */
  function EngagementMean(engagements: seq<int>): (m: Option<real>)
    ensures m.None? <==> engagements == []
  {
    if engagements == [] then None else Some(Mean(AsReals(engagements)))
  }

  /** The mean engagement lies within the scores' range. */
  lemma EngagementMeanBetween(engagements: seq<int>, lo: int, hi: int)
    requires engagements != [] && forall k :: 0 <= k < |engagements| ==> lo <= engagements[k] <= hi
    ensures lo as real <= EngagementMean(engagements).value <= hi as real
  {
    MeanBetween(AsReals(engagements), lo as real, hi as real);
  }

  datatype EngagementTrend = NoTrend | Improving | Declining | Steady

  /** From two scores on, the last compared with the first. */
  function EngagementTrendOf(engagements: seq<int>): (t: EngagementTrend)
    ensures t == NoTrend <==> |engagements| < 2
    ensures t == Improving <==> |engagements| >= 2 && engagements[|engagements| - 1] > engagements[0]
    ensures t == Declining <==> |engagements| >= 2 && engagements[|engagements| - 1] < engagements[0]
  {
    if |engagements| < 2 then NoTrend
    else if engagements[|engagements| - 1] > engagements[0] then Improving
    else if engagements[|engagements| - 1] < engagements[0] then Declining
    else Steady
  }

  /** The words the report uses for each trend. */
  function TrendLabel(t: EngagementTrend): string
  {
    match t
    case NoTrend => ""
    case Improving => "en amélioration"
    case Declining => "en diminution"
    case Steady => "stable"
  }

  /** Swapping the first and last scores swaps improvement and decline. */
  lemma EngagementTrendMirror(a: seq<int>, b: seq<int>)
    requires |a| >= 2 && |b| >= 2 && b[0] == a[|a| - 1] && b[|b| - 1] == a[0]
    ensures EngagementTrendOf(a) == Improving <==> EngagementTrendOf(b) == Declining
    ensures EngagementTrendOf(a) == Steady <==> EngagementTrendOf(b) == Steady
  {
  }

  const MonthlySuffix: string := " (rapport mensuel)"
  const YearlySuffix: string := " (rapport annuel)"

  /** "du <start> au <end>" (the dates already formatted), with a suffix for a monthly
      or a yearly report only. */
  function PeriodLabel(debutText: string, finText: string, periodicite: Option<string>): (title: string)
    ensures StartsWith(title, "du " + debutText + " au " + finText)
  {
    var base := "du " + debutText + " au " + finText;
    if periodicite == Some("mensuel") then base + MonthlySuffix
    else if periodicite == Some("annuel") then base + YearlySuffix
    else base
  }

  /** Any other periodicity, or none, leaves the label bare. */
  lemma LabelSuffixOnlyForKnownPeriods(debutText: string, finText: string, periodicite: Option<string>)
    ensures PeriodLabel(debutText, finText, periodicite) == "du " + debutText + " au " + finText
            <==> periodicite != Some("mensuel") && periodicite != Some("annuel")
  {
  }
}

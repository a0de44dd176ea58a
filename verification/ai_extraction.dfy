/** The two text extractors applied to the language model's answer: the key moments
    (bulleted or numbered lines, at most five, each with an optional timestamp) and the
    engagement score (a digit followed by "/5"). Regular expressions are written out as
    the scans they perform. */
module AiExtraction {
  import opened Wrappers
  import opened Text

  // ---------------------------------------------------------------------------------
  // Key moments
  // ---------------------------------------------------------------------------------

  datatype Moment = Moment(timestamp: Option<string>, description: string, importance: string)

  /** Every extracted moment is marked important. */
  const High: string := "high"

  /** The most moments kept. */
  const MaxMoments: nat := 5

  /** A stripped line is a moment when it starts with '-', '*' or one of "1." to "5.". */
  predicate Qualifies(line: string)
  {
    line != [] &&
    (line[0] == '-' || line[0] == '*' || (|line| >= 2 && '1' <= line[0] <= '5' && line[1] == '.'))
  }

  /** The line without its first character and the whitespace after it (the pattern
      ^[-*\d.]\s*, whose one-character class the first character of a qualifying line
      always matches). */
  function CleanLine(line: string): (r: string)
    requires Qualifies(line)
    ensures |r| < |line| && r == line[|line| - |r|..]
  {
    TrimStartBy(line[1..], Whitespace)
  }

  /** Only the leading marker goes: a numbered line keeps the dot after its number. */
  lemma NumberedLineKeepsDot(d: char, rest: string)
    requires '1' <= d <= '5'
    ensures Qualifies([d, '.'] + rest)
    ensures CleanLine([d, '.'] + rest) == ['.'] + rest
  {
    var line := [d, '.'] + rest;
    assert line[1..] == ['.'] + rest;
  }

  /** The number of digits at p, at most two (the greedy \d{1,2}). */
  function DigitRun2(s: string, p: nat): (d: nat)
    requires p <= |s|
    ensures d <= 2 && p + d <= |s| && forall k :: p <= k < p + d ==> IsDigit(s[k])
    ensures d < 2 ==> p + d == |s| || !IsDigit(s[p + d])
  {
    if p < |s| && IsDigit(s[p]) then (if p + 1 < |s| && IsDigit(s[p + 1]) then 2 else 1) else 0
  }

  /** The timestamp pattern (\d{1,2}:\d{2}|\d{1,2}min|\d{1,2}h\d{2}) tried at p: the
      digits, then ":" and two digits, or "min", or "h" and two digits. Backtracking to a
      single digit never helps, since the character it would test is a digit. */
  function TimestampAt(s: string, p: nat): (r: Option<string>)
    requires p <= |s|
    ensures r.Some? ==> 4 <= |r.value| <= 5 && p + |r.value| <= |s| && r.value == s[p..p + |r.value|]
    ensures r.Some? ==> IsDigit(s[p])
  {
    var d := DigitRun2(s, p);
    var q := p + d;
    if d == 0 || q + 3 > |s| then None
    else if s[q] == ':' && IsDigit(s[q + 1]) && IsDigit(s[q + 2]) then Some(s[p..q + 3])
    else if s[q] == 'm' && s[q + 1] == 'i' && s[q + 2] == 'n' then Some(s[p..q + 3])
    else if s[q] == 'h' && IsDigit(s[q + 1]) && IsDigit(s[q + 2]) then Some(s[p..q + 3])
    else None
  }

  /** re.search: the match at the first position from p where the pattern matches. */
  function FindTimestamp(s: string, p: nat): (r: Option<string>)
    requires p <= |s|
    ensures r.Some? ==> exists q :: p <= q <= |s| && TimestampAt(s, q) == r &&
                                    forall j :: p <= j < q ==> TimestampAt(s, j).None?
    ensures r.None? ==> forall j :: p <= j <= |s| ==> TimestampAt(s, j).None?
    decreases |s| - p
  {
    if p == |s| then TimestampAt(s, p)
    else if TimestampAt(s, p).Some? then TimestampAt(s, p)
    else FindTimestamp(s, p + 1)
  }

  /** The characters stripped around a description once the timestamp is cut out. */
  const DescriptionEdges: set<char> := {' ', ':', '-'}

  /** The description left around timestamp t: every occurrence of t removed from the
      cleaned line, and ' ', ':' and '-' stripped from both ends. */
  function Describe(clean: string, t: string): (d: string)
    requires t != []
    ensures |d| <= |clean| && TrimmedBy(d, DescriptionEdges)
  {
    StripByEnds(RemoveAll(clean, t), DescriptionEdges);
    StripBy(RemoveAll(clean, t), DescriptionEdges)
  }

  /** One qualifying line as a moment: the first timestamp in the cleaned line, and the
      description around it; without a timestamp the description is the whole cleaned
      line. */
  function MomentOf(line: string): (m: Moment)
    requires Qualifies(line)
    ensures m.importance == High
    ensures m.timestamp.None? ==> m.description == CleanLine(line)
    ensures m.timestamp.Some? ==> FindTimestamp(CleanLine(line), 0) == m.timestamp && |m.description| < |line|
    ensures m.timestamp.Some? ==> m.timestamp.value != [] &&
                                  m.description == Describe(CleanLine(line), m.timestamp.value)
    ensures m.timestamp.Some? ==> TrimmedBy(m.description, DescriptionEdges)
  {
    var clean := CleanLine(line);
    var found := FindTimestamp(clean, 0);
    if found.Some? then Moment(found, Describe(clean, found.value), High)
    else Moment(None, clean, High)
  }

  /** A line that opens on its timestamp, then separators, then text in which the
      timestamp does not occur again: the moment is that timestamp and exactly that
      text ("- 12:30 - le patient sourit" gives "12:30" and "le patient sourit"). */
  lemma MomentOfLeadingTimestamp(line: string, t: string, sep: string, rest: string)
    requires Qualifies(line) && CleanLine(line) == t + sep + rest
    requires TimestampAt(t + sep + rest, 0) == Some(t)
    requires forall k :: 0 <= k < |sep| ==> sep[k] in DescriptionEdges
    requires rest != [] && rest[0] !in DescriptionEdges && rest[|rest| - 1] !in DescriptionEdges
    requires forall k :: 0 <= k <= |sep + rest| ==> !OccursAt(sep + rest, t, k)
    ensures MomentOf(line) == Moment(Some(t), rest, High)
  {
    assert FindTimestamp(t + sep + rest, 0) == Some(t);
    DescribeLeading(t, sep, rest);
  }

  /** Removing a leading timestamp that does not recur, then the separators after it,
      leaves exactly the text that follows. */
  lemma DescribeLeading(t: string, sep: string, rest: string)
    requires t != []
    requires forall k :: 0 <= k < |sep| ==> sep[k] in DescriptionEdges
    requires rest != [] && rest[0] !in DescriptionEdges && rest[|rest| - 1] !in DescriptionEdges
    requires forall k :: 0 <= k <= |sep + rest| ==> !OccursAt(sep + rest, t, k)
    ensures Describe(t + sep + rest, t) == rest
  {
    RemoveAllLeading(t, sep + rest);
    assert t + sep + rest == t + (sep + rest);
    StripByLeading(sep, rest, DescriptionEdges);
  }

  /** Text in front of the timestamp stays in the description: the first occurrence of
      the timestamp goes, and the scan for further occurrences goes on after it. */
  lemma MomentOfInnerTimestamp(line: string, a: string, t: string, b: string)
    requires Qualifies(line) && CleanLine(line) == a + t + b
    requires FindTimestamp(a + t + b, 0) == Some(t)
    requires forall k :: 0 <= k < |a| ==> !OccursAt(a + t + b, t, k)
    ensures MomentOf(line).description == StripBy(a + RemoveAll(b, t), DescriptionEdges)
  {
    RemoveAllFirst(a, t, b);
  }

  /** The moments of every qualifying line, in order, before the cut to five. */
  function AllMoments(lines: seq<string>): (ms: seq<Moment>)
    ensures |ms| <= |lines|
  {
    if lines == [] then []
    else
      var line := Strip(lines[|lines| - 1]);
      AllMoments(lines[..|lines| - 1]) + (if Qualifies(line) then [MomentOf(line)] else [])
  }

  /** The stripped lines that qualify, in order: the reference the moments are read
      from. */
  function QualifyingLines(lines: seq<string>): (q: seq<string>)
    ensures forall k :: 0 <= k < |q| ==> Qualifies(q[k])
  {
    if lines == [] then []
    else
      var line := Strip(lines[|lines| - 1]);
      QualifyingLines(lines[..|lines| - 1]) + (if Qualifies(line) then [line] else [])
  }

  /** The moments are exactly the qualifying lines, one each, in order, all marked
      important. */
  lemma {:induction false} MomentsOfQualifyingLines(lines: seq<string>)
    ensures MomentsMatch(AllMoments(lines), QualifyingLines(lines))
  {
    if lines != [] {
      MomentsOfQualifyingLines(lines[..|lines| - 1]);
      MomentsStep(lines);
    }
  }

  /** ms holds the moment of each line of qs, one each, in order, all marked important. */
  predicate MomentsMatch(ms: seq<Moment>, qs: seq<string>)
  {
    |ms| == |qs| &&
    forall k :: 0 <= k < |qs| ==> Qualifies(qs[k]) && ms[k] == MomentOf(qs[k]) && ms[k].importance == High
  }

  lemma MomentsStep(lines: seq<string>)
    requires lines != [] && MomentsMatch(AllMoments(lines[..|lines| - 1]), QualifyingLines(lines[..|lines| - 1]))
    ensures MomentsMatch(AllMoments(lines), QualifyingLines(lines))
  {
    var line := Strip(lines[|lines| - 1]);
    var ms, qs := AllMoments(lines[..|lines| - 1]), QualifyingLines(lines[..|lines| - 1]);
    if Qualifies(line) {
      MatchSnoc(ms, qs, line);
      assert AllMoments(lines) == ms + [MomentOf(line)];
      assert QualifyingLines(lines) == qs + [line];
    } else {
      assert AllMoments(lines) == ms;
      assert QualifyingLines(lines) == qs;
    }
  }

  lemma MatchSnoc(ms: seq<Moment>, qs: seq<string>, line: string)
    requires MomentsMatch(ms, qs) && Qualifies(line)
    ensures MomentsMatch(ms + [MomentOf(line)], qs + [line])
  {
    var ms', qs' := ms + [MomentOf(line)], qs + [line];
    forall k | 0 <= k < |qs'|
      ensures Qualifies(qs'[k]) && ms'[k] == MomentOf(qs'[k]) && ms'[k].importance == High
    {
      if k < |qs| {
        assert ms'[k] == ms[k] && qs'[k] == qs[k];
      }
    }
  }

  lemma AllMomentsSnoc(lines: seq<string>, i: nat)
    requires i < |lines|
    ensures AllMoments(lines[..i + 1]) ==
      AllMoments(lines[..i]) + (if Qualifies(Strip(lines[i])) then [MomentOf(Strip(lines[i]))] else [])
  {
    assert lines[..i + 1][..i] == lines[..i];
  }

  /** `_extract_key_moments`: the moments of the qualifying lines, cut to the first five. */
  method ExtractKeyMoments(text: string) returns (moments: seq<Moment>)
    ensures |moments| <= MaxMoments
    ensures var all := AllMoments(Split(text, '\n'));
            moments == all[..if |all| < MaxMoments then |all| else MaxMoments]
  {
    var lines := Split(text, '\n');
    var all: seq<Moment> := [];
    for i := 0 to |lines|
      invariant all == AllMoments(lines[..i])
    {
      var line := Strip(lines[i]);
      AllMomentsSnoc(lines, i);
      if Qualifies(line) {
        all := all + [MomentOf(line)];
      }
    }
    assert lines[..|lines|] == lines;
    moments := all[..if |all| < MaxMoments then |all| else MaxMoments];
  }

  // ---------------------------------------------------------------------------------
  // Engagement score
  // ---------------------------------------------------------------------------------

  /** The first position from q that is neither '/' nor whitespace ([/\s]*, greedy). */
  function SkipSlashSpace(s: string, q: nat): (e: nat)
    requires q <= |s|
    ensures q <= e <= |s| && forall k :: q <= k < e ==> s[k] == '/' || s[k] in Whitespace
    ensures e < |s| ==> s[e] != '/' && s[e] !in Whitespace
    decreases |s| - q
  {
    if q < |s| && (s[q] == '/' || s[q] in Whitespace) then SkipSlashSpace(s, q + 1) else q
  }

  /** The pattern (\d)[/\s]*5 tried at p: the digit's value when it matches. Giving back
      slashes or spaces never helps, since the character it would test is not '5'. */
  function EngagementAt(s: string, p: nat): (r: Option<nat>)
    requires p <= |s|
    ensures r.Some? ==> p < |s| && IsDigit(s[p]) && r.value == DigitValue(s[p])
  {
    if p < |s| && IsDigit(s[p]) then
      var e := SkipSlashSpace(s, p + 1);
      if e < |s| && s[e] == '5' then Some(DigitValue(s[p])) else None
    else None
  }

  function FirstEngagement(s: string, p: nat): (r: Option<nat>)
    requires p <= |s|
    ensures r.Some? ==> exists q :: p <= q < |s| && EngagementAt(s, q) == r &&
                                    forall j :: p <= j < q ==> EngagementAt(s, j).None?
    ensures r.None? ==> forall j :: p <= j <= |s| ==> EngagementAt(s, j).None?
    decreases |s| - p
  {
    if p == |s| then None
    else if EngagementAt(s, p).Some? then EngagementAt(s, p)
    else FirstEngagement(s, p + 1)
  }

  datatype Engagement = Engagement(score: Option<nat>, maxScore: nat, justification: string)

  /** `_extract_engagement_score`: the digit of the first match, not clamped to the
      maximum; the maximum is always 5 and the justification is the whole text. */
  function ExtractEngagementScore(text: string): (r: Engagement)
    ensures r.maxScore == 5 && r.justification == text
    ensures r.score.Some? ==> r.score.value <= 9 && '5' in text
  {
    var score := FirstEngagement(text, 0);
    if score.Some? then
      MatchNeedsFive(text, 0);
      Engagement(score, 5, text)
    else Engagement(None, 5, text)
  }

  lemma {:induction false} MatchNeedsFive(s: string, p: nat)
    requires p <= |s| && FirstEngagement(s, p).Some?
    ensures '5' in s && FirstEngagement(s, p).value <= 9
    decreases |s| - p
  {
    if EngagementAt(s, p).Some? {
      var e := SkipSlashSpace(s, p + 1);
      assert s[e] == '5';
    } else {
      MatchNeedsFive(s, p + 1);
    }
  }

  /** "<d><slashes or spaces>5" gives d, whatever d is: "9/5" scores 9 out of 5. */
  lemma FractionScore(d: nat, sep: string)
    requires d < 10 && forall k :: 0 <= k < |sep| ==> sep[k] == '/' || sep[k] in Whitespace
    ensures ExtractEngagementScore([DigitChar(d)] + sep + "5").score == Some(d)
  {
    var s := [DigitChar(d)] + sep + "5";
    assert s[|s| - 1] == '5';
    assert forall k :: 1 <= k < |s| - 1 ==> s[k] == sep[k - 1];
    SkipToFive(s, 1);
    assert EngagementAt(s, 0) == Some(d);
  }

  lemma {:induction false} SkipToFive(s: string, q: nat)
    requires 1 <= q < |s| && s[|s| - 1] == '5'
    requires forall k :: q <= k < |s| - 1 ==> s[k] == '/' || s[k] in Whitespace
    ensures SkipSlashSpace(s, q) == |s| - 1
    decreases |s| - q
  {
    if q < |s| - 1 {
      SkipToFive(s, q + 1);
    }
  }
}

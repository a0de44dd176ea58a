/** The browser-side scoring session: one therapist rates every indicator of a grid on a
    0..5 slider, the page keeps the ratings by domain and indicator id, shows weighted
    domain and global percentages, tracks how many indicators are rated, and posts the
    ratings to the server. */
module ScoringSession {
  import opened Wrappers
  import opened Numbers
  import opened MapSums

  /** Domain and indicator ids are the strings of the HTML data attributes. */
  type Id = string

  /** One stored slider reading: the integer position and the indicator's weight. */
  datatype Score = Score(value: int, poids: real)

  type DomainScores = map<Id, Score>
  type Scores = map<Id, DomainScores>

  // ---------------------------------------------------------------------------------
  // Percentages
  // ---------------------------------------------------------------------------------

  /** JavaScript's Math.round: the nearest integer, halves rounded up. */
  function Round(x: real): (r: int)
    ensures x - 0.5 < r as real <= x + 0.5
  {
    (x + 0.5).Floor
  }

  /** A slider reading weighs `value * poids` in the numerator ... */
  function Contribution(s: Score): real { s.value as real * s.poids }

  /** ... and `5 * poids` in the denominator, 5 being the top of the slider. */
  function Mass(s: Score): real { s.poids * 5.0 }

  ghost function DomainTotal(ds: DomainScores): real { SumBy(ds, Contribution) }
  ghost function DomainWeight(ds: DomainScores): real { SumBy(ds, Mass) }

  /** The global figures pool the raw totals and weights of every domain. */
  ghost function GlobalTotal(s: Scores): real { SumBy(s, DomainTotal) }
  ghost function GlobalWeight(s: Scores): real { SumBy(s, DomainWeight) }

  /** `round(total / weight * 100)`, and 0 when the weight is not positive. */
  function Percent(total: real, weight: real): (p: int)
    ensures weight <= 0.0 ==> p == 0
    ensures 0.0 <= total <= weight && weight > 0.0 ==> 0 <= p <= 100
    ensures 0.0 < weight && total == weight ==> p == 100
  {
    if weight > 0.0 then
      assert 0.0 <= total <= weight ==> total / weight <= 1.0 by {
        if 0.0 <= total <= weight { DivAtMostOne(total, weight); }
      }
      assert total == weight ==> total / weight == 1.0 by {
        if total == weight { DivSelf(weight); }
      }
      Round(total / weight * 100.0)
    else 0
  }

  lemma DivSelf(a: real)
    requires a > 0.0
    ensures a / a == 1.0
  {
  }

  lemma DivAtMostOne(a: real, b: real)
    requires 0.0 <= a <= b && b > 0.0
    ensures 0.0 <= a / b <= 1.0
  {
    assert a / b * b == a;
  }

  ghost function DomainPercent(ds: DomainScores): int
  {
    Percent(DomainTotal(ds), DomainWeight(ds))
  }

  ghost function GlobalPercent(s: Scores): int
  {
    Percent(GlobalTotal(s), GlobalWeight(s))
  }

  /** Every stored slider position lies in the slider's range 0..5. */
  ghost predicate InSliderRange(s: Scores)
  {
    forall d, i :: d in s && i in s[d] ==> 0 <= s[d][i].value <= 5
  }

  ghost predicate NonNegativeWeights(s: Scores)
  {
    forall d, i :: d in s && i in s[d] ==> 0.0 <= s[d][i].poids
  }

  lemma DomainBounds(ds: DomainScores)
    requires forall i :: i in ds ==> 0 <= ds[i].value <= 5 && 0.0 <= ds[i].poids
    ensures 0.0 <= DomainTotal(ds) <= DomainWeight(ds)
  {
    forall i | i in ds ensures Contribution(ds[i]) <= Mass(ds[i]) {
      ContributionBelowMass(ds[i]);
    }
    SumByMono(ds, Contribution, Mass);
    SumByNonNegative(ds, Contribution);
  }

  /** A reading in 0..5 contributes at most its full weight times five. */
  lemma ContributionBelowMass(sc: Score)
    requires 0 <= sc.value <= 5 && 0.0 <= sc.poids
    ensures 0.0 <= Contribution(sc) <= Mass(sc)
  {
    var v, p := sc.value as real, sc.poids;
    assert v * p >= 0.0;
    assert v * p <= 5.0 * p by { assert (5.0 - v) * p >= 0.0; }
  }

  /** With slider positions in 0..5 and non-negative weights, a domain badge shows a
      percentage between 0 and 100. */
  lemma DomainPercentBounds(ds: DomainScores)
    requires forall i :: i in ds ==> 0 <= ds[i].value <= 5 && 0.0 <= ds[i].poids
    ensures 0 <= DomainPercent(ds) <= 100
  {
    DomainBounds(ds);
  }

  /** The same holds for the pooled global score. */
  lemma GlobalPercentBounds(s: Scores)
    requires InSliderRange(s) && NonNegativeWeights(s)
    ensures 0 <= GlobalPercent(s) <= 100
  {
    forall d | d in s ensures 0.0 <= DomainTotal(s[d]) <= DomainWeight(s[d]) {
      DomainBounds(s[d]);
    }
    SumByMono(s, DomainTotal, DomainWeight);
    SumByNonNegative(s, DomainTotal);
  }

  /** A reading stored with value 0 adds nothing to the numerator but its full
      `5 * poids` to the denominator, so it pulls the percentage down. */
  lemma ZeroReadingAddsOnlyWeight(ds: DomainScores, i: Id, poids: real)
    requires i !in ds
    ensures DomainTotal(ds[i := Score(0, poids)]) == DomainTotal(ds)
    ensures DomainWeight(ds[i := Score(0, poids)]) == DomainWeight(ds) + 5.0 * poids
  {
    var e := ds[i := Score(0, poids)];
    SumByRemove(e, Contribution, i);
    SumByRemove(e, Mass, i);
    assert e - {i} == ds;
  }

  /** A domain rated 5 everywhere shows 100%. */
  lemma AllTopReadingsGiveHundred(ds: DomainScores)
    requires forall i :: i in ds ==> ds[i].value == 5 && ds[i].poids > 0.0
    requires ds != map[]
    ensures DomainPercent(ds) == 100
  {
    SumByMono(ds, Contribution, Mass);
    SumByMono(ds, Mass, Contribution);
    var i :| i in ds;
    SumByRemove(ds, Mass, i);
    assert forall j :: j in ds - {i} ==> 0.0 <= Mass((ds - {i})[j]);
    SumByNonNegative(ds - {i}, Mass);
  }

  /** The example of the pooled global score: domain D1 = {A: 3 with weight 1, B: 4 with
      weight 2} shows 73% and D2 = {C: 5 with weight 1} shows 100%, the global circle
      shows 80% (16 / 20), while rounding the mean of the two badges would give 87%. */
  lemma PooledNotAveraged()
    ensures var d1 := map["A" := Score(3, 1.0), "B" := Score(4, 2.0)];
            var d2 := map["C" := Score(5, 1.0)];
            var s := map["D1" := d1, "D2" := d2];
            DomainPercent(d1) == 73 && DomainPercent(d2) == 100 && GlobalPercent(s) == 80 &&
            Round((DomainPercent(d1) + DomainPercent(d2)) as real / 2.0) == 87
  {
    var d1 := map["A" := Score(3, 1.0), "B" := Score(4, 2.0)];
    var d2 := map["C" := Score(5, 1.0)];
    var s := map["D1" := d1, "D2" := d2];
    SumByRemove(d1, Contribution, "A");
    SumByRemove(d1, Mass, "A");
    var d1b := d1 - {"A"};
    assert d1b == map["B" := Score(4, 2.0)];
    SumByRemove(d1b, Contribution, "B");
    SumByRemove(d1b, Mass, "B");
    assert d1b - {"B"} == map[];
    assert DomainTotal(d1) == 11.0 && DomainWeight(d1) == 15.0;
    SumByRemove(d2, Contribution, "C");
    SumByRemove(d2, Mass, "C");
    assert d2 - {"C"} == map[];
    assert DomainTotal(d2) == 5.0 && DomainWeight(d2) == 5.0;
    SumByRemove(s, DomainTotal, "D1");
    SumByRemove(s, DomainWeight, "D1");
    var sb := s - {"D1"};
    assert sb == map["D2" := d2];
    SumByRemove(sb, DomainTotal, "D2");
    SumByRemove(sb, DomainWeight, "D2");
    assert sb - {"D2"} == map[];
    assert GlobalTotal(s) == 16.0 && GlobalWeight(s) == 20.0;
  }

  /** The domain badge and the global circle share one colour scale. */
  datatype Band = Green | Amber | Red

  function BandRank(b: Band): nat
  {
    match b
    case Red => 0
    case Amber => 1
    case Green => 2
  }

  /** Green from 80%, amber from 60%, red below. */
  function BandOf(percent: int): (b: Band)
    ensures b == Green <==> 80 <= percent
    ensures b == Red <==> percent < 60
  {
    if percent >= 80 then Green else if percent >= 60 then Amber else Red
  }

  /** A higher percentage never gets a worse colour. */
  lemma BandMonotone(p: int, q: int)
    requires p <= q
    ensures BandRank(BandOf(p)) <= BandRank(BandOf(q))
  {
  }

  // ---------------------------------------------------------------------------------
  // Storing slider readings and counting rated indicators
  // ---------------------------------------------------------------------------------

  /** The reading of (d, i), or 0 when there is none. */
  function PreviousValue(s: Scores, d: Id, i: Id): (v: int)
    ensures (d in s && i in s[d]) ==> v == s[d][i].value
    ensures !(d in s && i in s[d]) ==> v == 0
  {
    if d in s && i in s[d] then s[d][i].value else 0
  }

  /** The entry (d, i) is overwritten, a missing domain is created, and nothing else
      changes. */
  function StoreScore(s: Scores, d: Id, i: Id, sc: Score): (r: Scores)
    ensures r.Keys == s.Keys + {d}
    ensures r[d].Keys == (if d in s then s[d].Keys else {}) + {i}
    ensures r[d][i] == sc
  {
    NestedPut(s, d, i, sc)
  }

  /** Every other reading is left as it was. */
  lemma StoreScoreUnchanged(s: Scores, d: Id, i: Id, sc: Score)
    ensures forall e :: e in s && e != d ==> StoreScore(s, d, i, sc)[e] == s[e]
    ensures forall j :: j in StoreScore(s, d, i, sc)[d] && j != i ==> StoreScore(s, d, i, sc)[d][j] == s[d][j]
  {
  }

  /** Last write wins: a second reading of the same slider replaces the first. */
  lemma StoreScoreOverwrites(s: Scores, d: Id, i: Id, a: Score, b: Score)
    ensures StoreScore(StoreScore(s, d, i, a), d, i, b) == StoreScore(s, d, i, b)
  {
    NestedPutOverwrites(s, d, i, a, b);
  }

  /** Readings of different sliders do not interfere. */
  lemma StoreScoreCommutes(s: Scores, d: Id, i: Id, a: Score, e: Id, j: Id, b: Score)
    requires (d, i) != (e, j)
    ensures StoreScore(StoreScore(s, d, i, a), e, j, b) == StoreScore(StoreScore(s, e, j, b), d, i, a)
  {
    NestedPutCommutes(s, d, i, a, e, j, b);
  }

  /** The store written as the page does it: the domain is created empty if missing,
      then its entry is set. */
  lemma StoreAsUpdates(s: Scores, d: Id, i: Id, sc: Score)
    ensures var s1 := if d in s then s else s[d := map[]];
            s1[d := s1[d][i := sc]] == StoreScore(s, d, i, sc)
  {
    if d !in s {
      var s1 := s[d := map[]];
      assert s1[d] == map[];
      var l, r := s1[d := s1[d][i := sc]], s[d := map[][i := sc]];
      assert l.Keys == r.Keys;
    }
  }

  /** A reading within the slider's range keeps every reading within it. */
  lemma StoreKeepsRange(s: Scores, d: Id, i: Id, sc: Score)
    requires InSliderRange(s) && 0 <= sc.value <= 5
    ensures InSliderRange(StoreScore(s, d, i, sc))
  {
    StoreScoreUnchanged(s, d, i, sc);
  }

  /** The rated indicators: stored readings above 0. */
  ghost function RatedPairs(s: Scores): set<(Id, Id)>
  {
    set d, i | d in s && i in s[d] && s[d][i].value > 0 :: (d, i)
  }

  ghost function RatedCount(s: Scores): nat { |RatedPairs(s)| }

  /** The counter update of the page: 0 to positive counts one more, positive to 0 one
      less, any other change leaves the counter. */
  function CounterDelta(previous: int, value: int): (delta: int)
    ensures previous >= 0 && value >= 0 ==>
              delta == (if value > 0 then 1 else 0) - (if previous > 0 then 1 else 0)
  {
    if previous == 0 && value > 0 then 1
    else if previous > 0 && value == 0 then -1
    else 0
  }

  /** The counter update agrees with the number of rated indicators. */
  lemma RatedCountAfterStore(s: Scores, d: Id, i: Id, sc: Score)
    requires InSliderRange(s) && sc.value >= 0
    ensures RatedCount(StoreScore(s, d, i, sc)) ==
            RatedCount(s) + CounterDelta(PreviousValue(s, d, i), sc.value)
  {
    RatedPairsAfterStore(s, d, i, sc);
    RatedIffPositive(s, d, i);
    CardinalityAfterReplace(RatedPairs(s), (d, i), sc.value > 0);
    assert PreviousValue(s, d, i) >= 0;
  }

  lemma CardinalityAfterReplace<T>(before: set<T>, x: T, keep: bool)
    ensures |before - {x} + (if keep then {x} else {})| ==
            |before| - (if x in before then 1 else 0) + (if keep then 1 else 0)
  {
    var rest := before - {x};
    if x in before {
      assert before == rest + {x};
    } else {
      assert before == rest;
    }
  }

  lemma RatedIffPositive(s: Scores, d: Id, i: Id)
    ensures (d, i) in RatedPairs(s) <==> PreviousValue(s, d, i) > 0
  {
  }

  lemma RatedPairsAfterStore(s: Scores, d: Id, i: Id, sc: Score)
    ensures RatedPairs(StoreScore(s, d, i, sc)) ==
            RatedPairs(s) - {(d, i)} + (if sc.value > 0 then {(d, i)} else {})
  {
    var r := StoreScore(s, d, i, sc);
    StoreScoreUnchanged(s, d, i, sc);
    var want := RatedPairs(s) - {(d, i)} + (if sc.value > 0 then {(d, i)} else {});
    forall p | p in RatedPairs(r) ensures p in want {
      var e, j :| e in r && j in r[e] && r[e][j].value > 0 && p == (e, j);
      if p != (d, i) {
        assert e in s && j in s[e] && s[e][j] == r[e][j];
      }
    }
    forall p | p in want ensures p in RatedPairs(r) {
      if p != (d, i) {
        var e, j :| e in s && j in s[e] && s[e][j].value > 0 && p == (e, j);
        assert r[e][j] == s[e][j];
      }
    }
  }

  /** `poids || 1` in the slider's data attribute: a missing or zero weight becomes 1. */
  function SliderPoids(poids: Option<real>): (r: real)
    ensures r != 0.0
    ensures poids.Some? && poids.value != 0.0 ==> r == poids.value
    ensures poids.None? || poids == Some(0.0) ==> r == 1.0
  {
    match poids
    case Some(p) => if p != 0.0 then p else 1.0
    case None => 1.0
  }

  // ---------------------------------------------------------------------------------
  // The slider reading as written
  // ---------------------------------------------------------------------------------

  /** The tooltip labels of the six slider positions (format.to). */
  const SliderLabels: seq<string> :=
    ["Non observ\U{00E9}", "\U{00C9}mergent", "En cours", "Acquis", "Ma\U{00EE}tris\U{00E9}", "Expert"]

  /** The text the slider's 'update' event hands to the handler at a position of its
      range 0..5 with step 1: format.to's label, which every position has. */
  function SliderText(position: int): string
    requires 0 <= position <= 5
  {
    SliderLabels[position]
  }

  /** parseInt of the handed text is NaN (None) at every position. */
  lemma LabelIsNotANumber(position: int)
    requires 0 <= position <= 5
    ensures ParseIntJs(SliderText(position)) == None
  {
    var s := SliderText(position);
    assert s[0] in {'N', '\U{00C9}', 'E', 'A', 'M'};
    ParseIntJsNoDigit(s);
  }

  /** The counter update as the handler runs it when readings may be NaN (None): the
      stored reading goes through `|| 0`, and NaN is neither above 0 nor equal to 0. */
  function CounterDeltaJs(previous: Option<int>, reading: Option<int>): (delta: int)
    ensures reading.None? ==> delta == 0
    ensures previous.Some? && reading.Some? ==> delta == CounterDelta(previous.value, reading.value)
  {
    var oldValue := if previous.Some? then previous.value else 0;
    match reading
    case None => 0
    case Some(v) => if oldValue == 0 && v > 0 then 1 else if oldValue > 0 && v == 0 then -1 else 0
  }

  /** The counter as written after a run of slider updates, each given as the reading
      stored before it and the position the slider reached. */
  function CounterAfterUpdates(count: int, updates: seq<(Option<int>, int)>): int
    requires forall k :: 0 <= k < |updates| ==> 0 <= updates[k].1 <= 5
  {
    if updates == [] then count
    else
      var (previous, position) := updates[|updates| - 1];
      CounterAfterUpdates(count, updates[..|updates| - 1]) + CounterDeltaJs(previous, ParseIntJs(SliderText(position)))
  }

  /** As written, no run of slider moves ever changes the counter: it stays at 0 from
      the page's start, so the save button, which needs a rated indicator, stays
      disabled. */
  lemma {:induction false} UpdatesNeverCount(count: int, updates: seq<(Option<int>, int)>)
    requires forall k :: 0 <= k < |updates| ==> 0 <= updates[k].1 <= 5
    ensures CounterAfterUpdates(count, updates) == count
  {
    if updates != [] {
      var init := updates[..|updates| - 1];
      assert forall k :: 0 <= k < |init| ==> init[k] == updates[k];
      UpdatesNeverCount(count, init);
      LabelIsNotANumber(updates[|updates| - 1].1);
    }
  }

  /** Moving a fresh slider to "Acquis" (position 3): the code as written counts
      nothing, the numeric reading counts one rated indicator. */
  lemma AcquisNotCounted()
    ensures CounterDeltaJs(None, ParseIntJs(SliderText(3))) == 0
    ensures CounterDelta(0, 3) == 1
  {
    LabelIsNotANumber(3);
  }

  /** Share of rated indicators, in percent, for the progress bar; 0 when the grid has
      no indicator. */
  function Progress(rated: int, total: int): (p: real)
    ensures total <= 0 ==> p == 0.0
    ensures 0 <= rated <= total && total > 0 ==> 0.0 <= p <= 100.0
    ensures 0 < rated == total ==> p == 100.0
  {
    if total > 0 then
      assert 0 <= rated <= total ==> rated as real / total as real <= 1.0 by {
        if 0 <= rated <= total { DivAtMostOne(rated as real, total as real); }
      }
      assert rated == total ==> rated as real / total as real == 1.0 by {
        if rated == total { DivSelf(total as real); }
      }
      rated as real / total as real * 100.0
    else 0.0
  }

  /** What the grid endpoint returns for one domain: its id and its indicators' ids and
      weights. */
  datatype IndicatorView = IndicatorView(id: Id, poids: Option<real>)
  datatype DomainView = DomainView(id: Id, indicateurs: seq<IndicatorView>)

  function TotalIndicators(domaines: seq<DomainView>): (n: nat)
    ensures domaines == [] ==> n == 0
  {
    if domaines == [] then 0
    else TotalIndicators(domaines[..|domaines| - 1]) + |domaines[|domaines| - 1].indicateurs|
  }

  /** Counting the indicators of two lists of domains adds up. */
  lemma {:induction false} TotalIndicatorsAppend(a: seq<DomainView>, b: seq<DomainView>)
    ensures TotalIndicators(a + b) == TotalIndicators(a) + TotalIndicators(b)
    decreases |b|
  {
    if b != [] {
      var b' := b[..|b| - 1];
      assert (a + b)[..|a + b| - 1] == a + b';
      TotalIndicatorsAppend(a, b');
    } else {
      assert a + b == a;
    }
  }

  // ---------------------------------------------------------------------------------
  // Sliders reporting position 0 (binding the 'update' handler, and set(0))
  // ---------------------------------------------------------------------------------

  /** The readings after the first n sliders of domain d each reported position 0. */
  function ZeroDomain(s: Scores, d: DomainView, n: nat): Scores
    requires n <= |d.indicateurs|
  {
    if n == 0 then s
    else
      var ind := d.indicateurs[n - 1];
      StoreScore(ZeroDomain(s, d, n - 1), d.id, ind.id, Score(0, SliderPoids(ind.poids)))
  }

  /** The readings after every slider of the domains, in page order, reported position
      0. */
  function ZeroAll(s: Scores, domaines: seq<DomainView>): Scores
  {
    if domaines == [] then s
    else
      var last := domaines[|domaines| - 1];
      ZeroDomain(ZeroAll(s, domaines[..|domaines| - 1]), last, |last.indicateurs|)
  }

  /** A 0 reading never adds a rated indicator. */
  lemma {:induction false} ZeroDomainRated(s: Scores, d: DomainView, n: nat)
    requires n <= |d.indicateurs|
    ensures RatedPairs(ZeroDomain(s, d, n)) <= RatedPairs(s)
    ensures s.Keys <= ZeroDomain(s, d, n).Keys
    ensures n > 0 ==> d.id in ZeroDomain(s, d, n)
  {
    if n > 0 {
      var ind := d.indicateurs[n - 1];
      ZeroDomainRated(s, d, n - 1);
      ZeroStep(ZeroDomain(s, d, n - 1), d.id, ind.id, SliderPoids(ind.poids));
    }
  }

  /** One 0 reading: no new rated indicator, the keys grow by its domain. */
  lemma ZeroStep(s: Scores, d: Id, i: Id, poids: real)
    ensures RatedPairs(StoreScore(s, d, i, Score(0, poids))) <= RatedPairs(s)
    ensures StoreScore(s, d, i, Score(0, poids)).Keys == s.Keys + {d}
  {
    RatedPairsAfterStore(s, d, i, Score(0, poids));
  }

  /** Reporting 0 on every slider rates nothing new, keeps every domain already stored,
      and stores every domain that has a slider. */
  lemma {:induction false} ZeroAllRated(s: Scores, domaines: seq<DomainView>)
    ensures RatedPairs(ZeroAll(s, domaines)) <= RatedPairs(s)
    ensures s.Keys <= ZeroAll(s, domaines).Keys
    ensures forall k :: 0 <= k < |domaines| && domaines[k].indicateurs != [] ==>
              domaines[k].id in ZeroAll(s, domaines)
  {
    if domaines != [] {
      var init := domaines[..|domaines| - 1];
      var last := domaines[|domaines| - 1];
      ZeroAllRated(s, init);
      ZeroDomainRated(ZeroAll(s, init), last, |last.indicateurs|);
      forall k | 0 <= k < |domaines| && domaines[k].indicateurs != []
        ensures domaines[k].id in ZeroAll(s, domaines)
      {
        if k < |domaines| - 1 {
          assert init[k] == domaines[k];
        }
      }
    }
  }

  /** After a confirmed reset the sliders of a grid with at least one indicator report 0:
      the score map is not empty, so the save goes through, while nothing is rated and
      the save button stays disabled. */
  lemma ResetLeavesUnratedReadings(domaines: seq<DomainView>)
    requires TotalIndicators(domaines) > 0
    ensures ZeroAll(map[], domaines).Keys != {}
    ensures RatedCount(ZeroAll(map[], domaines)) == 0
  {
    SomeIndicatorExists(domaines);
    var k :| 0 <= k < |domaines| && domaines[k].indicateurs != [];
    ZeroAllRated(map[], domaines);
    assert RatedPairs(map[]) == {};
    assert domaines[k].id in ZeroAll(map[], domaines).Keys;
  }

  /** A grid with indicators has a domain with indicators. */
  lemma {:induction false} SomeIndicatorExists(domaines: seq<DomainView>)
    requires TotalIndicators(domaines) > 0
    ensures exists k :: 0 <= k < |domaines| && domaines[k].indicateurs != []
  {
    var init := domaines[..|domaines| - 1];
    if domaines[|domaines| - 1].indicateurs == [] {
      SomeIndicatorExists(init);
      var k :| 0 <= k < |init| && init[k].indicateurs != [];
      assert domaines[k] == init[k];
    }
  }

  /** The body of the save request. */
  datatype Payload = Payload(seanceId: Option<int>, grilleId: Option<int>, scores: Scores,
                             observations: string)

  /** Outcome of a save: refused before any request, or sent with the server's answer. */
  datatype SaveOutcome = Refused | Sent(payload: Payload, saved: bool)

  /** Steps the displayed number one unit towards `end` per tick until it equals `end`,
      checking only after each step: when `start == end` the first tick moves away. */
  method AnimateCounter(start: int, end: int) returns (shown: seq<int>)
    ensures |shown| >= 1 && shown[|shown| - 1] == end
    ensures forall k :: 0 <= k < |shown| - 1 ==> shown[k] != end
    ensures start != end ==> |shown| == if start < end then end - start else start - end
    ensures start != end ==> forall k :: 0 <= k < |shown| ==>
              (if start < end then start < shown[k] <= end else end <= shown[k] < start)
    ensures start == end ==> shown == [end - 1, end]
    ensures shown[0] == start + (if start < end then 1 else -1)
    ensures start != end ==> forall k :: 0 < k < |shown| ==> shown[k] == shown[k - 1] + (if start < end then 1 else -1)
  {
    var current := start;
    current := current + (if current < end then 1 else -1);
    shown := [current];
    while current != end
      invariant |shown| >= 1 && shown[|shown| - 1] == current
      invariant forall k :: 0 <= k < |shown| - 1 ==> shown[k] != end
      invariant start < end ==> start < current <= end && |shown| == current - start
      invariant start > end ==> end <= current < start && |shown| == start - current
      invariant start != end ==> forall k :: 0 <= k < |shown| ==>
                  (if start < end then start < shown[k] <= end else end <= shown[k] < start)
      invariant start == end ==> (current == end - 1 && shown == [end - 1]) || shown == [end - 1, end]
      invariant start != end ==> forall k :: 0 <= k < |shown| ==> shown[k] == StepsFrom(start, end, k + 1)
      decreases if current < end then end - current else current - end
    {
      current := current + (if current < end then 1 else -1);
      shown := shown + [current];
    }
  }

  /** The counter animation with the equality test before each step: nothing moves when
      the value is already shown, and otherwise it walks from `start` to `end` without
      leaving the interval between them. */
  method AnimateCounterGuarded(start: int, end: int) returns (shown: seq<int>)
    ensures start == end ==> shown == []
    ensures start != end ==> |shown| >= 1 && shown[|shown| - 1] == end
    ensures |shown| == if start <= end then end - start else start - end
    ensures forall k :: 0 <= k < |shown| ==>
              (if start <= end then start < shown[k] <= end else end <= shown[k] < start)
    ensures forall k :: 0 <= k < |shown| - 1 ==> shown[k] != end
    ensures |shown| > 0 ==> shown[0] == start + (if start < end then 1 else -1)
    ensures forall k :: 0 < k < |shown| ==> shown[k] == shown[k - 1] + (if start < end then 1 else -1)
  {
    var current := start;
    shown := [];
    while current != end
      invariant shown == [] ==> current == start
      invariant shown != [] ==> shown[|shown| - 1] == current
      invariant forall k :: 0 <= k < |shown| ==> shown[k] != end || k == |shown| - 1
      invariant start <= end ==> start <= current <= end && |shown| == current - start
      invariant start > end ==> end <= current <= start && |shown| == start - current
      invariant forall k :: 0 <= k < |shown| ==>
                  (if start <= end then start < shown[k] <= end else end <= shown[k] < start)
      invariant forall k :: 0 <= k < |shown| ==> shown[k] == StepsFrom(start, end, k + 1)
      decreases if current < end then end - current else current - end
    {
      current := current + (if current < end then 1 else -1);
      shown := shown + [current];
    }
  }

  /** The value n unit steps from `start` in the direction of `end`. */
  function StepsFrom(start: int, end: int, n: nat): int
  {
    if start < end then start + n else start - n
  }

  /** Sums the readings of one domain, as the inner loop of the score update does. */
  method DomainSums(ds: DomainScores) returns (total: real, weight: real)
    ensures total == DomainTotal(ds) && weight == DomainWeight(ds)
  {
    total, weight := 0.0, 0.0;
    var pending := ds.Keys;
    SumByRestrictAll(ds, Contribution);
    SumByRestrictAll(ds, Mass);
    while pending != {}
      invariant pending <= ds.Keys
      invariant total + SumBy(Restrict(ds, pending), Contribution) == DomainTotal(ds)
      invariant weight + SumBy(Restrict(ds, pending), Mass) == DomainWeight(ds)
      decreases pending
    {
      var i :| i in pending;
      SumByStep(ds, Contribution, pending, i);
      SumByStep(ds, Mass, pending, i);
      total := total + ds[i].value as real * ds[i].poids;
      weight := weight + ds[i].poids * 5.0;
      pending := pending - {i};
    }
    assert Restrict(ds, pending) == map[];
  }

  class CotationInterface {
    var currentGrilleId: Option<int>
    var currentScores: Scores
    var totalIndicateurs: int
    var indicateursCotes: int
    var seanceId: Option<int>
    /** The domains whose sliders are on the page, as last rendered. */
    var rendered: seq<DomainView>

    /** Slider positions stay in 0..5 and the counter is the number of rated
        indicators. */
    ghost predicate Valid()
      reads this
    {
      InSliderRange(currentScores) && indicateursCotes == RatedCount(currentScores)
    }

    constructor()
      ensures Valid()
      ensures currentGrilleId == None && seanceId == None
      ensures currentScores == map[] && totalIndicateurs == 0 && indicateursCotes == 0
      ensures rendered == []
    {
      currentGrilleId := None;
      currentScores := map[];
      totalIndicateurs := 0;
      indicateursCotes := 0;
      seanceId := None;
      rendered := [];
      assert RatedPairs(map[]) == {};
    }

    /** Reads the session id from the page's `data-seance-id` attribute, when there is
        one; text that is not a number gives NaN, sent as null. */
    method LoadSeanceData(attribute: Option<string>)
      modifies this
      ensures attribute.Some? ==> seanceId == ParseIntJs(attribute.value)
      ensures attribute.None? ==> seanceId == old(seanceId)
      ensures currentGrilleId == old(currentGrilleId) && currentScores == old(currentScores)
      ensures totalIndicateurs == old(totalIndicateurs) && indicateursCotes == old(indicateursCotes)
      ensures rendered == old(rendered)
    {
      if attribute.Some? {
        seanceId := ParseIntJs(attribute.value);
      }
    }

    /** A checked grid radio button selects its grid. */
    method OnGrilleSelection(checked: bool, value: string)
      modifies this
      ensures currentGrilleId == if checked then ParseIntJs(value) else old(currentGrilleId)
      ensures seanceId == old(seanceId) && currentScores == old(currentScores)
      ensures totalIndicateurs == old(totalIndicateurs) && indicateursCotes == old(indicateursCotes)
      ensures rendered == old(rendered)
    {
      if checked {
        currentGrilleId := ParseIntJs(value);
      }
    }

    /** Rendering a grid recounts its indicators from zero and puts its sliders on the
        page; binding each slider's 'update' handler makes it report its start position
        0 at once. */
    method RenderDomaines(domaines: seq<DomainView>)
      requires Valid()
      modifies this
      ensures Valid()
      ensures totalIndicateurs == TotalIndicators(domaines) && rendered == domaines
      ensures currentScores == ZeroAll(old(currentScores), domaines)
      ensures currentGrilleId == old(currentGrilleId) && seanceId == old(seanceId)
    {
      totalIndicateurs := 0;
      for index := 0 to |domaines|
        invariant totalIndicateurs == TotalIndicators(domaines[..index])
        invariant currentScores == old(currentScores) && indicateursCotes == old(indicateursCotes)
        invariant currentGrilleId == old(currentGrilleId) && seanceId == old(seanceId)
      {
        assert domaines[..index + 1][..index] == domaines[..index];
        totalIndicateurs := totalIndicateurs + |domaines[index].indicateurs|;
      }
      assert domaines[..|domaines|] == domaines;
      rendered := domaines;
      ReportZeroPositions(domaines);
    }

    /** Every slider of the domains, in page order, reports position 0 through
        OnSliderChange, as noUiSlider's 'update' does when the handler is bound and on
        set(0). */
    method ReportZeroPositions(domaines: seq<DomainView>)
      requires Valid()
      modifies this
      ensures Valid()
      ensures currentScores == ZeroAll(old(currentScores), domaines)
      ensures totalIndicateurs == old(totalIndicateurs) && rendered == old(rendered)
      ensures currentGrilleId == old(currentGrilleId) && seanceId == old(seanceId)
    {
      for k := 0 to |domaines|
        invariant Valid()
        invariant currentScores == ZeroAll(old(currentScores), domaines[..k])
        invariant totalIndicateurs == old(totalIndicateurs) && rendered == old(rendered)
        invariant currentGrilleId == old(currentGrilleId) && seanceId == old(seanceId)
      {
        var d := domaines[k];
        ghost var before := currentScores;
        for j := 0 to |d.indicateurs|
          invariant Valid()
          invariant currentScores == ZeroDomain(before, d, j)
          invariant totalIndicateurs == old(totalIndicateurs) && rendered == old(rendered)
          invariant currentGrilleId == old(currentGrilleId) && seanceId == old(seanceId)
        {
          OnSliderChange(d.id, d.indicateurs[j].id, 0, d.indicateurs[j].poids);
        }
        assert domaines[..k + 1][..k] == domaines[..k];
      }
      assert domaines[..|domaines|] == domaines;
    }

    /** The slider of indicator `indicateurId` in domain `domaineId`, rendered with the
        indicator's weight `poids`, reports the position `value` of its range 0..5. */
    method OnSliderChange(domaineId: Id, indicateurId: Id, value: int, poids: Option<real>)
      requires Valid() && 0 <= value <= 5
      modifies this
      ensures Valid()
      ensures currentScores ==
              StoreScore(old(currentScores), domaineId, indicateurId, Score(value, SliderPoids(poids)))
      ensures indicateursCotes ==
              old(indicateursCotes) + CounterDelta(PreviousValue(old(currentScores), domaineId, indicateurId), value)
      ensures totalIndicateurs == old(totalIndicateurs) && rendered == old(rendered)
      ensures currentGrilleId == old(currentGrilleId) && seanceId == old(seanceId)
    {
      ghost var before := currentScores;
      var sc := Score(value, SliderPoids(poids));
      if domaineId !in currentScores {
        currentScores := currentScores[domaineId := map[]];
      }
      var oldValue := if indicateurId in currentScores[domaineId] then currentScores[domaineId][indicateurId].value else 0;
      assert oldValue == PreviousValue(before, domaineId, indicateurId);
      currentScores := currentScores[domaineId := currentScores[domaineId][indicateurId := sc]];
      StoreAsUpdates(before, domaineId, indicateurId, sc);
      if oldValue == 0 && value > 0 {
        indicateursCotes := indicateursCotes + 1;
      } else if oldValue > 0 && value == 0 {
        indicateursCotes := indicateursCotes - 1;
      }
      RatedCountAfterStore(before, domaineId, indicateurId, sc);
      StoreKeepsRange(before, domaineId, indicateurId, sc);
    }

    /** Recomputes every domain badge and the global circle from the stored readings. */
    method UpdateScores() returns (domainPercents: map<Id, int>, globalPercent: int)
      ensures domainPercents.Keys == currentScores.Keys
      ensures forall d :: d in currentScores ==> domainPercents[d] == DomainPercent(currentScores[d])
      ensures globalPercent == GlobalPercent(currentScores)
    {
      var scores := currentScores;
      var totalScore, totalWeight := 0.0, 0.0;
      domainPercents := map[];
      var pending := scores.Keys;
      SumByRestrictAll(scores, DomainTotal);
      SumByRestrictAll(scores, DomainWeight);
      while pending != {}
        invariant pending <= scores.Keys
        invariant domainPercents.Keys == scores.Keys - pending
        invariant forall d :: d in domainPercents ==> domainPercents[d] == DomainPercent(scores[d])
        invariant totalScore + SumBy(Restrict(scores, pending), DomainTotal) == GlobalTotal(scores)
        invariant totalWeight + SumBy(Restrict(scores, pending), DomainWeight) == GlobalWeight(scores)
        decreases pending
      {
        var d :| d in pending;
        SumByLoopStep(scores, DomainTotal, pending, d, totalScore);
        SumByLoopStep(scores, DomainWeight, pending, d, totalWeight);
        MapLoopStep(domainPercents, scores, DomainPercent, pending, d);
        var domaineTotal, domaineWeight := DomainSums(scores[d]);
        var domainePercent := Percent(domaineTotal, domaineWeight);
        domainPercents := domainPercents[d := domainePercent];
        totalScore := totalScore + domaineTotal;
        totalWeight := totalWeight + domaineWeight;
        pending := pending - {d};
      }
      assert Restrict(scores, pending) == map[];
      globalPercent := Percent(totalScore, totalWeight);
    }

    /** Width of the progress bar. */
    function ProgressPercent(): real
      reads this
    {
      Progress(indicateursCotes, totalIndicateurs)
    }

    /** The save button is enabled when some domain has readings and some indicator is
        rated above 0. */
    function SaveEnabled(): bool
      reads this
    {
      |currentScores.Keys| > 0 && indicateursCotes > 0
    }

    /** The save itself refuses only an empty score map. */
    function SaveAllowed(): bool
      reads this
    {
      currentScores.Keys != {}
    }

    /** An enabled button always passes the save's own test. */
    lemma SaveEnabledImpliesAllowed()
      ensures SaveEnabled() ==> SaveAllowed()
    {
    }

    /** Posts the readings. `field` is the observations text area, when the page has
        one, and `serverSuccess` the `success` flag of the reply; a failed request leaves
        the readings as they are. */
    method SaveCotation(field: Option<string>, serverSuccess: bool) returns (outcome: SaveOutcome)
      ensures currentScores.Keys == {} ==> outcome == Refused
      ensures currentScores.Keys != {} ==>
                outcome == Sent(Payload(seanceId, currentGrilleId, currentScores,
                                        if field.Some? then field.value else ""), serverSuccess)
    {
      var observations := if field.Some? then field.value else "";
      if |currentScores.Keys| == 0 {
        return Refused;
      }
      var cotationData := Payload(seanceId, currentGrilleId, currentScores, observations);
      outcome := Sent(cotationData, serverSuccess);
    }

    /** A confirmed reset forgets every reading and zeroes the counter, then sets every
        slider on the page back to 0, and each reports that 0: the map holds a 0 reading
        for every rendered indicator and nothing is rated. A cancelled reset changes
        nothing. */
    method ResetCotation(confirmed: bool)
      requires Valid()
      modifies this
      ensures Valid()
      ensures confirmed ==> currentScores == ZeroAll(map[], rendered) && indicateursCotes == 0
      ensures confirmed && TotalIndicators(rendered) > 0 ==> SaveAllowed() && !SaveEnabled()
      ensures !confirmed ==> currentScores == old(currentScores) && indicateursCotes == old(indicateursCotes)
      ensures totalIndicateurs == old(totalIndicateurs) && rendered == old(rendered)
      ensures currentGrilleId == old(currentGrilleId) && seanceId == old(seanceId)
    {
      if confirmed {
        currentScores := map[];
        indicateursCotes := 0;
        assert RatedPairs(map[]) == {};
        ReportZeroPositions(rendered);
        ZeroAllRated(map[], rendered);
        if TotalIndicators(rendered) > 0 {
          ResetLeavesUnratedReadings(rendered);
        }
      }
    }
  }

  /** The save button can be disabled while the save itself goes through: once a slider
      has reported the position 0, its domain is a key of the score map although nothing
      is rated. */
  lemma SaveGuardWeakerThanButton()
    ensures var s := map["1" := map["7" := Score(0, 1.0)]];
            s.Keys != {} && RatedCount(s) == 0
  {
    var s := map["1" := map["7" := Score(0, 1.0)]];
    assert "1" in s.Keys;
    assert RatedPairs(s) == {} by {
      forall p | p in RatedPairs(s) ensures false {
        var d, i :| d in s && i in s[d] && s[d][i].value > 0 && p == (d, i);
      }
    }
  }
}

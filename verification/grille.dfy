/** The evaluation grid model: its indicator count, the weighted mean of the per-domain
    average ratings, and the weightings a patient assignment uses. */
module Grilles {
  import opened Wrappers
  import opened MapSums
  import opened Stats

  /** One entry of the grid's `domains` dictionary: its `indicators` list, when the
      key is present. */
  datatype DomainData = DomainData(indicators: Option<seq<string>>)

  /** `len(domain_data.get('indicators', []))`. */
  function IndicatorCount(d: DomainData): nat
  {
    if d.indicators.Some? then |d.indicators.value| else 0
  }

  /** The indicator count of the first domains (the dictionary's values, in order). */
  function CountIndicators(domains: seq<DomainData>): nat
  {
    if domains == [] then 0
    else CountIndicators(domains[..|domains| - 1]) + IndicatorCount(domains[|domains| - 1])
  }

  method GetTotalIndicators(domains: seq<DomainData>) returns (total: nat)
    ensures total == CountIndicators(domains)
  {
    total := 0;
    for n := 0 to |domains|
      invariant total == CountIndicators(domains[..n])
    {
      assert domains[..n + 1][..n] == domains[..n];
      var count := if domains[n].indicators.Some? then |domains[n].indicators.value| else 0;
      total := total + count;
    }
    assert domains[..|domains|] == domains;
  }

  /** Counting two lists of domains adds up, and a domain without the key adds
      nothing. */
  lemma {:induction false} CountIndicatorsAppend(a: seq<DomainData>, b: seq<DomainData>)
    ensures CountIndicators(a + b) == CountIndicators(a) + CountIndicators(b)
    decreases |b|
  {
    if b == [] {
      assert a + b == a;
    } else {
      assert (a + b)[..|a + b| - 1] == a + b[..|b| - 1];
      CountIndicatorsAppend(a, b[..|b| - 1]);
    }
  }

  lemma MissingIndicatorsCountZero(a: seq<DomainData>, b: seq<DomainData>)
    ensures CountIndicators(a + [DomainData(None)] + b) == CountIndicators(a + b)
  {
    CountIndicatorsAppend(a + [DomainData(None)], b);
    CountIndicatorsAppend(a, [DomainData(None)]);
    CountIndicatorsAppend(a, b);
    assert [DomainData(None)][..0] == [];
  }

  // ---------------------------------------------------------------------------------
  // Weighted score
  // ---------------------------------------------------------------------------------

  /** The ratings of one domain, by indicator. */
  type DomainRatings = map<string, real>

  function Identity(x: real): real { x }

  /** `sum(domain_scores.values()) / len(domain_scores)`. */
  ghost function Average(r: DomainRatings): real
    requires r != map[]
  {
    SumBy(r, Identity) / |r| as real
  }

  /** Whether a weighted domain contributes: it has ratings and they are not empty. */
  predicate Contributes(ratings: map<string, DomainRatings>, domain: string)
  {
    domain in ratings && ratings[domain] != map[]
  }

  /** The (average, weight) terms of the contributing domains among the first
      weightings (the dictionary's items, in order). */
  ghost function Terms(ratings: map<string, DomainRatings>, w: seq<(string, real)>): seq<(real, real)>
  {
    if w == [] then []
    else
      var (domain, weight) := w[|w| - 1];
      Terms(ratings, w[..|w| - 1]) + (if Contributes(ratings, domain) then [(Average(ratings[domain]), weight)] else [])
  }

  /** The weighted total of the first weightings: each contributing average times its
      weight. */
  ghost function WeightedTotal(ratings: map<string, DomainRatings>, w: seq<(string, real)>): real
  {
    Dot(Terms(ratings, w))
  }

  /** The weight of the contributing domains among the first weightings. */
  ghost function TotalWeight(ratings: map<string, DomainRatings>, w: seq<(string, real)>): real
  {
    WeightSum(Terms(ratings, w))
  }

  /** The two sums, one weighting further. */
  lemma WeightedSnoc(ratings: map<string, DomainRatings>, w: seq<(string, real)>)
    requires w != []
    ensures var init, domain, weight := w[..|w| - 1], w[|w| - 1].0, w[|w| - 1].1;
            if Contributes(ratings, domain) then
              WeightedTotal(ratings, w) == WeightedTotal(ratings, init) + Average(ratings[domain]) * weight &&
              TotalWeight(ratings, w) == TotalWeight(ratings, init) + weight
            else
              Terms(ratings, w) == Terms(ratings, init)
  {
    var init, domain, weight := w[..|w| - 1], w[|w| - 1].0, w[|w| - 1].1;
    if Contributes(ratings, domain) {
      DotSnoc(Terms(ratings, init), (Average(ratings[domain]), weight));
    } else {
      assert Terms(ratings, w) == Terms(ratings, init) + [];
    }
  }

  /** None without ratings or weightings; otherwise the weighted mean of the
      contributing domains' averages, None when their weight is not positive. */
  ghost function WeightedScore(ratings: map<string, DomainRatings>, weightings: Option<seq<(string, real)>>): Option<real>
  {
    if ratings == map[] || weightings.None? || weightings.value == [] then None
    else
      var tw := TotalWeight(ratings, weightings.value);
      if tw > 0.0 then Some(WeightedTotal(ratings, weightings.value) / tw) else None
  }

  /** `sum(m.values())`. */
  method SumValues(m: DomainRatings) returns (s: real)
    ensures s == SumBy(m, Identity)
  {
    s := 0.0;
    var pending := m.Keys;
    SumByRestrictAll(m, Identity);
    while pending != {}
      invariant pending <= m.Keys
      invariant s + SumBy(Restrict(m, pending), Identity) == SumBy(m, Identity)
      decreases pending
    {
      var k :| k in pending;
      SumByStep(m, Identity, pending, k);
      s := s + m[k];
      pending := pending - {k};
    }
    assert Restrict(m, pending) == map[];
  }

  /** The grid's weighted score for a rating dictionary; `weightings` are the grid's
      weightings as (domain, weight) items, None when the column is empty. */
  method CalculateWeightedScore(ratings: map<string, DomainRatings>, weightings: Option<seq<(string, real)>>)
    returns (r: Option<real>)
    ensures r == WeightedScore(ratings, weightings)
  {
    if |ratings| == 0 || weightings.None? || |weightings.value| == 0 {
      return None;
    }
    var w := weightings.value;
    var totalScore, totalWeight := 0.0, 0.0;
    for n := 0 to |w|
      invariant totalScore == WeightedTotal(ratings, w[..n])
      invariant totalWeight == TotalWeight(ratings, w[..n])
    {
      assert w[..n + 1][..n] == w[..n];
      WeightedSnoc(ratings, w[..n + 1]);
      var (domain, weight) := w[n];
      if domain in ratings {
        var domainScores := ratings[domain];
        if |domainScores| > 0 {
          var sum := SumValues(domainScores);
          var avgDomainScore := sum / |domainScores| as real;
          totalScore := totalScore + avgDomainScore * weight;
          totalWeight := totalWeight + weight;
        }
      }
    }
    assert w[..|w|] == w;
    r := if totalWeight > 0.0 then Some(totalScore / totalWeight) else None;
  }

  /** Every contributing domain's average lies in lo..hi. */
  ghost predicate AveragesWithin(ratings: map<string, DomainRatings>, w: seq<(string, real)>, lo: real, hi: real)
  {
    forall n :: 0 <= n < |w| && Contributes(ratings, w[n].0) ==> lo <= Average(ratings[w[n].0]) <= hi
  }

  /** The terms of positive weightings whose contributing averages lie in lo..hi. */
  lemma {:induction false} TermsWithin(ratings: map<string, DomainRatings>, w: seq<(string, real)>, lo: real, hi: real)
    requires AveragesWithin(ratings, w, lo, hi)
    requires forall n :: 0 <= n < |w| ==> w[n].1 > 0.0
    ensures forall n :: 0 <= n < |Terms(ratings, w)| ==> TermWithin(Terms(ratings, w)[n], lo, hi)
    decreases |w|
  {
    if w != [] {
      var init := w[..|w| - 1];
      assert forall n :: 0 <= n < |init| ==> init[n] == w[n];
      TermsWithin(ratings, init, lo, hi);
      var (domain, weight) := w[|w| - 1];
      assert Contributes(ratings, domain) ==> lo <= Average(ratings[domain]) <= hi && weight > 0.0;
      var xs, ys := Terms(ratings, w), Terms(ratings, init);
      forall n | 0 <= n < |xs|
        ensures TermWithin(xs[n], lo, hi)
      {
        if n < |ys| {
          assert xs[n] == ys[n];
        }
      }
    }
  }

  /** With positive weights the score is a weighted mean: it lies between the smallest
      and the largest average of the contributing domains. */
  lemma WeightedScoreIsMean(ratings: map<string, DomainRatings>, weightings: seq<(string, real)>, lo: real, hi: real)
    requires AveragesWithin(ratings, weightings, lo, hi)
    requires forall n :: 0 <= n < |weightings| ==> weightings[n].1 > 0.0
    requires WeightedScore(ratings, Some(weightings)).Some?
    ensures lo <= WeightedScore(ratings, Some(weightings)).value <= hi
  {
    TermsWithin(ratings, weightings, lo, hi);
    DotBetween(Terms(ratings, weightings), lo, hi);
    DivideBetween(WeightedTotal(ratings, weightings), TotalWeight(ratings, weightings), lo, hi);
  }

  lemma {:induction false} PositiveWeightIffContributor(ratings: map<string, DomainRatings>, w: seq<(string, real)>)
    requires forall n :: 0 <= n < |w| ==> w[n].1 > 0.0
    ensures TotalWeight(ratings, w) >= 0.0
    ensures TotalWeight(ratings, w) > 0.0 <==> exists n :: 0 <= n < |w| && Contributes(ratings, w[n].0)
    decreases |w|
  {
    if w != [] {
      var init := w[..|w| - 1];
      PositiveWeightIffContributor(ratings, init);
      WeightedSnoc(ratings, w);
      if exists n :: 0 <= n < |init| && Contributes(ratings, init[n].0) {
        var n :| 0 <= n < |init| && Contributes(ratings, init[n].0);
        assert w[n] == init[n];
      }
      if exists n :: 0 <= n < |w| && Contributes(ratings, w[n].0) {
        var n :| 0 <= n < |w| && Contributes(ratings, w[n].0);
        if n < |init| {
          assert init[n] == w[n];
        }
      }
    }
  }

  /** With positive weights there is a score exactly when there are ratings and some
      weighted domain has non-empty ratings. */
  lemma WeightedScoreDefinedIff(ratings: map<string, DomainRatings>, weightings: seq<(string, real)>)
    requires forall n :: 0 <= n < |weightings| ==> weightings[n].1 > 0.0
    ensures WeightedScore(ratings, Some(weightings)).Some? <==>
            ratings != map[] && exists n :: 0 <= n < |weightings| && Contributes(ratings, weightings[n].0)
  {
    PositiveWeightIffContributor(ratings, weightings);
  }

  /** Ratings of a domain without a weighting add no term, so they change neither sum. */
  lemma {:induction false} UnweightedIgnoredTotals(ratings: map<string, DomainRatings>, w: seq<(string, real)>, domain: string, extra: DomainRatings)
    requires forall n :: 0 <= n < |w| ==> w[n].0 != domain
    ensures Terms(ratings[domain := extra], w) == Terms(ratings, w)
    decreases |w|
  {
    if w != [] {
      var init := w[..|w| - 1];
      assert forall n :: 0 <= n < |init| ==> init[n] == w[n];
      UnweightedIgnoredTotals(ratings, init, domain, extra);
    }
  }

  /** Ratings of a domain that has no weight change nothing, once there are ratings. */
  lemma UnweightedDomainIgnored(ratings: map<string, DomainRatings>, weightings: Option<seq<(string, real)>>, domain: string, extra: DomainRatings)
    requires ratings != map[]
    requires weightings.Some? ==> forall n :: 0 <= n < |weightings.value| ==> weightings.value[n].0 != domain
    ensures WeightedScore(ratings[domain := extra], weightings) == WeightedScore(ratings, weightings)
  {
    if weightings.Some? {
      UnweightedIgnoredTotals(ratings, weightings.value, domain, extra);
    }
  }

  // ---------------------------------------------------------------------------------
  // Assignment weightings
  // ---------------------------------------------------------------------------------

  /** The patient's own weightings when they are set and not empty, else the grid's. */
  function GetEffectiveWeightings(custom: Option<map<string, real>>, grid: Option<map<string, real>>): (r: Option<map<string, real>>)
    ensures custom.Some? && custom.value != map[] ==> r == custom
    ensures custom.None? || custom.value == map[] ==> r == grid
  {
    if custom.Some? && custom.value != map[] then custom else grid
  }

  /** Choosing the effective weightings twice changes nothing: custom weightings that
      were chosen are chosen again. */
  lemma EffectiveWeightingsStable(custom: Option<map<string, real>>, grid: Option<map<string, real>>)
    ensures GetEffectiveWeightings(GetEffectiveWeightings(custom, grid), grid) == GetEffectiveWeightings(custom, grid)
  {
  }
}

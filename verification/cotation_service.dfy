/** The score calculation of the grid service. It reads the same flat score dictionary
    as the stateless calculator, but a domain takes part only when its own name is a key
    of the dictionary, and a value that is not a number is an uncaught error. */
module CotationService {
  import opened Wrappers
  import opened Numbers
  import CalculCotation

  /** An indicator of a stored grid; `nom` and `max` are required keys. */
  datatype Indicateur = Indicateur(nom: string, max: Scalar)

  datatype Domaine = Domaine(nom: string, indicateurs: seq<Indicateur>)

  /** The exception that float() raises: on the score stored under `key`, or on the
      `max` of indicator `indicateur`. */
  datatype CalcError = ScoreNotNumeric(key: string) | MaxNotNumeric(indicateur: string)

  datatype Totals = Totals(total: real, maxTotal: real)

  function Key(d: Domaine, ind: Indicateur): string
  {
    d.nom + "_" + ind.nom
  }

  /** One indicator's step: its score when its key is present, and its maximum. */
  function IndicatorStep(t: Totals, d: Domaine, ind: Indicateur, scores: CalculCotation.ScoreMap): Result<Totals, CalcError>
  {
    var key := Key(d, ind);
    if key in scores && ToFloat(scores[key]).None? then Err(ScoreNotNumeric(key))
    else
      var total := if key in scores then t.total + ToFloat(scores[key]).value else t.total;
      if ToFloat(ind.max).None? then Err(MaxNotNumeric(ind.nom))
      else Ok(Totals(total, t.maxTotal + ToFloat(ind.max).value))
  }

  /** The totals after the first indicators of a domain, or the first error. */
  function IndicatorsTotals(t: Totals, d: Domaine, inds: seq<Indicateur>, scores: CalculCotation.ScoreMap): Result<Totals, CalcError>
  {
    if inds == [] then Ok(t)
    else
      match IndicatorsTotals(t, d, inds[..|inds| - 1], scores)
      case Err(e) => Err(e)
      case Ok(u) => IndicatorStep(u, d, inds[|inds| - 1], scores)
  }

  /** The totals after the first domains, or the first error; a domain whose name is
      not a key of the scores is passed over. */
  function DomainsTotals(ds: seq<Domaine>, scores: CalculCotation.ScoreMap): Result<Totals, CalcError>
  {
    if ds == [] then Ok(Totals(0.0, 0.0))
    else
      match DomainsTotals(ds[..|ds| - 1], scores)
      case Err(e) => Err(e)
      case Ok(t) =>
        var d := ds[|ds| - 1];
        if d.nom in scores then IndicatorsTotals(t, d, d.indicateurs, scores) else Ok(t)
  }

  /** (score obtained, possible score, percentage), or the float() error. */
  method CalculerScoreGlobal(scores: CalculCotation.ScoreMap, domaines: seq<Domaine>)
    returns (r: Result<(real, real, real), CalcError>)
    ensures DomainsTotals(domaines, scores).Err? ==> r == Err(DomainsTotals(domaines, scores).error)
    ensures DomainsTotals(domaines, scores).Ok? ==>
              var t := DomainsTotals(domaines, scores).value;
              r == Ok((t.total, t.maxTotal, CalculCotation.Pct(t.total, t.maxTotal)))
  {
    var scoreTotal, scoreMaxTotal := 0.0, 0.0;
    for n := 0 to |domaines|
      invariant DomainsTotals(domaines[..n], scores) == Ok(Totals(scoreTotal, scoreMaxTotal))
    {
      assert domaines[..n + 1][..n] == domaines[..n];
      var domaine := domaines[n];
      if domaine.nom in scores {
        var u := AddDomainScores(Totals(scoreTotal, scoreMaxTotal), domaine, scores);
        if u.Err? {
          DomainsErrorSticks(domaines, n + 1, scores);
          return Err(u.error);
        }
        scoreTotal, scoreMaxTotal := u.value.total, u.value.maxTotal;
      }
    }
    assert domaines[..|domaines|] == domaines;
    var pourcentage := if scoreMaxTotal > 0.0 then scoreTotal / scoreMaxTotal * 100.0 else 0.0;
    r := Ok((scoreTotal, scoreMaxTotal, pourcentage));
  }

  /** The inner loop over a domain's indicators, from the running totals `t`. */
  method AddDomainScores(t: Totals, domaine: Domaine, scores: CalculCotation.ScoreMap) returns (r: Result<Totals, CalcError>)
    ensures r == IndicatorsTotals(t, domaine, domaine.indicateurs, scores)
  {
    var scoreTotal, scoreMaxTotal := t.total, t.maxTotal;
    var indicateurs := domaine.indicateurs;
    for k := 0 to |indicateurs|
      invariant IndicatorsTotals(t, domaine, indicateurs[..k], scores) == Ok(Totals(scoreTotal, scoreMaxTotal))
    {
      IndicatorsTotalsSnoc(t, domaine, indicateurs, k, scores);
      var cle := Key(domaine, indicateurs[k]);
      if cle in scores {
        var v := ToFloat(scores[cle]);
        if v.None? {
          IndicatorsErrorSticks(t, domaine, indicateurs, k + 1, scores);
          return Err(ScoreNotNumeric(cle));
        }
        scoreTotal := scoreTotal + v.value;
      }
      var m := ToFloat(indicateurs[k].max);
      if m.None? {
        IndicatorsErrorSticks(t, domaine, indicateurs, k + 1, scores);
        return Err(MaxNotNumeric(indicateurs[k].nom));
      }
      scoreMaxTotal := scoreMaxTotal + m.value;
    }
    assert indicateurs[..|indicateurs|] == indicateurs;
    r := Ok(Totals(scoreTotal, scoreMaxTotal));
  }

  lemma IndicatorsTotalsSnoc(t: Totals, d: Domaine, inds: seq<Indicateur>, k: nat, scores: CalculCotation.ScoreMap)
    requires k < |inds|
    ensures IndicatorsTotals(t, d, inds[..k + 1], scores) ==
              match IndicatorsTotals(t, d, inds[..k], scores)
              case Err(e) => Err(e)
              case Ok(u) => IndicatorStep(u, d, inds[k], scores)
  {
    assert inds[..k + 1][..k] == inds[..k];
  }

  /** An error inside the last domain of a prefix is the error of the whole list. */
  lemma PrefixErrorPropagates(ds: seq<Domaine>, n: nat, scores: CalculCotation.ScoreMap, start: Totals, k: nat)
    requires 1 <= n <= |ds| && ds[n - 1].nom in scores && k <= |ds[n - 1].indicateurs|
    requires DomainsTotals(ds[..n - 1], scores) == Ok(start)
    requires IndicatorsTotals(start, ds[n - 1], ds[n - 1].indicateurs[..k], scores).Err?
    ensures DomainsTotals(ds, scores) == Err(IndicatorsTotals(start, ds[n - 1], ds[n - 1].indicateurs[..k], scores).error)
  {
    var d := ds[n - 1];
    var e := IndicatorsTotals(start, d, d.indicateurs[..k], scores).error;
    IndicatorsErrorSticks(start, d, d.indicateurs, k, scores);
    assert ds[..n][..n - 1] == ds[..n - 1];
    DomainsErrorSticks(ds, n, scores);
  }

  lemma {:induction false} IndicatorsErrorSticks(t: Totals, d: Domaine, inds: seq<Indicateur>, k: nat, scores: CalculCotation.ScoreMap)
    requires k <= |inds| && IndicatorsTotals(t, d, inds[..k], scores).Err?
    ensures IndicatorsTotals(t, d, inds, scores) == IndicatorsTotals(t, d, inds[..k], scores)
    decreases |inds| - k
  {
    if k < |inds| {
      assert inds[..k + 1][..k] == inds[..k];
      IndicatorsErrorSticks(t, d, inds, k + 1, scores);
    } else {
      assert inds[..k] == inds;
    }
  }

  lemma {:induction false} DomainsErrorSticks(ds: seq<Domaine>, n: nat, scores: CalculCotation.ScoreMap)
    requires n <= |ds| && DomainsTotals(ds[..n], scores).Err?
    ensures DomainsTotals(ds, scores) == DomainsTotals(ds[..n], scores)
    decreases |ds| - n
  {
    if n < |ds| {
      assert ds[..n + 1][..n] == ds[..n];
      DomainsErrorSticks(ds, n + 1, scores);
    } else {
      assert ds[..n] == ds;
    }
  }

  // ---------------------------------------------------------------------------------
  // Relation with the stateless calculator
  // ---------------------------------------------------------------------------------

  function AsIndicateur(ind: Indicateur): CalculCotation.Indicateur
  {
    CalculCotation.Indicateur(Some(ind.nom), Some(ind.max))
  }

  function AsIndicateurs(inds: seq<Indicateur>): (r: seq<CalculCotation.Indicateur>)
    ensures |r| == |inds|
  {
    if inds == [] then [] else AsIndicateurs(inds[..|inds| - 1]) + [AsIndicateur(inds[|inds| - 1])]
  }

  /** A grid domain as the stateless calculator sees it. */
  function AsDomaine(d: Domaine): CalculCotation.Domaine
  {
    CalculCotation.Domaine(Some(d.nom), Some(AsIndicateurs(d.indicateurs)))
  }

  function AsDomaines(ds: seq<Domaine>): (r: seq<CalculCotation.Domaine>)
    ensures |r| == |ds|
  {
    if ds == [] then [] else AsDomaines(ds[..|ds| - 1]) + [AsDomaine(ds[|ds| - 1])]
  }

  /** Every value the computation reads is a number. */
  ghost predicate NumericIndicators(d: Domaine, inds: seq<Indicateur>, scores: CalculCotation.ScoreMap)
  {
    forall k :: 0 <= k < |inds| ==>
      (ToFloat(inds[k].max).Some? &&
       (Key(d, inds[k]) in scores ==> ToFloat(scores[Key(d, inds[k])]).Some?))
  }

  /** ... and every domain name is a key. */
  ghost predicate WellFormed(ds: seq<Domaine>, scores: CalculCotation.ScoreMap)
  {
    forall n :: 0 <= n < |ds| ==> (ds[n].nom in scores && NumericIndicators(ds[n], ds[n].indicateurs, scores))
  }

  /** The calculator's two per-indicator contributions, summed over the grid's own
      indicators. */
  function ObtainedSum(d: Domaine, inds: seq<Indicateur>, scores: CalculCotation.ScoreMap): real
  {
    if inds == [] then 0.0
    else ObtainedSum(d, inds[..|inds| - 1], scores) + CalculCotation.Obtained(Key(d, inds[|inds| - 1]), scores)
  }

  function PossibleSum(inds: seq<Indicateur>): real
  {
    if inds == [] then 0.0 else PossibleSum(inds[..|inds| - 1]) + CalculCotation.Possible(AsIndicateur(inds[|inds| - 1]))
  }

  /** When every value read is a number, the inner loop adds up those contributions. */
  lemma {:induction false} IndicatorsSum(t: Totals, d: Domaine, inds: seq<Indicateur>, scores: CalculCotation.ScoreMap)
    requires NumericIndicators(d, inds, scores)
    ensures IndicatorsTotals(t, d, inds, scores) ==
              Ok(Totals(t.total + ObtainedSum(d, inds, scores), t.maxTotal + PossibleSum(inds)))
    decreases |inds|
  {
    if inds != [] {
      var init, last := inds[..|inds| - 1], inds[|inds| - 1];
      NumericPrefix(d, inds, scores);
      IndicatorsSum(t, d, init, scores);
      TotalsSnoc(t, d, inds, scores);
      StepAgrees(IndicatorsTotals(t, d, init, scores).value, d, last, scores);
    }
  }

  /** The calculator's sums over the converted indicators are the same sums. */
  lemma {:induction false} SumsAsCalculator(d: Domaine, cd: CalculCotation.Domaine, inds: seq<Indicateur>, scores: CalculCotation.ScoreMap)
    requires cd.nom == Some(d.nom)
    ensures CalculCotation.IndicatorsObtained(cd, AsIndicateurs(inds), scores) == ObtainedSum(d, inds, scores)
    ensures CalculCotation.IndicatorsPossible(AsIndicateurs(inds)) == PossibleSum(inds)
    decreases |inds|
  {
    if inds != [] {
      SumsAsCalculator(d, cd, inds[..|inds| - 1], scores);
      CalculatorSnoc(cd, d, inds, scores);
    }
  }

  lemma IndicatorsAgree(t: Totals, d: Domaine, cd: CalculCotation.Domaine, inds: seq<Indicateur>, scores: CalculCotation.ScoreMap)
    requires cd.nom == Some(d.nom) && NumericIndicators(d, inds, scores)
    ensures IndicatorsTotals(t, d, inds, scores) ==
              Ok(Totals(t.total + CalculCotation.IndicatorsObtained(cd, AsIndicateurs(inds), scores),
                        t.maxTotal + CalculCotation.IndicatorsPossible(AsIndicateurs(inds))))
  {
    IndicatorsSum(t, d, inds, scores);
    SumsAsCalculator(d, cd, inds, scores);
  }

  /** The grid service's totals over a non-empty list: those over all but the last
      indicator, followed by the last one's step. */
  lemma TotalsSnoc(t: Totals, d: Domaine, inds: seq<Indicateur>, scores: CalculCotation.ScoreMap)
    requires inds != [] && IndicatorsTotals(t, d, inds[..|inds| - 1], scores).Ok?
    ensures IndicatorsTotals(t, d, inds, scores) ==
              IndicatorStep(IndicatorsTotals(t, d, inds[..|inds| - 1], scores).value, d, inds[|inds| - 1], scores)
  {
  }

  lemma NumericPrefix(d: Domaine, inds: seq<Indicateur>, scores: CalculCotation.ScoreMap)
    requires inds != [] && NumericIndicators(d, inds, scores)
    ensures NumericIndicators(d, inds[..|inds| - 1], scores)
    ensures ToFloat(inds[|inds| - 1].max).Some?
    ensures Key(d, inds[|inds| - 1]) in scores ==> ToFloat(scores[Key(d, inds[|inds| - 1])]).Some?
  {
    var init := inds[..|inds| - 1];
    forall k | 0 <= k < |init| ensures init[k] == inds[k] { }
  }

  /** The calculator's sums over converted indicators, one indicator at a time. */
  lemma CalculatorSnoc(cd: CalculCotation.Domaine, d: Domaine, inds: seq<Indicateur>, scores: CalculCotation.ScoreMap)
    requires cd.nom == Some(d.nom) && inds != []
    ensures var init, last := inds[..|inds| - 1], inds[|inds| - 1];
            CalculCotation.IndicatorsObtained(cd, AsIndicateurs(inds), scores) ==
              CalculCotation.IndicatorsObtained(cd, AsIndicateurs(init), scores) + CalculCotation.Obtained(Key(d, last), scores) &&
            CalculCotation.IndicatorsPossible(AsIndicateurs(inds)) ==
              CalculCotation.IndicatorsPossible(AsIndicateurs(init)) + CalculCotation.Possible(AsIndicateur(last))
  {
    var c := AsIndicateurs(inds);
    assert c[..|c| - 1] == AsIndicateurs(inds[..|inds| - 1]);
    assert CalculCotation.Key(cd, AsIndicateur(inds[|inds| - 1])) == Key(d, inds[|inds| - 1]);
  }

  lemma StepAgrees(u: Totals, d: Domaine, ind: Indicateur, scores: CalculCotation.ScoreMap)
    requires ToFloat(ind.max).Some? && (Key(d, ind) in scores ==> ToFloat(scores[Key(d, ind)]).Some?)
    ensures IndicatorStep(u, d, ind, scores) ==
            Ok(Totals(u.total + CalculCotation.Obtained(Key(d, ind), scores),
                      u.maxTotal + CalculCotation.Possible(AsIndicateur(ind))))
  {
  }

  /** When every domain name is a key of the scores and every value read is a number,
      the grid service and the stateless calculator give the same totals. */
  lemma {:induction false} AgreesWithCalculator(ds: seq<Domaine>, scores: CalculCotation.ScoreMap)
    requires WellFormed(ds, scores)
    ensures DomainsTotals(ds, scores) ==
            Ok(Totals(CalculCotation.TotalObtained(AsDomaines(ds), scores), CalculCotation.TotalPossible(AsDomaines(ds))))
    decreases |ds|
  {
    if ds != [] {
      var init := ds[..|ds| - 1];
      var d := ds[|ds| - 1];
      assert WellFormed(init, scores) by {
        forall n | 0 <= n < |init| ensures init[n] == ds[n] { }
      }
      AgreesWithCalculator(init, scores);
      var c := AsDomaines(ds);
      assert c[..|c| - 1] == AsDomaines(init);
      assert c[|c| - 1] == AsDomaine(d);
      var t := DomainsTotals(init, scores).value;
      assert d.nom in scores && NumericIndicators(d, d.indicateurs, scores);
      IndicatorsAgree(t, d, AsDomaine(d), d.indicateurs, scores);
    }
  }

  /** The two services disagree on a domain whose name is not itself a score key: the
      stateless calculator counts 3 out of 5, the grid service nothing at all. */
  lemma DomainNameGatesScores()
    ensures var ds := [Domaine("Engagement", [Indicateur("Attention", Num(5.0))])];
            var scores := map["Engagement_Attention" := Num(3.0)];
            DomainsTotals(ds, scores) == Ok(Totals(0.0, 0.0)) &&
            CalculCotation.TotalObtained(AsDomaines(ds), scores) == 3.0 &&
            CalculCotation.TotalPossible(AsDomaines(ds)) == 5.0
  {
    var ds := [Domaine("Engagement", [Indicateur("Attention", Num(5.0))])];
    var scores := map["Engagement_Attention" := Num(3.0)];
    var d := ds[0];
    assert "Engagement" !in scores by {
      assert "Engagement" != "Engagement_Attention" by {
        assert |"Engagement"| != |"Engagement_Attention"|;
      }
    }
    assert ds[..0] == [];
    var cd := AsDomaine(d);
    var cinds := CalculCotation.IndicateursOf(cd);
    assert cinds == [AsIndicateur(d.indicateurs[0])] by {
      assert d.indicateurs[..0] == [];
    }
    assert cinds[..0] == [];
    assert CalculCotation.Key(cd, cinds[0]) == "Engagement_Attention";
    assert CalculCotation.IndicatorsObtained(cd, cinds, scores) == 3.0;
    assert CalculCotation.IndicatorsPossible(cinds) == 5.0;
    assert AsDomaines(ds) == [cd];
    assert [cd][..0] == [];
  }

  /** A non-numeric score of a taking-part domain is an error, where the stateless
      calculator would skip it. */
  lemma NonNumericScoreFails(d: Domaine, scores: CalculCotation.ScoreMap)
    requires d.nom in scores && |d.indicateurs| == 1
    requires Key(d, d.indicateurs[0]) in scores && ToFloat(scores[Key(d, d.indicateurs[0])]).None?
    ensures DomainsTotals([d], scores) == Err(ScoreNotNumeric(Key(d, d.indicateurs[0])))
  {
    assert [d][..0] == [] && [d][0] == d;
    assert d.indicateurs[..0] == [];
    assert IndicatorsTotals(Totals(0.0, 0.0), d, d.indicateurs, scores) == Err(ScoreNotNumeric(Key(d, d.indicateurs[0])));
  }

  /** With non-negative values no greater than their maximum, the percentage lies in
      0..100. */
  lemma {:induction false} IndicatorsWithinMax(t: Totals, d: Domaine, inds: seq<Indicateur>, scores: CalculCotation.ScoreMap)
    requires 0.0 <= t.total <= t.maxTotal
    requires forall k :: 0 <= k < |inds| ==>
               (ToFloat(inds[k].max).Some? &&
                (Key(d, inds[k]) in scores ==>
                   (ToFloat(scores[Key(d, inds[k])]).Some? &&
                    0.0 <= ToFloat(scores[Key(d, inds[k])]).value <= ToFloat(inds[k].max).value)))
    requires forall k :: 0 <= k < |inds| ==> 0.0 <= ToFloat(inds[k].max).value
    ensures IndicatorsTotals(t, d, inds, scores).Ok?
    ensures var u := IndicatorsTotals(t, d, inds, scores).value; 0.0 <= u.total <= u.maxTotal
    decreases |inds|
  {
    if inds != [] {
      IndicatorsWithinMax(t, d, inds[..|inds| - 1], scores);
    }
  }
}

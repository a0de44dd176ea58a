/** The stateless score calculator: a grid configuration (domains, each with
    indicators and their maximum) and the flat score dictionary keyed by
    "<domain>_<indicator>" give the obtained total, the possible total and the
    percentage. Non-numeric values are skipped. */
module CalculCotation {
  import opened Wrappers
  import opened Numbers

  /** An indicator of the configuration: its `nom` and its `max`, when present. */
  datatype Indicateur = Indicateur(nom: Option<string>, max: Option<Scalar>)

  /** A domain: its `nom`, and its `indicateurs` list when the key holds a non-empty
      list (a missing key, None and [] all read as no indicator). */
  datatype Domaine = Domaine(nom: Option<string>, indicateurs: Option<seq<Indicateur>>)

  /** What the grid stores: an already decoded list, a JSON text (with its decoding,
      None when it does not decode), or anything else. */
  datatype DomainesConfig = AsList(items: seq<Domaine>) | AsText(decoded: Option<seq<Domaine>>) | Other

  /** The flat score dictionary. */
  type ScoreMap = map<string, Scalar>

  /** The domains of a configuration: a list as it is, a decodable text decoded, anything
      else none. */
  function ExtraireDomaines(config: DomainesConfig): (r: seq<Domaine>)
    ensures config.AsList? ==> r == config.items
    ensures config.AsText? && config.decoded.Some? ==> r == config.decoded.value
    ensures config.Other? || config == AsText(None) ==> r == []
  {
    match config
    case AsList(items) => items
    case AsText(decoded) => if decoded.Some? then decoded.value else []
    case Other => []
  }

  /** Python's f"{x}" of a name that may be None. */
  function Render(nom: Option<string>): string
  {
    if nom.Some? then nom.value else "None"
  }

  /** The score key of an indicator in its domain. */
  function Key(d: Domaine, ind: Indicateur): string
  {
    Render(d.nom) + "_" + Render(ind.nom)
  }

  function IndicateursOf(d: Domaine): seq<Indicateur>
  {
    if d.indicateurs.Some? then d.indicateurs.value else []
  }

  /** What an indicator adds to the obtained total: its numeric score, else 0. */
  function Obtained(key: string, scores: ScoreMap): real
  {
    if key in scores && ToFloat(scores[key]).Some? then ToFloat(scores[key]).value else 0.0
  }

  /** What an indicator adds to the possible total: its numeric `max`, else 0. */
  function Possible(ind: Indicateur): real
  {
    var m := if ind.max.Some? then ind.max.value else Num(0.0);
    if ToFloat(m).Some? then ToFloat(m).value else 0.0
  }

  function IndicatorsObtained(d: Domaine, inds: seq<Indicateur>, scores: ScoreMap): real
  {
    if inds == [] then 0.0
    else IndicatorsObtained(d, inds[..|inds| - 1], scores) + Obtained(Key(d, inds[|inds| - 1]), scores)
  }

  function IndicatorsPossible(inds: seq<Indicateur>): real
  {
    if inds == [] then 0.0 else IndicatorsPossible(inds[..|inds| - 1]) + Possible(inds[|inds| - 1])
  }

  function TotalObtained(ds: seq<Domaine>, scores: ScoreMap): real
  {
    if ds == [] then 0.0
    else
      var d := ds[|ds| - 1];
      TotalObtained(ds[..|ds| - 1], scores) + IndicatorsObtained(d, IndicateursOf(d), scores)
  }

  function TotalPossible(ds: seq<Domaine>): real
  {
    if ds == [] then 0.0
    else TotalPossible(ds[..|ds| - 1]) + IndicatorsPossible(IndicateursOf(ds[|ds| - 1]))
  }

  /** `total / max_total * 100`, or 0.0 when the possible total is not positive. */
  function Pct(total: real, maxTotal: real): (p: real)
    ensures maxTotal <= 0.0 ==> p == 0.0
    ensures maxTotal > 0.0 && 0.0 <= total <= maxTotal ==> 0.0 <= p <= 100.0
  {
    if maxTotal > 0.0 then
      assert 0.0 <= total <= maxTotal ==> total / maxTotal <= 1.0 by {
        if 0.0 <= total <= maxTotal { assert total / maxTotal * maxTotal == total; }
      }
      total / maxTotal * 100.0
    else 0.0
  }

  /** The obtained total, the possible total and the percentage of a configuration. */
  method CalculerScoreGlobal(config: DomainesConfig, scores: ScoreMap)
    returns (total: real, maxTotal: real, pct: real)
    ensures var ds := ExtraireDomaines(config);
            total == TotalObtained(ds, scores) && maxTotal == TotalPossible(ds)
    ensures pct == Pct(total, maxTotal)
  {
    var domaines := ExtraireDomaines(config);
    total, maxTotal := 0.0, 0.0;
    for n := 0 to |domaines|
      invariant total == TotalObtained(domaines[..n], scores)
      invariant maxTotal == TotalPossible(domaines[..n])
    {
      TotalsSnoc(domaines, n, scores);
      total, maxTotal := AddIndicators(domaines[n], scores, total, maxTotal);
    }
    assert domaines[..|domaines|] == domaines;
    pct := if maxTotal > 0.0 then total / maxTotal * 100.0 else 0.0;
  }

  /** The inner loop over one domain's indicators, from the running totals. */
  method AddIndicators(domaine: Domaine, scores: ScoreMap, total0: real, maxTotal0: real)
    returns (total: real, maxTotal: real)
    ensures total == total0 + IndicatorsObtained(domaine, IndicateursOf(domaine), scores)
    ensures maxTotal == maxTotal0 + IndicatorsPossible(IndicateursOf(domaine))
  {
    var inds := IndicateursOf(domaine);
    total, maxTotal := total0, maxTotal0;
    for k := 0 to |inds|
      invariant total == total0 + IndicatorsObtained(domaine, inds[..k], scores)
      invariant maxTotal == maxTotal0 + IndicatorsPossible(inds[..k])
    {
      IndicatorsSnoc(domaine, inds, k, scores);
      var cle := Key(domaine, inds[k]);
      if cle in scores {
        var v := ToFloat(scores[cle]);
        if v.Some? {
          total := total + v.value;
        }
      }
      var m := ToFloat(if inds[k].max.Some? then inds[k].max.value else Num(0.0));
      if m.Some? {
        maxTotal := maxTotal + m.value;
      }
    }
    assert inds[..|inds|] == inds;
  }

  lemma TotalsSnoc(ds: seq<Domaine>, n: nat, scores: ScoreMap)
    requires n < |ds|
    ensures TotalObtained(ds[..n + 1], scores) == TotalObtained(ds[..n], scores) + IndicatorsObtained(ds[n], IndicateursOf(ds[n]), scores)
    ensures TotalPossible(ds[..n + 1]) == TotalPossible(ds[..n]) + IndicatorsPossible(IndicateursOf(ds[n]))
  {
    assert ds[..n + 1][..n] == ds[..n];
  }

  lemma IndicatorsSnoc(d: Domaine, inds: seq<Indicateur>, k: nat, scores: ScoreMap)
    requires k < |inds|
    ensures IndicatorsObtained(d, inds[..k + 1], scores) == IndicatorsObtained(d, inds[..k], scores) + Obtained(Key(d, inds[k]), scores)
    ensures IndicatorsPossible(inds[..k + 1]) == IndicatorsPossible(inds[..k]) + Possible(inds[k])
  {
    assert inds[..k + 1][..k] == inds[..k];
  }

  // ---------------------------------------------------------------------------------
  // Properties
  // ---------------------------------------------------------------------------------

  lemma {:induction false} ObtainedAppend(ds: seq<Domaine>, es: seq<Domaine>, scores: ScoreMap)
    ensures TotalObtained(ds + es, scores) == TotalObtained(ds, scores) + TotalObtained(es, scores)
    decreases |es|
  {
    if es == [] {
      assert ds + es == ds;
    } else {
      assert (ds + es)[..|ds + es| - 1] == ds + es[..|es| - 1];
      ObtainedAppend(ds, es[..|es| - 1], scores);
    }
  }

  lemma {:induction false} PossibleAppend(ds: seq<Domaine>, es: seq<Domaine>)
    ensures TotalPossible(ds + es) == TotalPossible(ds) + TotalPossible(es)
    decreases |es|
  {
    if es == [] {
      assert ds + es == ds;
    } else {
      assert (ds + es)[..|ds + es| - 1] == ds + es[..|es| - 1];
      PossibleAppend(ds, es[..|es| - 1]);
    }
  }

  /** A domain whose indicator list is missing, None or empty changes neither total,
      wherever it stands in the list. */
  lemma EmptyDomainIgnored(ds: seq<Domaine>, es: seq<Domaine>, nom: Option<string>, scores: ScoreMap)
    ensures TotalObtained(ds + [Domaine(nom, None)] + es, scores) == TotalObtained(ds + es, scores)
    ensures TotalPossible(ds + [Domaine(nom, None)] + es) == TotalPossible(ds + es)
  {
    var e := Domaine(nom, None);
    ObtainedAppend(ds + [e], es, scores);
    ObtainedAppend(ds, [e], scores);
    ObtainedAppend(ds, es, scores);
    PossibleAppend(ds + [e], es);
    PossibleAppend(ds, [e]);
    PossibleAppend(ds, es);
  }

  /** Whether `key` is the score key of some indicator of the grid. */
  ghost predicate IsGridKey(ds: seq<Domaine>, key: string)
  {
    exists n, k :: 0 <= n < |ds| && 0 <= k < |IndicateursOf(ds[n])| && key == Key(ds[n], IndicateursOf(ds[n])[k])
  }

  lemma {:induction false} IndicatorsIgnoreKey(d: Domaine, inds: seq<Indicateur>, scores: ScoreMap, key: string, v: Scalar)
    requires forall k :: 0 <= k < |inds| ==> Key(d, inds[k]) != key
    ensures IndicatorsObtained(d, inds, scores[key := v]) == IndicatorsObtained(d, inds, scores)
    decreases |inds|
  {
    if inds != [] {
      IndicatorsIgnoreKey(d, inds[..|inds| - 1], scores, key, v);
    }
  }

  /** A score whose key names no indicator of the grid has no effect: the totals only
      look up the keys the grid produces. */
  lemma {:induction false} UnknownKeyIgnored(ds: seq<Domaine>, scores: ScoreMap, key: string, v: Scalar)
    requires !IsGridKey(ds, key)
    ensures TotalObtained(ds, scores[key := v]) == TotalObtained(ds, scores)
    decreases |ds|
  {
    if ds != [] {
      var init := ds[..|ds| - 1];
      var d := ds[|ds| - 1];
      forall n, k | 0 <= n < |init| && 0 <= k < |IndicateursOf(init[n])|
        ensures key != Key(init[n], IndicateursOf(init[n])[k])
      {
        assert init[n] == ds[n];
      }
      UnknownKeyIgnored(init, scores, key, v);
      forall k | 0 <= k < |IndicateursOf(d)| ensures Key(d, IndicateursOf(d)[k]) != key {
        assert ds[|ds| - 1] == d;
      }
      IndicatorsIgnoreKey(d, IndicateursOf(d), scores, key, v);
    }
  }

  lemma {:induction false} IndicatorsNonNumeric(d: Domaine, inds: seq<Indicateur>, scores: ScoreMap, key: string, v: Scalar)
    requires ToFloat(v).None?
    ensures IndicatorsObtained(d, inds, scores[key := v]) == IndicatorsObtained(d, inds, scores - {key})
    decreases |inds|
  {
    if inds != [] {
      IndicatorsNonNumeric(d, inds[..|inds| - 1], scores, key, v);
    }
  }

  /** A value that float() rejects counts as if its key were absent. */
  lemma {:induction false} NonNumericSkipped(ds: seq<Domaine>, scores: ScoreMap, key: string, v: Scalar)
    requires ToFloat(v).None?
    ensures TotalObtained(ds, scores[key := v]) == TotalObtained(ds, scores - {key})
    decreases |ds|
  {
    if ds != [] {
      var d := ds[|ds| - 1];
      NonNumericSkipped(ds[..|ds| - 1], scores, key, v);
      IndicatorsNonNumeric(d, IndicateursOf(d), scores, key, v);
    }
  }

  /** Scores between 0 and their indicator's maximum give a percentage between 0 and
      100. */
  ghost predicate ScoresWithinMax(ds: seq<Domaine>, scores: ScoreMap)
  {
    forall n, k :: 0 <= n < |ds| && 0 <= k < |IndicateursOf(ds[n])| ==>
      0.0 <= Obtained(Key(ds[n], IndicateursOf(ds[n])[k]), scores) <= Possible(IndicateursOf(ds[n])[k])
  }

  lemma {:induction false} IndicatorsWithinMax(d: Domaine, inds: seq<Indicateur>, scores: ScoreMap)
    requires forall k :: 0 <= k < |inds| ==> 0.0 <= Obtained(Key(d, inds[k]), scores) <= Possible(inds[k])
    ensures 0.0 <= IndicatorsObtained(d, inds, scores) <= IndicatorsPossible(inds)
    decreases |inds|
  {
    if inds != [] {
      IndicatorsWithinMax(d, inds[..|inds| - 1], scores);
    }
  }

  lemma {:induction false} TotalsWithinMax(ds: seq<Domaine>, scores: ScoreMap)
    requires ScoresWithinMax(ds, scores)
    ensures 0.0 <= TotalObtained(ds, scores) <= TotalPossible(ds)
    decreases |ds|
  {
    if ds != [] {
      var init := ds[..|ds| - 1];
      assert ScoresWithinMax(init, scores) by {
        forall n, k | 0 <= n < |init| && 0 <= k < |IndicateursOf(init[n])|
          ensures 0.0 <= Obtained(Key(init[n], IndicateursOf(init[n])[k]), scores) <= Possible(IndicateursOf(init[n])[k])
        {
          assert init[n] == ds[n];
        }
      }
      TotalsWithinMax(init, scores);
      var d := ds[|ds| - 1];
      IndicatorsWithinMax(d, IndicateursOf(d), scores);
    }
  }

  lemma PctWithinHundred(ds: seq<Domaine>, scores: ScoreMap)
    requires ScoresWithinMax(ds, scores)
    ensures 0.0 <= Pct(TotalObtained(ds, scores), TotalPossible(ds)) <= 100.0
  {
    TotalsWithinMax(ds, scores);
  }

  /** Scores 3 and 4 on two indicators of maximum 5 give (7, 10, 70). */
  lemma SimpleGridExample()
    ensures var ds := [Domaine(Some("Engagement"), Some([Indicateur(Some("Attention"), Some(Num(5.0))),
                                                         Indicateur(Some("Initiative"), Some(Num(5.0)))]))];
            var scores := map["Engagement_Attention" := Num(3.0), "Engagement_Initiative" := Num(4.0)];
            TotalObtained(ds, scores) == 7.0 && TotalPossible(ds) == 10.0 &&
            Pct(TotalObtained(ds, scores), TotalPossible(ds)) == 70.0
  {
    var d := Domaine(Some("Engagement"), Some([Indicateur(Some("Attention"), Some(Num(5.0))),
                                                Indicateur(Some("Initiative"), Some(Num(5.0)))]));
    var inds := IndicateursOf(d);
    var scores := map["Engagement_Attention" := Num(3.0), "Engagement_Initiative" := Num(4.0)];
    assert Key(d, inds[0]) == "Engagement_Attention";
    assert Key(d, inds[1]) == "Engagement_Initiative";
    TwoIndicators(d, scores, 3.0, 4.0, 5.0, 5.0);
  }

  /** Sums over a one-domain grid with two indicators. */
  lemma TwoIndicators(d: Domaine, scores: ScoreMap, a: real, b: real, ma: real, mb: real)
    requires |IndicateursOf(d)| == 2
    requires Obtained(Key(d, IndicateursOf(d)[0]), scores) == a && Obtained(Key(d, IndicateursOf(d)[1]), scores) == b
    requires Possible(IndicateursOf(d)[0]) == ma && Possible(IndicateursOf(d)[1]) == mb
    ensures TotalObtained([d], scores) == a + b && TotalPossible([d]) == ma + mb
  {
    var inds := IndicateursOf(d);
    assert inds[..1][..0] == [] && inds[..1][0] == inds[0];
    assert IndicatorsObtained(d, inds[..1], scores) == a;
    assert IndicatorsPossible(inds[..1]) == ma;
    assert inds[..2] == inds;
    assert IndicatorsObtained(d, inds, scores) == a + b;
    assert IndicatorsPossible(inds) == ma + mb;
    assert [d][..0] == [];
  }

  /** A non-numeric score is skipped: 'non-num' and 5 on maxima 4 and 6 give
      (5, 10, 50). */
  lemma NonNumericExample()
    ensures var ds := [Domaine(Some("Expression"), Some([Indicateur(Some("Vocale"), Some(Num(4.0))),
                                                         Indicateur(Some("Corporelle"), Some(Num(6.0)))]))];
            var scores := map["Expression_Vocale" := Str("non-num"), "Expression_Corporelle" := Num(5.0)];
            TotalObtained(ds, scores) == 5.0 && TotalPossible(ds) == 10.0 &&
            Pct(TotalObtained(ds, scores), TotalPossible(ds)) == 50.0
  {
    var d := Domaine(Some("Expression"), Some([Indicateur(Some("Vocale"), Some(Num(4.0))),
                                                Indicateur(Some("Corporelle"), Some(Num(6.0)))]));
    var inds := IndicateursOf(d);
    var scores := map["Expression_Vocale" := Str("non-num"), "Expression_Corporelle" := Num(5.0)];
    assert Key(d, inds[0]) == "Expression_Vocale";
    assert Key(d, inds[1]) == "Expression_Corporelle";
    NonNumericText();
    assert Obtained("Expression_Vocale", scores) == 0.0;
    TwoIndicators(d, scores, 0.0, 5.0, 4.0, 6.0);
  }

  lemma NonNumericText()
    ensures ParseFloat("non-num") == None
  {
    var t := "non-num";
    assert t[0] == 'n' && t[|t| - 1] == 'm';
    NotANumber(t);
  }
}

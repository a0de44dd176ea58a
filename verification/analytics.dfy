/** The rules of the analytics service, over data passed in: a patient's trend from
    the first to the last score, the at-risk flag over the most recent scores, the
    calendar window of a month, and the monthly activity figures. */
module Analytics {
  import opened Wrappers
  import opened Text
  import opened Numbers
  import opened Stats
  import opened Dates

  // ---------------------------------------------------------------------------------
  // evolution_patient_detaillee: trend
  // ---------------------------------------------------------------------------------

  datatype Tendance = Amelioration | Deterioration | Stable

  datatype Evolution = Evolution(tendance: Option<Tendance>, progression: real)

  /** Five points either way is still stable. */
  const TrendThreshold: real := 5.0

  function TrendOf(progression: real): (t: Tendance)
    ensures t == Amelioration <==> progression > TrendThreshold
    ensures t == Deterioration <==> progression < -TrendThreshold
    ensures t == Stable <==> -TrendThreshold <= progression <= TrendThreshold
  {
    if progression > TrendThreshold then Amelioration
    else if progression < -TrendThreshold then Deterioration
    else Stable
  }

  /** The trend of a patient's percentages in session order: none and a progression of
      0 below two points; otherwise the last minus the first, classified. */
  function EvolutionOf(pourcentages: seq<real>): (e: Evolution)
    ensures |pourcentages| < 2 <==> e.tendance.None?
    ensures |pourcentages| < 2 ==> e.progression == 0.0
    ensures |pourcentages| >= 2 ==>
      e.progression == pourcentages[|pourcentages| - 1] - pourcentages[0] && e.tendance == Some(TrendOf(e.progression))
  {
    if |pourcentages| < 2 then Evolution(None, 0.0)
    else
      var progression := pourcentages[|pourcentages| - 1] - pourcentages[0];
      Evolution(Some(TrendOf(progression)), progression)
  }

  /** Only the ends count, and swapping them mirrors the trend: an improvement read
      backwards is a deterioration of the same size. */
  lemma TrendMirror(ps: seq<real>, qs: seq<real>)
    requires |ps| >= 2 && |qs| >= 2
    requires qs[0] == ps[|ps| - 1] && qs[|qs| - 1] == ps[0]
    ensures EvolutionOf(qs).progression == -EvolutionOf(ps).progression
    ensures EvolutionOf(ps).tendance == Some(Amelioration) <==> EvolutionOf(qs).tendance == Some(Deterioration)
    ensures EvolutionOf(ps).tendance == Some(Stable) <==> EvolutionOf(qs).tendance == Some(Stable)
  {
  }

  // ---------------------------------------------------------------------------------
  // patients_a_risque
  // ---------------------------------------------------------------------------------

  datatype NiveauRisque = Eleve | Modere

  /** A flagged patient: the mean, how many scores it was taken over, the level and the
      percentage of the most recent cotation (which may be missing). */
  datatype RiskEntry = RiskEntry(patientId: nat, scoreMoyen: real, nbCotations: nat, niveau: NiveauRisque, derniere: Option<real>)

  /** A patient and the percentages of their cotations of the last thirty days, most
      recent first (None where the cotation has no percentage). */
  datatype PatientCotations = PatientCotations(patientId: nat, recentes: seq<Option<real>>)

  /** The number of recent cotations looked at. */
  const RecentLimit: nat := 3

  /** Below this mean the risk is high. */
  const HighRiskBelow: real := 30.0

  /** The percentages that are present, in order. */
  function PresentScores(cs: seq<Option<real>>): (xs: seq<real>)
    ensures |xs| <= |cs|
    ensures forall k :: 0 <= k < |xs| ==> Some(xs[k]) in cs
    ensures xs == [] <==> forall k :: 0 <= k < |cs| ==> cs[k].None?
  {
    if cs == [] then []
    else
      var init := PresentScores(cs[..|cs| - 1]);
      assert forall x :: x in cs[..|cs| - 1] ==> x in cs;
      match cs[|cs| - 1]
      case Some(x) => init + [x]
      case None => init
  }

  /** The most recent cotations the rule looks at. */
  function Window(cs: seq<Option<real>>): (w: seq<Option<real>>)
    ensures |w| <= RecentLimit && |w| <= |cs| && w == cs[..|w|]
    ensures |cs| >= RecentLimit ==> |w| == RecentLimit
  {
    if |cs| <= RecentLimit then cs else cs[..RecentLimit]
  }

  /** A patient is flagged when the mean of the present percentages among the three
      most recent cotations is below the threshold; the level is high below 30. */
  function RiskOf(p: PatientCotations, seuil: real): (r: Option<RiskEntry>)
    ensures r.Some? <==> PresentScores(Window(p.recentes)) != [] && Mean(PresentScores(Window(p.recentes))) < seuil
    ensures r.Some? ==> r.value.patientId == p.patientId && r.value.scoreMoyen < seuil &&
                        r.value.nbCotations == |PresentScores(Window(p.recentes))| <= RecentLimit &&
                        (r.value.niveau == Eleve <==> r.value.scoreMoyen < HighRiskBelow) &&
                        r.value.derniere == p.recentes[0]
  {
    var window := Window(p.recentes);
    var scores := PresentScores(window);
    if scores == [] then None
    else
      var moyen := Mean(scores);
      if moyen < seuil then
        Some(RiskEntry(p.patientId, moyen, |scores|, if moyen < HighRiskBelow then Eleve else Modere, window[0]))
      else None
  }

  /** Recent scores all at or above the threshold never flag a patient. */
  lemma AllAboveNotFlagged(p: PatientCotations, seuil: real)
    requires forall k :: 0 <= k < |Window(p.recentes)| && Window(p.recentes)[k].Some? ==> Window(p.recentes)[k].value >= seuil
    ensures RiskOf(p, seuil).None?
  {
    var xs := PresentScores(Window(p.recentes));
    if xs != [] {
      forall k | 0 <= k < |xs|
        ensures seuil <= xs[k]
      {
        assert Some(xs[k]) in Window(p.recentes);
      }
      MeanAtLeast(xs, seuil);
    }
  }

  /** A present recent score, and all of them below the threshold, flag the patient. */
  lemma AllBelowFlagged(p: PatientCotations, seuil: real)
    requires exists k :: 0 <= k < |Window(p.recentes)| && Window(p.recentes)[k].Some?
    requires forall k :: 0 <= k < |Window(p.recentes)| && Window(p.recentes)[k].Some? ==> Window(p.recentes)[k].value < seuil
    ensures RiskOf(p, seuil).Some?
  {
    var xs := PresentScores(Window(p.recentes));
    forall k | 0 <= k < |xs|
      ensures xs[k] < seuil
    {
      assert Some(xs[k]) in Window(p.recentes);
    }
    MeanBelow(xs, seuil);
  }

  /** The flagged patients, in the order of the patient list. */
  function AtRisk(ps: seq<PatientCotations>, seuil: real): (r: seq<RiskEntry>)
    ensures |r| <= |ps|
  {
    if ps == [] then []
    else
      var init := AtRisk(ps[..|ps| - 1], seuil);
      match RiskOf(ps[|ps| - 1], seuil)
      case Some(e) => init + [e]
      case None => init
  }

  /** Every entry comes from a patient of the list whose rule fired. */
  lemma {:induction false} AtRiskSound(ps: seq<PatientCotations>, seuil: real)
    ensures forall e :: e in AtRisk(ps, seuil) ==> exists k :: 0 <= k < |ps| && RiskOf(ps[k], seuil) == Some(e)
  {
    if ps != [] {
      var init := ps[..|ps| - 1];
      AtRiskSound(init, seuil);
      forall e | e in AtRisk(ps, seuil)
        ensures exists k :: 0 <= k < |ps| && RiskOf(ps[k], seuil) == Some(e)
      {
        if e in AtRisk(init, seuil) {
          var k :| 0 <= k < |init| && RiskOf(init[k], seuil) == Some(e);
          assert ps[k] == init[k];
        } else {
          assert RiskOf(ps[|ps| - 1], seuil) == Some(e);
        }
      }
    }
  }

  /** Every patient whose rule fires is listed. */
  lemma {:induction false} AtRiskComplete(ps: seq<PatientCotations>, seuil: real, k: nat)
    requires k < |ps| && RiskOf(ps[k], seuil).Some?
    ensures RiskOf(ps[k], seuil).value in AtRisk(ps, seuil)
  {
    var init := ps[..|ps| - 1];
    AtRiskSnoc(ps, seuil);
    if k < |ps| - 1 {
      assert init[k] == ps[k];
      AtRiskComplete(init, seuil, k);
    }
  }

  /** The list, one patient further. */
  lemma AtRiskSnoc(ps: seq<PatientCotations>, seuil: real)
    requires ps != []
    ensures var last := RiskOf(ps[|ps| - 1], seuil);
            AtRisk(ps, seuil) == AtRisk(ps[..|ps| - 1], seuil) + (if last.Some? then [last.value] else [])
  {
  }

  /** `patients_a_risque` over the therapist's patients. */
  method PatientsARisque(ps: seq<PatientCotations>, seuil: real) returns (r: seq<RiskEntry>)
    ensures r == AtRisk(ps, seuil)
  {
    r := [];
    for i := 0 to |ps|
      invariant r == AtRisk(ps[..i], seuil)
    {
      assert ps[..i + 1][..i] == ps[..i];
      var entry := RiskOf(ps[i], seuil);
      if entry.Some? {
        r := r + [entry.value];
      }
    }
    assert ps[..|ps|] == ps;
  }

  // ---------------------------------------------------------------------------------
  // rapport_activite_mensuel
  // ---------------------------------------------------------------------------------

  /** The month of (annee, mois) as [first day, first day of the next month);
      December rolls over to January of the next year. */
  function MonthWindow(annee: int, mois: nat): (w: (Date, Date))
    requires 1 <= mois <= 12
    ensures w.0 == Date(annee, mois, 1)
    ensures mois < 12 ==> w.1 == Date(annee, mois + 1, 1)
    ensures mois == 12 ==> w.1 == Date(annee + 1, 1, 1)
  {
    var debut := Date(annee, mois, 1);
    var fin := if mois == 12 then Date(annee + 1, 1, 1) else Date(annee, mois + 1, 1);
    (debut, fin)
  }

  predicate InWindow(d: Date, w: (Date, Date))
  {
    !Before(d, w.0) && Before(d, w.1)
  }

  /** The window holds exactly the dates of that month. */
  lemma MonthWindowExact(annee: int, mois: nat, d: Date)
    requires 1 <= mois <= 12 && ValidDate(d)
    ensures InWindow(d, MonthWindow(annee, mois)) <==> d.year == annee && d.month == mois
  {
  }

  /** Consecutive months tile the calendar: each window ends where the next begins. */
  lemma MonthWindowsTile(annee: int, mois: nat)
    requires 1 <= mois <= 12
    ensures mois < 12 ==> MonthWindow(annee, mois).1 == MonthWindow(annee, mois + 1).0
    ensures mois == 12 ==> MonthWindow(annee, mois).1 == MonthWindow(annee + 1, 1).0
  {
  }

  datatype MonthlyReport = MonthlyReport(periode: string, nbSeances: nat, nbCotations: nat, nbPatientsVus: nat, scoreMoyenGlobal: real)

  /** The distinct patients among the month's sessions. */
  function PatientsSeen(seancePatients: seq<nat>): set<nat>
  {
    set p | p in seancePatients
  }

  /** The monthly figures over the month's sessions (their patient ids) and cotations
      (their percentages): "mm/yyyy", the counts, the distinct patients and the mean
      percentage, 0 without cotations. */
  function RapportMensuel(annee: nat, mois: nat, seancePatients: seq<nat>, pourcentages: seq<real>): (r: MonthlyReport)
    requires 1 <= mois <= 12
    ensures r.nbSeances == |seancePatients| && r.nbCotations == |pourcentages|
    ensures r.nbPatientsVus == |PatientsSeen(seancePatients)|
    ensures pourcentages == [] ==> r.scoreMoyenGlobal == 0.0
    ensures TwoDigitsAt(r.periode, 0) == Some(mois) && |r.periode| > 3 && r.periode[2] == '/' && r.periode[3..] == NatToString(annee)
  {
    var periode := TwoDigits(mois) + "/" + NatToString(annee);
    MonthLabel(mois, annee);
    MonthlyReport(periode, |seancePatients|, |pourcentages|, |PatientsSeen(seancePatients)|,
                  if pourcentages == [] then 0.0 else Mean(pourcentages))
  }

  lemma MonthLabel(mois: nat, annee: nat)
    requires mois < 100
    ensures var p := TwoDigits(mois) + "/" + NatToString(annee);
            TwoDigitsAt(p, 0) == Some(mois) && |p| > 3 && p[2] == '/' && p[3..] == NatToString(annee)
  {
    var p := TwoDigits(mois) + "/" + NatToString(annee);
    assert p[0] == DigitChar(mois / 10) && p[1] == DigitChar(mois % 10);
    assert p[3..] == NatToString(annee);
  }

  /** Between one and as many patients as sessions were seen, when there were sessions;
      the mean percentage stays within the percentages' range. */
  lemma MonthlyFiguresBounds(annee: nat, mois: nat, seancePatients: seq<nat>, pourcentages: seq<real>, lo: real, hi: real)
    requires 1 <= mois <= 12
    requires forall k :: 0 <= k < |pourcentages| ==> lo <= pourcentages[k] <= hi
    ensures var r := RapportMensuel(annee, mois, seancePatients, pourcentages);
            r.nbPatientsVus <= r.nbSeances && (seancePatients != [] ==> 1 <= r.nbPatientsVus) &&
            (pourcentages != [] ==> lo <= r.scoreMoyenGlobal <= hi)
  {
    DistinctAtMostCount(seancePatients);
    if seancePatients != [] {
      assert seancePatients[0] in PatientsSeen(seancePatients);
    }
    if pourcentages != [] {
      MeanBetween(pourcentages, lo, hi);
    }
  }

  lemma {:induction false} DistinctAtMostCount(xs: seq<nat>)
    ensures |PatientsSeen(xs)| <= |xs|
  {
    if xs != [] {
      var init := xs[..|xs| - 1];
      DistinctAtMostCount(init);
      assert PatientsSeen(xs) == PatientsSeen(init) + {xs[|xs| - 1]};
    }
  }
}

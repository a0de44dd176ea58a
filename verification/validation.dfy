/** Strict validation of grids before they are stored, and of the scores of a rating
    against the grid: indicators, domains, whole grids, and the flat score dictionary. */
module Validation {
  import opened Wrappers
  import opened Text
  import opened Numbers

  /** A decoded JSON value that should be an object: its fields, or something else. */
  datatype Raw<T> = Object(fields: T) | NotObject

  /** The reasons for refusing an indicator, a domain or a grid. Wrapping constructors
      carry the 1-based position of the failing element, as the messages do. */
  datatype ValidationError =
    | IndicatorNotObject
    | IndicatorNameTooShort
    | IndicatorNameTooLong
    | BoundsNotNumeric
    | MaxNotAboveMin
    | BoundsOutOfRange
    | DomainNotObject
    | DomainNameTooShort
    | DomainNameTooLong
    | DomainNameInvalid
    | DomainWithoutIndicators(domaine: string)
    | InIndicator(domaine: string, position: nat, cause: ValidationError)
    | GridWithoutDomains
    | GridTooLarge
    | DuplicateDomain(nom: string)
    | InDomain(position: nat, cause: ValidationError)

  function OrEmpty(s: Option<string>): string
  {
    if s.Some? then s.value else ""
  }

  /** Python's s[:n]. */
  function Cut(s: string, n: nat): (r: string)
    ensures |r| <= n && r == s[..if |s| <= n then |s| else n]
  {
    if |s| <= n then s else s[..n]
  }

  // ---------------------------------------------------------------------------------
  // Indicators
  // ---------------------------------------------------------------------------------

  datatype RawIndicateur = RawIndicateur(nom: Option<string>, min: Option<Scalar>, max: Option<Scalar>,
                                         unite: Option<string>)

  /** A cleaned indicator. */
  datatype Indicateur = Indicateur(nom: string, min: real, max: real, unite: string)

  const DefaultUnit: string := "points"

  /** The stripped name of an indicator: 2..100 characters. */
  function IndicatorName(nom: Option<string>): (r: Result<string, ValidationError>)
    ensures r.Ok? ==> r.value == Strip(OrEmpty(nom)) && 2 <= |r.value| <= 100
    ensures r.Err? <==> |Strip(OrEmpty(nom))| < 2 || |Strip(OrEmpty(nom))| > 100
  {
    var n := Strip(OrEmpty(nom));
    if |n| < 2 then Err(IndicatorNameTooShort)
    else if |n| > 100 then Err(IndicatorNameTooLong)
    else Ok(n)
  }

  /** Both bounds numeric (defaults 0 and 5), min below max, both within 0..100. */
  function IndicatorBounds(min: Option<Scalar>, max: Option<Scalar>): (r: Result<(real, real), ValidationError>)
    ensures r.Ok? ==> 0.0 <= r.value.0 < r.value.1 <= 100.0
    ensures r.Ok? ==> ToFloat(if min.Some? then min.value else Num(0.0)) == Some(r.value.0) &&
                      ToFloat(if max.Some? then max.value else Num(5.0)) == Some(r.value.1)
  {
    var minVal := ToFloat(if min.Some? then min.value else Num(0.0));
    var maxVal := ToFloat(if max.Some? then max.value else Num(5.0));
    if minVal.None? || maxVal.None? then Err(BoundsNotNumeric)
    else if minVal.value >= maxVal.value then Err(MaxNotAboveMin)
    else if minVal.value < 0.0 || maxVal.value > 100.0 then Err(BoundsOutOfRange)
    else Ok((minVal.value, maxVal.value))
  }

  /** The unit stripped and cut to 20 characters, "points" when missing or when nothing
      is left. (A missing unit reads as "points", which stripping and cutting keep.) */
  function IndicatorUnit(unite: Option<string>): (r: string)
    ensures 1 <= |r| <= 20
    ensures unite.None? || Strip(unite.value) == [] ==> r == DefaultUnit
    ensures unite.Some? && Strip(unite.value) != [] ==>
              r == Strip(unite.value)[..if |Strip(unite.value)| <= 20 then |Strip(unite.value)| else 20]
  {
    if unite.None? then DefaultUnit
    else
      var u := Cut(Strip(unite.value), 20);
      if u == [] then DefaultUnit else u
  }

  /** `valider_indicateur`: an object whose name, bounds and unit pass, checked in that
      order. */
  function ValiderIndicateur(raw: Raw<RawIndicateur>): (r: Result<Indicateur, ValidationError>)
    ensures r.Ok? ==> raw.Object? && r.value.nom == Strip(OrEmpty(raw.fields.nom))
    ensures r.Ok? ==> 2 <= |r.value.nom| <= 100
    ensures r.Ok? ==> 0.0 <= r.value.min < r.value.max <= 100.0
    ensures r.Ok? ==> 1 <= |r.value.unite| <= 20
  {
    if raw.NotObject? then Err(IndicatorNotObject)
    else
      var ind := raw.fields;
      match IndicatorName(ind.nom)
      case Err(e) => Err(e)
      case Ok(nom) =>
        match IndicatorBounds(ind.min, ind.max)
        case Err(e) => Err(e)
        case Ok(bounds) => Ok(Indicateur(nom, bounds.0, bounds.1, IndicatorUnit(ind.unite)))
  }

  /** The raw form of a cleaned indicator. */
  function IndicatorAsRaw(v: Indicateur): Raw<RawIndicateur>
  {
    Object(RawIndicateur(Some(v.nom), Some(Num(v.min)), Some(Num(v.max)), Some(v.unite)))
  }

  lemma StripOfStripped(s: string)
    ensures Strip(Strip(s)) == Strip(s)
  {
    var t := Strip(s);
    var u := TrimStartBy(s, Whitespace);
    assert t == [] || (t[0] == u[0] && t[0] !in Whitespace);
    StripByNoop(t, Whitespace);
  }

  lemma StripFirst(s: string)
    ensures Strip(s) == [] || Strip(s)[0] !in Whitespace
  {
    var u := TrimStartBy(s, Whitespace);
    assert Strip(s) == [] || Strip(s)[0] == u[0];
  }

  /** A cleaned unit starts with a character other than whitespace. */
  lemma UnitStartsClean(unite: Option<string>)
    ensures IndicatorUnit(unite)[0] !in Whitespace
  {
    var p := DefaultUnit;
    assert p[0] == 'p';
    if unite.Some? {
      var u := Cut(Strip(unite.value), 20);
      if u != [] {
        assert u[0] == Strip(unite.value)[0];
        StripFirst(unite.value);
      }
    }
  }

  /** Validating a cleaned indicator again gives it back, unless cutting its unit to 20
      characters left whitespace at the end. */
  lemma RevalidateIndicator(raw: Raw<RawIndicateur>)
    requires ValiderIndicateur(raw).Ok?
    requires var u := ValiderIndicateur(raw).value.unite; u[|u| - 1] !in Whitespace
    ensures ValiderIndicateur(IndicatorAsRaw(ValiderIndicateur(raw).value)) == ValiderIndicateur(raw)
  {
    var v := ValiderIndicateur(raw).value;
    ValidatedParts(raw);
    RevalidateParts(raw.fields, v);
  }

  /** An indicator cleaned from these fields, whose unit does not end in whitespace,
      validates to itself. */
  lemma RevalidateParts(fields: RawIndicateur, v: Indicateur)
    requires v.nom == Strip(OrEmpty(fields.nom)) && 2 <= |v.nom| <= 100
    requires 0.0 <= v.min < v.max <= 100.0
    requires v.unite == IndicatorUnit(fields.unite) && v.unite[|v.unite| - 1] !in Whitespace
    ensures ValiderIndicateur(IndicatorAsRaw(v)) == Ok(v)
  {
    NameRevalidates(OrEmpty(fields.nom));
    BoundsRevalidate(v.min, v.max);
    UnitRevalidates(fields.unite);
    RevalidateClean(v);
  }

  /** What a validated indicator is made of. */
  lemma ValidatedParts(raw: Raw<RawIndicateur>)
    requires ValiderIndicateur(raw).Ok?
    ensures raw.Object? && ValiderIndicateur(raw).value.unite == IndicatorUnit(raw.fields.unite)
  {
  }

  /** A cleaned indicator whose three parts each validate to themselves validates to
      itself. */
  lemma RevalidateClean(v: Indicateur)
    requires IndicatorName(Some(v.nom)) == Ok(v.nom)
    requires IndicatorBounds(Some(Num(v.min)), Some(Num(v.max))) == Ok((v.min, v.max))
    requires IndicatorUnit(Some(v.unite)) == v.unite
    ensures ValiderIndicateur(IndicatorAsRaw(v)) == Ok(v)
  {
  }

  lemma NameRevalidates(s: string)
    requires 2 <= |Strip(s)| <= 100
    ensures IndicatorName(Some(Strip(s))) == Ok(Strip(s))
  {
    StripOfStripped(s);
  }

  lemma BoundsRevalidate(min: real, max: real)
    requires 0.0 <= min < max <= 100.0
    ensures IndicatorBounds(Some(Num(min)), Some(Num(max))) == Ok((min, max))
  {
  }

  lemma UnitRevalidates(unite: Option<string>)
    requires var u := IndicatorUnit(unite); u[|u| - 1] !in Whitespace
    ensures IndicatorUnit(Some(IndicatorUnit(unite))) == IndicatorUnit(unite)
  {
    UnitStartsClean(unite);
    StripByNoop(IndicatorUnit(unite), Whitespace);
  }

  /** A unit longer than 20 characters whose 20th character is whitespace is cut right
      after it, so the cleaned unit ends with whitespace and a second validation changes
      it. */
  lemma CutUnitMayEndInSpace(u: string)
    requires |u| > 20 && u[0] !in Whitespace && u[|u| - 1] !in Whitespace && u[19] in Whitespace
    ensures IndicatorUnit(Some(u)) == u[..20]
    ensures Strip(IndicatorUnit(Some(u))) != IndicatorUnit(Some(u))
  {
    StripByNoop(u, Whitespace);
    var cut := u[..20];
    assert cut[19] in Whitespace;
    assert TrimEndBy(TrimStartBy(cut, Whitespace), Whitespace) != cut;
  }

  /** Bounds 10 and 5 are refused because the maximum is not above the minimum. */
  lemma InvertedBoundsRefused(nom: string, unite: Option<string>)
    requires nom != [] && nom[0] !in Whitespace && nom[|nom| - 1] !in Whitespace && 2 <= |nom| <= 100
    ensures ValiderIndicateur(Object(RawIndicateur(Some(nom), Some(Num(10.0)), Some(Num(5.0)), unite)))
            == Err(MaxNotAboveMin)
  {
    StripByNoop(nom, Whitespace);
  }

  /** Missing bounds read as 0 and 5, and a missing unit as "points". */
  lemma DefaultBounds(nom: string)
    requires nom != [] && nom[0] !in Whitespace && nom[|nom| - 1] !in Whitespace && 2 <= |nom| <= 100
    ensures ValiderIndicateur(Object(RawIndicateur(Some(nom), None, None, None)))
            == Ok(Indicateur(nom, 0.0, 5.0, DefaultUnit))
  {
    StripByNoop(nom, Whitespace);
  }

  // ---------------------------------------------------------------------------------
  // Domains
  // ---------------------------------------------------------------------------------

  /** A domain as decoded; `indicateurs` is None when the key is missing or does not
      hold a list. */
  datatype RawDomaine = RawDomaine(nom: Option<string>, couleur: Option<string>, description: Option<string>,
                                   indicateurs: Option<seq<Raw<RawIndicateur>>>)

  datatype Domaine = Domaine(nom: string, couleur: string, description: string, indicateurs: seq<Indicateur>)

  const DefaultColour: string := "#667eea"

  /** The characters of `[a-zA-ZÀ-ÿ0-9\s\-_]`. */
  predicate NameChar(c: char)
  {
    'a' <= c <= 'z' || 'A' <= c <= 'Z' || 'À' <= c <= 'ÿ' || IsDigit(c) ||
    c in Whitespace || c == '-' || c == '_'
  }

  predicate IsHex(c: char)
  {
    IsDigit(c) || 'a' <= c <= 'f' || 'A' <= c <= 'F'
  }

  /** `^#[0-9a-fA-F]{6}$` as Python's re.match reads it: `$` also matches before one
      final newline. */
  predicate ColourMatches(c: string)
  {
    (|c| == 7 || (|c| == 8 && c[7] == '\n')) && c[0] == '#' && forall k :: 1 <= k < 7 ==> IsHex(c[k])
  }

  /** Every element checked in order: the cleaned values, or the first refusal wrapped
      with its 1-based position. The check is a parameter so that this function is
      reasoned about independently of what the check does. */
  function CheckEach<T, U>(nom: string, xs: seq<T>, check: T -> Result<U, ValidationError>): (r: Result<seq<U>, ValidationError>)
    ensures r.Ok? ==> |r.value| == |xs| && forall k :: 0 <= k < |xs| ==> check(xs[k]) == Ok(r.value[k])
    ensures r.Err? ==> exists k :: 0 <= k < |xs| && FirstRefusal(xs, check, k) &&
                         r.error == InIndicator(nom, k + 1, check(xs[k]).error)
  {
    if xs == [] then Ok([])
    else
      var init := xs[..|xs| - 1];
      match CheckEach(nom, init, check)
      case Err(e) =>
        ghost var k :| 0 <= k < |init| && FirstRefusal(init, check, k) && e == InIndicator(nom, k + 1, check(init[k]).error);
        assert FirstRefusal(xs, check, k);
        Err(e)
      case Ok(vs) =>
        match check(xs[|xs| - 1])
        case Err(e) =>
          assert FirstRefusal(xs, check, |xs| - 1);
          Err(InIndicator(nom, |xs|, e))
        case Ok(v) => Ok(vs + [v])
  }

  /** Element k is refused and every element before it passes. */
  ghost predicate FirstRefusal<T, U>(xs: seq<T>, check: T -> Result<U, ValidationError>, k: nat)
  {
    k < |xs| && check(xs[k]).Err? && forall j :: 0 <= j < k ==> check(xs[j]).Ok?
  }

  /** The indicators of a domain validated in order. */
  function ValidateIndicators(nom: string, inds: seq<Raw<RawIndicateur>>): (r: Result<seq<Indicateur>, ValidationError>)
  {
    CheckEach(nom, inds, ValiderIndicateur)
  }

  /** The stripped name of a domain: 2..100 characters, each a letter, digit,
      whitespace, '-' or '_'. */
  function DomainName(nom: Option<string>): (r: Result<string, ValidationError>)
    ensures r.Ok? ==> r.value == Strip(OrEmpty(nom))
    ensures r.Ok? <==> 2 <= |Strip(OrEmpty(nom))| <= 100 &&
                       forall k :: 0 <= k < |Strip(OrEmpty(nom))| ==> NameChar(Strip(OrEmpty(nom))[k])
    ensures r.Err? && |Strip(OrEmpty(nom))| < 2 ==> r.error == DomainNameTooShort
    ensures r.Err? && |Strip(OrEmpty(nom))| > 100 ==> r.error == DomainNameTooLong
  {
    var n := Strip(OrEmpty(nom));
    if |n| < 2 then Err(DomainNameTooShort)
    else if |n| > 100 then Err(DomainNameTooLong)
    else if !(forall k :: 0 <= k < |n| ==> NameChar(n[k])) then Err(DomainNameInvalid)
    else Ok(n)
  }

  /** The colour kept: the given one when it matches the pattern, else #667eea. */
  function DomainColour(couleur: Option<string>): (r: string)
    ensures ColourMatches(r)
    ensures couleur.Some? && ColourMatches(couleur.value) ==> r == couleur.value
  {
    assert ColourMatches(DefaultColour) by {
      var c := DefaultColour;
      assert c[0] == '#' && c[1] == '6' && c[2] == '6' && c[3] == '7' && c[4] == 'e' && c[5] == 'e' && c[6] == 'a';
    }
    if couleur.Some? && ColourMatches(couleur.value) then couleur.value else DefaultColour
  }

  /** Checks in order: an object, the name (DomainName); the colour falls back to
      #667eea, the description is stripped and cut to 500 characters; the indicator list
      must be present and non-empty and every indicator must pass. */
  function DomainCheck(raw: Raw<RawDomaine>): (r: Result<Domaine, ValidationError>)
    ensures r.Ok? ==> 2 <= |r.value.nom| <= 100 && forall k :: 0 <= k < |r.value.nom| ==> NameChar(r.value.nom[k])
    ensures r.Ok? ==> ColourMatches(r.value.couleur) && |r.value.description| <= 500
    ensures r.Ok? ==> raw.Object? && raw.fields.indicateurs.Some? &&
                      |r.value.indicateurs| == |raw.fields.indicateurs.value| >= 1
    ensures r.Ok? ==> DomainName(raw.fields.nom) == Ok(r.value.nom) &&
                      r.value.couleur == DomainColour(raw.fields.couleur) &&
                      r.value.description == Cut(Strip(OrEmpty(raw.fields.description)), 500)
    ensures r.Ok? ==> forall k :: 0 <= k < |r.value.indicateurs| ==>
                        ValiderIndicateur(raw.fields.indicateurs.value[k]) == Ok(r.value.indicateurs[k])
    ensures r.Ok? <==> raw.Object? && DomainName(raw.fields.nom).Ok? &&
                       raw.fields.indicateurs.Some? && raw.fields.indicateurs.value != [] &&
                       forall k :: 0 <= k < |raw.fields.indicateurs.value| ==> ValiderIndicateur(raw.fields.indicateurs.value[k]).Ok?
  {
    if raw.NotObject? then Err(DomainNotObject)
    else
      var d := raw.fields;
      match DomainName(d.nom)
      case Err(e) => Err(e)
      case Ok(nom) =>
        if d.indicateurs.None? || d.indicateurs.value == [] then Err(DomainWithoutIndicators(nom))
        else
          match ValidateIndicators(nom, d.indicateurs.value)
          case Err(e) => Err(e)
          case Ok(vs) => Ok(Domaine(nom, DomainColour(d.couleur), Cut(Strip(OrEmpty(d.description)), 500), vs))
  }

  /** `valider_domaine`: the checks of DomainCheck, the indicators validated one by one
      in a loop that stops at the first refusal. */
  method ValiderDomaine(raw: Raw<RawDomaine>) returns (r: Result<Domaine, ValidationError>)
    ensures r == DomainCheck(raw)
  {
    if raw.NotObject? {
      return Err(DomainNotObject);
    }
    var d := raw.fields;
    var nomValide := DomainName(d.nom);
    if nomValide.Err? {
      return Err(nomValide.error);
    }
    var nom := nomValide.value;
    var couleur := DomainColour(d.couleur);
    var description := Cut(Strip(OrEmpty(d.description)), 500);
    if d.indicateurs.None? || |d.indicateurs.value| == 0 {
      return Err(DomainWithoutIndicators(nom));
    }
    var indicateurs := d.indicateurs.value;
    var indicateursValides: seq<Indicateur> := [];
    for i := 0 to |indicateurs|
      invariant ValidateIndicators(nom, indicateurs[..i]) == Ok(indicateursValides)
    {
      var indValide := ValiderIndicateur(indicateurs[i]);
      CheckEachSnoc(nom, indicateurs, ValiderIndicateur, i);
      if indValide.Err? {
        IndicatorErrorSticks(nom, indicateurs, ValiderIndicateur, i + 1);
        return Err(InIndicator(nom, i + 1, indValide.error));
      }
      indicateursValides := indicateursValides + [indValide.value];
    }
    assert indicateurs[..|indicateurs|] == indicateurs;
    r := Ok(Domaine(nom, couleur, description, indicateursValides));
  }

  lemma CheckEachSnoc<T, U>(nom: string, xs: seq<T>, check: T -> Result<U, ValidationError>, i: nat)
    requires i < |xs|
    ensures CheckEach(nom, xs[..i + 1], check) ==
      match CheckEach(nom, xs[..i], check)
      case Err(e) => Err(e)
      case Ok(vs) => (match check(xs[i]) case Err(e) => Err(InIndicator(nom, i + 1, e)) case Ok(v) => Ok(vs + [v]))
  {
    assert xs[..i + 1][..i] == xs[..i];
  }

  lemma {:induction false} IndicatorErrorSticks<T, U>(nom: string, xs: seq<T>, check: T -> Result<U, ValidationError>, k: nat)
    requires k <= |xs| && CheckEach(nom, xs[..k], check).Err?
    ensures CheckEach(nom, xs, check) == CheckEach(nom, xs[..k], check)
    decreases |xs| - k
  {
    if k < |xs| {
      CheckEachErrorSnoc(nom, xs, check, k);
      IndicatorErrorSticks(nom, xs, check, k + 1);
    } else {
      assert xs[..k] == xs;
    }
  }

  lemma CheckEachErrorSnoc<T, U>(nom: string, xs: seq<T>, check: T -> Result<U, ValidationError>, k: nat)
    requires k < |xs| && CheckEach(nom, xs[..k], check).Err?
    ensures CheckEach(nom, xs[..k + 1], check) == CheckEach(nom, xs[..k], check)
  {
    assert xs[..k + 1][..k] == xs[..k];
  }

  /** A refused name refuses the domain before anything else is looked at. */
  lemma NameCheckedFirst(d: RawDomaine)
    requires DomainName(d.nom).Err?
    ensures DomainCheck(Object(d)) == Err(DomainName(d.nom).error)
  {
  }

  lemma OneCharacterName(c: char)
    requires c !in Whitespace
    ensures DomainName(Some([c])) == Err(DomainNameTooShort)
  {
    StripByNoop([c], Whitespace);
  }

  /** A one-character name is refused as too short, whatever the rest of the domain. */
  lemma ShortDomainNameRefused(c: char, couleur: Option<string>, description: Option<string>,
                               indicateurs: Option<seq<Raw<RawIndicateur>>>)
    requires c !in Whitespace
    ensures DomainCheck(Object(RawDomaine(Some([c]), couleur, description, indicateurs))) == Err(DomainNameTooShort)
  {
    OneCharacterName(c);
    NameCheckedFirst(RawDomaine(Some([c]), couleur, description, indicateurs));
  }

  /** A colour with a final newline passes the pattern and is kept as it is. */
  lemma ColourWithNewlineKept()
    ensures ColourMatches("#ff5722\n")
  {
    var c := "#ff5722\n";
    assert c[1] == 'f' && c[2] == 'f' && c[3] == '5' && c[4] == '7' && c[5] == '2' && c[6] == '2';
  }

  // ---------------------------------------------------------------------------------
  // Grids
  // ---------------------------------------------------------------------------------

  /** The domains of a grid checked in order, each name compared with the names before
      it; the first refusal is wrapped with its 1-based position. */
  function CheckDistinct<T>(ds: seq<T>, check: T -> Result<Domaine, ValidationError>): (r: Result<seq<Domaine>, ValidationError>)
    ensures r.Ok? ==> |r.value| == |ds| && forall k :: 0 <= k < |ds| ==> check(ds[k]) == Ok(r.value[k])
    ensures r.Ok? ==> forall j, k :: 0 <= j < k < |ds| ==> r.value[j].nom != r.value[k].nom
    ensures ((forall k :: 0 <= k < |ds| ==> check(ds[k]).Ok?) &&
             (forall j, k :: 0 <= j < k < |ds| ==> check(ds[j]).value.nom != check(ds[k]).value.nom)) ==> r.Ok?
  {
    if ds == [] then Ok([])
    else
      var init := ds[..|ds| - 1];
      match CheckDistinct(init, check)
      case Err(e) => Err(e)
      case Ok(vs) =>
        match check(ds[|ds| - 1])
        case Err(e) => Err(InDomain(|ds|, e))
        case Ok(v) =>
          if v.nom in NamesOf(vs) then Err(InDomain(|ds|, DuplicateDomain(v.nom)))
          else Ok(vs + [v])
  }

  function ValidateDomains(ds: seq<Raw<RawDomaine>>): Result<seq<Domaine>, ValidationError>
  {
    CheckDistinct(ds, DomainCheck)
  }

  function NamesOf(vs: seq<Domaine>): (names: set<string>)
    ensures forall k :: 0 <= k < |vs| ==> vs[k].nom in names
  {
    set k | 0 <= k < |vs| :: vs[k].nom
  }

  /** A grid needs 1..20 domains (None: not a list), all valid and with distinct
      names. */
  function GridCheck(domaines: Option<seq<Raw<RawDomaine>>>): (r: Result<seq<Domaine>, ValidationError>)
    ensures r.Ok? ==> domaines.Some? && 1 <= |r.value| == |domaines.value| <= 20
    ensures r.Ok? ==> forall k :: 0 <= k < |r.value| ==> DomainCheck(domaines.value[k]) == Ok(r.value[k])
    ensures r.Ok? <==> domaines.Some? && 1 <= |domaines.value| <= 20 &&
                       (forall k :: 0 <= k < |domaines.value| ==> DomainCheck(domaines.value[k]).Ok?) &&
                       (forall j, k :: 0 <= j < k < |domaines.value| ==>
                          DomainCheck(domaines.value[j]).value.nom != DomainCheck(domaines.value[k]).value.nom)
  {
    if domaines.None? || domaines.value == [] then Err(GridWithoutDomains)
    else if |domaines.value| > 20 then Err(GridTooLarge)
    else ValidateDomains(domaines.value)
  }

  method ValiderGrilleComplete(domaines: Option<seq<Raw<RawDomaine>>>) returns (r: Result<seq<Domaine>, ValidationError>)
    ensures r == GridCheck(domaines)
  {
    if domaines.None? || |domaines.value| == 0 {
      return Err(GridWithoutDomains);
    }
    var ds := domaines.value;
    if |ds| > 20 {
      return Err(GridTooLarge);
    }
    var domainesValides: seq<Domaine> := [];
    var nomsVus: set<string> := {};
    for i := 0 to |ds|
      invariant ValidateDomains(ds[..i]) == Ok(domainesValides)
      invariant nomsVus == NamesOf(domainesValides)
    {
      var domValide := ValiderDomaine(ds[i]);
      CheckDistinctSnoc(ds, DomainCheck, i);
      if domValide.Err? {
        DomainErrorSticks(ds, DomainCheck, i + 1);
        return Err(InDomain(i + 1, domValide.error));
      }
      if domValide.value.nom in nomsVus {
        DomainErrorSticks(ds, DomainCheck, i + 1);
        return Err(InDomain(i + 1, DuplicateDomain(domValide.value.nom)));
      }
      NamesOfSnoc(domainesValides, domValide.value);
      nomsVus := nomsVus + {domValide.value.nom};
      domainesValides := domainesValides + [domValide.value];
    }
    assert ds[..|ds|] == ds;
    r := Ok(domainesValides);
  }

  lemma NamesOfSnoc(vs: seq<Domaine>, v: Domaine)
    ensures NamesOf(vs + [v]) == NamesOf(vs) + {v.nom}
  {
    var ws := vs + [v];
    assert forall k :: 0 <= k < |vs| ==> ws[k] == vs[k];
    assert ws[|vs|] == v;
  }

  lemma CheckDistinctSnoc<T>(ds: seq<T>, check: T -> Result<Domaine, ValidationError>, i: nat)
    requires i < |ds|
    ensures CheckDistinct(ds[..i + 1], check) ==
      match CheckDistinct(ds[..i], check)
      case Err(e) => Err(e)
      case Ok(vs) =>
        (match check(ds[i])
         case Err(e) => Err(InDomain(i + 1, e))
         case Ok(v) => if v.nom in NamesOf(vs) then Err(InDomain(i + 1, DuplicateDomain(v.nom))) else Ok(vs + [v]))
  {
    assert ds[..i + 1][..i] == ds[..i];
  }

  lemma {:induction false} DomainErrorSticks<T>(ds: seq<T>, check: T -> Result<Domaine, ValidationError>, k: nat)
    requires k <= |ds| && CheckDistinct(ds[..k], check).Err?
    ensures CheckDistinct(ds, check) == CheckDistinct(ds[..k], check)
    decreases |ds| - k
  {
    if k < |ds| {
      assert ds[..k + 1][..k] == ds[..k];
      DomainErrorSticks(ds, check, k + 1);
    } else {
      assert ds[..k] == ds;
    }
  }

  // ---------------------------------------------------------------------------------
  // Scores of a rating
  // ---------------------------------------------------------------------------------

  /** A grid indicator as the score check reads it; a domain without an indicator list
      has the empty one. */
  datatype GridIndicator = GridIndicator(nom: string, min: real, max: real)
  datatype GridDomain = GridDomain(nom: string, indicateurs: seq<GridIndicator>)

  /** The reasons for refusing one score, each naming its key. */
  datatype ScoreError =
    | Unexpected(cle: string)
    | NotNumeric(cle: string)
    | OutOfRange(cle: string, value: real, min: real, max: real)

  /** The key of an indicator's score: domain name, '_', indicator name. */
  function ScoreKey(domaine: string, indicateur: string): (k: string)
    ensures |k| == |domaine| + 1 + |indicateur| && k[|domaine|] == '_'
    ensures k[..|domaine|] == domaine && k[|domaine| + 1..] == indicateur
  {
    domaine + "_" + indicateur
  }

  /** The keys of the first j indicators of a domain. */
  function DomainKeys(d: GridDomain, j: nat): set<string>
    requires j <= |d.indicateurs|
  {
    if j == 0 then {} else DomainKeys(d, j - 1) + {ScoreKey(d.nom, d.indicateurs[j - 1].nom)}
  }

  /** The keys of every indicator of the first i domains. */
  function ExpectedKeys(ds: seq<GridDomain>, i: nat): set<string>
    requires i <= |ds|
  {
    if i == 0 then {} else ExpectedKeys(ds, i - 1) + DomainKeys(ds[i - 1], |ds[i - 1].indicateurs|)
  }

  /** Indicator k of domain n has key `cle`. */
  ghost predicate KeyAt(ds: seq<GridDomain>, n: int, k: int, cle: string)
  {
    0 <= n < |ds| && 0 <= k < |ds[n].indicateurs| && ScoreKey(ds[n].nom, ds[n].indicateurs[k].nom) == cle
  }

  lemma {:induction false} DomainKeysIff(ds: seq<GridDomain>, n: nat, j: nat, cle: string)
    requires n < |ds| && j <= |ds[n].indicateurs|
    ensures cle in DomainKeys(ds[n], j) <==> exists k :: 0 <= k < j && KeyAt(ds, n, k, cle)
  {
    if j > 0 {
      DomainKeysIff(ds, n, j - 1, cle);
      if ScoreKey(ds[n].nom, ds[n].indicateurs[j - 1].nom) == cle {
        assert KeyAt(ds, n, j - 1, cle);
      }
    }
  }

  /** The expected keys are exactly the keys of the grid's indicators. */
  lemma {:induction false} ExpectedKeysIff(ds: seq<GridDomain>, i: nat, cle: string)
    requires i <= |ds|
    ensures cle in ExpectedKeys(ds, i) <==> exists n, k :: 0 <= n < i && KeyAt(ds, n, k, cle)
  {
    if i > 0 {
      ExpectedKeysIff(ds, i - 1, cle);
      DomainKeysIff(ds, i - 1, |ds[i - 1].indicateurs|, cle);
    }
  }

  /** Building the set of expected keys with the two nested loops of the source. */
  method ClesAttendues(ds: seq<GridDomain>) returns (cles: set<string>)
    ensures cles == ExpectedKeys(ds, |ds|)
  {
    cles := {};
    for i := 0 to |ds|
      invariant cles == ExpectedKeys(ds, i)
    {
      for j := 0 to |ds[i].indicateurs|
        invariant cles == ExpectedKeys(ds, i) + DomainKeys(ds[i], j)
      {
        cles := cles + {ScoreKey(ds[i].nom, ds[i].indicateurs[j].nom)};
      }
    }
  }

  /** The bounds of the first indicator from position k on that has the given name. */
  function IndicatorNamed(inds: seq<GridIndicator>, k: nat, nom: string): (r: Option<(real, real)>)
    requires k <= |inds|
    ensures r.Some? ==> exists j :: k <= j < |inds| && inds[j].nom == nom && r.value == (inds[j].min, inds[j].max)
    ensures r.None? ==> forall j :: k <= j < |inds| ==> inds[j].nom != nom
    decreases |inds| - k
  {
    if k == |inds| then None
    else if inds[k].nom == nom then Some((inds[k].min, inds[k].max))
    else IndicatorNamed(inds, k + 1, nom)
  }

  /** The first domain from position n on that has the given name. */
  function DomainNamed(ds: seq<GridDomain>, n: nat, nom: string): (r: Option<GridDomain>)
    requires n <= |ds|
    ensures r.Some? ==> r.value.nom == nom && r.value in ds
    decreases |ds| - n
  {
    if n == |ds| then None
    else if ds[n].nom == nom then Some(ds[n])
    else DomainNamed(ds, n + 1, nom)
  }

  /** As written: the key is split at its first '_', the first domain with the first
      part as its name is looked up, and the bounds come from its first indicator named
      by the rest; no bounds when either is missing. */
  function LimitsAsWritten(ds: seq<GridDomain>, cle: string): Option<(real, real)>
    requires '_' in cle
  {
    var sep := IndexOf(cle, '_');
    match DomainNamed(ds, 0, cle[..sep])
    case None => None
    case Some(d) => IndicatorNamed(d.indicateurs, 0, cle[sep + 1..])
  }

  /** Corrected: the bounds of the first indicator, in grid order, whose own key is
      `cle`. */
  function LimitsFor(ds: seq<GridDomain>, n: nat, cle: string): Option<(real, real)>
    requires n <= |ds|
    decreases |ds| - n
  {
    if n == |ds| then None
    else
      var d := ds[n];
      var inDomain :=
        if StartsWith(cle, d.nom + "_") then IndicatorNamed(d.indicateurs, 0, cle[|d.nom| + 1..]) else None;
      if inDomain.Some? then inDomain else LimitsFor(ds, n + 1, cle)
  }

  /** The corrected lookup finds bounds exactly when some indicator has the key, and they
      are that indicator's bounds. */
  lemma {:induction false} LimitsForSound(ds: seq<GridDomain>, n: nat, cle: string)
    requires n <= |ds|
    ensures var r := LimitsFor(ds, n, cle);
            (r.Some? ==> exists m, k :: n <= m && KeyAt(ds, m, k, cle) &&
                                        r.value == (ds[m].indicateurs[k].min, ds[m].indicateurs[k].max)) &&
            (r.None? ==> forall m, k :: n <= m ==> !KeyAt(ds, m, k, cle))
    decreases |ds| - n
  {
    if n < |ds| {
      var d := ds[n];
      var inDomain :=
        if StartsWith(cle, d.nom + "_") then IndicatorNamed(d.indicateurs, 0, cle[|d.nom| + 1..]) else None;
      KeyInDomain(ds, n, cle, inDomain);
      LimitsForSound(ds, n + 1, cle);
      if LimitsFor(ds, n, cle).None? {
        assert inDomain.None? && LimitsFor(ds, n + 1, cle).None?;
        forall m, k | n <= m
          ensures !KeyAt(ds, m, k, cle)
        {
          if m == n {
            assert !KeyAt(ds, n, k, cle);
          }
        }
      }
    }
  }

  lemma KeyInDomain(ds: seq<GridDomain>, n: nat, cle: string, inDomain: Option<(real, real)>)
    requires n < |ds|
    requires inDomain == if StartsWith(cle, ds[n].nom + "_")
                         then IndicatorNamed(ds[n].indicateurs, 0, cle[|ds[n].nom| + 1..]) else None
    ensures inDomain.Some? ==> exists k :: KeyAt(ds, n, k, cle) &&
                                          inDomain.value == (ds[n].indicateurs[k].min, ds[n].indicateurs[k].max)
    ensures inDomain.None? ==> forall k :: !KeyAt(ds, n, k, cle)
  {
    var d := ds[n];
    forall k | KeyAt(ds, n, k, cle)
      ensures StartsWith(cle, d.nom + "_") && d.indicateurs[k].nom == cle[|d.nom| + 1..]
    {
      var key := ScoreKey(d.nom, d.indicateurs[k].nom);
      assert key[..|d.nom| + 1] == d.nom + "_";
    }
    if inDomain.Some? {
      var j :| 0 <= j < |d.indicateurs| && d.indicateurs[j].nom == cle[|d.nom| + 1..] &&
               inDomain.value == (d.indicateurs[j].min, d.indicateurs[j].max);
      assert cle == cle[..|d.nom| + 1] + cle[|d.nom| + 1..];
      assert KeyAt(ds, n, j, cle);
    }
  }

  /** Which lookup of the bounds to use. */
  datatype Lookup = SplitAtFirstUnderscore | WholeKey

  /** The bounds a lookup finds for a key (none when the key has no '_'). */
  function Limits(ds: seq<GridDomain>, cle: string, lookup: Lookup): Option<(real, real)>
  {
    if '_' !in cle then None
    else if lookup == WholeKey then LimitsFor(ds, 0, cle)
    else LimitsAsWritten(ds, cle)
  }

  /** One score: refused when its key is not expected, when its value is not a number
      (or, unreachably, when the key has no '_'), or when it lies outside the bounds
      found; accepted as a number otherwise, also when no bounds are found. */
  function Classify(ds: seq<GridDomain>, cle: string, valeur: Scalar, lookup: Lookup): (r: Result<real, ScoreError>)
    ensures r.Ok? ==> cle in ExpectedKeys(ds, |ds|) && ToFloat(valeur) == Some(r.value)
    ensures r.Err? ==> r.error.cle == cle
  {
    if cle !in ExpectedKeys(ds, |ds|) then Err(Unexpected(cle))
    else if ToFloat(valeur).None? || '_' !in cle then Err(NotNumeric(cle))
    else
      var v := ToFloat(valeur).value;
      var limites := Limits(ds, cle, lookup);
      if limites.Some? && (v < limites.value.0 || v > limites.value.1) then
        Err(OutOfRange(cle, v, limites.value.0, limites.value.1))
      else
        Ok(v)
  }

  /** With the lookup by whole key, an accepted score lies within the bounds of an
      indicator of the grid that has its key. */
  lemma ClassifyWithinBounds(ds: seq<GridDomain>, cle: string, valeur: Scalar)
    requires Classify(ds, cle, valeur, WholeKey).Ok?
    ensures var v := Classify(ds, cle, valeur, WholeKey).value;
            exists n, k :: KeyAt(ds, n, k, cle) && ds[n].indicateurs[k].min <= v <= ds[n].indicateurs[k].max
  {
    LimitsForSound(ds, 0, cle);
    ExpectedKeysIff(ds, |ds|, cle);
  }

  /** Conversely, with the lookup by whole key, an expected key whose number lies within
      the bounds of every indicator that has that key is accepted, with that number. */
  lemma ClassifyAcceptsWithinBounds(ds: seq<GridDomain>, cle: string, valeur: Scalar)
    requires cle in ExpectedKeys(ds, |ds|) && ToFloat(valeur).Some?
    requires forall n, k :: KeyAt(ds, n, k, cle) ==>
               ds[n].indicateurs[k].min <= ToFloat(valeur).value <= ds[n].indicateurs[k].max
    ensures Classify(ds, cle, valeur, WholeKey) == Ok(ToFloat(valeur).value)
  {
    ExpectedKeyHasSeparator(ds, cle);
    LimitsForWithin(ds, cle, ToFloat(valeur).value);
  }

  /** A number within the bounds of every indicator that has the key is within the
      bounds the corrected lookup finds, if any. */
  lemma LimitsForWithin(ds: seq<GridDomain>, cle: string, v: real)
    requires forall n, k :: KeyAt(ds, n, k, cle) ==> ds[n].indicateurs[k].min <= v <= ds[n].indicateurs[k].max
    ensures var r := LimitsFor(ds, 0, cle); r.None? || r.value.0 <= v <= r.value.1
  {
    LimitsForSound(ds, 0, cle);
  }

  /** Every expected key holds a '_'. */
  lemma ExpectedKeyHasSeparator(ds: seq<GridDomain>, cle: string)
    requires cle in ExpectedKeys(ds, |ds|)
    ensures '_' in cle
  {
    ExpectedKeysIff(ds, |ds|, cle);
    var n, k :| 0 <= n < |ds| && KeyAt(ds, n, k, cle);
    assert cle[|ds[n].nom|] == '_';
  }

  /** The classification of one item under a lookup, as a function value. */
  function Classifier(ds: seq<GridDomain>, lookup: Lookup): (string, Scalar) -> Result<real, ScoreError>
  {
    (cle, valeur) => Classify(ds, cle, valeur, lookup)
  }

  /** The accepted scores by key and the refusals in order, for the dictionary's items
      in order. */
  function Collect(scores: seq<(string, Scalar)>, classify: (string, Scalar) -> Result<real, ScoreError>)
    : (map<string, real>, seq<ScoreError>)
  {
    if scores == [] then (map[], [])
    else
      var (valides, erreurs) := Collect(scores[..|scores| - 1], classify);
      var (cle, valeur) := scores[|scores| - 1];
      match classify(cle, valeur)
      case Ok(v) => (valides[cle := v], erreurs)
      case Err(e) => (valides, erreurs + [e])
  }

  function ScoreCheck(ds: seq<GridDomain>, scores: seq<(string, Scalar)>, lookup: Lookup): (map<string, real>, seq<ScoreError>)
  {
    Collect(scores, Classifier(ds, lookup))
  }

  /** A refusal names the key it refuses. */
  ghost predicate NamesItsKey(classify: (string, Scalar) -> Result<real, ScoreError>)
  {
    forall cle, valeur :: classify(cle, valeur).Err? ==> classify(cle, valeur).error.cle == cle
  }

  lemma ClassifierNamesItsKey(ds: seq<GridDomain>, lookup: Lookup)
    ensures NamesItsKey(Classifier(ds, lookup))
  {
    forall cle, valeur | Classifier(ds, lookup)(cle, valeur).Err?
      ensures Classifier(ds, lookup)(cle, valeur).error.cle == cle
    {
      assert Classifier(ds, lookup)(cle, valeur) == Classify(ds, cle, valeur, lookup);
    }
  }

  /** Dictionary items: no key twice. */
  predicate DistinctKeys(scores: seq<(string, Scalar)>)
  {
    forall i, j :: 0 <= i < j < |scores| ==> scores[i].0 != scores[j].0
  }

  function KeysOf(scores: seq<(string, Scalar)>): set<string>
  {
    set i | 0 <= i < |scores| :: scores[i].0
  }

  function ErrorKeys(erreurs: seq<ScoreError>): set<string>
  {
    set i | 0 <= i < |erreurs| :: erreurs[i].cle
  }

  /** The keys of the dictionary split between accepted and refused. */
  ghost predicate Partitioned(scores: seq<(string, Scalar)>, r: (map<string, real>, seq<ScoreError>))
  {
    r.0.Keys + ErrorKeys(r.1) == KeysOf(scores) && r.0.Keys !! ErrorKeys(r.1) && |r.0.Keys| + |r.1| == |scores|
  }

  lemma {:induction false} CollectPartitions(scores: seq<(string, Scalar)>, classify: (string, Scalar) -> Result<real, ScoreError>)
    requires DistinctKeys(scores) && NamesItsKey(classify)
    ensures Partitioned(scores, Collect(scores, classify))
  {
    if scores != [] {
      var init := scores[..|scores| - 1];
      CollectPartitions(init, classify);
      var item := scores[|scores| - 1];
      if classify(item.0, item.1).Ok? {
        AcceptedStep(scores, classify);
      } else {
        RefusedStep(scores, classify);
      }
    }
  }

  lemma AcceptedStep(scores: seq<(string, Scalar)>, classify: (string, Scalar) -> Result<real, ScoreError>)
    requires scores != [] && DistinctKeys(scores)
    requires Partitioned(scores[..|scores| - 1], Collect(scores[..|scores| - 1], classify))
    requires classify(scores[|scores| - 1].0, scores[|scores| - 1].1).Ok?
    ensures Partitioned(scores, Collect(scores, classify))
  {
    var init := scores[..|scores| - 1];
    var r := Collect(init, classify);
    var item := scores[|scores| - 1];
    var v := classify(item.0, item.1).value;
    KeysOfSnoc(scores);
    MapAddKey(r.0, item.0, v);
    assert Collect(scores, classify) == (r.0[item.0 := v], r.1);
    AddToOneSide(r.0.Keys, ErrorKeys(r.1), KeysOf(init), item.0);
  }

  lemma RefusedStep(scores: seq<(string, Scalar)>, classify: (string, Scalar) -> Result<real, ScoreError>)
    requires scores != [] && DistinctKeys(scores) && NamesItsKey(classify)
    requires Partitioned(scores[..|scores| - 1], Collect(scores[..|scores| - 1], classify))
    requires classify(scores[|scores| - 1].0, scores[|scores| - 1].1).Err?
    ensures Partitioned(scores, Collect(scores, classify))
  {
    var init := scores[..|scores| - 1];
    var r := Collect(init, classify);
    var item := scores[|scores| - 1];
    var e := classify(item.0, item.1).error;
    assert e.cle == item.0;
    KeysOfSnoc(scores);
    ErrorKeysSnoc(r.1, e);
    assert Collect(scores, classify) == (r.0, r.1 + [e]);
    AddToSecond(r.0.Keys, ErrorKeys(r.1), KeysOf(init), item.0);
  }

  lemma KeysOfSnoc(scores: seq<(string, Scalar)>)
    requires scores != [] && DistinctKeys(scores)
    ensures var init := scores[..|scores| - 1];
            KeysOf(scores) == KeysOf(init) + {scores[|scores| - 1].0} && scores[|scores| - 1].0 !in KeysOf(init)
  {
    var init := scores[..|scores| - 1];
    assert forall i :: 0 <= i < |init| ==> init[i] == scores[i];
  }

  lemma AddToOneSide(a: set<string>, b: set<string>, all: set<string>, k: string)
    requires a + b == all && a !! b && k !in all
    ensures (a + {k}) + b == all + {k} && (a + {k}) !! b && |a + {k}| == |a| + 1
  {
  }

  lemma AddToSecond(a: set<string>, b: set<string>, all: set<string>, k: string)
    requires a + b == all && a !! b && k !in all
    ensures a + (b + {k}) == all + {k} && a !! (b + {k})
  {
  }

  lemma MapAddKey(m: map<string, real>, k: string, v: real)
    requires k !in m
    ensures m[k := v].Keys == m.Keys + {k} && |m[k := v].Keys| == |m.Keys| + 1
  {
  }

  lemma ErrorKeysSnoc(erreurs: seq<ScoreError>, e: ScoreError)
    ensures ErrorKeys(erreurs + [e]) == ErrorKeys(erreurs) + {e.cle}
  {
    var es := erreurs + [e];
    assert forall i :: 0 <= i < |erreurs| ==> es[i] == erreurs[i];
    assert es[|erreurs|] == e;
  }

  /** Every key given ends up either accepted or refused, never both, and nothing is
      dropped: accepted plus refused is the number of scores given. */
  lemma ScoresPartitioned(ds: seq<GridDomain>, scores: seq<(string, Scalar)>, lookup: Lookup)
    requires DistinctKeys(scores)
    ensures var (valides, erreurs) := ScoreCheck(ds, scores, lookup);
            valides.Keys + ErrorKeys(erreurs) == KeysOf(scores) &&
            valides.Keys !! ErrorKeys(erreurs) &&
            |valides.Keys| + |erreurs| == |scores|
  {
    ClassifierNamesItsKey(ds, lookup);
    CollectPartitions(scores, Classifier(ds, lookup));
  }

  /** A key is accepted exactly when its own classification accepts it, with that
      number. */
  lemma {:induction false} CollectFollowsClassify(scores: seq<(string, Scalar)>, classify: (string, Scalar) -> Result<real, ScoreError>, i: nat)
    requires DistinctKeys(scores) && NamesItsKey(classify) && i < |scores|
    ensures var valides := Collect(scores, classify).0;
            var (cle, valeur) := scores[i];
            match classify(cle, valeur)
            case Ok(v) => cle in valides && valides[cle] == v
            case Err(_) => cle !in valides
  {
    var init := scores[..|scores| - 1];
    DistinctInit(scores);
    CollectLast(scores, classify);
    if i < |scores| - 1 {
      assert init[i] == scores[i];
      CollectFollowsClassify(init, classify, i);
    } else {
      KeysOfSnoc(scores);
      CollectPartitions(init, classify);
    }
  }

  lemma DistinctInit(scores: seq<(string, Scalar)>)
    requires scores != [] && DistinctKeys(scores)
    ensures DistinctKeys(scores[..|scores| - 1])
    ensures forall i :: 0 <= i < |scores| - 1 ==> scores[i].0 != scores[|scores| - 1].0
  {
  }

  /** The accepted scores after one more key: that key's number is added when its
      classification accepts it. */
  lemma CollectLast(scores: seq<(string, Scalar)>, classify: (string, Scalar) -> Result<real, ScoreError>)
    requires scores != []
    ensures var v0 := Collect(scores[..|scores| - 1], classify).0;
            var (cle, valeur) := scores[|scores| - 1];
            Collect(scores, classify).0 == if classify(cle, valeur).Ok? then v0[cle := classify(cle, valeur).value] else v0
  {
  }

  /** With the corrected lookup, an accepted score lies within the bounds of an indicator
      of the grid that has its key; and an expected key with a number within those
      bounds is accepted. */
  lemma AcceptedWithinBounds(ds: seq<GridDomain>, scores: seq<(string, Scalar)>, i: nat)
    requires DistinctKeys(scores) && i < |scores|
    ensures var valides := ScoreCheck(ds, scores, WholeKey).0;
            var (cle, valeur) := scores[i];
            cle in valides ==> ToFloat(valeur) == Some(valides[cle]) &&
                               exists n, k :: KeyAt(ds, n, k, cle) &&
                                             ds[n].indicateurs[k].min <= valides[cle] <= ds[n].indicateurs[k].max
    ensures var valides := ScoreCheck(ds, scores, WholeKey).0;
            var (cle, valeur) := scores[i];
            cle in ExpectedKeys(ds, |ds|) && ToFloat(valeur).Some? &&
            (forall n, k :: KeyAt(ds, n, k, cle) ==>
               ds[n].indicateurs[k].min <= ToFloat(valeur).value <= ds[n].indicateurs[k].max)
            ==> cle in valides && valides[cle] == ToFloat(valeur).value
  {
    ClassifierNamesItsKey(ds, WholeKey);
    CollectFollowsClassify(scores, Classifier(ds, WholeKey), i);
    var (cle, valeur) := scores[i];
    assert Classifier(ds, WholeKey)(cle, valeur) == Classify(ds, cle, valeur, WholeKey);
    if Classify(ds, cle, valeur, WholeKey).Ok? {
      ClassifyWithinBounds(ds, cle, valeur);
    }
    if cle in ExpectedKeys(ds, |ds|) && ToFloat(valeur).Some? &&
       forall n, k :: KeyAt(ds, n, k, cle) ==>
         ds[n].indicateurs[k].min <= ToFloat(valeur).value <= ds[n].indicateurs[k].max
    {
      ClassifyAcceptsWithinBounds(ds, cle, valeur);
    }
  }

  /** `valider_scores_cotation`, with the bounds looked up by the whole key: the expected
      keys first, then every item in order. */
  method ValiderScoresCotation(scores: seq<(string, Scalar)>, ds: seq<GridDomain>)
    returns (scoresValides: map<string, real>, erreurs: seq<ScoreError>)
    ensures (scoresValides, erreurs) == ScoreCheck(ds, scores, WholeKey)
  {
    var cles := ClesAttendues(ds);
    scoresValides := map[];
    erreurs := [];
    for i := 0 to |scores|
      invariant (scoresValides, erreurs) == ScoreCheck(ds, scores[..i], WholeKey)
    {
      assert scores[..i + 1][..i] == scores[..i];
      var (cle, valeur) := scores[i];
      var verdict: Result<real, ScoreError>;
      if cle !in cles {
        verdict := Err(Unexpected(cle));
      } else {
        var valNum := ToFloat(valeur);
        if valNum.None? || '_' !in cle {
          verdict := Err(NotNumeric(cle));
        } else {
          var limites := ChercherLimites(ds, cle);
          if limites.Some? && (valNum.value < limites.value.0 || valNum.value > limites.value.1) {
            verdict := Err(OutOfRange(cle, valNum.value, limites.value.0, limites.value.1));
          } else {
            verdict := Ok(valNum.value);
          }
        }
      }
      assert verdict == Classify(ds, cle, valeur, WholeKey);
      if verdict.Ok? {
        scoresValides := scoresValides[cle := verdict.value];
      } else {
        erreurs := erreurs + [verdict.error];
      }
    }
    assert scores[..|scores|] == scores;
  }

  /** The loops looking up the bounds of a key: domains in order, and within a domain
      whose name and '_' begin the key, its indicators in order. */
  method ChercherLimites(ds: seq<GridDomain>, cle: string) returns (limites: Option<(real, real)>)
    ensures limites == LimitsFor(ds, 0, cle)
  {
    limites := None;
    var n := 0;
    while n < |ds|
      invariant 0 <= n <= |ds|
      invariant LimitsFor(ds, 0, cle) == LimitsFor(ds, n, cle)
    {
      var d := ds[n];
      if StartsWith(cle, d.nom + "_") {
        var rest := cle[|d.nom| + 1..];
        var k := 0;
        while k < |d.indicateurs|
          invariant 0 <= k <= |d.indicateurs|
          invariant IndicatorNamed(d.indicateurs, 0, rest) == IndicatorNamed(d.indicateurs, k, rest)
        {
          if d.indicateurs[k].nom == rest {
            return Some((d.indicateurs[k].min, d.indicateurs[k].max));
          }
          k := k + 1;
        }
      }
      n := n + 1;
    }
  }

  /** The first '_' of a key built from a domain name whose first part `a` has no '_'
      is the one right after `a`. */
  lemma FirstSeparator(a: string, rest: string)
    requires '_' !in a
    ensures '_' in a + "_" + rest && IndexOf(a + "_" + rest, '_') == |a|
  {
    var s := a + "_" + rest;
    assert s[|a|] == '_' && s[..|a|] == a;
  }

  /** A domain whose name holds '_' (a + "_" + b, with no '_' in a): its keys are split
      inside the domain name, no domain is named a, so as written no bounds are found and
      any number is accepted, above the maximum too; the lookup by whole key refuses
      it. */
  lemma UnderscoreInDomainNameSkipsBounds(a: string, b: string, ind: string, lo: real, hi: real, v: real)
    requires '_' !in a && lo < hi < v
    ensures var nom := a + "_" + b;
            var ds := [GridDomain(nom, [GridIndicator(ind, lo, hi)])];
            var cle := ScoreKey(nom, ind);
            Classify(ds, cle, Num(v), SplitAtFirstUnderscore) == Ok(v) &&
            Classify(ds, cle, Num(v), WholeKey) == Err(OutOfRange(cle, v, lo, hi))
  {
    var nom := a + "_" + b;
    var ds := [GridDomain(nom, [GridIndicator(ind, lo, hi)])];
    var cle := ScoreKey(nom, ind);
    assert cle == a + "_" + (b + "_" + ind);
    FirstSeparator(a, b + "_" + ind);
    assert cle[..|a|] == a;
    assert DomainNamed(ds, 1, a) == None;
    assert DomainNamed(ds, 0, a) == None;
    assert cle in ExpectedKeys(ds, 1) by {
      assert DomainKeys(ds[0], 1) == {cle};
    }
    assert StartsWith(cle, nom + "_");
    assert cle[|nom| + 1..] == ind;
    assert IndicatorNamed(ds[0].indicateurs, 0, ind) == Some((lo, hi));
    assert LimitsFor(ds, 0, cle) == Some((lo, hi));
  }

  /** Domain names without '_', and no name twice (as a validated grid guarantees). */
  predicate CleanNames(ds: seq<GridDomain>)
  {
    (forall n :: 0 <= n < |ds| ==> '_' !in ds[n].nom) &&
    (forall m, n :: 0 <= m < n < |ds| ==> ds[m].nom != ds[n].nom)
  }

  /** The key of another domain's indicator does not begin with this domain's name and
      '_' when neither name holds '_'. */
  lemma NotPrefixed(p: string, q: string, x: string)
    requires '_' !in p && '_' !in q && p != q
    ensures !StartsWith(q + "_" + x, p + "_")
  {
    var s := q + "_" + x;
    var pre := p + "_";
    if |pre| <= |s| {
      if |p| < |q| {
        assert s[..|pre|][|p|] == q[|p|] != '_' == pre[|p|];
      } else if |p| > |q| {
        assert s[..|pre|][|q|] == '_' != p[|q|] == pre[|q|];
      } else {
        assert s[..|pre|][..|p|] == q;
        assert pre[..|p|] == p;
      }
    }
  }

  lemma {:induction false} DomainNamedFinds(ds: seq<GridDomain>, j: nat, n: nat)
    requires CleanNames(ds) && j <= n < |ds|
    ensures DomainNamed(ds, j, ds[n].nom) == Some(ds[n])
    decreases n - j
  {
    if j < n {
      DomainNamedFinds(ds, j + 1, n);
    }
  }

  lemma {:induction false} LimitsForSkips(ds: seq<GridDomain>, j: nat, n: nat, x: string)
    requires CleanNames(ds) && j <= n < |ds|
    ensures LimitsFor(ds, j, ScoreKey(ds[n].nom, x)) == LimitsFor(ds, n, ScoreKey(ds[n].nom, x))
    decreases n - j
  {
    if j < n {
      NotPrefixed(ds[j].nom, ds[n].nom, x);
      LimitsForSkips(ds, j + 1, n, x);
    }
  }

  /** When no domain name holds '_' and none repeats, splitting a grid key at its first
      '_' finds the same bounds as the lookup by whole key. */
  lemma LimitsAgreeOnCleanNames(ds: seq<GridDomain>, n: nat, k: nat)
    requires CleanNames(ds) && n < |ds| && k < |ds[n].indicateurs|
    ensures var cle := ScoreKey(ds[n].nom, ds[n].indicateurs[k].nom);
            '_' in cle && LimitsAsWritten(ds, cle) == LimitsFor(ds, 0, cle)
  {
    var d := ds[n];
    var x := d.indicateurs[k].nom;
    var cle := ScoreKey(d.nom, x);
    FirstSeparator(d.nom, x);
    DomainNamedFinds(ds, 0, n);
    LimitsForSkips(ds, 0, n, x);
    assert StartsWith(cle, d.nom + "_");
    assert LimitsFor(ds, n, cle) == IndicatorNamed(d.indicateurs, 0, x);
  }

  /** Hence on such grids both classifications of a score agree. */
  lemma AsWrittenAgreesOnCleanNames(ds: seq<GridDomain>, cle: string, valeur: Scalar)
    requires CleanNames(ds)
    ensures Classify(ds, cle, valeur, SplitAtFirstUnderscore) == Classify(ds, cle, valeur, WholeKey)
  {
    ExpectedKeysIff(ds, |ds|, cle);
    if cle in ExpectedKeys(ds, |ds|) {
      var n, k :| 0 <= n < |ds| && KeyAt(ds, n, k, cle);
      LimitsAgreeOnCleanNames(ds, n, k);
    }
    SameLimitsSameVerdict(ds, cle, valeur);
  }

  lemma SameLimitsSameVerdict(ds: seq<GridDomain>, cle: string, valeur: Scalar)
    requires cle !in ExpectedKeys(ds, |ds|) || '_' !in cle ||
             LimitsAsWritten(ds, cle) == LimitsFor(ds, 0, cle)
    ensures Classify(ds, cle, valeur, SplitAtFirstUnderscore) == Classify(ds, cle, valeur, WholeKey)
  {
  }

  /** A key that is no indicator's key is refused as unexpected, whatever its value. */
  lemma UnknownKeyRefused(ds: seq<GridDomain>, cle: string, valeur: Scalar, lookup: Lookup)
    requires forall n, k :: !KeyAt(ds, n, k, cle)
    ensures Classify(ds, cle, valeur, lookup) == Err(Unexpected(cle))
  {
    ExpectedKeysIff(ds, |ds|, cle);
  }

  /** A score above the maximum of its indicator is refused as out of range, by either
      lookup, when the domain name has no '_'. */
  lemma AboveMaximumRefused(d: string, ind: string, lo: real, hi: real, v: real, lookup: Lookup)
    requires '_' !in d && hi < v
    ensures var ds := [GridDomain(d, [GridIndicator(ind, lo, hi)])];
            Classify(ds, ScoreKey(d, ind), Num(v), lookup) == Err(OutOfRange(ScoreKey(d, ind), v, lo, hi))
  {
    var ds := [GridDomain(d, [GridIndicator(ind, lo, hi)])];
    var cle := ScoreKey(d, ind);
    assert DomainKeys(ds[0], 1) == {cle};
    assert cle in ExpectedKeys(ds, 1);
    LimitsAgreeOnCleanNames(ds, 0, 0);
    assert StartsWith(cle, d + "_") && cle[|d| + 1..] == ind;
    assert LimitsFor(ds, 0, cle) == Some((lo, hi));
  }

  lemma TwoChecked<T>(a: T, b: T, check: T -> Result<Domaine, ValidationError>)
    requires check(a).Ok? && check(b).Ok?
    ensures CheckDistinct([a, b], check) ==
            if check(a).value.nom == check(b).value.nom then Err(InDomain(2, DuplicateDomain(check(b).value.nom)))
            else Ok([check(a).value, check(b).value])
  {
    var ds := [a, b];
    OneChecked(a, check);
    CheckDistinctSnoc(ds, check, 1);
    assert ds[..1] == [a] && ds[..2] == ds && ds[1] == b;
    assert NamesOf([check(a).value]) == {check(a).value.nom};
    assert [check(a).value] + [check(b).value] == [check(a).value, check(b).value];
  }

  lemma OneChecked<T>(a: T, check: T -> Result<Domaine, ValidationError>)
    requires check(a).Ok?
    ensures CheckDistinct([a], check) == Ok([check(a).value])
  {
    CheckDistinctSnoc([a], check, 0);
    assert [a][..0] == [] && [a][..1] == [a];
    var none: seq<Domaine> := [];
    assert NamesOf(none) == {};
    assert none + [check(a).value] == [check(a).value];
  }

  /** Two valid domains with different names make a valid grid of those two domains, in
      order. */
  lemma TwoDomainGrid(a: Raw<RawDomaine>, b: Raw<RawDomaine>)
    requires DomainCheck(a).Ok? && DomainCheck(b).Ok? && DomainCheck(a).value.nom != DomainCheck(b).value.nom
    ensures GridCheck(Some([a, b])) == Ok([DomainCheck(a).value, DomainCheck(b).value])
  {
    TwoChecked(a, b, DomainCheck);
  }

  /** Two valid domains with the same name are refused: the second is a duplicate. */
  lemma DuplicateDomainRefused(a: Raw<RawDomaine>, b: Raw<RawDomaine>)
    requires DomainCheck(a).Ok? && DomainCheck(b).Ok? && DomainCheck(a).value.nom == DomainCheck(b).value.nom
    ensures GridCheck(Some([a, b])) == Err(InDomain(2, DuplicateDomain(DomainCheck(b).value.nom)))
  {
    TwoChecked(a, b, DomainCheck);
  }
}

/** The grid editor form: domain cards holding indicator rows, the colour given to each
    new card, the rule that a card keeps at least one row, the collection of the form
    into a grid, and the grid id read from the page path. */
module GrilleForm {
  import opened Wrappers
  import opened Text
  import opened Numbers

  /** An indicator row as typed: every field is text. */
  datatype IndicatorRow = IndicatorRow(nom: string, min: string, max: string, unite: string)

  /** A domain card: its data-domaine-id, its fields and its indicator rows. */
  datatype DomainCard = DomainCard(id: nat, nom: string, couleur: string, description: string, rows: seq<IndicatorRow>)

  datatype FormIndicator = FormIndicator(nom: string, min: int, max: int, unite: string)
  datatype FormDomain = FormDomain(nom: string, couleur: string, description: string, indicateurs: seq<FormIndicator>)
  datatype FormGrid = FormGrid(nom: string, description: string, domaines: seq<FormDomain>)

  /** The errors thrown while collecting, with the names the messages quote. */
  datatype FormError =
    | GridNameMissing
    | NoDomain
    | DomainNameMissing
    | DomainWithoutIndicator(domaine: string)
    | IndicatorNameMissing(domaine: string)
    | InvalidBounds(indicateur: string)

  /** The colours given to new domains in turn. */
  const Couleurs: seq<string> := ["#007bff", "#28a745", "#dc3545", "#ffc107", "#6f42c1", "#20c997", "#fd7e14"]

  const DefaultUnit: string := "points"

  function ColourFor(counter: nat): (c: string)
    ensures c in Couleurs && c == Couleurs[counter % 7]
  {
    Couleurs[counter % |Couleurs|]
  }

  /** Colours come round again every seven domains. */
  lemma ColoursCycle(counter: nat)
    ensures ColourFor(counter + |Couleurs|) == ColourFor(counter)
  {
  }

  // ---------------------------------------------------------------------------------
  // Collecting the form
  // ---------------------------------------------------------------------------------

  /** One row: a trimmed name, and bounds that parseInt reads as integers with min below
      max; the trimmed unit, or "points" when empty. */
  function CollectRow(nomDomaine: string, row: IndicatorRow): (r: Result<FormIndicator, FormError>)
    ensures r.Ok? <==> Strip(row.nom) != [] && ParseIntJs(row.min).Some? && ParseIntJs(row.max).Some? &&
                       ParseIntJs(row.min).value < ParseIntJs(row.max).value
    ensures r.Ok? ==> r.value.nom == Strip(row.nom) && Some(r.value.min) == ParseIntJs(row.min) &&
                      Some(r.value.max) == ParseIntJs(row.max)
    ensures r.Ok? && Strip(row.unite) != [] ==> r.value.unite == Strip(row.unite)
    ensures r.Ok? && Strip(row.unite) == [] ==> r.value.unite == DefaultUnit
    ensures r.Err? && Strip(row.nom) == [] ==> r.error == IndicatorNameMissing(nomDomaine)
    ensures r.Err? && Strip(row.nom) != [] ==> r.error == InvalidBounds(Strip(row.nom))
  {
    var nomIndicateur := Strip(row.nom);
    var min := ParseIntJs(row.min);
    var max := ParseIntJs(row.max);
    var unite := Strip(row.unite);
    if nomIndicateur == [] then Err(IndicatorNameMissing(nomDomaine))
    else if min.None? || max.None? || min.value >= max.value then Err(InvalidBounds(nomIndicateur))
    else Ok(FormIndicator(nomIndicateur, min.value, max.value, if unite == [] then DefaultUnit else unite))
  }

  /** Every element collected in order, or the error of the first one that fails. The
      collector is a parameter, applied to a context and an element. */
  function CollectAll<C, T, U>(ctx: C, xs: seq<T>, collect: (C, T) -> Result<U, FormError>): (r: Result<seq<U>, FormError>)
    ensures r.Ok? <==> forall k :: 0 <= k < |xs| ==> collect(ctx, xs[k]).Ok?
    ensures r.Ok? ==> |r.value| == |xs| && forall k :: 0 <= k < |xs| ==> collect(ctx, xs[k]) == Ok(r.value[k])
    ensures r.Err? ==> exists k :: 0 <= k < |xs| && collect(ctx, xs[k]).Err? && r.error == collect(ctx, xs[k]).error &&
                                   forall j :: 0 <= j < k ==> collect(ctx, xs[j]).Ok?
  {
    if xs == [] then Ok([])
    else
      var init := xs[..|xs| - 1];
      match CollectAll(ctx, init, collect)
      case Err(e) =>
        assert forall k :: 0 <= k < |init| ==> init[k] == xs[k];
        Err(e)
      case Ok(vs) =>
        match collect(ctx, xs[|xs| - 1])
        case Err(e) => Err(e)
        case Ok(v) => Ok(vs + [v])
  }

  lemma CollectAllSnoc<C, T, U>(ctx: C, xs: seq<T>, collect: (C, T) -> Result<U, FormError>, i: nat)
    requires i < |xs|
    ensures CollectAll(ctx, xs[..i + 1], collect) ==
      match CollectAll(ctx, xs[..i], collect)
      case Err(e) => Err(e)
      case Ok(vs) => (match collect(ctx, xs[i]) case Err(e) => Err(e) case Ok(v) => Ok(vs + [v]))
  {
    assert xs[..i + 1][..i] == xs[..i];
  }

  /** One step of a collecting loop: a failing element ends the collection with its
      error, a collected one extends the prefix's result. */
  lemma CollectAllStep<C, T, U>(ctx: C, xs: seq<T>, collect: (C, T) -> Result<U, FormError>, i: nat, acc: seq<U>)
    requires i < |xs| && CollectAll(ctx, xs[..i], collect) == Ok(acc)
    ensures collect(ctx, xs[i]).Err? ==> CollectAll(ctx, xs, collect) == Err(collect(ctx, xs[i]).error)
    ensures collect(ctx, xs[i]).Ok? ==> CollectAll(ctx, xs[..i + 1], collect) == Ok(acc + [collect(ctx, xs[i]).value])
  {
    CollectAllSnoc(ctx, xs, collect, i);
    if collect(ctx, xs[i]).Err? {
      CollectAllErrorSticks(ctx, xs, collect, i + 1);
    }
  }

  lemma {:induction false} CollectAllErrorSticks<C, T, U>(ctx: C, xs: seq<T>, collect: (C, T) -> Result<U, FormError>, k: nat)
    requires k <= |xs| && CollectAll(ctx, xs[..k], collect).Err?
    ensures CollectAll(ctx, xs, collect) == CollectAll(ctx, xs[..k], collect)
    decreases |xs| - k
  {
    if k < |xs| {
      CollectAllSnoc(ctx, xs, collect, k);
      CollectAllErrorSticks(ctx, xs, collect, k + 1);
    } else {
      assert xs[..k] == xs;
    }
  }

  /** The element at k fails and all before it succeed: its error is the result. */
  lemma CollectAllFirstError<C, T, U>(ctx: C, xs: seq<T>, collect: (C, T) -> Result<U, FormError>, k: nat)
    requires k < |xs| && collect(ctx, xs[k]).Err?
    requires forall j :: 0 <= j < k ==> collect(ctx, xs[j]).Ok?
    ensures CollectAll(ctx, xs, collect) == Err(collect(ctx, xs[k]).error)
  {
    var r := CollectAll(ctx, xs, collect);
    var i :| 0 <= i < |xs| && collect(ctx, xs[i]).Err? && r.error == collect(ctx, xs[i]).error &&
             forall j :: 0 <= j < i ==> collect(ctx, xs[j]).Ok?;
    assert i == k;
  }

  /** One card: a trimmed name, at least one row, every row collected; the colour is
      kept as it is and the description trimmed. (The context is not used.) */
  function CollectCard(ctx: (), card: DomainCard): (r: Result<FormDomain, FormError>)
    ensures r.Ok? ==> r.value.nom == Strip(card.nom) != [] && |r.value.indicateurs| == |card.rows| >= 1
    ensures r.Ok? ==> r.value.couleur == card.couleur
  {
    var nomDomaine := Strip(card.nom);
    if nomDomaine == [] then Err(DomainNameMissing)
    else if card.rows == [] then Err(DomainWithoutIndicator(nomDomaine))
    else
      match CollectAll(nomDomaine, card.rows, CollectRow)
      case Err(e) => Err(e)
      case Ok(indicateurs) => Ok(FormDomain(nomDomaine, card.couleur, Strip(card.description), indicateurs))
  }

  /** The whole form: a trimmed grid name, at least one card, every card collected in
      order; the first violation is the result. */
  function Collect(nom: string, description: string, cards: seq<DomainCard>): (r: Result<FormGrid, FormError>)
    ensures r.Ok? ==> r.value.nom == Strip(nom) != [] && |r.value.domaines| == |cards| >= 1
    ensures r.Ok? ==> forall k :: 0 <= k < |cards| ==> CollectCard((), cards[k]) == Ok(r.value.domaines[k])
  {
    var nomGrille := Strip(nom);
    if nomGrille == [] then Err(GridNameMissing)
    else if cards == [] then Err(NoDomain)
    else
      match CollectAll((), cards, CollectCard)
      case Err(e) => Err(e)
      case Ok(domaines) => Ok(FormGrid(nomGrille, Strip(description), domaines))
  }

  /** Collected indicators keep the rows' order and their trimmed names. */
  lemma CollectedRowsInOrder(card: DomainCard, k: nat)
    requires CollectCard((), card).Ok? && k < |card.rows|
    ensures CollectCard((), card).value.indicateurs[k].nom == Strip(card.rows[k].nom)
    ensures CollectCard((), card).value.indicateurs[k] == CollectRow(Strip(card.nom), card.rows[k]).value
  {
  }

  /** The first row that fails decides the card's error, whatever follows it. */
  lemma FirstBadRowDecides(card: DomainCard, k: nat)
    requires Strip(card.nom) != [] && k < |card.rows|
    requires forall j :: 0 <= j < k ==> CollectRow(Strip(card.nom), card.rows[j]).Ok?
    requires CollectRow(Strip(card.nom), card.rows[k]).Err?
    ensures CollectCard((), card) == Err(CollectRow(Strip(card.nom), card.rows[k]).error)
  {
    CollectAllFirstError(Strip(card.nom), card.rows, CollectRow, k);
  }

  // ---------------------------------------------------------------------------------
  // The form state
  // ---------------------------------------------------------------------------------

  class GrilleFormState {
    var domaineCounter: nat
    var cards: seq<DomainCard>

    /** Every card has at least one row; ids were handed out by the counter in
        increasing order. */
    ghost predicate Valid()
      reads this
    {
      (forall i :: 0 <= i < |cards| ==> |cards[i].rows| >= 1 && cards[i].id < domaineCounter) &&
      (forall i, j :: 0 <= i < j < |cards| ==> cards[i].id < cards[j].id)
    }

    constructor()
      ensures Valid() && domaineCounter == 0 && cards == []
    {
      domaineCounter := 0;
      cards := [];
    }

    /** `ajouterDomaine`: a card cloned from the template (its name, description and
        first row are the template's) with the next colour and id, then the counter
        moves on. */
    method AjouterDomaine(nom: string, description: string, ligne: IndicatorRow)
      requires Valid()
      modifies this
      ensures Valid()
      ensures domaineCounter == old(domaineCounter) + 1
      ensures cards == old(cards) + [DomainCard(old(domaineCounter), nom, ColourFor(old(domaineCounter)), description, [ligne])]
    {
      var couleur := ColourFor(domaineCounter);
      cards := cards + [DomainCard(domaineCounter, nom, couleur, description, [ligne])];
      domaineCounter := domaineCounter + 1;
    }

    /** `ajouterIndicateur`: a row appended to card d. */
    method AjouterIndicateur(d: nat, ligne: IndicatorRow)
      requires Valid() && d < |cards|
      modifies this
      ensures Valid() && domaineCounter == old(domaineCounter)
      ensures cards == old(cards)[d := old(cards)[d].(rows := old(cards)[d].rows + [ligne])]
    {
      cards := cards[d := cards[d].(rows := cards[d].rows + [ligne])];
    }

    /** `supprimerIndicateur`: row r of card d is removed only when the card has more than
        one row; otherwise nothing changes (and an alert is shown). */
    method SupprimerIndicateur(d: nat, r: nat) returns (supprime: bool)
      requires Valid() && d < |cards| && r < |cards[d].rows|
      modifies this
      ensures Valid() && domaineCounter == old(domaineCounter)
      ensures supprime <==> |old(cards)[d].rows| > 1
      ensures supprime ==> cards == old(cards)[d := old(cards)[d].(rows := old(cards)[d].rows[..r] + old(cards)[d].rows[r + 1..])]
      ensures !supprime ==> cards == old(cards)
    {
      var rows := cards[d].rows;
      if |rows| > 1 {
        cards := cards[d := cards[d].(rows := rows[..r] + rows[r + 1..])];
        supprime := true;
      } else {
        supprime := false;
      }
    }

    /** `supprimerDomaine`: card d is removed once the user confirms. */
    method SupprimerDomaine(d: nat, confirmed: bool)
      requires Valid() && d < |cards|
      modifies this
      ensures Valid() && domaineCounter == old(domaineCounter)
      ensures confirmed ==> cards == old(cards)[..d] + old(cards)[d + 1..]
      ensures !confirmed ==> cards == old(cards)
    {
      if confirmed {
        cards := cards[..d] + cards[d + 1..];
      }
    }

    /** `collecterDonnees`: the checks of Collect, run over the cards and their rows in
        nested loops that stop at the first violation. */
    method CollecterDonnees(nom: string, description: string) returns (r: Result<FormGrid, FormError>)
      ensures r == Collect(nom, description, cards)
    {
      var nomGrille := Strip(nom);
      var descriptionGrille := Strip(description);
      if nomGrille == [] {
        return Err(GridNameMissing);
      }
      if |cards| == 0 {
        return Err(NoDomain);
      }
      var domaines := CollecterDomaines(cards);
      if domaines.Err? {
        return Err(domaines.error);
      }
      r := Ok(FormGrid(nomGrille, descriptionGrille, domaines.value));
    }
  }

  /** The outer loop of `collecterDonnees`: the cards in order, stopping at the first
      that fails. */
  method CollecterDomaines(cards: seq<DomainCard>) returns (r: Result<seq<FormDomain>, FormError>)
    ensures r == CollectAll((), cards, CollectCard)
  {
    var domaines: seq<FormDomain> := [];
    for i := 0 to |cards|
      invariant CollectAll((), cards[..i], CollectCard) == Ok(domaines)
    {
      var domaine := CollecterDomaine(cards[i]);
      CollectAllStep((), cards, CollectCard, i, domaines);
      if domaine.Err? {
        return Err(domaine.error);
      }
      domaines := domaines + [domaine.value];
    }
    assert cards[..|cards|] == cards;
    r := Ok(domaines);
  }

  /** The inner loop of `collecterDonnees` for one card. */
  method CollecterDomaine(card: DomainCard) returns (r: Result<FormDomain, FormError>)
    ensures r == CollectCard((), card)
  {
    var nomDomaine := Strip(card.nom);
    if nomDomaine == [] {
      return Err(DomainNameMissing);
    }
    if |card.rows| == 0 {
      return Err(DomainWithoutIndicator(nomDomaine));
    }
    var indicateurs: seq<FormIndicator> := [];
    for j := 0 to |card.rows|
      invariant CollectAll(nomDomaine, card.rows[..j], CollectRow) == Ok(indicateurs)
    {
      var indicateur := CollectRow(nomDomaine, card.rows[j]);
      CollectAllStep(nomDomaine, card.rows, CollectRow, j, indicateurs);
      if indicateur.Err? {
        return Err(indicateur.error);
      }
      indicateurs := indicateurs + [indicateur.value];
    }
    assert card.rows[..|card.rows|] == card.rows;
    r := Ok(FormDomain(nomDomaine, card.couleur, Strip(card.description), indicateurs));
  }

  // ---------------------------------------------------------------------------------
  // The grid id in the page path
  // ---------------------------------------------------------------------------------

  const GrillesSegment: string := "/grilles/"

  /** "/grilles/" followed by a digit starts at position i. */
  predicate GrilleIdAt(path: string, i: nat)
  {
    i + |GrillesSegment| < |path| && path[i..i + |GrillesSegment|] == GrillesSegment &&
    IsDigit(path[i + |GrillesSegment|])
  }

  /** The integer of the digits following "/grilles/" at position i. */
  function IdAt(path: string, i: nat): nat
    requires GrilleIdAt(path, i)
  {
    DigitsValue(DigitPrefix(path[i + |GrillesSegment|..]))
  }

  /** The first match of /\/grilles\/(\d+)/ from position i on. */
  function FirstGrilleId(path: string, i: nat): (r: Option<nat>)
    requires i <= |path|
    ensures r.Some? ==> exists j :: i <= j && GrilleIdAt(path, j) && r.value == IdAt(path, j) &&
                                    forall k :: i <= k < j ==> !GrilleIdAt(path, k)
    ensures r.None? ==> forall j :: i <= j ==> !GrilleIdAt(path, j)
    decreases |path| - i
  {
    if i == |path| then None
    else if GrilleIdAt(path, i) then Some(IdAt(path, i))
    else FirstGrilleId(path, i + 1)
  }

  /** `getGrilleId`: the id in the first "/grilles/<digits>" of the path, or none. */
  function GetGrilleId(path: string): (r: Option<nat>)
    ensures r.Some? ==> exists j :: GrilleIdAt(path, j) && r.value == IdAt(path, j) &&
                                    forall k :: k < j ==> !GrilleIdAt(path, k)
    ensures r.None? <==> forall j :: !GrilleIdAt(path, j)
  {
    FirstGrilleId(path, 0)
  }

  /** The path of a grid's page gives that grid's id back, whatever follows a
      non-digit. */
  lemma GrilleIdOfPage(n: nat, rest: string)
    requires rest == [] || !IsDigit(rest[0])
    ensures GetGrilleId(GrillesSegment + NatToString(n) + rest) == Some(n)
  {
    var digits := NatToString(n);
    var path := GrillesSegment + digits + rest;
    var after := path[|GrillesSegment|..];
    assert after == digits + rest;
    assert path[..|GrillesSegment|] == GrillesSegment;
    assert GrilleIdAt(path, 0);
    DigitPrefixOfDigits(digits, rest);
  }
}

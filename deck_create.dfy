/**
 * The deck-creation selectors: resolving the chosen investigator's three faces,
 * and the ordered list of card sets offered when a deck is created (random
 * basic weakness, required signature cards, advanced and replacement
 * signatures, the special cards of some parallel investigators, bound cards),
 * each with whether it can be toggled, whether it is chosen and how many
 * copies of each card it adds.
 *
 * Card resolution is not part of this model: it is the `resolve` parameter.
 * Quantities are JavaScript numbers, which is why they are `Number`s.
 */
module DeckCreate {
  import opened Wrappers
  import opened Strings
  import opened CardTypes

  /** The special card codes the selectors compare against. */
  datatype SpecialCodes = SpecialCodes(
    randomBasicWeakness: string,
    parallelJim: string,
    parallelWendy: string,
    parallelRoland: string,
    occultEvidence: string
  )

  /** The deck-creation state as far as these selectors read it. */
  datatype DeckCreateState = DeckCreateState(
    investigatorCode: string,
    investigatorBackCode: string,
    investigatorFrontCode: string,
    tabooSetId: Option<int>,
    sets: seq<string>,
    extraCardQuantities: map<string, int>,
    deckSizeSelected: Option<string>
  )

  /** A JavaScript number: a real value, or NaN. */
  datatype Number = Num(value: real) | NaN

  /** A set of cards offered at deck creation (its display title and help text are not modelled). */
  datatype CardSet = CardSet(
    id: string,
    canSelect: bool,
    canSetQuantity: Option<bool>,
    selected: bool,
    cards: seq<ResolvedCard>,
    quantities: map<string, Number>
  )

  // ---------------------------------------------------------------------------
  // selectDeckCreateInvestigators

  /** The three faces to resolve, in the order the selector resolves them. */
  function Faces(dc: DeckCreateState): (faces: seq<(string, string)>)
    ensures |faces| == 3
  {
    [("investigator", dc.investigatorCode), ("back", dc.investigatorBackCode), ("front", dc.investigatorFrontCode)]
  }

  /** The message of the assertion that fails when a face does not resolve. */
  function UnresolvedMessage(key: string): string {
    key + " card must be resolved."
  }

  /**
   * `selectDeckCreateInvestigators`: resolves the investigator, its back and its
   * front with the deck's taboo set. It fails, naming the first face that does
   * not resolve, unless all three resolve; then the record holds the three.
   */
  method SelectDeckCreateInvestigators(dc: DeckCreateState, resolve: (string, Option<int>) -> Option<CardWithRelations>)
    returns (r: Result<map<string, CardWithRelations>>)
    ensures r.Success? <==> forall k :: 0 <= k < 3 ==> resolve(Faces(dc)[k].1, dc.tabooSetId).Some?
    ensures r.Success? ==> r.value.Keys == {"investigator", "back", "front"}
    ensures r.Success? ==> forall k :: 0 <= k < 3 ==> r.value[Faces(dc)[k].0] == resolve(Faces(dc)[k].1, dc.tabooSetId).value
    ensures r.Failure? ==>
      (exists k :: 0 <= k < 3
        && resolve(Faces(dc)[k].1, dc.tabooSetId).None?
        && (forall j :: 0 <= j < k ==> resolve(Faces(dc)[j].1, dc.tabooSetId).Some?)
        && r.error == UnresolvedMessage(Faces(dc)[k].0))
  {
    var faces := Faces(dc);
    var acc: map<string, CardWithRelations> := map[];
    for i := 0 to 3
      invariant forall j :: 0 <= j < i ==> resolve(faces[j].1, dc.tabooSetId).Some?
      invariant acc.Keys == set j | 0 <= j < i :: faces[j].0
      invariant forall j :: 0 <= j < i ==> acc[faces[j].0] == resolve(faces[j].1, dc.tabooSetId).value
    {
      var (key, code) := faces[i];
      var card := resolve(code, dc.tabooSetId);
      if card.None? {
        return Failure(UnresolvedMessage(key));
      }
      acc := acc[key := card.value];
    }
    assert acc.Keys == {faces[0].0, faces[1].0, faces[2].0};
    r := Success(acc);
  }

  // ---------------------------------------------------------------------------
  // Quantities

  /** How the cards of a set are counted. */
  datatype QuantityRule =
    | Printed
      /** The quantity chosen at deck creation, else the printed one. */
    | ChosenOrPrinted(chosen: map<string, int>)
      /** Occult Evidence scales with the deck size, other cards are printed. */
    | DeckSizeScaled(deckSize: Number, occultEvidence: string)

  /** The quantity a rule gives a card. */
  function QuantityOf(rule: QuantityRule, card: Card): Number {
    match rule
    case Printed => Num(card.quantity as real)
    case ChosenOrPrinted(chosen) =>
      if card.code in chosen then Num(chosen[card.code] as real) else Num(card.quantity as real)
    case DeckSizeScaled(deckSize, occultEvidence) =>
      if card.code == occultEvidence then OccultEvidenceQuantity(deckSize) else Num(card.quantity as real)
  }

  /** The record a quantity `reduce` builds: each card's code mapped to its quantity, later cards overwriting. */
  function QuantityMap(cards: seq<ResolvedCard>, rule: QuantityRule): map<string, Number>
    decreases |cards|
  {
    if |cards| == 0 then map[]
    else
      var last := cards[|cards| - 1].card;
      QuantityMap(cards[..|cards| - 1], rule)[last.code := QuantityOf(rule, last)]
  }

  /** A quantity `reduce`, run over the cards of a set. */
  method Quantities(cards: seq<ResolvedCard>, rule: QuantityRule) returns (acc: map<string, Number>)
    ensures acc == QuantityMap(cards, rule)
  {
    acc := map[];
    for i := 0 to |cards|
      invariant acc == QuantityMap(cards[..i], rule)
    {
      assert cards[..i + 1][..i] == cards[..i];
      acc := acc[cards[i].card.code := QuantityOf(rule, cards[i].card)];
    }
    assert cards[..|cards|] == cards;
  }

  /** The quantity map has a key for each card of the set, and no other. */
  lemma {:induction false} QuantityMapKeys(cards: seq<ResolvedCard>, rule: QuantityRule)
    ensures forall code :: code in QuantityMap(cards, rule) <==> exists i :: 0 <= i < |cards| && cards[i].card.code == code
    decreases |cards|
  {
    if |cards| > 0 {
      var init := cards[..|cards| - 1];
      QuantityMapKeys(init, rule);
      assert forall i :: 0 <= i < |init| ==> init[i] == cards[i];
      forall code | code in QuantityMap(cards, rule) ensures exists i :: 0 <= i < |cards| && cards[i].card.code == code {
        if code != cards[|cards| - 1].card.code {
          assert code in QuantityMap(init, rule);
          var j :| 0 <= j < |init| && init[j].card.code == code;
          assert cards[j] == init[j];
        }
      }
    }
  }

  /** A card that no later card of the set shares its code with gets the quantity its rule gives it. */
  lemma {:induction false} QuantityMapValue(cards: seq<ResolvedCard>, rule: QuantityRule, i: nat)
    requires i < |cards|
    requires forall j :: i < j < |cards| ==> cards[j].card.code != cards[i].card.code
    ensures cards[i].card.code in QuantityMap(cards, rule)
    ensures QuantityMap(cards, rule)[cards[i].card.code] == QuantityOf(rule, cards[i].card)
    decreases |cards|
  {
    var init := cards[..|cards| - 1];
    if i < |cards| - 1 {
      assert init[i] == cards[i];
      forall j | i < j < |init| ensures init[j].card.code != init[i].card.code {
        assert init[j] == cards[j];
      }
      QuantityMapValue(init, rule, i);
    }
  }

  // ---------------------------------------------------------------------------
  // Occult Evidence

  /** The deck size the investigator requires; 30 when it states no requirements. */
  function DeckSizeRequirement(investigator: Card): int {
    if investigator.deckRequirements.Some? then investigator.deckRequirements.value.size else 30
  }

  /** Whether one of the investigator's deck options lets the player choose a deck size. */
  predicate HasDeckSizeOption(investigator: Card) {
    investigator.deckOptions.Some?
    && exists i :: 0 <= i < |investigator.deckOptions.value| && investigator.deckOptions.value[i].deckSizeSelect.Some?
  }

  /** `+s` for a string of decimal digits; any other string is NaN here. */
  function ToNumber(s: string): Number {
    if |s| > 0 && forall i :: 0 <= i < |s| ==> IsDigit(s[i]) then Num(DecimalValue(s) as real) else NaN
  }

  /** The deck size: the selected one when the investigator offers a choice and one was made, else the requirement. */
  function DeckSize(investigator: Card, dc: DeckCreateState): Number {
    if HasDeckSizeOption(investigator) && TruthyString(dc.deckSizeSelected) then ToNumber(dc.deckSizeSelected.value)
    else Num(DeckSizeRequirement(investigator) as real)
  }

  /** `(deckSize - 20) / 10` in JavaScript arithmetic. */
  function OccultEvidenceQuantity(deckSize: Number): (q: Number)
    ensures deckSize.NaN? <==> q.NaN?
    ensures deckSize.Num? ==> 10.0 * q.value + 20.0 == deckSize.value
  {
    match deckSize
    case NaN => NaN
    case Num(v) => Num((v - 20.0) / 10.0)
  }

  /** For a deck size that is 20 plus a multiple of 10, the number of Occult Evidence copies is a whole number. */
  lemma OccultEvidenceWhole(deckSize: int)
    requires deckSize >= 20 && deckSize % 10 == 0
    ensures OccultEvidenceQuantity(Num(deckSize as real)) == Num(((deckSize - 20) / 10) as real)
  {
    var k := (deckSize - 20) / 10;
    assert deckSize == 10 * k + 20;
    assert (deckSize as real - 20.0) / 10.0 == k as real;
  }

  // ---------------------------------------------------------------------------
  // selectDeckCreateCardSets

  const NoRelations := Relations(None, None, None, None, None)

  function RelationsOf(investigator: CardWithRelations): Relations {
    investigator.relations.GetOr(NoRelations)
  }

  /** A relation list that is there and not empty (`?.length` is truthy). */
  predicate HasCards(cards: Option<seq<ResolvedCard>>) {
    cards.Some? && |cards.value| > 0
  }

  /** The parallel investigators whose special cards are offered. */
  predicate OffersSpecialCards(dc: DeckCreateState, codes: SpecialCodes) {
    || dc.investigatorBackCode == codes.parallelJim
    || dc.investigatorFrontCode == codes.parallelWendy
    || dc.investigatorFrontCode == codes.parallelRoland
  }

  /** A set built from a relation list, its quantities given by `rule`. */
  function MakeSet(id: string, canSelect: bool, canSetQuantity: Option<bool>, selected: bool, cards: Option<seq<ResolvedCard>>, rule: QuantityRule): (s: CardSet)
    ensures s.cards == cards.GetOr([]) && s.quantities == QuantityMap(s.cards, rule)
  {
    var list := cards.GetOr([]);
    CardSet(id, canSelect, canSetQuantity, selected, list, QuantityMap(list, rule))
  }

  /** `[s]` when `c` holds, else nothing: a conditional `push`. */
  function When(c: bool, s: CardSet): (r: seq<CardSet>)
    ensures c ==> r == [s]
    ensures !c ==> r == []
  {
    if c then [s] else []
  }

  function AdvancedSet(rel: Relations, dc: DeckCreateState): CardSet {
    MakeSet("advanced", true, None, "advanced" in dc.sets, rel.advanced, Printed)
  }

  function ReplacementSet(rel: Relations, dc: DeckCreateState): CardSet {
    MakeSet("replacement", true, None, "replacement" in dc.sets, rel.replacement, Printed)
  }

  function ExtraSet(rel: Relations, dc: DeckCreateState, codes: SpecialCodes): CardSet {
    MakeSet("extra", false, Some(dc.investigatorFrontCode == codes.parallelRoland), true, rel.parallelCards,
      ChosenOrPrinted(dc.extraCardQuantities))
  }

  function BoundSet(rel: Relations): CardSet {
    MakeSet("bound", false, None, false, rel.bound, Printed)
  }

  /** The sets that follow the required cards, in their order, each only when it has cards. */
  function OptionalSets(investigator: CardWithRelations, dc: DeckCreateState, codes: SpecialCodes): seq<CardSet> {
    var rel := RelationsOf(investigator);
    When(HasCards(rel.advanced), AdvancedSet(rel, dc))
      + When(HasCards(rel.replacement), ReplacementSet(rel, dc))
      + When(HasCards(rel.parallelCards) && OffersSpecialCards(dc, codes), ExtraSet(rel, dc, codes))
      + When(HasCards(rel.bound), BoundSet(rel))
  }

  /** The required-cards set; it can be toggled only when other sets are offered after it. */
  function RequiredSet(investigator: CardWithRelations, dc: DeckCreateState, codes: SpecialCodes, canSelect: bool): CardSet {
    MakeSet("requiredCards", canSelect, None, "requiredCards" in dc.sets, RelationsOf(investigator).requiredCards,
      DeckSizeScaled(DeckSize(investigator.card, dc), codes.occultEvidence))
  }

  /** How many random basic weaknesses the investigator's back asks for; 1 without requirements. */
  function RandomWeaknessCount(back: Card): int {
    if back.deckRequirements.Some? then |back.deckRequirements.value.random| else 1
  }

  /** The random basic weakness set, always first, always chosen, never toggled. */
  function RandomWeaknessSet(back: CardWithRelations, codes: SpecialCodes, randomWeakness: ResolvedCard): CardSet {
    CardSet("random_basic_weakness", false, None, true, [randomWeakness],
      map[codes.randomBasicWeakness := Num(RandomWeaknessCount(back.card) as real)])
  }

  /** The list the selector builds. */
  function CardSets(investigator: CardWithRelations, back: CardWithRelations, dc: DeckCreateState, codes: SpecialCodes, randomWeakness: ResolvedCard): seq<CardSet> {
    var rest := OptionalSets(investigator, dc, codes);
    [RandomWeaknessSet(back, codes, randomWeakness)]
      + When(RelationsOf(investigator).requiredCards.Some?, RequiredSet(investigator, dc, codes, |rest| > 0))
      + rest
  }

  /** One set built from a present relation list: its quantities come from a `reduce` over its cards. */
  method BuildSet(id: string, canSelect: bool, canSetQuantity: Option<bool>, selected: bool, cards: Option<seq<ResolvedCard>>, rule: QuantityRule)
    returns (s: CardSet)
    requires cards.Some?
    ensures s == MakeSet(id, canSelect, canSetQuantity, selected, cards, rule)
  {
    var q := Quantities(cards.value, rule);
    s := CardSet(id, canSelect, canSetQuantity, selected, cards.value, q);
  }

  /** `if (c) groupings.push(set)`, the set built from a present relation list. */
  method PushSet(groupings: seq<CardSet>, c: bool, id: string, canSelect: bool, canSetQuantity: Option<bool>, selected: bool,
                 cards: Option<seq<ResolvedCard>>, rule: QuantityRule)
    returns (r: seq<CardSet>)
    requires c ==> cards.Some?
    ensures r == groupings + When(c, MakeSet(id, canSelect, canSetQuantity, selected, cards, rule))
  {
    r := groupings;
    if c {
      var s := BuildSet(id, canSelect, canSetQuantity, selected, cards, rule);
      r := r + [s];
    } else {
      assert groupings + [] == groupings;
    }
  }

  /** The pushes of `selectDeckCreateCardSets`: advanced, replacement, special and bound cards, each when it has cards. */
  method PushOptionalSets(investigator: CardWithRelations, dc: DeckCreateState, codes: SpecialCodes) returns (groupings: seq<CardSet>)
    ensures groupings == OptionalSets(investigator, dc, codes)
  {
    var rel := RelationsOf(investigator);
    ghost var a := When(HasCards(rel.advanced), AdvancedSet(rel, dc));
    ghost var b := When(HasCards(rel.replacement), ReplacementSet(rel, dc));
    ghost var c := When(HasCards(rel.parallelCards) && OffersSpecialCards(dc, codes), ExtraSet(rel, dc, codes));
    ghost var d := When(HasCards(rel.bound), BoundSet(rel));
    groupings := PushSet([], HasCards(rel.advanced), "advanced", true, None, "advanced" in dc.sets, rel.advanced, Printed);
    assert groupings == a by {
      assert [] + a == a;
    }
    groupings := PushSet(groupings, HasCards(rel.replacement), "replacement", true, None, "replacement" in dc.sets,
      rel.replacement, Printed);
    assert groupings == a + b;
    groupings := PushSet(groupings, HasCards(rel.parallelCards) && OffersSpecialCards(dc, codes), "extra", false,
      Some(dc.investigatorFrontCode == codes.parallelRoland), true, rel.parallelCards, ChosenOrPrinted(dc.extraCardQuantities));
    assert groupings == a + b + c;
    groupings := PushSet(groupings, HasCards(rel.bound), "bound", false, None, false, rel.bound, Printed);
    assert groupings == a + b + c + d;
  }

  /**
   * `selectDeckCreateCardSets`: pushes the advanced, replacement, special and
   * bound sets, puts the required cards in front of them and the random basic
   * weakness in front of all. `randomWeakness` is the resolved random basic
   * weakness card.
   */
  method SelectDeckCreateCardSets(investigator: CardWithRelations, back: CardWithRelations, dc: DeckCreateState, codes: SpecialCodes, randomWeakness: ResolvedCard)
    returns (groupings: seq<CardSet>)
    ensures groupings == CardSets(investigator, back, dc, codes, randomWeakness)
  {
    groupings := PushOptionalSets(investigator, dc, codes);
    var required := RequiredHead(investigator, dc, codes, |groupings| > 0);
    groupings := [RandomWeaknessSet(back, codes, randomWeakness)] + required + groupings;
  }

  /** The required-cards set to put in front, when the investigator has a list of them. */
  method RequiredHead(investigator: CardWithRelations, dc: DeckCreateState, codes: SpecialCodes, canSelect: bool)
    returns (head: seq<CardSet>)
    ensures head == When(RelationsOf(investigator).requiredCards.Some?, RequiredSet(investigator, dc, codes, canSelect))
  {
    var rel := RelationsOf(investigator);
    head := [];
    if rel.requiredCards.Some? {
      var s := BuildSet("requiredCards", canSelect, None, "requiredCards" in dc.sets, rel.requiredCards,
        DeckSizeScaled(DeckSize(investigator.card, dc), codes.occultEvidence));
      head := [s];
    }
  }

  // ---------------------------------------------------------------------------
  // Properties of the card sets

  /** The ids of the sets, in order. */
  function Ids(sets: seq<CardSet>): (ids: seq<string>)
    ensures |ids| == |sets|
    decreases |sets|
  {
    if |sets| == 0 then [] else [sets[0].id] + Ids(sets[1..])
  }

  lemma {:induction false} IdsAppend(a: seq<CardSet>, b: seq<CardSet>)
    ensures Ids(a + b) == Ids(a) + Ids(b)
    decreases |a|
  {
    if |a| > 0 {
      assert (a + b)[0] == a[0];
      assert (a + b)[1..] == a[1..] + b;
      IdsAppend(a[1..], b);
      calc {
        Ids(a + b);
        [a[0].id] + Ids(a[1..] + b);
        [a[0].id] + (Ids(a[1..]) + Ids(b));
        ([a[0].id] + Ids(a[1..])) + Ids(b);
        Ids(a) + Ids(b);
      }
    } else {
      assert a + b == b;
    }
  }

  /** The id of a conditional push. */
  function IdWhen(c: bool, id: string): seq<string> {
    if c then [id] else []
  }

  /** The ids of the sets after the required cards. */
  lemma OptionalIds(investigator: CardWithRelations, dc: DeckCreateState, codes: SpecialCodes)
    ensures var rel := RelationsOf(investigator);
      Ids(OptionalSets(investigator, dc, codes)) ==
        IdWhen(HasCards(rel.advanced), "advanced")
        + IdWhen(HasCards(rel.replacement), "replacement")
        + IdWhen(HasCards(rel.parallelCards) && OffersSpecialCards(dc, codes), "extra")
        + IdWhen(HasCards(rel.bound), "bound")
  {
    var rel := RelationsOf(investigator);
    var a := When(HasCards(rel.advanced), AdvancedSet(rel, dc));
    var b := When(HasCards(rel.replacement), ReplacementSet(rel, dc));
    var c := When(HasCards(rel.parallelCards) && OffersSpecialCards(dc, codes), ExtraSet(rel, dc, codes));
    var d := When(HasCards(rel.bound), BoundSet(rel));
    assert OptionalSets(investigator, dc, codes) == a + b + c + d;
    IdsWhen(HasCards(rel.advanced), AdvancedSet(rel, dc));
    IdsWhen(HasCards(rel.replacement), ReplacementSet(rel, dc));
    IdsWhen(HasCards(rel.parallelCards) && OffersSpecialCards(dc, codes), ExtraSet(rel, dc, codes));
    IdsWhen(HasCards(rel.bound), BoundSet(rel));
    IdsAppend(a, b);
    assert Ids(a + b) == Ids(a) + Ids(b);
    IdsAppend(a + b, c);
    assert Ids(a + b + c) == Ids(a) + Ids(b) + Ids(c);
    IdsAppend(a + b + c, d);
  }

  /** The ids of a conditional push. */
  lemma IdsWhen(c: bool, s: CardSet)
    ensures Ids(When(c, s)) == IdWhen(c, s.id)
  {
    if c {
      assert When(c, s)[1..] == [];
    }
  }

  /** Every set of the list is one of the six the selector can push. */
  lemma CardSetMembers(investigator: CardWithRelations, back: CardWithRelations, dc: DeckCreateState, codes: SpecialCodes, randomWeakness: ResolvedCard, s: CardSet)
    requires s in CardSets(investigator, back, dc, codes, randomWeakness)
    ensures var rel := RelationsOf(investigator);
      || s == RandomWeaknessSet(back, codes, randomWeakness)
      || s == RequiredSet(investigator, dc, codes, |OptionalSets(investigator, dc, codes)| > 0)
      || s == AdvancedSet(rel, dc) || s == ReplacementSet(rel, dc) || s == ExtraSet(rel, dc, codes) || s == BoundSet(rel)
  {
    var rel := RelationsOf(investigator);
    var rest := OptionalSets(investigator, dc, codes);
    var head := [RandomWeaknessSet(back, codes, randomWeakness)]
      + When(rel.requiredCards.Some?, RequiredSet(investigator, dc, codes, |rest| > 0));
    assert CardSets(investigator, back, dc, codes, randomWeakness) == head + rest;
    if s in rest {
      var a := When(HasCards(rel.advanced), AdvancedSet(rel, dc));
      var b := When(HasCards(rel.replacement), ReplacementSet(rel, dc));
      var c := When(HasCards(rel.parallelCards) && OffersSpecialCards(dc, codes), ExtraSet(rel, dc, codes));
      var d := When(HasCards(rel.bound), BoundSet(rel));
      assert rest == a + b + c + d;
      assert s in a || s in b || s in c || s in d;
    } else {
      assert s in head;
    }
  }

  /**
   * The random basic weakness comes first, chosen and not toggleable, with as
   * many copies as the back's random requirements list (1 without requirements).
   */
  lemma RandomWeaknessFirst(investigator: CardWithRelations, back: CardWithRelations, dc: DeckCreateState, codes: SpecialCodes, randomWeakness: ResolvedCard)
    ensures var sets := CardSets(investigator, back, dc, codes, randomWeakness);
      && |sets| >= 1
      && sets[0].id == "random_basic_weakness" && !sets[0].canSelect && sets[0].selected
      && sets[0].cards == [randomWeakness]
      && sets[0].quantities == map[codes.randomBasicWeakness := Num(RandomWeaknessCount(back.card) as real)]
  {
  }

  /**
   * The required cards, when the investigator has a (possibly empty) list of
   * them, come second, and can be toggled exactly when further sets follow.
   */
  lemma RequiredSecond(investigator: CardWithRelations, back: CardWithRelations, dc: DeckCreateState, codes: SpecialCodes, randomWeakness: ResolvedCard)
    requires RelationsOf(investigator).requiredCards.Some?
    ensures var sets := CardSets(investigator, back, dc, codes, randomWeakness);
      && |sets| >= 2
      && sets[1].id == "requiredCards"
      && sets[1].cards == RelationsOf(investigator).requiredCards.value
      && (sets[1].canSelect <==> |sets| > 2)
  {
    var rest := OptionalSets(investigator, dc, codes);
    var required := RequiredSet(investigator, dc, codes, |rest| > 0);
    assert CardSets(investigator, back, dc, codes, randomWeakness) == [RandomWeaknessSet(back, codes, randomWeakness)] + [required] + rest;
  }

  lemma SeqAssoc<T>(h: seq<T>, a: seq<T>, b: seq<T>, c: seq<T>, d: seq<T>)
    ensures h + (a + b + c + d) == h + a + b + c + d
  {
  }

  /**
   * The sets come in this order: the random basic weakness, the required cards
   * when the investigator has a list of them, then advanced, replacement,
   * special and bound cards, each only when it has cards.
   */
  lemma CardSetsOrder(investigator: CardWithRelations, back: CardWithRelations, dc: DeckCreateState, codes: SpecialCodes, randomWeakness: ResolvedCard)
    ensures var rel := RelationsOf(investigator);
      Ids(CardSets(investigator, back, dc, codes, randomWeakness)) == ["random_basic_weakness"]
        + IdWhen(rel.requiredCards.Some?, "requiredCards")
        + IdWhen(HasCards(rel.advanced), "advanced")
        + IdWhen(HasCards(rel.replacement), "replacement")
        + IdWhen(HasCards(rel.parallelCards) && OffersSpecialCards(dc, codes), "extra")
        + IdWhen(HasCards(rel.bound), "bound")
  {
    var rest := OptionalSets(investigator, dc, codes);
    var rel := RelationsOf(investigator);
    var head := [RandomWeaknessSet(back, codes, randomWeakness)]
      + When(rel.requiredCards.Some?, RequiredSet(investigator, dc, codes, |rest| > 0));
    var r := IdWhen(rel.requiredCards.Some?, "requiredCards");
    var a := IdWhen(HasCards(rel.advanced), "advanced");
    var b := IdWhen(HasCards(rel.replacement), "replacement");
    var c := IdWhen(HasCards(rel.parallelCards) && OffersSpecialCards(dc, codes), "extra");
    var d := IdWhen(HasCards(rel.bound), "bound");
    assert CardSets(investigator, back, dc, codes, randomWeakness) == head + rest;
    assert Ids(head) == ["random_basic_weakness"] + r by {
      var w := [RandomWeaknessSet(back, codes, randomWeakness)];
      var q := When(rel.requiredCards.Some?, RequiredSet(investigator, dc, codes, |rest| > 0));
      IdsAppend(w, q);
      IdsWhen(rel.requiredCards.Some?, RequiredSet(investigator, dc, codes, |rest| > 0));
      assert Ids(w) == ["random_basic_weakness"];
    }
    OptionalIds(investigator, dc, codes);
    assert Ids(rest) == a + b + c + d;
    IdsAppend(head, rest);
    SeqAssoc(["random_basic_weakness"] + r, a, b, c, d);
  }

  /**
   * Advanced, replacement and required cards are chosen exactly when their id is
   * among the chosen sets, and advanced and replacement cards can be toggled;
   * bound cards are neither toggleable nor chosen; the special cards are always
   * chosen, never toggled, and their quantities can be edited only for Parallel
   * Roland.
   */
  lemma CardSetsSelection(investigator: CardWithRelations, back: CardWithRelations, dc: DeckCreateState, codes: SpecialCodes, randomWeakness: ResolvedCard)
    ensures forall s :: s in CardSets(investigator, back, dc, codes, randomWeakness) ==>
      && (s.id in {"advanced", "replacement", "requiredCards"} ==> (s.selected <==> s.id in dc.sets))
      && (s.id in {"advanced", "replacement"} ==> s.canSelect)
      && (s.id == "bound" ==> !s.canSelect && !s.selected)
      && (s.id == "extra" ==> !s.canSelect && s.selected && s.canSetQuantity == Some(dc.investigatorFrontCode == codes.parallelRoland))
  {
    forall s | s in CardSets(investigator, back, dc, codes, randomWeakness)
      ensures && (s.id in {"advanced", "replacement", "requiredCards"} ==> (s.selected <==> s.id in dc.sets))
        && (s.id in {"advanced", "replacement"} ==> s.canSelect)
        && (s.id == "bound" ==> !s.canSelect && !s.selected)
        && (s.id == "extra" ==> !s.canSelect && s.selected && s.canSetQuantity == Some(dc.investigatorFrontCode == codes.parallelRoland))
    {
      CardSetMembers(investigator, back, dc, codes, randomWeakness, s);
    }
  }

  /** Each card of an advanced, replacement or bound set is counted with its printed quantity. */
  lemma PrintedQuantities(investigator: CardWithRelations, back: CardWithRelations, dc: DeckCreateState, codes: SpecialCodes, randomWeakness: ResolvedCard, s: CardSet, i: nat)
    requires s in CardSets(investigator, back, dc, codes, randomWeakness)
    requires s.id in {"advanced", "replacement", "bound"}
    requires i < |s.cards| && forall j :: i < j < |s.cards| ==> s.cards[j].card.code != s.cards[i].card.code
    ensures s.cards[i].card.code in s.quantities
    ensures s.quantities[s.cards[i].card.code] == Num(s.cards[i].card.quantity as real)
  {
    CardSetMembers(investigator, back, dc, codes, randomWeakness, s);
    assert s.quantities == QuantityMap(s.cards, Printed);
    QuantityMapValue(s.cards, Printed, i);
  }

  /** A special card's quantity is the one chosen at deck creation when there is one, else its printed quantity. */
  lemma SpecialCardQuantities(investigator: CardWithRelations, back: CardWithRelations, dc: DeckCreateState, codes: SpecialCodes, randomWeakness: ResolvedCard, s: CardSet, i: nat)
    requires s in CardSets(investigator, back, dc, codes, randomWeakness) && s.id == "extra"
    requires i < |s.cards| && forall j :: i < j < |s.cards| ==> s.cards[j].card.code != s.cards[i].card.code
    ensures var code := s.cards[i].card.code;
      && code in s.quantities
      && s.quantities[code] == if code in dc.extraCardQuantities then Num(dc.extraCardQuantities[code] as real)
        else Num(s.cards[i].card.quantity as real)
  {
    CardSetMembers(investigator, back, dc, codes, randomWeakness, s);
    assert s.quantities == QuantityMap(s.cards, ChosenOrPrinted(dc.extraCardQuantities));
    QuantityMapValue(s.cards, ChosenOrPrinted(dc.extraCardQuantities), i);
  }

  /**
   * In the required cards, Occult Evidence gets (deck size - 20) / 10 copies, the
   * deck size being the selected one when the investigator offers a choice and
   * one was made, else its requirement (30 by default); other cards get their
   * printed quantity.
   */
  lemma RequiredQuantities(investigator: CardWithRelations, back: CardWithRelations, dc: DeckCreateState, codes: SpecialCodes, randomWeakness: ResolvedCard, s: CardSet, i: nat)
    requires s in CardSets(investigator, back, dc, codes, randomWeakness) && s.id == "requiredCards"
    requires i < |s.cards| && forall j :: i < j < |s.cards| ==> s.cards[j].card.code != s.cards[i].card.code
    ensures var card := s.cards[i].card;
      var deckSize := if HasDeckSizeOption(investigator.card) && TruthyString(dc.deckSizeSelected)
        then ToNumber(dc.deckSizeSelected.value) else Num(DeckSizeRequirement(investigator.card) as real);
      && card.code in s.quantities
      && (card.code == codes.occultEvidence ==> s.quantities[card.code] == OccultEvidenceQuantity(deckSize))
      && (card.code != codes.occultEvidence ==> s.quantities[card.code] == Num(card.quantity as real))
  {
    var rule := DeckSizeScaled(DeckSize(investigator.card, dc), codes.occultEvidence);
    CardSetMembers(investigator, back, dc, codes, randomWeakness, s);
    assert s.quantities == QuantityMap(s.cards, rule);
    QuantityMapValue(s.cards, rule, i);
  }
}

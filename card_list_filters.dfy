/**
 * How the card list combines its filters. Each filter of the filter library
 * is a `LibraryFilter` term, and a `Filter` is built from them the way the
 * selectors build predicates: `pass`, one library filter, its negation, or
 * the conjunction `and(filters)`. What a library filter says about a card is
 * the `holds` oracle: the filter library is not part of this model.
 */
module CardListFilters {
  import opened Wrappers
  import opened CardTypes

  /**
   * The value the filter panel stores for one filter, handed to the filter
   * library unchanged; its shape belongs to that library.
   */
  datatype FilterValue = FilterValue(chosen: seq<string>, flags: map<string, bool>)

  /** The state of a range filter (cost, level): the selected range, if any, and its other options. */
  datatype RangeState = RangeState(range: Option<(int, int)>, options: FilterValue)

  /** The filters of one card list (player or encounter cards). */
  datatype ListFilters = ListFilters(
    action: FilterValue,
    asset: FilterValue,
    cost: RangeState,
    faction: Option<seq<string>>,
    ownership: string,
    packCode: map<string, bool>,
    properties: FilterValue,
    skillIcons: FilterValue,
    subtype: FilterValue,
    traits: FilterValue,
    cardType: FilterValue
  )

  /** The two card lists. */
  datatype CardTypeFilter = Player | Encounter

  /** The filter panel state: the active list, the filters of each list and the player-only filters. */
  datatype FiltersState = FiltersState(
    cardType: CardTypeFilter,
    player: ListFilters,
    encounter: ListFilters,
    level: RangeState,
    tabooSet: Option<int>,
    investigator: Option<string>,
    encounterSet: FilterValue
  )

  /** `state.filters[state.filters.cardType]`. */
  function Active(filters: FiltersState): (l: ListFilters)
    ensures filters.cardType == Player ==> l == filters.player
    ensures filters.cardType == Encounter ==> l == filters.encounter
  {
    match filters.cardType
    case Player => filters.player
    case Encounter => filters.encounter
  }

  /** What the active deck contributes: its investigator back, and its extra deck options and selections. */
  datatype DeckContext = DeckContext(investigatorBack: Option<Card>, access: FilterValue)

  /** The filters of the filter library, with the arguments the selectors give them. */
  datatype LibraryFilter =
    | Actions(value: FilterValue)
    | Assets(value: FilterValue)
    | Backsides
    | Cost(state: RangeState)
    | Duplicates
    | EncounterCards
    | EncounterCode(value: FilterValue)
    | Factions(factions: seq<string>)
    | InvestigatorAccess(investigator: Card, deck: Option<FilterValue>)
    | InvestigatorWeaknessAccess(investigator: Card)
    | Level(state: RangeState)
    | MythosCards
    | Ownership(collection: map<string, bool>)
    | Properties(value: FilterValue)
    | SkillIcons(value: FilterValue)
    | Subtypes(value: FilterValue)
    | TabooSet(id: int)
    | Traits(value: FilterValue)
    | Type(value: FilterValue)
    | Weaknesses

  /** A card predicate as the selectors build it. */
  datatype Filter =
    | Pass
    | Library(f: LibraryFilter)
    | Negated(negated: LibraryFilter)
    | And(filters: seq<Filter>)

  /** Whether a card passes a filter, the library filters answering through `holds`. */
  predicate Eval(holds: (LibraryFilter, Card) -> bool, f: Filter, card: Card)
    decreases f
  {
    match f
    case Pass => true
    case Library(g) => holds(g, card)
    case Negated(g) => !holds(g, card)
    case And(filters) => forall i | 0 <= i < |filters| :: Eval(holds, filters[i], card)
  }

  /** Every filter of a list holds. */
  predicate AllHold(holds: (LibraryFilter, Card) -> bool, filters: seq<Filter>, card: Card) {
    forall i | 0 <= i < |filters| :: Eval(holds, filters[i], card)
  }

  /** `and([])` accepts every card. */
  lemma AndEmpty(holds: (LibraryFilter, Card) -> bool, card: Card)
    ensures Eval(holds, And([]), card)
  {
  }

  /** A conjunction of two lists holds iff both conjunctions hold. */
  lemma AndConcat(holds: (LibraryFilter, Card) -> bool, a: seq<Filter>, b: seq<Filter>, card: Card)
    ensures Eval(holds, And(a + b), card) <==> Eval(holds, And(a), card) && Eval(holds, And(b), card)
  {
    if Eval(holds, And(a), card) && Eval(holds, And(b), card) {
      forall i | 0 <= i < |a + b| ensures Eval(holds, (a + b)[i], card) {
        if i >= |a| {
          assert (a + b)[i] == b[i - |a|];
        }
      }
    }
    if Eval(holds, And(a + b), card) {
      forall i | 0 <= i < |a| ensures Eval(holds, a[i], card) {
        assert (a + b)[i] == a[i];
      }
      forall i | 0 <= i < |b| ensures Eval(holds, b[i], card) {
        assert (a + b)[|a| + i] == b[i];
      }
    }
  }

  /** `pass` in a conjunction changes nothing. */
  lemma PassIsNeutral(holds: (LibraryFilter, Card) -> bool, a: seq<Filter>, card: Card)
    ensures Eval(holds, And(a + [Pass]), card) <==> Eval(holds, And(a), card)
  {
    AndConcat(holds, a, [Pass], card);
  }

  /** The conditional `push`: a present filter, or nothing. */
  function IfPresent(o: Option<Filter>): (r: seq<Filter>)
    ensures o.Some? ==> r == [o.value]
    ensures o.None? ==> r == []
  {
    match o
    case Some(f) => [f]
    case None => []
  }

  /** A filter that is absent adds no condition; a present one adds its own. */
  lemma IfPresentHolds(holds: (LibraryFilter, Card) -> bool, o: Option<Filter>, card: Card)
    ensures Eval(holds, And(IfPresent(o)), card) <==> (o.Some? ==> Eval(holds, o.value, card))
  {
    if o.Some? {
      assert IfPresent(o)[0] == o.value;
    }
  }

  // ---------------------------------------------------------------------------
  // Filter factories

  /** `selectCostFilter`: the cost filter only when a range is selected. */
  function CostFilter(state: RangeState): (r: Option<Filter>)
    ensures r.Some? <==> state.range.Some?
    ensures r.Some? ==> r.value == Library(Cost(state))
  {
    if state.range.Some? then Some(Library(Cost(state))) else None
  }

  /** `selectLevelFilter`: the level filter only when a range is selected. */
  function LevelFilter(state: RangeState): (r: Option<Filter>)
    ensures r.Some? <==> state.range.Some?
    ensures r.Some? ==> r.value == Library(Level(state))
  {
    if state.range.Some? then Some(Library(Level(state))) else None
  }

  /** `selectFactionFilter`: present whenever a faction list is set, an empty one included. */
  function FactionFilter(value: Option<seq<string>>): (r: Option<Filter>)
    ensures r.Some? <==> value.Some?
    ensures r.Some? ==> r.value == Library(Factions(value.value))
  {
    if value.Some? then Some(Library(Factions(value.value))) else None
  }

  /** `selectTabooSetFilter`: present for a taboo set id that is neither missing nor 0. */
  function TabooSetFilter(value: Option<int>): (r: Option<Filter>)
    ensures r.Some? <==> TruthyInt(value)
    ensures r.Some? ==> r.value == Library(TabooSet(value.value))
  {
    if TruthyInt(value) then Some(Library(TabooSet(value.value))) else None
  }

  /** `selectOwnershipFilter`: `pass` for "all", ownership for "owned", and not-owned for any other value. */
  function OwnershipFilter(collection: map<string, bool>, value: string): (r: Filter)
    ensures value == "all" ==> r == Pass
    ensures value == "owned" ==> r == Library(Ownership(collection))
    ensures value != "all" && value != "owned" ==> r == Negated(Ownership(collection))
  {
    if value == "all" then Pass
    else if value == "owned" then Library(Ownership(collection))
    else Negated(Ownership(collection))
  }

  /** `selectPackCodeFilter`: `pass` unless some pack is switched on; then the ownership test against the chosen packs. */
  function PackCodeFilter(packs: map<string, bool>): (r: Filter)
    ensures r == Pass <==> forall p :: p in packs ==> !packs[p]
    ensures r != Pass ==> r == Library(Ownership(packs))
  {
    if |packs| == 0 then Pass
    else if exists p :: p in packs && packs[p] then Library(Ownership(packs))
    else Pass
  }

  /** The card behind a truthy investigator code, when the card table has it. */
  function InvestigatorCard(cards: map<string, Card>, code: Option<string>): (r: Option<Card>)
    ensures r.Some? <==> TruthyString(code) && code.value in cards
    ensures r.Some? ==> r.value == cards[code.value]
  {
    if TruthyString(code) && code.value in cards then Some(cards[code.value]) else None
  }

  /** `selectInvestigatorFilter`: the access filter of the chosen investigator, when there is one. */
  function InvestigatorFilter(cards: map<string, Card>, code: Option<string>): (r: Option<Filter>)
    ensures r.Some? <==> TruthyString(code) && code.value in cards
    ensures r.Some? ==> r.value == Library(InvestigatorAccess(cards[code.value], None))
  {
    match InvestigatorCard(cards, code)
    case Some(card) => Some(Library(InvestigatorAccess(card, None)))
    case None => None
  }

  /** `selectInvestigatorWeaknessFilter`: the weakness access filter of the chosen investigator, when there is one. */
  function InvestigatorWeaknessFilter(cards: map<string, Card>, code: Option<string>): (r: Option<Filter>)
    ensures r.Some? <==> TruthyString(code) && code.value in cards
    ensures r.Some? ==> r.value == Library(InvestigatorWeaknessAccess(cards[code.value]))
  {
    match InvestigatorCard(cards, code)
    case Some(card) => Some(Library(InvestigatorWeaknessAccess(card)))
    case None => None
  }

  /** `selectDeckInvestigatorFilter`: the access filter of the active deck's investigator back, with the deck's extra options. */
  function DeckInvestigatorFilter(deck: Option<DeckContext>): (r: Option<Filter>)
    ensures r.Some? <==> deck.Some? && deck.value.investigatorBack.Some?
    ensures r.Some? ==> r.value == Library(InvestigatorAccess(deck.value.investigatorBack.value, Some(deck.value.access)))
  {
    if deck.Some? && deck.value.investigatorBack.Some? then
      Some(Library(InvestigatorAccess(deck.value.investigatorBack.value, Some(deck.value.access))))
    else None
  }

  // ---------------------------------------------------------------------------
  // Combined filters

  /** Everything the combined-filter builders read. */
  datatype FilterInputs = FilterInputs(
    filters: FiltersState,
    cards: map<string, Card>,
    collection: map<string, bool>,
    deck: Option<DeckContext>
  )

  /** `if (o) filters.push(o)`. */
  method PushIfPresent(filters: seq<Filter>, o: Option<Filter>) returns (r: seq<Filter>)
    ensures r == filters + IfPresent(o)
  {
    r := filters;
    if o.Some? {
      r := r + [o.value];
    } else {
      assert filters + [] == filters;
    }
  }

  /** The list filters present in every combination, as pushed by `selectPlayerCardFilters`. */
  function PlayerFixed(inputs: FilterInputs): seq<Filter> {
    var l := Active(inputs.filters);
    [ Library(Actions(l.action)), Library(Duplicates), Library(EncounterCards), Library(MythosCards),
      Library(Weaknesses), OwnershipFilter(inputs.collection, l.ownership), PackCodeFilter(l.packCode),
      Library(Properties(l.properties)), Library(SkillIcons(l.skillIcons)), Library(Subtypes(l.subtype)),
      Library(Traits(l.traits)), Library(Type(l.cardType)), Library(Assets(l.asset)) ]
  }

  /** The filters `selectPlayerCardFilters` conjoins. */
  function PlayerFilterList(inputs: FilterInputs): seq<Filter> {
    var l := Active(inputs.filters);
    PlayerFixed(inputs)
      + IfPresent(FactionFilter(l.faction))
      + IfPresent(LevelFilter(inputs.filters.level))
      + IfPresent(CostFilter(l.cost))
      + IfPresent(InvestigatorFilter(inputs.cards, inputs.filters.investigator))
      + IfPresent(TabooSetFilter(inputs.filters.tabooSet))
      + IfPresent(DeckInvestigatorFilter(inputs.deck))
  }

  /** `selectPlayerCardFilters`: the fixed filters, then each optional one that is present, conjoined. */
  method PlayerCardFilters(inputs: FilterInputs) returns (f: Filter)
    ensures f == And(PlayerFilterList(inputs))
  {
    var l := Active(inputs.filters);
    var filters := PlayerFixed(inputs);
    var faction := FactionFilter(l.faction);
    filters := PushIfPresent(filters, faction);
    var level := LevelFilter(inputs.filters.level);
    filters := PushIfPresent(filters, level);
    var cost := CostFilter(l.cost);
    filters := PushIfPresent(filters, cost);
    var investigator := InvestigatorFilter(inputs.cards, inputs.filters.investigator);
    filters := PushIfPresent(filters, investigator);
    var taboo := TabooSetFilter(inputs.filters.tabooSet);
    filters := PushIfPresent(filters, taboo);
    var deckInvestigator := DeckInvestigatorFilter(inputs.deck);
    filters := PushIfPresent(filters, deckInvestigator);
    f := And(filters);
  }

  /** The list filters present in every combination, as pushed by `selectWeaknessFilters`. */
  function WeaknessFixed(inputs: FilterInputs): seq<Filter> {
    var l := Active(inputs.filters);
    [ Library(EncounterCards), Library(Duplicates), Library(SkillIcons(l.skillIcons)), Library(Type(l.cardType)),
      Library(Subtypes(l.subtype)), Library(Traits(l.traits)), Library(Actions(l.action)),
      Library(Properties(l.properties)), OwnershipFilter(inputs.collection, l.ownership),
      PackCodeFilter(l.packCode), Library(Assets(l.asset)) ]
  }

  /** The filters `selectWeaknessFilters` conjoins. */
  function WeaknessFilterList(inputs: FilterInputs): seq<Filter> {
    var l := Active(inputs.filters);
    WeaknessFixed(inputs)
      + IfPresent(FactionFilter(l.faction))
      + IfPresent(LevelFilter(inputs.filters.level))
      + IfPresent(CostFilter(l.cost))
      + IfPresent(InvestigatorWeaknessFilter(inputs.cards, inputs.filters.investigator))
      + IfPresent(TabooSetFilter(inputs.filters.tabooSet))
      + IfPresent(DeckInvestigatorFilter(inputs.deck))
  }

  /** `selectWeaknessFilters`: as the player filters, with the weakness access of the chosen investigator. */
  method WeaknessFilters(inputs: FilterInputs) returns (f: Filter)
    ensures f == And(WeaknessFilterList(inputs))
  {
    var l := Active(inputs.filters);
    var filters := WeaknessFixed(inputs);
    var faction := FactionFilter(l.faction);
    filters := PushIfPresent(filters, faction);
    var level := LevelFilter(inputs.filters.level);
    filters := PushIfPresent(filters, level);
    var cost := CostFilter(l.cost);
    filters := PushIfPresent(filters, cost);
    var investigator := InvestigatorWeaknessFilter(inputs.cards, inputs.filters.investigator);
    filters := PushIfPresent(filters, investigator);
    var taboo := TabooSetFilter(inputs.filters.tabooSet);
    filters := PushIfPresent(filters, taboo);
    var deckInvestigator := DeckInvestigatorFilter(inputs.deck);
    filters := PushIfPresent(filters, deckInvestigator);
    f := And(filters);
  }

  /** The list filters present in every combination, as pushed by `selectEncounterFilters`. */
  function EncounterFixed(inputs: FilterInputs): seq<Filter> {
    var l := Active(inputs.filters);
    [ Library(Backsides), Library(SkillIcons(l.skillIcons)), Library(Type(l.cardType)), Library(Subtypes(l.subtype)),
      Library(Traits(l.traits)), Library(Actions(l.action)), Library(Properties(l.properties)),
      OwnershipFilter(inputs.collection, l.ownership), Library(EncounterCode(inputs.filters.encounterSet)),
      PackCodeFilter(l.packCode), Library(Assets(l.asset)) ]
  }

  /** The filters `selectEncounterFilters` conjoins. */
  function EncounterFilterList(inputs: FilterInputs): seq<Filter> {
    var l := Active(inputs.filters);
    EncounterFixed(inputs)
      + IfPresent(FactionFilter(l.faction))
      + IfPresent(CostFilter(l.cost))
      + IfPresent(DeckInvestigatorFilter(inputs.deck))
  }

  /** `selectEncounterFilters`: the fixed encounter filters, then faction, cost and deck investigator when present. */
  method EncounterFilters(inputs: FilterInputs) returns (f: Filter)
    ensures f == And(EncounterFilterList(inputs))
  {
    var l := Active(inputs.filters);
    var filters := EncounterFixed(inputs);
    var faction := FactionFilter(l.faction);
    filters := PushIfPresent(filters, faction);
    var cost := CostFilter(l.cost);
    filters := PushIfPresent(filters, cost);
    var deckInvestigator := DeckInvestigatorFilter(inputs.deck);
    filters := PushIfPresent(filters, deckInvestigator);
    f := And(filters);
  }

  // ---------------------------------------------------------------------------
  // What the combined filters accept

  /** The ownership filter accepts everything for "all", owned cards for "owned", and unowned cards otherwise. */
  lemma OwnershipMeaning(holds: (LibraryFilter, Card) -> bool, collection: map<string, bool>, value: string, card: Card)
    ensures Eval(holds, OwnershipFilter(collection, value), card) <==>
      (value == "all" || (value == "owned" <==> holds(Ownership(collection), card)))
  {
  }

  /** The pack filter accepts everything unless a pack is chosen; then it accepts the cards "owned" through the chosen packs. */
  lemma PackCodeMeaning(holds: (LibraryFilter, Card) -> bool, packs: map<string, bool>, card: Card)
    ensures Eval(holds, PackCodeFilter(packs), card) <==>
      ((exists p :: p in packs && packs[p]) ==> holds(Ownership(packs), card))
  {
  }

  /** A present optional filter adds its condition; an absent one adds none. */
  predicate OptionalHolds(holds: (LibraryFilter, Card) -> bool, o: Option<Filter>, card: Card) {
    o.Some? ==> Eval(holds, o.value, card)
  }

  /** One conditional push adds the pushed filter's condition, if any, to the conjunction. */
  lemma AndPush(holds: (LibraryFilter, Card) -> bool, prefix: seq<Filter>, o: Option<Filter>, card: Card)
    ensures Eval(holds, And(prefix + IfPresent(o)), card) <==> Eval(holds, And(prefix), card) && OptionalHolds(holds, o, card)
  {
    AndConcat(holds, prefix, IfPresent(o), card);
    IfPresentHolds(holds, o, card);
  }

  /**
   * A card passes the player filters iff it passes every fixed filter, and the
   * faction, level, cost, investigator, taboo and deck-investigator filters
   * that are present; an absent one does not restrict the list.
   */
  lemma PlayerFiltersMeaning(holds: (LibraryFilter, Card) -> bool, inputs: FilterInputs, card: Card)
    ensures var l := Active(inputs.filters);
      Eval(holds, And(PlayerFilterList(inputs)), card) <==>
        && AllHold(holds, PlayerFixed(inputs), card)
        && OptionalHolds(holds, FactionFilter(l.faction), card)
        && OptionalHolds(holds, LevelFilter(inputs.filters.level), card)
        && OptionalHolds(holds, CostFilter(l.cost), card)
        && OptionalHolds(holds, InvestigatorFilter(inputs.cards, inputs.filters.investigator), card)
        && OptionalHolds(holds, TabooSetFilter(inputs.filters.tabooSet), card)
        && OptionalHolds(holds, DeckInvestigatorFilter(inputs.deck), card)
  {
    var l := Active(inputs.filters);
    var p0 := PlayerFixed(inputs);
    var p1 := p0 + IfPresent(FactionFilter(l.faction));
    var p2 := p1 + IfPresent(LevelFilter(inputs.filters.level));
    var p3 := p2 + IfPresent(CostFilter(l.cost));
    var p4 := p3 + IfPresent(InvestigatorFilter(inputs.cards, inputs.filters.investigator));
    var p5 := p4 + IfPresent(TabooSetFilter(inputs.filters.tabooSet));
    AndPush(holds, p0, FactionFilter(l.faction), card);
    AndPush(holds, p1, LevelFilter(inputs.filters.level), card);
    AndPush(holds, p2, CostFilter(l.cost), card);
    AndPush(holds, p3, InvestigatorFilter(inputs.cards, inputs.filters.investigator), card);
    AndPush(holds, p4, TabooSetFilter(inputs.filters.tabooSet), card);
    AndPush(holds, p5, DeckInvestigatorFilter(inputs.deck), card);
  }

  /**
   * A card passes the weakness filters iff it passes every fixed filter, and the
   * faction, level, cost, investigator-weakness, taboo and deck-investigator
   * filters that are present.
   */
  lemma WeaknessFiltersMeaning(holds: (LibraryFilter, Card) -> bool, inputs: FilterInputs, card: Card)
    ensures var l := Active(inputs.filters);
      Eval(holds, And(WeaknessFilterList(inputs)), card) <==>
        && AllHold(holds, WeaknessFixed(inputs), card)
        && OptionalHolds(holds, FactionFilter(l.faction), card)
        && OptionalHolds(holds, LevelFilter(inputs.filters.level), card)
        && OptionalHolds(holds, CostFilter(l.cost), card)
        && OptionalHolds(holds, InvestigatorWeaknessFilter(inputs.cards, inputs.filters.investigator), card)
        && OptionalHolds(holds, TabooSetFilter(inputs.filters.tabooSet), card)
        && OptionalHolds(holds, DeckInvestigatorFilter(inputs.deck), card)
  {
    var l := Active(inputs.filters);
    var p0 := WeaknessFixed(inputs);
    var p1 := p0 + IfPresent(FactionFilter(l.faction));
    var p2 := p1 + IfPresent(LevelFilter(inputs.filters.level));
    var p3 := p2 + IfPresent(CostFilter(l.cost));
    var p4 := p3 + IfPresent(InvestigatorWeaknessFilter(inputs.cards, inputs.filters.investigator));
    var p5 := p4 + IfPresent(TabooSetFilter(inputs.filters.tabooSet));
    AndPush(holds, p0, FactionFilter(l.faction), card);
    AndPush(holds, p1, LevelFilter(inputs.filters.level), card);
    AndPush(holds, p2, CostFilter(l.cost), card);
    AndPush(holds, p3, InvestigatorWeaknessFilter(inputs.cards, inputs.filters.investigator), card);
    AndPush(holds, p4, TabooSetFilter(inputs.filters.tabooSet), card);
    AndPush(holds, p5, DeckInvestigatorFilter(inputs.deck), card);
  }

  /** A card passes the encounter filters iff it passes every fixed filter and the faction, cost and deck-investigator filters that are present. */
  lemma EncounterFiltersMeaning(holds: (LibraryFilter, Card) -> bool, inputs: FilterInputs, card: Card)
    ensures var l := Active(inputs.filters);
      Eval(holds, And(EncounterFilterList(inputs)), card) <==>
        && AllHold(holds, EncounterFixed(inputs), card)
        && OptionalHolds(holds, FactionFilter(l.faction), card)
        && OptionalHolds(holds, CostFilter(l.cost), card)
        && OptionalHolds(holds, DeckInvestigatorFilter(inputs.deck), card)
  {
    var l := Active(inputs.filters);
    var p0 := EncounterFixed(inputs);
    var p1 := p0 + IfPresent(FactionFilter(l.faction));
    var p2 := p1 + IfPresent(CostFilter(l.cost));
    AndPush(holds, p0, FactionFilter(l.faction), card);
    AndPush(holds, p1, CostFilter(l.cost), card);
    AndPush(holds, p2, DeckInvestigatorFilter(inputs.deck), card);
  }

  /** The number of filters conjoined: the fixed ones plus one per present optional filter. */
  lemma PlayerFilterCount(inputs: FilterInputs)
    ensures var l := Active(inputs.filters);
      |PlayerFilterList(inputs)| == 13
        + (if l.faction.Some? then 1 else 0)
        + (if inputs.filters.level.range.Some? then 1 else 0)
        + (if l.cost.range.Some? then 1 else 0)
        + (if TruthyString(inputs.filters.investigator) && inputs.filters.investigator.value in inputs.cards then 1 else 0)
        + (if TruthyInt(inputs.filters.tabooSet) then 1 else 0)
        + (if inputs.deck.Some? && inputs.deck.value.investigatorBack.Some? then 1 else 0)
  {
  }
}

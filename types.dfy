/**
 * The catalog records the deck builder works on, keeping the fields that the
 * modelled operations read. JavaScript optional fields are `Option`s; an
 * optional boolean flag, which the code only tests for truthiness, is a `bool`
 * that is false when the field is absent.
 */
module CardTypes {
  import opened Wrappers

  /** One entry of `deck_requirements.random`. */
  datatype RandomRequirement = RandomRequirement(value: string, target: string)

  /** `deck_requirements` of an investigator card. */
  datatype DeckRequirements = DeckRequirements(size: int, random: seq<RandomRequirement>)

  /** One choice of a deck option's `option_select`. */
  datatype OptionSelect = OptionSelect(name: string, id: string)

  /** A deck-building option of an investigator card, with the fields read here. */
  datatype DeckOption = DeckOption(
    name: Option<string>,
    error: Option<string>,
    deckSizeSelect: Option<seq<int>>,
    optionSelect: Option<seq<OptionSelect>>
  )

  /** `customization_options` of a customizable card. */
  datatype CustomizationOptions = CustomizationOptions(xp: int, tags: seq<string>, realText: string, textChange: string)

  /** A card record of the catalog (one printed face). */
  datatype Card = Card(
    code: string,
    typeCode: string,
    factionCode: string,
    faction2Code: Option<string>,
    packCode: string,
    quantity: int,
    xp: Option<int>,
    customizationXp: Option<int>,
    tabooXp: Option<int>,
    exceptional: bool,
    myriad: bool,
    permanent: bool,
    encounterCode: Option<string>,
    subtypeCode: Option<string>,
    duplicateOfCode: Option<string>,
    alternateOfCode: Option<string>,
    deckLimit: Option<int>,
    realSlot: Option<string>,
    realTraits: Option<string>,
    realText: Option<string>,
    realBackText: Option<string>,
    realCustomizationText: Option<string>,
    realCustomizationChange: Option<string>,
    customizationOptions: Option<CustomizationOptions>,
    hasRestrictions: bool,
    deckOptions: Option<seq<DeckOption>>,
    deckRequirements: Option<DeckRequirements>,
    doubleSided: bool,
    backLinkId: Option<string>,
    shroud: Option<int>,
    clues: Option<int>,
    cluesFixed: bool,
    enemyDamage: Option<int>,
    enemyHorror: Option<int>,
    parallel: bool
  )

  /**
   * A raw record as the catalog query returns it: a card, or, when `tabooSetId`
   * is set, the taboo overlay of the card `card.code` under that taboo set.
   */
  datatype QueryCard = QueryCard(id: string, tabooSetId: Option<int>, realTabooTextChange: Option<string>, card: Card)

  /** The fields a taboo list changes for one card under one taboo set. */
  datatype Taboo = Taboo(
    code: string,
    realText: Option<string>,
    realBackText: Option<string>,
    realTabooTextChange: Option<string>,
    tabooSetId: int,
    tabooXp: Option<int>,
    exceptional: bool,
    customizationOptions: Option<CustomizationOptions>,
    realCustomizationText: Option<string>,
    realCustomizationChange: Option<string>
  )

  datatype Pack = Pack(code: string, cycleCode: string)

  datatype Cycle = Cycle(code: string)

  /** An encounter set; `packCode` is filled in while the catalog is ingested. */
  datatype EncounterSet = EncounterSet(code: string, name: string, packCode: Option<string>)

  datatype CardType = CardType(code: string, name: string)

  datatype SubType = SubType(code: string, name: string)

  /** A card with its back face resolved (pack, cycle and type are not read by the model). */
  datatype ResolvedCard = ResolvedCard(card: Card)

  /** The related cards of a card, by relation kind, as far as the model reads them. */
  datatype Relations = Relations(
    bound: Option<seq<ResolvedCard>>,
    advanced: Option<seq<ResolvedCard>>,
    replacement: Option<seq<ResolvedCard>>,
    requiredCards: Option<seq<ResolvedCard>>,
    parallelCards: Option<seq<ResolvedCard>>
  )

  datatype CardWithRelations = CardWithRelations(card: Card, relations: Option<Relations>)

  /** The version stamp of the catalog; `cardsUpdatedAt` is set once cards were loaded. */
  datatype DataVersion = DataVersion(cardCount: int, cardsUpdatedAt: string, locale: string, translationUpdatedAt: string)

  /**
   * The catalog tables, keyed by code (taboo overlays by record id). The faction
   * and taboo-set tables are not part of the model: `init` replaces them with the
   * fetched ones, and this record drops them.
   */
  datatype Metadata = Metadata(
    dataVersion: Option<DataVersion>,
    cards: map<string, Card>,
    taboos: map<string, Taboo>,
    packs: map<string, Pack>,
    cycles: map<string, Cycle>,
    encounterSets: map<string, EncounterSet>,
    types: map<string, CardType>,
    subtypes: map<string, SubType>
  )

  /** User settings as far as the model reads them: the owned packs. */
  datatype Settings = Settings(collection: map<string, bool>)

  /**
   * The derived indices (trait, slot, action, ownership, relations, ...), built
   * by a builder that is not part of this model: an index name maps a key to
   * the set of card codes filed under it.
   */
  datatype LookupTables = LookupTables(indices: map<string, map<string, set<string>>>)

  /** A chosen customization of a customizable card. */
  datatype Customization = Customization(index: int, xpSpent: int, selections: Option<string>)
}

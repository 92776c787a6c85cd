# arkham.build deck-builder core, modelled in Dafny

arkham.build is a deck builder for Arkham Horror: The Card Game. This project
models the parts of it that compute things, as opposed to the parts that
display or fetch them:

- **card utilities.** `splitMultiValue` tokenises trait fields.
  `countExperience`, `cardLevel` and `realCardLevel` compute experience and
  levels. `decodeExileSlots` reads exile strings. The card classifiers are
  `isSpecialCard`, `reversed`, `isRandomBasicWeaknessLike`,
  `isStaticInvestigator`, `getCanonicalCardCode`, `cardLimit` and
  `getCardColor`.
- **deck grouping.** `groupDeckCardsByType` files a resolved deck's cards into
  the buckets `main`, `special`, `side`, `bonded` and `extra`. Inside a bucket,
  assets are filed by slot and other cards by type.
- **the card list.** The group selectors (slots, player card types, weakness
  subtypes, encounter sets) and the combined filter selectors (player,
  weakness, encounter) feed `selectFilteredCards`. That selector walks the
  groups and emits three parallel outputs: the groups that have cards, the flat
  card list, and the number of cards in each group.
- **deck creation.** `selectDeckCreateInvestigators` resolves the three faces
  of the chosen investigator. `selectDeckCreateCardSets` builds the ordered
  card sets offered at deck creation, with their quantities.
- **the shared store slice.** `init` ingests the catalog. It separates taboo
  overlays from cards, sets each card's `parallel` flag, gives each encounter
  set the pack of its first card, and prunes encounter sets that have no pack.
  It then swaps the new catalog, the lookup tables and the `ui` record in
  together. When a catalog is already loaded, it hands over to
  `refreshLookupTables` instead.
- **the ui slice.** Its initial state and the setters `setHydrated` and
  `setListScrollRestore`.
- **the locale-key script.** `listTraits`, `listUses` and `listDeckOptions`
  produce sorted, duplicate-free lists, and the locale tables are built from
  them.
- **formatting helpers.** `capitalize`, `capitalizeSnakeCase`,
  `formatProviderName`, and the adjustment text of `formatUpgradeXP`.

The JavaScript built-ins these rely on are written out in `Strings` and
`Sorting`:

- `split` and `join`
- `trim`
- `replace` of one character
- the default string order of `sort`, which compares UTF-16 code units, and
  `sort` with a comparator, which is stable
- decimal rendering

Code whose source is not part of this model is passed in as parameters. This
covers the filter, grouping, search and sort libraries, card resolution,
`cardUses`, and the lookup-table builder together with `createRelations`.

Where the source mutates an object, the model does too:

- the grouping builder (`DeckGrouping.Groupings`)
- the application store in `init` (`SharedSlice.Store`)
- the ui store (`UiSlice.UiStore`)

The statement loops of the source, and the `reduce`s that accumulate into a
map or set, are methods with loops. These are:

- the `splitMultiValue` and exile-slot `reduce`s
- the three loops of `groupDeckCardsByType` and the one of `addBondedToGrouping`
- the three group loops of `selectFilteredCards`
- the quantity `reduce`s of the deck-creation sets
- the ingestion loop and the prune loop of `init`
- the set-building `reduce`s and loops of `listTraits`, `listUses` and
  `listDeckOptions`

Each such method is proved against a specification function, and the lemmas
state what the source promises about that function. Two kinds of expression
are recursive functions:

- the `.map`/`.flatMap` expressions of the group selectors;
- the three `reduce`s that build the locale tables (`I18nUtils.TableOf`), which
  the script evaluates once each.

JavaScript truthiness is explicit:

- a number field counts only when it is present and not 0 (`TruthyInt`);
- a string field counts only when it is present and not empty (`TruthyString`);
- `??` only replaces `undefined`/`null`.

JavaScript numbers are unbounded integers, except the Occult Evidence quantity,
which is a real or NaN.

## Model

| member | source | states |
|---|---|---|
| CardUtils.SplitMultiValue | src/utils/card-utils.ts:8-15 | an absent or empty field gives no tokens; otherwise the result is the trimmed "."-pieces that are not empty, each a token with no surrounding white space |
| CardUtils.MultiValuesLackSeparator | src/utils/card-utils.ts:8-15 | no token contains "." |
| CardUtils.NonEmptyTrimmedMembers | src/utils/card-utils.ts:11-14 | a string is kept iff it is non-empty and is the trim of some piece |
| CardUtils.NonEmptyTrimmedTokens | src/utils/card-utils.ts:11-14 | every kept piece is non-empty and neither starts nor ends with white space |
| CardUtils.CardColorShape | src/utils/card-utils.ts:21-25 | the class is the property ("color" when left out), "-", then "multiclass" for a card with a second faction, else its faction |
| CardUtils.ReversedIsEncounterLocation | src/utils/card-utils.ts:31-38 | a reversed card is a location-like card of an encounter set, and therefore special |
| CardUtils.EmptyBackLinkIsNoBackLink | src/utils/card-utils.ts:35 | an empty back link counts as no back link, and any non-empty one means the card is not reversed |
| CardUtils.CountExperience | src/utils/card-utils.ts:40-48 | the experience equals the cost function (see the next three rows) |
| CardUtils.CustomizationCostIgnoresQuantity | src/utils/card-utils.ts:40-41 | a card with customization experience costs exactly that, for any quantity |
| CardUtils.MyriadCostsOneCopy | src/utils/card-utils.ts:43-47 | any number of copies of a myriad card costs as much as one copy |
| CardUtils.CostIsPerCopy | src/utils/card-utils.ts:43-47 | without customization or myriad, the cost is the quantity times the cost of one copy |
| CardUtils.HalfRounded | src/utils/card-utils.ts:50-54 | `Math.round(n / 2)` is the integer r with 2r-1 <= n <= 2r |
| CardUtils.CustomizableLevel | src/utils/card-utils.ts:40-54 | a customizable card has a level, and it is half its experience cost rounded up |
| CardUtils.PlainCardCostsItsLevel | src/utils/card-utils.ts:40-54 | a plain, non-exceptional, untaboo'd card costs its level per copy |
| CardUtils.RealLevelIsLevelPlusTaboo | src/utils/card-utils.ts:63-67 | the real level exists exactly when the level does, and differs from it by the taboo experience change |
| CardUtils.TabooKeepsLevel | src/utils/card-utils.ts:50-67 | a taboo change leaves the level unchanged and shifts only the real level |
| CardUtils.DecodeExileSlots | src/utils/card-utils.ts:94-105 | the result maps each exiled code to its number of occurrences; an absent or empty string gives the empty map |
| CardUtils.FalsyExileString | src/utils/card-utils.ts:95 | an absent or empty exile string lists no ids |
| CardUtils.TallyCounts | src/utils/card-utils.ts:97-104 | the keys are exactly the listed codes, each mapped to its number of occurrences (at least 1) |
| CardUtils.TallySum | src/utils/card-utils.ts:97-104 | the counts add up to the number of listed codes |
| CardUtils.IgnoringPermanentNarrowsSpecial | src/utils/card-utils.ts:107-111 | ignoring permanents can only drop cards from the special ones, and only permanent cards |
| CardUtils.UnleveledCardIsSpecial | src/utils/card-utils.ts:107-111 | a card without a level, or with a subtype or an encounter set, is special either way |
| CardUtils.RandomBasicWeaknessLikeIsSpecial | src/utils/card-utils.ts:129-136 | such a card has a subtype, and so is special |
| CardUtils.DeckOptionsMakeInvestigatorBuildable | src/utils/card-utils.ts:141-143 | a card with any list of deck options (even an empty one) is not static; an investigator without the field is static |
| CardUtils.CanonicalCodePrecedence | src/utils/card-utils.ts:125-127 | the canonical code is the first present one of duplicate-of, alternate-of and own code |
| CardUtils.CardLimitPrecedence | src/utils/card-utils.ts:145-147 | the limit is the first present one of override, deck limit and quantity |
| DeckGrouping.SlotOf | src/store/lib/deck-grouping.ts:84-90 | an asset's slot name is never empty ("Permanent" or "Other" when it has no real slot) |
| DeckGrouping.AddCardAppends | src/store/lib/deck-grouping.ts:72-102 | adding a card appends it to the list of its place, and every other list stays as it was |
| DeckGrouping.AddCardCreatesLazily | src/store/lib/deck-grouping.ts:81-101 | the slot map appears on the first asset; the type lists gain exactly the card's type, and assets leave them alone |
| DeckGrouping.AtPlace | src/store/lib/deck-grouping.ts:72-102 | the cards filed under a place are exactly the added cards whose place it is |
| DeckGrouping.AddAllAppends | src/store/lib/deck-grouping.ts:72-102 | after adding cards, each list is the old list followed by the added cards of its place, in order |
| DeckGrouping.AddAllConcat | src/store/lib/deck-grouping.ts:72-102 | adding two sequences in turn is adding their concatenation |
| DeckGrouping.AddAllKeepsLists | src/store/lib/deck-grouping.ts:32-39 | adding never removes the slot map or a type list, so `main` keeps its event and skill lists |
| DeckGrouping.Groupings.constructor | src/store/lib/deck-grouping.ts:32-39 | `main` has an empty slot map and empty event and skill lists, `special` is empty, the other buckets are missing |
| DeckGrouping.Groupings.Add | src/store/lib/deck-grouping.ts:72-102 | the named bucket (created if missing) gains the card, and the other four are unchanged |
| DeckGrouping.AddLazySnoc | src/store/lib/deck-grouping.ts:77-79 | a lazily created bucket gains one card: it is created from empty if need be |
| DeckGrouping.AddLazyConcat | src/store/lib/deck-grouping.ts:77-79 | adding two runs to a lazy bucket in turn is adding their concatenation |
| DeckGrouping.AddBonded | src/store/lib/deck-grouping.ts:104-121 | only `bonded` changes: it gains the bound cards whose code does not end in "b", each with its own quantity |
| DeckGrouping.AddOptionalSlotCards | src/store/lib/deck-grouping.ts:41-67 | only the named extra/side bucket changes: it gains every card with its quantity in the slot map, 0 if absent |
| DeckGrouping.AddSlotCards | src/store/lib/deck-grouping.ts:46-62 | each slot card goes to `special` or `main`, followed by its bonded cards; `side` and `extra` are unchanged |
| DeckGrouping.GroupDeckCardsByType | src/store/lib/deck-grouping.ts:31-70 | a fresh grouping whose five buckets are the initial buckets plus, in order, the cards of each bucket's selection |
| DeckGrouping.SlotCardsPartition | src/store/lib/deck-grouping.ts:46-59 | `special` and `main` together hold the slot cards as a multiset; `special` holds exactly those that ignore the deck limit or are special |
| DeckGrouping.SlotCardsSplit | src/store/lib/deck-grouping.ts:46-59 | every slot card goes to exactly one of `special` and `main` |
| DeckGrouping.SlotCardsSide | src/store/lib/deck-grouping.ts:52-59 | every card of a group satisfies that group's test |
| DeckGrouping.SlotDeckCards | src/store/lib/deck-grouping.ts:46-48 | one entry per slot card, in order, with its quantity from `slots` |
| DeckGrouping.BondedCardsShape | src/store/lib/deck-grouping.ts:104-121 | no bonded card's code ends in "b", and each has its own printed quantity |
| DeckGrouping.BondedOfShape | src/store/lib/deck-grouping.ts:108-120 | the same, for the bound cards of one slot card |
| DeckGrouping.OptionalSlotQuantities | src/store/lib/deck-grouping.ts:41-67 | every extra or side card is listed in order with its value in the slot map, or 0 when the map or entry is missing |
| CardList.SlotGroup | src/store/selectors/card-list.ts:56-64 | a slot group has the slot as code, "Asset: " plus the slot as name, and type "slot" |
| CardList.GroupedBySlot | src/store/selectors/card-list.ts:56-64 | one slot group per slot, in slot order |
| CardList.TypeGroup | src/store/selectors/card-list.ts:70-74 | a type group copies code and name from the catalog's type record; a type missing from the catalog gives neither |
| CardList.PlayerCardGroupsConcat | src/store/selectors/card-list.ts:66-76 | expanding a type order piece by piece gives the expansions of the pieces, in order |
| CardList.PlayerCardGroupsCount | src/store/selectors/card-list.ts:66-76 | the number of groups is the number of non-asset types, plus the slot groups once per "asset" entry |
| CardList.PlayerCardGroupsKinds | src/store/selectors/card-list.ts:66-76 | every group is a slot or a type group, and slot groups come only from "asset" |
| CardList.WeaknessGroup | src/store/selectors/card-list.ts:78-91 | a subtype group is named "Weakness" for "weakness" and "Basic Weakness" for any other subtype |
| CardList.EncounterSetGroups | src/store/selectors/card-list.ts:93-102 | one group per encounter set, in order, with its code and name |
| CardList.Emit | src/store/selectors/card-list.ts:528-533 | an empty list emits nothing; otherwise the group, its cards and their number are appended |
| CardList.NonEmpty | src/store/selectors/card-list.ts:528-533 | the kept entries are entries with cards |
| CardList.AssembleGroups | src/store/selectors/card-list.ts:515-573 | the groups emitted are those with cards, in order, each with a count equal to its list's length, never 0 |
| CardList.AssembleCards | src/store/selectors/card-list.ts:515-573 | the flat list is every group's list, concatenated in order |
| CardList.AssembleSum | src/store/selectors/card-list.ts:515-573 | the group counts add up to the length of the flat list |
| CardList.AssembleConcat | src/store/selectors/card-list.ts:515-573 | two runs of groups emit the first run's outputs followed by the second's |
| CardList.CardChanges | src/store/selectors/card-list.ts:521-523 | card changes of a taboo set apply exactly when the taboo id is present and not 0 |
| CardList.PlayerEntries | src/store/selectors/card-list.ts:515-534 | each player group with its filtered, searched list, sorted by name |
| CardList.WeaknessEntries | src/store/selectors/card-list.ts:536-551 | each weakness group with its filtered list, searched twice |
| CardList.EncounterEntries | src/store/selectors/card-list.ts:557-573 | each encounter group with its filtered, searched list, sorted by encounter position |
| CardList.PlayerGroupCards | src/store/selectors/card-list.ts:516-529 | the list of one player group equals its specification |
| CardList.WeaknessGroupCards | src/store/selectors/card-list.ts:537-543 | the list of one weakness group equals its specification |
| CardList.EncounterGroupCards | src/store/selectors/card-list.ts:558-568 | the list of one encounter group equals its specification |
| CardList.EmitGroup | src/store/selectors/card-list.ts:528-533 | the three outputs grow as `Emit` says |
| CardList.EmitPlayerGroups | src/store/selectors/card-list.ts:515-534 | the outputs are those of the earlier groups followed by those of the player groups |
| CardList.EmitWeaknessGroups | src/store/selectors/card-list.ts:536-551 | the outputs are those of the earlier groups followed by those of the weakness groups |
| CardList.EmitEncounterGroups | src/store/selectors/card-list.ts:557-573 | the outputs are those of the earlier groups followed by those of the encounter groups |
| CardList.SelectFilteredCards | src/store/selectors/card-list.ts:475-585 | nothing exactly while the card table is empty; otherwise the outputs of the visited groups, keyed by the active card type |
| CardList.PlayerBeforeWeakness | src/store/selectors/card-list.ts:511-551 | for player cards the player groups' outputs come first, then the weakness groups' |
| CardList.PlayerListIsSearchPermutation | src/store/selectors/card-list.ts:526-529 | sorting a player list by name keeps its cards and their multiplicities |
| CardListFilters.Active | src/store/selectors/card-list.ts:104-108 | the filters read are those of the active card type |
| CardListFilters.AndEmpty | src/store/selectors/card-list.ts:259-334 | an empty conjunction accepts every card |
| CardListFilters.AndConcat | src/store/selectors/card-list.ts:259-334 | a conjunction of two lists holds iff both conjunctions hold |
| CardListFilters.PassIsNeutral | src/store/selectors/card-list.ts:139-171 | `pass` in a conjunction changes nothing |
| CardListFilters.IfPresent | src/store/selectors/card-list.ts:308-330 | a conditional push adds the filter when present and nothing otherwise |
| CardListFilters.IfPresentHolds | src/store/selectors/card-list.ts:308-330 | an absent filter adds no condition; a present one adds its own |
| CardListFilters.CostFilter | src/store/selectors/card-list.ts:118-121 | present iff a range is selected |
| CardListFilters.LevelFilter | src/store/selectors/card-list.ts:134-137 | present iff a range is selected |
| CardListFilters.FactionFilter | src/store/selectors/card-list.ts:128-132 | present iff a faction list is set, an empty one included |
| CardListFilters.TabooSetFilter | src/store/selectors/card-list.ts:190-194 | present iff the taboo set id is present and not 0 |
| CardListFilters.OwnershipFilter | src/store/selectors/card-list.ts:139-151 | `pass` for "all", ownership for "owned", not-owned for any other value |
| CardListFilters.PackCodeFilter | src/store/selectors/card-list.ts:157-171 | `pass` iff no pack is switched on; otherwise ownership through the chosen packs |
| CardListFilters.InvestigatorCard | src/store/selectors/card-list.ts:225-237 | the investigator card exists iff its code is present, non-empty and in the card table |
| CardListFilters.InvestigatorFilter | src/store/selectors/card-list.ts:225-237 | present iff the investigator card exists; it is that card's access filter |
| CardListFilters.InvestigatorWeaknessFilter | src/store/selectors/card-list.ts:211-223 | present iff the investigator card exists; it is that card's weakness access filter |
| CardListFilters.DeckInvestigatorFilter | src/store/selectors/card-list.ts:239-253 | present iff a deck with an investigator back is active; it carries the deck's extra options |
| CardListFilters.PlayerCardFilters | src/store/selectors/card-list.ts:259-334 | the conjunction of the fixed filters followed by each present optional filter |
| CardListFilters.WeaknessFilters | src/store/selectors/card-list.ts:336-409 | the same for the weakness filters |
| CardListFilters.EncounterFilters | src/store/selectors/card-list.ts:411-468 | the same for the encounter filters |
| CardListFilters.OwnershipMeaning | src/store/selectors/card-list.ts:139-151 | the ownership filter accepts everything for "all", owned cards for "owned", unowned cards otherwise |
| CardListFilters.PackCodeMeaning | src/store/selectors/card-list.ts:157-171 | the pack filter accepts everything unless a pack is chosen; then it accepts cards owned through the chosen packs |
| CardListFilters.AndPush | src/store/selectors/card-list.ts:308-330 | one conditional push adds the pushed filter's condition, if any |
| CardListFilters.PlayerFiltersMeaning | src/store/selectors/card-list.ts:259-334 | a card passes iff it passes every fixed filter and each present optional one |
| CardListFilters.WeaknessFiltersMeaning | src/store/selectors/card-list.ts:336-409 | a card passes iff it passes every fixed filter and each present optional one |
| CardListFilters.EncounterFiltersMeaning | src/store/selectors/card-list.ts:411-468 | a card passes iff it passes every fixed filter and each present faction, cost and deck-investigator filter |
| CardListFilters.PlayerFilterCount | src/store/selectors/card-list.ts:308-330 | the number of conjuncts is the fixed ones plus one per present optional filter |
| DeckCreate.Faces | src/store/selectors/deck-create.ts:15-43 | the three faces are resolved in a fixed order |
| DeckCreate.SelectDeckCreateInvestigators | src/store/selectors/deck-create.ts:15-43 | success iff all three faces resolve, and then the record holds exactly them; failure names the first face that does not resolve |
| DeckCreate.Quantities | src/store/selectors/deck-create.ts:69-75 | the `reduce` yields the quantity map of the set |
| DeckCreate.QuantityMapKeys | src/store/selectors/deck-create.ts:69-75 | the quantity map has a key for each card of the set and no other |
| DeckCreate.QuantityMapValue | src/store/selectors/deck-create.ts:69-75 | a card no later card overwrites gets the quantity its rule gives it |
| DeckCreate.OccultEvidenceQuantity | src/store/selectors/deck-create.ts:163 | NaN stays NaN; otherwise 10q + 20 is the deck size |
| DeckCreate.OccultEvidenceWhole | src/store/selectors/deck-create.ts:163 | a deck size of 20 plus a multiple of 10 gives a whole number of copies |
| DeckCreate.MakeSet | src/store/selectors/deck-create.ts:62-140 | a set's cards are its relation list and its quantities are that list's quantity map |
| DeckCreate.When | src/store/selectors/deck-create.ts:62-140 | a conditional push adds the set exactly when its condition holds |
| DeckCreate.BuildSet | src/store/selectors/deck-create.ts:63-77 | builds the set as `MakeSet` describes |
| DeckCreate.PushSet | src/store/selectors/deck-create.ts:62-78 | the list grows by the set exactly when the condition holds |
| DeckCreate.PushOptionalSets | src/store/selectors/deck-create.ts:62-140 | the advanced, replacement, special and bound sets, in order, each when present |
| DeckCreate.SelectDeckCreateCardSets | src/store/selectors/deck-create.ts:45-195 | the list the selector builds (the ordering and selection lemmas below) |
| DeckCreate.RequiredHead | src/store/selectors/deck-create.ts:142-172 | the required set is put in front exactly when the investigator has a list of required cards |
| DeckCreate.Ids | src/store/selectors/deck-create.ts:45-195 | one id per set, in order |
| DeckCreate.IdsAppend | src/store/selectors/deck-create.ts:45-195 | ids of a concatenation are the concatenated ids |
| DeckCreate.OptionalIds | src/store/selectors/deck-create.ts:62-140 | the ids after the required cards are advanced, replacement, extra and bound, each when offered |
| DeckCreate.IdsWhen | src/store/selectors/deck-create.ts:62-140 | a conditional push adds exactly its id |
| DeckCreate.CardSetMembers | src/store/selectors/deck-create.ts:45-195 | every set is one of the six the selector can push, built from its relation list |
| DeckCreate.RandomWeaknessFirst | src/store/selectors/deck-create.ts:174-191 | the random basic weakness comes first, chosen, not toggleable, with one copy per random requirement (1 without requirements) |
| DeckCreate.RequiredSecond | src/store/selectors/deck-create.ts:142-172 | the required cards come second and can be toggled exactly when further sets follow |
| DeckCreate.CardSetsOrder | src/store/selectors/deck-create.ts:45-195 | the ids come in the order random weakness, required, advanced, replacement, extra, bound, each only when offered |
| DeckCreate.CardSetsSelection | src/store/selectors/deck-create.ts:62-172 | advanced, replacement and required cards are chosen iff their id is among the chosen sets; bound cards are neither toggleable nor chosen; special cards are always chosen, never toggled, and their quantities are editable only for Parallel Roland |
| DeckCreate.PrintedQuantities | src/store/selectors/deck-create.ts:69-138 | advanced, replacement and bound cards count with their printed quantity |
| DeckCreate.SpecialCardQuantities | src/store/selectors/deck-create.ts:114-121 | a special card's quantity is the chosen one when there is one, else the printed one |
| DeckCreate.RequiredQuantities | src/store/selectors/deck-create.ts:149-170 | Occult Evidence gets (deck size - 20) / 10 copies, with the selected size when offered and made, else the requirement (30 by default); other cards get their printed quantity |
| SharedSlice.FailurePropagates | src/store/slices/shared/index.ts:55-92 | once a prefix of the records has thrown, the whole loop throws the same error |
| SharedSlice.IngestRecords | src/store/slices/shared/index.ts:55-92 | the loop computes the ingestion function, including its failure |
| SharedSlice.IngestRecord | src/store/slices/shared/index.ts:56-91 | one record is one ingestion step |
| SharedSlice.MarkParallel | src/store/slices/shared/index.ts:79-81 | the card's `parallel` flag is set from its pack's cycle |
| SharedSlice.AssignPack | src/store/slices/shared/index.ts:85-91 | the card's encounter set receives the card's pack when it has none yet |
| SharedSlice.IngestFails | src/store/slices/shared/index.ts:55-92 | ingestion throws exactly when some card record names a pack not in the catalog |
| SharedSlice.StoredCodes | src/store/slices/shared/index.ts:56-83 | cards are stored exactly under the codes of the card records |
| SharedSlice.LastCardRecordWins | src/store/slices/shared/index.ts:79-83 | a card record no later one overwrites is stored under its code, with its `parallel` flag |
| SharedSlice.ParallelFlags | src/store/slices/shared/index.ts:79-81 | every stored card carries the flag of its pack's cycle |
| SharedSlice.StoredTabooIds | src/store/slices/shared/index.ts:56-71 | taboos are stored exactly under the ids of the taboo records |
| SharedSlice.LastTabooRecordWins | src/store/slices/shared/index.ts:56-71 | a taboo record no later one with its id overwrites is the stored overlay |
| SharedSlice.EncounterSetsKept | src/store/slices/shared/index.ts:85-91 | ingestion keeps the given encounter sets and only fills in missing packs |
| SharedSlice.EncounterSetWithoutCards | src/store/slices/shared/index.ts:85-91 | an encounter set with no card keeps what it was given |
| SharedSlice.FirstCardGivesPack | src/store/slices/shared/index.ts:85-91 | a set without a pack takes the pack of its first stored card, and later cards do not overwrite it |
| SharedSlice.PruneEncounterSets | src/store/slices/shared/index.ts:97-101 | exactly the sets with a pack are kept, unchanged |
| SharedSlice.Store.constructor | src/store/slices/shared/index.ts:103-109 | the store holds the given parts |
| SharedSlice.Store.Init | src/store/slices/shared/index.ts:27-109 | with a loaded catalog, the outcome and the whole new store are those `refreshLookupTables` gives for the old store; otherwise the settings are kept, a throw changes nothing, and success swaps in the pruned catalog, the tables built before pruning, and a ui record holding only `initialized` |
| UiSlice.InitialUiState | src/store/slices/ui/index.ts:6-14 | nothing hydrated, nothing initialised, no scroll position |
| UiSlice.Hydrated | src/store/slices/ui/index.ts:21-23 | `hydrated` is set and the other fields are copied |
| UiSlice.WithScrollRestore | src/store/slices/ui/index.ts:24-26 | the snapshot is stored and the other fields are copied |
| UiSlice.HydratedIdempotent | src/store/slices/ui/index.ts:21-23 | hydrating twice is hydrating once |
| UiSlice.SettersCommute | src/store/slices/ui/index.ts:21-26 | the two setters touch different fields, so their order does not matter |
| UiSlice.LastSnapshotWins | src/store/slices/ui/index.ts:24-26 | storing a snapshot forgets the previous one |
| UiSlice.UiStore.constructor | src/store/slices/ui/index.ts:6-14 | the store starts in the initial ui state |
| UiSlice.UiStore.SetHydrated | src/store/slices/ui/index.ts:21-23 | the new state is the hydrated old state |
| UiSlice.UiStore.SetListScrollRestore | src/store/slices/ui/index.ts:24-26 | the new state is the old state with the snapshot stored |
| I18nUtils.AddTraits | scripts/i18n-utils.ts:47-53 | the set gains the trait names of one card |
| I18nUtils.ListTraits | scripts/i18n-utils.ts:44-57 | strictly ascending in UTF-16 code-unit order (so duplicate-free), holding exactly the trait names of the cards |
| I18nUtils.TrimLacks | scripts/i18n-utils.ts:50 | trimming adds no character, so a "."-piece stays free of "." |
| I18nUtils.ValuesAreTokens | scripts/i18n-utils.ts:49-51 | for "."-free pieces the kept values are exactly the non-empty trimmed pieces |
| I18nUtils.TraitsAreMultiValues | scripts/i18n-utils.ts:44-57 | a name is collected iff it is a `splitMultiValue` token of some card's traits |
| I18nUtils.TraitHasCard | scripts/i18n-utils.ts:44-57 | every collected name is a token of some card |
| I18nUtils.CardHasTrait | scripts/i18n-utils.ts:44-57 | every token of every card is collected |
| I18nUtils.CardTraitsAreMultiValues | scripts/i18n-utils.ts:47-52 | one card contributes exactly its `splitMultiValue` tokens |
| I18nUtils.TraitsAreTokens | scripts/i18n-utils.ts:49-51 | every trait name is non-empty, trimmed, and free of "." |
| I18nUtils.ListUses | scripts/i18n-utils.ts:59-70 | strictly ascending in UTF-16 code-unit order, holding exactly the uses names of the cards |
| I18nUtils.UsesMembers | scripts/i18n-utils.ts:59-70 | a name is listed iff it is non-empty and is some card's uses |
| I18nUtils.AddOption | scripts/i18n-utils.ts:84-97 | the set gains the name and error (when non-empty) and every choice name of one option |
| I18nUtils.AddCardOptions | scripts/i18n-utils.ts:82-98 | the set gains the texts of one card's deck options |
| I18nUtils.ListDeckOptions | scripts/i18n-utils.ts:72-103 | strictly ascending in UTF-16 code-unit order, holding exactly the four seed errors and the deck-option texts of the cards |
| I18nUtils.OptionsTextsMembers | scripts/i18n-utils.ts:84-97 | the texts of a run of options are those of its members |
| I18nUtils.SelectNamesMembers | scripts/i18n-utils.ts:93-97 | every choice name is collected, empty ones included |
| I18nUtils.TableOfEntries | scripts/i18n-utils.ts:15-28 | a table has exactly the listed keys, each mapped to `f` of itself |
| I18nUtils.UsesTableEntries | scripts/i18n-utils.ts:15-18 | the uses table maps each uses name to its capitalised form, and has no other key |
| I18nUtils.IdentityTableEntries | scripts/i18n-utils.ts:20-28 | the traits and deck-options tables map each key to itself, and have no other key |
| Formatting.UpperChar | src/utils/formatting.tsx:10 | lower-case ASCII letters become upper-case; other characters are unchanged |
| Formatting.Capitalize | src/utils/formatting.tsx:6-11 | same length; the empty string stays; otherwise the first character is upper-cased and the rest is unchanged |
| Formatting.CapitalizeIdempotent | src/utils/formatting.tsx:6-11 | capitalising twice is capitalising once |
| Formatting.CapitalizeDecimal | src/utils/formatting.tsx:6-11 | capitalising a natural number's decimal rendering leaves it unchanged |
| Formatting.CapitalizeAll | src/utils/formatting.tsx:15 | each piece is capitalised, in order |
| Formatting.SnakeToWords | src/utils/formatting.tsx:13-16 | the character-level reference keeps the length |
| Formatting.JoinPrefixFirst | src/utils/formatting.tsx:15 | a character prefixed to the first piece comes out in front of the join |
| Formatting.JoinCapitalizedSplit | src/utils/formatting.tsx:13-16 | split, capitalise and join equals the character-level reference |
| Formatting.CapitalizeSnakeCaseWords | src/utils/formatting.tsx:13-16 | every "_" becomes a space, the first character of each word is upper-cased, the length is kept, no "_" remains, and there is one more word than underscores |
| Formatting.SnakeToWordsShape | src/utils/formatting.tsx:13-16 | no "_" remains, and each "_" position holds a space |
| Formatting.FormatProviderName | src/utils/formatting.tsx:59-69 | "arkhamdb" gives "ArkhamDB", any other name is capitalised; the length is kept |
| Formatting.AdjustmentText | src/utils/formatting.tsx:47-49 | empty iff the adjustment is absent or 0; otherwise parenthesised, with "+" iff positive and "-" iff negative |
| Formatting.AdjustmentRoundTrip | src/utils/formatting.tsx:47-49 | the text of a non-zero adjustment reads back as that adjustment |
| Strings.TrimShape | src/utils/card-utils.ts:11 | `trim` gives a slice of the input that neither starts nor ends with white space, and only white space is removed |
| Strings.TrimEmpty | src/utils/card-utils.ts:11 | trimming gives the empty string iff the input is all white space |
| Strings.TrimIdempotent | scripts/i18n-utils.ts:50 | trimming twice is trimming once |
| Strings.Split | src/utils/card-utils.ts:11 | `split` yields at least one piece |
| Strings.SplitPiecesLackSeparator | src/utils/card-utils.ts:11 | no piece contains the separator |
| Strings.JoinSplit | src/utils/formatting.tsx:15 | joining the pieces with the separator gives the string back |
| Strings.SplitCount | src/utils/formatting.tsx:15 | there is one more piece than separators |
| Strings.SplitWithoutSeparator | src/utils/card-utils.ts:11 | a string without the separator splits into itself |
| Strings.ReplaceFirst | scripts/i18n-utils.ts:50 | `replace` removes one character when the pattern occurs and changes nothing otherwise |
| Strings.CodeUnits | scripts/i18n-utils.ts:56 | a character below U+10000 is one code unit, itself; any other is a high surrogate followed by a low surrogate |
| Strings.CodeUnitsPrefix | scripts/i18n-utils.ts:56 | the code units of a character, followed by anything, determine the character and the rest |
| Strings.Utf16Injective | scripts/i18n-utils.ts:56 | different strings have different UTF-16 encodings |
| Strings.UnitsIrreflexive | scripts/i18n-utils.ts:56 | the code-unit order is irreflexive |
| Strings.UnitsTransitive | scripts/i18n-utils.ts:56 | the code-unit order is transitive |
| Strings.UnitsTotal | scripts/i18n-utils.ts:56 | any two different code-unit sequences are ordered |
| Strings.AstralBeforeHighPlane | scripts/i18n-utils.ts:56 | the order is that of UTF-16, not of code points: U+1F600 sorts before U+FF5E |
| Strings.LexIrreflexive | scripts/i18n-utils.ts:56 | the default sort order is irreflexive |
| Strings.LexTransitive | scripts/i18n-utils.ts:56 | the default sort order is transitive |
| Strings.LexTotal | scripts/i18n-utils.ts:56 | any two different strings are ordered |
| Strings.LexAsymmetric | scripts/i18n-utils.ts:56 | the default sort order is asymmetric |
| Strings.InsertSorted | scripts/i18n-utils.ts:56 | inserting a new string keeps the sequence strictly sorted and adds exactly that string |
| Strings.SortedElements | scripts/i18n-utils.ts:45-56 | `Array.from(set).sort()` is strictly ascending in UTF-16 code-unit order and has exactly the set's elements |
| Strings.StrictlySortedUnique | scripts/i18n-utils.ts:45-56 | two strictly sorted sequences with the same elements are equal, so the sorted list is determined |
| Strings.NatToDecimal | src/utils/formatting.tsx:7 | the decimal rendering is non-empty digits with no leading zero |
| Strings.DecimalRoundTrip | src/utils/formatting.tsx:7 | reading the rendering back gives the number |
| Sorting.Insert | src/store/selectors/card-list.ts:529 | inserting adds exactly the element |
| Sorting.SortBy | src/store/selectors/card-list.ts:529 | `sort` keeps the length and the multiset of elements |
| Sorting.InsertElements | src/store/selectors/card-list.ts:529 | inserting brings in that element and nothing else |
| Sorting.InsertSorted | src/store/selectors/card-list.ts:529 | with a consistent comparator, insertion keeps a sorted sequence sorted |
| Sorting.SortBySorted | src/store/selectors/card-list.ts:529 | with a consistent comparator, the result is ordered by it |
| Sorting.EquivalentToSnoc | src/store/selectors/card-list.ts:529 | appending an element adds it to the elements equal to `k` exactly when it compares equal to `k` |
| Sorting.InsertStable | src/store/selectors/card-list.ts:529 | an inserted element goes behind every element that compares equal to it |
| Sorting.SortByStable | src/store/selectors/card-list.ts:529 | the sort is stable: the elements comparing equal to any `k` keep their input order |

## Left out

- Fetching. The catalog queries, `Promise.all` and the script's `fetch` are not
  modelled: their answers are parameters (`SharedSlice.Fetched`, the card
  sequences of the locale-key script).
- File I/O. `readLocale` and `writeLocale` are not modelled; the script is
  modelled from its card list to the three locale tables.
- Memoisation. `createSelector` caching is not modelled; each selector is a
  function of its inputs.
- Console logging and timing in `init` are not modelled.
- SharedSlice.Store.Init: the effects of `refreshLookupTables` are not modelled.
  Its body is not part of this model, so the loaded-catalog path only promises
  that the outcome and the new store (catalog, lookup tables, settings and `ui`
  record) are whatever that function gives. In particular it does not promise
  that the catalog or the `initialized` flag are kept.
- Translation. `i18n.t`/`i18next.t` are not modelled. This covers the card-set
  titles, the card-set help texts and the upgrade-experience message around the
  adjustment text.
- The libraries the core calls are parameters. Their own code is not part of
  this model:
  - the filter library: the `holds` oracle for each filter term
  - `getGroupCards`
  - `applySearch`
  - the sorting comparators
  - card-change application
  - `resolveCardWithRelations`
  - `cardUses`
  - `createLookupTables`, `createRelations` and `refreshLookupTables`
  - the deck resolver's `isSpecialCard`
  - `getAdditionalDeckOptions`
- The constants of `src/utils/constants.ts` are parameters. This covers
  `SPECIAL_CARD_CODES`, `PLAYER_TYPE_ORDER` and the slot order.
- The iteration order of `Object.keys`/`Object.values` is taken as the given
  sequences.
- CardList.WeaknessGroup: only the group names are stated. The sort of the
  weakness groups in card-list.ts:87 uses a one-argument comparator whose order
  the ECMAScript sort does not define, so the model keeps the subtype order it
  is given.
- CardList.WeaknessEntries: the weakness list is as written: searched twice and
  unsorted, because the sorted array is discarded. Whether `applySearch` returns
  its input array, which would make the sort visible, depends on the search
  library and is not modelled.
- Sorting.SortBy: it is modelled on values, so the in-place update of the array
  and its aliasing are not captured. Stability, which ECMAScript 2019 requires,
  is proved as `Sorting.SortByStable`.
- Formatting.Capitalize: only ASCII letters are upper-cased; the Unicode case
  tables of `toUpperCase` are not modelled.
- DeckCreate.OccultEvidenceQuantity: `+s` is modelled for strings of decimal
  digits only; any other string gives NaN.
- CardListFilters.Active: the filter panel's state shapes are reduced to the
  fields the selectors pass on; each is handed to the filter library unchanged.
- HTML and regular-expression formatting, dates, image URLs and the other
  display helpers of formatting.tsx and card-utils.ts are not modelled.
- `isEnemyLike` and `isLocationLike` are modelled as predicates only. Each is a
  truthiness test on one or two fields, and neither has a lemma of its own.

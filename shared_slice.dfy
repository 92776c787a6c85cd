/**
 * Catalog ingestion of the shared store slice: once the catalog queries have
 * answered, the raw records are split into taboo overlays and cards, every card
 * gets its `parallel` flag, every encounter set learns its pack from the first
 * card stored for it, encounter sets that found no pack are dropped, and the
 * new tables are swapped into the store in one step.
 *
 * The queries themselves are not modelled: their answers are the `Fetched`
 * parameter of `Store.Init`. The lookup-table builder and `refreshLookupTables`
 * are not part of this model either; they are the functions of a `LookupBuilder`.
 * Since the body of `refreshLookupTables` is not shown, it may replace any part
 * of the store and succeed or throw.
 */
module SharedSlice {
  import opened Wrappers
  import opened CardTypes
  import opened UiSlice

  /** The answers of the metadata, data-version and card queries, tables keyed by code. */
  datatype Fetched = Fetched(
    dataVersion: DataVersion,
    packs: map<string, Pack>,
    cycles: map<string, Cycle>,
    encounterSets: map<string, EncounterSet>,
    types: map<string, CardType>,
    subtypes: map<string, SubType>,
    records: seq<QueryCard>
  )

  /** The tables the ingestion loop writes into. */
  datatype Tables = Tables(cards: map<string, Card>, taboos: map<string, Taboo>, encounterSets: map<string, EncounterSet>)

  /** A record with a (truthy) taboo set id is a taboo overlay, not a card. */
  predicate IsTabooRecord(r: QueryCard) {
    TruthyInt(r.tabooSetId)
  }

  /** The overlay fields copied out of a taboo record. */
  function TabooOf(r: QueryCard): Taboo
    requires IsTabooRecord(r)
  {
    Taboo(r.card.code, r.card.realText, r.card.realBackText, r.realTabooTextChange, r.tabooSetId.value,
      r.card.tabooXp, r.card.exceptional, r.card.customizationOptions, r.card.realCustomizationText,
      r.card.realCustomizationChange)
  }

  /** Whether the cycle of a pack is the "parallel" cycle; a cycle that is missing is not. */
  predicate InParallelCycle(packs: map<string, Pack>, cycles: map<string, Cycle>, packCode: string)
    requires packCode in packs
  {
    var cycleCode := packs[packCode].cycleCode;
    cycleCode in cycles && cycles[cycleCode].code == "parallel"
  }

  /** The card as it is stored: its `parallel` flag set from its pack's cycle. */
  function Stored(c: Card, packs: map<string, Pack>, cycles: map<string, Cycle>): Card
    requires c.packCode in packs
  {
    c.(parallel := InParallelCycle(packs, cycles, c.packCode))
  }

  /** A stored card gives its pack to its encounter set, unless that set already has a pack. */
  function BackfillPack(sets: map<string, EncounterSet>, card: Card): map<string, EncounterSet> {
    if TruthyString(card.encounterCode) && card.encounterCode.value in sets
      && !TruthyString(sets[card.encounterCode.value].packCode)
    then sets[card.encounterCode.value := sets[card.encounterCode.value].(packCode := Some(card.packCode))]
    else sets
  }

  /** Reading the cycle of an unknown pack throws. */
  const UnknownPackError := "TypeError: Cannot read properties of undefined (reading 'cycle_code')"

  /** One step of the ingestion loop. */
  function AddRecord(t: Tables, r: QueryCard, packs: map<string, Pack>, cycles: map<string, Cycle>): Result<Tables> {
    if IsTabooRecord(r) then Success(t.(taboos := t.taboos[r.id := TabooOf(r)]))
    else if r.card.packCode !in packs then Failure(UnknownPackError)
    else
      var card := Stored(r.card, packs, cycles);
      Success(Tables(t.cards[card.code := card], t.taboos, BackfillPack(t.encounterSets, card)))
  }

  /** The whole ingestion loop, starting from no cards, no taboos and the fetched encounter sets. */
  function Ingest(sets: map<string, EncounterSet>, records: seq<QueryCard>, packs: map<string, Pack>, cycles: map<string, Cycle>): Result<Tables>
    decreases |records|
  {
    if |records| == 0 then Success(Tables(map[], map[], sets))
    else
      match Ingest(sets, records[..|records| - 1], packs, cycles)
      case Failure(e) => Failure(e)
      case Success(t) => AddRecord(t, records[|records| - 1], packs, cycles)
  }

  /** Once a prefix of the records has thrown, the whole loop has thrown the same error. */
  lemma {:induction false} FailurePropagates(sets: map<string, EncounterSet>, records: seq<QueryCard>, n: nat, packs: map<string, Pack>, cycles: map<string, Cycle>)
    requires n <= |records| && Ingest(sets, records[..n], packs, cycles).Failure?
    ensures Ingest(sets, records, packs, cycles) == Ingest(sets, records[..n], packs, cycles)
    decreases |records|
  {
    if n == |records| {
      assert records[..n] == records;
    } else {
      var init := records[..|records| - 1];
      assert init[..n] == records[..n];
      FailurePropagates(sets, init, n, packs, cycles);
    }
  }

  /** One more record is one more step. */
  lemma IngestStep(sets: map<string, EncounterSet>, records: seq<QueryCard>, i: nat, packs: map<string, Pack>, cycles: map<string, Cycle>)
    requires i < |records|
    ensures Ingest(sets, records[..i + 1], packs, cycles) ==
      match Ingest(sets, records[..i], packs, cycles)
      case Failure(e) => Failure(e)
      case Success(t) => AddRecord(t, records[i], packs, cycles)
  {
    assert records[..i + 1][..i] == records[..i];
  }

  /** The ingestion loop of `init` (the `forEach` over the fetched records). */
  method IngestRecords(sets: map<string, EncounterSet>, records: seq<QueryCard>, packs: map<string, Pack>, cycles: map<string, Cycle>)
    returns (r: Result<Tables>)
    ensures r == Ingest(sets, records, packs, cycles)
  {
    var cards: map<string, Card> := map[];
    var taboos: map<string, Taboo> := map[];
    var encounterSets := sets;
    for i := 0 to |records|
      invariant Ingest(sets, records[..i], packs, cycles) == Success(Tables(cards, taboos, encounterSets))
    {
      IngestStep(sets, records, i, packs, cycles);
      var step := IngestRecord(cards, taboos, encounterSets, records[i], packs, cycles);
      if step.Failure? {
        FailurePropagates(sets, records, i + 1, packs, cycles);
        return Failure(UnknownPackError);
      }
      cards, taboos, encounterSets := step.value.cards, step.value.taboos, step.value.encounterSets;
    }
    assert records[..|records|] == records;
    r := Success(Tables(cards, taboos, encounterSets));
  }

  /** The body of the ingestion loop for one record. */
  method IngestRecord(cards: map<string, Card>, taboos: map<string, Taboo>, encounterSets: map<string, EncounterSet>,
                      c: QueryCard, packs: map<string, Pack>, cycles: map<string, Cycle>)
    returns (r: Result<Tables>)
    ensures r == AddRecord(Tables(cards, taboos, encounterSets), c, packs, cycles)
  {
    if TruthyInt(c.tabooSetId) {
      return Success(Tables(cards, taboos[c.id := TabooOf(c)], encounterSets));
    }
    if c.card.packCode !in packs {
      return Failure(UnknownPackError);
    }
    var card := MarkParallel(c.card, packs, cycles);
    var sets' := AssignPack(encounterSets, card);
    r := Success(Tables(cards[card.code := card], taboos, sets'));
  }

  /** Sets a card's `parallel` flag from the cycle of its pack. */
  method MarkParallel(card: Card, packs: map<string, Pack>, cycles: map<string, Cycle>) returns (r: Card)
    requires card.packCode in packs
    ensures r == Stored(card, packs, cycles)
  {
    var pack := packs[card.packCode];
    r := card.(parallel := pack.cycleCode in cycles && cycles[pack.cycleCode].code == "parallel");
  }

  /** Gives a stored card's pack to its encounter set when that set has none yet. */
  method AssignPack(sets: map<string, EncounterSet>, card: Card) returns (r: map<string, EncounterSet>)
    ensures r == BackfillPack(sets, card)
  {
    r := sets;
    if TruthyString(card.encounterCode) {
      var code := card.encounterCode.value;
      if code in r && !TruthyString(r[code].packCode) {
        r := r[code := r[code].(packCode := Some(card.packCode))];
      }
    }
  }

  /** The loop throws exactly when some card record names a pack that is not in the catalog. */
  lemma {:induction false} IngestFails(sets: map<string, EncounterSet>, records: seq<QueryCard>, packs: map<string, Pack>, cycles: map<string, Cycle>)
    ensures Ingest(sets, records, packs, cycles).Failure?
      <==> exists i :: 0 <= i < |records| && !IsTabooRecord(records[i]) && records[i].card.packCode !in packs
    decreases |records|
  {
    if |records| > 0 {
      var n := |records|;
      var init := records[..n - 1];
      IngestFails(sets, init, packs, cycles);
      assert forall i :: 0 <= i < n - 1 ==> init[i] == records[i];
      if exists i :: 0 <= i < n && !IsTabooRecord(records[i]) && records[i].card.packCode !in packs {
        var i :| 0 <= i < n && !IsTabooRecord(records[i]) && records[i].card.packCode !in packs;
        if i < n - 1 {
          assert init[i] == records[i];
        }
      }
    }
  }

  /** The cards are stored exactly under the codes of the card records; taboo records add none. */
  lemma {:induction false} StoredCodes(sets: map<string, EncounterSet>, records: seq<QueryCard>, packs: map<string, Pack>, cycles: map<string, Cycle>)
    requires Ingest(sets, records, packs, cycles).Success?
    ensures var t := Ingest(sets, records, packs, cycles).value;
      forall code :: code in t.cards <==> exists i :: 0 <= i < |records| && !IsTabooRecord(records[i]) && records[i].card.code == code
    decreases |records|
  {
    if |records| > 0 {
      var n := |records|;
      var init := records[..n - 1];
      StoredCodes(sets, init, packs, cycles);
      assert forall i :: 0 <= i < n - 1 ==> init[i] == records[i];
      var t := Ingest(sets, records, packs, cycles).value;
      forall code | code in t.cards ensures exists i :: 0 <= i < n && !IsTabooRecord(records[i]) && records[i].card.code == code {
        if !(!IsTabooRecord(records[n - 1]) && records[n - 1].card.code == code) {
          var j :| 0 <= j < n - 1 && !IsTabooRecord(init[j]) && init[j].card.code == code;
          assert records[j] == init[j];
        }
      }
    }
  }

  /**
   * A card record that no later card record overwrites is what ends up stored
   * under its code, with its `parallel` flag set from its pack's cycle.
   */
  lemma {:induction false} LastCardRecordWins(sets: map<string, EncounterSet>, records: seq<QueryCard>, packs: map<string, Pack>, cycles: map<string, Cycle>, i: nat)
    requires Ingest(sets, records, packs, cycles).Success?
    requires i < |records| && !IsTabooRecord(records[i])
    requires forall j :: i < j < |records| ==> IsTabooRecord(records[j]) || records[j].card.code != records[i].card.code
    ensures records[i].card.packCode in packs
    ensures records[i].card.code in Ingest(sets, records, packs, cycles).value.cards
    ensures Ingest(sets, records, packs, cycles).value.cards[records[i].card.code] == Stored(records[i].card, packs, cycles)
    decreases |records|
  {
    var n := |records|;
    var init := records[..n - 1];
    var last := records[n - 1];
    assert Ingest(sets, init, packs, cycles).Success?;
    var t := Ingest(sets, init, packs, cycles).value;
    assert Ingest(sets, records, packs, cycles) == AddRecord(t, last, packs, cycles);
    if i < n - 1 {
      assert init[i] == records[i];
      assert forall j :: i < j < |init| ==> init[j] == records[j];
      LastCardRecordWins(sets, init, packs, cycles, i);
      assert IsTabooRecord(last) || last.card.code != records[i].card.code;
    }
  }

  /** Every stored card carries the `parallel` flag of its pack's cycle. */
  lemma {:induction false} ParallelFlags(sets: map<string, EncounterSet>, records: seq<QueryCard>, packs: map<string, Pack>, cycles: map<string, Cycle>)
    requires Ingest(sets, records, packs, cycles).Success?
    ensures var t := Ingest(sets, records, packs, cycles).value;
      forall code :: code in t.cards ==>
        && t.cards[code].code == code
        && t.cards[code].packCode in packs
        && (t.cards[code].parallel <==> InParallelCycle(packs, cycles, t.cards[code].packCode))
    decreases |records|
  {
    if |records| > 0 {
      ParallelFlags(sets, records[..|records| - 1], packs, cycles);
    }
  }

  /** The taboos are stored exactly under the ids of the taboo records. */
  lemma {:induction false} StoredTabooIds(sets: map<string, EncounterSet>, records: seq<QueryCard>, packs: map<string, Pack>, cycles: map<string, Cycle>)
    requires Ingest(sets, records, packs, cycles).Success?
    ensures var t := Ingest(sets, records, packs, cycles).value;
      forall id :: id in t.taboos <==> exists i :: 0 <= i < |records| && IsTabooRecord(records[i]) && records[i].id == id
    decreases |records|
  {
    if |records| > 0 {
      var n := |records|;
      var init := records[..n - 1];
      StoredTabooIds(sets, init, packs, cycles);
      assert forall i :: 0 <= i < n - 1 ==> init[i] == records[i];
      var t := Ingest(sets, records, packs, cycles).value;
      forall id | id in t.taboos ensures exists i :: 0 <= i < n && IsTabooRecord(records[i]) && records[i].id == id {
        if !(IsTabooRecord(records[n - 1]) && records[n - 1].id == id) {
          var j :| 0 <= j < n - 1 && IsTabooRecord(init[j]) && init[j].id == id;
          assert records[j] == init[j];
        }
      }
    }
  }

  /** A taboo record that no later taboo record with its id overwrites is the stored overlay. */
  lemma {:induction false} LastTabooRecordWins(sets: map<string, EncounterSet>, records: seq<QueryCard>, packs: map<string, Pack>, cycles: map<string, Cycle>, i: nat)
    requires Ingest(sets, records, packs, cycles).Success?
    requires i < |records| && IsTabooRecord(records[i])
    requires forall j :: i < j < |records| ==> !IsTabooRecord(records[j]) || records[j].id != records[i].id
    ensures records[i].id in Ingest(sets, records, packs, cycles).value.taboos
    ensures Ingest(sets, records, packs, cycles).value.taboos[records[i].id] == TabooOf(records[i])
    decreases |records|
  {
    var n := |records|;
    var init := records[..n - 1];
    var last := records[n - 1];
    assert Ingest(sets, init, packs, cycles).Success?;
    var t := Ingest(sets, init, packs, cycles).value;
    assert Ingest(sets, records, packs, cycles) == AddRecord(t, last, packs, cycles);
    if i < n - 1 {
      assert init[i] == records[i];
      assert forall j :: i < j < |init| ==> init[j] == records[j];
      LastTabooRecordWins(sets, init, packs, cycles, i);
      assert !IsTabooRecord(last) || last.id != records[i].id;
    }
  }

  /** Ingestion keeps the encounter sets it was given, only fills in missing packs. */
  lemma {:induction false} EncounterSetsKept(sets: map<string, EncounterSet>, records: seq<QueryCard>, packs: map<string, Pack>, cycles: map<string, Cycle>)
    requires Ingest(sets, records, packs, cycles).Success?
    ensures var es := Ingest(sets, records, packs, cycles).value.encounterSets;
      && es.Keys == sets.Keys
      && (forall e :: e in sets ==> es[e].code == sets[e].code && es[e].name == sets[e].name)
      && (forall e :: e in sets && TruthyString(sets[e].packCode) ==> es[e] == sets[e])
    decreases |records|
  {
    if |records| > 0 {
      EncounterSetsKept(sets, records[..|records| - 1], packs, cycles);
    }
  }

  /** Whether a record is a card of encounter set `e`. */
  predicate CardOfEncounterSet(r: QueryCard, e: string) {
    !IsTabooRecord(r) && TruthyString(r.card.encounterCode) && r.card.encounterCode.value == e
  }

  /** An encounter set without any card keeps what it was given. */
  lemma {:induction false} EncounterSetWithoutCards(sets: map<string, EncounterSet>, records: seq<QueryCard>, packs: map<string, Pack>, cycles: map<string, Cycle>, e: string)
    requires Ingest(sets, records, packs, cycles).Success? && e in sets
    requires forall j :: 0 <= j < |records| ==> !CardOfEncounterSet(records[j], e)
    ensures var es := Ingest(sets, records, packs, cycles).value.encounterSets;
      e in es && es[e] == sets[e]
    decreases |records|
  {
    if |records| > 0 {
      var init := records[..|records| - 1];
      forall j | 0 <= j < |init| ensures !CardOfEncounterSet(init[j], e) {
        assert init[j] == records[j];
      }
      EncounterSetWithoutCards(sets, init, packs, cycles, e);
      assert !CardOfEncounterSet(records[|records| - 1], e);
    }
  }

  /**
   * An encounter set that comes without a pack takes the pack of the first card
   * stored for it; later cards of the set do not overwrite it.
   */
  lemma {:induction false} FirstCardGivesPack(sets: map<string, EncounterSet>, records: seq<QueryCard>, packs: map<string, Pack>, cycles: map<string, Cycle>, e: string, i: nat)
    requires Ingest(sets, records, packs, cycles).Success?
    requires "" !in packs
    requires e in sets && !TruthyString(sets[e].packCode)
    requires i < |records| && CardOfEncounterSet(records[i], e)
    requires forall j :: 0 <= j < i ==> !CardOfEncounterSet(records[j], e)
    ensures e in Ingest(sets, records, packs, cycles).value.encounterSets
    ensures Ingest(sets, records, packs, cycles).value.encounterSets[e].packCode == Some(records[i].card.packCode)
    decreases |records|
  {
    var n := |records|;
    var init := records[..n - 1];
    EncounterSetsKept(sets, init, packs, cycles);
    if i == n - 1 {
      forall j | 0 <= j < |init| ensures !CardOfEncounterSet(init[j], e) {
        assert init[j] == records[j];
      }
      EncounterSetWithoutCards(sets, init, packs, cycles, e);
    } else {
      assert init[i] == records[i];
      forall j | 0 <= j < i ensures !CardOfEncounterSet(init[j], e) {
        assert init[j] == records[j];
      }
      FirstCardGivesPack(sets, init, packs, cycles, e, i);
      IngestFails(sets, records, packs, cycles);
      assert records[i].card.packCode in packs;
    }
  }

  /** The encounter sets that found a pack: what the `delete` loop keeps. */
  function WithPack(sets: map<string, EncounterSet>): map<string, EncounterSet> {
    map e | e in sets && TruthyString(sets[e].packCode) :: sets[e]
  }

  /** The loop that deletes every encounter set still lacking a pack, and no other. */
  method PruneEncounterSets(sets: map<string, EncounterSet>) returns (r: map<string, EncounterSet>)
    ensures forall e :: e in r <==> e in sets && TruthyString(sets[e].packCode)
    ensures forall e :: e in r ==> r[e] == sets[e]
  {
    r := sets;
    var keys := sets.Keys;
    while keys != {}
      invariant keys <= sets.Keys && r.Keys <= sets.Keys
      invariant forall e :: e in r ==> r[e] == sets[e]
      invariant forall e :: e in keys ==> e in r
      invariant forall e :: e in sets && e !in keys ==> (e in r <==> TruthyString(sets[e].packCode))
      decreases keys
    {
      var e :| e in keys;
      if !TruthyString(r[e].packCode) {
        r := r - {e};
      }
      keys := keys - {e};
    }
  }

  /** The catalog as it stands after the ingestion loop, before the encounter sets are pruned. */
  function FreshMetadata(fetched: Fetched, t: Tables): Metadata {
    Metadata(Some(fetched.dataVersion), t.cards, t.taboos, fetched.packs, fetched.cycles, t.encounterSets, fetched.types, fetched.subtypes)
  }

  /** The `ui` record `init` swaps in: only `initialized`, so `hydrated` reads as false. */
  const InitializedUi := UiState(false, true, None)

  /** The parts of the application store that `init` reads or may replace. */
  datatype StoreParts = StoreParts(metadata: Metadata, lookupTables: LookupTables, settings: Settings, ui: UiState)

  /**
   * The lookup-table builder of a fresh catalog, and `refreshLookupTables`,
   * which maps the store to its outcome and to the store it leaves behind.
   */
  datatype LookupBuilder = LookupBuilder(
    build: (Metadata, Settings) -> LookupTables,
    refresh: StoreParts -> (Result<()>, StoreParts)
  )

  /** The parts of the application store that `init` reads and replaces. */
  class Store {
    var metadata: Metadata
    var lookupTables: LookupTables
    var settings: Settings
    const ui: UiStore

    constructor (ui: UiStore, metadata: Metadata, lookupTables: LookupTables, settings: Settings)
      ensures this.ui == ui && this.metadata == metadata
      ensures this.lookupTables == lookupTables && this.settings == settings
    {
      this.ui := ui;
      this.metadata := metadata;
      this.lookupTables := lookupTables;
      this.settings := settings;
    }

    /** The parts of the store as one value. */
    function Parts(): StoreParts
      reads this, ui
    {
      StoreParts(metadata, lookupTables, settings, ui.ui)
    }

    /** Whether a catalog was already loaded (the data version records a card update time). */
    predicate CatalogLoaded()
      reads this
    {
      metadata.dataVersion.Some? && metadata.dataVersion.value.cardsUpdatedAt != ""
    }

    /**
     * `init`: with a catalog already loaded, the outcome and the new store are
     * those of `refreshLookupTables`. Otherwise the fetched records are
     * ingested; a record of an unknown pack throws and nothing changes; else the new catalog (pruned of encounter sets
     * without a pack), the lookup tables built from it before the pruning, and a
     * `ui` record holding only `initialized` are swapped in together.
     */
    method Init(fetched: Fetched, builder: LookupBuilder) returns (outcome: Result<()>)
      modifies this, ui
      ensures old(CatalogLoaded()) ==>
        var refreshed := builder.refresh(old(Parts()));
        outcome == refreshed.0 && Parts() == refreshed.1
      ensures !old(CatalogLoaded()) ==>
        var ingested := Ingest(fetched.encounterSets, fetched.records, fetched.packs, fetched.cycles);
        && settings == old(settings)
        && (ingested.Failure? ==>
          outcome == Failure(UnknownPackError) && metadata == old(metadata)
          && lookupTables == old(lookupTables) && ui.ui == old(ui.ui))
        && (ingested.Success? ==>
          && outcome.Success?
          && metadata == FreshMetadata(fetched, ingested.value).(encounterSets := WithPack(ingested.value.encounterSets))
          && lookupTables == builder.build(FreshMetadata(fetched, ingested.value), old(settings))
          && ui.ui == InitializedUi)
    {
      if CatalogLoaded() {
        var refreshed := builder.refresh(Parts());
        var parts := refreshed.1;
        metadata, lookupTables, settings := parts.metadata, parts.lookupTables, parts.settings;
        ui.ui := parts.ui;
        return refreshed.0;
      }
      var ingested := IngestRecords(fetched.encounterSets, fetched.records, fetched.packs, fetched.cycles);
      if ingested.Failure? {
        return Failure(UnknownPackError);
      }
      var built := FreshMetadata(fetched, ingested.value);
      var tables := builder.build(built, settings);
      var kept := PruneEncounterSets(built.encounterSets);
      assert kept == WithPack(built.encounterSets);
      metadata := built.(encounterSets := kept);
      lookupTables := tables;
      ui.ui := InitializedUi;
      outcome := Success(());
    }
  }
}

/**
 * The card list: the groups a list is split into (card types with assets by
 * slot, weakness subtypes, encounter sets) and `selectFilteredCards`, which
 * walks the groups in order, keeps the ones with cards and produces three
 * parallel outputs: the groups, the flat list of their cards, and each
 * group's card count.
 *
 * Fetching a group's cards (`getGroupCards`), the text search and the sort
 * comparators belong to libraries that are not part of this model; they are
 * the fields of `Library`.
 */
module CardList {
  import opened Wrappers
  import opened CardTypes
  import opened Sorting
  import opened CardListFilters

  /** A heading of the card list. Groups built from a card type that the catalog lacks have no code or name. */
  datatype Grouping = Grouping(code: Option<string>, name: Option<string>, groupingType: string)

  // ---------------------------------------------------------------------------
  // Groups

  /** The group of one asset slot. */
  function SlotGroup(slot: string): (g: Grouping)
    ensures g.code == Some(slot) && g.name == Some("Asset: " + slot) && g.groupingType == "slot"
  {
    Grouping(Some(slot), Some("Asset: " + slot), "slot")
  }

  /** `selectGroupedBySlot`: one group per slot, in the given slot order. */
  function GroupedBySlot(slots: seq<string>): (groups: seq<Grouping>)
    ensures |groups| == |slots|
    ensures forall i :: 0 <= i < |slots| ==> groups[i] == SlotGroup(slots[i])
    decreases |slots|
  {
    if |slots| == 0 then [] else [SlotGroup(slots[0])] + GroupedBySlot(slots[1..])
  }

  /** The group of a non-asset card type, its code and name copied from the catalog's type record. */
  function TypeGroup(types: map<string, CardType>, t: string): (g: Grouping)
    ensures g.groupingType == "type"
    ensures t in types ==> g.code == Some(types[t].code) && g.name == Some(types[t].name)
    ensures t !in types ==> g.code.None? && g.name.None?
  {
    if t in types then Grouping(Some(types[t].code), Some(types[t].name), "type") else Grouping(None, None, "type")
  }

  /** What one entry of the type order expands to. */
  function ExpandType(types: map<string, CardType>, slotGroups: seq<Grouping>, t: string): seq<Grouping> {
    if t == "asset" then slotGroups else [TypeGroup(types, t)]
  }

  /** `selectPlayerCardGroups`: the type order, with "asset" replaced by the slot groups. */
  function PlayerCardGroups(typeOrder: seq<string>, types: map<string, CardType>, slotGroups: seq<Grouping>): seq<Grouping>
    decreases |typeOrder|
  {
    if |typeOrder| == 0 then []
    else ExpandType(types, slotGroups, typeOrder[0]) + PlayerCardGroups(typeOrder[1..], types, slotGroups)
  }

  /** Expanding a type order piece by piece gives the pieces' expansions, in order. */
  lemma {:induction false} PlayerCardGroupsConcat(a: seq<string>, b: seq<string>, types: map<string, CardType>, slotGroups: seq<Grouping>)
    ensures PlayerCardGroups(a + b, types, slotGroups) == PlayerCardGroups(a, types, slotGroups) + PlayerCardGroups(b, types, slotGroups)
    decreases |a|
  {
    if |a| == 0 {
      assert a + b == b;
    } else {
      assert (a + b)[0] == a[0];
      assert (a + b)[1..] == a[1..] + b;
      PlayerCardGroupsConcat(a[1..], b, types, slotGroups);
    }
  }

  /**
   * Each "asset" entry of the type order becomes all the slot groups and every
   * other entry one type group, so the list has one group per non-asset type
   * plus the slot groups once per "asset" entry.
   */
  lemma {:induction false} PlayerCardGroupsCount(typeOrder: seq<string>, types: map<string, CardType>, slotGroups: seq<Grouping>)
    ensures |PlayerCardGroups(typeOrder, types, slotGroups)|
      == |typeOrder| - multiset(typeOrder)["asset"] + multiset(typeOrder)["asset"] * |slotGroups|
    decreases |typeOrder|
  {
    if |typeOrder| > 0 {
      var rest := typeOrder[1..];
      PlayerCardGroupsCount(rest, types, slotGroups);
      var k := multiset(rest)["asset"];
      var n := |slotGroups|;
      var total := |PlayerCardGroups(rest, types, slotGroups)|;
      assert total == |rest| - k + k * n;
      HeadCount(typeOrder, "asset");
      if typeOrder[0] == "asset" {
        assert |PlayerCardGroups(typeOrder, types, slotGroups)| == n + total;
        MulStep(k, n);
      } else {
        assert |PlayerCardGroups(typeOrder, types, slotGroups)| == 1 + total;
      }
    }
  }

  /** The occurrences of `x` in a non-empty sequence: those in its head and those in its tail. */
  lemma HeadCount<T>(s: seq<T>, x: T)
    requires |s| > 0
    ensures multiset(s)[x] == (if s[0] == x then 1 else 0) + multiset(s[1..])[x]
  {
    assert s == [s[0]] + s[1..];
    assert multiset(s) == multiset{s[0]} + multiset(s[1..]);
  }

  lemma MulStep(k: int, n: int)
    ensures (k + 1) * n == k * n + n
  {
  }

  /** Every player group is a slot group or a type group; only "asset" produces slot-typed groups. */
  lemma {:induction false} PlayerCardGroupsKinds(typeOrder: seq<string>, types: map<string, CardType>, slotGroups: seq<Grouping>)
    requires forall g :: g in slotGroups ==> g.groupingType == "slot"
    ensures forall g :: g in PlayerCardGroups(typeOrder, types, slotGroups) ==> g.groupingType in {"slot", "type"}
    ensures "asset" !in typeOrder ==> forall g :: g in PlayerCardGroups(typeOrder, types, slotGroups) ==> g.groupingType == "type"
    decreases |typeOrder|
  {
    if |typeOrder| > 0 {
      PlayerCardGroupsKinds(typeOrder[1..], types, slotGroups);
      if "asset" !in typeOrder {
        assert typeOrder[0] != "asset";
        assert forall t :: t in typeOrder[1..] ==> t in typeOrder;
      }
    }
  }

  /** The group of a weakness subtype: "Weakness" for the subtype "weakness", "Basic Weakness" for any other. */
  function WeaknessGroup(code: string): (g: Grouping)
    ensures g.code == Some(code) && g.groupingType == "subtype"
    ensures g.name == Some(if code == "weakness" then "Weakness" else "Basic Weakness")
  {
    Grouping(Some(code), Some(if code == "weakness" then "Weakness" else "Basic Weakness"), "subtype")
  }

  /** `selectEncounterSetGroups`: one group per encounter set, in the given order. */
  function EncounterSetGroups(sets: seq<EncounterSet>): (groups: seq<Grouping>)
    ensures |groups| == |sets|
    ensures forall i :: 0 <= i < |sets| ==> groups[i] == Grouping(Some(sets[i].code), Some(sets[i].name), "encounter_set")
    decreases |sets|
  {
    if |sets| == 0 then [] else [Grouping(Some(sets[0].code), Some(sets[0].name), "encounter_set")] + EncounterSetGroups(sets[1..])
  }

  // ---------------------------------------------------------------------------
  // Assembling the list

  /** The three parallel outputs of the list. */
  datatype Parts = Parts(groups: seq<Grouping>, cards: seq<Card>, groupCounts: seq<int>)

  /** One step of the loops: a group with cards is appended with its cards and their number; an empty one is skipped. */
  function Emit(p: Parts, g: Grouping, list: seq<Card>): (r: Parts)
    ensures |list| == 0 ==> r == p
    ensures |list| > 0 ==> r == Parts(p.groups + [g], p.cards + list, p.groupCounts + [|list|])
  {
    if |list| > 0 then Parts(p.groups + [g], p.cards + list, p.groupCounts + [|list|]) else p
  }

  /** The outputs after a run of groups, each with its final card list. */
  function Assemble(entries: seq<(Grouping, seq<Card>)>): Parts
    decreases |entries|
  {
    if |entries| == 0 then Parts([], [], [])
    else
      var last := entries[|entries| - 1];
      Emit(Assemble(entries[..|entries| - 1]), last.0, last.1)
  }

  function Sum(s: seq<int>): int
    decreases |s|
  {
    if |s| == 0 then 0 else Sum(s[..|s| - 1]) + s[|s| - 1]
  }

  /** The entries whose list is not empty, in order. */
  function NonEmpty(entries: seq<(Grouping, seq<Card>)>): (r: seq<(Grouping, seq<Card>)>)
    ensures forall e :: e in r ==> e in entries && |e.1| > 0
    decreases |entries|
  {
    if |entries| == 0 then []
    else
      var last := entries[|entries| - 1];
      NonEmpty(entries[..|entries| - 1]) + (if |last.1| > 0 then [last] else [])
  }

  /** All card lists, concatenated in order. */
  function Flatten(entries: seq<(Grouping, seq<Card>)>): seq<Card>
    decreases |entries|
  {
    if |entries| == 0 then [] else Flatten(entries[..|entries| - 1]) + entries[|entries| - 1].1
  }

  /**
   * `groups` lists the groups with cards, in order, and `groupCounts` has one
   * count per emitted group, the length of that group's list, never 0.
   */
  lemma {:induction false} AssembleGroups(entries: seq<(Grouping, seq<Card>)>)
    ensures var p := Assemble(entries);
      var kept := NonEmpty(entries);
      && |p.groups| == |p.groupCounts| == |kept|
      && (forall i :: 0 <= i < |kept| ==> p.groups[i] == kept[i].0 && p.groupCounts[i] == |kept[i].1| > 0)
    decreases |entries|
  {
    if |entries| > 0 {
      AssembleGroups(entries[..|entries| - 1]);
    }
  }

  /** `cards` is the concatenation of every group's list, empty ones included. */
  lemma {:induction false} AssembleCards(entries: seq<(Grouping, seq<Card>)>)
    ensures Assemble(entries).cards == Flatten(entries)
    decreases |entries|
  {
    if |entries| > 0 {
      AssembleCards(entries[..|entries| - 1]);
    }
  }

  /** The counts add up to the number of cards. */
  lemma {:induction false} AssembleSum(entries: seq<(Grouping, seq<Card>)>)
    ensures Sum(Assemble(entries).groupCounts) == |Assemble(entries).cards|
    decreases |entries|
  {
    if |entries| > 0 {
      var init := entries[..|entries| - 1];
      AssembleSum(init);
      var p := Assemble(entries);
      var q := Assemble(init);
      if |entries[|entries| - 1].1| > 0 {
        assert p.groupCounts[..|p.groupCounts| - 1] == q.groupCounts;
      }
    }
  }

  /** Running two runs of groups one after the other gives the first run's outputs followed by the second's. */
  lemma {:induction false} AssembleConcat(a: seq<(Grouping, seq<Card>)>, b: seq<(Grouping, seq<Card>)>)
    ensures var pa := Assemble(a);
      var pb := Assemble(b);
      Assemble(a + b) == Parts(pa.groups + pb.groups, pa.cards + pb.cards, pa.groupCounts + pb.groupCounts)
    decreases |b|
  {
    if |b| == 0 {
      assert a + b == a;
    } else {
      var init := b[..|b| - 1];
      var last := b[|b| - 1];
      assert (a + b)[..|a + b| - 1] == a + init;
      assert (a + b)[|a + b| - 1] == last;
      AssembleConcat(a, init);
      var pa := Assemble(a);
      var pi := Assemble(init);
      assert Assemble(a + b) == Emit(Assemble(a + init), last.0, last.1);
      assert Assemble(b) == Emit(pi, last.0, last.1);
      if |last.1| > 0 {
        assert pa.groups + pi.groups + [last.0] == pa.groups + (pi.groups + [last.0]);
        assert pa.cards + pi.cards + last.1 == pa.cards + (pi.cards + last.1);
        assert pa.groupCounts + pi.groupCounts + [|last.1|] == pa.groupCounts + (pi.groupCounts + [|last.1|]);
      }
    }
  }

  // ---------------------------------------------------------------------------
  // selectFilteredCards

  /** The libraries the list consults. */
  datatype Library = Library(
    /** `getGroupCards`: the cards of a group that pass a filter, with the card changes of a taboo set applied when one is given. */
    groupCards: (Grouping, Filter, Option<int>) -> seq<Card>,
    /** `applySearch` with the current search state. */
    search: seq<Card> -> seq<Card>,
    /** `sortAlphabetically`. */
    alphabetical: (Card, Card) -> int,
    /** `sortByEncounterPosition`. */
    encounterPosition: (Card, Card) -> int
  )

  /** The list state the selector returns. */
  datatype ListState = ListState(key: CardTypeFilter, groups: seq<Grouping>, cards: seq<Card>, groupCounts: seq<int>)

  /** The taboo set whose card changes are applied to player cards: only a truthy id. */
  function CardChanges(tabooSetId: Option<int>): (r: Option<int>)
    ensures r.Some? <==> TruthyInt(tabooSetId)
    ensures r.Some? ==> r == tabooSetId
  {
    if TruthyInt(tabooSetId) then tabooSetId else None
  }

  /** A player group's list: its cards under the player filter, searched, sorted by name. */
  function PlayerList(lib: Library, filter: Filter, tabooSetId: Option<int>, g: Grouping): seq<Card> {
    SortBy(lib.search(lib.groupCards(g, filter, CardChanges(tabooSetId))), lib.alphabetical)
  }

  /** A weakness group's list: its cards under the weakness filter, searched twice; it is not sorted (the sorted array is another one). */
  function WeaknessList(lib: Library, filter: Filter, g: Grouping): seq<Card> {
    lib.search(lib.search(lib.groupCards(g, filter, None)))
  }

  /** An encounter group's list: its cards under the encounter filter, searched, sorted by encounter position. */
  function EncounterList(lib: Library, filter: Filter, g: Grouping): seq<Card> {
    SortBy(lib.search(lib.groupCards(g, filter, None)), lib.encounterPosition)
  }

  function PlayerEntries(lib: Library, filter: Filter, tabooSetId: Option<int>, groups: seq<Grouping>): (r: seq<(Grouping, seq<Card>)>)
    ensures |r| == |groups|
    ensures forall i :: 0 <= i < |groups| ==> r[i] == (groups[i], PlayerList(lib, filter, tabooSetId, groups[i]))
  {
    seq(|groups|, i requires 0 <= i < |groups| => (groups[i], PlayerList(lib, filter, tabooSetId, groups[i])))
  }

  function WeaknessEntries(lib: Library, filter: Filter, groups: seq<Grouping>): (r: seq<(Grouping, seq<Card>)>)
    ensures |r| == |groups|
    ensures forall i :: 0 <= i < |groups| ==> r[i] == (groups[i], WeaknessList(lib, filter, groups[i]))
  {
    seq(|groups|, i requires 0 <= i < |groups| => (groups[i], WeaknessList(lib, filter, groups[i])))
  }

  function EncounterEntries(lib: Library, filter: Filter, groups: seq<Grouping>): (r: seq<(Grouping, seq<Card>)>)
    ensures |r| == |groups|
    ensures forall i :: 0 <= i < |groups| ==> r[i] == (groups[i], EncounterList(lib, filter, groups[i]))
  {
    seq(|groups|, i requires 0 <= i < |groups| => (groups[i], EncounterList(lib, filter, groups[i])))
  }

  /** Everything `selectFilteredCards` reads, the three combined filters already built. */
  datatype ListInputs = ListInputs(
    cardType: CardTypeFilter,
    playerFilter: Filter,
    weaknessFilter: Filter,
    encounterFilter: Filter,
    cards: map<string, Card>,
    tabooSetId: Option<int>,
    playerGroups: seq<Grouping>,
    weaknessGroups: seq<Grouping>,
    encounterGroups: seq<Grouping>
  )

  /** The groups visited, each with its final list: player then weakness groups for player cards, encounter sets otherwise. */
  function ListEntries(lib: Library, inputs: ListInputs): seq<(Grouping, seq<Card>)> {
    match inputs.cardType
    case Player =>
      PlayerEntries(lib, inputs.playerFilter, inputs.tabooSetId, inputs.playerGroups)
        + WeaknessEntries(lib, inputs.weaknessFilter, inputs.weaknessGroups)
    case Encounter => EncounterEntries(lib, inputs.encounterFilter, inputs.encounterGroups)
  }

  /** Assembling one more entry emits it on top of the outputs so far. */
  lemma AssembleStep(prior: seq<(Grouping, seq<Card>)>, entries: seq<(Grouping, seq<Card>)>, i: nat)
    requires i < |entries|
    ensures Assemble(prior + entries[..i + 1]) == Emit(Assemble(prior + entries[..i]), entries[i].0, entries[i].1)
  {
    var all := prior + entries[..i + 1];
    assert all[..|all| - 1] == prior + entries[..i];
    assert all[|all| - 1] == entries[i];
  }

  /** The cards of one player group: grouped under the filter, searched, and sorted by name when there are any. */
  method PlayerGroupCards(lib: Library, filter: Filter, tabooSetId: Option<int>, grouping: Grouping) returns (list: seq<Card>)
    ensures list == PlayerList(lib, filter, tabooSetId, grouping)
  {
    var groupCards := lib.groupCards(grouping, filter, CardChanges(tabooSetId));
    list := lib.search(groupCards);
    if |list| > 0 {
      list := SortBy(list, lib.alphabetical);
    } else {
      assert SortBy(list, lib.alphabetical) == [];
    }
  }

  /** The cards of one weakness group: grouped under the filter and searched twice. */
  method WeaknessGroupCards(lib: Library, filter: Filter, grouping: Grouping) returns (list: seq<Card>)
    ensures list == WeaknessList(lib, filter, grouping)
  {
    var groupCards := lib.search(lib.groupCards(grouping, filter, None));
    list := lib.search(groupCards);
  }

  /** The cards of one encounter-set group: grouped under the filter, searched, and sorted by position when there are any. */
  method EncounterGroupCards(lib: Library, filter: Filter, grouping: Grouping) returns (list: seq<Card>)
    ensures list == EncounterList(lib, filter, grouping)
  {
    var groupCards := lib.groupCards(grouping, filter, None);
    list := lib.search(groupCards);
    if |list| > 0 {
      list := SortBy(list, lib.encounterPosition);
    } else {
      assert SortBy(list, lib.encounterPosition) == [];
    }
  }

  /** Appends one group to the outputs when its list has cards. */
  method EmitGroup(groups: seq<Grouping>, cards: seq<Card>, groupCounts: seq<int>, g: Grouping, list: seq<Card>)
    returns (groups': seq<Grouping>, cards': seq<Card>, groupCounts': seq<int>)
    ensures Parts(groups', cards', groupCounts') == Emit(Parts(groups, cards, groupCounts), g, list)
  {
    groups', cards', groupCounts' := groups, cards, groupCounts;
    if |list| > 0 {
      groups' := groups' + [g];
      cards' := cards' + list;
      groupCounts' := groupCounts' + [|list|];
    }
  }

  /** The loop over the player groups, continuing the outputs of the groups `prior`. */
  method EmitPlayerGroups(lib: Library, filter: Filter, tabooSetId: Option<int>, groupings: seq<Grouping>,
                          ghost prior: seq<(Grouping, seq<Card>)>, groups: seq<Grouping>, cards: seq<Card>, groupCounts: seq<int>)
    returns (groups': seq<Grouping>, cards': seq<Card>, groupCounts': seq<int>)
    requires Parts(groups, cards, groupCounts) == Assemble(prior)
    ensures Parts(groups', cards', groupCounts') == Assemble(prior + PlayerEntries(lib, filter, tabooSetId, groupings))
  {
    ghost var entries := PlayerEntries(lib, filter, tabooSetId, groupings);
    groups', cards', groupCounts' := groups, cards, groupCounts;
    assert prior + entries[..0] == prior;
    for i := 0 to |groupings|
      invariant Parts(groups', cards', groupCounts') == Assemble(prior + entries[..i])
    {
      var list := PlayerGroupCards(lib, filter, tabooSetId, groupings[i]);
      AssembleStep(prior, entries, i);
      groups', cards', groupCounts' := EmitGroup(groups', cards', groupCounts', groupings[i], list);
    }
    assert entries[..|groupings|] == entries;
  }

  /** The loop over the weakness groups, continuing the outputs of the groups `prior`. */
  method EmitWeaknessGroups(lib: Library, filter: Filter, groupings: seq<Grouping>,
                            ghost prior: seq<(Grouping, seq<Card>)>, groups: seq<Grouping>, cards: seq<Card>, groupCounts: seq<int>)
    returns (groups': seq<Grouping>, cards': seq<Card>, groupCounts': seq<int>)
    requires Parts(groups, cards, groupCounts) == Assemble(prior)
    ensures Parts(groups', cards', groupCounts') == Assemble(prior + WeaknessEntries(lib, filter, groupings))
  {
    ghost var entries := WeaknessEntries(lib, filter, groupings);
    groups', cards', groupCounts' := groups, cards, groupCounts;
    assert prior + entries[..0] == prior;
    for i := 0 to |groupings|
      invariant Parts(groups', cards', groupCounts') == Assemble(prior + entries[..i])
    {
      var list := WeaknessGroupCards(lib, filter, groupings[i]);
      AssembleStep(prior, entries, i);
      groups', cards', groupCounts' := EmitGroup(groups', cards', groupCounts', groupings[i], list);
    }
    assert entries[..|groupings|] == entries;
  }

  /** The loop over the encounter-set groups, continuing the outputs of the groups `prior`. */
  method EmitEncounterGroups(lib: Library, filter: Filter, groupings: seq<Grouping>,
                             ghost prior: seq<(Grouping, seq<Card>)>, groups: seq<Grouping>, cards: seq<Card>, groupCounts: seq<int>)
    returns (groups': seq<Grouping>, cards': seq<Card>, groupCounts': seq<int>)
    requires Parts(groups, cards, groupCounts) == Assemble(prior)
    ensures Parts(groups', cards', groupCounts') == Assemble(prior + EncounterEntries(lib, filter, groupings))
  {
    ghost var entries := EncounterEntries(lib, filter, groupings);
    groups', cards', groupCounts' := groups, cards, groupCounts;
    assert prior + entries[..0] == prior;
    for i := 0 to |groupings|
      invariant Parts(groups', cards', groupCounts') == Assemble(prior + entries[..i])
    {
      var list := EncounterGroupCards(lib, filter, groupings[i]);
      AssembleStep(prior, entries, i);
      groups', cards', groupCounts' := EmitGroup(groups', cards', groupCounts', groupings[i], list);
    }
    assert entries[..|groupings|] == entries;
  }

  /**
   * `selectFilteredCards`: nothing while the card table is empty; otherwise the
   * groups with cards, their cards and counts, keyed by the active card type.
   */
  method SelectFilteredCards(lib: Library, inputs: ListInputs) returns (r: Option<ListState>)
    ensures r.None? <==> |inputs.cards| == 0
    ensures r.Some? ==> r.value.key == inputs.cardType
    ensures r.Some? ==> Parts(r.value.groups, r.value.cards, r.value.groupCounts) == Assemble(ListEntries(lib, inputs))
  {
    if |inputs.cards| == 0 {
      return None;
    }
    var groups: seq<Grouping> := [];
    var cards: seq<Card> := [];
    var groupCounts: seq<int> := [];
    if inputs.cardType == Player {
      groups, cards, groupCounts := EmitPlayerGroups(lib, inputs.playerFilter, inputs.tabooSetId, inputs.playerGroups,
        [], groups, cards, groupCounts);
      ghost var player := PlayerEntries(lib, inputs.playerFilter, inputs.tabooSetId, inputs.playerGroups);
      assert [] + player == player;
      groups, cards, groupCounts := EmitWeaknessGroups(lib, inputs.weaknessFilter, inputs.weaknessGroups,
        player, groups, cards, groupCounts);
    } else {
      groups, cards, groupCounts := EmitEncounterGroups(lib, inputs.encounterFilter, inputs.encounterGroups,
        [], groups, cards, groupCounts);
      assert [] + EncounterEntries(lib, inputs.encounterFilter, inputs.encounterGroups)
        == EncounterEntries(lib, inputs.encounterFilter, inputs.encounterGroups);
    }
    r := Some(ListState(inputs.cardType, groups, cards, groupCounts));
  }

  /**
   * For player cards the player groups come first, then the weakness groups;
   * every other list uses the encounter-set groups alone.
   */
  lemma PlayerBeforeWeakness(lib: Library, inputs: ListInputs)
    requires inputs.cardType == Player
    ensures var all := Assemble(ListEntries(lib, inputs));
      var player := Assemble(PlayerEntries(lib, inputs.playerFilter, inputs.tabooSetId, inputs.playerGroups));
      var weakness := Assemble(WeaknessEntries(lib, inputs.weaknessFilter, inputs.weaknessGroups));
      && all.groups == player.groups + weakness.groups
      && all.cards == player.cards + weakness.cards
      && all.groupCounts == player.groupCounts + weakness.groupCounts
  {
    AssembleConcat(PlayerEntries(lib, inputs.playerFilter, inputs.tabooSetId, inputs.playerGroups),
      WeaknessEntries(lib, inputs.weaknessFilter, inputs.weaknessGroups));
  }

  /** A player list is the searched group cards, reordered by name: same cards, same multiplicities. */
  lemma PlayerListIsSearchPermutation(lib: Library, filter: Filter, tabooSetId: Option<int>, g: Grouping)
    ensures multiset(PlayerList(lib, filter, tabooSetId, g))
      == multiset(lib.search(lib.groupCards(g, filter, CardChanges(tabooSetId))))
  {
  }
}

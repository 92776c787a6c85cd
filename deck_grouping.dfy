/**
 * Grouping the cards of a resolved deck for display: the deck's cards are
 * sorted into the buckets `main`, `special`, `side`, `bonded` and `extra`;
 * inside a bucket, assets are listed by slot and every other card by its type.
 *
 * The buckets are plain values (`Grouping`) and the builder is a `Groupings`
 * object whose bucket fields its methods update in place, as the original
 * mutates one shared object. Each bucket's final value is tied to the pure
 * functions `AddCard` and `AddAll`, about which the lemmas are proved.
 */
module DeckGrouping {
  import opened Wrappers
  import opened CardTypes

  /** A card with the number of copies shown for it (JavaScript `undefined` is `None`). */
  datatype DeckCard = DeckCard(card: Card, quantity: Option<int>)

  /**
   * One bucket: the assets by slot, when that map exists, and the other cards
   * by type code. A type code never is "asset", which always goes to `asset`.
   */
  datatype Grouping = Grouping(asset: Option<map<string, seq<DeckCard>>>, lists: map<string, seq<DeckCard>>)

  /** Where a card is listed inside a bucket. */
  datatype Place = AssetPlace(slot: string) | TypePlace(typeCode: string)

  /** The five buckets by name. */
  datatype Key = Main | Special | Side | Bonded | Extra

  /** The deck fields the grouping reads. The card sequences are the slot maps' values in enumeration order. */
  datatype ResolvedDeck = ResolvedDeck(
    slotCards: seq<CardWithRelations>,
    extraSlotCards: seq<Card>,
    sideSlotCards: seq<Card>,
    slots: map<string, int>,
    extraSlots: Option<map<string, int>>,
    sideSlots: Option<map<string, int>>,
    ignoreDeckLimitSlots: Option<map<string, int>>
  )

  const EmptyGrouping := Grouping(None, map[])

  /** The `main` bucket before any card is added. */
  const InitialMain := Grouping(Some(map[]), map["event" := [], "skill" := []])

  function Lookup(m: map<string, int>, k: string): Option<int> {
    if k in m then Some(m[k]) else None
  }

  /** The slot an asset is listed under: its real slot, else "Permanent" for permanents, else "Other". */
  function SlotOf(card: Card): (slot: string)
    ensures slot != ""
  {
    if card.realSlot.Some? && card.realSlot.value != "" then card.realSlot.value
    else if card.permanent then "Permanent"
    else "Other"
  }

  /** The place `addCardToGrouping` files a card under. */
  function PlaceOf(c: DeckCard): Place {
    if c.card.typeCode == "asset" then AssetPlace(SlotOf(c.card)) else TypePlace(c.card.typeCode)
  }

  /** The list a bucket holds at a place; a missing list reads as empty. */
  function ListAt(g: Grouping, p: Place): seq<DeckCard> {
    match p
    case AssetPlace(slot) => if g.asset.Some? && slot in g.asset.value then g.asset.value[slot] else []
    case TypePlace(t) => if t in g.lists then g.lists[t] else []
  }

  /** `addCardToGrouping` on one bucket: append the card to the list at its place, creating what is missing. */
  function AddCard(g: Grouping, c: DeckCard): (r: Grouping)
  {
    match PlaceOf(c)
    case AssetPlace(slot) =>
      var slotMap := g.asset.GetOr(map[]);
      var list := if slot in slotMap then slotMap[slot] else [];
      g.(asset := Some(slotMap[slot := list + [c]]))
    case TypePlace(t) =>
      var list := if t in g.lists then g.lists[t] else [];
      g.(lists := g.lists[t := list + [c]])
  }

  /** Adding a card appends it at its place and leaves every other list alone. */
  lemma AddCardAppends(g: Grouping, c: DeckCard)
    ensures ListAt(AddCard(g, c), PlaceOf(c)) == ListAt(g, PlaceOf(c)) + [c]
    ensures forall p :: p != PlaceOf(c) ==> ListAt(AddCard(g, c), p) == ListAt(g, p)
  {
  }

  /** The slot map exists after adding an asset, and the type lists gain at most the card's own type. */
  lemma AddCardCreatesLazily(g: Grouping, c: DeckCard)
    ensures AddCard(g, c).asset.Some? <==> g.asset.Some? || c.card.typeCode == "asset"
    ensures g.asset.Some? ==> g.asset.value.Keys <= AddCard(g, c).asset.value.Keys
    ensures c.card.typeCode == "asset" ==> AddCard(g, c).lists == g.lists
    ensures c.card.typeCode != "asset" ==> AddCard(g, c).lists.Keys == g.lists.Keys + {c.card.typeCode}
  {
  }

  /** Adding the cards one after the other. */
  function AddAll(g: Grouping, cs: seq<DeckCard>): Grouping
    decreases |cs|
  {
    if |cs| == 0 then g else AddCard(AddAll(g, cs[..|cs| - 1]), cs[|cs| - 1])
  }

  /** The cards filed under a place, in their order. */
  function AtPlace(cs: seq<DeckCard>, p: Place): (r: seq<DeckCard>)
    ensures |r| <= |cs|
    ensures forall c :: c in r <==> c in cs && PlaceOf(c) == p
    decreases |cs|
  {
    if |cs| == 0 then []
    else AtPlace(cs[..|cs| - 1], p) + (if PlaceOf(cs[|cs| - 1]) == p then [cs[|cs| - 1]] else [])
  }

  /** After adding a sequence of cards, each list is the old list followed by the added cards of its place, in order. */
  lemma {:induction false} AddAllAppends(g: Grouping, cs: seq<DeckCard>, p: Place)
    ensures ListAt(AddAll(g, cs), p) == ListAt(g, p) + AtPlace(cs, p)
    decreases |cs|
  {
    if |cs| > 0 {
      var init := cs[..|cs| - 1];
      AddAllAppends(g, init, p);
      AddCardAppends(AddAll(g, init), cs[|cs| - 1]);
    }
  }

  /** Adding two sequences one after the other is adding their concatenation. */
  lemma {:induction false} AddAllConcat(g: Grouping, a: seq<DeckCard>, b: seq<DeckCard>)
    ensures AddAll(AddAll(g, a), b) == AddAll(g, a + b)
    decreases |b|
  {
    if |b| == 0 {
      assert a + b == a;
    } else {
      AddAllConcat(g, a, b[..|b| - 1]);
      assert (a + b)[..|a + b| - 1] == a + b[..|b| - 1];
    }
  }

  /** Adding never removes a slot map or a type list: the lists of `main` are always there. */
  lemma {:induction false} AddAllKeepsLists(g: Grouping, cs: seq<DeckCard>)
    ensures g.asset.Some? ==> AddAll(g, cs).asset.Some?
    ensures g.lists.Keys <= AddAll(g, cs).lists.Keys
    decreases |cs|
  {
    if |cs| > 0 {
      AddAllKeepsLists(g, cs[..|cs| - 1]);
      AddCardCreatesLazily(AddAll(g, cs[..|cs| - 1]), cs[|cs| - 1]);
    }
  }

  /** The builder: the two fixed buckets and the three that appear on their first card. */
  class Groupings {
    var main: Grouping
    var special: Grouping
    var side: Option<Grouping>
    var bonded: Option<Grouping>
    var extra: Option<Grouping>

    /** `main` with an empty slot map and empty event and skill lists, `special` empty, no other bucket. */
    constructor ()
      ensures main == InitialMain && special == EmptyGrouping
      ensures side == None && bonded == None && extra == None
    {
      main := InitialMain;
      special := EmptyGrouping;
      side := None;
      bonded := None;
      extra := None;
    }

    /** `addCardToGrouping`: create the bucket when missing, then add the card to it; the other buckets stay. */
    method Add(key: Key, c: DeckCard)
      modifies this
      ensures main == if key == Main then AddCard(old(main), c) else old(main)
      ensures special == if key == Special then AddCard(old(special), c) else old(special)
      ensures side == if key == Side then Some(AddCard(old(side).GetOr(EmptyGrouping), c)) else old(side)
      ensures bonded == if key == Bonded then Some(AddCard(old(bonded).GetOr(EmptyGrouping), c)) else old(bonded)
      ensures extra == if key == Extra then Some(AddCard(old(extra).GetOr(EmptyGrouping), c)) else old(extra)
    {
      match key
      case Main => main := AddCard(main, c);
      case Special => special := AddCard(special, c);
      case Side => side := Some(AddCard(side.GetOr(EmptyGrouping), c));
      case Bonded => bonded := Some(AddCard(bonded.GetOr(EmptyGrouping), c));
      case Extra => extra := Some(AddCard(extra.GetOr(EmptyGrouping), c));
    }
  }

  /** Whether a slot card is shown as special: it ignores the deck limit, or the special-card test holds. */
  predicate GoesToSpecial(deck: ResolvedDeck, isSpecial: Card -> bool, card: Card) {
    (deck.ignoreDeckLimitSlots.Some? && TruthyInt(Lookup(deck.ignoreDeckLimitSlots.value, card.code)))
    || isSpecial(card)
  }

  /** A slot card with its quantity from `slots`. */
  function SlotDeckCard(deck: ResolvedDeck, card: Card): DeckCard {
    DeckCard(card, Lookup(deck.slots, card.code))
  }

  /** A card of an optional slot map with its quantity there, 0 when absent. */
  function OptionalSlotDeckCard(slots: Option<map<string, int>>, card: Card): DeckCard {
    DeckCard(card, Some(if slots.Some? then Lookup(slots.value, card.code).GetOr(0) else 0))
  }

  /** The slot cards of `rs` that go to `special` (or, with `special` false, to `main`), in order. */
  function SlotCardsTo(deck: ResolvedDeck, isSpecial: Card -> bool, rs: seq<CardWithRelations>, special: bool): seq<DeckCard>
    decreases |rs|
  {
    if |rs| == 0 then []
    else
      var card := rs[|rs| - 1].card;
      SlotCardsTo(deck, isSpecial, rs[..|rs| - 1], special)
        + (if GoesToSpecial(deck, isSpecial, card) == special then [SlotDeckCard(deck, card)] else [])
  }

  /** Whether a code ends in "b", the back of an individually linked bonded card. */
  predicate EndsWithB(code: string) {
    |code| > 0 && code[|code| - 1] == 'b'
  }

  /** The bound cards of one slot card that `addBondedToGrouping` adds, with their own quantity. */
  function BondedOf(cards: seq<ResolvedCard>): seq<DeckCard>
    decreases |cards|
  {
    if |cards| == 0 then []
    else
      var card := cards[|cards| - 1].card;
      BondedOf(cards[..|cards| - 1]) + (if !EndsWithB(card.code) then [DeckCard(card, Some(card.quantity))] else [])
  }

  function BoundOf(r: CardWithRelations): seq<ResolvedCard> {
    if r.relations.Some? && r.relations.value.bound.Some? then r.relations.value.bound.value else []
  }

  /** The bonded cards of all slot cards, in order. */
  function BondedCards(rs: seq<CardWithRelations>): seq<DeckCard>
    decreases |rs|
  {
    if |rs| == 0 then [] else BondedCards(rs[..|rs| - 1]) + BondedOf(BoundOf(rs[|rs| - 1]))
  }

  /** The cards of an optional slot map, each with its quantity there. */
  function OptionalSlotCards(slots: Option<map<string, int>>, cards: seq<Card>): seq<DeckCard>
    decreases |cards|
  {
    if |cards| == 0 then []
    else OptionalSlotCards(slots, cards[..|cards| - 1]) + [OptionalSlotDeckCard(slots, cards[|cards| - 1])]
  }

  /** Adding cards to a bucket that is created by its first card. */
  function AddLazy(bucket: Option<Grouping>, cs: seq<DeckCard>): Option<Grouping> {
    if |cs| == 0 then bucket else Some(AddAll(bucket.GetOr(EmptyGrouping), cs))
  }

  /** Adding one more card creates the bucket if need be and adds the card to it. */
  lemma AddLazySnoc(bucket: Option<Grouping>, cs: seq<DeckCard>, c: DeckCard)
    ensures AddLazy(bucket, cs + [c]) == Some(AddCard(AddLazy(bucket, cs).GetOr(EmptyGrouping), c))
  {
    assert (cs + [c])[..|cs|] == cs;
  }

  /** Adding two sequences in turn is adding their concatenation. */
  lemma AddLazyConcat(bucket: Option<Grouping>, a: seq<DeckCard>, b: seq<DeckCard>)
    ensures AddLazy(AddLazy(bucket, a), b) == AddLazy(bucket, a + b)
  {
    if |a| == 0 {
      assert a + b == b;
    } else if |b| == 0 {
      assert a + b == a;
    } else {
      AddAllConcat(bucket.GetOr(EmptyGrouping), a, b);
    }
  }

  /** `addBondedToGrouping`: files the bound cards of a slot card, skipping the "b" backs. */
  method AddBonded(groupings: Groupings, r: CardWithRelations)
    modifies groupings
    ensures groupings.main == old(groupings.main) && groupings.special == old(groupings.special)
    ensures groupings.side == old(groupings.side) && groupings.extra == old(groupings.extra)
    ensures groupings.bonded == AddLazy(old(groupings.bonded), BondedOf(BoundOf(r)))
  {
    var bound := BoundOf(r);
    for i := 0 to |bound|
      invariant groupings.main == old(groupings.main) && groupings.special == old(groupings.special)
      invariant groupings.side == old(groupings.side) && groupings.extra == old(groupings.extra)
      invariant groupings.bonded == AddLazy(old(groupings.bonded), BondedOf(bound[..i]))
    {
      var card := bound[i].card;
      assert bound[..i + 1][..i] == bound[..i];
      if !EndsWithB(card.code) {
        var c := DeckCard(card, Some(card.quantity));
        assert BondedOf(bound[..i + 1]) == BondedOf(bound[..i]) + [c];
        AddLazySnoc(old(groupings.bonded), BondedOf(bound[..i]), c);
        groupings.Add(Bonded, c);
      } else {
        assert BondedOf(bound[..i + 1]) == BondedOf(bound[..i]);
      }
    }
    assert bound[..|bound|] == bound;
  }

  /** The loop over the extra or the side slots: adds each card with its quantity in the optional slot map. */
  method AddOptionalSlotCards(g: Groupings, key: Key, slots: Option<map<string, int>>, cards: seq<Card>)
    requires key == Extra || key == Side
    modifies g
    ensures g.main == old(g.main) && g.special == old(g.special) && g.bonded == old(g.bonded)
    ensures key == Extra ==> g.extra == AddLazy(old(g.extra), OptionalSlotCards(slots, cards)) && g.side == old(g.side)
    ensures key == Side ==> g.side == AddLazy(old(g.side), OptionalSlotCards(slots, cards)) && g.extra == old(g.extra)
  {
    for i := 0 to |cards|
      invariant g.main == old(g.main) && g.special == old(g.special) && g.bonded == old(g.bonded)
      invariant key == Extra ==> g.extra == AddLazy(old(g.extra), OptionalSlotCards(slots, cards[..i])) && g.side == old(g.side)
      invariant key == Side ==> g.side == AddLazy(old(g.side), OptionalSlotCards(slots, cards[..i])) && g.extra == old(g.extra)
    {
      var c := OptionalSlotDeckCard(slots, cards[i]);
      assert cards[..i + 1][..i] == cards[..i];
      assert OptionalSlotCards(slots, cards[..i + 1]) == OptionalSlotCards(slots, cards[..i]) + [c];
      AddLazySnoc(if key == Extra then old(g.extra) else old(g.side), OptionalSlotCards(slots, cards[..i]), c);
      g.Add(key, c);
    }
    assert cards[..|cards|] == cards;
  }

  /** How the three card sequences of the slots grow by one slot card. */
  lemma SlotCardsStep(deck: ResolvedDeck, isSpecial: Card -> bool, rs: seq<CardWithRelations>, i: int)
    requires 0 <= i < |rs|
    ensures var c := SlotDeckCard(deck, rs[i].card); var special := GoesToSpecial(deck, isSpecial, rs[i].card);
      && SlotCardsTo(deck, isSpecial, rs[..i + 1], special) == SlotCardsTo(deck, isSpecial, rs[..i], special) + [c]
      && SlotCardsTo(deck, isSpecial, rs[..i + 1], !special) == SlotCardsTo(deck, isSpecial, rs[..i], !special)
      && BondedCards(rs[..i + 1]) == BondedCards(rs[..i]) + BondedOf(BoundOf(rs[i]))
  {
    assert rs[..i + 1][..i] == rs[..i];
  }

  lemma AddAllSnoc(g: Grouping, cs: seq<DeckCard>, c: DeckCard)
    ensures AddAll(g, cs + [c]) == AddCard(AddAll(g, cs), c)
  {
    assert (cs + [c])[..|cs|] == cs;
  }

  /** The loop over the slots: each card to `special` or `main`, followed by its bonded cards. */
  method AddSlotCards(g: Groupings, deck: ResolvedDeck, isSpecial: Card -> bool)
    modifies g
    ensures g.main == AddAll(old(g.main), SlotCardsTo(deck, isSpecial, deck.slotCards, false))
    ensures g.special == AddAll(old(g.special), SlotCardsTo(deck, isSpecial, deck.slotCards, true))
    ensures g.bonded == AddLazy(old(g.bonded), BondedCards(deck.slotCards))
    ensures g.side == old(g.side) && g.extra == old(g.extra)
  {
    var rs := deck.slotCards;
    for i := 0 to |rs|
      invariant g.main == AddAll(old(g.main), SlotCardsTo(deck, isSpecial, rs[..i], false))
      invariant g.special == AddAll(old(g.special), SlotCardsTo(deck, isSpecial, rs[..i], true))
      invariant g.bonded == AddLazy(old(g.bonded), BondedCards(rs[..i]))
      invariant g.side == old(g.side) && g.extra == old(g.extra)
    {
      var card := rs[i].card;
      var c := SlotDeckCard(deck, card);
      SlotCardsStep(deck, isSpecial, rs, i);
      if GoesToSpecial(deck, isSpecial, card) {
        AddAllSnoc(old(g.special), SlotCardsTo(deck, isSpecial, rs[..i], true), c);
        g.Add(Special, c);
      } else {
        AddAllSnoc(old(g.main), SlotCardsTo(deck, isSpecial, rs[..i], false), c);
        g.Add(Main, c);
      }
      AddLazyConcat(old(g.bonded), BondedCards(rs[..i]), BondedOf(BoundOf(rs[i])));
      AddBonded(g, rs[i]);
    }
    assert rs[..|rs|] == rs;
  }

  /**
   * `groupDeckCardsByType`: the extra-slot cards, then each slot card (to `special` or
   * `main`, followed by its bonded cards), then the side-slot cards. `isSpecial` is the
   * special-card test of the deck's investigator.
   */
  method GroupDeckCardsByType(deck: ResolvedDeck, isSpecial: Card -> bool) returns (g: Groupings)
    ensures fresh(g)
    ensures g.main == AddAll(InitialMain, SlotCardsTo(deck, isSpecial, deck.slotCards, false))
    ensures g.special == AddAll(EmptyGrouping, SlotCardsTo(deck, isSpecial, deck.slotCards, true))
    ensures g.bonded == AddLazy(None, BondedCards(deck.slotCards))
    ensures g.extra == AddLazy(None, OptionalSlotCards(deck.extraSlots, deck.extraSlotCards))
    ensures g.side == AddLazy(None, OptionalSlotCards(deck.sideSlots, deck.sideSlotCards))
  {
    g := new Groupings();
    AddOptionalSlotCards(g, Extra, deck.extraSlots, deck.extraSlotCards);
    AddSlotCards(g, deck, isSpecial);
    AddOptionalSlotCards(g, Side, deck.sideSlots, deck.sideSlotCards);
  }

  /**
   * Every slot card goes to exactly one of `special` and `main`: together the two
   * are the slot cards, each with its quantity from `slots`, and `special` holds
   * exactly those that ignore the deck limit or are special.
   */
  lemma SlotCardsPartition(deck: ResolvedDeck, isSpecial: Card -> bool, rs: seq<CardWithRelations>)
    ensures multiset(SlotCardsTo(deck, isSpecial, rs, true)) + multiset(SlotCardsTo(deck, isSpecial, rs, false))
      == multiset(SlotDeckCards(deck, rs))
    ensures forall c :: c in SlotCardsTo(deck, isSpecial, rs, true) ==> GoesToSpecial(deck, isSpecial, c.card)
    ensures forall c :: c in SlotCardsTo(deck, isSpecial, rs, false) ==> !GoesToSpecial(deck, isSpecial, c.card)
  {
    SlotCardsSplit(deck, isSpecial, rs);
    SlotCardsSide(deck, isSpecial, rs, true);
    SlotCardsSide(deck, isSpecial, rs, false);
  }

  /** Every slot card goes to exactly one of the two groups. */
  lemma {:induction false} SlotCardsSplit(deck: ResolvedDeck, isSpecial: Card -> bool, rs: seq<CardWithRelations>)
    ensures multiset(SlotCardsTo(deck, isSpecial, rs, true)) + multiset(SlotCardsTo(deck, isSpecial, rs, false))
      == multiset(SlotDeckCards(deck, rs))
    decreases |rs|
  {
    if |rs| > 0 {
      var init := rs[..|rs| - 1];
      var card := rs[|rs| - 1].card;
      SlotCardsSplit(deck, isSpecial, init);
      var dc := SlotDeckCard(deck, card);
      assert SlotDeckCards(deck, rs) == SlotDeckCards(deck, init) + [dc];
    }
  }

  /** The cards of a group all belong there. */
  lemma {:induction false} SlotCardsSide(deck: ResolvedDeck, isSpecial: Card -> bool, rs: seq<CardWithRelations>, special: bool)
    ensures forall c :: c in SlotCardsTo(deck, isSpecial, rs, special) ==> GoesToSpecial(deck, isSpecial, c.card) == special
    decreases |rs|
  {
    if |rs| > 0 {
      SlotCardsSide(deck, isSpecial, rs[..|rs| - 1], special);
    }
  }

  /** All slot cards with their quantities, in order. */
  function SlotDeckCards(deck: ResolvedDeck, rs: seq<CardWithRelations>): (r: seq<DeckCard>)
    ensures |r| == |rs|
    ensures forall i :: 0 <= i < |rs| ==> r[i] == SlotDeckCard(deck, rs[i].card)
    decreases |rs|
  {
    if |rs| == 0 then [] else SlotDeckCards(deck, rs[..|rs| - 1]) + [SlotDeckCard(deck, rs[|rs| - 1].card)]
  }

  /** No bonded card has a code ending in "b", and each has the card's own quantity. */
  lemma {:induction false} BondedCardsShape(rs: seq<CardWithRelations>)
    ensures forall c :: c in BondedCards(rs) ==> !EndsWithB(c.card.code) && c.quantity == Some(c.card.quantity)
    decreases |rs|
  {
    if |rs| > 0 {
      BondedCardsShape(rs[..|rs| - 1]);
      BondedOfShape(BoundOf(rs[|rs| - 1]));
    }
  }

  lemma {:induction false} BondedOfShape(cards: seq<ResolvedCard>)
    ensures forall c :: c in BondedOf(cards) ==> !EndsWithB(c.card.code) && c.quantity == Some(c.card.quantity)
    decreases |cards|
  {
    if |cards| > 0 {
      BondedOfShape(cards[..|cards| - 1]);
    }
  }

  /** An extra or side card carries its value in the slot map, or 0 when the map or the entry is missing. */
  lemma {:induction false} OptionalSlotQuantities(slots: Option<map<string, int>>, cards: seq<Card>)
    ensures |OptionalSlotCards(slots, cards)| == |cards|
    ensures forall i :: 0 <= i < |cards| ==> OptionalSlotCards(slots, cards)[i].card == cards[i]
    ensures forall i :: 0 <= i < |cards| ==>
      OptionalSlotCards(slots, cards)[i].quantity == Some(if slots.Some? && cards[i].code in slots.value then slots.value[cards[i].code] else 0)
    decreases |cards|
  {
    if |cards| > 0 {
      OptionalSlotQuantities(slots, cards[..|cards| - 1]);
    }
  }
}

/**
 * Card arithmetic and classification helpers: trait tokenising, experience
 * cost, card level, exile-slot decoding and the boolean classifiers of cards.
 */
module CardUtils {
  import opened Wrappers
  import opened Strings
  import opened CardTypes

  // ---------------------------------------------------------------------------
  // Multi-valued fields ("Item. Weapon. Melee.")

  /** The trimmed pieces that are not empty, in their order. */
  function NonEmptyTrimmed(pieces: seq<string>): (r: seq<string>)
    ensures |r| <= |pieces|
    decreases |pieces|
  {
    if |pieces| == 0 then []
    else
      var t := Trim(pieces[|pieces| - 1]);
      NonEmptyTrimmed(pieces[..|pieces| - 1]) + (if t != [] then [t] else [])
  }

  /** A token is not empty and neither starts nor ends with white space. */
  predicate IsToken(t: string) {
    t != [] && !IsWhitespace(t[0]) && !IsWhitespace(t[|t| - 1])
  }

  /** Every kept piece is a token. */
  lemma {:induction false} NonEmptyTrimmedTokens(pieces: seq<string>)
    ensures forall i :: 0 <= i < |NonEmptyTrimmed(pieces)| ==> IsToken(NonEmptyTrimmed(pieces)[i])
    decreases |pieces|
  {
    if |pieces| > 0 {
      NonEmptyTrimmedTokens(pieces[..|pieces| - 1]);
      TrimShape(pieces[|pieces| - 1]);
    }
  }

  /** The tokens are exactly the non-empty trimmed pieces. */
  lemma {:induction false} NonEmptyTrimmedMembers(pieces: seq<string>)
    ensures forall x :: x in NonEmptyTrimmed(pieces) <==> x != [] && exists i :: 0 <= i < |pieces| && Trim(pieces[i]) == x
    decreases |pieces|
  {
    if |pieces| > 0 {
      var init := pieces[..|pieces| - 1];
      NonEmptyTrimmedMembers(init);
      assert forall i :: 0 <= i < |init| ==> init[i] == pieces[i];
    }
  }

  /** What `splitMultiValue` yields: the trimmed "."-separated tokens that are not empty. */
  function MultiValues(s: Option<string>): seq<string> {
    if TruthyString(s) then NonEmptyTrimmed(Split(s.value, '.')) else []
  }

  /** `splitMultiValue`: tokenises a "."-separated field, dropping empty tokens. */
  method SplitMultiValue(s: Option<string>) returns (r: seq<string>)
    ensures r == MultiValues(s)
    ensures !TruthyString(s) ==> r == []
    ensures forall i :: 0 <= i < |r| ==> IsToken(r[i])
  {
    if !TruthyString(s) {
      return [];
    }
    var pieces := Split(s.value, '.');
    r := [];
    for i := 0 to |pieces|
      invariant r == NonEmptyTrimmed(pieces[..i])
    {
      var t := Trim(pieces[i]);
      if t != [] {
        r := r + [t];
      }
      assert pieces[..i + 1][..i] == pieces[..i];
    }
    assert pieces[..|pieces|] == pieces;
    NonEmptyTrimmedTokens(pieces);
  }

  /** No token of a multi-valued field contains the separator. */
  lemma MultiValuesLackSeparator(s: Option<string>)
    ensures forall x :: x in MultiValues(s) ==> '.' !in x
  {
    if TruthyString(s) {
      var pieces := Split(s.value, '.');
      SplitPiecesLackSeparator(s.value, '.');
      NonEmptyTrimmedMembers(pieces);
      forall x | x in MultiValues(s) ensures '.' !in x {
        var i :| 0 <= i < |pieces| && Trim(pieces[i]) == x;
        assert '.' !in pieces[i];
      }
    }
  }

  // ---------------------------------------------------------------------------
  // Experience and level

  function Min(a: int, b: int): int {
    if a <= b then a else b
  }

  /** The experience a number of copies of a card costs. */
  function ExperienceCost(card: Card, quantity: int): int {
    if TruthyInt(card.customizationXp) then card.customizationXp.value
    else
      var base := card.xp.GetOr(0) * (if card.exceptional then 2 else 1);
      var perCopy := base + (if TruthyInt(card.tabooXp) then card.tabooXp.value else 0);
      perCopy * (if card.myriad then Min(quantity, 1) else quantity)
  }

  /** `countExperience`: the experience spent on `quantity` copies of `card`. */
  method CountExperience(card: Card, quantity: int) returns (xp: int)
    ensures xp == ExperienceCost(card, quantity)
  {
    if TruthyInt(card.customizationXp) {
      return card.customizationXp.value;
    }
    xp := card.xp.GetOr(0);
    if card.exceptional {
      xp := xp * 2;
    }
    if TruthyInt(card.tabooXp) {
      xp := xp + card.tabooXp.value;
    }
    xp := xp * (if card.myriad then Min(quantity, 1) else quantity);
  }

  /** Customization experience is the whole cost, whatever the quantity. */
  lemma CustomizationCostIgnoresQuantity(card: Card, q1: int, q2: int)
    requires TruthyInt(card.customizationXp)
    ensures ExperienceCost(card, q1) == ExperienceCost(card, q2) == card.customizationXp.value
  {
  }

  /** Several copies of a myriad card cost as much as one. */
  lemma MyriadCostsOneCopy(card: Card, quantity: int)
    requires card.myriad && quantity >= 1
    ensures ExperienceCost(card, quantity) == ExperienceCost(card, 1)
  {
  }

  /** Without customization and myriad, the cost is the cost of one copy times the quantity. */
  lemma CostIsPerCopy(card: Card, quantity: int)
    requires !TruthyInt(card.customizationXp) && !card.myriad
    ensures ExperienceCost(card, quantity) == quantity * ExperienceCost(card, 1)
  {
  }

  /** `Math.round(n / 2)`: the integer nearest to half of `n`, halves rounded up. */
  function HalfRounded(n: int): (r: int)
    ensures 2 * r - 1 <= n <= 2 * r
  {
    (n + 1) / 2
  }

  /** `cardLevel`: half the customization experience, rounded, or else the printed level. */
  function CardLevel(card: Card): Option<int> {
    if TruthyInt(card.customizationXp) then Some(HalfRounded(card.customizationXp.value)) else card.xp
  }

  /** `realCardLevel`: the level with the taboo experience change added. */
  function RealCardLevel(card: Card): Option<int> {
    var level := CardLevel(card);
    if level.None? then level else Some(level.value + card.tabooXp.GetOr(0))
  }

  /** A card has a real level exactly when it has a level, and the two differ by the taboo change. */
  lemma RealLevelIsLevelPlusTaboo(card: Card)
    ensures RealCardLevel(card).Some? <==> CardLevel(card).Some?
    ensures CardLevel(card).Some? ==> RealCardLevel(card).value - CardLevel(card).value == card.tabooXp.GetOr(0)
  {
  }

  /** A taboo list does not change the deck-building level, only the real level. */
  lemma TabooKeepsLevel(card: Card, xpChange: int)
    requires CardLevel(card).Some?
    ensures CardLevel(card.(tabooXp := Some(xpChange))) == CardLevel(card)
    ensures RealCardLevel(card.(tabooXp := Some(xpChange))) == Some(CardLevel(card).value + xpChange)
  {
  }

  /** A customizable card's level is half its spent experience, rounded up, and costs that experience. */
  lemma CustomizableLevel(card: Card, quantity: int)
    requires TruthyInt(card.customizationXp)
    ensures CardLevel(card).Some?
    ensures 2 * CardLevel(card).value - 1 <= ExperienceCost(card, quantity) <= 2 * CardLevel(card).value
  {
  }

  /** A plain card costs its level per copy. */
  lemma PlainCardCostsItsLevel(card: Card)
    requires !TruthyInt(card.customizationXp) && !card.exceptional && card.tabooXp.None?
    ensures ExperienceCost(card, 1) == CardLevel(card).GetOr(0)
  {
  }

  // ---------------------------------------------------------------------------
  // Exile slots ("01001,01001,02003")

  /** The pieces that are not empty (`filter((x) => x)`). */
  function NonEmptyPieces(pieces: seq<string>): (r: seq<string>)
    ensures forall x :: x in r <==> x in pieces && x != []
    decreases |pieces|
  {
    if |pieces| == 0 then []
    else (if pieces[0] != [] then [pieces[0]] else []) + NonEmptyPieces(pieces[1..])
  }

  /** The ids a `exile_string` lists. */
  function ExileIds(s: Option<string>): seq<string> {
    if s.None? then [] else NonEmptyPieces(Split(s.value, ','))
  }

  /** The number of times each id occurs: the multiset of ids as a map. */
  function Tally(ids: seq<string>): map<string, int> {
    map k | k in ids :: multiset(ids)[k]
  }

  lemma TallySnoc(ids: seq<string>, x: string)
    ensures Tally(ids + [x]) == Tally(ids)[x := (if x in Tally(ids) then Tally(ids)[x] else 0) + 1]
  {
    var m := Tally(ids + [x]);
    var n := Tally(ids)[x := (if x in Tally(ids) then Tally(ids)[x] else 0) + 1];
    assert multiset(ids + [x]) == multiset(ids) + multiset{x};
    assert m.Keys == n.Keys;
    forall k | k in m ensures m[k] == n[k] {
      if k != x {
        assert k in ids;
      } else if x !in ids {
        assert multiset(ids)[x] == 0;
      }
    }
  }

  /** An absent or empty exile string lists no ids. */
  lemma FalsyExileString(s: Option<string>)
    ensures !TruthyString(s) ==> ExileIds(s) == []
  {
    if s.Some? && s.value == "" {
      assert Split(s.value, ',') == [""];
    }
  }

  /** `decodeExileSlots`: the number of times each exiled card code occurs. */
  method DecodeExileSlots(s: Option<string>) returns (slots: map<string, int>)
    ensures slots == Tally(ExileIds(s))
    ensures !TruthyString(s) ==> slots == map[]
  {
    var ids := ExileIds(s);
    FalsyExileString(s);
    if |ids| == 0 {
      return map[];
    }
    slots := map[];
    for i := 0 to |ids|
      invariant slots == Tally(ids[..i])
    {
      TallyStep(ids, i);
      slots := CountOne(slots, ids[i]);
    }
    assert ids[..|ids|] == ids;
  }

  /** One more occurrence of `id`: a key missing so far starts from zero. */
  method CountOne(slots: map<string, int>, id: string) returns (r: map<string, int>)
    ensures r == slots[id := (if id in slots then slots[id] else 0) + 1]
  {
    r := slots;
    if id !in r {
      r := r[id := 0];
    }
    r := r[id := r[id] + 1];
  }

  /** The tally of one more id of a list. */
  lemma TallyStep(ids: seq<string>, i: nat)
    requires i < |ids|
    ensures Tally(ids[..i + 1]) == Tally(ids[..i])[ids[i] := (if ids[i] in Tally(ids[..i]) then Tally(ids[..i])[ids[i]] else 0) + 1]
  {
    assert ids[..i + 1] == ids[..i] + [ids[i]];
    TallySnoc(ids[..i], ids[i]);
  }

  /** Every listed id is a key, mapped to its number of occurrences, and no other key is present. */
  lemma TallyCounts(ids: seq<string>)
    ensures forall k :: k in Tally(ids) <==> k in ids
    ensures forall k :: k in Tally(ids) ==> Tally(ids)[k] == multiset(ids)[k] >= 1
  {
  }

  /** The sum of the values a map gives to some of its keys. */
  ghost function SumOver(m: map<string, int>, keys: set<string>): int
    requires keys <= m.Keys
    decreases keys
  {
    if keys == {} then 0
    else
      var k :| k in keys;
      m[k] + SumOver(m, keys - {k})
  }

  /** Any key can be taken out of the sum first. */
  lemma {:induction false} SumOverRemove(m: map<string, int>, keys: set<string>, k: string)
    requires keys <= m.Keys && k in keys
    ensures SumOver(m, keys) == m[k] + SumOver(m, keys - {k})
    decreases keys
  {
    var j :| j in keys && SumOver(m, keys) == m[j] + SumOver(m, keys - {j});
    if j != k {
      SumOverRemove(m, keys - {j}, k);
      SumOverRemove(m, keys - {k}, j);
      assert keys - {j} - {k} == keys - {k} - {j};
    }
  }

  /** Two maps that agree on the keys summed over have the same sum. */
  lemma {:induction false} SumOverAgree(m: map<string, int>, n: map<string, int>, keys: set<string>)
    requires keys <= m.Keys && keys <= n.Keys
    requires forall k :: k in keys ==> m[k] == n[k]
    ensures SumOver(m, keys) == SumOver(n, keys)
    decreases keys
  {
    if keys != {} {
      var j :| j in keys && SumOver(m, keys) == m[j] + SumOver(m, keys - {j});
      SumOverRemove(n, keys, j);
      SumOverAgree(m, n, keys - {j});
    }
  }

  /** The counts of the decoded exile slots add up to the number of ids. */
  lemma {:induction false} TallySum(ids: seq<string>)
    ensures SumOver(Tally(ids), Tally(ids).Keys) == |ids|
    decreases |ids|
  {
    if |ids| > 0 {
      var init := ids[..|ids| - 1];
      var x := ids[|ids| - 1];
      assert ids == init + [x];
      TallySum(init);
      TallySnoc(init, x);
      var m := Tally(init);
      var n := Tally(ids);
      SumOverRemove(n, n.Keys, x);
      SumOverAgree(m, n, m.Keys - {x});
      if x in m {
        SumOverRemove(m, m.Keys, x);
        assert n.Keys - {x} == m.Keys - {x};
      } else {
        assert n.Keys - {x} == m.Keys - {x} == m.Keys;
      }
    }
  }

  // ---------------------------------------------------------------------------
  // Classifiers

  /** `isSpecialCard`: encounter cards, cards with a subtype, cards without a level and, unless ignored, permanents. */
  predicate IsSpecialCard(card: Card, ignorePermanent: bool) {
    || TruthyString(card.encounterCode)
    || TruthyString(card.subtypeCode)
    || card.xp.None?
    || (card.permanent && !ignorePermanent)
  }

  /** Ignoring permanents only ever removes permanent cards from the special ones. */
  lemma IgnoringPermanentNarrowsSpecial(card: Card)
    ensures IsSpecialCard(card, true) ==> IsSpecialCard(card, false)
    ensures IsSpecialCard(card, false) && !IsSpecialCard(card, true) ==> card.permanent
  {
  }

  /** A card without a level, or with a subtype or an encounter set, is special either way. */
  lemma UnleveledCardIsSpecial(card: Card, ignorePermanent: bool)
    requires card.xp.None? || TruthyString(card.subtypeCode) || TruthyString(card.encounterCode)
    ensures IsSpecialCard(card, ignorePermanent)
  {
  }

  predicate IsEnemyLike(card: Card) {
    TruthyInt(card.enemyDamage) || TruthyInt(card.enemyHorror)
  }

  predicate IsLocationLike(card: Card) {
    TruthyInt(card.shroud) || TruthyInt(card.clues) || card.cluesFixed
  }

  /** `reversed`: the front of a double-sided encounter location. */
  predicate Reversed(card: Card) {
    card.doubleSided && IsLocationLike(card) && !TruthyString(card.backLinkId) && TruthyString(card.encounterCode)
  }

  /** An empty back link is falsy: it counts as no back link, and any non-empty one rules the card out. */
  lemma EmptyBackLinkIsNoBackLink(card: Card, link: string)
    ensures Reversed(card.(backLinkId := Some(""))) == Reversed(card.(backLinkId := None))
    ensures link != "" ==> !Reversed(card.(backLinkId := Some(link)))
  {
  }

  /** A reversed card is a location of an encounter set, hence a special card. */
  lemma ReversedIsEncounterLocation(card: Card, ignorePermanent: bool)
    requires Reversed(card)
    ensures IsLocationLike(card) && TruthyString(card.encounterCode)
    ensures IsSpecialCard(card, ignorePermanent)
  {
  }

  /** `isRandomBasicWeaknessLike`: a basic weakness, or a weakness of no encounter set and no restrictions. */
  predicate IsRandomBasicWeaknessLike(card: Card) {
    || card.subtypeCode == Some("basicweakness")
    || (card.subtypeCode == Some("weakness") && !TruthyString(card.encounterCode) && !card.hasRestrictions)
  }

  /** Random-basic-weakness-like cards carry a subtype, so they are special. */
  lemma RandomBasicWeaknessLikeIsSpecial(card: Card, ignorePermanent: bool)
    requires IsRandomBasicWeaknessLike(card)
    ensures TruthyString(card.subtypeCode) && IsSpecialCard(card, ignorePermanent)
  {
  }

  /** `isStaticInvestigator`: an investigator that has no deck options at all (not even an empty list). */
  predicate IsStaticInvestigator(card: Card) {
    card.typeCode == "investigator" && card.deckOptions.None?
  }

  /** An investigator with a (possibly empty) list of deck options can build decks. */
  lemma DeckOptionsMakeInvestigatorBuildable(card: Card, options: seq<DeckOption>)
    ensures !IsStaticInvestigator(card.(deckOptions := Some(options)))
    ensures IsStaticInvestigator(card.(typeCode := "investigator", deckOptions := None))
  {
  }

  /** `getCanonicalCardCode`: the code of the printing a card duplicates or is an alternate of, else its own. */
  function CanonicalCardCode(card: Card): string {
    card.duplicateOfCode.GetOr(card.alternateOfCode.GetOr(card.code))
  }

  /** The canonical code is the first present one of duplicate-of, alternate-of and own code. */
  lemma CanonicalCodePrecedence(card: Card)
    ensures card.duplicateOfCode.Some? ==> CanonicalCardCode(card) == card.duplicateOfCode.value
    ensures card.duplicateOfCode.None? && card.alternateOfCode.Some? ==> CanonicalCardCode(card) == card.alternateOfCode.value
    ensures card.duplicateOfCode.None? && card.alternateOfCode.None? ==> CanonicalCardCode(card) == card.code
  {
  }

  /** `cardLimit`: an explicit override, else the card's deck limit, else its quantity. */
  function CardLimit(card: Card, limitOverride: Option<int>): int {
    limitOverride.GetOr(card.deckLimit.GetOr(card.quantity))
  }

  /** The limit is the first present one of override, deck limit and quantity. */
  lemma CardLimitPrecedence(card: Card, limitOverride: Option<int>)
    ensures limitOverride.Some? ==> CardLimit(card, limitOverride) == limitOverride.value
    ensures limitOverride.None? && card.deckLimit.Some? ==> CardLimit(card, limitOverride) == card.deckLimit.value
    ensures limitOverride.None? && card.deckLimit.None? ==> CardLimit(card, limitOverride) == card.quantity
  {
  }

  /**
   * `getCardColor`: the colour class of a card, "multiclass" for cards of two
   * factions. A `prop` left out (`None`) takes its default, "color".
   */
  function CardColor(card: Card, prop: Option<string>): string {
    prop.GetOr("color") + "-" + (if TruthyString(card.faction2Code) then "multiclass" else card.factionCode)
  }

  /** The colour class names the property ("color" by default), then the faction or "multiclass". */
  lemma CardColorShape(card: Card, prop: Option<string>)
    ensures var p := if prop.Some? then prop.value else "color";
      && |CardColor(card, prop)| > |p| && CardColor(card, prop)[..|p| + 1] == p + "-"
      && (TruthyString(card.faction2Code) ==> CardColor(card, prop)[|p| + 1..] == "multiclass")
      && (!TruthyString(card.faction2Code) ==> CardColor(card, prop)[|p| + 1..] == card.factionCode)
  {
  }
}

/**
 * The locale-key extraction script: the sorted, duplicate-free lists of trait
 * names, uses names and deck-option texts found in the cards, and the locale
 * tables built from them. Reading the cards and the locale file, and writing
 * the locale file back, are not part of this model; `cardUses` is the
 * `uses` parameter.
 */
module I18nUtils {
  import opened Wrappers
  import opened Strings
  import opened CardTypes
  import opened CardUtils
  import opened Formatting

  // ---------------------------------------------------------------------------
  // listTraits

  /** The value kept for one "."-piece of a traits field: trimmed, its first "." removed. */
  function TraitValue(piece: string): string {
    ReplaceFirst(Trim(piece), '.')
  }

  /** The non-empty values of a run of pieces. */
  function ValuesOf(pieces: seq<string>): set<string>
    decreases |pieces|
  {
    if |pieces| == 0 then {}
    else
      var v := TraitValue(pieces[|pieces| - 1]);
      ValuesOf(pieces[..|pieces| - 1]) + (if v != "" then {v} else {})
  }

  /** The trait names one card contributes: none when its traits field is missing or empty. */
  function CardTraits(card: Card): set<string> {
    if TruthyString(card.realTraits) then ValuesOf(Split(card.realTraits.value, '.')) else {}
  }

  /** The trait names of a run of cards. */
  function TraitsOf(cards: seq<Card>): set<string>
    decreases |cards|
  {
    if |cards| == 0 then {} else TraitsOf(cards[..|cards| - 1]) + CardTraits(cards[|cards| - 1])
  }

  /** The inner loop of `listTraits`: adds the values of one card's traits field. */
  method AddTraits(acc: set<string>, card: Card) returns (acc': set<string>)
    ensures acc' == acc + CardTraits(card)
  {
    acc' := acc;
    if !TruthyString(card.realTraits) {
      return;
    }
    var pieces := Split(card.realTraits.value, '.');
    for j := 0 to |pieces|
      invariant acc' == acc + ValuesOf(pieces[..j])
    {
      ValuesStep(pieces, j);
      acc' := AddValue(acc', pieces[j]);
    }
    assert pieces[..|pieces|] == pieces;
  }

  /** The value of one piece, added when it is not empty. */
  method AddValue(acc: set<string>, piece: string) returns (acc': set<string>)
    ensures acc' == acc + ValuesOf([piece])
  {
    var value := TraitValue(piece);
    acc' := acc;
    if value != "" {
      acc' := acc' + {value};
    }
    assert [piece][..0] == [];
  }

  /** The values of one more piece of a run. */
  lemma ValuesStep(pieces: seq<string>, j: nat)
    requires j < |pieces|
    ensures ValuesOf(pieces[..j + 1]) == ValuesOf(pieces[..j]) + ValuesOf([pieces[j]])
  {
    assert pieces[..j + 1][..j] == pieces[..j];
    assert [pieces[j]][..0] == [];
  }

  /** `listTraits`: every trait name of the cards, once each, in ascending order. */
  method ListTraits(cards: seq<Card>) returns (r: seq<string>)
    ensures StrictlySorted(r)
    ensures forall y :: y in r <==> y in TraitsOf(cards)
  {
    var acc: set<string> := {};
    for i := 0 to |cards|
      invariant acc == TraitsOf(cards[..i])
    {
      acc := AddTraits(acc, cards[i]);
      assert cards[..i + 1][..i] == cards[..i];
    }
    assert cards[..|cards|] == cards;
    r := SortedElements(acc);
  }

  /** Trimming adds no character. */
  lemma TrimLacks(s: string, c: char)
    requires c !in s
    ensures c !in Trim(s)
  {
    TrimShape(s);
    var k := |s| - |TrimStart(s)|;
    assert Trim(s) == s[k..k + |Trim(s)|];
  }

  /** Pieces of a "."-split carry no ".", so their values are the trimmed pieces, and the non-empty ones are the tokens. */
  lemma {:induction false} ValuesAreTokens(pieces: seq<string>)
    requires forall k :: 0 <= k < |pieces| ==> '.' !in pieces[k]
    ensures forall y :: y in ValuesOf(pieces) <==> y in NonEmptyTrimmed(pieces)
    decreases |pieces|
  {
    if |pieces| > 0 {
      var init := pieces[..|pieces| - 1];
      var last := pieces[|pieces| - 1];
      ValuesAreTokens(init);
      TrimLacks(last, '.');
      assert TraitValue(last) == Trim(last);
    }
  }

  /**
   * The trait names `listTraits` collects are exactly the tokens
   * `splitMultiValue` yields for some card's traits field: non-empty, trimmed,
   * free of ".".
   */
  lemma TraitsAreMultiValues(cards: seq<Card>)
    ensures forall y :: y in TraitsOf(cards) <==> exists i :: 0 <= i < |cards| && y in MultiValues(cards[i].realTraits)
  {
    forall y ensures y in TraitsOf(cards) <==> exists i :: 0 <= i < |cards| && y in MultiValues(cards[i].realTraits) {
      if y in TraitsOf(cards) {
        TraitHasCard(cards, y);
      }
      if exists i :: 0 <= i < |cards| && y in MultiValues(cards[i].realTraits) {
        var i :| 0 <= i < |cards| && y in MultiValues(cards[i].realTraits);
        CardHasTrait(cards, i, y);
      }
    }
  }

  /** A collected trait name is a token of some card. */
  lemma {:induction false} TraitHasCard(cards: seq<Card>, y: string)
    requires y in TraitsOf(cards)
    ensures exists i :: 0 <= i < |cards| && y in MultiValues(cards[i].realTraits)
    decreases |cards|
  {
    var init := cards[..|cards| - 1];
    var last := cards[|cards| - 1];
    if y in TraitsOf(init) {
      TraitHasCard(init, y);
      var i :| 0 <= i < |init| && y in MultiValues(init[i].realTraits);
      assert cards[i] == init[i];
    } else {
      CardTraitsAreMultiValues(last);
      assert y in MultiValues(cards[|cards| - 1].realTraits);
    }
  }

  /** Every token of every card is collected. */
  lemma {:induction false} CardHasTrait(cards: seq<Card>, i: nat, y: string)
    requires i < |cards| && y in MultiValues(cards[i].realTraits)
    ensures y in TraitsOf(cards)
    decreases |cards|
  {
    var init := cards[..|cards| - 1];
    if i < |init| {
      assert init[i] == cards[i];
      CardHasTrait(init, i, y);
    } else {
      CardTraitsAreMultiValues(cards[i]);
    }
  }

  /** The trait names of one card are its `splitMultiValue` tokens. */
  lemma CardTraitsAreMultiValues(card: Card)
    ensures forall y :: y in CardTraits(card) <==> y in MultiValues(card.realTraits)
  {
    if TruthyString(card.realTraits) {
      SplitPiecesLackSeparator(card.realTraits.value, '.');
      ValuesAreTokens(Split(card.realTraits.value, '.'));
    }
  }

  /** Every trait name is a token: not empty, and neither starting nor ending with white space. */
  lemma TraitsAreTokens(cards: seq<Card>, y: string)
    requires y in TraitsOf(cards)
    ensures IsToken(y) && '.' !in y
  {
    TraitsAreMultiValues(cards);
    var i :| 0 <= i < |cards| && y in MultiValues(cards[i].realTraits);
    var pieces := Split(cards[i].realTraits.value, '.');
    assert y in NonEmptyTrimmed(pieces);
    assert IsToken(y) by {
      NonEmptyTrimmedTokens(pieces);
      var m :| 0 <= m < |NonEmptyTrimmed(pieces)| && NonEmptyTrimmed(pieces)[m] == y;
    }
    assert '.' !in y by {
      NonEmptyTrimmedMembers(pieces);
      var k :| 0 <= k < |pieces| && Trim(pieces[k]) == y;
      SplitPiecesLackSeparator(cards[i].realTraits.value, '.');
      TrimLacks(pieces[k], '.');
    }
  }

  // ---------------------------------------------------------------------------
  // listUses

  /** The uses names of a run of cards: every result of `uses` that is neither missing nor empty. */
  function UsesOf(cards: seq<Card>, uses: Card -> Option<string>): set<string>
    decreases |cards|
  {
    if |cards| == 0 then {}
    else
      var u := uses(cards[|cards| - 1]);
      UsesOf(cards[..|cards| - 1], uses) + (if TruthyString(u) then {u.value} else {})
  }

  /** `listUses`: the uses names of the cards, once each, in ascending order. */
  method ListUses(cards: seq<Card>, uses: Card -> Option<string>) returns (r: seq<string>)
    ensures StrictlySorted(r)
    ensures forall y :: y in r <==> y in UsesOf(cards, uses)
  {
    var acc: set<string> := {};
    for i := 0 to |cards|
      invariant acc == UsesOf(cards[..i], uses)
    {
      var u := uses(cards[i]);
      if TruthyString(u) {
        acc := acc + {u.value};
      }
      assert cards[..i + 1][..i] == cards[..i];
    }
    assert cards[..|cards|] == cards;
    r := SortedElements(acc);
  }

  /** A uses name is listed iff some card's uses is exactly that name, and it is never empty. */
  lemma {:induction false} UsesMembers(cards: seq<Card>, uses: Card -> Option<string>)
    ensures forall y :: y in UsesOf(cards, uses) <==> y != "" && exists i :: 0 <= i < |cards| && uses(cards[i]) == Some(y)
    decreases |cards|
  {
    if |cards| > 0 {
      var init := cards[..|cards| - 1];
      UsesMembers(init, uses);
      forall y ensures y in UsesOf(cards, uses) <==> y != "" && exists i :: 0 <= i < |cards| && uses(cards[i]) == Some(y) {
        if y in UsesOf(init, uses) {
          var i :| 0 <= i < |init| && uses(init[i]) == Some(y);
          assert cards[i] == init[i];
        }
        if y != "" && exists i :: 0 <= i < |cards| && uses(cards[i]) == Some(y) {
          var i :| 0 <= i < |cards| && uses(cards[i]) == Some(y);
          if i < |init| {
            assert cards[i] == init[i];
          }
        }
      }
    }
  }

  // ---------------------------------------------------------------------------
  // listDeckOptions

  /** The deck-validation errors that are not written in any card's deck options. */
  const SeedErrors: seq<string> := [
    "You cannot have more than one Covenant in your deck.",
    "Deck must have at least 10 skill cards.",
    "Atleast constraint violated.",
    "Too many off-class cards."
  ]

  /** The names of a run of option choices, empty names included. */
  function SelectNames(selects: seq<OptionSelect>): set<string>
    decreases |selects|
  {
    if |selects| == 0 then {} else SelectNames(selects[..|selects| - 1]) + {selects[|selects| - 1].name}
  }

  /** The texts one deck option contributes: its name and error when not empty, and all its choice names. */
  function OptionTexts(option: DeckOption): set<string> {
    (if TruthyString(option.name) then {option.name.value} else {})
    + (if TruthyString(option.error) then {option.error.value} else {})
    + (if option.optionSelect.Some? then SelectNames(option.optionSelect.value) else {})
  }

  /** The texts of a run of deck options. */
  function OptionsTexts(options: seq<DeckOption>): set<string>
    decreases |options|
  {
    if |options| == 0 then {} else OptionsTexts(options[..|options| - 1]) + OptionTexts(options[|options| - 1])
  }

  /** The texts one card contributes. */
  function CardOptionTexts(card: Card): set<string> {
    if card.deckOptions.Some? then OptionsTexts(card.deckOptions.value) else {}
  }

  /** The deck-option texts of a run of cards. */
  function DeckOptionsOf(cards: seq<Card>): set<string>
    decreases |cards|
  {
    if |cards| == 0 then {} else DeckOptionsOf(cards[..|cards| - 1]) + CardOptionTexts(cards[|cards| - 1])
  }

  /** One deck option of the loop in `listDeckOptions`. */
  method AddOption(acc: set<string>, option: DeckOption) returns (acc': set<string>)
    ensures acc' == acc + OptionTexts(option)
  {
    acc' := acc;
    if TruthyString(option.name) {
      acc' := acc' + {option.name.value};
    }
    if TruthyString(option.error) {
      acc' := acc' + {option.error.value};
    }
    if option.optionSelect.Some? {
      var selects := option.optionSelect.value;
      ghost var before := acc';
      for k := 0 to |selects|
        invariant acc' == before + SelectNames(selects[..k])
      {
        acc' := acc' + {selects[k].name};
        assert selects[..k + 1][..k] == selects[..k];
      }
      assert selects[..|selects|] == selects;
    }
  }

  /** The deck options of one card, in the loop of `listDeckOptions`. */
  method AddCardOptions(acc: set<string>, card: Card) returns (acc': set<string>)
    ensures acc' == acc + CardOptionTexts(card)
  {
    acc' := acc;
    if card.deckOptions.None? {
      return;
    }
    var options := card.deckOptions.value;
    for j := 0 to |options|
      invariant acc' == acc + OptionsTexts(options[..j])
    {
      acc' := AddOption(acc', options[j]);
      assert options[..j + 1][..j] == options[..j];
    }
    assert options[..|options|] == options;
  }

  /** `listDeckOptions`: the seed errors and every deck-option text of the cards, once each, in ascending order. */
  method ListDeckOptions(cards: seq<Card>) returns (r: seq<string>)
    ensures StrictlySorted(r)
    ensures forall y :: y in r <==> y in SeedErrors || y in DeckOptionsOf(cards)
  {
    var acc: set<string> := set e | e in SeedErrors;
    for i := 0 to |cards|
      invariant acc == (set e | e in SeedErrors) + DeckOptionsOf(cards[..i])
    {
      acc := AddCardOptions(acc, cards[i]);
      assert cards[..i + 1][..i] == cards[..i];
    }
    assert cards[..|cards|] == cards;
    r := SortedElements(acc);
  }

  /**
   * A card's deck options contribute the name and error of each option when
   * they are not empty, and the name of each of its choices.
   */
  lemma {:induction false} OptionsTextsMembers(options: seq<DeckOption>)
    ensures forall y :: y in OptionsTexts(options) <==> exists j :: 0 <= j < |options| && y in OptionTexts(options[j])
    decreases |options|
  {
    if |options| > 0 {
      var init := options[..|options| - 1];
      OptionsTextsMembers(init);
      forall y ensures y in OptionsTexts(options) <==> exists j :: 0 <= j < |options| && y in OptionTexts(options[j]) {
        if y in OptionsTexts(init) {
          var j :| 0 <= j < |init| && y in OptionTexts(init[j]);
          assert options[j] == init[j];
        }
        if exists j :: 0 <= j < |options| && y in OptionTexts(options[j]) {
          var j :| 0 <= j < |options| && y in OptionTexts(options[j]);
          if j < |init| {
            assert options[j] == init[j];
          }
        }
      }
    }
  }

  /** Every choice name is collected, whatever it is. */
  lemma {:induction false} SelectNamesMembers(selects: seq<OptionSelect>)
    ensures forall y :: y in SelectNames(selects) <==> exists k :: 0 <= k < |selects| && selects[k].name == y
    decreases |selects|
  {
    if |selects| > 0 {
      var init := selects[..|selects| - 1];
      SelectNamesMembers(init);
      assert forall k :: 0 <= k < |init| ==> init[k] == selects[k];
    }
  }

  // ---------------------------------------------------------------------------
  // Locale tables

  /** The `reduce` that builds a locale table: each key mapped to `f(key)`, a later key overwriting. */
  function TableOf(keys: seq<string>, f: string -> string): map<string, string>
    decreases |keys|
  {
    if |keys| == 0 then map[] else TableOf(keys[..|keys| - 1], f)[keys[|keys| - 1] := f(keys[|keys| - 1])]
  }

  /** A table has exactly the listed keys, each mapped to `f` of itself. */
  lemma {:induction false} TableOfEntries(keys: seq<string>, f: string -> string)
    ensures TableOf(keys, f).Keys == set k | k in keys
    ensures forall k :: k in keys ==> TableOf(keys, f)[k] == f(k)
    decreases |keys|
  {
    if |keys| > 0 {
      var init := keys[..|keys| - 1];
      TableOfEntries(init, f);
      assert forall k :: k in keys ==> k in init || k == keys[|keys| - 1];
      assert forall k :: k in init ==> k in keys;
    }
  }

  /** The uses table: each uses name mapped to its capitalised form. */
  function UsesTable(uses: seq<string>): map<string, string> {
    TableOf(uses, Capitalize)
  }

  /** The trait and deck-option tables: each key mapped to itself. */
  function IdentityTable(keys: seq<string>): map<string, string> {
    TableOf(keys, k => k)
  }

  /** The uses table capitalises each listed name and has no other key. */
  lemma UsesTableEntries(uses: seq<string>)
    ensures UsesTable(uses).Keys == set k | k in uses
    ensures forall k :: k in uses ==> UsesTable(uses)[k] == Capitalize(k)
  {
    TableOfEntries(uses, Capitalize);
  }

  /** The trait and deck-option tables are identities on their lists. */
  lemma IdentityTableEntries(keys: seq<string>)
    ensures IdentityTable(keys).Keys == set k | k in keys
    ensures forall k :: k in keys ==> IdentityTable(keys)[k] == k
  {
    TableOfEntries(keys, k => k);
  }
}

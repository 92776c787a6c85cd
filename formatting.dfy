/**
 * String formatting helpers: capitalising a word, turning a snake_case key
 * into capitalised words, the display name of a sync provider, and the
 * signed adjustment shown beside an experience upgrade.
 */
module Formatting {
  import opened Wrappers
  import opened Strings

  /** `toUpperCase` of one character, on the ASCII letters. */
  function UpperChar(c: char): (u: char)
    ensures 'a' <= c <= 'z' ==> 'A' <= u <= 'Z'
    ensures !('a' <= c <= 'z') ==> u == c
  {
    if 'a' <= c <= 'z' then (c as int - 32) as char else c
  }

  /** `capitalize`: the first character upper-cased, the rest unchanged. */
  function Capitalize(s: string): (r: string)
    ensures |r| == |s|
    ensures s == "" ==> r == ""
    ensures s != "" ==> r[0] == UpperChar(s[0]) && r[1..] == s[1..]
  {
    if |s| == 0 then s else [UpperChar(s[0])] + s[1..]
  }

  /** Capitalising twice is capitalising once. */
  lemma CapitalizeIdempotent(s: string)
    ensures Capitalize(Capitalize(s)) == Capitalize(s)
  {
    if s != "" {
      assert UpperChar(UpperChar(s[0])) == UpperChar(s[0]);
    }
  }

  /** `capitalize` of a non-negative number renders it in decimal and changes nothing else. */
  lemma CapitalizeDecimal(n: nat)
    ensures Capitalize(NatToDecimal(n)) == NatToDecimal(n)
  {
    var s := NatToDecimal(n);
    assert IsDigit(s[0]);
    assert [s[0]] + s[1..] == s;
  }

  /** Every piece capitalised. */
  function CapitalizeAll(parts: seq<string>): (r: seq<string>)
    ensures |r| == |parts|
    ensures forall i :: 0 <= i < |parts| ==> r[i] == Capitalize(parts[i])
    decreases |parts|
  {
    if |parts| == 0 then [] else [Capitalize(parts[0])] + CapitalizeAll(parts[1..])
  }

  /** `capitalizeSnakeCase`: the "_"-separated words, each capitalised, joined with spaces. */
  function CapitalizeSnakeCase(s: string): string {
    if |s| == 0 then s else Join(CapitalizeAll(Split(s, '_')), " ")
  }

  /**
   * The same text built character by character: every "_" becomes a space and
   * the first character of every word is upper-cased. `wordStart` says whether
   * `s` starts a word.
   */
  function SnakeToWords(s: string, wordStart: bool): (r: string)
    ensures |r| == |s|
    decreases |s|
  {
    if |s| == 0 then ""
    else
      [if s[0] == '_' then ' ' else if wordStart then UpperChar(s[0]) else s[0]]
        + SnakeToWords(s[1..], s[0] == '_')
  }

  /** The pieces with the first capitalised only when `first` holds, and all others capitalised. */
  function CapitalizeRest(parts: seq<string>, first: bool): seq<string> {
    if |parts| == 0 then []
    else [if first then Capitalize(parts[0]) else parts[0]] + CapitalizeAll(parts[1..])
  }

  /** A character prefixed to the first piece comes out in front of the joined text. */
  lemma JoinPrefixFirst(c: char, parts: seq<string>, sep: string)
    requires |parts| >= 1
    ensures Join([[c] + parts[0]] + parts[1..], sep) == [c] + Join(parts, sep)
  {
    var q := [[c] + parts[0]] + parts[1..];
    assert q[1..] == parts[1..];
  }

  lemma {:induction false} JoinCapitalizedSplit(s: string, first: bool)
    ensures Join(CapitalizeRest(Split(s, '_'), first), " ") == SnakeToWords(s, first)
    decreases |s|
  {
    if |s| > 0 {
      var rest := Split(s[1..], '_');
      if s[0] == '_' {
        JoinCapitalizedSplit(s[1..], true);
        assert Split(s, '_') == [""] + rest;
        assert ([""] + rest)[1..] == rest;
        assert CapitalizeRest(rest, true) == CapitalizeAll(rest);
        assert CapitalizeRest(Split(s, '_'), first) == [""] + CapitalizeAll(rest);
        assert ([""] + CapitalizeAll(rest))[1..] == CapitalizeAll(rest);
      } else {
        JoinCapitalizedSplit(s[1..], false);
        var c := if first then UpperChar(s[0]) else s[0];
        var y := CapitalizeRest(rest, false);
        assert Split(s, '_') == [[s[0]] + rest[0]] + rest[1..];
        assert ([[s[0]] + rest[0]] + rest[1..])[1..] == rest[1..];
        assert ([s[0]] + rest[0])[1..] == rest[0];
        assert CapitalizeRest(Split(s, '_'), first) == [[c] + y[0]] + y[1..];
        JoinPrefixFirst(c, y, " ");
      }
    }
  }

  /**
   * `capitalizeSnakeCase` replaces every "_" by a space and upper-cases the first
   * character of every word; the text has the length of `s`, no "_" left, and
   * is made of one more word than `s` has underscores.
   */
  lemma CapitalizeSnakeCaseWords(s: string)
    ensures CapitalizeSnakeCase(s) == SnakeToWords(s, true)
    ensures |CapitalizeSnakeCase(s)| == |s|
    ensures '_' !in CapitalizeSnakeCase(s)
    ensures forall i :: 0 <= i < |s| && s[i] == '_' ==> CapitalizeSnakeCase(s)[i] == ' '
    ensures s != "" ==> |CapitalizeAll(Split(s, '_'))| == multiset(s)['_'] + 1
  {
    if s != "" {
      JoinCapitalizedSplit(s, true);
      assert CapitalizeRest(Split(s, '_'), true) == CapitalizeAll(Split(s, '_'));
      SplitCount(s, '_');
    }
    SnakeToWordsShape(s, true);
  }

  lemma {:induction false} SnakeToWordsShape(s: string, wordStart: bool)
    ensures '_' !in SnakeToWords(s, wordStart)
    ensures forall i :: 0 <= i < |s| && s[i] == '_' ==> SnakeToWords(s, wordStart)[i] == ' '
    decreases |s|
  {
    if |s| > 0 {
      SnakeToWordsShape(s[1..], s[0] == '_');
      var r := SnakeToWords(s, wordStart);
      forall i | 0 <= i < |s| && s[i] == '_' ensures r[i] == ' ' {
        if i > 0 { assert s[1..][i - 1] == s[i]; }
      }
    }
  }

  /** `formatProviderName`: the brand spelling of ArkhamDB, any other provider capitalised. */
  function FormatProviderName(name: string): (r: string)
    ensures name == "arkhamdb" ==> r == "ArkhamDB"
    ensures name != "arkhamdb" ==> r == Capitalize(name)
    ensures |r| == |name|
  {
    if name == "arkhamdb" then "ArkhamDB" else Capitalize(name)
  }

  function Abs(n: int): nat {
    if n >= 0 then n else -n
  }

  /** The adjustment part of `formatUpgradeXP`: "(+n)" or "(-n)" for a non-zero change, else nothing. */
  function AdjustmentText(adjustment: Option<int>): (r: string)
    ensures r == "" <==> !TruthyInt(adjustment)
    ensures r != "" ==> |r| >= 4 && r[0] == '(' && r[|r| - 1] == ')'
    ensures r != "" ==> (r[1] == '+' <==> adjustment.value > 0) && (r[1] == '-' <==> adjustment.value < 0)
  {
    if !TruthyInt(adjustment) then ""
    else "(" + (if adjustment.value >= 0 then "+" else "-") + NatToDecimal(Abs(adjustment.value)) + ")"
  }

  /** Reads an adjustment text back: the signed number between the parentheses. */
  function ParseAdjustment(s: string): Option<int> {
    if |s| < 4 || s[0] != '(' || s[|s| - 1] != ')' || (s[1] != '+' && s[1] != '-') then None
    else
      var digits := s[2..|s| - 1];
      if forall i :: 0 <= i < |digits| ==> IsDigit(digits[i]) then
        var n: int := DecimalValue(digits);
        Some(if s[1] == '+' then n else -n)
      else None
  }

  /** The adjustment text of a non-zero change reads back as that change. */
  lemma AdjustmentRoundTrip(adjustment: int)
    requires adjustment != 0
    ensures ParseAdjustment(AdjustmentText(Some(adjustment))) == Some(adjustment)
  {
    var digits := NatToDecimal(Abs(adjustment));
    var s := AdjustmentText(Some(adjustment));
    assert s[2..|s| - 1] == digits;
    DecimalRoundTrip(Abs(adjustment));
  }
}

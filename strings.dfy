/**
 * The JavaScript string operations the application relies on, written out:
 * `String.prototype.split` on a one-character separator, `Array.prototype.join`,
 * `String.prototype.trim`, `String.prototype.replace` of a one-character pattern,
 * the default ordering of `Array.prototype.sort` on strings, and the decimal
 * rendering of a non-negative integer.
 */
module Strings {

  /** The characters `String.prototype.trim` removes (white space and line terminators). */
  predicate IsWhitespace(c: char) {
    || c == ' ' || c == '\t' || c == '\n' || c == '\r'
    || c == '\U{000B}' || c == '\U{000C}' || c == '\U{00A0}' || c == '\U{1680}'
    || ('\U{2000}' <= c <= '\U{200A}')
    || c == '\U{2028}' || c == '\U{2029}' || c == '\U{202F}' || c == '\U{205F}'
    || c == '\U{3000}' || c == '\U{FEFF}'
  }

  /** The first index at or after `i` whose character is not white space, or `|s|`. */
  function SkipSpace(s: string, i: nat): (j: nat)
    requires i <= |s|
    ensures i <= j <= |s|
    ensures forall k :: i <= k < j ==> IsWhitespace(s[k])
    ensures j < |s| ==> !IsWhitespace(s[j])
    decreases |s| - i
  {
    if i < |s| && IsWhitespace(s[i]) then SkipSpace(s, i + 1) else i
  }

  /** The least index at or before `j` from which only white space runs up to `j`. */
  function SkipSpaceBack(s: string, j: nat): (i: nat)
    requires j <= |s|
    ensures i <= j
    ensures forall k :: i <= k < j ==> IsWhitespace(s[k])
    ensures i > 0 ==> !IsWhitespace(s[i - 1])
    decreases j
  {
    if j > 0 && IsWhitespace(s[j - 1]) then SkipSpaceBack(s, j - 1) else j
  }

  /** `s` with its leading white space removed. */
  function TrimStart(s: string): (r: string)
    ensures |r| <= |s| && r == s[|s| - |r|..]
    ensures forall i :: 0 <= i < |s| - |r| ==> IsWhitespace(s[i])
    ensures r != [] ==> !IsWhitespace(r[0])
  {
    s[SkipSpace(s, 0)..]
  }

  /** `s` with its trailing white space removed. */
  function TrimEnd(s: string): (r: string)
    ensures |r| <= |s| && r == s[..|r|]
    ensures forall i :: |r| <= i < |s| ==> IsWhitespace(s[i])
    ensures r != [] ==> !IsWhitespace(r[|r| - 1])
  {
    s[..SkipSpaceBack(s, |s|)]
  }

  /** `s.trim()`: `s` without its leading and trailing white space. */
  function Trim(s: string): (r: string)
    ensures |r| <= |s|
  {
    TrimEnd(TrimStart(s))
  }

  /** The trimmed string is a slice of `s` that neither starts nor ends with white space. */
  lemma TrimShape(s: string)
    ensures var r := Trim(s); var k := |s| - |TrimStart(s)|;
      && k + |r| <= |s| && r == s[k..k + |r|]
      && (r != [] ==> !IsWhitespace(r[0]) && !IsWhitespace(r[|r| - 1]))
  {
    var t := TrimStart(s);
    var r := TrimEnd(t);
    TrimEnds(t);
    SliceOfSuffix(s, |s| - |t|, |r|);
  }

  /** A string trimmed at its end keeps the first character of the string and ends with no white space. */
  lemma TrimEnds(t: string)
    requires t == [] || !IsWhitespace(t[0])
    ensures var r := TrimEnd(t); r != [] ==> !IsWhitespace(r[0]) && !IsWhitespace(r[|r| - 1])
  {
    var r := TrimEnd(t);
    if r != [] {
      assert r[0] == t[0];
    }
  }

  /** A prefix of a suffix is a slice. */
  lemma SliceOfSuffix<T>(s: seq<T>, k: nat, n: nat)
    requires k + n <= |s|
    ensures s[k..][..n] == s[k..k + n]
  {
  }

  /** Trimming gives the empty string exactly when `s` is all white space. */
  lemma TrimEmpty(s: string)
    ensures Trim(s) == [] <==> forall i :: 0 <= i < |s| ==> IsWhitespace(s[i])
  {
  }

  /** Trimming twice is trimming once. */
  lemma TrimIdempotent(s: string)
    ensures Trim(Trim(s)) == Trim(s)
  {
    var r := Trim(s);
    if r != [] {
      assert TrimStart(r) == r;
      assert TrimEnd(r) == r;
    }
  }

  /** `s.split(d)` for a one-character separator `d`: the pieces between the separators. */
  function Split(s: string, d: char): (parts: seq<string>)
    ensures |parts| >= 1
    decreases |s|
  {
    if |s| == 0 then [""]
    else
      var rest := Split(s[1..], d);
      if s[0] == d then [""] + rest
      else [[s[0]] + rest[0]] + rest[1..]
  }

  /** `parts.join(sep)`. */
  function Join(parts: seq<string>, sep: string): string
    decreases |parts|
  {
    if |parts| == 0 then ""
    else if |parts| == 1 then parts[0]
    else parts[0] + sep + Join(parts[1..], sep)
  }

  /** No piece of a split contains the separator. */
  lemma {:induction false} SplitPiecesLackSeparator(s: string, d: char)
    ensures forall i :: 0 <= i < |Split(s, d)| ==> d !in Split(s, d)[i]
    decreases |s|
  {
    if |s| > 0 {
      SplitPiecesLackSeparator(s[1..], d);
    }
  }

  /** Joining the pieces with the separator gives back the string. */
  lemma {:induction false} JoinSplit(s: string, d: char)
    ensures Join(Split(s, d), [d]) == s
    decreases |s|
  {
    if |s| > 0 {
      var rest := Split(s[1..], d);
      JoinSplit(s[1..], d);
      if s[0] == d {
        assert Split(s, d) == [""] + rest;
        assert ([""] + rest)[1..] == rest;
      } else {
        var parts := [[s[0]] + rest[0]] + rest[1..];
        assert Split(s, d) == parts;
        if |rest| == 1 {
          assert Join(rest, [d]) == rest[0];
        } else {
          assert parts[1..] == rest[1..];
          assert Join(rest, [d]) == rest[0] + [d] + Join(rest[1..], [d]);
        }
      }
    }
  }

  /** A split yields one more piece than there are separators. */
  lemma {:induction false} SplitCount(s: string, d: char)
    ensures |Split(s, d)| == multiset(s)[d] + 1
    decreases |s|
  {
    if |s| > 0 {
      SplitCount(s[1..], d);
      assert s == [s[0]] + s[1..];
      assert multiset(s) == multiset{s[0]} + multiset(s[1..]);
    }
  }

  /** A string without the separator splits into itself alone. */
  lemma {:induction false} SplitWithoutSeparator(s: string, d: char)
    requires d !in s
    ensures Split(s, d) == [s]
    decreases |s|
  {
    if |s| > 0 {
      SplitWithoutSeparator(s[1..], d);
      assert [s[0]] + s[1..] == s;
    }
  }

  /** `s.replace(c, "")` for a one-character pattern: drops the first occurrence of `c`. */
  function ReplaceFirst(s: string, c: char): (r: string)
    ensures c in s ==> |r| == |s| - 1
    ensures c !in s ==> r == s
    decreases |s|
  {
    if |s| == 0 then s
    else if s[0] == c then s[1..]
    else [s[0]] + ReplaceFirst(s[1..], c)
  }

  /** The UTF-16 code units of one character: itself below U+10000, else its surrogate pair. */
  function CodeUnits(c: char): (u: seq<int>)
    ensures 1 <= |u| <= 2
    ensures c as int < 0x10000 ==> u == [c as int]
    ensures c as int >= 0x10000 ==> |u| == 2 && 0xD800 <= u[0] < 0xDC00 && 0xDC00 <= u[1] < 0xE000
  {
    if c as int < 0x10000 then [c as int]
    else
      var v := c as int - 0x10000;
      [0xD800 + v / 0x400, 0xDC00 + v % 0x400]
  }

  /** The UTF-16 encoding of a string, the code units JavaScript compares. */
  function Utf16(s: string): seq<int>
    decreases |s|
  {
    if |s| == 0 then [] else CodeUnits(s[0]) + Utf16(s[1..])
  }

  /** Lexicographic order on code-unit sequences, a proper prefix before its extensions. */
  predicate UnitsLess(a: seq<int>, b: seq<int>)
    decreases |a|
  {
    if |a| == 0 then |b| > 0
    else if |b| == 0 then false
    else if a[0] != b[0] then a[0] < b[0]
    else UnitsLess(a[1..], b[1..])
  }

  /**
   * The order in which the default `Array.prototype.sort` puts strings: their
   * UTF-16 code units compared lexicographically.
   */
  predicate LexLess(a: string, b: string) {
    UnitsLess(Utf16(a), Utf16(b))
  }

  lemma {:induction false} UnitsIrreflexive(a: seq<int>)
    ensures !UnitsLess(a, a)
    decreases |a|
  {
    if |a| > 0 { UnitsIrreflexive(a[1..]); }
  }

  lemma {:induction false} UnitsTransitive(a: seq<int>, b: seq<int>, c: seq<int>)
    requires UnitsLess(a, b) && UnitsLess(b, c)
    ensures UnitsLess(a, c)
    decreases |a|
  {
    if |a| > 0 && |b| > 0 && |c| > 0 && a[0] == b[0] == c[0] {
      UnitsTransitive(a[1..], b[1..], c[1..]);
    }
  }

  lemma {:induction false} UnitsTotal(a: seq<int>, b: seq<int>)
    requires a != b
    ensures UnitsLess(a, b) || UnitsLess(b, a)
    decreases |a|
  {
    if |a| > 0 && |b| > 0 && a[0] == b[0] {
      assert a == [a[0]] + a[1..] && b == [b[0]] + b[1..];
      UnitsTotal(a[1..], b[1..]);
    }
  }

  /** The first code unit tells a character's encoding apart, and the units give the character back. */
  lemma CodeUnitsPrefix(c: char, d: char, x: seq<int>, y: seq<int>)
    requires CodeUnits(c) + x == CodeUnits(d) + y
    ensures c == d && x == y
  {
    var u, w := CodeUnits(c), CodeUnits(d);
    assert u[0] == (u + x)[0] == (w + y)[0] == w[0];
    if c as int >= 0x10000 {
      assert (u + x)[1] == (w + y)[1];
      var v, t := c as int - 0x10000, d as int - 0x10000;
      assert v == 0x400 * (v / 0x400) + v % 0x400;
      assert t == 0x400 * (t / 0x400) + t % 0x400;
    }
    assert |u| == |w|;
    assert x == (u + x)[|u|..] == (w + y)[|w|..] == y;
  }

  /** Different strings have different encodings. */
  lemma {:induction false} Utf16Injective(a: string, b: string)
    requires Utf16(a) == Utf16(b)
    ensures a == b
    decreases |a|
  {
    if |a| > 0 && |b| > 0 {
      CodeUnitsPrefix(a[0], b[0], Utf16(a[1..]), Utf16(b[1..]));
      Utf16Injective(a[1..], b[1..]);
      assert a == [a[0]] + a[1..] && b == [b[0]] + b[1..];
    }
  }

  lemma LexIrreflexive(a: string)
    ensures !LexLess(a, a)
  {
    UnitsIrreflexive(Utf16(a));
  }

  lemma LexTransitive(a: string, b: string, c: string)
    requires LexLess(a, b) && LexLess(b, c)
    ensures LexLess(a, c)
  {
    UnitsTransitive(Utf16(a), Utf16(b), Utf16(c));
  }

  lemma LexTotal(a: string, b: string)
    requires a != b
    ensures LexLess(a, b) || LexLess(b, a)
  {
    if Utf16(a) == Utf16(b) {
      Utf16Injective(a, b);
    }
    UnitsTotal(Utf16(a), Utf16(b));
  }

  lemma LexAsymmetric(a: string, b: string)
    requires LexLess(a, b)
    ensures !LexLess(b, a)
  {
    if LexLess(b, a) {
      LexTransitive(a, b, a);
      LexIrreflexive(a);
    }
  }

  /**
   * Where the order differs from code-point order: a character above U+FFFF
   * (a surrogate pair) comes before one in U+E000..U+FFFF.
   */
  lemma AstralBeforeHighPlane()
    ensures LexLess("\U{1F600}", "\U{FF5E}")
    ensures "\U{FF5E}"[0] < "\U{1F600}"[0]
  {
    assert Utf16("\U{1F600}") == [0xD83D, 0xDE00] by {
      assert CodeUnits('\U{1F600}') == [0xD83D, 0xDE00];
    }
    assert Utf16("\U{FF5E}") == [0xFF5E];
  }

  /** Strictly increasing, hence free of duplicates. */
  predicate StrictlySorted(r: seq<string>) {
    forall i, j :: 0 <= i < j < |r| ==> LexLess(r[i], r[j])
  }

  /** Inserts a new element into a strictly sorted sequence at its place. */
  function InsertSorted(r: seq<string>, x: string): (q: seq<string>)
    requires StrictlySorted(r) && x !in r
    ensures StrictlySorted(q)
    ensures |q| == |r| + 1
    ensures forall y :: y in q <==> y in r || y == x
    decreases |r|
  {
    if |r| == 0 then [x]
    else if LexLess(x, r[0]) then
      assert forall j :: 0 <= j < |r| ==> LexLess(x, r[j]) by {
        forall j | 0 <= j < |r| ensures LexLess(x, r[j]) {
          if j > 0 { LexTransitive(x, r[0], r[j]); }
        }
      }
      [x] + r
    else
      LexTotal(x, r[0]);
      var tail := InsertSorted(r[1..], x);
      assert forall y :: y in tail ==> LexLess(r[0], y);
      [r[0]] + tail
  }

  /** `Array.from(set).sort()`: the elements of a set of strings in ascending order. */
  method SortedElements(s: set<string>) returns (r: seq<string>)
    ensures StrictlySorted(r)
    ensures forall y :: y in r <==> y in s
  {
    r := [];
    var rest := s;
    while rest != {}
      invariant StrictlySorted(r)
      invariant forall y :: y in s <==> y in r || y in rest
      invariant forall y :: y in r ==> y !in rest
      decreases |rest|
    {
      var x :| x in rest;
      r := InsertSorted(r, x);
      rest := rest - {x};
    }
  }

  /** Two strictly sorted sequences with the same elements are equal. */
  lemma {:induction false} StrictlySortedUnique(a: seq<string>, b: seq<string>)
    requires StrictlySorted(a) && StrictlySorted(b)
    requires forall y :: y in a <==> y in b
    ensures a == b
    decreases |a|
  {
    assert |a| == 0 <==> |b| == 0 by {
      if |a| > 0 { assert a[0] in b; }
      if |b| > 0 { assert b[0] in a; }
    }
    if |a| > 0 {
      // The first element of each is the least element of the common set.
      if a[0] != b[0] {
        assert b[0] in a;
        var i :| 0 <= i < |a| && a[i] == b[0];
        assert LexLess(a[0], b[0]);
        assert a[0] in b;
        var j :| 0 <= j < |b| && b[j] == a[0];
        assert LexLess(b[0], a[0]);
        LexAsymmetric(a[0], b[0]);
      }
      forall y ensures y in a[1..] <==> y in b[1..] {
        if y in a[1..] {
          assert y != a[0] by { LexIrreflexive(a[0]); }
          assert y in b;
        }
        if y in b[1..] {
          assert y != b[0] by { LexIrreflexive(b[0]); }
          assert y in a;
        }
      }
      StrictlySortedUnique(a[1..], b[1..]);
      assert a == [a[0]] + a[1..] && b == [b[0]] + b[1..];
    }
  }

  /** The character of a decimal digit. */
  function DigitChar(d: nat): (c: char)
    requires d < 10
    ensures '0' <= c <= '9'
  {
    ('0' as int + d) as char
  }

  predicate IsDigit(c: char) {
    '0' <= c <= '9'
  }

  /** The decimal rendering of a non-negative integer, as `String(n)` gives it. */
  function NatToDecimal(n: nat): (s: string)
    ensures |s| >= 1
    ensures forall i :: 0 <= i < |s| ==> IsDigit(s[i])
    ensures s[0] == '0' ==> n == 0 && s == "0"
    decreases n
  {
    if n < 10 then [DigitChar(n)] else NatToDecimal(n / 10) + [DigitChar(n % 10)]
  }

  /** The number a string of decimal digits denotes. */
  function DecimalValue(s: string): nat
    requires forall i :: 0 <= i < |s| ==> IsDigit(s[i])
    decreases |s|
  {
    if |s| == 0 then 0
    else
      assert IsDigit(s[|s| - 1]);
      DecimalValue(s[..|s| - 1]) * 10 + (s[|s| - 1] as int - '0' as int)
  }

  /** Reading back the decimal rendering gives the number. */
  lemma {:induction false} DecimalRoundTrip(n: nat)
    ensures DecimalValue(NatToDecimal(n)) == n
    decreases n
  {
    if n >= 10 {
      var s := NatToDecimal(n);
      DecimalRoundTrip(n / 10);
      assert s[..|s| - 1] == NatToDecimal(n / 10);
    }
  }
}

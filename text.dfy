/**
 * The handful of Python `str` operations the engine relies on: `lower()`, `strip()`,
 * the substring test `k in s`, the ordering `sorted()` uses, and `str()` of an int.
 */
module Text {

  // ---------------------------------------------------------------- lower()

  function LowerChar(c: char): char {
    if 'A' <= c <= 'Z' then (c as int - 'A' as int + 'a' as int) as char else c
  }

  /** `s.lower()`, for the ASCII letters. */
  function Lower(s: string): (r: string)
    ensures |r| == |s|
    ensures forall i :: 0 <= i < |s| ==> r[i] == LowerChar(s[i])
  {
    if s == [] then [] else [LowerChar(s[0])] + Lower(s[1..])
  }

  /** Text without upper-case ASCII letters is its own lower-case form. */
  lemma LowerOfLower(s: string)
    requires forall i :: 0 <= i < |s| ==> !('A' <= s[i] <= 'Z')
    ensures Lower(s) == s
  {
  }

  // ---------------------------------------------------------------- strip()

  /** The whitespace characters of Python's `str.isspace` below U+0100. */
  predicate IsSpace(c: char) {
    0x09 <= c as int <= 0x0D || 0x1C <= c as int <= 0x20 || c as int == 0x85 || c as int == 0xA0
  }

  function StripLeft(s: string): (r: string)
    ensures |r| <= |s| && r == s[|s| - |r|..]
    ensures forall k :: 0 <= k < |s| - |r| ==> IsSpace(s[k])
    ensures r == [] || !IsSpace(r[0])
  {
    if s != [] && IsSpace(s[0]) then
      var r := StripLeft(s[1..]);
      assert s[1..][|s| - 1 - |r|..] == s[|s| - |r|..];
      assert forall k :: 1 <= k < |s| - |r| ==> s[k] == s[1..][k - 1];
      r
    else s
  }

  function StripRight(s: string): (r: string)
    ensures |r| <= |s| && r == s[..|r|]
    ensures forall k :: |r| <= k < |s| ==> IsSpace(s[k])
    ensures r == [] || !IsSpace(r[|r| - 1])
  {
    if s != [] && IsSpace(s[|s| - 1]) then
      var r := StripRight(s[..|s| - 1]);
      assert s[..|s| - 1][..|r|] == s[..|r|];
      r
    else s
  }

  /** `s.strip()`: `s` without its leading and trailing whitespace. */
  function Strip(s: string): (r: string)
    ensures |r| <= |s|
    ensures r == [] || (!IsSpace(r[0]) && !IsSpace(r[|r| - 1]))
  {
    var l := StripLeft(s);
    var r := StripRight(l);
    assert r == [] || !IsSpace(r[0]) by {
      if r != [] { assert r[0] == l[0]; }
    }
    r
  }

  /** What `Strip` removes is whitespace only: the result is the infix of `s` between two blank runs. */
  lemma StripInfix(s: string)
    ensures var r := Strip(s);
      exists i :: 0 <= i <= |s| - |r| && r == s[i..i + |r|] && Blank(s[..i]) && Blank(s[i + |r|..])
  {
    var l := StripLeft(s);
    BetweenBlanks(s, l, StripRight(l));
  }

  /** A blank-prefixed suffix `l` of `s`, cut down to a prefix `r` before a blank run, is an infix of `s`. */
  lemma BetweenBlanks(s: string, l: string, r: string)
    requires |l| <= |s| && l == s[|s| - |l|..]
    requires forall k :: 0 <= k < |s| - |l| ==> IsSpace(s[k])
    requires |r| <= |l| && r == l[..|r|]
    requires forall k :: |r| <= k < |l| ==> IsSpace(l[k])
    ensures exists i :: 0 <= i <= |s| - |r| && r == s[i..i + |r|] && Blank(s[..i]) && Blank(s[i + |r|..])
  {
    var i := |s| - |l|;
    assert r == s[i..i + |r|] by {
      assert l[..|r|] == s[i..i + |r|];
    }
    assert Blank(s[..i]) by {
      forall k | 0 <= k < i ensures IsSpace(s[..i][k]) { assert s[..i][k] == s[k]; }
    }
    var t := s[i + |r|..];
    assert Blank(t) by {
      forall k | 0 <= k < |t| ensures IsSpace(t[k]) { assert t[k] == l[|r| + k]; }
    }
  }

  ghost predicate Blank(s: string) {
    forall k :: 0 <= k < |s| ==> IsSpace(s[k])
  }

  /** Stripping twice is stripping once. */
  lemma StripIdempotent(s: string)
    ensures Strip(Strip(s)) == Strip(s)
  {
    var r := Strip(s);
    assert StripLeft(r) == r;
    assert StripRight(r) == r;
  }

  // ---------------------------------------------------------------- k in s

  /** `k` occurs in `s` starting at index `i`. */
  ghost predicate OccursAt(s: string, k: string, i: int) {
    0 <= i && i + |k| <= |s| && s[i..i + |k|] == k
  }

  /** Python's substring test `k in s`. */
  function Contains(s: string, k: string): (r: bool)
    ensures r <==> exists i :: OccursAt(s, k, i)
    decreases |s|
  {
    if |k| > |s| then false
    else if s[..|k|] == k then
      assert OccursAt(s, k, 0);
      true
    else
      var r := Contains(s[1..], k);
      forall i | i >= 0 ensures OccursAt(s[1..], k, i) <==> OccursAt(s, k, i + 1) { OccursShift(s, k, i); }
      assert !OccursAt(s, k, 0);
      assert forall i :: OccursAt(s, k, i) ==> i > 0 && OccursAt(s[1..], k, i - 1);
      r
  }

  /** An occurrence in the tail of `s` is an occurrence in `s` one place further on. */
  lemma OccursShift(s: string, k: string, i: int)
    requires s != [] && i >= 0
    ensures OccursAt(s[1..], k, i) <==> OccursAt(s, k, i + 1)
  {
    if 0 <= i && i + 1 + |k| <= |s| {
      assert s[1..][i..i + |k|] == s[i + 1..i + 1 + |k|];
    }
  }

  /** Whatever occurs inside an occurrence of `k` occurs in `s`. */
  lemma ContainsInfix(s: string, k: string, j: nat, n: nat)
    requires Contains(s, k) && j + n <= |k|
    ensures Contains(s, k[j..j + n])
  {
    var i :| OccursAt(s, k, i);
    var t := s[i..i + |k|];
    var u, v := t[j..j + n], s[i + j..i + j + n];
    forall q | 0 <= q < n ensures u[q] == v[q] {
      assert t[j + q] == s[i + j + q];
    }
    assert OccursAt(s, k[j..j + n], i + j);
  }

  lemma ContainsSelf(s: string)
    ensures Contains(s, s)
  {
    assert OccursAt(s, s, 0);
  }

  /** A text lacking some character of `k` does not contain `k`. */
  lemma MissingChar(s: string, k: string, c: char)
    requires c in k && c !in s
    ensures !Contains(s, k)
  {
  }

  /** `ContainsAny(s, keys)`: Python's `any(k in s for k in keys)`. */
  function ContainsAny(s: string, keys: seq<string>): (r: bool)
    ensures r <==> exists k :: k in keys && Contains(s, k)
  {
    if keys == [] then false
    else
      var r := Contains(s, keys[0]) || ContainsAny(s, keys[1..]);
      assert r ==> exists k :: k in keys && Contains(s, k) by {
        if Contains(s, keys[0]) {
          assert keys[0] in keys;
        } else if r {
          var k :| k in keys[1..] && Contains(s, k);
          assert k in keys;
        }
      }
      r
  }

  // ---------------------------------------------------------------- ordering of str

  /**
   * Python's `a < b` on `str`: lexicographic by code point, a proper prefix
   * coming first.
   */
  predicate Before(a: string, b: string)
    decreases |a|
  {
    if a == [] then b != []
    else if b == [] then false
    else if a[0] != b[0] then a[0] < b[0]
    else Before(a[1..], b[1..])
  }

  lemma {:induction false} BeforeIrreflexive(a: string)
    ensures !Before(a, a)
    decreases |a|
  {
    if a != [] { BeforeIrreflexive(a[1..]); }
  }

  lemma {:induction false} BeforeTotal(a: string, b: string)
    ensures a == b || Before(a, b) || Before(b, a)
    decreases |a|
  {
    if a != [] && b != [] && a[0] == b[0] {
      BeforeTotal(a[1..], b[1..]);
      if a[1..] == b[1..] {
        assert a == [a[0]] + a[1..] && b == [b[0]] + b[1..];
      }
    }
  }

  lemma {:induction false} BeforeTransitive(a: string, b: string, c: string)
    requires Before(a, b) && Before(b, c)
    ensures Before(a, c)
    decreases |a|
  {
    if a != [] && a[0] == b[0] && b[0] == c[0] {
      BeforeTransitive(a[1..], b[1..], c[1..]);
    }
  }

  /** `s` is in strictly ascending order, hence also free of duplicates. */
  ghost predicate Ascending(s: seq<string>) {
    forall i, j :: 0 <= i < j < |s| ==> Before(s[i], s[j])
  }

  /** Inserts `x` into an ascending sequence, leaving it alone if `x` is already there. */
  function Insert(x: string, s: seq<string>): (r: seq<string>)
    requires Ascending(s)
    ensures Ascending(r)
    ensures forall y :: y in r <==> y == x || y in s
  {
    if s == [] then [x]
    else if x == s[0] then s
    else if Before(x, s[0]) then
      assert forall j :: 0 < j < |s| ==> Before(x, s[j]) by {
        forall j | 0 < j < |s| ensures Before(x, s[j]) { BeforeTransitive(x, s[0], s[j]); }
      }
      [x] + s
    else
      BeforeTotal(x, s[0]);
      var t := Insert(x, s[1..]);
      assert forall y :: y in t ==> Before(s[0], y);
      [s[0]] + t
  }

  /** `sorted(set(names))`: the distinct names in ascending order. */
  function SortedDistinct(names: seq<string>): (r: seq<string>)
    ensures Ascending(r)
    ensures forall y :: y in r <==> y in names
  {
    if names == [] then []
    else Insert(names[|names| - 1], SortedDistinct(names[..|names| - 1]))
  }

  // ---------------------------------------------------------------- str(int)

  function DigitChar(d: nat): (c: char)
    requires d < 10
    ensures '0' <= c <= '9' && c as int - '0' as int == d
  {
    (d + '0' as int) as char
  }

  /** `str(n)` for a natural number: its decimal digits, most significant first. */
  function NatToString(n: nat): (s: string)
    ensures |s| >= 1 && forall k :: 0 <= k < |s| ==> '0' <= s[k] <= '9'
    decreases n
  {
    if n < 10 then [DigitChar(n)] else NatToString(n / 10) + [DigitChar(n % 10)]
  }

  /** `str(i)`: a minus sign before the digits of a negative number. */
  function IntToString(i: int): (s: string)
    ensures i < 0 ==> |s| >= 2 && s[0] == '-' && s[1..] == NatToString(-i)
    ensures i >= 0 ==> s == NatToString(i)
  {
    if i < 0 then "-" + NatToString(-i) else NatToString(i)
  }

  /** The number a string of decimal digits denotes. */
  function DigitsValue(s: string): int {
    if s == [] then 0 else DigitsValue(s[..|s| - 1]) * 10 + (s[|s| - 1] as int - '0' as int)
  }

  /** Reading back the digits of `str(n)` gives `n`. */
  lemma {:induction false} NatToStringRoundTrip(n: nat)
    ensures DigitsValue(NatToString(n)) == n
    decreases n
  {
    if n >= 10 {
      NatToStringRoundTrip(n / 10);
      var s := NatToString(n);
      assert s[..|s| - 1] == NatToString(n / 10);
    }
  }
}

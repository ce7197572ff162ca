/** String helpers with Python's meaning: prefixes, strip, slicing, decimal rendering. */
module Text {

  /** Python `s.startswith(p)`. */
  predicate StartsWith(s: string, p: string) {
    |p| <= |s| && s[..|p|] == p
  }

  /** Python `s[:n]` for a non-negative `n`. */
  function Take(s: string, n: nat): (r: string)
    ensures |r| == if n < |s| then n else |s|
    ensures r == s[..|r|]
  {
    if n < |s| then s[..n] else s
  }

  /** Python `s.rstrip(c)` for a one-character argument. */
  function RStrip(s: string, c: char): (r: string)
    ensures |r| <= |s| && r == s[..|r|]
    ensures r == [] || r[|r| - 1] != c
    ensures forall i :: |r| <= i < |s| ==> s[i] == c
  {
    if |s| > 0 && s[|s| - 1] == c then RStrip(s[..|s| - 1], c) else s
  }

  /** Python `s.lstrip(c)` for a one-character argument. */
  function LStrip(s: string, c: char): (r: string)
    ensures |r| <= |s| && r == s[|s| - |r|..]
    ensures r == [] || r[0] != c
    ensures forall i :: 0 <= i < |s| - |r| ==> s[i] == c
  {
    if |s| > 0 && s[0] == c then LStrip(s[1..], c) else s
  }

  /** Python `s.strip(c)` for a one-character argument: both ends. */
  function Strip(s: string, c: char): string {
    LStrip(RStrip(s, c), c)
  }

  /** `Strip` keeps a contiguous middle part of `s` and removes only copies of `c` around it. */
  lemma StripSpec(s: string, c: char)
    ensures exists i, j :: (0 <= i <= j <= |s| && Strip(s, c) == s[i..j]
        && (forall k :: 0 <= k < i ==> s[k] == c) && (forall k :: j <= k < |s| ==> s[k] == c))
  {
    var m := RStrip(s, c);
    var r := LStrip(m, c);
    var i, j := |m| - |r|, |m|;
    assert m == s[..j];
    assert r == s[i..j];
    forall k | 0 <= k < i ensures s[k] == c {
      assert s[k] == m[k];
    }
    assert 0 <= i <= j <= |s| && r == s[i..j]
      && (forall k :: 0 <= k < i ==> s[k] == c) && (forall k :: j <= k < |s| ==> s[k] == c);
  }

  /** What `Strip` keeps neither begins nor ends with `c`. */
  lemma StripEnds(s: string, c: char)
    ensures Strip(s, c) == [] || (Strip(s, c)[0] != c && Strip(s, c)[|Strip(s, c)| - 1] != c)
  {
    var m := RStrip(s, c);
    var r := LStrip(m, c);
    if r != [] {
      assert r[|r| - 1] == m[|m| - 1];
    }
  }

  /** `Strip` leaves nothing exactly when `s` is made of `c` only. */
  lemma StripEmptyIff(s: string, c: char)
    ensures Strip(s, c) == [] <==> forall k :: 0 <= k < |s| ==> s[k] == c
  {
    var m := RStrip(s, c);
    if Strip(s, c) == [] {
      forall k | 0 <= k < |s| ensures s[k] == c {
        if k < |m| { assert s[k] == m[k]; }
      }
    }
  }

  /** A single leading `c` before a string with no `c` at either end is all `Strip` removes. */
  lemma StripLeading(t: string, c: char)
    requires t != [] && t[0] != c && t[|t| - 1] != c
    ensures Strip([c] + t, c) == t
  {
    var s := [c] + t;
    assert s[|s| - 1] == t[|t| - 1];
    assert RStrip(s, c) == s;
    assert s[1..] == t;
  }

  /** Stripping leaves a string that has no `c` at either end as it is. */
  lemma StripNoop(s: string, c: char)
    requires s == [] || (s[0] != c && s[|s| - 1] != c)
    ensures Strip(s, c) == s
  {
  }

  /** The position of the first `c` in `s`, or |s| when there is none (Python `s.find(c)`, with
    * |s| for -1). */
  function IndexOf(s: string, c: char): (r: nat)
    ensures r <= |s| && (r < |s| ==> s[r] == c)
    ensures forall k :: 0 <= k < r ==> s[k] != c
  {
    if s == [] then 0 else if s[0] == c then 0 else 1 + IndexOf(s[1..], c)
  }

  /** Before the first `c` in `a + [c] + b` stands exactly `a` when `a` holds no `c`. */
  lemma {:induction false} IndexOfSplit(a: string, c: char, b: string)
    requires forall k :: 0 <= k < |a| ==> a[k] != c
    ensures IndexOf(a + [c] + b, c) == |a|
  {
    if a != [] {
      assert (a + [c] + b)[1..] == a[1..] + [c] + b;
      IndexOfSplit(a[1..], c, b);
    }
  }

  function DigitChar(d: nat): char
    requires d < 10
  {
    "0123456789"[d]
  }

  predicate IsDigit(ch: char) { '0' <= ch <= '9' }

  function DigitValue(ch: char): nat
    requires IsDigit(ch)
  {
    (ch as int - '0' as int) as nat
  }

  /** Python `str(n)` for a natural number. */
  function NatToString(n: nat): (r: string)
    ensures |r| > 0
    ensures forall i :: 0 <= i < |r| ==> IsDigit(r[i])
  {
    if n < 10 then [DigitChar(n)] else NatToString(n / 10) + [DigitChar(n % 10)]
  }

  /** Python `str(i)` for an integer: a minus sign before negative values. */
  function IntToString(i: int): string {
    if i < 0 then "-" + NatToString(-i) else NatToString(i)
  }

  function Pow10(w: nat): (p: nat)
    ensures p > 0
  {
    if w == 0 then 1 else 10 * Pow10(w - 1)
  }

  /** `n` written with exactly `w` decimal digits, zero-filled on the left (as strftime's `%m`). */
  function Digits(n: nat, w: nat): (r: string)
    ensures |r| == w
    ensures forall i :: 0 <= i < |r| ==> IsDigit(r[i])
  {
    if w == 0 then [] else Digits(n / 10, w - 1) + [DigitChar(n % 10)]
  }

  /** The number a string of decimal digits denotes. */
  function DigitsValue(s: string): nat
    requires forall i :: 0 <= i < |s| ==> IsDigit(s[i])
  {
    if s == [] then 0 else 10 * DigitsValue(s[..|s| - 1]) + DigitValue(s[|s| - 1])
  }

  lemma {:induction false} DigitsRoundTrip(n: nat, w: nat)
    requires n < Pow10(w)
    ensures DigitsValue(Digits(n, w)) == n
  {
    if w > 0 {
      var s := Digits(n, w);
      assert s[..|s| - 1] == Digits(n / 10, w - 1);
      DigitsRoundTrip(n / 10, w - 1);
      assert DigitValue(s[|s| - 1]) == n % 10;
    }
  }
}

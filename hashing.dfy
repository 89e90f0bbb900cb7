/**
 * `StreamingServiceDB.hashString`: the 32-bit string hash of Java's
 * `String.hashCode` (h := 31 * h + code unit, wrapped to a signed 32-bit
 * integer after every step), printed as the absolute value in base 36.
 */
module Hashing {
  import opened Strings

  const TwoTo31: int := 0x8000_0000
  const TwoTo32: int := 0x1_0000_0000

  /** JavaScript's ToInt32: the signed 32-bit integer congruent to `x` modulo 2^32. */
  function Int32(x: int): (r: int)
    ensures -TwoTo31 <= r < TwoTo31
  {
    (x + TwoTo31) % TwoTo32 - TwoTo31
  }

  /** ToInt32 only sees `x` modulo 2^32. */
  lemma Int32Periodic(x: int, k: int)
    ensures Int32(x + k * TwoTo32) == Int32(x)
  {
    var q := (x + TwoTo31) / TwoTo32;
    var r := (x + TwoTo31) % TwoTo32;
    assert x + k * TwoTo32 + TwoTo31 == (q + k) * TwoTo32 + r;
  }

  lemma Int32Step(x: int, c: int)
    ensures Int32(31 * Int32(x) + c) == Int32(31 * x + c)
  {
    var k := (x + TwoTo31) / TwoTo32;
    assert Int32(x) == x - k * TwoTo32;
    assert 31 * Int32(x) + c == (31 * x + c) + (-31 * k) * TwoTo32;
    Int32Periodic(31 * x + c, -31 * k);
  }

  /** `((h << 5) - h + c) & ((h << 5) - h + c)` is ToInt32(31 * h + c). */
  lemma ShiftStep(h: int, c: int)
    ensures Int32(Int32(h * 32) - h + c) == Int32(31 * h + c)
  {
    var k := (h * 32 + TwoTo31) / TwoTo32;
    assert Int32(h * 32) == h * 32 - k * TwoTo32;
    assert Int32(h * 32) - h + c == (31 * h + c) + (-k) * TwoTo32;
    Int32Periodic(31 * h + c, -k);
  }

  /** The hash as the source's loop computes it, one code unit at a time. */
  function JavaHash(s: string): (h: int)
    ensures -TwoTo31 <= h < TwoTo31
  {
    if s == [] then 0 else Int32(31 * JavaHash(s[..|s| - 1]) + s[|s| - 1] as int)
  }

  /** The same polynomial without any wrap-around: s[0]*31^(n-1) + ... + s[n-1]. */
  function Polynomial(s: string): int {
    if s == [] then 0 else 31 * Polynomial(s[..|s| - 1]) + s[|s| - 1] as int
  }

  /** Wrapping after every step equals wrapping once at the end. */
  lemma {:induction false} JavaHashIsWrappedPolynomial(s: string)
    ensures JavaHash(s) == Int32(Polynomial(s))
  {
    if s == [] {
      assert Int32(0) == 0;
    } else {
      var init := s[..|s| - 1];
      JavaHashIsWrappedPolynomial(init);
      Int32Step(Polynomial(init), s[|s| - 1] as int);
    }
  }

  const Base36Digits: string := "0123456789abcdefghijklmnopqrstuvwxyz"

  function Base36Char(d: nat): char
    requires d < 36
  {
    Base36Digits[d]
  }

  predicate IsBase36Char(c: char) {
    ('0' <= c <= '9') || ('a' <= c <= 'z')
  }

  function Base36Value(c: char): (d: nat)
    requires IsBase36Char(c)
    ensures d < 36
  {
    if '0' <= c <= '9' then c as int - '0' as int else c as int - 'a' as int + 10
  }

  /** `n.toString(36)` for a non-negative integer. */
  function ToBase36(n: nat): (r: string)
    ensures |r| > 0 && forall i :: 0 <= i < |r| ==> IsBase36Char(r[i])
    decreases n
  {
    if n < 36 then [Base36Char(n)] else ToBase36(n / 36) + [Base36Char(n % 36)]
  }

  /** Reads a base-36 numeral back (the inverse of `ToBase36`). */
  function FromBase36(s: string): nat
    requires forall i :: 0 <= i < |s| ==> IsBase36Char(s[i])
  {
    if s == [] then 0 else 36 * FromBase36(s[..|s| - 1]) + Base36Value(s[|s| - 1])
  }

  lemma Base36CharValue(d: nat)
    requires d < 36
    ensures Base36Value(Base36Char(d)) == d
  {
  }

  lemma {:induction false} Base36RoundTrip(n: nat)
    ensures FromBase36(ToBase36(n)) == n
    decreases n
  {
    var r := ToBase36(n);
    if n < 36 {
      Base36CharValue(n);
    } else {
      Base36RoundTrip(n / 36);
      Base36CharValue(n % 36);
      assert r[..|r| - 1] == ToBase36(n / 36);
    }
  }

  function Abs(x: int): nat {
    if x < 0 then -x else x
  }

  /** What `hashString(s)` returns. */
  function HashText(s: string): string {
    ToBase36(Abs(JavaHash(s)))
  }

  /**
   * `hashString`: the loop of the source, proved to compute the wrapped
   * polynomial hash and to print its magnitude in base 36.
   */
  method HashString(s: string) returns (r: string)
    ensures r == HashText(s)
    ensures r == ToBase36(Abs(Int32(Polynomial(s))))
    ensures FromBase36(r) <= TwoTo31
  {
    var hash := 0;
    var i := 0;
    while i < |s|
      invariant 0 <= i <= |s|
      invariant hash == JavaHash(s[..i])
    {
      assert s[..i + 1][..i] == s[..i];
      var shifted := Int32(hash * 32);              // hash << 5
      ShiftStep(hash, s[i] as int);
      hash := Int32(shifted - hash + s[i] as int);  // (... - hash + char) & hash
      i := i + 1;
    }
    assert s[..i] == s;
    r := ToBase36(Abs(hash));
    JavaHashIsWrappedPolynomial(s);
    Base36RoundTrip(Abs(hash));
  }

  lemma EmptyHash()
    ensures HashText("") == "0"
  {
  }
}

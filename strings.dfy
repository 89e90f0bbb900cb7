/**
 * String helpers shared by every component: prefix and substring tests
 * (`startsWith`, `includes`), the `www.` normalisation, JavaScript's `trim`,
 * decimal digits and `Number` on digit strings, ASCII lower-casing, splitting,
 * and order-preserving de-duplication (`[...new Set(xs)]`).
 *
 * Strings are sequences of Unicode code points; JavaScript counts UTF-16 code
 * units, which differ only for characters outside the Basic Multilingual Plane.
 */
module Strings {
  import opened Wrappers

  // ---------------------------------------------------------------- prefixes and substrings

  predicate IsPrefix(p: string, s: string) {
    |p| <= |s| && s[..|p|] == p
  }

  /** `s.includes(sub)`: `sub` occurs in `s` at some position (the empty string occurs everywhere). */
  predicate Contains(s: string, sub: string)
    decreases |s|
  {
    IsPrefix(sub, s) || (|s| > 0 && Contains(s[1..], sub))
  }

  /** `sub` occurs in `s` starting at index `i`. */
  predicate OccursAt(s: string, sub: string, i: nat) {
    i + |sub| <= |s| && s[i..i + |sub|] == sub
  }

  /** The recursive `Contains` agrees with "there is a position where `sub` occurs". */
  lemma {:induction false} ContainsIff(s: string, sub: string)
    ensures Contains(s, sub) <==> exists i: nat :: OccursAt(s, sub, i)
    decreases |s|
  {
    if IsPrefix(sub, s) {
      assert OccursAt(s, sub, 0);
    } else if |s| > 0 {
      ContainsIff(s[1..], sub);
      if Contains(s[1..], sub) {
        var i: nat :| OccursAt(s[1..], sub, i);
        assert s[1..][i..i + |sub|] == s[i + 1..i + 1 + |sub|];
        assert OccursAt(s, sub, i + 1);
      } else {
        forall i: nat | OccursAt(s, sub, i) ensures i > 0 && OccursAt(s[1..], sub, i - 1) {
          OccursLater(s, sub, i);
        }
      }
    }
  }

  /** An occurrence that is not a prefix is an occurrence in the tail. */
  lemma OccursLater(s: string, sub: string, i: nat)
    requires OccursAt(s, sub, i) && !IsPrefix(sub, s)
    ensures i > 0 && OccursAt(s[1..], sub, i - 1)
  {
    if i > 0 {
      assert s[1..][i - 1..i - 1 + |sub|] == s[i..i + |sub|];
    }
  }

  lemma ContainsEmpty(s: string)
    ensures Contains(s, "")
  {
    assert IsPrefix("", s);
  }

  lemma ContainsSelf(s: string)
    ensures Contains(s, s)
  {
    assert IsPrefix(s, s);
  }

  /** Some element of `subs` occurs in `s` (`subs.some(p => s.includes(p))`). */
  predicate ContainsAny(s: string, subs: seq<string>) {
    exists i :: 0 <= i < |subs| && Contains(s, subs[i])
  }

  // ---------------------------------------------------------------- the `www.` prefix

  const Www: string := "www."

  /**
   * `d.replace(/^www\./, '')`: removes exactly one leading "www.", and only
   * at the very start of the string.
   */
  function StripWww(d: string): (r: string)
    ensures IsPrefix(Www, d) ==> d == Www + r
    ensures !IsPrefix(Www, d) ==> r == d
  {
    if IsPrefix(Www, d) then d[|Www|..] else d
  }

  lemma StripWwwOnce(d: string)
    ensures StripWww(Www + d) == d
  {
    assert IsPrefix(Www, Www + d);
    assert (Www + d)[|Www|..] == d;
  }

  /**
   * Stripping is idempotent except on a doubled prefix: "www.www.tv"
   * becomes "www.tv", which a second strip turns into "tv".
   */
  lemma StripWwwIdempotence(d: string)
    ensures !IsPrefix(Www, StripWww(d)) ==> StripWww(StripWww(d)) == StripWww(d)
    ensures StripWww(StripWww("www.www.tv")) != StripWww("www.www.tv")
  {
    StripWwwOnce("www.tv");
    assert "www.www.tv" == Www + "www.tv";
    StripWwwOnce("tv");
    assert "www.tv" == Www + "tv";
  }

  /** Every suffix of a string occurs in it. */
  lemma ContainsSuffix(s: string, k: nat)
    requires k <= |s|
    ensures Contains(s, s[k..])
  {
    ContainsIff(s, s[k..]);
    assert OccursAt(s, s[k..], k);
  }

  /** What stripping leaves is a suffix of the domain, so the domain contains it. */
  lemma ContainsStripped(d: string)
    ensures Contains(d, StripWww(d)) && Contains(d, StripWww(StripWww(d)))
  {
    if IsPrefix(Www, d) {
      ContainsSuffix(d, 4);
      if IsPrefix(Www, d[4..]) {
        assert d[4..][4..] == d[8..];
        ContainsSuffix(d, 8);
      }
    } else {
      assert d[0..] == d;
      ContainsSuffix(d, 0);
    }
  }

  // ---------------------------------------------------------------- whitespace and trim

  /**
   * JavaScript's WhiteSpace and LineTerminator code points: the set that
   * `String.prototype.trim` removes and that the regular-expression class `\s` matches.
   */
  predicate IsSpace(c: char) {
    c == '\t' || c == '\n' || c == '\U{000B}' || c == '\U{000C}' || c == '\r' || c == ' '
    || c == '\U{00A0}' || c == '\U{1680}' || ('\U{2000}' <= c <= '\U{200A}')
    || c == '\U{2028}' || c == '\U{2029}' || c == '\U{202F}' || c == '\U{205F}'
    || c == '\U{3000}' || c == '\U{FEFF}'
  }

  /** The line terminators, which the regular-expression `.` does not match. */
  predicate IsLineTerminator(c: char) {
    c == '\n' || c == '\r' || c == '\U{2028}' || c == '\U{2029}'
  }

  function TrimStart(s: string): (r: string)
    ensures |r| <= |s| && r == s[|s| - |r|..]
    ensures r == [] || !IsSpace(r[0])
  {
    if |s| > 0 && IsSpace(s[0]) then TrimStart(s[1..]) else s
  }

  /** What `TrimStart` drops is whitespace. */
  lemma {:induction false} TrimStartDropsSpace(s: string)
    ensures forall k :: 0 <= k < |s| - |TrimStart(s)| ==> IsSpace(s[k])
  {
    if |s| > 0 && IsSpace(s[0]) {
      TrimStartDropsSpace(s[1..]);
    }
  }

  function TrimEnd(s: string): (r: string)
    ensures |r| <= |s| && r == s[..|r|]
    ensures r == [] || !IsSpace(r[|r| - 1])
  {
    if |s| > 0 && IsSpace(s[|s| - 1]) then TrimEnd(s[..|s| - 1]) else s
  }

  /** What `TrimEnd` drops is whitespace. */
  lemma {:induction false} TrimEndDropsSpace(s: string)
    ensures forall k :: |TrimEnd(s)| <= k < |s| ==> IsSpace(s[k])
  {
    if |s| > 0 && IsSpace(s[|s| - 1]) {
      TrimEndDropsSpace(s[..|s| - 1]);
    }
  }

  /** `s.trim()`: `s` without the whitespace at both ends. */
  function Trim(s: string): (r: string)
    ensures |r| <= |s|
    ensures r == [] || (!IsSpace(r[0]) && !IsSpace(r[|r| - 1]))
  {
    TrimStart(TrimEnd(s))
  }

  /**
   * What `Trim` keeps is a slice of `s`, and everything it drops on
   * either side is whitespace.
   */
  lemma TrimSlice(s: string)
    ensures exists i, j ::
      && 0 <= i <= j <= |s| && Trim(s) == s[i..j]
      && (forall k :: 0 <= k < i ==> IsSpace(s[k]))
      && (forall k :: j <= k < |s| ==> IsSpace(s[k]))
  {
    var e := TrimEnd(s);
    var r := TrimStart(e);
    SuffixOfPrefix(s, e, r);
    TrimEndDropsSpace(s);
    TrimStartDropsSpace(e);
    var i, j := |e| - |r|, |e|;
    assert forall k :: 0 <= k < i ==> IsSpace(s[k]) by {
      forall k | 0 <= k < i ensures IsSpace(s[k]) {
        assert s[k] == e[k];
      }
    }
    assert 0 <= i <= j <= |s| && Trim(s) == s[i..j];
  }

  /** A suffix of a prefix is a slice. */
  lemma SuffixOfPrefix(s: string, e: string, r: string)
    requires |e| <= |s| && e == s[..|e|]
    requires |r| <= |e| && r == e[|e| - |r|..]
    ensures r == s[|e| - |r|..|e|]
  {
    assert forall k :: 0 <= k < |r| ==> r[k] == s[|e| - |r| + k];
  }

  /** Text that neither starts nor ends with whitespace is its own trim. */
  lemma TrimKeeps(s: string)
    requires s == [] || (!IsSpace(s[0]) && !IsSpace(s[|s| - 1]))
    ensures Trim(s) == s
  {
  }

  /** Whitespace-free text is its own trim. */
  lemma TrimNoSpace(s: string)
    requires forall i :: 0 <= i < |s| ==> !IsSpace(s[i])
    ensures Trim(s) == s
  {
  }

  // ---------------------------------------------------------------- decimal digits

  predicate IsDigit(c: char) {
    '0' <= c <= '9'
  }

  predicate AllDigits(s: string) {
    forall i :: 0 <= i < |s| ==> IsDigit(s[i])
  }

  function DigitValue(c: char): nat
    requires IsDigit(c)
  {
    c as int - '0' as int
  }

  function DigitChar(d: nat): (c: char)
    requires d < 10
    ensures IsDigit(c) && DigitValue(c) == d
  {
    ('0' as int + d) as char
  }

  /** The value of a string of decimal digits, most significant first ("" is 0). */
  function DigitsValue(s: string): nat
    requires AllDigits(s)
  {
    if s == [] then 0 else 10 * DigitsValue(s[..|s| - 1]) + DigitValue(s[|s| - 1])
  }

  /** `n.toString()` for a non-negative integer: no leading zeros, at least one digit. */
  function NatToString(n: nat): (r: string)
    ensures |r| > 0 && AllDigits(r)
    ensures |r| > 1 ==> r[0] != '0'
    ensures n < 10 ==> |r| == 1
    ensures 10 <= n < 100 ==> |r| == 2
    decreases n
  {
    if n < 10 then [DigitChar(n)] else NatToString(n / 10) + [DigitChar(n % 10)]
  }

  /** `n.toString()` for any integer. */
  function IntToString(n: int): string {
    if n < 0 then "-" + NatToString(-n) else NatToString(n)
  }

  lemma {:induction false} NatToStringValue(n: nat)
    ensures DigitsValue(NatToString(n)) == n
    decreases n
  {
    if n >= 10 {
      NatToStringValue(n / 10);
      var s := NatToString(n);
      assert s[..|s| - 1] == NatToString(n / 10);
    }
  }

  /**
   * `Number(s)` restricted to the inputs this model admits: the empty string
   * is 0, a string of decimal digits is its value, anything else is NaN (`None`).
   */
  function NumberOf(s: string): (r: Option<nat>)
    ensures r.Some? <==> AllDigits(s)
  {
    if AllDigits(s) then Some(DigitsValue(s)) else None
  }

  // ---------------------------------------------------------------- case

  function LowerChar(c: char): (r: char)
    ensures 'a' <= r <= 'z' <==> ('a' <= c <= 'z' || 'A' <= c <= 'Z')
  {
    if 'A' <= c <= 'Z' then (c as int - 'A' as int + 'a' as int) as char else c
  }

  /** `s.toLowerCase()` on the ASCII letters; every other character is kept. */
  function ToLower(s: string): (r: string)
    ensures |r| == |s|
    ensures forall i :: 0 <= i < |s| ==> r[i] == LowerChar(s[i])
  {
    seq(|s|, i requires 0 <= i < |s| => LowerChar(s[i]))
  }

  /**
   * Lower-casing leaves no upper-case letter, keeps every character that is
   * not one, and lower-casing again changes nothing.
   */
  lemma ToLowerShape(s: string)
    ensures forall i :: 0 <= i < |s| ==> !('A' <= ToLower(s)[i] <= 'Z')
    ensures forall i :: 0 <= i < |s| && !('A' <= s[i] <= 'Z') ==> ToLower(s)[i] == s[i]
    ensures forall i :: 0 <= i < |s| && 'A' <= s[i] <= 'Z' ==> 'a' <= ToLower(s)[i] <= 'z'
    ensures ToLower(ToLower(s)) == ToLower(s)
  {
    var r := ToLower(s);
    forall i | 0 <= i < |s| ensures !('A' <= r[i] <= 'Z') {
      assert r[i] == LowerChar(s[i]);
    }
    assert ToLower(r) == r by {
      forall i | 0 <= i < |r| ensures ToLower(r)[i] == r[i] {
        assert !('A' <= r[i] <= 'Z');
      }
    }
  }

  // ---------------------------------------------------------------- splitting

  /** Index of the first `c` in `s`, if any. */
  function IndexOf(s: string, c: char): (r: Option<nat>)
    ensures r.Some? ==> r.value < |s| && s[r.value] == c && c !in s[..r.value]
    ensures r.None? ==> c !in s
  {
    if |s| == 0 then None
    else if s[0] == c then Some(0)
    else match IndexOf(s[1..], c)
      case None => None
      case Some(i) => Some(i + 1)
  }

  /** `s.split(c)` for a one-character separator: always at least one piece. */
  function Split(s: string, c: char): (r: seq<string>)
    ensures |r| >= 1
    ensures forall k :: 0 <= k < |r| ==> c !in r[k]
    decreases |s|
  {
    match IndexOf(s, c)
    case None => [s]
    case Some(i) => [s[..i]] + Split(s[i + 1..], c)
  }

  lemma SplitNoSeparator(s: string, c: char)
    requires c !in s
    ensures Split(s, c) == [s]
  {
  }

  lemma SplitJoin(a: string, b: string, c: char)
    requires c !in a
    ensures Split(a + [c] + b, c) == [a] + Split(b, c)
  {
    var s := a + [c] + b;
    assert s[|a|] == c && s[..|a|] == a;
    assert IndexOf(s, c) == Some(|a|) by {
      assert c in s;
      assert s[..|a|] == a;
    }
    assert s[|a| + 1..] == b;
  }

  // ---------------------------------------------------------------- duplicates

  predicate NoDup<T(==)>(s: seq<T>) {
    forall i, j :: 0 <= i < j < |s| ==> s[i] != s[j]
  }

  /** `[...new Set(s)]`: the first occurrence of every element, in order. */
  function Dedup<T(==)>(s: seq<T>): (r: seq<T>)
    ensures NoDup(r)
    ensures forall i :: 0 <= i < |r| ==> r[i] in s
    ensures forall i :: 0 <= i < |s| ==> s[i] in r
    ensures |r| <= |s|
  {
    if s == [] then []
    else
      var rest := Dedup(s[..|s| - 1]);
      if s[|s| - 1] in rest then rest else rest + [s[|s| - 1]]
  }

  lemma DedupMembers<T>(s: seq<T>)
    ensures forall x :: x in Dedup(s) <==> x in s
  {
    var r := Dedup(s);
    forall x | x in s ensures x in r {
      var i :| 0 <= i < |s| && s[i] == x;
    }
    forall x | x in r ensures x in s {
      var i :| 0 <= i < |r| && r[i] == x;
    }
  }

  /** Adding one element to a set keeps its order and appends the element if it is new. */
  lemma DedupSnoc<T>(s: seq<T>, x: T)
    ensures Dedup(s + [x]) == if x in Dedup(s) then Dedup(s) else Dedup(s) + [x]
  {
    assert (s + [x])[..|s|] == s;
  }

  /** De-duplicating a duplicate-free sequence changes nothing. */
  lemma {:induction false} DedupNoDup<T>(s: seq<T>)
    requires NoDup(s)
    ensures Dedup(s) == s
  {
    if s != [] {
      var init := s[..|s| - 1];
      assert NoDup(init);
      DedupNoDup(init);
      assert s[|s| - 1] !in init;
      assert init + [s[|s| - 1]] == s;
    }
  }

  /**
   * De-duplicating `a + b` keeps a duplicate-free `a` as its prefix: existing
   * entries come first and keep their order, then the new ones.
   */
  lemma {:induction false} DedupKeepsPrefix<T>(a: seq<T>, b: seq<T>)
    requires NoDup(a)
    ensures |Dedup(a + b)| >= |a| && Dedup(a + b)[..|a|] == a
    decreases |b|
  {
    if b == [] {
      assert a + b == a;
      DedupNoDup(a);
    } else {
      var b', x := b[..|b| - 1], b[|b| - 1];
      assert a + b == (a + b') + [x];
      DedupKeepsPrefix(a, b');
      DedupSnoc(a + b', x);
      var rest := Dedup(a + b');
      assert (rest + [x])[..|a|] == rest[..|a|];
    }
  }
}

/**
 * Durations as text: how `StreamingServiceDetector.detectMovieContext`
 * reads a duration element ("H:MM:SS", "MM:SS" or a bare number of
 * minutes), how `MovieDetector.formatDuration` prints one, and the
 * `digits:digits` shape that `analyzePageSelectors` and the standalone
 * detector's text fallbacks look for. Durations are whole seconds.
 */
module Durations {
  import opened Wrappers
  import opened Strings

  // ---------------------------------------------------------------- reading "H:M:S"

  /**
   * `Number` of every piece of `text.split(':')`, or `None` as soon as one is NaN.
   */
  function PartValues(parts: seq<string>): (r: Option<seq<nat>>)
    ensures r.Some? ==> |r.value| == |parts|
    ensures r.Some? <==> forall i :: 0 <= i < |parts| ==> AllDigits(parts[i])
    ensures r.Some? ==> forall i :: 0 <= i < |parts| ==> r.value[i] == DigitsValue(parts[i])
  {
    if parts == [] then Some([])
    else
      var rest := PartValues(parts[1..]);
      if NumberOf(parts[0]).Some? && rest.Some? then Some([DigitsValue(parts[0])] + rest.value)
      else
        assert !AllDigits(parts[0]) || exists i :: 0 <= i < |parts| - 1 && !AllDigits(parts[1..][i]);
        None
  }

  /**
   * The number of seconds `detectMovieContext` reads from a (trimmed)
   * duration text: three pieces are hours, minutes and seconds, two are
   * minutes and seconds, and a text without `:` that `Number` accepts is a
   * count of minutes. Every other text, including NaN pieces, gives 0, which
   * the caller treats as "no duration".
   */
  function DurationTextSeconds(text: string): nat {
    var parts := Split(text, ':');
    if |parts| == 3 then
      match PartValues(parts)
      case Some(v) => v[0] * 3600 + v[1] * 60 + v[2]
      case None => 0
    else if |parts| == 2 then
      match PartValues(parts)
      case Some(v) => v[0] * 60 + v[1]
      case None => 0
    else
      match NumberOf(text)
      case Some(minutes) => minutes * 60
      case None => 0
  }

  /** Digit strings hold no separator and no whitespace. */
  lemma DigitsPlain(t: string)
    requires AllDigits(t)
    ensures ':' !in t
    ensures forall i :: 0 <= i < |t| ==> !IsSpace(t[i])
  {
    forall i | 0 <= i < |t| ensures t[i] != ':' && !IsSpace(t[i]) {
      assert IsDigit(t[i]);
    }
  }

  /** "h:m:s" with three digit pieces is read as hours, minutes and seconds. */
  lemma ReadThree(a: string, b: string, c: string)
    requires AllDigits(a) && AllDigits(b) && AllDigits(c)
    ensures DurationTextSeconds(a + ":" + b + ":" + c) == DigitsValue(a) * 3600 + DigitsValue(b) * 60 + DigitsValue(c)
  {
    DigitsPlain(a);
    DigitsPlain(b);
    DigitsPlain(c);
    SplitThree(a, b, c);
    var parts := Split(a + ":" + b + ":" + c, ':');
    var v := PartValues(parts).value;
    assert v[0] == DigitsValue(a) && v[1] == DigitsValue(b) && v[2] == DigitsValue(c);
  }

  /** Three colon-free pieces joined with colons split back into those pieces. */
  lemma SplitThree(a: string, b: string, c: string)
    requires ':' !in a && ':' !in b && ':' !in c
    ensures Split(a + ":" + b + ":" + c, ':') == [a, b, c]
  {
    assert a + ":" + b + ":" + c == a + [':'] + (b + [':'] + c);
    SplitJoin(a, b + [':'] + c, ':');
    SplitJoin(b, c, ':');
    SplitNoSeparator(c, ':');
  }

  /** "m:s" with two digit pieces is read as minutes and seconds. */
  lemma ReadTwo(a: string, b: string)
    requires AllDigits(a) && AllDigits(b)
    ensures DurationTextSeconds(a + ":" + b) == DigitsValue(a) * 60 + DigitsValue(b)
  {
    DigitsPlain(a);
    DigitsPlain(b);
    var t := a + ":" + b;
    assert t == a + [':'] + b;
    SplitJoin(a, b, ':');
    SplitNoSeparator(b, ':');
    var parts := Split(t, ':');
    assert parts == [a, b];
    var v := PartValues(parts).value;
    assert v[0] == DigitsValue(a) && v[1] == DigitsValue(b);
  }

  lemma Digits1()
    ensures AllDigits("1") && DigitsValue("1") == 1
  {
  }

  lemma Digits02(d: char)
    requires '0' <= d <= '9'
    ensures AllDigits(['0', d]) && DigitsValue(['0', d]) == DigitValue(d)
  {
    assert ['0', d][..1] == "0";
    assert "0"[..0] == [];
  }

  lemma ReadsHoursMinutesSeconds()
    ensures DurationTextSeconds("1:02:03") == 3723
  {
    Digits02('2');
    Digits02('3');
    ReadThree("1", "02", "03");
    assert "1" + ":" + "02" + ":" + "03" == "1:02:03";
  }

  lemma ReadsMinutesSeconds()
    ensures DurationTextSeconds("5:30") == 330
  {
    assert DigitsValue("30") == 30 by { assert "30"[..1] == "3"; }
    ReadTwo("5", "30");
    assert "5" + ":" + "30" == "5:30";
  }

  /** A bare number counts minutes, not seconds. */
  lemma ReadsBareMinutes()
    ensures DurationTextSeconds("10") == 600
  {
    SplitNoSeparator("10", ':');
    assert DigitsValue("10") == 10 by { assert "10"[..1] == "1"; }
  }

  lemma NonNumericReadsZero()
    ensures DurationTextSeconds("live") == 0
  {
    SplitNoSeparator("live", ':');
    assert !IsDigit("live"[0]);
  }

  // ---------------------------------------------------------------- printing, `formatDuration`

  /** `num.toString().padStart(2, '0')`. */
  function Pad2(k: nat): (r: string)
    ensures |r| >= 2 && AllDigits(r)
    ensures k < 100 ==> |r| == 2
  {
    var t := NatToString(k);
    if |t| >= 2 then t else ['0'] + t
  }

  /**
   * `formatDuration(seconds)`: "N/A" for 0; otherwise `h:mm:ss` when there
   * is at least one whole hour, else `m:ss`.
   */
  function FormatDuration(seconds: nat): string {
    if seconds == 0 then "N/A"
    else
      var h := seconds / 3600;
      var m := (seconds % 3600) / 60;
      var s := seconds % 60;
      if h > 0 then NatToString(h) + ":" + Pad2(m) + ":" + Pad2(s)
      else NatToString(m) + ":" + Pad2(s)
  }

  /**
   * What `formatDuration` prints: "N/A" for 0; otherwise hours, then
   * minutes and seconds padded to two digits when there is a whole hour,
   * and minutes, then seconds padded to two digits, when there is not.
   */
  lemma FormatDurationShape(n: nat)
    ensures n == 0 ==> FormatDuration(n) == "N/A"
    ensures n >= 3600 ==> var parts := Split(FormatDuration(n), ':');
      && |parts| == 3 && AllDigits(parts[0]) && AllDigits(parts[1]) && AllDigits(parts[2])
      && DigitsValue(parts[0]) == n / 3600
      && |parts[1]| == 2 && DigitsValue(parts[1]) == (n % 3600) / 60
      && |parts[2]| == 2 && DigitsValue(parts[2]) == n % 60
    ensures 0 < n < 3600 ==> var parts := Split(FormatDuration(n), ':');
      && |parts| == 2 && AllDigits(parts[0]) && AllDigits(parts[1])
      && DigitsValue(parts[0]) == n / 60
      && |parts[1]| == 2 && DigitsValue(parts[1]) == n % 60
  {
    if n >= 3600 {
      var hs, ms, ss := NatToString(n / 3600), Pad2((n % 3600) / 60), Pad2(n % 60);
      assert FormatDuration(n) == hs + ":" + ms + ":" + ss;
      DigitsPlain(hs);
      DigitsPlain(ms);
      DigitsPlain(ss);
      SplitThree(hs, ms, ss);
      NatToStringValue(n / 3600);
      Pad2Value((n % 3600) / 60);
      Pad2Value(n % 60);
    } else if n > 0 {
      var ms, ss := NatToString((n % 3600) / 60), Pad2(n % 60);
      assert FormatDuration(n) == ms + [':'] + ss;
      DigitsPlain(ms);
      DigitsPlain(ss);
      SplitJoin(ms, ss, ':');
      SplitNoSeparator(ss, ':');
      NatToStringValue((n % 3600) / 60);
      Pad2Value(n % 60);
    }
  }

  lemma {:induction false} LeadingZero(t: string)
    requires AllDigits(t)
    ensures AllDigits(['0'] + t) && DigitsValue(['0'] + t) == DigitsValue(t)
    decreases |t|
  {
    if t != [] {
      var init := t[..|t| - 1];
      LeadingZero(init);
      assert (['0'] + t)[..|t|] == ['0'] + init;
    }
  }

  lemma Pad2Value(k: nat)
    ensures DigitsValue(Pad2(k)) == k
  {
    NatToStringValue(k);
    if |NatToString(k)| < 2 { LeadingZero(NatToString(k)); }
  }

  /** Text made of digits and `:` has no whitespace, so trimming it changes nothing. */
  lemma TrimClockText(t: string)
    requires forall i :: 0 <= i < |t| ==> IsDigit(t[i]) || t[i] == ':'
    ensures Trim(t) == t
  {
    TrimNoSpace(t);
  }

  lemma ClockChars(a: string, b: string)
    requires forall i :: 0 <= i < |a| ==> IsDigit(a[i]) || a[i] == ':'
    requires AllDigits(b)
    ensures var t := a + ":" + b; forall i :: 0 <= i < |t| ==> IsDigit(t[i]) || t[i] == ':'
  {
    var t := a + ":" + b;
    forall i | 0 <= i < |t| ensures IsDigit(t[i]) || t[i] == ':' {
      if i < |a| { assert t[i] == a[i]; }
      else if i > |a| { assert t[i] == b[i - |a| - 1]; }
    }
  }

  /**
   * Round trip between the two components: for every positive number of
   * seconds, the detector's parse of the text `formatDuration` prints (as
   * `textContent.trim()` would hand it over) gives the number back.
   */
  lemma ClockArithmetic(n: nat)
    ensures n == (n / 3600) * 3600 + ((n % 3600) / 60) * 60 + n % 60
    ensures n / 3600 == 0 ==> n == ((n % 3600) / 60) * 60 + n % 60
  {
    var q, r := n / 3600, n % 3600;
    assert n == q * 3600 + r;
    assert r == (r / 60) * 60 + r % 60;
    assert r % 60 == n % 60 by {
      assert n == q * 60 * 60 + r;
      assert n == (q * 60 + r / 60) * 60 + r % 60;
    }
  }

  lemma FormatThenParse(n: nat)
    requires n > 0
    ensures DurationTextSeconds(Trim(FormatDuration(n))) == n
  {
    ClockArithmetic(n);
    if n / 3600 > 0 { ParseHours(n); } else { ParseMinutes(n); }
  }

  lemma ParseHours(n: nat)
    requires n / 3600 > 0
    requires n == (n / 3600) * 3600 + ((n % 3600) / 60) * 60 + n % 60
    ensures DurationTextSeconds(Trim(FormatDuration(n))) == n
  {
    var hs, ms, ss := NatToString(n / 3600), Pad2((n % 3600) / 60), Pad2(n % 60);
    var t := hs + ":" + ms + ":" + ss;
    assert FormatDuration(n) == t;
    NatToStringValue(n / 3600);
    Pad2Value((n % 3600) / 60);
    Pad2Value(n % 60);
    ClockChars(hs, ms);
    ClockChars(hs + ":" + ms, ss);
    TrimClockText(t);
    ReadThree(hs, ms, ss);
  }

  lemma ParseMinutes(n: nat)
    requires n > 0 && n / 3600 == 0
    requires n == ((n % 3600) / 60) * 60 + n % 60
    ensures DurationTextSeconds(Trim(FormatDuration(n))) == n
  {
    var ms, ss := NatToString((n % 3600) / 60), Pad2(n % 60);
    var t := ms + ":" + ss;
    assert FormatDuration(n) == t;
    NatToStringValue((n % 3600) / 60);
    Pad2Value(n % 60);
    ClockChars(ms, ss);
    TrimClockText(t);
    ReadTwo(ms, ss);
  }

  // ---------------------------------------------------------------- the `digits:digits` shape

  /** `text.match(/\d+:\d+/)` succeeds: some digit is followed by `:` and another digit. */
  predicate HasTimeShape(text: string) {
    exists i :: 0 <= i && i + 2 < |text| && IsDigit(text[i]) && text[i + 1] == ':' && IsDigit(text[i + 2])
  }

  /** The end of the run of digits that starts at `i` (greedy `\d+`). */
  function DigitRunEnd(s: string, i: nat): (j: nat)
    requires i <= |s|
    ensures i <= j <= |s| && AllDigits(s[i..j])
    ensures j == |s| || !IsDigit(s[j])
    decreases |s| - i
  {
    if i < |s| && IsDigit(s[i]) then
      var j := DigitRunEnd(s, i + 1);
      assert s[i..j] == [s[i]] + s[i + 1..j];
      j
    else i
  }

  /** The two groups of `/(\d+):(\d+)/` when a match starts exactly at `i`. */
  function TimeMatchAt(s: string, i: nat): (r: Option<(nat, nat)>)
    requires i <= |s|
  {
    if i < |s| && IsDigit(s[i]) then
      var j := DigitRunEnd(s, i);
      if j + 1 < |s| && s[j] == ':' && IsDigit(s[j + 1]) then
        var k := DigitRunEnd(s, j + 1);
        Some((DigitsValue(s[i..j]), DigitsValue(s[j + 1..k])))
      else None
    else None
  }

  /** The leftmost match of `/(\d+):(\d+)/` at or after `i`. */
  function FirstTimeMatch(s: string, i: nat): (r: Option<(nat, nat)>)
    requires i <= |s|
    decreases |s| - i
  {
    if i == |s| then None
    else match TimeMatchAt(s, i)
      case Some(v) => Some(v)
      case None => FirstTimeMatch(s, i + 1)
  }

  /** A match found at `i` shows the shape right before its `:`. */
  lemma MatchAtShape(s: string, i: nat)
    requires i <= |s| && TimeMatchAt(s, i).Some?
    ensures HasTimeShape(s)
  {
    var j := DigitRunEnd(s, i);
    assert IsDigit(s[i..j][j - 1 - i]);
    assert IsDigit(s[j - 1]) && s[j] == ':' && IsDigit(s[j + 1]);
  }

  lemma {:induction false} FirstMatchShape(s: string, i: nat)
    requires i <= |s| && FirstTimeMatch(s, i).Some?
    ensures HasTimeShape(s)
    decreases |s| - i
  {
    if TimeMatchAt(s, i).Some? { MatchAtShape(s, i); } else { FirstMatchShape(s, i + 1); }
  }

  /** The digit run from `i` ends where the first non-digit is. */
  lemma {:induction false} RunEndAt(s: string, i: nat, e: nat)
    requires i <= e < |s| && AllDigits(s[i..e]) && !IsDigit(s[e])
    ensures DigitRunEnd(s, i) == e
    decreases e - i
  {
    if i < e {
      assert IsDigit(s[i..e][0]);
      assert s[i + 1..e] == s[i..e][1..];
      RunEndAt(s, i + 1, e);
    }
  }

  /** A scan that starts inside the digits leading to a `d:d` finds a match. */
  lemma ShapeFound(s: string, i: nat, p: nat)
    requires i <= p && p + 2 < |s| && IsDigit(s[p]) && s[p + 1] == ':' && IsDigit(s[p + 2])
    requires AllDigits(s[i..p + 1])
    ensures FirstTimeMatch(s, i).Some?
  {
    RunEndAt(s, i, p + 1);
    assert IsDigit(s[i..p + 1][0]);
    assert TimeMatchAt(s, i).Some?;
  }

  /**
   * The regular-expression test of `analyzePageSelectors` and the match of
   * the standalone detector agree: a first `a:b` match exists exactly when
   * the text has a digit, a `:` and a digit in a row.
   */
  lemma TimeMatchIffShape(s: string)
    ensures FirstTimeMatch(s, 0).Some? <==> HasTimeShape(s)
  {
    if HasTimeShape(s) {
      var p :| 0 <= p && p + 2 < |s| && IsDigit(s[p]) && s[p + 1] == ':' && IsDigit(s[p + 2]);
      ShapeFound(s, p, p);
      ShapeFromStart(s, p);
    } else if FirstTimeMatch(s, 0).Some? {
      FirstMatchShape(s, 0);
    }
  }

  /** If a scan from some position finds a match, so does a scan from an earlier one. */
  lemma {:induction false} ShapeFromStart(s: string, p: nat)
    requires p <= |s| && FirstTimeMatch(s, p).Some?
    ensures FirstTimeMatch(s, 0).Some?
    decreases p
  {
    if p > 0 {
      if TimeMatchAt(s, p - 1).None? {
        assert FirstTimeMatch(s, p - 1) == FirstTimeMatch(s, p);
      }
      ShapeFromStart(s, p - 1);
    }
  }

  /** The text fallback reads only the first `a:b`, as minutes and seconds: "1:02:03" is 62, not 3723. */
  lemma FirstMatchIgnoresHours()
    ensures FirstTimeMatch("1:02:03", 0) == Some((1, 2))
  {
    var s := "1:02:03";
    assert DigitRunEnd(s, 0) == 1;
    assert DigitRunEnd(s, 2) == 4;
    assert s[0..1] == "1" && s[2..4] == "02";
    assert DigitsValue("02") == 2;
  }
}

/**
 * The parts of the Arduino `String` class the firmware relies on: decimal
 * rendering (`String(n)`), `toInt()` (C `atol`), `indexOf`, `substring` and
 * `startsWith`, plus the zero-padded "MM:SS" clock text every page builds.
 */
module Text {
  import opened Common

  predicate IsDigit(c: char)
  {
    '0' <= c <= '9'
  }

  predicate AllDigits(s: string)
  {
    forall i :: 0 <= i < |s| ==> IsDigit(s[i])
  }

  /** The white space `atol` skips: ' ', '\t', '\n', '\v', '\f', '\r'. */
  predicate IsSpace(c: char)
  {
    c == ' ' || 9 <= c as int <= 13
  }

  function DigitChar(d: nat): (c: char)
    requires d < 10
    ensures IsDigit(c) && DigitValue(c) == d
  {
    (48 + d) as char
  }

  function DigitValue(c: char): nat
    requires IsDigit(c)
  {
    c as int - 48
  }

  /** `String(n)` for a non-negative number: its decimal digits, most significant first. */
  function Decimal(n: nat): (s: string)
    ensures |s| >= 1 && AllDigits(s)
    ensures s[0] == '0' ==> n == 0
  {
    if n < 10 then [DigitChar(n)] else Decimal(n / 10) + [DigitChar(n % 10)]
  }

  /** The number a string of decimal digits denotes. */
  function DigitsValue(s: string): nat
    requires AllDigits(s)
  {
    if s == [] then 0 else DigitsValue(s[..|s| - 1]) * 10 + DigitValue(s[|s| - 1])
  }

  /** `Decimal` is read back by `DigitsValue`: the text denotes the number it was made from. */
  lemma {:induction false} DecimalRoundTrip(n: nat)
    ensures DigitsValue(Decimal(n)) == n
  {
    if n >= 10 {
      var s := Decimal(n);
      assert s[..|s| - 1] == Decimal(n / 10);
      DecimalRoundTrip(n / 10);
    }
  }

  /** A leading '0' does not change the value of a digit string. */
  lemma {:induction false} LeadingZeroValue(s: string)
    requires AllDigits(s)
    ensures AllDigits("0" + s) && DigitsValue("0" + s) == DigitsValue(s)
  {
    var t := "0" + s;
    assert AllDigits(t) by {
      forall i | 0 <= i < |t| ensures IsDigit(t[i]) {
        if i > 0 { assert t[i] == s[i - 1]; }
      }
    }
    if s != [] {
      assert t[..|t| - 1] == "0" + s[..|s| - 1];
      LeadingZeroValue(s[..|s| - 1]);
    }
  }

  /** The longest prefix of `s` made of decimal digits. */
  function LeadingDigits(s: string): (r: string)
    ensures |r| <= |s| && r == s[..|r|] && AllDigits(r)
    ensures |r| < |s| ==> !IsDigit(s[|r|])
  {
    if s != [] && IsDigit(s[0]) then [s[0]] + LeadingDigits(s[1..]) else []
  }

  /** `s` without its leading white space. */
  function SkipSpaces(s: string): (r: string)
    ensures |r| <= |s| && r == s[|s| - |r|..]
    ensures r != [] ==> !IsSpace(r[0])
  {
    if s != [] && IsSpace(s[0]) then SkipSpaces(s[1..]) else s
  }

  /**
   * `String::toInt()`, which is C `atol`: skip leading white space, take an
   * optional sign, then the longest run of decimal digits; 0 when there are none.
   */
  function ToInt(s: string): int
  {
    var t := SkipSpaces(s);
    if t != [] && t[0] == '-' then 0 - DigitsValue(LeadingDigits(t[1..])) as int
    else if t != [] && t[0] == '+' then DigitsValue(LeadingDigits(t[1..]))
    else DigitsValue(LeadingDigits(t))
  }

  lemma {:induction false} LeadingDigitsOfDigits(s: string)
    requires AllDigits(s)
    ensures LeadingDigits(s) == s
  {
    if s != [] {
      LeadingDigitsOfDigits(s[1..]);
    }
  }

  /** `toInt` reads back what `String(n)` wrote. */
  lemma ToIntOfDecimal(n: nat)
    ensures ToInt(Decimal(n)) == n
  {
    var s := Decimal(n);
    assert !IsSpace(s[0]) && s[0] != '-' && s[0] != '+';
    assert SkipSpaces(s) == s;
    LeadingDigitsOfDigits(s);
    DecimalRoundTrip(n);
  }

  /** `String::indexOf(c, from)`: the first position at or after `from` holding `c`, or -1. */
  function IndexOf(s: string, c: char, from: nat): (i: int)
    ensures i == -1 || (from <= i < |s| && s[i] == c)
    ensures forall j :: from <= j < |s| && (i == -1 || j < i) ==> s[j] != c
    decreases |s| - from
  {
    if from >= |s| then -1 else if s[from] == c then from else IndexOf(s, c, from + 1)
  }

  /**
   * `String::substring(left, right)`: the bounds are swapped when out of
   * order, an empty string comes back when `left` is past the end, and
   * `right` is cut down to the length.
   */
  function Substring(s: string, left: nat, right: nat): (r: string)
    ensures left <= right <= |s| ==> r == s[left..right]
    ensures left <= right && left <= |s| < right ==> r == s[left..]
    ensures right < left ==> r == Substring(s, right, left)
  {
    var lo := if left <= right then left else right;
    var hi := if left <= right then right else left;
    if lo >= |s| then "" else s[lo..if hi > |s| then |s| else hi]
  }

  /** `String::substring(left)`: everything from `left` on, or empty. */
  function SubstringFrom(s: string, left: nat): (r: string)
    ensures left <= |s| ==> r == s[left..]
    ensures left > |s| ==> r == ""
  {
    Substring(s, left, |s|)
  }

  predicate StartsWith(s: string, prefix: string)
  {
    |prefix| <= |s| && s[..|prefix|] == prefix
  }

  /** `(n < 10 ? "0" : "") + String(n)`: at least two digits. */
  function Padded(n: nat): string
  {
    (if n < 10 then "0" else "") + Decimal(n)
  }

  lemma PaddedValue(n: nat)
    ensures |Padded(n)| >= 2 && AllDigits(Padded(n)) && DigitsValue(Padded(n)) == n
    ensures n < 100 ==> |Padded(n)| == 2
  {
    DecimalRoundTrip(n);
    if n < 10 {
      LeadingZeroValue(Decimal(n));
    } else {
      assert Padded(n) == Decimal(n) == Decimal(n / 10) + [DigitChar(n % 10)];
    }
  }

  /** The firmware's clock label: zero-padded minutes, ':', zero-padded seconds. */
  function Clock(minutes: nat, seconds: nat): string
  {
    Padded(minutes) + ":" + Padded(seconds)
  }

  /** The "MM:SS" label for a number of seconds. */
  function ClockText(totalSeconds: nat): string
  {
    Clock(totalSeconds / 60, totalSeconds % 60)
  }

  /**
   * Reads a clock label back: at least two digits of minutes before the
   * first ':', then exactly two digits of seconds below 60. None when the
   * text is not of that shape.
   */
  function ReadClock(t: string): (r: Option<nat>)
    ensures r.Some? ==>
              var k := IndexOf(t, ':', 0);
              && k >= 2 && |t| == k + 3 && AllDigits(t[..k]) && AllDigits(t[k + 1..])
              && DigitsValue(t[..k]) == r.value / 60 && DigitsValue(t[k + 1..]) == r.value % 60
  {
    var k := IndexOf(t, ':', 0);
    if k < 2 || |t| != k + 3 then None
    else if AllDigits(t[..k]) && AllDigits(t[k + 1..]) && DigitsValue(t[k + 1..]) < 60 then
      var minutes, seconds := DigitsValue(t[..k]), DigitsValue(t[k + 1..]);
      MinutesAndSeconds(minutes, seconds);
      Some(minutes * 60 + seconds)
    else None
  }

  /** A count of minutes and a count of seconds below 60 are the quotient and remainder of their total. */
  lemma MinutesAndSeconds(minutes: nat, seconds: nat)
    requires seconds < 60
    ensures (minutes * 60 + seconds) / 60 == minutes && (minutes * 60 + seconds) % 60 == seconds
  {
  }

  /**
   * A clock label shows its minutes before the ':' and its seconds after it,
   * each with at least two digits, and seconds below 100 with exactly two.
   */
  lemma ClockFields(minutes: nat, seconds: nat)
    ensures var t := Clock(minutes, seconds);
            var k := IndexOf(t, ':', 0);
            && k == |Padded(minutes)| && k >= 2 && |t| - k - 1 >= 2
            && (seconds < 100 ==> |t| == k + 3)
            && AllDigits(t[..k]) && DigitsValue(t[..k]) == minutes
            && AllDigits(t[k + 1..]) && DigitsValue(t[k + 1..]) == seconds
  {
    var m, s := Padded(minutes), Padded(seconds);
    PaddedValue(minutes);
    PaddedValue(seconds);
    var t := m + ":" + s;
    assert t[|m|] == ':';
    assert forall j :: 0 <= j < |m| ==> t[j] == m[j];
    assert t[..|m|] == m;
    assert t[|m| + 1..] == s;
  }

  /**
   * The clock label of `n` seconds reads back as `n`; by `ReadClock`'s
   * contract it therefore shows `n / 60` in at least two digits, then ':',
   * then `n % 60` in exactly two.
   */
  lemma ClockTextRoundTrip(n: nat)
    ensures ReadClock(ClockText(n)) == Some(n)
  {
    ClockFields(n / 60, n % 60);
  }

  /** In `a + [c] + rest`, with `c` absent from `a`, the first `c` at or after any `from <= |a|` is at `|a|`. */
  lemma IndexOfAfter(a: string, c: char, rest: string, from: nat)
    requires from <= |a| && forall j :: 0 <= j < |a| ==> a[j] != c
    ensures IndexOf(a + [c] + rest, c, from) == |a|
  {
    var s := a + [c] + rest;
    assert s[|a|] == c;
    assert forall j :: 0 <= j < |a| ==> s[j] == a[j];
  }

  /** A digit string holds no ':'. */
  lemma DigitsHaveNoColon(a: string)
    requires AllDigits(a)
    ensures forall j :: 0 <= j < |a| ==> a[j] != ':'
  {
  }

  /**
   * The text `a:b:c` with `a` and `b` made of digits: its first two colons
   * are the ones written, and the three fields come back out of it.
   */
  lemma ThreeFields(a: string, b: string, c: string)
    requires AllDigits(a) && AllDigits(b)
    ensures var p := a + ":" + b + ":" + c;
            var first := |a|;
            var second := |a| + 1 + |b|;
            && IndexOf(p, ':', 0) == first && IndexOf(p, ':', first + 1) == second
            && Substring(p, 0, first) == a && Substring(p, first + 1, second) == b
            && SubstringFrom(p, second + 1) == c
  {
    var p := a + ":" + b + ":" + c;
    DigitsHaveNoColon(a);
    DigitsHaveNoColon(b);
    assert p == a + [':'] + (b + ":" + c);
    IndexOfAfter(a, ':', b + ":" + c, 0);
    var q := a + ":" + b;
    assert p == q + [':'] + c;
    assert IndexOf(p, ':', |a| + 1) == |q| by {
      assert p[|q|] == ':';
      forall j | |a| + 1 <= j < |q| ensures p[j] != ':' {
        assert p[j] == b[j - |a| - 1];
      }
    }
    assert p[..|a|] == a;
    assert p[|a| + 1..|q|] == b;
    assert p[|q| + 1..] == c;
  }

  /** The text `a:c` with `a` made of digits: its first colon is the one written, and both fields come back out of it. */
  lemma TwoFields(a: string, c: string)
    requires AllDigits(a)
    ensures var p := a + ":" + c;
            && IndexOf(p, ':', 0) == |a|
            && Substring(p, 0, |a|) == a && SubstringFrom(p, |a| + 1) == c
  {
    var p := a + ":" + c;
    DigitsHaveNoColon(a);
    assert p == a + [':'] + c;
    IndexOfAfter(a, ':', c, 0);
    assert p[..|a|] == a;
    assert p[|a| + 1..] == c;
  }

  /** Two different positions holding `c` mean `c` occurs at least twice. */
  lemma TwoOccurrences(s: string, c: char, i: nat, j: nat)
    requires i < j < |s| && s[i] == c && s[j] == c
    ensures multiset(s)[c] >= 2
  {
    assert s == s[..j] + s[j..];
    assert s[..j][i] == c;
    assert s[j..][0] == c;
    assert multiset(s) == multiset(s[..j]) + multiset(s[j..]);
  }
}

/** The "Recording: MM:SS" display of the elapsed recording time.

    The application shows elapsed seconds as minutes and seconds, each
    printed in decimal and zero-padded to a width of at least two digits
    (Python's `{n:02d}`). Minutes are not capped, so a recording of more
    than 99 minutes shows three or more minute digits.
 */
module ElapsedFormat {
  import opened Wrappers

  predicate IsDigit(c: char) { '0' <= c <= '9' }

  predicate IsDigits(s: string) { forall i :: 0 <= i < |s| ==> IsDigit(s[i]) }

  function DigitChar(d: nat): (c: char)
    requires d < 10
    ensures IsDigit(c) && c as int - '0' as int == d
  {
    ('0' as int + d) as char
  }

  function DigitValue(c: char): nat
    requires IsDigit(c)
  {
    c as int - '0' as int
  }

  /** The decimal numeral of `n` without leading zeros (Python's `str(n)`). */
  function Decimal(n: nat): (r: string)
    ensures |r| >= 1 && IsDigits(r)
    ensures r[0] == '0' ==> n == 0
    ensures n < 10 <==> |r| == 1
    decreases n
  {
    if n < 10 then [DigitChar(n)] else Decimal(n / 10) + [DigitChar(n % 10)]
  }

  /** Reads a string of decimal digits back as a number (the empty string reads as 0). */
  function ParseDecimal(s: string): nat
    requires IsDigits(s)
  {
    if s == [] then 0 else ParseDecimal(s[..|s| - 1]) * 10 + DigitValue(s[|s| - 1])
  }

  /** `n` formatted as `{n:02d}`: decimal, padded with zeros to at least two digits. */
  function Pad2(n: nat): (r: string)
    ensures IsPadded2(r)
    ensures n < 100 ==> |r| == 2
    ensures r[0] == '0' <==> n < 10
  {
    if n < 10 then "0" + Decimal(n) else Decimal(n)
  }

  /** The strings `{n:02d}` can produce: two or more digits, with a leading
      zero only when there are exactly two. */
  predicate IsPadded2(s: string) {
    |s| >= 2 && IsDigits(s) && (s[0] == '0' ==> |s| == 2)
  }

  /** The split of main.py:171-172: whole minutes and the remaining seconds. */
  function SplitElapsed(t: nat): (parts: (nat, nat))
    ensures parts.0 * 60 + parts.1 == t
    ensures parts.1 < 60
  {
    (t / 60, t % 60)
  }

  /** The text after "Recording: " in the status line for `t` elapsed seconds.
      Reading it as a clock gives back exactly `t`; `FormatElapsedCanonical`
      adds that it is the only text the clock reader takes for `t`. */
  function FormatElapsed(t: nat): (r: string)
    ensures ParseClock(r) == Some(t)
  {
    var (minutes, seconds) := SplitElapsed(t);
    ClockRoundTrip(minutes, seconds);
    Pad2(minutes) + ":" + Pad2(seconds)
  }

  function IndexOf(s: string, c: char): (i: Option<nat>)
    ensures i.Some? ==> i.value < |s| && s[i.value] == c
    ensures i.Some? ==> forall j :: 0 <= j < i.value ==> s[j] != c
    ensures i.None? ==> forall j :: 0 <= j < |s| ==> s[j] != c
  {
    if s == [] then None
    else if s[0] == c then Some(0)
    else match IndexOf(s[1..], c)
      case None => None
      case Some(k) => Some(k + 1)
  }

  /** An independent reading of an "MM:SS" clock: zero-padded minutes, a colon
      and exactly two digits of seconds below 60; the value is the number of
      seconds shown. */
  function ParseClock(s: string): Option<nat> {
    match IndexOf(s, ':')
    case None => None
    case Some(i) =>
      var minutes, seconds := s[..i], s[i + 1..];
      if IsPadded2(minutes) && |seconds| == 2 && IsDigits(seconds) && ParseDecimal(seconds) < 60
      then Some(ParseDecimal(minutes) * 60 + ParseDecimal(seconds))
      else None
  }

  lemma {:induction false} DecimalRoundTrip(n: nat)
    ensures ParseDecimal(Decimal(n)) == n
    decreases n
  {
    if n >= 10 {
      var d := Decimal(n);
      assert d[..|d| - 1] == Decimal(n / 10);
      DecimalRoundTrip(n / 10);
    }
  }

  /** A leading zero does not change the value read. */
  lemma {:induction false} ParseLeadingZero(s: string)
    requires IsDigits(s)
    ensures ParseDecimal("0" + s) == ParseDecimal(s)
    decreases |s|
  {
    if s != [] {
      var z := "0" + s;
      assert z[..|z| - 1] == "0" + s[..|s| - 1];
      ParseLeadingZero(s[..|s| - 1]);
    }
  }

  lemma Pad2RoundTrip(n: nat)
    ensures ParseDecimal(Pad2(n)) == n
  {
    DecimalRoundTrip(n);
    if n < 10 {
      ParseLeadingZero(Decimal(n));
    }
  }

  /** In digits followed by ":", the first colon is the one after the digits. */
  lemma {:induction false} ColonAfterDigits(a: string, b: string)
    requires IsDigits(a)
    ensures IndexOf(a + ":" + b, ':') == Some(|a|)
    decreases |a|
  {
    if a != [] {
      assert (a + ":" + b)[1..] == a[1..] + ":" + b;
      ColonAfterDigits(a[1..], b);
    }
  }

  /** Clock text built from padded minutes and seconds reads back as their total. */
  lemma ClockRoundTrip(minutes: nat, seconds: nat)
    requires seconds < 60
    ensures ParseClock(Pad2(minutes) + ":" + Pad2(seconds)) == Some(minutes * 60 + seconds)
  {
    var mm, ss := Pad2(minutes), Pad2(seconds);
    var s := mm + ":" + ss;
    ColonAfterDigits(mm, ss);
    assert s[..|mm|] == mm;
    assert s[|mm| + 1..] == ss;
    Pad2RoundTrip(minutes);
    Pad2RoundTrip(seconds);
  }

  /** A non-empty numeral that does not start with zero is positive. */
  lemma {:induction false} ParsePositive(d: string)
    requires IsDigits(d) && d != [] && d[0] != '0'
    ensures ParseDecimal(d) > 0
    decreases |d|
  {
    if |d| > 1 {
      ParsePositive(d[..|d| - 1]);
    }
  }

  /** A numeral without leading zeros is the decimal numeral of its value. */
  lemma {:induction false} DecimalUnique(d: string)
    requires IsDigits(d) && d != [] && (d[0] == '0' ==> |d| == 1)
    ensures d == Decimal(ParseDecimal(d))
    decreases |d|
  {
    var n := ParseDecimal(d);
    if |d| == 1 {
      assert d[..0] == [] && ParseDecimal(d[..0]) == 0;
      assert n == ParseDecimal(d[..0]) * 10 + DigitValue(d[0]);
      assert d == [DigitChar(n)];
    } else {
      var p := d[..|d| - 1];
      ParsePositive(p);
      DecimalUnique(p);
      assert n / 10 == ParseDecimal(p) && n % 10 == DigitValue(d[|d| - 1]);
      assert d == p + [d[|d| - 1]];
    }
  }

  /** Every string `{n:02d}` can produce is the one it produces for its value. */
  lemma Pad2Unique(x: string)
    requires IsPadded2(x)
    ensures x == Pad2(ParseDecimal(x))
  {
    var n := ParseDecimal(x);
    if x[0] == '0' {
      var rest := x[1..];
      assert x == "0" + rest;
      ParseLeadingZero(rest);
      DecimalUnique(rest);
    } else {
      DecimalUnique(x);
    }
  }

  /** The clock reader takes only the displayed text: whatever it reads as `t`
      is `FormatElapsed(t)`. With the ensures of `FormatElapsed`,
      `ParseClock(s) == Some(t)` holds exactly when `s == FormatElapsed(t)`. */
  lemma FormatElapsedCanonical(s: string, t: nat)
    requires ParseClock(s) == Some(t)
    ensures s == FormatElapsed(t)
  {
    var i := IndexOf(s, ':').value;
    var mm, ss := s[..i], s[i + 1..];
    assert s == mm + ":" + ss;
    var minutes, seconds := ParseDecimal(mm), ParseDecimal(ss);
    assert t == minutes * 60 + seconds && seconds < 60;
    assert SplitElapsed(t) == (minutes, seconds);
    Pad2Unique(mm);
    Pad2Unique(ss);
  }

  /** The status set by start_recording, "00:00", is the clock for zero seconds. */
  lemma FormatElapsedZero()
    ensures FormatElapsed(0) == "00:00"
  {
  }
}

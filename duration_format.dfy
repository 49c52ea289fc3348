/**
 * `formatDuration`: milliseconds to the `m:ss` label shown under each song of
 * the list. Kotlin's `Long` division and remainder truncate toward zero, and
 * the `"%d:%02d"` pattern prints a minus sign and pads to a width of two with
 * zeros; both are written out here so that every input, negative ones
 * included, is covered. The partner of the formatter is `ParseDuration`,
 * which reads an `m:ss` label back into whole seconds.
 */
module DurationFormat {
  import opened Wrappers

  // ---------------------------------------------------------------------------
  // Kotlin integer arithmetic

  /**
   * `a / b` on Kotlin integers: the quotient truncated toward zero, so the
   * remainder left over has the sign of `a` and is smaller than `b` in size.
   */
  function TruncDiv(a: int, b: int): (q: int)
    requires b > 0
    ensures a >= 0 ==> q == a / b
    ensures a >= 0 ==> 0 <= a - b * q < b
    ensures a < 0 ==> -b < a - b * q <= 0
  {
    if a >= 0 then a / b
    else
      var q := (-a) / b;
      assert 0 <= (-a) - b * q < b;
      -q
  }

  /** `a % b` on Kotlin integers: the remainder takes the sign of `a`. */
  function TruncRem(a: int, b: int): (r: int)
    requires b > 0
    ensures a >= 0 ==> r == a % b
    ensures a >= 0 ==> 0 <= r < b
    ensures a < 0 ==> -b < r <= 0
    ensures a < 0 ==> r == -((-a) % b)
  {
    a - b * TruncDiv(a, b)
  }

  // ---------------------------------------------------------------------------
  // Decimal digits

  predicate IsDigit(c: char) { '0' <= c <= '9' }

  predicate AllDigits(s: string) { forall i :: 0 <= i < |s| ==> IsDigit(s[i]) }

  function DigitChar(d: nat): (c: char)
    requires d < 10
    ensures IsDigit(c)
  {
    (('0' as int) + d) as char
  }

  function DigitValue(c: char): (d: nat)
    requires IsDigit(c)
    ensures d < 10
  {
    (c as int) - ('0' as int)
  }

  /** The digits of `n` without leading zeros, as `%d` prints a non-negative number. */
  function NatToString(n: nat): (s: string)
    ensures |s| >= 1 && AllDigits(s)
    ensures |s| == 1 <==> n < 10
    ensures n < 100 ==> |s| <= 2
    ensures s[0] == '0' ==> n == 0
  {
    if n < 10 then [DigitChar(n)] else NatToString(n / 10) + [DigitChar(n % 10)]
  }

  /**
   * `%d`: the digits of a non-negative number, or a minus sign in front of
   * the digits of a negative one; either way the digits read back to the
   * magnitude.
   */
  function IntToString(i: int): (r: string)
    ensures |r| >= 1
    ensures i >= 0 ==> Canonical(r) && ParseNat(r) == i
    ensures i < 0 ==> r[0] == '-' && Canonical(r[1..]) && ParseNat(r[1..]) == -i
  {
    if i < 0 then
      var digits := NatToString(-i);
      ParseNatToString(-i);
      assert ("-" + digits)[1..] == digits;
      "-" + digits
    else
      ParseNatToString(i);
      NatToString(i)
  }

  /**
   * `%02d`: at least two characters, zero-padded after any sign. Only 0..9
   * are padded; a negative number already prints with two characters or more.
   * Every number in 0..99 prints as exactly two digits.
   */
  function ZeroPad2(i: int): (r: string)
    ensures |r| >= 2
    ensures 0 <= i < 100 ==> |r| == 2 && AllDigits(r) && ParseNat(r) == i
    ensures i < 0 || i >= 10 ==> r == IntToString(i)
  {
    if 0 <= i < 10 then
      var r := "0" + IntToString(i);
      assert r == ['0', DigitChar(i)];
      assert r[..1] == ['0'] && r[..1][..0] == [];
      DigitRoundTrip(i);
      r
    else
      IntToString(i)
  }

  /** The value of a string of decimal digits (0 for the empty string). */
  function ParseNat(s: string): nat
    requires AllDigits(s)
  {
    if s == [] then 0 else ParseNat(s[..|s| - 1]) * 10 + DigitValue(s[|s| - 1])
  }

  /** A digit string as `%d` prints it: non-empty, no leading zero unless it is `0`. */
  predicate Canonical(s: string)
  {
    |s| >= 1 && AllDigits(s) && (s[0] == '0' ==> |s| == 1)
  }

  // ---------------------------------------------------------------------------
  // The formatter and its reader

  /**
   * The `m:ss` label of a duration in milliseconds, as `formatDuration`
   * builds it. It has at least four characters. For a non-negative duration
   * it is the minutes without leading zeros, a colon, and the seconds as
   * exactly two digits with a value in 0..59; minutes * 60 + seconds is the
   * number of whole seconds in the duration.
   */
  function FormatDuration(durationMs: int): (r: string)
    ensures |r| >= 4
    ensures durationMs >= 0 ==> WellFormedLabel(r) && LabelSeconds(r) == durationMs / 1000
  {
    var totalSeconds := TruncDiv(durationMs, 1000);
    var minutes := TruncDiv(totalSeconds, 60);
    var seconds := TruncRem(totalSeconds, 60);
    if durationMs >= 0 then
      LabelFields(minutes, seconds);
      IntToString(minutes) + ":" + ZeroPad2(seconds)
    else
      IntToString(minutes) + ":" + ZeroPad2(seconds)
  }

  /**
   * Reads a label `<digits>:<two digits>` back into whole seconds; any other
   * string is refused.
   */
  function ParseDuration(s: string): (r: Option<nat>)
    ensures r.Some? ==> |s| >= 4 && s[|s| - 3] == ':'
  {
    if |s| >= 4 && s[|s| - 3] == ':' && AllDigits(s[..|s| - 3]) && AllDigits(s[|s| - 2..]) then
      Some(ParseNat(s[..|s| - 3]) * 60 + ParseNat(s[|s| - 2..]))
    else
      None
  }

  /** A label the formatter can produce for a non-negative duration. */
  predicate WellFormedLabel(s: string)
  {
    |s| >= 4 && s[|s| - 3] == ':' && Canonical(s[..|s| - 3])
    && AllDigits(s[|s| - 2..]) && ParseNat(s[|s| - 2..]) < 60
  }

  /** The whole seconds a well-formed label stands for. */
  function LabelSeconds(s: string): nat
    requires WellFormedLabel(s)
  {
    ParseNat(s[..|s| - 3]) * 60 + ParseNat(s[|s| - 2..])
  }

  /** The label assembled from `minutes` and `seconds` is well formed and reads back to both. */
  lemma LabelFields(minutes: int, seconds: int)
    requires minutes >= 0 && 0 <= seconds < 60
    ensures var r := IntToString(minutes) + ":" + ZeroPad2(seconds);
      WellFormedLabel(r) && ParseNat(r[..|r| - 3]) == minutes && ParseNat(r[|r| - 2..]) == seconds
  {
    var m, ss := IntToString(minutes), ZeroPad2(seconds);
    var r := m + ":" + ss;
    assert r[..|r| - 3] == m;
    assert r[|r| - 2..] == ss;
  }

  // ---------------------------------------------------------------------------
  // Lemmas

  /** Quotient and remainder are determined by any decomposition `a == q * b + r` with `0 <= r < b`. */
  lemma DivModUnique(a: int, q: int, r: int, b: int)
    requires b > 0 && 0 <= r < b && a == q * b + r
    ensures a / b == q && a % b == r
  {
    var q', r' := a / b, a % b;
    assert q' * b + r' == q * b + r;
    if q' < q {
      MulAtLeast(q - q', b);
    } else if q' > q {
      MulAtLeast(q' - q, b);
    }
  }

  lemma MulAtLeast(k: int, b: int)
    requires k >= 1 && b > 0
    ensures k * b >= b
  {
  }

  lemma DigitRoundTrip(d: nat)
    requires d < 10
    ensures DigitValue(DigitChar(d)) == d
  {
  }

  lemma CharRoundTrip(c: char)
    requires IsDigit(c)
    ensures DigitChar(DigitValue(c)) == c
  {
  }

  /** Reading back the digits of `n` gives `n`. */
  lemma {:induction false} ParseNatToString(n: nat)
    ensures ParseNat(NatToString(n)) == n
  {
    var s := NatToString(n);
    if n < 10 {
      assert s[..0] == [];
      DigitRoundTrip(n);
    } else {
      var p := NatToString(n / 10);
      assert s == p + [DigitChar(n % 10)];
      assert s[..|s| - 1] == p;
      ParseNatToString(n / 10);
      DigitRoundTrip(n % 10);
    }
  }

  /** A canonical digit string that is not `0` has a positive value. */
  lemma {:induction false} ParseNatPositive(s: string)
    requires |s| >= 1 && AllDigits(s) && s[0] != '0'
    ensures ParseNat(s) >= 1
  {
    if |s| > 1 {
      var p := s[..|s| - 1];
      assert p[0] == s[0];
      ParseNatPositive(p);
    }
  }

  /** Printing the value of a canonical digit string gives the string back. */
  lemma {:induction false} NatToStringParse(s: string)
    requires Canonical(s)
    ensures NatToString(ParseNat(s)) == s
  {
    var n := ParseNat(s);
    if |s| == 1 {
      assert s[..0] == [];
      CharRoundTrip(s[0]);
    } else {
      var p := s[..|s| - 1];
      var d := DigitValue(s[|s| - 1]);
      assert p[0] == s[0];
      ParseNatPositive(p);
      NatToStringParse(p);
      assert n == ParseNat(p) * 10 + d;
      assert n / 10 == ParseNat(p) && n % 10 == d;
      CharRoundTrip(s[|s| - 1]);
      assert s == p + [s[|s| - 1]];
    }
  }

  /** The two-character seconds field of a well-formed label, printed from its value, is itself. */
  lemma SecondsFieldRoundTrip(t: string)
    requires |t| == 2 && AllDigits(t) && ParseNat(t) < 60
    ensures ZeroPad2(ParseNat(t)) == t
  {
    var v := ParseNat(t);
    assert t[..1][..0] == [];
    assert t[..1] == [t[0]];
    var hi, lo := DigitValue(t[0]), DigitValue(t[1]);
    assert v == hi * 10 + lo;
    CharRoundTrip(t[0]);
    CharRoundTrip(t[1]);
    if v < 10 {
      assert hi == 0;
      assert t == [DigitChar(0), DigitChar(lo)];
    } else {
      assert v / 10 == hi && v % 10 == lo;
      assert NatToString(v) == NatToString(hi) + [DigitChar(lo)];
      assert t == [t[0]] + [t[1]];
    }
  }

  /** Reading a label back gives the whole seconds of the duration it was made from. */
  lemma FormatDurationRoundTrip(durationMs: int)
    requires durationMs >= 0
    ensures ParseDuration(FormatDuration(durationMs)) == Some(durationMs / 1000)
  {
  }

  /** Every well-formed label is the label of its own number of seconds. */
  lemma ParseDurationRoundTrip(s: string)
    requires WellFormedLabel(s)
    ensures ParseDuration(s).Some?
    ensures FormatDuration(ParseDuration(s).value * 1000) == s
  {
    var m, sec := ParseNat(s[..|s| - 3]), ParseNat(s[|s| - 2..]);
    var t := LabelSeconds(s);
    assert ParseDuration(s) == Some(t);
    DivModUnique(t, m, sec, 60);
    FormatWholeSeconds(t);
    LabelFromFields(s);
  }

  /** A well-formed label is printed back from the values of its two fields. */
  lemma LabelFromFields(s: string)
    requires WellFormedLabel(s)
    ensures s == IntToString(ParseNat(s[..|s| - 3])) + ":" + ZeroPad2(ParseNat(s[|s| - 2..]))
  {
    var mPart, sPart := s[..|s| - 3], s[|s| - 2..];
    NatToStringParse(mPart);
    SecondsFieldRoundTrip(sPart);
    assert s == mPart + ":" + sPart;
  }

  /** The label of a whole number of seconds `t`: its minutes and its remaining seconds. */
  lemma FormatWholeSeconds(t: nat)
    ensures FormatDuration(t * 1000) == IntToString(t / 60) + ":" + ZeroPad2(t % 60)
  {
  }

  /** Two non-negative durations get the same label exactly when they have the same whole seconds. */
  lemma FormatDurationInjective(a: int, b: int)
    requires a >= 0 && b >= 0
    ensures FormatDuration(a) == FormatDuration(b) <==> a / 1000 == b / 1000
  {
  }

  /**
   * Truncation toward zero: a negative duration shorter than one second
   * prints as `0:00` (floor division would give `-1:59`), and a negative
   * duration of 61 seconds prints with a sign on both fields.
   */
  lemma NegativeDurations(durationMs: int)
    requires -1000 < durationMs <= 0
    ensures FormatDuration(durationMs) == "0:00"
    ensures FormatDuration(-61000) == "-1:-1"
  {
  }
}

/** The player screen's `getMMSSFromMillis` and its inner `padWithZero`: a duration in
    milliseconds shown as zero-padded minutes and seconds. `ParseMMSS` reads such a text
    back and is the partner the formatter is proved against. */
module MillisFormat {
  import opened Optional

  // ---------------------------------------------------------------------------
  // Decimal digits
  // ---------------------------------------------------------------------------

  predicate IsDigit(c: char)
  {
    '0' <= c <= '9'
  }

  predicate AllDigits(s: string)
  {
    forall i :: 0 <= i < |s| ==> IsDigit(s[i])
  }

  function DigitChar(d: nat): (c: char)
    requires d < 10
    ensures IsDigit(c)
  {
    ('0' as int + d) as char
  }

  function DigitValue(c: char): (d: nat)
    requires IsDigit(c)
    ensures d < 10
  {
    c as int - '0' as int
  }

  /** `Number.prototype.toString` on a non-negative integer: its decimal digits, no leading
      zero. */
  function NatToString(n: nat): (s: string)
    ensures |s| >= 1 && AllDigits(s)
    ensures n >= 10 ==> |s| >= 2
    decreases n
  {
    if n < 10 then [DigitChar(n)] else NatToString(n / 10) + [DigitChar(n % 10)]
  }

  /** `Number.prototype.toString` on an integer. */
  function IntToString(n: int): string
  {
    if n < 0 then "-" + NatToString(-n) else NatToString(n)
  }

  /** `padWithZero`: a number below 10 gets a '0' in front of its text. */
  function PadWithZero(n: int): string
  {
    var text := IntToString(n);
    if n < 10 then "0" + text else text
  }

  // ---------------------------------------------------------------------------
  // JavaScript number operations
  // ---------------------------------------------------------------------------

  /** Truncation towards zero. */
  function Trunc(x: real): int
  {
    if x >= 0.0 then x.Floor else -((-x).Floor)
  }

  /** JavaScript `%` on numbers: the remainder of a division truncated towards zero. */
  function JsRemainder(x: real, m: real): real
    requires m != 0.0
  {
    x - m * Trunc(x / m) as real
  }

  // ---------------------------------------------------------------------------
  // getMMSSFromMillis
  // ---------------------------------------------------------------------------

  /** `getMMSSFromMillis`, on the non-negative whole numbers of milliseconds that the audio
      engine reports. */
  function GetMMSSFromMillis(millis: nat): string
  {
    var totalSeconds := millis as real / 1000.0;
    var seconds := JsRemainder(totalSeconds, 60.0).Floor;
    var minutes := (totalSeconds / 60.0).Floor;
    PadWithZero(minutes) + ":" + PadWithZero(seconds)
  }

  // ---------------------------------------------------------------------------
  // The partner: reading an M:S text back
  // ---------------------------------------------------------------------------

  /** The value of a string of decimal digits (0 for the empty string). */
  function ParseDigits(s: string): nat
    requires AllDigits(s)
    decreases |s|
  {
    if s == [] then 0 else 10 * ParseDigits(s[..|s| - 1]) + DigitValue(s[|s| - 1])
  }

  /** The text before and after the first ':' in `s`, if there is one. */
  function SplitAtColon(s: string): Option<(string, string)>
    decreases |s|
  {
    if s == [] then None
    else if s[0] == ':' then Some(([], s[1..]))
    else
      match SplitAtColon(s[1..])
      case None => None
      case Some(parts) => Some(([s[0]] + parts.0, parts.1))
  }

  /** Reads `M:S` back as (minutes, seconds): two non-empty digit strings around a ':'. */
  function ParseMMSS(text: string): Option<(nat, nat)>
  {
    match SplitAtColon(text)
    case None => None
    case Some(parts) =>
      if |parts.0| >= 1 && |parts.1| >= 1 && AllDigits(parts.0) && AllDigits(parts.1)
      then Some((ParseDigits(parts.0), ParseDigits(parts.1)))
      else None
  }

  // ---------------------------------------------------------------------------
  // Lemmas
  // ---------------------------------------------------------------------------

  /** Reading the decimal text of `n` gives back `n`. */
  lemma {:induction false} ParseNatToString(n: nat)
    ensures ParseDigits(NatToString(n)) == n
    decreases n
  {
    var s := NatToString(n);
    if n >= 10 {
      ParseNatToString(n / 10);
      assert s[..|s| - 1] == NatToString(n / 10);
      assert s[|s| - 1] == DigitChar(n % 10);
    }
  }

  /** The decimal text of a positive number does not start with '0'. */
  lemma {:induction false} NatToStringLeadingDigit(n: nat)
    requires n >= 1
    ensures NatToString(n)[0] != '0'
    decreases n
  {
    if n >= 10 {
      NatToStringLeadingDigit(n / 10);
      assert NatToString(n)[0] == NatToString(n / 10)[0];
    }
  }

  /** A leading '0' does not change the value of a digit string. */
  lemma {:induction false} ParseLeadingZero(s: string)
    requires AllDigits(s)
    ensures AllDigits("0" + s) && ParseDigits("0" + s) == ParseDigits(s)
    decreases |s|
  {
    var z := "0" + s;
    assert AllDigits(z) by {
      forall i | 0 <= i < |z| ensures IsDigit(z[i]) {
        if i > 0 { assert z[i] == s[i - 1]; }
      }
    }
    if s != [] {
      var init := s[..|s| - 1];
      assert AllDigits(init) by {
        forall i | 0 <= i < |init| ensures IsDigit(init[i]) { assert init[i] == s[i]; }
      }
      ParseLeadingZero(init);
      assert z[..|z| - 1] == "0" + init;
      assert z[|z| - 1] == s[|s| - 1];
    }
  }

  /** `padWithZero` of a non-negative number: at least two digits, a leading '0' exactly
      when the number is below 10, and the digits still denote the number. */
  lemma PadWithZeroShape(n: nat)
    ensures |PadWithZero(n)| >= 2 && AllDigits(PadWithZero(n))
    ensures PadWithZero(n)[0] == '0' <==> n < 10
    ensures ParseDigits(PadWithZero(n)) == n
  {
    ParseNatToString(n);
    if n < 10 {
      ParseLeadingZero(NatToString(n));
    } else {
      NatToStringLeadingDigit(n);
    }
  }

  /** Splitting at the first ':' recovers the parts when the first part has no ':'. */
  lemma {:induction false} SplitAtFirstColon(a: string, b: string)
    requires forall i :: 0 <= i < |a| ==> a[i] != ':'
    ensures SplitAtColon(a + ":" + b) == Some((a, b))
    decreases |a|
  {
    var s := a + ":" + b;
    if a == [] {
      assert s[1..] == b;
    } else {
      assert s[1..] == a[1..] + ":" + b;
      SplitAtFirstColon(a[1..], b);
      assert [a[0]] + a[1..] == a;
    }
  }

  lemma FloorIs(x: real, q: int)
    requires q as real <= x < q as real + 1.0
    ensures x.Floor == q
  {
  }

  /** The real-number arithmetic of `getMMSSFromMillis` on whole milliseconds is whole-
      second division: the minutes and the seconds below 60 of the elapsed whole seconds. */
  lemma MMSSArithmetic(millis: nat)
    ensures var wholeSeconds := millis / 1000;
            GetMMSSFromMillis(millis) ==
              PadWithZero(wholeSeconds / 60) + ":" + PadWithZero(wholeSeconds % 60)
  {
    var t := millis / 1000;
    var r1 := millis % 1000;
    var m := t / 60;
    var r2 := t % 60;
    assert millis == 60000 * m + 1000 * r2 + r1;
    var totalSeconds := millis as real / 1000.0;
    assert totalSeconds == t as real + r1 as real / 1000.0;
    assert totalSeconds / 60.0 == m as real + (1000 * r2 + r1) as real / 60000.0;
    FloorIs(totalSeconds / 60.0, m);
    assert Trunc(totalSeconds / 60.0) == m;
    var rem := JsRemainder(totalSeconds, 60.0);
    assert rem == r2 as real + r1 as real / 1000.0;
    FloorIs(rem, r2);
  }

  /** Round trip: the text `getMMSSFromMillis` produces reads back as minutes and seconds,
      the seconds below 60, each written with at least two digits, that together make up
      the whole seconds in `millis`. */
  lemma MMSSRoundTrip(millis: nat)
    ensures ParseMMSS(GetMMSSFromMillis(millis)).Some?
    ensures var (minutes, seconds) := ParseMMSS(GetMMSSFromMillis(millis)).value;
            seconds < 60 && minutes * 60 + seconds == millis / 1000
    ensures var parts := SplitAtColon(GetMMSSFromMillis(millis)).value;
            |parts.0| >= 2 && |parts.1| >= 2
  {
    var t := millis / 1000;
    MMSSArithmetic(millis);
    var mm := PadWithZero(t / 60);
    var ss := PadWithZero(t % 60);
    PadWithZeroShape(t / 60);
    PadWithZeroShape(t % 60);
    assert forall i :: 0 <= i < |mm| ==> mm[i] != ':' by {
      forall i | 0 <= i < |mm| ensures mm[i] != ':' { assert IsDigit(mm[i]); }
    }
    SplitAtFirstColon(mm, ss);
  }

  /** Worked values: 9.5 s shows as 00:09, 61 s as 01:01. */
  lemma MMSSExamples()
    ensures GetMMSSFromMillis(9500) == "00:09"
    ensures GetMMSSFromMillis(61000) == "01:01"
  {
    MMSSArithmetic(9500);
    assert 9500 / 1000 == 9 && 9 / 60 == 0 && 9 % 60 == 9;
    assert PadWithZero(0) == "00" && PadWithZero(9) == "09";
    MMSSArithmetic(61000);
    assert 61000 / 1000 == 61 && 61 / 60 == 1 && 61 % 60 == 1;
    assert PadWithZero(1) == "01";
  }
}

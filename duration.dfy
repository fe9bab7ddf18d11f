/**
 * The duration formatter `format_duration` (bot.py:419-430), with a reader
 * for the text it produces so that its output can be checked against its input.
 */
module Duration {

  function DigitChar(d: nat): (c: char)
    requires d < 10
    ensures '0' <= c <= '9'
  {
    (('0' as int) + d) as char
  }

  /** The decimal digits of `n`, without leading zeros (Python's `str(n)` for `n >= 0`). */
  function Decimal(n: nat): (r: string)
    ensures |r| >= 1
    ensures forall k :: 0 <= k < |r| ==> '0' <= r[k] <= '9'
  {
    if n < 10 then [DigitChar(n)] else Decimal(n / 10) + [DigitChar(n % 10)]
  }

  /** `f"{n:02d}"` for `n >= 0`: the decimal digits, zero-padded to at least two. */
  function Pad2(n: nat): (r: string)
    ensures |r| >= 2
    ensures forall k :: 0 <= k < |r| ==> '0' <= r[k] <= '9'
  {
    if n < 10 then "0" + Decimal(n) else Decimal(n)
  }

  /**
   * `format_duration(seconds)`.  Python's `divmod` floors; for the positive
   * divisor 60 Dafny's Euclidean `/` and `%` give the same quotient and remainder.
   */
  function FormatDuration(seconds: int): (r: string)
    ensures seconds == 0 ==> r == "Unknown"
    ensures seconds != 0 ==> |r| >= 5 && '0' <= r[0] <= '9'
  {
    if seconds == 0 then "Unknown"
    else
      var minutes, secs := seconds / 60, seconds % 60;
      var hours, mins := minutes / 60, minutes % 60;
      if hours > 0 then Pad2(hours) + ":" + Pad2(mins) + ":" + Pad2(secs)
      else Pad2(mins) + ":" + Pad2(secs)
  }

  // ---------------------------------------------------------------------
  // Reading the text back.
  // ---------------------------------------------------------------------

  /** The number a string of decimal digits denotes. */
  function DigitsValue(s: string): int {
    if s == [] then 0 else DigitsValue(s[..|s| - 1]) * 10 + (s[|s| - 1] as int - '0' as int)
  }

  /** `s.split(":")`. */
  function SplitColons(s: string): (r: seq<string>)
    ensures |r| >= 1
  {
    if s == [] then [[]]
    else
      var rest := SplitColons(s[1..]);
      if s[0] == ':' then [[]] + rest else [[s[0]] + rest[0]] + rest[1..]
  }

  /** The number of seconds a list of clock fields denotes, read in base 60. */
  function ClockValue(fields: seq<string>): int {
    if fields == [] then 0
    else ClockValue(fields[..|fields| - 1]) * 60 + DigitsValue(fields[|fields| - 1])
  }

  lemma {:induction false} DecimalValue(n: nat)
    ensures DigitsValue(Decimal(n)) == n
  {
    if n >= 10 {
      var d := Decimal(n / 10);
      DecimalValue(n / 10);
      assert (d + [DigitChar(n % 10)])[..|d|] == d;
    }
  }

  lemma Pad2Value(n: nat)
    ensures DigitsValue(Pad2(n)) == n
  {
    DecimalValue(n);
    if n < 10 {
      assert Pad2(n)[..1] == "0";
      assert "0"[..0] == [];
    }
  }

  lemma {:induction false} SplitNoColon(a: string)
    requires ':' !in a
    ensures SplitColons(a) == [a]
  {
    if a != [] {
      assert a[1..] == a[1..] && ':' !in a[1..] by {
        forall k | 0 <= k < |a[1..]| ensures a[1..][k] != ':' { assert a[k + 1] in a; }
      }
      SplitNoColon(a[1..]);
      assert [a[0]] + a[1..] == a;
    }
  }

  lemma {:induction false} SplitAtColon(a: string, b: string)
    requires ':' !in a
    ensures SplitColons(a + ":" + b) == [a] + SplitColons(b)
  {
    var s := a + ":" + b;
    if a == [] {
      assert s == ":" + b && s[1..] == b;
    } else {
      assert s[0] == a[0];
      assert s[1..] == a[1..] + ":" + b;
      assert ':' !in a[1..] by {
        forall k | 0 <= k < |a[1..]| ensures a[1..][k] != ':' { assert a[k + 1] in a; }
      }
      SplitAtColon(a[1..], b);
      assert [a[0]] + a[1..] == a;
    }
  }

  lemma Pad2HasNoColon(n: nat)
    ensures ':' !in Pad2(n)
  {
    var p := Pad2(n);
    assert forall k :: 0 <= k < |p| ==> p[k] != ':';
  }

  /** Two or three zero-padded fields joined by colons split back into those fields. */
  lemma SplitClock(fields: seq<nat>)
    requires |fields| == 2 || |fields| == 3
    ensures var text := if |fields| == 3 then Pad2(fields[0]) + ":" + Pad2(fields[1]) + ":" + Pad2(fields[2])
                        else Pad2(fields[0]) + ":" + Pad2(fields[1]);
            SplitColons(text) == seq(|fields|, i requires 0 <= i < |fields| => Pad2(fields[i]))
  {
    Pad2HasNoColon(fields[0]);
    Pad2HasNoColon(fields[1]);
    SplitNoColon(Pad2(fields[1]));
    if |fields| == 3 {
      Pad2HasNoColon(fields[2]);
      SplitNoColon(Pad2(fields[2]));
      SplitAtColon(Pad2(fields[1]), Pad2(fields[2]));
      assert Pad2(fields[0]) + ":" + Pad2(fields[1]) + ":" + Pad2(fields[2])
          == Pad2(fields[0]) + ":" + (Pad2(fields[1]) + ":" + Pad2(fields[2]));
      SplitAtColon(Pad2(fields[0]), Pad2(fields[1]) + ":" + Pad2(fields[2]));
    } else {
      SplitAtColon(Pad2(fields[0]), Pad2(fields[1]));
    }
  }

  lemma ClockValueOfThree(a: string, b: string, c: string)
    ensures ClockValue([a, b, c]) == (DigitsValue(a) * 60 + DigitsValue(b)) * 60 + DigitsValue(c)
  {
    assert [a, b, c][..2] == [a, b];
    assert ClockValue([a, b, c]) == ClockValue([a, b]) * 60 + DigitsValue(c);
    ClockValueOfTwo(a, b);
  }

  lemma ClockValueOfTwo(a: string, b: string)
    ensures ClockValue([a, b]) == DigitsValue(a) * 60 + DigitsValue(b)
  {
    assert [a, b][..1] == [a];
    assert [a][..0] == [];
    assert ClockValue([a, b]) == ClockValue([a]) * 60 + DigitsValue(b);
    assert ClockValue([a]) == ClockValue([]) * 60 + DigitsValue(a);
  }

  lemma Pad2Length(n: nat)
    requires n < 100
    ensures |Pad2(n)| == 2
  {
    if n >= 10 {
      assert Decimal(n) == Decimal(n / 10) + [DigitChar(n % 10)];
    }
  }

  /** `str(n)` has no leading zero for `n >= 1`. */
  lemma {:induction false} DecimalLeadingDigit(n: nat)
    requires n >= 1
    ensures Decimal(n)[0] != '0'
  {
    if n >= 10 {
      DecimalLeadingDigit(n / 10);
      assert Decimal(n)[0] == Decimal(n / 10)[0];
    }
  }

  /** `{n:02d}` pads to two digits and no further. */
  lemma Pad2NoExtraZero(n: nat)
    ensures |Pad2(n)| == 2 || Pad2(n)[0] != '0'
  {
    if n >= 10 {
      DecimalLeadingDigit(n);
    }
  }

  /** The hours, minutes and seconds `format_duration` computes put `seconds` back together. */
  lemma ClockParts(seconds: int)
    requires seconds > 0
    ensures var minutes := seconds / 60;
            && (minutes / 60) * 3600 + (minutes % 60) * 60 + seconds % 60 == seconds
            && (minutes / 60 > 0 <==> seconds >= 3600)
            && minutes / 60 >= 0 && 0 <= minutes % 60 < 60 && 0 <= seconds % 60 < 60
  {
    var minutes := seconds / 60;
    assert seconds == minutes * 60 + seconds % 60;
    assert minutes == (minutes / 60) * 60 + minutes % 60;
  }

  /**
   * The shape of a clock text's fields: each is at least two decimal digits,
   * the first is padded to two digits and no further, and every later one has
   * exactly two digits and is below 60.
   */
  predicate ClockShaped(fields: seq<string>) {
    && |fields| >= 1
    && (forall i :: 0 <= i < |fields| ==> |fields[i]| >= 2)
    && (forall i, k :: 0 <= i < |fields| && 0 <= k < |fields[i]| ==> '0' <= fields[i][k] <= '9')
    && (|fields[0]| == 2 || fields[0][0] != '0')
    && (forall i :: 1 <= i < |fields| ==> |fields[i]| == 2 && DigitsValue(fields[i]) < 60)
  }

  /** The fields of `HH:MM:SS` read back. */
  lemma LongClockFields(h: nat, m: nat, sec: nat)
    requires m < 60 && sec < 60
    ensures var fields := SplitColons(Pad2(h) + ":" + Pad2(m) + ":" + Pad2(sec));
            && fields == [Pad2(h), Pad2(m), Pad2(sec)]
            && ClockValue(fields) == (h * 60 + m) * 60 + sec
            && ClockShaped(fields)
  {
    Pad2Value(h);
    Pad2Value(m);
    Pad2Value(sec);
    Pad2Length(m);
    Pad2Length(sec);
    Pad2NoExtraZero(h);
    SplitClock([h, m, sec]);
    ClockValueOfThree(Pad2(h), Pad2(m), Pad2(sec));
  }

  /** The fields of `MM:SS` read back. */
  lemma ShortClockFields(m: nat, sec: nat)
    requires m < 60 && sec < 60
    ensures var fields := SplitColons(Pad2(m) + ":" + Pad2(sec));
            && fields == [Pad2(m), Pad2(sec)]
            && ClockValue(fields) == m * 60 + sec
            && ClockShaped(fields)
  {
    Pad2Value(m);
    Pad2Value(sec);
    Pad2Length(m);
    Pad2Length(sec);
    SplitClock([m, sec]);
    ClockValueOfTwo(Pad2(m), Pad2(sec));
  }

  /**
   * For a positive number of seconds the text is `MM:SS` below an hour and
   * `HH:MM:SS` from an hour on; the fields are clock-shaped (decimal digits,
   * minutes and seconds exactly two digits below 60), and read back in base 60
   * they give the input again.
   */
  lemma FormatDurationRoundTrip(seconds: int)
    requires seconds > 0
    ensures var fields := SplitColons(FormatDuration(seconds));
            && |fields| == (if seconds >= 3600 then 3 else 2)
            && ClockValue(fields) == seconds
            && ClockShaped(fields)
  {
    var minutes, secs := seconds / 60, seconds % 60;
    var hours, mins := minutes / 60, minutes % 60;
    ClockParts(seconds);
    if hours > 0 {
      assert FormatDuration(seconds) == Pad2(hours) + ":" + Pad2(mins) + ":" + Pad2(secs);
      LongClockFields(hours, mins, secs);
    } else {
      assert FormatDuration(seconds) == Pad2(mins) + ":" + Pad2(secs);
      ShortClockFields(mins, secs);
    }
  }
}

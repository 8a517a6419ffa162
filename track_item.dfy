/** `TrackItemComponent.formatDuration`: whole seconds written as m:ss. */
module TrackItem {
  import Decimal

  /** The m:ss text of a minute count and a second count below 60. */
  function Clock(minutes: nat, secs: nat): (r: string)
    requires secs < 60
    ensures |r| >= 4 && r[|r| - 3] == ':'
    ensures Decimal.AllDigits(r[..|r| - 3]) && Decimal.AllDigits(r[|r| - 2..])
  {
    var lead := Decimal.NatToString(minutes);
    var rest := Decimal.PadStart(Decimal.NatToString(secs), 2, '0');
    Decimal.TwoDigits(secs);
    Decimal.Joined(lead, ':', rest)
  }

  /** `${floor(s / 60)}:${String(floor(s % 60)).padStart(2, '0')}` for whole s >= 0. */
  function FormatDuration(seconds: nat): (r: string)
    ensures |r| >= 4 && r[|r| - 3] == ':'
    ensures Decimal.AllDigits(r[..|r| - 3]) && Decimal.AllDigits(r[|r| - 2..])
  {
    Clock(seconds / 60, seconds % 60)
  }

  /** `formatDuration` on a duration that need not be whole, such as the
      size-based estimate: `Math.floor(seconds / 60)`, then
      `Math.floor(seconds % 60)`, where `%` on a non-negative number is
      `seconds - 60 * trunc(seconds / 60)`. */
  function FormatFractional(seconds: real): (r: string)
    requires seconds >= 0.0
    ensures |r| >= 4 && r[|r| - 3] == ':'
  {
    Clock(WholeMinutes(seconds), LeftoverSeconds(seconds))
  }

  /** `Math.floor(seconds / 60)`. */
  function WholeMinutes(seconds: real): nat
    requires seconds >= 0.0
  {
    (seconds / 60.0).Floor
  }

  /** `Math.floor(seconds % 60)`. */
  function LeftoverSeconds(seconds: real): (r: nat)
    requires seconds >= 0.0
    ensures r < 60
  {
    (seconds - 60.0 * WholeMinutes(seconds) as real).Floor
  }

  /** The fraction of a second is dropped: a fractional duration is shown as
      its whole seconds are. */
  lemma FractionDropped(seconds: real)
    requires seconds >= 0.0
    ensures FormatFractional(seconds) == FormatDuration(seconds.Floor)
  {
    var n := seconds.Floor;
    var m := WholeMinutes(seconds);
    assert 60 * m <= n by {
      assert (60 * m) as real <= seconds;
    }
    assert n < 60 * m + 60 by {
      assert seconds < 60.0 * (m + 1) as real;
    }
    assert m == n / 60;
    var remaining := LeftoverSeconds(seconds);
    assert remaining == n - 60 * m by {
      assert (n - 60 * m) as real <= seconds - 60.0 * m as real < (n - 60 * m + 1) as real;
    }
    assert remaining == n % 60;
  }

  /** Reads m:ss text back as seconds: minutes * 60 + seconds. */
  function ReadDuration(r: string): int
    requires |r| >= 4 && Decimal.AllDigits(r[..|r| - 3]) && Decimal.AllDigits(r[|r| - 2..])
  {
    Decimal.DigitsValue(r[..|r| - 3]) * 60 + Decimal.DigitsValue(r[|r| - 2..])
  }

  /** Reading the minutes and the seconds back gives the input: the seconds
      part is below 60, the minutes part has no leading zero, and
      minutes * 60 + seconds is the duration. */
  lemma FormatDurationRoundTrip(seconds: nat)
    ensures var r := FormatDuration(seconds);
            var m := r[..|r| - 3];
            var s := r[|r| - 2..];
            && Decimal.DigitsValue(s) < 60
            && (|m| > 1 ==> m[0] != '0')
            && ReadDuration(r) == seconds
  {
    ClockRead(seconds / 60, seconds % 60);
    DivMod60(seconds);
  }

  lemma DivMod60(n: nat)
    ensures (n / 60) * 60 + n % 60 == n
  {
  }

  /** The parts of m:ss text read back as the minute and second counts. */
  lemma ClockRead(minutes: nat, secs: nat)
    requires secs < 60
    ensures var r := Clock(minutes, secs);
            var m := r[..|r| - 3];
            var s := r[|r| - 2..];
            && Decimal.DigitsValue(s) == secs
            && (|m| > 1 ==> m[0] != '0')
            && ReadDuration(r) == minutes * 60 + secs
  {
    var r := Clock(minutes, secs);
    var lead := Decimal.NatToString(minutes);
    var pad := Decimal.PadStart(Decimal.NatToString(secs), 2, '0');
    assert r[..|r| - 3] == lead;
    assert r[|r| - 2..] == pad;
    Decimal.TwoDigits(secs);
    Decimal.NatToStringRoundTrip(minutes);
  }

  /** Two durations with the same text are the same duration. */
  lemma FormatDurationInjective(a: nat, b: nat)
    requires FormatDuration(a) == FormatDuration(b)
    ensures a == b
  {
    FormatDurationRoundTrip(a);
    FormatDurationRoundTrip(b);
  }

  lemma FormatDurationExample125()
    ensures FormatDuration(125) == "2:05"
  {
    assert 125 / 60 == 2 && 125 % 60 == 5;
    assert Decimal.NatToString(2) == "2";
    assert Decimal.NatToString(5) == "5";
    assert Decimal.PadStart("5", 2, '0') == "05";
    assert FormatDuration(125) == "2" + ":" + "05";
  }

  lemma FormatDurationExample60()
    ensures FormatDuration(60) == "1:00"
  {
    assert 60 / 60 == 1 && 60 % 60 == 0;
    assert Decimal.NatToString(1) == "1";
    assert Decimal.NatToString(0) == "0";
    assert Decimal.PadStart("0", 2, '0') == "00";
    assert FormatDuration(60) == "1" + ":" + "00";
  }

  lemma FormatDurationExample59()
    ensures FormatDuration(59) == "0:59"
  {
    assert 59 / 60 == 0 && 59 % 60 == 59;
    assert Decimal.NatToString(0) == "0";
    assert Decimal.NatToString(59) == "59" by {
      assert Decimal.NatToString(5) == "5";
      assert Decimal.NatToString(59) == Decimal.NatToString(5) + [Decimal.DigitChar(9)];
    }
    assert Decimal.PadStart("59", 2, '0') == "59";
    assert FormatDuration(59) == "0" + ":" + "59";
  }

  /** The two-minute estimate of a file a little over 2 MiB. */
  lemma FormatFractionalExample()
    ensures FormatFractional(125.7) == "2:05"
  {
    FractionDropped(125.7);
    FormatDurationExample125();
  }

  lemma FormatDurationExample0()
    ensures FormatDuration(0) == "0:00"
  {
    assert Decimal.NatToString(0) == "0";
    assert Decimal.PadStart("0", 2, '0') == "00";
    assert FormatDuration(0) == "0" + ":" + "00";
  }
}

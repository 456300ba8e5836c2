/** The `HH:MM` wall clock of the dashboard pages: hours and minutes each
    rendered with `String(...)` and left-padded to two characters with '0'.
    The clock reading itself is a parameter. */
module Clock {
  import opened Decimal

  /** `s.padStart(width, "0")`. */
  function PadStart(s: string, width: nat): (r: string)
    ensures |r| == if |s| >= width then |s| else width
    ensures r[|r| - |s|..] == s
    ensures forall i :: 0 <= i < |r| - |s| ==> r[i] == '0'
    decreases width - |s|
  {
    if |s| >= width then s
    else
      var r := PadStart(['0'] + s, width);
      assert r[|r| - |s|..] == r[|r| - |s| - 1..][1..];
      assert r[|r| - |s| - 1] == '0';
      r
  }

  /** The text the clock shows for a given hour and minute. */
  function FormatClock(hours: nat, minutes: nat): string {
    PadStart(NatToString(hours), 2) + ":" + PadStart(NatToString(minutes), 2)
  }

  /** A two-digit field: the tens digit (a '0' below ten) and the units
      digit. */
  lemma TwoDigitField(n: nat)
    requires n < 100
    ensures PadStart(NatToString(n), 2) == [DigitChar(n / 10), DigitChar(n % 10)]
  {
    var d := NatToString(n);
    if n < 10 {
      assert PadStart(d, 2) == ['0'] + d;
    }
  }

  /** The five characters of a time of day: the tens and units of the
      hour, a colon, the tens and units of the minute. */
  function ClockDigits(hours: nat, minutes: nat): string
    requires hours < 100 && minutes < 100
  {
    [DigitChar(hours / 10), DigitChar(hours % 10), ':', DigitChar(minutes / 10), DigitChar(minutes % 10)]
  }

  /** The clock text for a time of day, character by character. */
  lemma ClockChars(hours: nat, minutes: nat)
    requires hours < 24 && minutes < 60
    ensures FormatClock(hours, minutes) == ClockDigits(hours, minutes)
  {
    var h := PadStart(NatToString(hours), 2);
    var m := PadStart(NatToString(minutes), 2);
    TwoDigitField(hours);
    TwoDigitField(minutes);
    JoinFields(h, m);
  }

  lemma JoinFields(h: string, m: string)
    requires |h| == 2 && |m| == 2
    ensures h + ":" + m == [h[0], h[1], ':', m[0], m[1]]
  {
  }

  /** What the five characters say. */
  lemma DigitsFacts(hours: nat, minutes: nat)
    requires hours < 24 && minutes < 60
    ensures var t := ClockDigits(hours, minutes);
      && |t| == 5 && t[2] == ':' && AllDigits(t[..2]) && AllDigits(t[3..])
      && (t[0] == '0' <==> hours < 10) && (t[3] == '0' <==> minutes < 10)
      && ParseNat(t[..2]) == hours && ParseNat(t[3..]) == minutes
  {
    var t := ClockDigits(hours, minutes);
    assert t[..2] == [DigitChar(hours / 10), DigitChar(hours % 10)];
    assert t[3..] == [DigitChar(minutes / 10), DigitChar(minutes % 10)];
    PairValue(hours);
    PairValue(minutes);
    assert DigitValue('0') == 0;
  }

  /** For a real time of day the clock is five characters: two digits, a
      colon, two digits. */
  lemma ClockShape(hours: nat, minutes: nat)
    requires hours < 24 && minutes < 60
    ensures var t := FormatClock(hours, minutes);
      |t| == 5 && t[2] == ':' && AllDigits(t[..2]) && AllDigits(t[3..])
  {
    ClockChars(hours, minutes);
    DigitsFacts(hours, minutes);
  }

  /** Hours and minutes below ten get a leading zero, and only those. */
  lemma ClockLeadingZeros(hours: nat, minutes: nat)
    requires hours < 24 && minutes < 60
    ensures var t := FormatClock(hours, minutes);
      |t| == 5 && (t[0] == '0' <==> hours < 10) && (t[3] == '0' <==> minutes < 10)
  {
    ClockChars(hours, minutes);
    DigitsFacts(hours, minutes);
  }

  /** Reading the two digit pairs back gives the hours and the minutes. */
  lemma ClockRoundTrip(hours: nat, minutes: nat)
    requires hours < 24 && minutes < 60
    ensures var t := FormatClock(hours, minutes);
      |t| == 5 && AllDigits(t[..2]) && AllDigits(t[3..]) &&
      ParseNat(t[..2]) == hours && ParseNat(t[3..]) == minutes
  {
    ClockChars(hours, minutes);
    DigitsFacts(hours, minutes);
  }

  /** A pair of digits reads back as the number it was made from. */
  lemma PairValue(n: nat)
    requires n < 100
    ensures AllDigits([DigitChar(n / 10), DigitChar(n % 10)])
    ensures ParseNat([DigitChar(n / 10), DigitChar(n % 10)]) == n
  {
    var p := [DigitChar(n / 10), DigitChar(n % 10)];
    var q := [DigitChar(n / 10)];
    assert p[..1] == q;
    assert q[..0] == [];
    assert ParseNat(q) == n / 10;
    assert ParseNat(p) == (n / 10) * 10 + n % 10;
  }

  /** The dashboard page: its only state is the text of the clock. */
  class Dashboard {
    var time: string

    constructor ()
      ensures time == ""
    {
      time := "";
    }

    /** One tick of the clock, for the local hour and minute it reads. */
    method UpdateTime(hours: nat, minutes: nat)
      modifies this
      ensures time == FormatClock(hours, minutes)
    {
      var h := PadStart(NatToString(hours), 2);
      var m := PadStart(NatToString(minutes), 2);
      time := h + ":" + m;
    }
  }
}

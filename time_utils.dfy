/**
 * `formatTimestamp` of the utility package. The calendar fields of the
 * date (local year, month index, day, hours, minutes, seconds) are inputs.
 */
module TimeUtils {
  import opened Common

  /** `n.toString().padStart(2, '0')`. */
  function Pad(n: int): (r: string)
    ensures 0 <= n < 10 ==> r == ['0', DigitChar(n)]
    ensures 10 <= n ==> r == NatToString(n)
    ensures n < 0 ==> r == IntToString(n)
  {
    var s := IntToString(n);
    if |s| < 2 then ['0'] + s else s
  }

  /** For 0..99 the padded text is exactly two digits, whose value is `n`. */
  lemma PadTwoDigits(n: nat)
    requires n < 100
    ensures |Pad(n)| == 2 && AllDigits(Pad(n))
    ensures DigitsValue(Pad(n)) == n
  {
    NatToStringLength(n);
    if n >= 10 {
      DigitsValueOfNatToString(n);
    } else {
      var p := Pad(n);
      assert p[..1][..0] == "";
      assert DigitsValue(p[..1]) == 0;
    }
  }

  /** `Y-MM-DD HH:mm:ss`; the printed month is the month index plus one. */
  function FormatTimestamp(year: int, monthIndex: int, day: int, hours: int, minutes: int, seconds: int): string {
    Layout(IntToString(year), Pad(monthIndex + 1), Pad(day), Pad(hours), Pad(minutes), Pad(seconds))
  }

  /** The text laid out from its pieces: the year, then five two-character fields. */
  function Layout(y: string, mo: string, d: string, h: string, mi: string, se: string): string {
    y + "-" + mo + "-" + d + " " + h + ":" + mi + ":" + se
  }

  lemma Peel(p: string, x: string)
    ensures (p + x)[..|p|] == p && (p + x)[|p|..] == x
  {
  }

  lemma {:induction false} LayoutPositions(y: string, mo: string, d: string, h: string, mi: string, se: string)
    requires |y| == 4 && |mo| == 2 && |d| == 2 && |h| == 2 && |mi| == 2 && |se| == 2
    ensures var t := Layout(y, mo, d, h, mi, se);
      |t| == 19 &&
      t[4] == '-' && t[7] == '-' && t[10] == ' ' && t[13] == ':' && t[16] == ':' &&
      t[..4] == y && t[5..7] == mo && t[8..10] == d && t[11..13] == h && t[14..16] == mi && t[17..19] == se
  {
    var p1 := y + "-";
    var p2 := p1 + mo;
    var p3 := p2 + "-";
    var p4 := p3 + d;
    var p5 := p4 + " ";
    var p6 := p5 + h;
    var p7 := p6 + ":";
    var p8 := p7 + mi;
    var p9 := p8 + ":";
    var t := p9 + se;
    Peel(p9, se);
    Peel(p8, ":");
    Peel(p7, mi);
    Peel(p6, ":");
    Peel(p5, h);
    Peel(p4, " ");
    Peel(p3, d);
    Peel(p2, "-");
    Peel(p1, mo);
    Peel(y, "-");
    assert t[..17] == p9 && t[..16] == p8 && t[..14] == p7 && t[..13] == p6;
    assert t[..11] == p5 && t[..10] == p4 && t[..8] == p3 && t[..7] == p2 && t[..5] == p1;
  }

  /** The fields inside the text, at their fixed positions for a four-digit year. */
  lemma FormatLayout(year: nat, monthIndex: nat, day: nat, hours: nat, minutes: nat, seconds: nat)
    requires 1000 <= year < 10000
    requires monthIndex < 99 && day < 100 && hours < 100 && minutes < 100 && seconds < 100
    ensures var t := FormatTimestamp(year, monthIndex, day, hours, minutes, seconds);
      |t| == 19 &&
      t[4] == '-' && t[7] == '-' && t[10] == ' ' && t[13] == ':' && t[16] == ':' &&
      t[..4] == NatToString(year) &&
      t[5..7] == Pad(monthIndex + 1) && t[8..10] == Pad(day) &&
      t[11..13] == Pad(hours) && t[14..16] == Pad(minutes) && t[17..19] == Pad(seconds)
  {
    NatToStringLength(year);
    PadTwoDigits(monthIndex + 1);
    PadTwoDigits(day);
    PadTwoDigits(hours);
    PadTwoDigits(minutes);
    PadTwoDigits(seconds);
    LayoutPositions(NatToString(year), Pad(monthIndex + 1), Pad(day), Pad(hours), Pad(minutes), Pad(seconds));
  }

  /** Reading the numbers back from their positions gives the year, the month index plus one and the other fields. */
  lemma FormatReadsBack(year: nat, monthIndex: nat, day: nat, hours: nat, minutes: nat, seconds: nat)
    requires 1000 <= year < 10000
    requires monthIndex < 99 && day < 100 && hours < 100 && minutes < 100 && seconds < 100
    ensures var t := FormatTimestamp(year, monthIndex, day, hours, minutes, seconds);
      |t| == 19 && AllDigits(t[..4]) && AllDigits(t[5..7]) && AllDigits(t[8..10]) &&
      AllDigits(t[11..13]) && AllDigits(t[14..16]) && AllDigits(t[17..19]) &&
      DigitsValue(t[..4]) == year && DigitsValue(t[5..7]) == monthIndex + 1 &&
      DigitsValue(t[8..10]) == day && DigitsValue(t[11..13]) == hours &&
      DigitsValue(t[14..16]) == minutes && DigitsValue(t[17..19]) == seconds
  {
    FormatLayout(year, monthIndex, day, hours, minutes, seconds);
    DigitsValueOfNatToString(year);
    PadTwoDigits(monthIndex + 1);
    PadTwoDigits(day);
    PadTwoDigits(hours);
    PadTwoDigits(minutes);
    PadTwoDigits(seconds);
  }
}

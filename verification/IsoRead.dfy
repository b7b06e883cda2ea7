/** Reading a `toISOString` text back, digit by digit and by a day count of its
    own: no month table, no search for the year. What is read is the instant that
    was printed, so every printed field is the right one. */
module IsoRead {
  import opened Text
  import opened IsoTime

  // ---- the Gregorian calendar, by its rules --------------------------------

  /** Thirty days in April, June, September and November, twenty-eight or
      twenty-nine in February, thirty-one in the others. */
  function MonthLength(month: nat, leap: bool): nat
  {
    if month == 2 then (if leap then 29 else 28) else if month in {4, 6, 9, 11} then 30 else 31
  }

  /** The month table of the printer agrees with the rules. */
  lemma MonthLengths(month: nat, leap: bool)
    requires 1 <= month <= 12
    ensures DaysBefore(month, leap) - DaysBefore(month - 1, leap) == MonthLength(month, leap)
    ensures DaysBefore(0, leap) == 0
  {
  }

  /** Days since 1 January 1970, in years that begin in March so that the leap
      day comes last. */
  function CivilDay(year: int, month: nat, date: nat): int
  {
    var y, m := if month <= 2 then year - 1 else year, if month <= 2 then month + 9 else month - 3;
    365 * y + y / 4 - y / 100 + y / 400 + (153 * m + 2) / 5 + date - 719_469
  }

  lemma YearStart(y: int)
    ensures DayFromYear(y) == 365 * (y - 1) + (y - 1) / 4 - (y - 1) / 100 + (y - 1) / 400 - 719_162
  {
    assert (y - 1969) / 4 == (y - 1) / 4 - 492;
    assert (y - 1901) / 100 == (y - 1) / 100 - 19;
    assert (y - 1601) / 400 == (y - 1) / 400 - 4;
  }

  lemma LeapDays(y: int)
    ensures y / 4 - y / 100 + y / 400 == (y - 1) / 4 - (y - 1) / 100 + (y - 1) / 400 + if Leap(y) then 1 else 0
  {
    assert y / 4 - (y - 1) / 4 == if y % 4 == 0 then 1 else 0;
    assert y / 100 - (y - 1) / 100 == if y % 100 == 0 then 1 else 0;
    assert y / 400 - (y - 1) / 400 == if y % 400 == 0 then 1 else 0;
    LeapRemainders(y);
  }

  /** Days before a month, counted from March by the five-month cycle. */
  lemma MonthStart(month: nat, leap: bool)
    requires 1 <= month <= 12
    ensures var m := if month <= 2 then month + 9 else month - 3;
            (153 * m + 2) / 5 == DaysBefore(month - 1, leap) + (if month <= 2 then 306 else if leap then -60 else -59)
  {
  }

  lemma CivilDayIs(y: int, month: nat, date: nat)
    requires 1 <= month <= 12
    ensures CivilDay(y, month, date) == DayFromYear(y) + DaysBefore(month - 1, Leap(y)) + date - 1
  {
    YearStart(y);
    LeapDays(y);
    MonthStart(month, Leap(y));
  }

  function Instant(year: int, month: nat, date: nat, hour: nat, minute: nat, second: nat, ms: nat): int
  {
    (((CivilDay(year, month, date) * 24 + hour) * 60 + minute) * 60 + second) * 1_000 + ms
  }

  // ---- the printed fields ---------------------------------------------------

  lemma TimeRebuilds(s: nat)
    requires s < MS_PER_DAY
    ensures var f := TimeFields(s);
            && f[0] < 24 && f[1] < 60 && f[2] < 60 && f[3] < 1_000
            && s == ((f[0] * 60 + f[1]) * 60 + f[2]) * 1_000 + f[3]
  {
    assert s / 60_000 == s / 3_600_000 * 60 + s / 60_000 % 60;
    assert s / 1_000 == s / 60_000 * 60 + s / 1_000 % 60;
  }

  /** The fields of every instant are a date of the calendar and a time of day,
      and they rebuild the instant. */
  lemma FieldsRebuild(t: int)
    ensures var f := Fields(t);
            && 1 <= f[0] <= 12 && 1 <= f[1] <= MonthLength(f[0], Leap(Year(t)))
            && f[2] < 24 && f[3] < 60 && f[4] < 60 && f[5] < 1_000
            && Instant(Year(t), f[0], f[1], f[2], f[3], f[4], f[5]) == t
  {
    var f := Fields(t);
    DateRebuilds(t);
    TimeRebuilds(TimeInDay(t));
    var g := TimeFields(TimeInDay(t));
    assert f[2] == g[0] && f[3] == g[1] && f[4] == g[2] && f[5] == g[3];
    assert t == Day(t) * MS_PER_DAY + TimeInDay(t);
  }

  lemma DateRebuilds(t: int)
    ensures var f := Fields(t);
            && 1 <= f[0] <= 12 && 1 <= f[1] <= MonthLength(f[0], Leap(Year(t)))
            && CivilDay(Year(t), f[0], f[1]) == Day(t)
  {
    DayInYearFits(t);
    var f, month := Fields(t), MonthOf(DayInYear(t), Leap(Year(t)));
    assert f[0] == month + 1 && f[1] == DayInYear(t) - DaysBefore(month, Leap(Year(t))) + 1;
    MonthLengths(month + 1, Leap(Year(t)));
    CivilDayIs(Year(t), f[0], f[1]);
  }

  // ---- the text -------------------------------------------------------------

  /** The number a decimal text stands for. */
  function Number(s: string): int
  {
    if s == "" then 0 else 10 * Number(s[..|s| - 1]) + (s[|s| - 1] as int - '0' as int)
  }

  lemma {:induction false} PadNumber(n: nat, width: nat)
    requires n < Pow10(width)
    ensures Number(Pad(n, width)) == n
  {
    if width > 0 {
      PadNumber(n / 10, width - 1);
      var s := Pad(n, width);
      assert s[..width - 1] == Pad(n / 10, width - 1) && s[width - 1] == Digit(n % 10);
    }
  }

  /** `-MM-DDTHH:mm:ss.sssZ` behind the year. */
  function ReadFields(year: int, s: string): (r: Option<int>)
  {
    if || |s| != 20 || s[0] != '-' || s[3] != '-' || s[6] != 'T'
       || s[9] != ':' || s[12] != ':' || s[15] != '.' || s[19] != 'Z'
    then None
    else
      var month, date := Number(s[1..3]), Number(s[4..6]);
      var hour, minute, second, ms := Number(s[7..9]), Number(s[10..12]), Number(s[13..15]), Number(s[16..19]);
      if month < 0 || date < 0 || hour < 0 || minute < 0 || second < 0 || ms < 0 then None
      else Some(Instant(year, month, date, hour, minute, second, ms))
  }

  /** Four digits of a year, or a sign and six. */
  function ReadIso(s: string): (r: Option<int>)
  {
    if |s| == 24 then ReadFields(Number(s[..4]), s[4..])
    else if |s| == 27 && s[0] == '+' then ReadFields(Number(s[1..7]), s[7..])
    else if |s| == 27 && s[0] == '-' then ReadFields(-Number(s[1..7]), s[7..])
    else None
  }

  lemma TailParts(fs: seq<nat>, i: nat)
    requires i + |fs| == 6 && fs != []
    ensures var s, w := Tail(fs, i), Width(i);
            && |s| == 1 + w + |Tail(fs[1..], i + 1)|
            && s[0] == SEPARATORS[i] && s[1..1 + w] == Pad(fs[0], w) && s[1 + w..] == Tail(fs[1..], i + 1)
  {
  }

  lemma DateLayout(f: seq<nat>)
    requires |f| == 6
    ensures var s := Tail(f, 0);
            && |s| == 9 + |Tail(f[3..], 3)| && s[9..] == Tail(f[3..], 3) && s[0] == '-' && s[3] == '-' && s[6] == 'T'
            && s[1..3] == Pad(f[0], 2) && s[4..6] == Pad(f[1], 2) && s[7..9] == Pad(f[2], 2)
  {
    var s := Tail(f, 0);
    TailParts(f, 0);
    TailParts(f[1..], 1);
    assert f[1..][1..] == f[2..] && s[3..][3..] == s[6..];
    TailParts(f[2..], 2);
    assert f[2..][1..] == f[3..] && s[6..][3..] == s[9..];
    assert s[3..][1..3] == s[4..6] && s[6..][1..3] == s[7..9];
  }

  lemma TimeLayout(f: seq<nat>)
    requires |f| == 3
    ensures var s := Tail(f, 3);
            && |s| == 11 && s[0] == ':' && s[3] == ':' && s[6] == '.' && s[10] == 'Z'
            && s[1..3] == Pad(f[0], 2) && s[4..6] == Pad(f[1], 2) && s[7..10] == Pad(f[2], 3)
  {
    var s := Tail(f, 3);
    TailParts(f, 3);
    TailParts(f[1..], 4);
    assert f[1..][1..] == f[2..] && s[3..][3..] == s[6..];
    TailParts(f[2..], 5);
    assert f[2..][1..] == [] && s[6..][4..] == s[10..] == "Z";
    assert s[3..][1..3] == s[4..6] && s[6..][1..4] == s[7..10];
  }

  /** Where each field of the printed text stands. */
  lemma TailLayout(f: seq<nat>)
    requires |f| == 6
    ensures var s := Tail(f, 0);
            && |s| == 20 && s[0] == '-' && s[3] == '-' && s[6] == 'T' && s[9] == ':' && s[12] == ':' && s[15] == '.'
            && s[19] == 'Z'
            && s[1..3] == Pad(f[0], 2) && s[4..6] == Pad(f[1], 2) && s[7..9] == Pad(f[2], 2)
            && s[10..12] == Pad(f[3], 2) && s[13..15] == Pad(f[4], 2) && s[16..19] == Pad(f[5], 3)
  {
    var s := Tail(f, 0);
    DateLayout(f);
    TimeLayout(f[3..]);
    assert s[9..][1..3] == s[10..12] && s[9..][4..6] == s[13..15] && s[9..][7..10] == s[16..19];
  }

  lemma NumbersReadBack(year: int, f: seq<nat>)
    requires |f| == 6 && f[0] < 100 && f[1] < 100 && f[2] < 100 && f[3] < 100 && f[4] < 100 && f[5] < 1_000
    ensures ReadFields(year, Tail(f, 0)) == Some(Instant(year, f[0], f[1], f[2], f[3], f[4], f[5]))
  {
    TailLayout(f);
    SmallPowers();
    PadNumber(f[0], 2);
    PadNumber(f[1], 2);
    PadNumber(f[2], 2);
    PadNumber(f[3], 2);
    PadNumber(f[4], 2);
    PadNumber(f[5], 3);
  }

  lemma YearReadBack(y: int, tail: string)
    requires -1_000_000 < y < 1_000_000 && |tail| == 20
    ensures ReadIso(YearText(y) + tail) == ReadFields(y, tail)
  {
    var s := YearText(y) + tail;
    SmallPowers();
    if 0 <= y <= 9999 {
      PadNumber(y, 4);
      assert s[..4] == Pad(y, 4) && s[4..] == tail;
    } else {
      var n := if y < 0 then -y else y;
      PadNumber(n, 6);
      assert s[1..7] == Pad(n, 6) && s[7..] == tail;
    }
  }

  /** Over the whole range of a Date, reading the printed text gives the instant
      back. */
  lemma IsoRoundTrip(t: int)
    requires IsTime(t)
    ensures ReadIso(Iso(t)) == Some(t)
  {
    YearFits(t);
    FieldsRebuild(t);
    TailLayout(Fields(t));
    YearReadBack(Year(t), Tail(Fields(t), 0));
    NumbersReadBack(Year(t), Fields(t));
  }
}

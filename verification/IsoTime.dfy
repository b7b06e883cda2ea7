/** `Date.prototype.toISOString` (section 21.4.4.36 of ECMA-262) and the time
    arithmetic under it (section 21.4.1), with the exact condition under which
    comparing the texts decides the same as comparing the instants. */
module IsoTime {
  import opened Text

  const MS_PER_DAY := 86_400_000
  /** The largest time value a Date can hold. */
  const MAX_TIME := 8_640_000_000_000_000

  predicate IsTime(t: int) { -MAX_TIME <= t <= MAX_TIME }

  function Day(t: int): int { t / MS_PER_DAY }

  function TimeInDay(t: int): nat { t % MS_PER_DAY }

  predicate Leap(y: int) { y % 4 == 0 && (y % 100 != 0 || y % 400 == 0) }

  function DayFromYear(y: int): int
  {
    365 * (y - 1970) + (y - 1969) / 4 - (y - 1901) / 100 + (y - 1601) / 400
  }

  lemma FourthYears(y: int)
    ensures (y - 1968) / 4 - (y - 1969) / 4 == if y % 4 == 0 then 1 else 0
  {
  }

  lemma Centuries(y: int)
    ensures (y - 1900) / 100 - (y - 1901) / 100 == if y % 100 == 0 then 1 else 0
  {
  }

  lemma FourCenturies(y: int)
    ensures (y - 1600) / 400 - (y - 1601) / 400 == if y % 400 == 0 then 1 else 0
  {
  }

  lemma DaysInYear(y: int)
    ensures DayFromYear(y + 1) - DayFromYear(y) == if Leap(y) then 366 else 365
  {
    FourthYears(y);
    Centuries(y);
    FourCenturies(y);
    LeapRemainders(y);
  }

  lemma LeapRemainders(y: int)
    ensures y % 400 == 0 ==> y % 100 == 0
    ensures y % 100 == 0 ==> y % 4 == 0
  {
    assert y == 100 * (y / 100) + y % 100 == 400 * (y / 400) + y % 400;
  }

  lemma {:induction false} DayFromYearMonotone(y: int, z: int)
    requires y <= z
    ensures DayFromYear(z) - DayFromYear(y) >= 365 * (z - y)
    decreases z - y
  {
    if y < z {
      DayFromYearMonotone(y, z - 1);
      DaysInYear(z - 1);
    }
  }

  /** Days between `d` and year `y`, zero inside the year. */
  function YearGap(d: int, y: int): nat
  {
    if d < DayFromYear(y) then DayFromYear(y) - d
    else if d >= DayFromYear(y + 1) then d - DayFromYear(y + 1) + 1
    else 0
  }

  /** The year holding day `d`, searched from year `y`. */
  function YearOfDay(d: int, y: int): (r: int)
    ensures DayFromYear(r) <= d < DayFromYear(r + 1)
    decreases YearGap(d, y)
  {
    YearGapShrinks(d, y);
    if d < DayFromYear(y) then YearOfDay(d, y - 1)
    else if d >= DayFromYear(y + 1) then YearOfDay(d, y + 1)
    else y
  }

  lemma YearGapShrinks(d: int, y: int)
    ensures d < DayFromYear(y) ==> YearGap(d, y - 1) < YearGap(d, y)
    ensures d >= DayFromYear(y + 1) ==> YearGap(d, y + 1) < YearGap(d, y)
  {
    DaysInYear(y - 1);
    DaysInYear(y);
    DaysInYear(y + 1);
  }

  function Year(t: int): int { YearOfDay(Day(t), 1970) }

  function DayInYear(t: int): nat
  {
    Day(t) - DayFromYear(Year(t))
  }

  /** Days before month `m` (0-based) in a year; month 12 ends the year. */
  function DaysBefore(m: nat, leap: bool): nat
    requires m <= 12
  {
    [0, 31, 59, 90, 120, 151, 181, 212, 243, 273, 304, 334, 365][m] + if leap && m >= 2 then 1 else 0
  }

  function MonthOf(d: nat, leap: bool): (m: nat)
    requires d < DaysBefore(12, leap)
    ensures m < 12 && DaysBefore(m, leap) <= d < DaysBefore(m + 1, leap)
  {
    MonthFrom(d, leap, 0)
  }

  function MonthFrom(d: nat, leap: bool, m: nat): (r: nat)
    requires m < 12 && DaysBefore(m, leap) <= d < DaysBefore(12, leap)
    ensures m <= r < 12 && DaysBefore(r, leap) <= d < DaysBefore(r + 1, leap)
    decreases 12 - m
  {
    if d < DaysBefore(m + 1, leap) then m else MonthFrom(d, leap, m + 1)
  }

  lemma DayInYearFits(t: int)
    ensures DayInYear(t) < DaysBefore(12, Leap(Year(t)))
  {
    DaysInYear(Year(t));
  }

  /** Month and date, counted from one. */
  function MonthDate(d: nat, leap: bool): (md: (nat, nat))
    requires d < DaysBefore(12, leap)
    ensures 1 <= md.0 <= 12 && 1 <= md.1 <= 31
  {
    var m := MonthOf(d, leap);
    (m + 1, d - DaysBefore(m, leap) + 1)
  }

  /** Hour, minute, second and millisecond. */
  function TimeFields(s: nat): (fs: seq<nat>)
    ensures |fs| == 4
  {
    [s / 3_600_000, s / 60_000 % 60, s / 1_000 % 60, s % 1_000]
  }

  /** The six fields behind the year, for day `d` of a year and time `s` of a day. */
  function FieldsOf(d: nat, leap: bool, s: nat): (fs: seq<nat>)
    requires d < DaysBefore(12, leap)
    ensures |fs| == 6
  {
    var (month, date) := MonthDate(d, leap);
    [month] + ([date] + TimeFields(s))
  }

  function Fields(t: int): (fs: seq<nat>)
    ensures |fs| == 6
  {
    DayInYearFits(t);
    FieldsOf(DayInYear(t), Leap(Year(t)), TimeInDay(t))
  }

  function Width(i: nat): nat { if i == 5 then 3 else 2 }

  const SEPARATORS := "--T::."

  /** The fields from position `i` on, each behind its separator, then `Z`. */
  function Tail(fs: seq<nat>, i: nat): (s: string)
    requires i + |fs| == 6
    decreases |fs|
  {
    if fs == [] then "Z" else [SEPARATORS[i]] + (Pad(fs[0], Width(i)) + Tail(fs[1..], i + 1))
  }

  function YearText(y: int): (s: string)
  {
    if 0 <= y <= 9999 then Pad(y, 4)
    else if y < 0 then "-" + Pad(-y, 6)
    else "+" + Pad(y, 6)
  }

  /** `new Date(t).toISOString()` */
  function Iso(t: int): (s: string)
  {
    YearText(Year(t)) + Tail(Fields(t), 0)
  }

  // ---- numeric side -------------------------------------------------------

  predicate Fits(fs: seq<nat>, i: nat)
    requires i + |fs| == 6
    decreases |fs|
  {
    fs == [] || (fs[0] < Pow10(Width(i)) && Fits(fs[1..], i + 1))
  }

  lemma SmallPowers()
    ensures Pow10(2) == 100 && Pow10(3) == 1_000 && Pow10(4) == 10_000 && Pow10(6) == 1_000_000
  {
    assert Pow10(1) == 10;
    assert Pow10(5) == 10 * Pow10(4);
  }

  lemma TimeFieldsFit(s: nat)
    requires s < MS_PER_DAY
    ensures Fits(TimeFields(s), 2)
  {
    SmallPowers();
    var f := TimeFields(s);
    assert Fits([], 6);
    assert f[3..][1..] == [] && Fits(f[3..], 5);
    assert f[2..][1..] == f[3..] && Fits(f[2..], 4);
    assert f[1..][1..] == f[2..] && Fits(f[1..], 3);
  }

  lemma FieldsFit(t: int)
    ensures Fits(Fields(t), 0)
  {
    SmallPowers();
    DayInYearFits(t);
    var (month, date) := MonthDate(DayInYear(t), Leap(Year(t)));
    var fs := TimeFields(TimeInDay(t));
    TimeFieldsFit(TimeInDay(t));
    assert ([date] + fs)[1..] == fs;
    assert ([month] + ([date] + fs))[1..] == [date] + fs;
  }

  lemma MonthDateOrder(d: nat, e: nat, leap: bool)
    requires d < e < DaysBefore(12, leap)
    ensures var m, n := MonthDate(d, leap), MonthDate(e, leap);
            m.0 < n.0 || (m.0 == n.0 && m.1 < n.1)
  {
    var m, n := MonthOf(d, leap), MonthOf(e, leap);
    if n < m {
      DaysBeforeMonotone(n + 1, m, leap);
    }
  }

  lemma DaysBeforeMonotone(m: nat, n: nat, leap: bool)
    requires m <= n <= 12
    ensures DaysBefore(m, leap) <= DaysBefore(n, leap)
  {
  }

  lemma SeqLessCons(a: int, b: int, x: seq<int>, y: seq<int>)
    requires |x| == |y|
    ensures SeqLess([a] + x, [b] + y) <==> a < b || (a == b && SeqLess(x, y))
  {
    assert ([a] + x)[1..] == x && ([b] + y)[1..] == y;
  }

  lemma TimeFieldsOrder(r: nat, s: nat)
    requires r < s < MS_PER_DAY
    ensures SeqLess(TimeFields(r), TimeFields(s))
  {
    assert r / 60_000 == r / 3_600_000 * 60 + r / 60_000 % 60 && s / 60_000 == s / 3_600_000 * 60 + s / 60_000 % 60;
    assert r / 1_000 == r / 60_000 * 60 + r / 1_000 % 60 && s / 1_000 == s / 60_000 * 60 + s / 1_000 % 60;
    var f, g := TimeFields(r), TimeFields(s);
    assert f == [f[0]] + ([f[1]] + ([f[2]] + ([f[3]] + [])));
    assert g == [g[0]] + ([g[1]] + ([g[2]] + ([g[3]] + [])));
    SeqLessCons(f[3], g[3], [], []);
    SeqLessCons(f[2], g[2], [f[3]] + [], [g[3]] + []);
    SeqLessCons(f[1], g[1], [f[2]] + ([f[3]] + []), [g[2]] + ([g[3]] + []));
    SeqLessCons(f[0], g[0], [f[1]] + ([f[2]] + ([f[3]] + [])), [g[1]] + ([g[2]] + ([g[3]] + [])));
  }

  lemma FieldsOfOrder(d: nat, e: nat, leap: bool, r: nat, s: nat)
    requires d < DaysBefore(12, leap) && e < DaysBefore(12, leap) && r < MS_PER_DAY && s < MS_PER_DAY
    requires d < e || (d == e && r < s)
    ensures SeqLess(FieldsOf(d, leap, r), FieldsOf(e, leap, s))
  {
    var f, g := TimeFields(r), TimeFields(s);
    var m, n := MonthDate(d, leap), MonthDate(e, leap);
    SeqLessCons(m.1, n.1, f, g);
    SeqLessCons(m.0, n.0, [m.1] + f, [n.1] + g);
    if d < e {
      MonthDateOrder(d, e, leap);
    } else {
      TimeFieldsOrder(r, s);
    }
  }

  lemma DayOrder(t: int, u: int)
    requires t < u
    ensures Day(t) < Day(u) || (Day(t) == Day(u) && TimeInDay(t) < TimeInDay(u))
    ensures TimeInDay(t) < MS_PER_DAY && TimeInDay(u) < MS_PER_DAY
  {
  }

  /** Years and fields, read as one lexicographic key, grow with the instant. */
  lemma FieldsOrder(t: int, u: int)
    requires t < u
    ensures Year(t) < Year(u) || (Year(t) == Year(u) && SeqLess(Fields(t), Fields(u)))
  {
    DayOrder(t, u);
    var y, z := Year(t), Year(u);
    if z < y {
      DayFromYearMonotone(z + 1, y);
    } else if y == z {
      DayInYearFits(t);
      DayInYearFits(u);
      FieldsOfOrder(DayInYear(t), DayInYear(u), Leap(y), TimeInDay(t), TimeInDay(u));
    }
  }

  lemma YearFits(t: int)
    requires IsTime(t)
    ensures -1_000_000 < Year(t) < 1_000_000
  {
    if Year(t) >= 1_000_000 {
      DayFromYearMonotone(1970, Year(t));
    } else if Year(t) <= -1_000_000 {
      DayFromYearMonotone(Year(t) + 1, 1970);
    }
  }

  // ---- textual side -------------------------------------------------------

  lemma {:induction false} TailOrder(f: seq<nat>, g: seq<nat>, i: nat)
    requires i + |f| == 6 && |g| == |f| && Fits(f, i) && Fits(g, i)
    ensures TextLess(Tail(f, i), Tail(g, i)) <==> SeqLess(f, g)
    decreases |f|
  {
    if f == [] {
      TextTotal("Z", "Z");
    } else {
      var a, b := Pad(f[0], Width(i)), Pad(g[0], Width(i));
      var x, y := Tail(f[1..], i + 1), Tail(g[1..], i + 1);
      PadOrder(f[0], g[0], Width(i));
      TailOrder(f[1..], g[1..], i + 1);
      TextLessConcat(a, b, x, y);
      var s := [SEPARATORS[i]];
      TextTotal(s, s);
      TextLessConcat(s, s, a + x, b + y);
    }
  }

  predicate FourDigit(t: int) { 0 <= Year(t) <= 9999 }

  /** The order of two year texts: inside one sign class by number (reversed
      for negative years), otherwise `+` before `-` before a digit. */
  lemma YearTextOrder(y: int, z: int, x: string, w: string)
    requires -1_000_000 < y < z < 1_000_000
    ensures TextLess(YearText(y) + x, YearText(z) + w) <==> !(z < 0) && !(y <= 9999 < z)
  {
    SmallPowers();
    var a, b := YearText(y), YearText(z);
    if 0 <= y && z <= 9999 {
      PadOrder(y, z, 4);
      TextLessConcat(a, b, x, w);
    } else if z < 0 {
      PadOrder(-y, -z, 6);
      TextLessConcat("-", "-", Pad(-y, 6), Pad(-z, 6));
      TextTotal("-", "-");
      TextLessConcat(a, b, x, w);
      TextTotal(Pad(-y, 6), Pad(-z, 6));
    } else if 9999 < y {
      PadOrder(y, z, 6);
      TextLessConcat("+", "+", Pad(y, 6), Pad(z, 6));
      TextTotal("+", "+");
      TextLessConcat(a, b, x, w);
    } else {
      assert (a + x)[0] == a[0] && (b + w)[0] == b[0];
    }
  }

  /** For every pair of instants a Date can hold, the texts are in time order
      exactly when the later year is not negative (unless the years agree) and
      the pair does not straddle the end of year 9999. */
  lemma IsoOrder(t: int, u: int)
    requires IsTime(t) && IsTime(u) && t < u
    ensures TextLess(Iso(t), Iso(u)) <==>
            Year(t) == Year(u) || (0 <= Year(u) && (Year(u) <= 9999 || 9999 < Year(t)))
    ensures Iso(t) != Iso(u)
  {
    FieldsOrder(t, u);
    YearFits(t);
    YearFits(u);
    FieldsFit(t);
    FieldsFit(u);
    var x, y := Tail(Fields(t), 0), Tail(Fields(u), 0);
    TailOrder(Fields(t), Fields(u), 0);
    if Year(t) == Year(u) {
      var a := YearText(Year(t));
      TextTotal(a, a);
      TextLessConcat(a, a, x, y);
      TextTotal(Iso(t), Iso(u));
    } else {
      YearTextOrder(Year(t), Year(u), x, y);
      YearTextInjective(Year(t), Year(u), x, y);
    }
  }

  /** Different years never print the same text. */
  lemma YearTextInjective(y: int, z: int, x: string, w: string)
    requires -1_000_000 < y < z < 1_000_000
    ensures YearText(y) + x != YearText(z) + w
  {
    SmallPowers();
    var a, b := YearText(y), YearText(z);
    if 0 <= y && z <= 9999 {
      PadOrder(y, z, 4);
      assert (a + x)[..4] == a && (b + w)[..4] == b;
    } else if z < 0 || y > 9999 {
      PadOrder(if y < 0 then -y else y, if z < 0 then -z else z, 6);
      assert (a + x)[1..7] == a[1..] && (b + w)[1..7] == b[1..];
      assert a[1..] == Pad(if y < 0 then -y else y, 6) && b[1..] == Pad(if z < 0 then -z else z, 6);
    } else {
      assert (a + x)[0] == a[0] && (b + w)[0] == b[0];
    }
  }

  /** Instants whose text has a four-digit year: the range in which every
      column comparison of the store is a comparison of times. */
  lemma FourDigitOrder(t: int, u: int)
    requires IsTime(t) && IsTime(u) && FourDigit(t) && FourDigit(u)
    ensures TextLess(Iso(t), Iso(u)) <==> t < u
    ensures TextAtMost(Iso(t), Iso(u)) <==> t <= u
    ensures Iso(t) == Iso(u) <==> t == u
  {
    if t < u {
      IsoOrder(t, u);
      TextTotal(Iso(t), Iso(u));
    } else if u < t {
      IsoOrder(u, t);
      TextTotal(Iso(t), Iso(u));
    } else {
      TextTotal(Iso(t), Iso(t));
    }
  }

  const FIRST_FOUR_DIGIT := -62_167_219_200_000
  const LAST_FOUR_DIGIT := 253_402_300_799_999

  /** The four-digit years are one interval of instants. */
  lemma FourDigitInterval(t: int)
    ensures FourDigit(t) <==> FIRST_FOUR_DIGIT <= t <= LAST_FOUR_DIGIT
  {
    var d := Day(t);
    if FourDigit(t) {
      DayFromYearMonotone(0, Year(t));
      DayFromYearMonotone(Year(t) + 1, 10_000);
    } else if Year(t) < 0 {
      DayFromYearMonotone(Year(t) + 1, 0);
    } else {
      DayFromYearMonotone(10_000, Year(t));
    }
  }

  lemma SmallPads()
    ensures Pad(1, 2) == "01" && Pad(0, 2) == "00" && Pad(0, 3) == "000" && Pad(1970, 4) == "1970"
  {
    assert Pad(0, 1) == "0" && Pad(1, 1) == "1";
    assert Pad(19, 2) == "19" && Pad(197, 3) == "197";
  }

  /** The default the migration gives the retention column, field by field:
      1970-01-01T00:00:00.000Z. */
  const MIGRATION_DEFAULT: string :=
    "1970" + ("-" + ("01" + ("-" + ("01" + ("T" + ("00" + (":" + ("00" + (":" + ("00" + ("." + ("000" + "Z"))))))))))))

  lemma EpochDate(t: int)
    requires t == 0
    ensures Year(t) == 1970 && DayInYear(t) == 0
  {
    var y := Year(t);
    if y < 1970 {
      DayFromYearMonotone(y + 1, 1970);
    } else {
      DayFromYearMonotone(1970, y);
    }
  }

  lemma FirstDay(d: nat, leap: bool, s: nat)
    requires d == 0 && s == 0
    ensures d < DaysBefore(12, leap) && FieldsOf(d, leap, s) == [1, 1, 0, 0, 0, 0]
  {
    assert MonthOf(d, leap) == 0;
    assert TimeFields(s) == [0, 0, 0, 0];
  }

  lemma SixFields(f: seq<nat>)
    requires |f| == 6
    ensures Tail(f, 0) ==
      "-" + (Pad(f[0], 2) + ("-" + (Pad(f[1], 2) + ("T" + (Pad(f[2], 2) + (":" + (Pad(f[3], 2) +
      (":" + (Pad(f[4], 2) + ("." + (Pad(f[5], 3) + "Z")))))))))))
  {
    assert f[5..][1..] == f[6..] && f[4..][1..] == f[5..] && f[3..][1..] == f[4..];
    assert f[2..][1..] == f[3..] && f[1..][1..] == f[2..];
    assert Tail(f[5..], 5) == "." + (Pad(f[5], 3) + "Z") by { assert Tail(f[6..], 6) == "Z"; }
    assert Tail(f[4..], 4) == ":" + (Pad(f[4], 2) + Tail(f[5..], 5));
    assert Tail(f[3..], 3) == ":" + (Pad(f[3], 2) + Tail(f[4..], 4));
    assert Tail(f[2..], 2) == "T" + (Pad(f[2], 2) + Tail(f[3..], 3));
    assert Tail(f[1..], 1) == "-" + (Pad(f[1], 2) + Tail(f[2..], 2));
  }

  lemma EpochIso(y: int, d: nat, s: nat)
    requires y == 1970 && d == 0 && s == 0
    ensures d < DaysBefore(12, Leap(y)) && YearText(y) + Tail(FieldsOf(d, Leap(y), s), 0) == MIGRATION_DEFAULT
  {
    FirstDay(d, Leap(y), s);
    SixFields(FieldsOf(d, Leap(y), s));
    SmallPads();
  }

  /** The migration's default is the text of the epoch. */
  lemma EpochText()
    ensures Iso(0) == MIGRATION_DEFAULT
  {
    var t := 0;
    EpochDate(t);
    EpochIso(Year(t), DayInYear(t), TimeInDay(t));
  }

  /** Outside the four-digit years the texts do not follow time: the last
      millisecond of 9999 prints after the first of year 10000. */
  lemma OrderFailsPast9999(t: int, u: int)
    requires t == LAST_FOUR_DIGIT && u == t + 1
    ensures t < u && !TextLess(Iso(t), Iso(u))
  {
    FourDigitInterval(t);
    FourDigitInterval(u);
    FieldsOrder(t, u);
    IsoOrder(t, u);
  }
}

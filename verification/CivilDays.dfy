/** The calendar of the scheduled resets is the Gregorian one: it starts at 1970-01-01 and goes on day by day. */
module CivilDays {
  import opened Calendar

  predicate Leap(year: int) {
    year % 4 == 0 && (year % 100 != 0 || year % 400 == 0)
  }

  function MonthLength(year: int, month: int): int {
    match month
    case 2 => if Leap(year) then 29 else 28
    case 4 => 30
    case 6 => 30
    case 9 => 30
    case 11 => 30
    case _ => 31
  }

  predicate ValidDate(d: Date) {
    1 <= d.month <= 12 && 1 <= d.day <= MonthLength(d.year, d.month)
  }

  // The date of the next day.
  function Following(d: Date): Date {
    if d.day < MonthLength(d.year, d.month) then Date(d.year, d.month, d.day + 1)
    else if d.month < 12 then Date(d.year, d.month + 1, 1)
    else Date(d.year + 1, 1, 1)
  }

  // Years from March: the year a date belongs to, and the number of its month in it.
  function MarchYear(d: Date): int {
    if d.month <= 2 then d.year - 1 else d.year
  }

  function MarchMonth(month: int): int {
    if month > 2 then month - 3 else month + 9
  }

  lemma NumberParts(d: Date)
    ensures DayNumber(d.year, d.month, d.day)
         == MarchYear(d) / 400 * 146097 + DaysBefore(MarchYear(d) % 400) + MonthStart(MarchMonth(d.month)) + d.day - 1
            - 719468
  {
    hide DaysBefore, MonthStart;
  }

  // The days of year `y` of an era, which ends with the February of the next year.
  lemma YearLength(y: int)
    requires 0 <= y < 400
    ensures DaysBefore(y + 1) - DaysBefore(y) == if Leap(y + 1) && y != 399 then 366 else 365
    ensures y == 399 ==> Leap(y + 1)
  {
    var q, s := y / 100, y % 100;
    NextYear(q, s);
    hide DaysBefore;
    assert y == 100 * q + s;
    LeapSplit(q, s);
  }

  lemma LeapSplit(q: int, s: int)
    requires 0 <= q <= 3 && 0 <= s < 100
    ensures Leap(100 * q + s + 1) <==> (s % 4 == 3 && s < 99) || (q == 3 && s == 99)
  {
    assert (100 * q + s + 1) % 4 == (s + 1) % 4;
    assert (100 * q + s + 1) % 100 == (s + 1) % 100;
  }

  lemma LeapCycle(year: int, era: int)
    ensures Leap(year + 400 * era) <==> Leap(year)
  {
    LeapRest(year / 400, year % 400);
    LeapRest(year / 400 + era, year % 400);
    assert year == 400 * (year / 400) + year % 400;
    hide Leap;
  }

  lemma LeapRest(q: int, r: int)
    requires 0 <= r < 400
    ensures Leap(400 * q + r) <==> Leap(r)
  {
    var n := 400 * q + r;
    assert n == 4 * (100 * q + r / 4) + r % 4;
    assert n == 100 * (4 * q + r / 100) + r % 100;
  }

  // Every month but the last lasts until the next one starts.
  lemma MonthsFit(mp: int, year: int)
    requires 0 <= mp < 11
    ensures MonthStart(mp + 1) - MonthStart(mp) == MonthLength(year, if mp < 10 then mp + 3 else mp - 9)
    ensures MonthStart(0) == 0 && MonthStart(11) == 337
  {}

  lemma MonthOfDay(doy: int, mp: int)
    requires 0 <= mp <= 11 && MonthStart(mp) <= doy && (doy < MonthStart(mp + 1) || (mp == 11 && doy <= 365))
    ensures (5 * doy + 2) / 153 == mp
  {}

  lemma DayInMonth(doy: int)
    requires 0 <= doy <= 365
    ensures var mp := (5 * doy + 2) / 153; 0 <= mp <= 11 && MonthStart(mp) <= doy && doy < MonthStart(mp + 1)
  {}

  /** The date of every day number exists. */
  lemma CivilValid(n: int)
    ensures ValidDate(Civil(n))
  {
    hide *;
    CivilValidAt(n, (n + 719468) / 146097, (n + 719468) % 146097);
  }

  lemma CivilValidAt(n: int, era: int, doe: int)
    requires n + 719468 == era * 146097 + doe && 0 <= doe < 146097
    ensures ValidDate(Civil(n))
  {
    hide *;
    var y := YearOfEra(doe);
    var doy := doe - DaysBefore(y);
    var mp := (5 * doy + 2) / 153;
    YearOfEraBounds(doe);
    CivilParts(n, era, doe, doy);
    DayInMonth(doy);
    YearLength(y);
    LeapCycle(y + 1, era);
    DateValid(y, era, mp, doy);
  }

  lemma DateValid(y: int, era: int, mp: int, doy: int)
    requires 0 <= mp <= 11 && MonthStart(mp) <= doy < MonthStart(mp + 1) && doy <= 365
    requires doy == 365 ==> Leap(y + 1 + 400 * era)
    ensures var month := if mp < 10 then mp + 3 else mp - 9;
            ValidDate(Date(y + era * 400 + if month <= 2 then 1 else 0, month, doy - MonthStart(mp) + 1))
  {
    var month := if mp < 10 then mp + 3 else mp - 9;
    var year := y + era * 400 + if month <= 2 then 1 else 0;
    if mp < 11 {
      MonthsFit(mp, year);
    }
    hide Leap;
  }

  /** A date that exists is the date of its number. */
  lemma CivilOfNumber(d: Date)
    requires ValidDate(d)
    ensures Civil(DayNumber(d.year, d.month, d.day)) == d
  {
    hide *;
    CivilOf(d, MarchYear(d) / 400, MarchYear(d) % 400);
  }

  lemma CivilOf(d: Date, era: int, y: int)
    requires ValidDate(d) && MarchYear(d) == 400 * era + y && 0 <= y < 400
    ensures Civil(DayNumber(d.year, d.month, d.day)) == d
  {
    hide *;
    var mp := MarchMonth(d.month);
    var doy := MonthStart(mp) + d.day - 1;
    var doe := DaysBefore(y) + doy;
    YearLength(y);
    LeapCycle(y + 1, era);
    DayOfYear(d, y, era);
    NumberParts(d);
    EraSplit(era, y);
    EraBounds(y, doe, doy);
    MonthOfDay(doy, mp);
    CivilParts(DayNumber(d.year, d.month, d.day), era, doe, doy);
    DateBack(d, era, y);
  }

  lemma DayOfYear(d: Date, y: int, era: int)
    requires ValidDate(d) && MarchYear(d) == 400 * era + y
    ensures var mp, doy := MarchMonth(d.month), MonthStart(MarchMonth(d.month)) + d.day - 1;
            && 1 <= d.month <= 12 && 0 <= mp <= 11 && 0 <= MonthStart(mp) <= doy <= 365
            && (doy < MonthStart(mp + 1) || (mp == 11 && doy <= 365))
            && (doy == 365 ==> Leap(y + 1 + 400 * era))
  {
    var mp := MarchMonth(d.month);
    MonthsStart(mp);
    if mp < 11 {
      MonthsFit(mp, d.year);
      MonthsStart(mp + 1);
    }
    hide Leap, MonthStart;
    MonthsFit(0, d.year);
  }

  lemma EraBounds(y: int, doe: int, doy: int)
    requires 0 <= y < 400 && doe == DaysBefore(y) + doy && 0 <= doy <= 365
    requires doy == 365 ==> Leap(y + 1)
    ensures 0 <= doe < 146097 && YearOfEra(doe) == y
  {
    hide YearOfEra, DaysBefore, Leap;
    EraEnds();
    YearLength(y);
    DaysGrow(0, y);
    DaysGrow(y + 1, 400);
    assert doe <= 146096;
    YearOfEraBounds(doe);
    if doe < 146096 {
      if doy < 365 || y != 399 {
        YearUnique(doe, y);
      }
    } else if y < 399 {
      DaysGrow(y + 1, 399);
    }
  }

  lemma DateBack(d: Date, era: int, y: int)
    requires 1 <= d.month <= 12 && MarchYear(d) == 400 * era + y
    ensures var mp := MarchMonth(d.month);
            var month := if mp < 10 then mp + 3 else mp - 9;
            month == d.month && y + era * 400 + (if month <= 2 then 1 else 0) == d.year
  {}

  lemma NextNumber(d: Date)
    requires ValidDate(d)
    ensures var f := Following(d); DayNumber(f.year, f.month, f.day) == DayNumber(d.year, d.month, d.day) + 1
    ensures ValidDate(Following(d))
  {
    hide DaysBefore, MonthStart, DayNumber, Leap;
    var f := Following(d);
    NumberParts(d);
    NumberParts(f);
    if f.month == 3 && f.day == 1 {
      MarchStarts(d);
    } else if f.day == 1 {
      MonthsFit(MarchMonth(d.month), d.year);
    }
  }

  lemma MarchStarts(d: Date)
    requires d.month == 2 && d.day == MonthLength(d.year, 2)
    ensures DayNumber(d.year, 3, 1) == DayNumber(d.year, 2, d.day) + 1
  {
    hide DaysBefore, MonthStart, DayNumber, Leap;
    var era, y := (d.year - 1) / 400, (d.year - 1) % 400;
    NumberParts(d);
    NumberParts(Date(d.year, 3, 1));
    MonthsFit(0, d.year);
    YearLength(y);
    LeapCycle(y + 1, era);
    EraEnds();
    if y < 399 {
      EraSplit(era, y + 1);
    } else {
      EraSplit(era + 1, 0);
      assert d.year == 0 + (era + 1) * 400;
    }
  }

  /**
   Day 0 is 1 January 1970, a Thursday, and each day is followed by the next one of the Gregorian
   calendar and of the week.
   */
  lemma NextDay(n: int)
    ensures Civil(0) == Date(1970, 1, 1) && DaysSinceMonday(0) == 3
    ensures Civil(n + 1) == Following(Civil(n))
    ensures DaysSinceMonday(n + 1) == if DaysSinceMonday(n) == 6 then 0 else DaysSinceMonday(n) + 1
  {
    DayZero();
    hide Civil, DayNumber, Following, ValidDate;
    var d := Civil(n);
    CivilValid(n);
    CivilRoundTrip(n);
    NextNumber(d);
    CivilOfNumber(Following(d));
  }

  lemma DayZero()
    ensures Civil(0) == Date(1970, 1, 1)
  {
    CivilParts(0, 4, 135080, 306);
  }

  /** Two days share a week exactly when they go back to the same Monday. */
  lemma SameWeek(a: int, b: int)
    ensures SamePeriod("weekly", a, b)
            <==> DayOf(a) - DaysSinceMonday(DayOf(a)) == DayOf(b) - DaysSinceMonday(DayOf(b))
  {}
}

/**
 * The conversion of a Unix timestamp to a UTC date and time: days are counted
 * from 1 March of year 0 in 400-year eras, and the year, month and day are
 * read off with divisions only. The reference is the Gregorian calendar one
 * day at a time.
 */
module Calendar {

  datatype Date = Date(year: nat, month: nat, day: nat)

  datatype Time = Time(hour: nat, minute: nat, second: nat)

  predicate Leap(year: nat) {
    year % 4 == 0 && (year % 100 != 0 || year % 400 == 0)
  }

  function MonthLength(year: nat, month: nat): nat {
    if month == 2 then (if Leap(year) then 29 else 28)
    else if month == 4 || month == 6 || month == 9 || month == 11 then 30
    else 31
  }

  predicate IsDate(d: Date) {
    1 <= d.month <= 12 && 1 <= d.day <= MonthLength(d.year, d.month)
  }

  /** The day after d in the Gregorian calendar. */
  function NextDay(d: Date): Date {
    if d.day < MonthLength(d.year, d.month) then d.(day := d.day + 1)
    else if d.month < 12 then Date(d.year, d.month + 1, 1)
    else Date(d.year + 1, 1, 1)
  }

  /** The calendar date n days after 1970-01-01, counted day by day. */
  function DateAfter(n: nat): Date {
    if n == 0 then Date(1970, 1, 1) else NextDay(DateAfter(n - 1))
  }

  const ERA_DAYS: nat := 146_097
  const EPOCH_DAY: nat := 719_468

  /** The year of the era, counted from March, that holds a day of the era. */
  function YearOfEra(doe: nat): int {
    (doe - doe / 1_460 + doe / 36_524 - doe / 146_096) / 365
  }

  /** The day of the era on which a year of the era begins. */
  function YearStart(yoe: int): int {
    365 * yoe + yoe / 4 - yoe / 100
  }

  function MonthFromMarch(doy: int): int {
    (5 * doy + 2) / 153
  }

  function MonthStart(mp: int): int {
    (153 * mp + 2) / 5
  }

  /** Days since 1970-01-01 to a date, by divisions. */
  function CivilFromDays(days: nat): Date {
    var z := days + EPOCH_DAY;
    var era, doe := z / ERA_DAYS, z % ERA_DAYS;
    var yoe := YearOfEra(doe);
    var doy := doe - YearStart(yoe);
    YearOfEraHolds(doe);
    MonthHolds(doy);
    FromMarch(era, yoe, doy)
  }

  /** The civil date of day doy of March-year yoe of an era. */
  function FromMarch(era: nat, yoe: nat, doy: nat): (r: Date)
    requires doy <= 365
  {
    MonthHolds(doy);
    var mp := MonthFromMarch(doy);
    var day := doy - MonthStart(mp) + 1;
    var month := if mp < 10 then mp + 3 else mp - 9;
    Date(yoe + era * 400 + (if month <= 2 then 1 else 0), month, day)
  }

  /** The last day of a March-year: its February has 29 days when the next civil year is leap. */
  function YearLength(yoe: nat): nat {
    if Leap(yoe + 1) then 366 else 365
  }

  /** Day doy of year 100c + 4b + a of the era. */
  ghost predicate InEra(c: nat, b: nat, a: nat, doy: nat) {
    && c < 4 && b < 25 && a < 4
    && (doy < 365 || (doy == 365 && a == 3 && (b < 24 || c == 3)))
  }

  lemma Split(doe: nat) returns (c: nat, b: nat, a: nat, doy: nat)
    requires doe < ERA_DAYS
    ensures InEra(c, b, a, doy) && doe == 36_524 * c + 1_461 * b + 365 * a + doy
  {
    c := if doe / 36_524 < 3 then doe / 36_524 else 3;
    var inCentury := doe - 36_524 * c;
    b := if inCentury / 1_461 < 24 then inCentury / 1_461 else 24;
    var inCycle := inCentury - 1_461 * b;
    a := if inCycle / 365 < 3 then inCycle / 365 else 3;
    doy := inCycle - 365 * a;
  }

  lemma YearStartOf(c: nat, b: nat, a: nat)
    requires c < 4 && b < 25 && a < 4
    ensures YearStart(100 * c + 4 * b + a) == 36_524 * c + 1_461 * b + 365 * a
    ensures Leap(100 * c + 4 * b + a + 1) <==> a == 3 && (b < 24 || c == 3)
  {
    var y := 100 * c + 4 * b + a;
    assert y / 4 == 25 * c + b && y / 100 == c;
  }

  lemma YearOfEraOf(c: nat, b: nat, a: nat, doy: nat)
    requires InEra(c, b, a, doy)
    ensures YearOfEra(36_524 * c + 1_461 * b + 365 * a + doy) == 100 * c + 4 * b + a
  {
    var doe := 36_524 * c + 1_461 * b + 365 * a + doy;
    var extra := 24 * c + b + 365 * a + doy;
    var over := if extra >= 1_460 then 1 else 0;
    assert doe == 1_460 * (25 * c + b) + extra;
    assert doe / 1_460 == 25 * c + b + over;
    var last := if doe == 146_096 then 1 else 0;
    assert doe / 36_524 == c + last && doe / 146_096 == last;
  }

  /** The divisions find the one year of the era that holds the day. */
  lemma YearOfEraHolds(doe: nat)
    requires doe < ERA_DAYS
    ensures 0 <= YearOfEra(doe) < 400
    ensures YearStart(YearOfEra(doe)) <= doe < YearStart(YearOfEra(doe)) + YearLength(YearOfEra(doe))
  {
    hide YearOfEra, YearStart, Leap;
    var c, b, a, doy := Split(doe);
    YearStartOf(c, b, a);
    YearOfEraOf(c, b, a, doy);
  }

  lemma MonthHolds(doy: int)
    requires 0 <= doy <= 365
    ensures 0 <= MonthFromMarch(doy) <= 11
    ensures MonthStart(MonthFromMarch(doy)) <= doy < MonthStart(MonthFromMarch(doy) + 1)
  {
  }

  /** Years follow each other without a gap, and fill the era. */
  lemma YearOfEraIs(y: nat, doy: nat)
    requires y < 400 && doy < YearLength(y)
    ensures 0 <= YearStart(y) && YearStart(y) + doy < ERA_DAYS && YearOfEra(YearStart(y) + doy) == y
    ensures YearStart(y) + YearLength(y) == if y < 399 then YearStart(y + 1) else ERA_DAYS
  {
    hide YearOfEra, YearStart, Leap;
    var c, b, a := y / 100, y % 100 / 4, y % 4;
    assert y == 100 * c + 4 * b + a;
    YearStartOf(c, b, a);
    YearOfEraOf(c, b, a, doy);
    if a < 3 {
      YearStartOf(c, b, a + 1);
    } else if b < 24 {
      YearStartOf(c, b + 1, 0);
    } else if c < 3 {
      YearStartOf(c + 1, 0, 0);
    }
  }

  /** The date of a day given by its era, year and day of the year. */
  lemma CivilAt(era: nat, y: nat, doy: nat, days: nat)
    requires y < 400 && doy < YearLength(y) && days + EPOCH_DAY == ERA_DAYS * era + YearStart(y) + doy
    ensures CivilFromDays(days) == FromMarch(era, y, doy)
  {
    hide YearOfEra, YearStart, FromMarch;
    YearOfEraIs(y, doy);
    var z := days + EPOCH_DAY;
    assert z / ERA_DAYS == era && z % ERA_DAYS == YearStart(y) + doy;
  }

  lemma Leap400(y: nat)
    ensures Leap(y + 400) == Leap(y)
  {
    Shift4(y);
    Shift100(y);
    Shift400(y);
  }

  lemma Shift4(y: nat)
    ensures (y + 400) % 4 == y % 4
  {
    assert y + 400 == 4 * (y / 4 + 100) + y % 4;
  }

  lemma Shift100(y: nat)
    ensures (y + 400) % 100 == y % 100
  {
    assert y + 400 == 100 * (y / 100 + 4) + y % 100;
  }

  lemma Shift400(y: nat)
    ensures (y + 400) % 400 == y % 400
  {
    assert y + 400 == 400 * (y / 400 + 1) + y % 400;
  }

  lemma {:induction false} LeapEra(era: nat, y: nat)
    ensures Leap(y + era * 400) == Leap(y)
  {
    hide Leap;
    if era > 0 {
      LeapEra(era - 1, y);
      Leap400(y + (era - 1) * 400);
    }
  }

  lemma MonthUnique(doy: int, mp: int)
    requires 0 <= mp <= 11 && MonthStart(mp) <= doy < MonthStart(mp + 1)
    ensures MonthFromMarch(doy) == mp
  {
  }

  /** The lengths of the months from March to January; February takes what is left. */
  lemma MonthSpan(mp: int)
    requires 0 <= mp <= 11
    ensures mp < 11 ==>
              MonthStart(mp + 1) - MonthStart(mp) == if mp == 1 || mp == 3 || mp == 6 || mp == 8 then 30 else 31
    ensures mp < 11 ==> MonthStart(mp + 1) <= 337
    ensures mp == 11 ==> MonthStart(mp) == 337 && MonthStart(mp + 1) == 367
  {
  }

  /** Months from March have their civil lengths, the last one what is left of the year. */
  lemma MarchMonth(era: nat, yoe: nat, doy: nat)
    requires doy < YearLength(yoe)
    ensures IsDate(FromMarch(era, yoe, doy))
    ensures NextDay(FromMarch(era, yoe, doy)) ==
              if doy + 1 < YearLength(yoe) then FromMarch(era, yoe, doy + 1) else Date(yoe + 1 + era * 400, 3, 1)
  {
    hide Leap, MonthStart, MonthFromMarch;
    LeapEra(era, yoe + 1);
    MonthHolds(doy);
    var mp := MonthFromMarch(doy);
    MonthSpan(mp);
    if doy + 1 < MonthStart(mp + 1) {
      MonthUnique(doy + 1, mp);
    } else if mp < 11 {
      MonthSpan(mp + 1);
      MonthUnique(doy + 1, mp + 1);
    }
  }

  /** Each day number gives a date, and the next number the next calendar day. */
  lemma NextNumberNextDay(days: nat)
    ensures IsDate(CivilFromDays(days))
    ensures CivilFromDays(days + 1) == NextDay(CivilFromDays(days))
  {
    hide YearOfEra, YearStart, FromMarch, NextDay, IsDate, YearLength;
    var z := days + EPOCH_DAY;
    var era, doe := z / ERA_DAYS, z % ERA_DAYS;
    YearOfEraHolds(doe);
    var y := YearOfEra(doe);
    var doy := doe - YearStart(y);
    CivilAt(era, y, doy, days);
    MarchMonth(era, y, doy);
    YearOfEraIs(y, doy);
    if doy + 1 < YearLength(y) {
      CivilAt(era, y, doy + 1, days + 1);
    } else if y < 399 {
      FirstOfMarch(era, y + 1);
      CivilAt(era, y + 1, 0, days + 1);
    } else {
      FirstOfMarch(era + 1, 0);
      CivilAt(era + 1, 0, 0, days + 1);
    }
  }

  lemma FirstOfMarch(era: nat, y: nat)
    ensures FromMarch(era, y, 0) == Date(y + era * 400, 3, 1)
    ensures YearLength(y) > 0 && YearStart(0) == 0
  {
    hide Leap, MonthFromMarch, MonthStart;
    MarchStarts();
  }

  lemma MarchStarts()
    ensures MonthFromMarch(0) == 0 && MonthStart(0) == 0
  {
  }

  lemma EpochDay()
    ensures CivilFromDays(0) == Date(1970, 1, 1)
  {
    hide YearOfEra, CivilFromDays;
    assert YearStart(369) == 134_774 && YearLength(369) == 365;
    CivilAt(4, 369, 306, 0);
  }

  /** The divisions give the proleptic Gregorian calendar, for every day number. */
  lemma {:induction false} CivilIsGregorian(days: nat)
    ensures CivilFromDays(days) == DateAfter(days)
  {
    hide CivilFromDays, NextDay;
    if days == 0 {
      EpochDay();
    } else {
      CivilIsGregorian(days - 1);
      NextNumberNextDay(days - 1);
    }
  }

  /** The fields a timestamp is printed with. */
  function FormatFields(unixSecs: nat): (r: (Date, Time))
  {
    var rem := unixSecs % 86_400;
    (CivilFromDays(unixSecs / 86_400), Time(rem / 3_600, rem % 3_600 / 60, rem % 60))
  }

  /** Every timestamp prints a real calendar date and a time that recombines to it. */
  lemma FormatIsCalendar(unixSecs: nat)
    ensures var (d, t) := FormatFields(unixSecs);
            && IsDate(d) && d == DateAfter(unixSecs / 86_400)
            && t.hour < 24 && t.minute < 60 && t.second < 60
            && 3_600 * t.hour + 60 * t.minute + t.second == unixSecs % 86_400
  {
    hide CivilFromDays, IsDate, DateAfter;
    CivilIsGregorian(unixSecs / 86_400);
    NextNumberNextDay(unixSecs / 86_400);
  }
}

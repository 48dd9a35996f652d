/**
 Civil-calendar arithmetic as section 21.4.1 of ECMA-262 defines it for `Date`, and the
 month advance of `src/webhook/confio-period.util.ts` on top of it.

 A day is counted from the epoch; a month is 0..11, a date within a month is 1..31.
 */
module Calendar {
  import opened Basics

  predicate IsLeap(y: int) { y % 4 == 0 && (y % 100 != 0 || y % 400 == 0) }

  function YearLength(y: int): int { if IsLeap(y) then 366 else 365 }

  /** Day number of 1 January of year `y`. */
  function YearStart(y: int): int {
    365 * (y - 1970) + (y - 1969) / 4 - (y - 1901) / 100 + (y - 1601) / 400
  }

  function MonthLength(y: int, m: int): (n: int)
    ensures 28 <= n <= 31
  {
    if m == 1 then (if IsLeap(y) then 29 else 28)
    else if m == 3 || m == 5 || m == 8 || m == 10 then 30
    else 31
  }

  /** Days of year `y` before month `m`. */
  function DaysBefore(y: int, m: int): (n: int)
    requires 0 <= m <= 12
    ensures m == 0 ==> n == 0
  {
    if m == 0 then 0 else DaysBefore(y, m - 1) + MonthLength(y, m - 1)
  }

  /** The day number `MakeDay` computes: month and date may both overflow. */
  function MakeDay(y: int, m: int, date: int): int {
    YearStart(y + m / 12) + DaysBefore(y + m / 12, m % 12) + date - 1
  }

  function TimeInDay(t: Instant): int { t % MS_PER_DAY }

  function DayOf(t: Instant): int { t / MS_PER_DAY }

  function SearchYear(day: int, y: int): (r: int)
    ensures YearStart(r) <= day < YearStart(r + 1)
    decreases day < YearStart(y), if day < YearStart(y) then YearStart(y) - day else day - YearStart(y)
  {
    YearStep(y);
    YearStep(y - 1);
    if day < YearStart(y) then SearchYear(day, y - 1)
    else if YearStart(y + 1) <= day then SearchYear(day, y + 1)
    else y
  }

  function YearOf(day: int): (y: int)
    ensures YearStart(y) <= day < YearStart(y + 1)
  {
    SearchYear(day, 1970)
  }

  function SearchMonth(y: int, offset: int, m: int): (r: int)
    requires 0 <= m <= 11 && DaysBefore(y, m) <= offset < DaysBefore(y, 12)
    ensures 0 <= r <= 11 && DaysBefore(y, r) <= offset < DaysBefore(y, r + 1)
    decreases 12 - m
  {
    if offset < DaysBefore(y, m + 1) then m else SearchMonth(y, offset, m + 1)
  }

  function MonthOf(day: int): (m: int)
    ensures 0 <= m <= 11
    ensures DaysBefore(YearOf(day), m) <= day - YearStart(YearOf(day)) < DaysBefore(YearOf(day), m + 1)
  {
    var y := YearOf(day);
    YearStep(y);
    MonthsFillTheYear(y);
    SearchMonth(y, day - YearStart(y), 0)
  }

  function DateOf(day: int): (d: int)
    ensures 1 <= d <= MonthLength(YearOf(day), MonthOf(day))
  {
    day - YearStart(YearOf(day)) - DaysBefore(YearOf(day), MonthOf(day)) + 1
  }

  lemma FourthYears(y: int)
    ensures (y - 1968) / 4 - (y - 1969) / 4 == if y % 4 == 0 then 1 else 0
  {
  }

  lemma HundredthYears(y: int)
    ensures (y - 1900) / 100 - (y - 1901) / 100 == if y % 100 == 0 then 1 else 0
  {
  }

  lemma FourHundredthYears(y: int)
    ensures (y - 1600) / 400 - (y - 1601) / 400 == if y % 400 == 0 then 1 else 0
  {
  }

  lemma LeapYearsNest(y: int)
    ensures y % 400 == 0 ==> y % 100 == 0
    ensures y % 100 == 0 ==> y % 4 == 0
  {
  }

  lemma YearStep(y: int)
    ensures YearStart(y + 1) == YearStart(y) + YearLength(y)
  {
    FourthYears(y);
    HundredthYears(y);
    FourHundredthYears(y);
    LeapYearsNest(y);
  }

  lemma MonthStep(y: int, m: int)
    requires 0 <= m <= 11
    ensures DaysBefore(y, m + 1) == DaysBefore(y, m) + MonthLength(y, m)
  {
  }

  lemma MonthsFillTheYear(y: int)
    ensures DaysBefore(y, 12) == YearLength(y)
  {
    hide DaysBefore;
    MonthStep(y, 0); MonthStep(y, 1); MonthStep(y, 2); MonthStep(y, 3);
    MonthStep(y, 4); MonthStep(y, 5); MonthStep(y, 6); MonthStep(y, 7);
    MonthStep(y, 8); MonthStep(y, 9); MonthStep(y, 10); MonthStep(y, 11);
  }

  /** `DayFromMonth` of section 21.4.1: the days of a common year before each month. */
  const DAYS_BEFORE_MONTH: seq<int> := [0, 31, 59, 90, 120, 151, 181, 212, 243, 273, 304, 334, 365]

  /** The months have the lengths they have, and a leap year one more day from March on. */
  lemma MonthsStartWhereTheyDo(y: int, m: int)
    requires 0 <= m <= 12
    ensures DaysBefore(y, m) == DAYS_BEFORE_MONTH[m] + (if IsLeap(y) && m >= 2 then 1 else 0)
  {
    hide IsLeap, DaysBefore;
    MonthStep(y, 0); MonthStep(y, 1); MonthStep(y, 2); MonthStep(y, 3);
    MonthStep(y, 4); MonthStep(y, 5); MonthStep(y, 6); MonthStep(y, 7);
    MonthStep(y, 8); MonthStep(y, 9); MonthStep(y, 10); MonthStep(y, 11);
    YearBegins(y);
  }

  lemma YearBegins(y: int)
    ensures DaysBefore(y, 0) == 0
  {
  }

  /** `MakeDay` carries whole years of months, in either direction. */
  lemma MonthsCarryIntoYears(y: int, m: int, years: int, date: int)
    requires 0 <= m <= 11
    ensures MakeDay(y, m + 12 * years, date) == YearStart(y + years) + DAYS_BEFORE_MONTH[m]
                                                + (if IsLeap(y + years) && m >= 2 then 1 else 0) + date - 1
  {
    hide YearStart, DaysBefore, IsLeap;
    assert (m + 12 * years) / 12 == years && (m + 12 * years) % 12 == m;
    MonthsStartWhereTheyDo(y + years, m);
  }

  lemma {:induction false} YearStartGrows(a: int, b: int)
    requires a <= b
    ensures YearStart(b) - YearStart(a) >= 365 * (b - a)
    decreases b - a
  {
    if a < b {
      YearStep(b - 1);
      YearStartGrows(a, b - 1);
    }
  }

  lemma {:induction false} MonthsGrow(y: int, a: int, b: int)
    requires 0 <= a <= b <= 12
    ensures DaysBefore(y, b) >= DaysBefore(y, a) + 28 * (b - a)
    decreases b - a
  {
    if a < b { MonthsGrow(y, a, b - 1); }
  }

  /** Reading a day built from year, month and date gives back all three. */
  lemma CivilRoundTrip(y: int, m: int, d: int)
    requires 0 <= m <= 11 && 1 <= d <= MonthLength(y, m)
    ensures var day := MakeDay(y, m, d);
            YearOf(day) == y && MonthOf(day) == m && DateOf(day) == d
  {
    hide YearStart, DaysBefore, SearchYear, SearchMonth, YearOf, MonthOf;
    var day := MakeDay(y, m, d);
    MonthStep(y, m);
    MonthsGrow(y, m + 1, 12);
    MonthsGrow(y, 0, m);
    MonthsFillTheYear(y);
    YearStep(y);
    var r := YearOf(day);
    if r < y { YearStartGrows(r + 1, y); }
    if y < r { YearStartGrows(y + 1, r); }
    var q := MonthOf(day);
    if q < m { MonthsGrow(y, q + 1, m); }
    if m < q { MonthsGrow(y, m + 1, q); }
  }

  /** And building a day from what was read gives back the day. */
  lemma DayRoundTrip(day: int)
    ensures MakeDay(YearOf(day), MonthOf(day), DateOf(day)) == day
  {
    hide YearStart, DaysBefore, YearOf, MonthOf;
    assert MonthOf(day) / 12 == 0 && MonthOf(day) % 12 == MonthOf(day);
  }

  // ---------------------------------------------------------------- one month later

  /** The year and month after month `m` of year `y`. */
  function NextYear(y: int, m: int): int { if m == 11 then y + 1 else y }

  function NextMonth(m: int): int { if m == 11 then 0 else m + 1 }

  /** The same date a month later, cut to the last day of a shorter month. */
  function NextMonthDay(day: int): int {
    var y, m := NextYear(YearOf(day), MonthOf(day)), NextMonth(MonthOf(day));
    MakeDay(y, m, Min(DateOf(day), MonthLength(y, m)))
  }

  /** The instant one monthly cycle later: a civil month, same time of day. */
  function AddOneMonth(t: Instant): (r: Instant)
    ensures t + 28 * MS_PER_DAY <= r <= t + 31 * MS_PER_DAY
  {
    AdvanceIsFourWeeksAtLeast(DayOf(t));
    NextMonthDay(DayOf(t)) * MS_PER_DAY + TimeInDay(t)
  }

  lemma MonthStartStep(y: int, m: int)
    requires 0 <= m <= 11
    ensures MakeDay(NextYear(y, m), NextMonth(m), 1) == MakeDay(y, m, 1) + MonthLength(y, m)
    ensures MakeDay(y, m + 1, 1) == MakeDay(NextYear(y, m), NextMonth(m), 1)
  {
    hide YearStart, DaysBefore;
    MonthStep(y, m);
    YearStep(y);
    MonthsFillTheYear(y);
  }

  lemma AdvanceIsFourWeeksAtLeast(day: int)
    ensures day + 28 <= NextMonthDay(day) <= day + 31
  {
    hide YearStart, DaysBefore;
    DayRoundTrip(day);
    MonthStartStep(YearOf(day), MonthOf(day));
  }

  /** The result is month + 1, the clamped date, and the same time of day. */
  lemma AddOneMonthIsCivil(t: Instant)
    ensures var day, next := DayOf(t), DayOf(AddOneMonth(t));
            && YearOf(next) == NextYear(YearOf(day), MonthOf(day))
            && MonthOf(next) == NextMonth(MonthOf(day))
            && DateOf(next) == Min(DateOf(day), MonthLength(YearOf(next), MonthOf(next)))
            && TimeInDay(AddOneMonth(t)) == TimeInDay(t)
  {
    hide YearStart, DaysBefore, YearOf, MonthOf, DateOf;
    var day := DayOf(t);
    var y, m := NextYear(YearOf(day), MonthOf(day)), NextMonth(MonthOf(day));
    CivilRoundTrip(y, m, Min(DateOf(day), MonthLength(y, m)));
  }

  lemma {:induction false} MonthStartsGrow(y: int, m: int, z: int, n: int)
    requires 0 <= m <= 11 && 0 <= n <= 11
    requires y < z || (y == z && m < n)
    ensures MakeDay(y, m, 1) + MonthLength(y, m) <= MakeDay(z, n, 1)
  {
    hide YearStart, DaysBefore;
    YearStep(y);
    MonthsFillTheYear(y);
    MonthStep(y, m);
    MonthsGrow(y, m + 1, 12);
    if y < z {
      YearStartGrows(y + 1, z);
      MonthsGrow(z, 0, n);
    } else {
      MonthsGrow(y, m + 1, n);
    }
  }

  /** A later calendar date never ends its cycle on an earlier one. */
  lemma NextMonthDayIsMonotone(a: int, b: int)
    requires a <= b
    ensures NextMonthDay(a) <= NextMonthDay(b)
  {
    hide YearStart, DaysBefore, YearOf, MonthOf, DateOf;
    DayRoundTrip(a);
    DayRoundTrip(b);
    var ya, ma, yb, mb := YearOf(a), MonthOf(a), YearOf(b), MonthOf(b);
    if yb < ya || (ya == yb && mb < ma) {
      MonthStartsGrow(yb, mb, ya, ma);
      assert false;
    } else if ya != yb || ma != mb {
      MonthStartsGrow(NextYear(ya, ma), NextMonth(ma), NextYear(yb, mb), NextMonth(mb));
    }
  }

  predicate SameMonth(a: int, b: int) { YearOf(a) == YearOf(b) && MonthOf(a) == MonthOf(b) }

  /** Days of the month after a day's. */
  function NextMonthLength(day: int): int {
    MonthLength(NextYear(YearOf(day), MonthOf(day)), NextMonth(MonthOf(day)))
  }

  /** Two days end their cycle on one day exactly when the clamp takes both to the end of one month. */
  lemma CyclesMeetIff(a: int, b: int)
    requires a < b
    ensures NextMonthDay(a) == NextMonthDay(b) <==> SameMonth(a, b) && DateOf(a) >= NextMonthLength(a)
  {
    hide YearStart, DaysBefore, YearOf, MonthOf, DateOf;
    DayRoundTrip(a);
    DayRoundTrip(b);
    var ya, ma, yb, mb := YearOf(a), MonthOf(a), YearOf(b), MonthOf(b);
    if yb < ya || (ya == yb && mb < ma) {
      MonthStartsGrow(yb, mb, ya, ma);
      assert false;
    } else if ya != yb || ma != mb {
      MonthStartsGrow(NextYear(ya, ma), NextMonth(ma), NextYear(yb, mb), NextMonth(mb));
    }
  }

  /**
   The instants themselves are not always ordered: the clamp drops the date but keeps the time of
   day. The later instant ends its cycle first exactly when both lie in one month, on different
   days, the earlier already past the last date of the next month, and the later at an earlier
   time of its day.
   */
  lemma InstantsCrossIff(a: Instant, b: Instant)
    requires a <= b
    ensures AddOneMonth(b) < AddOneMonth(a) <==>
            && DayOf(a) < DayOf(b) && SameMonth(DayOf(a), DayOf(b))
            && DateOf(DayOf(a)) >= NextMonthLength(DayOf(a))
            && TimeInDay(b) < TimeInDay(a)
  {
    hide NextMonthDay, SameMonth, NextMonthLength, DateOf;
    if DayOf(a) < DayOf(b) {
      CyclesMeetIff(DayOf(a), DayOf(b));
      NextMonthDayIsMonotone(DayOf(a), DayOf(b));
    }
  }

  /** Such as every 30 January at 00:20 and the next day at 00:01. */
  lemma InstantsMayCross(day: int)
    requires MonthOf(day) == 0 && DateOf(day) == 30
    ensures var a, b := day * MS_PER_DAY + 20 * MS_PER_MINUTE, (day + 1) * MS_PER_DAY + MS_PER_MINUTE;
            a < b && AddOneMonth(b) < AddOneMonth(a)
  {
    hide YearStart, DaysBefore, YearOf, MonthOf, DateOf;
    DayRoundTrip(day);
    CivilRoundTrip(YearOf(day), 0, 31);
  }

  // ---------------------------------------------------------------- dates one can look up

  predicate IsDate(day: int, y: int, m: int, d: int) { YearOf(day) == y && MonthOf(day) == m && DateOf(day) == d }

  lemma DateIs(day: int, y: int, m: int, d: int)
    requires 0 <= m <= 11 && 1 <= d <= MonthLength(y, m)
    requires day == YearStart(y) + DAYS_BEFORE_MONTH[m] + (if IsLeap(y) && m >= 2 then 1 else 0) + d - 1
    ensures IsDate(day, y, m, d)
  {
    hide YearStart, DaysBefore, YearOf, MonthOf, DateOf, IsLeap, MonthLength;
    MonthsStartWhereTheyDo(y, m);
    CivilRoundTrip(y, m, d);
  }

  /** Days around the leap rules, and a summer's end that a wrong month length would move. */
  lemma KnownDates()
    ensures IsDate(0, 1970, 0, 1) && IsDate(-1, 1969, 11, 31)
    ensures IsDate(-25509, 1900, 1, 28) && IsDate(-25508, 1900, 2, 1)
    ensures IsDate(11016, 2000, 1, 29) && IsDate(11017, 2000, 2, 1)
    ensures IsDate(19782, 2024, 1, 29) && IsDate(19966, 2024, 7, 31) && IsDate(19996, 2024, 8, 30)
    ensures IsDate(47540, 2100, 1, 28) && IsDate(47541, 2100, 2, 1)
  {
    hide YearOf, MonthOf, DateOf, IsDate;
    DateIs(0, 1970, 0, 1); DateIs(-1, 1969, 11, 31);
    DateIs(-25509, 1900, 1, 28); DateIs(-25508, 1900, 2, 1);
    DateIs(11016, 2000, 1, 29); DateIs(11017, 2000, 2, 1);
    DateIs(19782, 2024, 1, 29); DateIs(19966, 2024, 7, 31); DateIs(19996, 2024, 8, 30);
    DateIs(47540, 2100, 1, 28); DateIs(47541, 2100, 2, 1);
  }

  /** 31 August ends its cycle on 30 September; 31 January on the last of February, leap or not. */
  lemma KnownCycles()
    ensures NextMonthDay(19966) == 19996
    ensures NextMonthDay(19753) == 19782 && NextMonthDay(20119) == 20147
    ensures NextMonthDay(20088) == 20119
  {
    hide NextMonthDay;
    SummerCycle();
    LeapCycle();
    CommonCycle();
    YearEndCycle();
  }

  lemma SummerCycle()
    ensures NextMonthDay(19966) == 19996
  {
    hide DaysBefore, YearOf, MonthOf, DateOf, NextMonthDay;
    CycleIs(19966, 2024, 7, 31, 19996, 30);
  }

  lemma LeapCycle()
    ensures NextMonthDay(19753) == 19782
  {
    hide DaysBefore, YearOf, MonthOf, DateOf, NextMonthDay;
    CycleIs(19753, 2024, 0, 31, 19782, 29);
  }

  lemma CommonCycle()
    ensures NextMonthDay(20119) == 20147
  {
    hide DaysBefore, YearOf, MonthOf, DateOf, NextMonthDay;
    CycleIs(20119, 2025, 0, 31, 20147, 28);
  }

  lemma YearEndCycle()
    ensures NextMonthDay(20088) == 20119
  {
    hide DaysBefore, YearOf, MonthOf, DateOf, NextMonthDay;
    CycleIs(20088, 2024, 11, 31, 20119, 31);
  }

  lemma CycleIs(day: int, y: int, m: int, d: int, next: int, last: int)
    requires 0 <= m <= 11 && 1 <= d <= MonthLength(y, m) && d >= last == MonthLength(NextYear(y, m), NextMonth(m))
    requires day == YearStart(y) + DAYS_BEFORE_MONTH[m] + (if IsLeap(y) && m >= 2 then 1 else 0) + d - 1
    requires var z, n := NextYear(y, m), NextMonth(m);
             next == YearStart(z) + DAYS_BEFORE_MONTH[n] + (if IsLeap(z) && n >= 2 then 1 else 0) + last - 1
    ensures NextMonthDay(day) == next
  {
    hide YearStart, DaysBefore, YearOf, MonthOf, DateOf, IsLeap, MonthLength;
    DateIs(day, y, m, d);
    MonthsStartWhereTheyDo(NextYear(y, m), NextMonth(m));
  }

  /** Two instants one civil month apart: the next month, the same date or its last one, the same time. */
  predicate OneMonthApart(a: Instant, b: Instant) {
    var day, next := DayOf(a), DayOf(b);
    && YearOf(next) == (if MonthOf(day) == 11 then YearOf(day) + 1 else YearOf(day))
    && MonthOf(next) == (if MonthOf(day) == 11 then 0 else MonthOf(day) + 1)
    && DateOf(next) == Min(DateOf(day), MonthLength(YearOf(next), MonthOf(next)))
    && TimeInDay(b) == TimeInDay(a)
  }

  /** That fixes the later instant. */
  lemma OneMonthApartIff(a: Instant, b: Instant)
    ensures OneMonthApart(a, b) <==> b == AddOneMonth(a)
  {
    hide YearStart, DaysBefore, YearOf, MonthOf, DateOf;
    AddOneMonthIsCivil(a);
    if OneMonthApart(a, b) {
      DayRoundTrip(DayOf(b));
      DayRoundTrip(DayOf(AddOneMonth(a)));
    }
  }

  // ---------------------------------------------------------------- the imperative form

  /** A `Date`, with the three UTC setters and getters the month advance uses. */
  class JsDate {
    var time: Instant

    constructor (t: Instant)
      ensures time == t
    {
      time := t;
    }

    function GetUTCMonth(): int reads this { MonthOf(DayOf(time)) }

    function GetUTCDate(): int reads this { DateOf(DayOf(time)) }

    method SetUTCMonth(m: int)
      modifies this
      ensures time == MakeDay(YearOf(DayOf(old(time))), m, DateOf(DayOf(old(time)))) * MS_PER_DAY + TimeInDay(old(time))
    {
      time := MakeDay(YearOf(DayOf(time)), m, GetUTCDate()) * MS_PER_DAY + TimeInDay(time);
    }

    method SetUTCDate(d: int)
      modifies this
      ensures time == MakeDay(YearOf(DayOf(old(time))), MonthOf(DayOf(old(time))), d) * MS_PER_DAY + TimeInDay(old(time))
    {
      time := MakeDay(YearOf(DayOf(time)), GetUTCMonth(), d) * MS_PER_DAY + TimeInDay(time);
    }
  }

  /** A date the next month lacks overflows into the month after it, on a smaller date. */
  lemma OverflowLandsInMonthAfter(day: int)
    ensures var y, m := NextYear(YearOf(day), MonthOf(day)), NextMonth(MonthOf(day));
            var landed := MakeDay(YearOf(day), MonthOf(day) + 1, DateOf(day));
            if DateOf(day) <= MonthLength(y, m) then landed == NextMonthDay(day) && DateOf(landed) == DateOf(day)
            else DateOf(landed) < DateOf(day) && MakeDay(YearOf(landed), MonthOf(landed), 0) == NextMonthDay(day)
  {
    hide YearStart, DaysBefore, YearOf, MonthOf;
    DayRoundTrip(day);
    hide DateOf;
    var d := DateOf(day);
    var y, m := NextYear(YearOf(day), MonthOf(day)), NextMonth(MonthOf(day));
    MonthStartStep(YearOf(day), MonthOf(day));
    if d <= MonthLength(y, m) {
      CivilRoundTrip(y, m, d);
    } else {
      MonthStartStep(y, m);
      CivilRoundTrip(NextYear(y, m), NextMonth(m), d - MonthLength(y, m));
    }
  }

  /** Overflow, then step back to day 0: the code's month advance, proved to be the clamped one. */
  method AdvanceOneCycle(from: JsDate) returns (end: JsDate)
    ensures fresh(end) && end.time == AddOneMonth(from.time)
  {
    hide YearStart, DaysBefore, MakeDay, YearOf, MonthOf, DateOf;
    end := new JsDate(from.time);
    var date := end.GetUTCDate();
    OverflowLandsInMonthAfter(DayOf(end.time));
    end.SetUTCMonth(end.GetUTCMonth() + 1);
    if end.GetUTCDate() < date {
      end.SetUTCDate(0);
    }
  }
}

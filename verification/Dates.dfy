/** Civil dates (`chrono::NaiveDate`, years 0 and later) and their `YYYYMMDD` encoding. */
module Dates {
  import opened Collections

  datatype Civil = Civil(year: nat, month: nat, day: nat)

  predicate Leap(y: nat) {
    y % 4 == 0 && (y % 100 != 0 || y % 400 == 0)
  }

  function MonthLength(y: nat, m: nat): (n: nat)
    requires 1 <= m <= 12
    ensures 28 <= n <= 31
  {
    if m == 2 then (if Leap(y) then 29 else 28)
    else if m == 4 || m == 6 || m == 9 || m == 11 then 30
    else 31
  }

  predicate Valid(c: Civil) {
    1 <= c.month <= 12 && 1 <= c.day <= MonthLength(c.year, c.month)
  }

  type Date = c: Civil | Valid(c) witness Civil(1970, 1, 1)

  /** chrono's `Ord` on dates. */
  predicate Before(a: Date, b: Date) {
    a.year < b.year || (a.year == b.year && (a.month < b.month || (a.month == b.month && a.day < b.day)))
  }

  function Next(d: Date): Date {
    if d.day < MonthLength(d.year, d.month) then Civil(d.year, d.month, d.day + 1)
    else if d.month < 12 then Civil(d.year, d.month + 1, 1)
    else Civil(d.year + 1, 1, 1)
  }

  /** `pred_opt`: the day before, absent only at the start of the model's calendar. */
  function Pred(d: Date): (r: Option<Date>)
    ensures r.None? <==> d == Civil(0, 1, 1)
    ensures r.Some? ==> Next(r.value) == d
  {
    if d.day > 1 then Some(Civil(d.year, d.month, d.day - 1))
    else if d.month > 1 then Some(Civil(d.year, d.month - 1, MonthLength(d.year, d.month - 1)))
    else if d.year > 0 then Some(Civil(d.year - 1, 12, 31))
    else None
  }

  /** `year * 10000 + month * 100 + day`. */
  function Ymd(d: Date): nat {
    d.year * 10_000 + d.month * 100 + d.day
  }

  /** The encoding is strictly monotone, hence injective: comparing integers compares dates. */
  lemma YmdMonotone(a: Date, b: Date)
    ensures Before(a, b) <==> Ymd(a) < Ymd(b)
    ensures a == b <==> Ymd(a) == Ymd(b)
  {
    YmdIncreases(a, b);
    YmdIncreases(b, a);
  }

  lemma YmdIncreases(a: Date, b: Date)
    ensures Before(a, b) ==> Ymd(a) < Ymd(b)
  {
    if a.year < b.year {
      assert (b.year - a.year) * 10_000 >= 10_000;
    } else if a.year == b.year && a.month < b.month {
      assert (b.month - a.month) * 100 >= 100;
    }
  }

  // ---------------------------------------------------------------- counting days

  function DaysBeforeYear(y: nat): nat {
    if y == 0 then 0 else DaysBeforeYear(y - 1) + (if Leap(y - 1) then 366 else 365)
  }

  function DaysBeforeMonth(y: nat, m: nat): nat
    requires 1 <= m <= 12
  {
    if m == 1 then 0 else DaysBeforeMonth(y, m - 1) + MonthLength(y, m - 1)
  }

  /** Days since 0000-01-01. */
  function DayNumber(d: Date): nat {
    DaysBeforeYear(d.year) + DaysBeforeMonth(d.year, d.month) + d.day - 1
  }

  /** 0 = Monday; 0000-01-01 was a Saturday. */
  function Weekday(d: Date): (w: nat)
    ensures w < 7
  {
    (DayNumber(d) + 5) % 7
  }

  /** Weekdays follow one another, and the first of January 1970 was a Thursday. */
  lemma WeekdaysRunOn(d: Date)
    ensures Weekday(Next(d)) == (Weekday(d) + 1) % 7
    ensures Weekday(Civil(1970, 1, 1)) == 3
  {
    NextCounts(d);
    hide DayNumber, Next;
    SevenDays(DayNumber(d) + 5);
    EpochDay();
  }

  lemma SevenDays(n: nat)
    ensures (n + 1) % 7 == (n % 7 + 1) % 7
  {}

  lemma EpochDay()
    ensures DayNumber(Civil(1970, 1, 1)) == 719_528
  {
    YearsCount(1970);
    hide DaysBeforeYear;
    assert DaysBeforeMonth(1970, 1) == 0;
  }

  /** The calendar's days, counted: every fourth year has one more, but not of centuries, except every
      fourth of those. */
  lemma {:induction false} YearsCount(y: nat)
    requires y > 0
    ensures DaysBeforeYear(y) == 365 * y + (y + 3) / 4 - (y + 99) / 100 + (y + 399) / 400
  {
    if y > 1 {
      YearsCount(y - 1);
      LeapCounts(y - 1);
      hide Leap;
    }
  }

  lemma LeapCounts(y: nat)
    ensures var fours, centuries, others := (y + 4) / 4 - (y + 3) / 4, (y + 100) / 100 - (y + 99) / 100, (y + 400) / 400 - (y + 399) / 400;
      fours - centuries + others == if Leap(y) then 1 else 0
  {
    Fours(y);
    Centuries(y);
    FourCenturies(y);
    HundredsAreFours(y);
    LeapFrom(y, (y + 4) / 4 - (y + 3) / 4, (y + 100) / 100 - (y + 99) / 100, (y + 400) / 400 - (y + 399) / 400);
  }

  lemma LeapFrom(y: nat, fours: int, centuries: int, others: int)
    requires fours == (if y % 4 == 0 then 1 else 0) && centuries == (if y % 100 == 0 then 1 else 0) && others == (if y % 400 == 0 then 1 else 0)
    requires (y % 100 == 0 ==> y % 4 == 0) && (y % 400 == 0 ==> y % 100 == 0)
    ensures fours - centuries + others == if Leap(y) then 1 else 0
  {}

  lemma HundredsAreFours(y: nat)
    ensures y % 100 == 0 ==> y % 4 == 0
    ensures y % 400 == 0 ==> y % 100 == 0
  {
    assert y == 100 * (y / 100) + y % 100 == 4 * (25 * (y / 100)) + y % 100;
    assert y == 400 * (y / 400) + y % 400 == 100 * (4 * (y / 400)) + y % 400;
  }

  lemma Fours(y: nat)
    ensures (y + 4) / 4 - (y + 3) / 4 == if y % 4 == 0 then 1 else 0
  {}

  lemma Centuries(y: nat)
    ensures (y + 100) / 100 - (y + 99) / 100 == if y % 100 == 0 then 1 else 0
  {}

  lemma FourCenturies(y: nat)
    ensures (y + 400) / 400 - (y + 399) / 400 == if y % 400 == 0 then 1 else 0
  {}

  lemma {:induction false} MonthEnds(y: nat, m: nat)
    requires 1 <= m <= 12
    ensures DaysBeforeMonth(y, m) + MonthLength(y, m) <= (if Leap(y) then 366 else 365)
    ensures m == 12 ==> DaysBeforeMonth(y, m) + 31 == if Leap(y) then 366 else 365
  {
    assert DaysBeforeMonth(y, 2) == 31;
    assert DaysBeforeMonth(y, 3) == 31 + MonthLength(y, 2);
    assert DaysBeforeMonth(y, 5) == DaysBeforeMonth(y, 3) + 61;
    assert DaysBeforeMonth(y, 7) == DaysBeforeMonth(y, 5) + 61;
    assert DaysBeforeMonth(y, 9) == DaysBeforeMonth(y, 7) + 62;
    assert DaysBeforeMonth(y, 11) == DaysBeforeMonth(y, 9) + 61;
    assert DaysBeforeMonth(y, 12) == DaysBeforeMonth(y, 11) + 30;
    assert m in {1, 2, 3, 4, 5, 6, 7, 8, 9, 10, 11, 12};
  }

  lemma NextCounts(d: Date)
    ensures DayNumber(Next(d)) == DayNumber(d) + 1
    ensures Before(d, Next(d))
  {
    MonthEnds(d.year, d.month);
  }

  lemma {:induction false} MonthsIncrease(y: nat, m: nat, n: nat)
    requires 1 <= m < n <= 12
    ensures DaysBeforeMonth(y, m) + MonthLength(y, m) <= DaysBeforeMonth(y, n)
  {
    if m + 1 < n {
      MonthsIncrease(y, m, n - 1);
    }
  }

  lemma {:induction false} YearsIncrease(x: nat, y: nat)
    requires x < y
    ensures DaysBeforeYear(x) + (if Leap(x) then 366 else 365) <= DaysBeforeYear(y)
  {
    if x + 1 < y {
      YearsIncrease(x, y - 1);
    }
  }

  lemma BeforeCounts(a: Date, b: Date)
    requires Before(a, b)
    ensures DayNumber(a) < DayNumber(b)
  {
    MonthEnds(a.year, a.month);
    if a.year < b.year {
      YearsIncrease(a.year, b.year);
    } else if a.month < b.month {
      MonthsIncrease(a.year, a.month, b.month);
    }
  }

  /** Date order, day count and integer encoding all agree. */
  lemma OrderAgrees(a: Date, b: Date)
    ensures Before(a, b) <==> DayNumber(a) < DayNumber(b)
    ensures Before(a, b) <==> Ymd(a) < Ymd(b)
    ensures a == b <==> DayNumber(a) == DayNumber(b)
  {
    YmdMonotone(a, b);
    if Before(a, b) {
      BeforeCounts(a, b);
    } else if Before(b, a) {
      BeforeCounts(b, a);
    } else {
      assert a == b;
    }
  }
}

/** The budget windows of the execution policy over the Gregorian calendar. */
module Calendar {
  import opened Basics

  datatype Period = Daily | Monthly | Quarterly | Total

  predicate IsLeap(year: nat) {
    year % 4 == 0 && (year % 100 != 0 || year % 400 == 0)
  }

  /** Length in days of the month `index`, counted from January 1970. */
  function MonthLength(index: nat): (days: nat)
    ensures 28 <= days <= 31
  {
    var month := index % 12 + 1;
    if month == 2 then if IsLeap(1970 + index / 12) then 29 else 28
    else if month in {4, 6, 9, 11} then 30
    else 31
  }

  /** First day, counted from 1970-01-01, of the month `index`. */
  function MonthStart(index: nat): nat {
    if index == 0 then 0 else MonthStart(index - 1) + MonthLength(index - 1)
  }

  /** The month that holds `day`, searched from the month `from`. */
  function MonthFrom(day: nat, from: nat): (index: nat)
    requires MonthStart(from) <= day
    ensures from <= index
    ensures MonthStart(index) <= day < MonthStart(index + 1)
    decreases day - MonthStart(from)
  {
    if day < MonthStart(from + 1) then from else MonthFrom(day, from + 1)
  }

  function MonthOf(day: nat): (index: nat)
    ensures MonthStart(index) <= day < MonthStart(index + 1)
  {
    MonthFrom(day, 0)
  }

  /** First day of the window that `day` falls in; `Total` never resets. */
  function FirstDay(period: Period, day: nat): nat {
    match period
    case Daily => day
    case Monthly => MonthStart(MonthOf(day))
    case Quarterly => MonthStart(MonthOf(day) / 3 * 3)
    case Total => 0
  }

  /** Start of the budget window that `now` falls in. */
  function PeriodStart(period: Period, now: Time): Time {
    FirstDay(period, now / DAY) * DAY
  }

  lemma {:induction false} MonthStartMonotone(i: nat, j: nat)
    requires i <= j
    ensures MonthStart(i) <= MonthStart(j)
    ensures i < j ==> MonthStart(i) < MonthStart(j)
    decreases j
  {
    if i < j {
      MonthStartMonotone(i, j - 1);
    }
  }

  lemma MonthOfMonotone(d: nat, e: nat)
    requires d <= e
    ensures MonthOf(d) <= MonthOf(e)
  {
    if MonthOf(e) < MonthOf(d) {
      MonthStartMonotone(MonthOf(e) + 1, MonthOf(d));
    }
  }

  lemma FirstDayMonotone(period: Period, d: nat, e: nat)
    requires d <= e
    ensures FirstDay(period, d) <= FirstDay(period, e)
  {
    var i, j := MonthOf(d), MonthOf(e);
    MonthOfMonotone(d, e);
    match period
    case Monthly => MonthStartMonotone(i, j);
    case Quarterly =>
      QuarterMonotone(i, j);
      MonthStartMonotone(i / 3 * 3, j / 3 * 3);
    case _ =>
  }

  lemma QuarterMonotone(i: nat, j: nat)
    requires i <= j
    ensures i / 3 * 3 <= j / 3 * 3
  {
  }

  /** A window never moves back: usage that has left it stays out of it. */
  lemma PeriodStartMonotone(period: Period, t: Time, u: Time)
    requires t <= u
    ensures PeriodStart(period, t) <= PeriodStart(period, u)
  {
    FirstDayMonotone(period, t / DAY, u / DAY);
  }

  /** An instant is inside its own window. */
  lemma PeriodStartNotAfter(period: Period, t: Time)
    ensures PeriodStart(period, t) <= t
  {
    var day := t / DAY;
    MonthStartMonotone(MonthOf(day) / 3 * 3, MonthOf(day));
    assert FirstDay(period, day) <= day;
  }

  // ---------------------------------------------------------------- dates

  /** A date: year, month from one to twelve, and day of the month from one. */
  datatype Date = Date(year: nat, month: nat, day: nat)

  function DateOf(day: nat): Date {
    var i := MonthOf(day);
    Date(1970 + i / 12, i % 12 + 1, day - MonthStart(i) + 1)
  }

  /** Days in a month of the Gregorian calendar. */
  function DaysIn(year: nat, month: nat): nat {
    if month == 2 then if year % 400 == 0 || (year % 4 == 0 && year % 100 != 0) then 29 else 28
    else if month == 4 || month == 6 || month == 9 || month == 11 then 30
    else 31
  }

  predicate IsDate(d: Date) {
    1970 <= d.year && 1 <= d.month <= 12 && 1 <= d.day <= DaysIn(d.year, d.month)
  }

  /** The day after a date. */
  function NextDate(d: Date): Date {
    if d.day < DaysIn(d.year, d.month) then d.(day := d.day + 1)
    else if d.month < 12 then Date(d.year, d.month + 1, 1)
    else Date(d.year + 1, 1, 1)
  }

  lemma MonthIs(day: nat, i: nat)
    requires MonthStart(i) <= day < MonthStart(i + 1)
    ensures MonthOf(day) == i
  {
    var j := MonthOf(day);
    if j < i {
      MonthStartMonotone(j + 1, i);
    } else if i < j {
      MonthStartMonotone(i + 1, j);
    }
  }

  lemma LengthIs(i: nat)
    ensures MonthLength(i) == DaysIn(1970 + i / 12, i % 12 + 1)
  {
  }

  /** The month after `i` in years and months. */
  lemma NextMonth(i: nat)
    ensures if i % 12 + 1 < 12 then (i + 1) / 12 == i / 12 && (i + 1) % 12 == i % 12 + 1
            else (i + 1) / 12 == i / 12 + 1 && (i + 1) % 12 == 0
  {
  }

  /** The date of a day whose month is known. */
  lemma DateIn(day: nat, i: nat)
    requires MonthStart(i) <= day < MonthStart(i) + MonthLength(i)
    ensures DateOf(day) == Date(1970 + i / 12, i % 12 + 1, day - MonthStart(i) + 1) && IsDate(DateOf(day))
  {
    MonthIs(day, i);
    LengthIs(i);
  }

  lemma MonthHolds(day: nat)
    ensures MonthStart(MonthOf(day)) <= day < MonthStart(MonthOf(day)) + MonthLength(MonthOf(day))
  {
  }

  lemma MonthFollows(i: nat)
    ensures MonthStart(i + 1) == MonthStart(i) + MonthLength(i) && MonthLength(i) >= 28
  {
  }

  /** Days count the Gregorian calendar: the first is 1970-01-01 and each is the day after the one before. */
  lemma DatesCount(day: nat)
    ensures DateOf(0) == Date(1970, 1, 1)
    ensures IsDate(DateOf(day)) && DateOf(day + 1) == NextDate(DateOf(day))
  {
    DateIn(0, 0);
    MonthHolds(day);
    DateFollows(day, MonthOf(day));
  }

  /** The first of the month `i`, in years and months. */
  function MonthDate(i: nat): Date {
    Date(1970 + i / 12, i % 12 + 1, 1)
  }

  lemma MonthDateFollows(i: nat)
    ensures MonthDate(i + 1) == NextDate(MonthDate(i).(day := DaysIn(MonthDate(i).year, MonthDate(i).month)))
  {
    NextMonth(i);
  }

  lemma WithinMonth(day: nat, i: nat)
    requires MonthStart(i) <= day && day + 1 < MonthStart(i) + MonthLength(i)
    ensures DateOf(day + 1) == NextDate(DateOf(day))
  {
    DateIn(day, i);
    DateIn(day + 1, i);
    LengthIs(i);
    var first := MonthDate(i);
    assert DateOf(day) == first.(day := day - MonthStart(i) + 1) && DateOf(day + 1) == first.(day := day - MonthStart(i) + 2);
    assert MonthLength(i) == DaysIn(first.year, first.month);
  }

  lemma EndOfMonth(day: nat, i: nat)
    requires day + 1 == MonthStart(i) + MonthLength(i)
    ensures DateOf(day + 1) == NextDate(DateOf(day))
  {
    LengthIs(i);
    MonthFollows(i);
    DateIn(day, i);
    FirstOfMonth(i + 1);
    MonthDateFollows(i);
  }

  lemma FirstOfMonth(i: nat)
    ensures DateOf(MonthStart(i)) == MonthDate(i)
  {
    MonthFollows(i);
    DateIn(MonthStart(i), i);
  }

  lemma DateFollows(day: nat, i: nat)
    requires MonthStart(i) <= day < MonthStart(i) + MonthLength(i)
    ensures IsDate(DateOf(day)) && DateOf(day + 1) == NextDate(DateOf(day))
  {
    DateIn(day, i);
    if day + 1 < MonthStart(i) + MonthLength(i) {
      WithinMonth(day, i);
    } else {
      EndOfMonth(day, i);
    }
  }

  /** The first month of a quarter. */
  function QuarterMonth(month: nat): nat {
    if month <= 3 then 1 else if month <= 6 then 4 else if month <= 9 then 7 else 10
  }

  /** A window starts at midnight: of the same day, of the first of the same month, of the first of the same
      quarter, or at the beginning of 1970. */
  lemma PeriodStartIs(period: Period, now: Time)
    ensures PeriodStart(period, now) % 86_400_000_000 == 0
    ensures
      var today, first := DateOf(now / 86_400_000_000), DateOf(PeriodStart(period, now) / 86_400_000_000);
      first == match period
        case Daily => today
        case Monthly => today.(day := 1)
        case Quarterly => Date(today.year, QuarterMonth(today.month), 1)
        case Total => Date(1970, 1, 1)
  {
    var day := now / DAY;
    var i := MonthOf(day);
    var first := FirstDay(period, day);
    assert PeriodStart(period, now) == first * DAY && first * DAY / DAY == first && first * DAY % DAY == 0;
    DatesCount(day);
    match period
    case Monthly => FirstOfMonth(i);
    case Quarterly =>
      FirstOfMonth(i / 3 * 3);
      QuarterOf(i);
    case _ =>
  }

  lemma QuarterOf(i: nat)
    ensures i / 3 * 3 / 12 == i / 12 && i / 3 * 3 % 12 + 1 == QuarterMonth(i % 12 + 1)
  {
    var y, m := i / 12, i % 12;
    assert i == 12 * y + m;
    assert i / 3 == 4 * y + m / 3;
  }
}

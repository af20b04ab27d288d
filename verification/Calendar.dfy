/**
 Civil dates of the Gregorian calendar in UTC. Days are counted from Monday 1 January of year 1, the
 zero of Go's time.Time; months are counted from January of year 1, both in either direction.
 */
module Calendar {
  import opened Common

  predicate IsLeap(year: int) { year % 4 == 0 && (year % 100 != 0 || year % 400 == 0) }

  function Year(month: int): int { month / 12 + 1 }

  /** January is 1. */
  function MonthOfYear(month: int): (r: int)
    ensures 1 <= r <= 12
  {
    month % 12 + 1
  }

  function LengthIn(year: int, monthOfYear: int): (n: int)
    ensures 28 <= n <= 31
  {
    if monthOfYear == 2 then (if IsLeap(year) then 29 else 28)
    else if monthOfYear == 4 || monthOfYear == 6 || monthOfYear == 9 || monthOfYear == 11 then 30
    else 31
  }

  function MonthLength(month: int): int { LengthIn(Year(month), MonthOfYear(month)) }

  /** The first day of a month. */
  function FirstOf(month: int): int
    decreases if month < 0 then -month else month
  {
    if month == 0 then 0
    else if month > 0 then FirstOf(month - 1) + MonthLength(month - 1)
    else FirstOf(month + 1) - MonthLength(month)
  }

  lemma NextFirst(month: int)
    ensures FirstOf(month + 1) == FirstOf(month) + MonthLength(month)
  {}

  /** The month that a day falls in. */
  function MonthOf(day: int): (m: int)
    ensures FirstOf(m) <= day < FirstOf(m) + MonthLength(m)
    decreases if day < 0 then -day else day
  {
    if day == 0 then 0
    else if day > 0 then
      var m := MonthOf(day - 1);
      if day < FirstOf(m) + MonthLength(m) then m
      else
        NextFirst(m);
        m + 1
    else
      var m := MonthOf(day + 1);
      if day >= FirstOf(m) then m
      else
        NextFirst(m - 1);
        m - 1
  }

  function DayOfMonth(day: int): (d: int)
    ensures 1 <= d <= MonthLength(MonthOf(day))
  {
    day - FirstOf(MonthOf(day)) + 1
  }

  function WeekOf(day: int): int { day / 7 }

  /** Monday is 1 and Sunday 7. */
  function Weekday(day: int): (d: int)
    ensures 1 <= d <= 7
  {
    day % 7 + 1
  }

  lemma {:induction false} MonthsAdvance(m: int, n: int)
    requires m <= n
    ensures FirstOf(m) + 28 * (n - m) <= FirstOf(n)
    decreases n - m
  {
    if m < n {
      MonthsAdvance(m, n - 1);
      NextFirst(n - 1);
    }
  }

  lemma MonthOfIsUnique(day: int, m: int)
    requires FirstOf(m) <= day < FirstOf(m) + MonthLength(m)
    ensures MonthOf(day) == m
  {
    var k := MonthOf(day);
    NextFirst(m);
    NextFirst(k);
    if k < m {
      MonthsAdvance(k + 1, m);
    } else if m < k {
      MonthsAdvance(m + 1, k);
    }
  }

  /** Thirty days hath September. */
  lemma LengthsOfMonths(year: int, k: int)
    requires 1 <= k <= 12
    ensures var month := 12 * (year - 1) + k - 1;
            Year(month) == year && MonthOfYear(month) == k &&
            MonthLength(month) == [31, if IsLeap(year) then 29 else 28, 31, 30, 31, 30, 31, 31, 30, 31, 30, 31][k - 1]
  {}

  /** The calendar agrees with the Gregorian rule: 365 days a year and one more for each leap year before. */
  lemma {:induction false} NewYearsDay(y: int)
    requires y >= 1
    ensures FirstOf(12 * (y - 1)) == 365 * (y - 1) + (y - 1) / 4 - (y - 1) / 100 + (y - 1) / 400
  {
    if y > 1 {
      NewYearsDay(y - 1);
      YearLength(y - 1);
      LeapCount(y - 1);
    }
  }

  lemma MonthStep(y: int, m: int)
    requires 1 <= m <= 12
    ensures FirstOf(12 * (y - 1) + m) == FirstOf(12 * (y - 1) + m - 1) + LengthIn(y, m)
  {
    var month := 12 * (y - 1) + m - 1;
    QuotientUnique(month, 12, y - 1, m - 1);
    NextFirst(month);
  }

  lemma YearLength(y: int)
    ensures FirstOf(12 * y) == FirstOf(12 * (y - 1)) + if IsLeap(y) then 366 else 365
  {
    MonthStep(y, 1);
    MonthStep(y, 2);
    MonthStep(y, 3);
    MonthStep(y, 4);
    MonthStep(y, 5);
    MonthStep(y, 6);
    MonthStep(y, 7);
    MonthStep(y, 8);
    MonthStep(y, 9);
    MonthStep(y, 10);
    MonthStep(y, 11);
    MonthStep(y, 12);
  }

  lemma LeapCount(y: int)
    ensures y / 4 - y / 100 + y / 400 == (y - 1) / 4 - (y - 1) / 100 + (y - 1) / 400 + if IsLeap(y) then 1 else 0
  {
    QuotientStep(y, 4);
    QuotientStep(y, 100);
    QuotientStep(y, 400);
  }

  lemma QuotientStep(y: int, n: int)
    requires n > 1
    ensures y / n == (y - 1) / n + if y % n == 0 then 1 else 0
  {
    var q, r := y / n, y % n;
    if r == 0 {
      QuotientUnique(y - 1, n, q - 1, n - 1);
    } else {
      QuotientUnique(y - 1, n, q, r - 1);
    }
  }

  lemma QuotientUnique(x: int, n: int, q: int, r: int)
    requires n > 0 && x == n * q + r && 0 <= r < n
    ensures x / n == q
  {
    var p := x / n;
    assert n * p <= x < n * p + n;
    if p < q {
      MulStrict(n, p, q);
    } else if q < p {
      MulStrict(n, q, p);
    }
  }
}

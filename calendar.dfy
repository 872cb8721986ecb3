/**
 * The UTC calendar month of a timestamp, as MongoDB's `$year` and `$month`
 * operators compute it. Timestamps are milliseconds since 1970-01-01T00:00Z
 * and are not negative in this model.
 */
module Calendar {

  const MS_PER_DAY: nat := 86400000

  /** A calendar month; stands for `$dateFromParts({year, month, day: 1})`, the first day of that month. */
  datatype Period = Period(year: nat, month: nat)

  predicate ValidPeriod(p: Period) {
    1 <= p.month <= 12
  }

  predicate IsLeap(y: nat) {
    y % 4 == 0 && (y % 100 != 0 || y % 400 == 0)
  }

  function DaysInYear(y: nat): nat {
    if IsLeap(y) then 366 else 365
  }

  function DaysInMonth(y: nat, m: nat): nat
    requires 1 <= m <= 12
  {
    if m == 2 then (if IsLeap(y) then 29 else 28)
    else if m == 4 || m == 6 || m == 9 || m == 11 then 30
    else 31
  }

  /** The number of days in the years `from` up to but excluding `to`. */
  function YearsSpan(from: nat, to: nat): nat
    requires from <= to
    decreases (to as int) - (from as int)
  {
    if from == to then 0 else DaysInYear(from) + YearsSpan(from + 1, to)
  }

  /** The number of days in the months `from` up to but excluding `to` of year `y`. */
  function MonthsSpan(y: nat, from: nat, to: nat): nat
    requires 1 <= from <= to <= 13
    decreases (to as int) - (from as int)
  {
    if from == to then 0 else DaysInMonth(y, from) + MonthsSpan(y, from + 1, to)
  }

  /** Days from 1970-01-01 to the first day of month `p`. */
  function DaysBefore(p: Period): nat
    requires ValidPeriod(p) && p.year >= 1970
  {
    YearsSpan(1970, p.year) + MonthsSpan(p.year, 1, p.month)
  }

  /** Day `d` since the epoch falls inside month `p`. */
  predicate InMonth(p: Period, d: nat) {
    ValidPeriod(p) && p.year >= 1970 && DaysBefore(p) <= d < DaysBefore(p) + DaysInMonth(p.year, p.month)
  }

  /** The year that holds day `d` counted from January 1st of year `y`, and that day's index within it. */
  function YearAndDay(y: nat, d: nat): (r: (nat, nat))
    ensures r.0 >= y && r.1 < DaysInYear(r.0)
    ensures YearsSpan(y, r.0) + r.1 == d
    decreases d
  {
    if d < DaysInYear(y) then (y, d) else YearAndDay(y + 1, d - DaysInYear(y))
  }

  /** The month that holds day-of-year `d`, counting from month `m`, and the days of the months before it. */
  function MonthOfDay(y: nat, m: nat, d: nat): (r: nat)
    requires 1 <= m <= 12
    ensures m <= r <= 12
    ensures MonthsSpan(y, m, r) <= d
    ensures r < 12 ==> d < MonthsSpan(y, m, r) + DaysInMonth(y, r)
    ensures r == 12 && d < MonthsSpan(y, m, 13) ==> d < MonthsSpan(y, m, r) + DaysInMonth(y, r)
    decreases 12 - m
  {
    if m == 12 || d < DaysInMonth(y, m) then m else MonthOfDay(y, m + 1, d - DaysInMonth(y, m))
  }

  /** The twelve months make up the year. */
  lemma MonthsMakeYear(y: nat)
    ensures MonthsSpan(y, 1, 13) == DaysInYear(y)
  {
    var f := if IsLeap(y) then 29 else 28;
    assert MonthsSpan(y, 12, 13) == 31;
    assert MonthsSpan(y, 11, 13) == 61;
    assert MonthsSpan(y, 10, 13) == 92;
    assert MonthsSpan(y, 9, 13) == 122;
    assert MonthsSpan(y, 8, 13) == 153;
    assert MonthsSpan(y, 7, 13) == 184;
    assert MonthsSpan(y, 6, 13) == 214;
    assert MonthsSpan(y, 5, 13) == 245;
    assert MonthsSpan(y, 4, 13) == 275;
    assert MonthsSpan(y, 3, 13) == 306;
    assert MonthsSpan(y, 2, 13) == 306 + f;
  }

  /** The calendar month of a timestamp: the UTC month whose days contain the timestamp's day. */
  function PeriodOf(ms: nat): (p: Period)
    ensures ValidPeriod(p) && p.year >= 1970
    ensures InMonth(p, ms / MS_PER_DAY)
  {
    var yd := YearAndDay(1970, ms / MS_PER_DAY);
    MonthsMakeYear(yd.0);
    Period(yd.0, MonthOfDay(yd.0, 1, yd.1))
  }

  lemma {:induction false} YearsSplit(a: nat, b: nat, c: nat)
    requires a <= b <= c
    ensures YearsSpan(a, c) == YearsSpan(a, b) + YearsSpan(b, c)
    decreases b - a
  {
    if a < b {
      YearsSplit(a + 1, b, c);
    }
  }

  lemma {:induction false} MonthsSplit(y: nat, a: nat, b: nat, c: nat)
    requires 1 <= a <= b <= c <= 13
    ensures MonthsSpan(y, a, c) == MonthsSpan(y, a, b) + MonthsSpan(y, b, c)
    decreases b - a
  {
    if a < b {
      MonthsSplit(y, a + 1, b, c);
    }
  }

  /** Every day of an earlier month comes before the first day of a later one. */
  lemma MonthsInOrder(p: Period, q: Period)
    requires ValidPeriod(p) && ValidPeriod(q) && p.year >= 1970 && q.year >= 1970
    requires p.year < q.year || (p.year == q.year && p.month < q.month)
    ensures DaysBefore(p) + DaysInMonth(p.year, p.month) <= DaysBefore(q)
  {
    MonthsSplit(p.year, 1, p.month, p.month + 1);
    if p.year == q.year {
      MonthsSplit(p.year, 1, p.month + 1, q.month);
    } else {
      MonthsSplit(p.year, 1, p.month + 1, 13);
      MonthsMakeYear(p.year);
      YearsSplit(1970, p.year, p.year + 1);
      YearsSplit(1970, p.year + 1, q.year);
    }
  }

  /**
   * A day since the epoch lies in exactly one month, so `PeriodOf` is the
   * month that contains the timestamp and no other.
   */
  lemma PeriodOfIff(ms: nat, p: Period)
    ensures PeriodOf(ms) == p <==> InMonth(p, ms / MS_PER_DAY)
  {
    var q := PeriodOf(ms);
    var d := ms / MS_PER_DAY;
    if InMonth(p, d) && p != q {
      if p.year < q.year || (p.year == q.year && p.month < q.month) {
        MonthsInOrder(p, q);
      } else {
        MonthsInOrder(q, p);
      }
    }
  }

  /** Months counted from year 0: the order of `$sort: { period: 1 }`. */
  function Rank(p: Period): int {
    p.year * 12 + p.month - 1
  }

  /** Distinct valid months have distinct ranks, and rank order is (year, month) order. */
  lemma RankOrder(p: Period, q: Period)
    requires ValidPeriod(p) && ValidPeriod(q)
    ensures Rank(p) < Rank(q) <==> (p.year < q.year || (p.year == q.year && p.month < q.month))
    ensures Rank(p) == Rank(q) <==> p == q
  {
    if p.year < q.year {
      assert p.year * 12 + 12 <= q.year * 12;
    } else if q.year < p.year {
      assert q.year * 12 + 12 <= p.year * 12;
    }
  }

  /** The epoch falls in January 1970, and day 31 after it in February. */
  lemma EpochMonths()
    ensures PeriodOf(0) == Period(1970, 1)
    ensures PeriodOf(31 * MS_PER_DAY) == Period(1970, 2)
  {
    assert (31 * MS_PER_DAY) / MS_PER_DAY == 31;
  }
}

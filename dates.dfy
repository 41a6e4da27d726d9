/**
 * Dates and times of day as Python's `datetime` module handles them: the
 * proleptic Gregorian calendar, lexicographic comparison, day arithmetic
 * (`date + timedelta(days=n)`), `toordinal()`/`weekday()` with Monday = 0,
 * and month arithmetic (`relativedelta(months=k)`), written out here since
 * `dateutil` and `calendar` are libraries outside this model.
 */
module Dates {

  datatype Date = Date(year: int, month: int, day: int)

  predicate IsLeap(y: int) {
    y % 4 == 0 && (y % 100 != 0 || y % 400 == 0)
  }

  /** `calendar.monthrange(y, m)[1]`. */
  function DaysInMonth(y: int, m: int): (n: int)
    requires 1 <= m <= 12
    ensures 28 <= n <= 31
    ensures m == 2 ==> (n == 29 <==> IsLeap(y))
  {
    if m == 2 then (if IsLeap(y) then 29 else 28)
    else if m == 4 || m == 6 || m == 9 || m == 11 then 30
    else 31
  }

  function DaysInYear(y: int): int {
    if IsLeap(y) then 366 else 365
  }

  /** A date Python can construct (the upper bound MAXYEAR is not modelled). */
  predicate Valid(d: Date) {
    1 <= d.year && 1 <= d.month <= 12 && 1 <= d.day <= DaysInMonth(d.year, d.month)
  }

  /** `a < b`: Python compares dates as (year, month, day) tuples. */
  predicate Before(a: Date, b: Date) {
    a.year < b.year ||
    (a.year == b.year && (a.month < b.month || (a.month == b.month && a.day < b.day)))
  }

  /** `a <= b`. */
  predicate NotAfter(a: Date, b: Date) {
    !Before(b, a)
  }

  /** Date order is a total order: transitive, and any two dates compare one way. */
  lemma OrderFacts(a: Date, b: Date, c: Date)
    ensures Before(a, b) && Before(b, c) ==> Before(a, c)
    ensures Before(a, b) && NotAfter(b, c) ==> Before(a, c)
    ensures NotAfter(a, b) && Before(b, c) ==> Before(a, c)
    ensures NotAfter(a, b) && NotAfter(b, c) ==> NotAfter(a, c)
    ensures Before(a, b) ==> NotAfter(a, b)
    ensures NotAfter(a, b) || NotAfter(b, a)
  {
  }

  /** `d + timedelta(days=1)`: the successor of `d`. */
  function NextDay(d: Date): (r: Date)
    requires Valid(d)
    ensures Valid(r) && Before(d, r)
  {
    if d.day < DaysInMonth(d.year, d.month) then Date(d.year, d.month, d.day + 1)
    else if d.month < 12 then Date(d.year, d.month + 1, 1)
    else Date(d.year + 1, 1, 1)
  }

  /** No valid date lies strictly between a date and its successor. */
  lemma NextDayImmediate(d: Date, e: Date)
    requires Valid(d) && Valid(e) && Before(d, e)
    ensures NotAfter(NextDay(d), e)
  {
  }

  /** `d - timedelta(days=1)`, the inverse of NextDay. */
  function PrevDay(d: Date): (r: Date)
    requires Valid(d) && d != Date(1, 1, 1)
    ensures Valid(r) && Before(r, d) && NextDay(r) == d
  {
    if d.day > 1 then Date(d.year, d.month, d.day - 1)
    else if d.month > 1 then Date(d.year, d.month - 1, DaysInMonth(d.year, d.month - 1))
    else Date(d.year - 1, 12, 31)
  }

  /** `d + timedelta(days=n)` for n >= 0. */
  function AddDays(d: Date, n: nat): (r: Date)
    requires Valid(d)
    ensures Valid(r)
    decreases n
  {
    if n == 0 then d else AddDays(NextDay(d), n - 1)
  }

  function DaysBeforeYear(y: int): nat
    requires 1 <= y
  {
    if y == 1 then 0 else DaysBeforeYear(y - 1) + DaysInYear(y - 1)
  }

  const CumulativeDays: seq<int> := [0, 31, 59, 90, 120, 151, 181, 212, 243, 273, 304, 334]

  function DaysBeforeMonth(y: int, m: int): int
    requires 1 <= m <= 12
  {
    CumulativeDays[m - 1] + (if m > 2 && IsLeap(y) then 1 else 0)
  }

  /** `d.toordinal()`: 1 for 0001-01-01. */
  function Ordinal(d: Date): int
    requires Valid(d)
  {
    DaysBeforeYear(d.year) + DaysBeforeMonth(d.year, d.month) + d.day
  }

  /** `d.weekday()`: Monday is 0 and Sunday is 6. */
  function Weekday(d: Date): (w: int)
    requires Valid(d)
    ensures 0 <= w <= 6
  {
    (Ordinal(d) + 6) % 7
  }

  lemma OrdinalNextDay(d: Date)
    requires Valid(d)
    ensures Ordinal(NextDay(d)) == Ordinal(d) + 1
  {
    if d.day == DaysInMonth(d.year, d.month) && d.month == 12 {
      assert DaysBeforeYear(d.year + 1) == DaysBeforeYear(d.year) + DaysInYear(d.year);
    }
  }

  lemma {:induction false} AddDaysOrdinal(d: Date, n: nat)
    requires Valid(d)
    ensures Ordinal(AddDays(d, n)) == Ordinal(d) + n
    decreases n
  {
    if n > 0 {
      OrdinalNextDay(d);
      AddDaysOrdinal(NextDay(d), n - 1);
    }
  }

  /** Adding n days moves the weekday forward by n, modulo 7. */
  lemma WeekdayAddDays(d: Date, n: nat)
    requires Valid(d)
    ensures Weekday(AddDays(d, n)) == (Weekday(d) + n) % 7
  {
    AddDaysOrdinal(d, n);
    WeekdayOrdinal(AddDays(d, n), d, n);
  }

  /** Dates n days apart in ordinal have weekdays n apart, modulo 7. */
  lemma WeekdayOrdinal(e: Date, d: Date, n: nat)
    requires Valid(e) && Valid(d) && Ordinal(e) == Ordinal(d) + n
    ensures Weekday(e) == (Weekday(d) + n) % 7
  {
    ModSevenShift(Ordinal(e), Ordinal(d), n);
  }

  /** Ordinals n apart have weekdays n apart, modulo 7. */
  lemma ModSevenShift(o1: int, o0: int, n: nat)
    requires o1 == o0 + n
    ensures (o1 + 6) % 7 == ((o0 + 6) % 7 + n) % 7
  {
    var a := o0 + 6;
    assert a + n == 7 * (a / 7) + (a % 7 + n);
  }

  /** Adding at least one day gives a strictly later date. */
  lemma {:induction false} AddDaysAfter(d: Date, n: nat)
    requires Valid(d) && n >= 1
    ensures Before(d, AddDays(d, n))
    decreases n
  {
    if n > 1 {
      AddDaysAfter(NextDay(d), n - 1);
    }
  }

  /** `(d + timedelta(a)) + timedelta(b) == d + timedelta(a + b)`. */
  lemma {:induction false} AddDaysAdd(d: Date, a: nat, b: nat)
    requires Valid(d)
    ensures AddDays(AddDays(d, a), b) == AddDays(d, a + b)
    decreases a
  {
    if a > 0 {
      AddDaysAdd(NextDay(d), a - 1, b);
    }
  }

  /** Months counted from year 0, so that consecutive months differ by one. */
  function MonthIndex(y: int, m: int): int {
    y * 12 + (m - 1)
  }

  /** Month and year of `date(y, m, _) + relativedelta(months=k)`. */
  function AddMonths(y: int, m: int, k: nat): (r: (int, int))
    requires 1 <= m <= 12
    ensures 1 <= r.1 <= 12 && r.0 >= y
    ensures MonthIndex(r.0, r.1) == MonthIndex(y, m) + k
  {
    var t := m - 1 + k;
    (y + t / 12, t % 12 + 1)
  }

  /** Distinct (year, month) pairs have distinct month indices. */
  lemma MonthIndexInjective(y1: int, m1: int, y2: int, m2: int)
    requires 1 <= m1 <= 12 && 1 <= m2 <= 12
    requires MonthIndex(y1, m1) == MonthIndex(y2, m2)
    ensures y1 == y2 && m1 == m2
  {
  }

  const MinutesPerDay := 1440

  /** A `datetime.time` to the minute: minutes since midnight. */
  predicate ValidTime(t: int) {
    0 <= t < MinutesPerDay
  }

  /** `(datetime.combine(day, t) + timedelta(hours=1)).time()`: one hour later, wrapping past midnight. */
  function PlusOneHour(t: int): (r: int)
    requires ValidTime(t)
    ensures ValidTime(r)
    ensures r > t <==> t < MinutesPerDay - 60
    ensures (r - t) % MinutesPerDay == 60
  {
    (t + 60) % MinutesPerDay
  }
}

/**
 The payout calendar: when the next run is due and which month it pays. Both
 backends compute it from UTC calendar fields; here the proleptic Gregorian
 calendar is written out, as ECMAScript's Date and Go's time package define it,
 and the two computations are proved to agree and to mean what they should.
 Months are counted as 12 * year + month, with January 0.
 */
module Calendar {
  const DAY_MS := 86_400_000

  // ------------------------------------------------------------ the Gregorian calendar

  predicate Leap(y: int) {
    y % 4 == 0 && (y % 100 != 0 || y % 400 == 0)
  }

  /** Days from 1 January 1970 to 1 January of year `y`. */
  function DayFromYear(y: int): int {
    365 * (y - 1970) + (y - 1969) / 4 - (y - 1901) / 100 + (y - 1601) / 400
  }

  const CUMULATIVE := [0, 31, 59, 90, 120, 151, 181, 212, 243, 273, 304, 334]

  function DayInYear(month: nat, leap: bool): int
    requires month < 12
  {
    CUMULATIVE[month] + (if leap && month >= 2 then 1 else 0)
  }

  /** Day number of the first of a month. */
  function MonthStart(m: int): int {
    DayFromYear(m / 12) + DayInYear(m % 12, Leap(m / 12))
  }

  lemma LeapDays(y: int)
    ensures (y - 1968) / 4 - (y - 1969) / 4 == if y % 4 == 0 then 1 else 0
  {
  }

  lemma CenturyDays(y: int)
    ensures (y - 1900) / 100 - (y - 1901) / 100 == if y % 100 == 0 then 1 else 0
  {
  }

  lemma FourCenturyDays(y: int)
    ensures (y - 1600) / 400 - (y - 1601) / 400 == if y % 400 == 0 then 1 else 0
  {
  }

  lemma Divides(y: int, n: int, k: int)
    requires n > 0 && k > 0 && y % (n * k) == 0
    ensures y % n == 0
  {
    var q := y / (n * k);
    assert y == n * (k * q);
    MultipleOf(n, k * q);
  }

  lemma MultipleOf(n: int, q: int)
    requires n > 0
    ensures (n * q) % n == 0
  {
    var r := (n * q) % n;
    assert n * q == n * ((n * q) / n) + r;
    assert r == n * (q - (n * q) / n);
    NoSmallMultiple(n, q - (n * q) / n);
  }

  lemma NoSmallMultiple(n: int, d: int)
    requires n > 0
    ensures d == 0 || n * d >= n || n * d <= -n
  {
  }

  lemma LeapCases(y: int)
    ensures y % 400 == 0 ==> y % 100 == 0
    ensures y % 100 == 0 ==> y % 4 == 0
  {
    if y % 400 == 0 {
      Divides(y, 100, 4);
    }
    if y % 100 == 0 {
      Divides(y, 4, 25);
    }
  }

  /** A year has 366 days exactly when it is a leap year. */
  lemma YearLength(y: int)
    ensures DayFromYear(y + 1) - DayFromYear(y) == if Leap(y) then 366 else 365
  {
    LeapDays(y);
    CenturyDays(y);
    FourCenturyDays(y);
    LeapCases(y);
    YearParts(y, (y - 1968) / 4, (y - 1900) / 100, (y - 1600) / 400, (y - 1969) / 4, (y - 1901) / 100, (y - 1601) / 400);
  }

  lemma YearParts(y: int, a': int, b': int, c': int, a: int, b: int, c: int)
    ensures 365 * (y + 1 - 1970) + a' - b' + c' - (365 * (y - 1970) + a - b + c) == 365 + (a' - a) - (b' - b) + (c' - c)
  {
  }

  /** Every month has 28 to 31 days. */
  lemma MonthLength(m: int)
    ensures 28 <= MonthStart(m + 1) - MonthStart(m) <= 31
  {
    if m % 12 < 11 {
      assert (m + 1) / 12 == m / 12 && (m + 1) % 12 == m % 12 + 1;
    } else {
      assert (m + 1) / 12 == m / 12 + 1 && (m + 1) % 12 == 0;
      YearLength(m / 12);
    }
  }

  lemma {:induction false} MonthsGrow(a: int, b: int)
    requires a <= b
    ensures MonthStart(a) + 28 * (b - a) <= MonthStart(b) <= MonthStart(a) + 31 * (b - a)
    decreases b - a
  {
    hide MonthStart;
    if a < b {
      MonthsGrow(a, b - 1);
      MonthLength(b - 1);
    }
  }

  predicate InMonth(day: int, m: int) {
    MonthStart(m) <= day < MonthStart(m + 1)
  }

  /** Some month contains each day, found by walking from a month that is too early. */
  lemma {:induction false} MonthExists(day: int, from: int) returns (m: int)
    requires MonthStart(from) <= day
    ensures InMonth(day, m)
    decreases day - MonthStart(from)
  {
    MonthLength(from);
    if day < MonthStart(from + 1) {
      m := from;
    } else {
      m := MonthExists(day, from + 1);
    }
  }

  lemma EarlyMonth(day: int) returns (m: int)
    ensures MonthStart(m) <= day
  {
    m := if day >= 0 then 23640 else 23640 + day;
    assert MonthStart(23640) == 0;
    if day < 0 {
      MonthsGrow(m, 23640);
    }
  }

  lemma MonthIsUnique(day: int, m: int, n: int)
    requires InMonth(day, m) && InMonth(day, n)
    ensures m == n
  {
    hide MonthStart;
    if m < n {
      MonthsGrow(m + 1, n);
    } else if n < m {
      MonthsGrow(n + 1, m);
    }
  }

  lemma SomeMonth(day: int)
    ensures exists m :: InMonth(day, m)
  {
    var from := EarlyMonth(day);
    var m := MonthExists(day, from);
  }

  // ------------------------------------------------------------ calendar fields

  /** getUTCFullYear and getUTCMonth in one number. */
  ghost function MonthOf(now: int): (m: int)
    ensures InMonth(now / DAY_MS, m)
  {
    SomeMonth(now / DAY_MS);
    var m :| InMonth(now / DAY_MS, m);
    m
  }

  /** getUTCDate. */
  ghost function DateOf(now: int): (d: int)
    ensures 1 <= d <= 31
  {
    MonthLength(MonthOf(now));
    now / DAY_MS - MonthStart(MonthOf(now)) + 1
  }

  /** Date.UTC(year, month, day), which accepts months outside the year. */
  function Utc(m: int, day: int): int {
    (MonthStart(m) + day - 1) * DAY_MS
  }

  lemma FieldsOfUtc(m: int, day: int)
    requires 1 <= day <= 28
    ensures MonthOf(Utc(m, day)) == m && DateOf(Utc(m, day)) == day
  {
    MonthLength(m);
    assert Utc(m, day) / DAY_MS == MonthStart(m) + day - 1;
    MonthIsUnique(Utc(m, day) / DAY_MS, MonthOf(Utc(m, day)), m);
  }

  /** Midnights of one day of the month come in the order of their months. */
  lemma UtcGrows(a: int, b: int, day: int)
    ensures Utc(a, day) < Utc(b, day) <==> a < b
  {
    if a < b {
      MonthsGrow(a, b);
    } else {
      MonthsGrow(b, a);
    }
  }

  /** A day has begun exactly when its midnight is not in the future. */
  lemma DayBegins(now: int, day: int)
    ensures day <= now / DAY_MS <==> day * DAY_MS <= now
  {
  }

  lemma UtcBegins(now: int, m: int, day: int)
    ensures Utc(m, day) <= now <==> MonthStart(m) + day - 1 <= now / DAY_MS
  {
    hide MonthStart;
    DayBegins(now, MonthStart(m) + day - 1);
  }

  /** Being before a day of the current month is a matter of the date. */
  lemma DateDecides(now: int, day: int)
    ensures now < Utc(MonthOf(now), day) <==> DateOf(now) < day
  {
    hide MonthStart, Utc;
    UtcBegins(now, MonthOf(now), day);
  }

  // ------------------------------------------------------------ frontend/convex/payouts.ts

  ghost function NextPayoutAt(now: int, day: int): int {
    var candidate := Utc(MonthOf(now), day);
    if candidate <= now then Utc(MonthOf(now) + 1, day) else candidate
  }

  datatype Period = Period(start: int, end: int)

  ghost function PayoutPeriod(now: int, day: int): Period {
    var month := if DateOf(now) < day then MonthOf(now) - 1 else MonthOf(now);
    Period(Utc(month - 1, 1), Utc(month, 1))
  }

  /** The run that `now` belongs to: the month of the latest payout midnight. */
  ghost function RunMonth(now: int, day: int): int {
    if DateOf(now) < day then MonthOf(now) - 1 else MonthOf(now)
  }

  lemma RunMonthBounds(now: int, day: int)
    requires 1 <= day <= 28
    ensures Utc(RunMonth(now, day), day) <= now < Utc(RunMonth(now, day) + 1, day)
  {
    hide MonthStart, Utc;
    var m := MonthOf(now);
    MonthLength(m);
    MonthLength(m - 1);
    UtcBegins(now, m - 1, day);
    UtcBegins(now, m, day);
    UtcBegins(now, m + 1, day);
  }

  /** Payout midnights cut time into months. */
  lemma RunMonthIs(now: int, day: int, m: int)
    requires 1 <= day <= 28 && Utc(m, day) <= now < Utc(m + 1, day)
    ensures RunMonth(now, day) == m
  {
    hide RunMonth, Utc;
    var r := RunMonth(now, day);
    RunMonthBounds(now, day);
    UtcGrows(m, r + 1, day);
    UtcGrows(r, m + 1, day);
  }

  lemma NextIsRunEnd(now: int, day: int)
    requires 1 <= day <= 28
    ensures NextPayoutAt(now, day) == Utc(RunMonth(now, day) + 1, day)
  {
    hide Utc, DateOf, MonthOf;
    DateDecides(now, day);
  }

  /** The next payout is a payout-day midnight after now, and the first of them. */
  lemma NextPayoutIsFirst(now: int, day: int)
    requires 1 <= day <= 28
    ensures now < NextPayoutAt(now, day)
    ensures exists m :: NextPayoutAt(now, day) == Utc(m, day)
    ensures forall m :: now < Utc(m, day) ==> NextPayoutAt(now, day) <= Utc(m, day)
  {
    hide Utc, RunMonth, NextPayoutAt;
    NextIsRunEnd(now, day);
    RunMonthBounds(now, day);
    var r := RunMonth(now, day);
    forall m | now < Utc(m, day) ensures Utc(r + 1, day) <= Utc(m, day) {
      UtcGrows(r, m, day);
      UtcGrows(m, r + 1, day);
    }
  }

  /** Until the next payout the period stays the same; then it moves on by exactly one month. */
  lemma PeriodTurnsOver(now: int, later: int, day: int)
    requires 1 <= day <= 28
    ensures now <= later < NextPayoutAt(now, day) ==> PayoutPeriod(later, day) == PayoutPeriod(now, day)
    ensures PayoutPeriod(NextPayoutAt(now, day), day).start == PayoutPeriod(now, day).end
    ensures PayoutPeriod(NextPayoutAt(now, day), day).end == Utc(RunMonth(now, day) + 1, 1)
  {
    hide Utc, NextPayoutAt, RunMonth, PayoutPeriod;
    var r := RunMonth(now, day);
    RunMonthBounds(now, day);
    NextIsRunEnd(now, day);
    UtcGrows(r + 1, r + 2, day);
    RunMonthIs(NextPayoutAt(now, day), day, r + 1);
    if now <= later < NextPayoutAt(now, day) {
      RunMonthIs(later, day, r);
    }
    PeriodOfRun(now, day);
    PeriodOfRun(later, day);
    PeriodOfRun(NextPayoutAt(now, day), day);
  }

  lemma PeriodOfRun(now: int, day: int)
    ensures PayoutPeriod(now, day) == Period(Utc(RunMonth(now, day) - 1, 1), Utc(RunMonth(now, day), 1))
  {
  }

  // ------------------------------------------------------------ backend/internal/balance/service.go

  /** Time.AddDate(0, months, 0). */
  ghost function AddMonths(t: int, months: int): int {
    Utc(MonthOf(t) + months, DateOf(t)) + t % DAY_MS
  }

  ghost function GoNextPayout(now: int, day: int): int {
    var candidate := Utc(MonthOf(now), day);
    if !(candidate > now) then AddMonths(candidate, 1) else candidate
  }

  ghost function GoPeriod(now: int, day: int): Period {
    var thisMonth := Utc(MonthOf(now), day);
    var scheduled := if now < thisMonth then AddMonths(thisMonth, -1) else thisMonth;
    var end := Utc(MonthOf(scheduled), 1);
    Period(AddMonths(end, -1), end)
  }

  lemma AddMonthsToUtc(m: int, day: int, months: int)
    requires 1 <= day <= 28
    ensures AddMonths(Utc(m, day), months) == Utc(m + months, day)
  {
    FieldsOfUtc(m, day);
    assert Utc(m, day) % DAY_MS == 0;
    hide MonthStart;
  }

  /** Both backends pay the same month at the same moment. */
  lemma BackendsAgree(now: int, day: int)
    requires 1 <= day <= 28
    ensures GoNextPayout(now, day) == NextPayoutAt(now, day)
    ensures GoPeriod(now, day) == PayoutPeriod(now, day)
  {
    hide Utc, AddMonths, DateOf, MonthOf;
    var m := MonthOf(now);
    var r := RunMonth(now, day);
    AddMonthsToUtc(m, day, 1);
    AddMonthsToUtc(m, day, -1);
    DateDecides(now, day);
    FieldsOfUtc(r, day);
    AddMonthsToUtc(r, 1, -1);
  }
}

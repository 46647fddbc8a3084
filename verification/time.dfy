/**
 * Calendar time as the server sees it: an instant decomposed into local
 * year, month (0-based, as `Date.getMonth` returns it), day of month and
 * milliseconds since local midnight.
 */
module Time {

  type Month = m: int | 0 <= m < 12
  type DayOfMonth = d: int | 1 <= d <= 31 witness 1
  type MsOfDay = ms: int | 0 <= ms < 86_400_000

  /** The last millisecond of a day, the one `setHours(23, 59, 59, 999)` picks. */
  const LastMsOfDay: MsOfDay := 86_399_999

  datatype Instant = Instant(year: int, month: Month, day: DayOfMonth, ms: MsOfDay)

  datatype YearMonth = YearMonth(year: int, month: Month)

  /** `a <= b` on instants, that is on their local wall-clock decomposition. */
  predicate NotAfter(a: Instant, b: Instant) {
    if a.year != b.year then a.year < b.year
    else if a.month != b.month then a.month < b.month
    else if a.day != b.day then a.day < b.day
    else a.ms <= b.ms
  }

  predicate SameDay(a: Instant, b: Instant) {
    a.year == b.year && a.month == b.month && a.day == b.day
  }

  /** `new Date(t)` followed by `setHours(0, 0, 0, 0)`. */
  function StartOfDay(t: Instant): (r: Instant)
    ensures SameDay(r, t) && NotAfter(r, t)
    ensures forall u :: SameDay(u, t) ==> NotAfter(r, u)
  {
    Instant(t.year, t.month, t.day, 0)
  }

  /** `new Date(t)` followed by `setHours(23, 59, 59, 999)`. */
  function EndOfDay(t: Instant): (r: Instant)
    ensures SameDay(r, t) && NotAfter(t, r)
    ensures forall u :: SameDay(u, t) ==> NotAfter(u, r)
  {
    Instant(t.year, t.month, t.day, LastMsOfDay)
  }

  /** The inclusive window `[startOfDay, endOfDay]` holds exactly the instants of that calendar day. */
  lemma DayWindowIsCalendarDay(t: Instant, day: Instant)
    ensures NotAfter(StartOfDay(day), t) && NotAfter(t, EndOfDay(day)) <==> SameDay(t, day)
  {
  }

  function MonthOf(t: Instant): YearMonth {
    YearMonth(t.year, t.month)
  }

  /** Whole calendar months from `t`'s month forward to `now`'s month; negative when `t` is later. */
  function MonthDiff(now: Instant, t: Instant): int {
    (now.year - t.year) * 12 + (now.month - t.month)
  }

  /**
   * The calendar month `delta` months away from `ym`, normalised the way
   * `new Date(year, month + delta, 1)` normalises an out-of-range month.
   */
  function ShiftMonths(ym: YearMonth, delta: int): (r: YearMonth)
    ensures r.year * 12 + r.month == ym.year * 12 + ym.month + delta
  {
    YearMonth(ym.year + (ym.month + delta) / 12, (ym.month + delta) % 12)
  }

  /** A year and a month in 0..11 are determined by their month count. */
  lemma MonthCountInjective(a: YearMonth, b: YearMonth)
    requires a.year * 12 + a.month == b.year * 12 + b.month
    ensures a == b
  {
  }

  /** `t` lies `d` months before `now` exactly when its month is `now`'s month shifted back by `d`. */
  lemma MonthDiffIsShift(now: Instant, t: Instant, d: int)
    ensures MonthDiff(now, t) == d <==> MonthOf(t) == ShiftMonths(MonthOf(now), -d)
  {
    var s := ShiftMonths(MonthOf(now), -d);
    if MonthOf(t) == s {
      assert t.year * 12 + t.month == now.year * 12 + now.month - d;
    }
    if MonthDiff(now, t) == d {
      MonthCountInjective(MonthOf(t), s);
    }
  }

  /** A zero month difference means the same calendar month. */
  lemma MonthDiffZeroIsSameMonth(now: Instant, t: Instant)
    ensures MonthDiff(now, t) == 0 <==> MonthOf(t) == MonthOf(now)
  {
    MonthDiffIsShift(now, t, 0);
  }
}

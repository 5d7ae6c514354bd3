/** Billing periods over whole days: from a day of one month to the same day, or the last there is, of the next. */
module BillingPeriod {
  import opened Common

  /** `first(m)` is the number of the first day of month `m`. */
  ghost predicate IsCalendar(first: int -> int) {
    forall m :: first(m) + 28 <= first(m + 1) <= first(m) + 31
  }

  function Boundary(first: int -> int, month: int, day: int): int {
    first(month) + Min(day, first(month + 1) - first(month)) - 1
  }

  function Period(first: int -> int, month: int, today: int, day: int): (int, int) {
    var start := if today < Boundary(first, month, day) then month - 1 else month;
    (Boundary(first, start, day), Boundary(first, start + 1, day))
  }

  /** `today` lies in `month`. */
  predicate InMonth(first: int -> int, month: int, today: int) {
    first(month) <= today < first(month + 1)
  }

  lemma {:induction false} MonthsAscend(first: int -> int, m: int, n: int)
    requires IsCalendar(first) && m <= n
    ensures first(m) + 28 * (n - m) <= first(n)
    decreases n - m
  {
    if m < n {
      MonthsAscend(first, m, n - 1);
      assert first(n - 1) + 28 <= first(n - 1 + 1);
    }
  }

  lemma SameMonth(first: int -> int, m: int, n: int, today: int)
    requires IsCalendar(first) && InMonth(first, m, today) && InMonth(first, n, today)
    ensures m == n
  {
    if m < n {
      MonthsAscend(first, m + 1, n);
    } else if n < m {
      MonthsAscend(first, n + 1, m);
    }
  }

  lemma BoundaryInMonth(first: int -> int, m: int, day: int)
    requires IsCalendar(first) && 1 <= day <= 31
    ensures InMonth(first, m, Boundary(first, m, day))
  {
    assert first(m) + 28 <= first(m + 1);
  }

  /** Every day lies in its own period. */
  lemma PeriodContains(first: int -> int, month: int, today: int, day: int)
    requires IsCalendar(first) && 1 <= day <= 31 && InMonth(first, month, today)
    ensures Period(first, month, today, day).0 <= today < Period(first, month, today, day).1
  {
    BoundaryInMonth(first, month - 1, day);
    BoundaryInMonth(first, month, day);
    BoundaryInMonth(first, month + 1, day);
  }

  /** A period starts in the month of `today` or the one before. */
  function StartMonth(first: int -> int, month: int, today: int, day: int): int {
    if today < Boundary(first, month, day) then month - 1 else month
  }

  /**
   Periods tile the days: two days share a period exactly when the later one comes before the end of the earlier one's,
   and the day a period ends starts the next.
   */
  lemma PeriodsTile(first: int -> int, month: int, today: int, other: int, later: int, day: int)
    requires IsCalendar(first) && 1 <= day <= 31 && InMonth(first, month, today) && InMonth(first, other, later)
             && today <= later
    ensures Period(first, other, later, day) == Period(first, month, today, day) <==>
              later < Period(first, month, today, day).1
    ensures later == Period(first, month, today, day).1 ==> Period(first, other, later, day).0 == later
  {
    PeriodContains(first, month, today, day);
    PeriodContains(first, other, later, day);
    var start := StartMonth(first, month, today, day);
    BoundaryInMonth(first, start, day);
    BoundaryInMonth(first, start + 1, day);
    if later < Boundary(first, start + 1, day) {
      var within := if later < first(start + 1) then start else start + 1;
      SameMonth(first, within, other, later);
    }
    if later == Boundary(first, start + 1, day) {
      SameMonth(first, start + 1, other, later);
    }
  }
}

/**
 * The monthly date-range planner. Calendar instants are abstract: a month
 * number and a position inside that month, ordered month first. Adding a
 * month keeps the position; end-of-month clamping and time zones are not
 * modelled.
 */
module Util {

  datatype Instant = Instant(month: int, offset: int)

  /** Strictly earlier. */
  predicate Before(x: Instant, y: Instant) {
    x.month < y.month || (x.month == y.month && x.offset < y.offset)
  }

  /** `m.add(k, 'months')`. */
  function AddMonths(x: Instant, k: int): Instant {
    Instant(x.month + k, x.offset)
  }

  function AddMonth(x: Instant): Instant {
    AddMonths(x, 1)
  }

  /**
   * `m.diff(b, 'months') <= 0`: the difference is truncated to whole months,
   * so it is at most zero exactly while `m` is less than one month after `b`.
   */
  predicate WithinMonthOf(m: Instant, b: Instant) {
    Before(m, AddMonth(b))
  }

  datatype MomentRange = MomentRange(beginInclusive: Instant, endExclusive: Instant)

  /** The one-month range starting at `m`. */
  function MonthFrom(m: Instant): MomentRange {
    MomentRange(m, AddMonth(m))
  }

  /** The number of ranges the walk from `a` towards `b` emits, in closed form. */
  function RangeCount(a: Instant, b: Instant): nat {
    var d := b.month - a.month;
    if a.offset == b.offset then (if d < 0 then 0 else if d == 0 then 1 else d)
    else if a.offset < b.offset then (if d < -1 then 0 else d + 2)
    else (if d < 0 then 0 else d + 1)
  }

  /** What `getDateRanges(a, b)` returns: `RangeCount(a, b)` consecutive one-month ranges from `a`. */
  function DateRanges(a: Instant, b: Instant): seq<MomentRange> {
    seq(RangeCount(a, b), k => MonthFrom(AddMonths(a, k)))
  }

  /**
   * The stopping rule of the walk, for `n` emitted ranges: every start
   * before `n` was within a month of `b` and, after the first, not `b`
   * itself; the start at `n` is a whole month past `b` or is `b`.
   */
  predicate StopsAfter(a: Instant, b: Instant, n: nat) {
    && (forall k :: 0 <= k < n ==> WithinMonthOf(AddMonths(a, k), b))
    && (forall k :: 1 <= k < n ==> AddMonths(a, k) != b)
    && (!WithinMonthOf(AddMonths(a, n), b) || (n >= 1 && AddMonths(a, n) == b))
  }

  /**
   * `getDateRanges(a, b)`. Candidate starts are `a`, `a` + 1 month, ...; the
   * walk stops at the first candidate that is a whole month past `b`, or at
   * the first candidate after `a` that coincides with `b`. Every emitted
   * range is one month long; the last one is not cut back to `b`.
   */
  method GetDateRanges(a: Instant, b: Instant) returns (ret: seq<MomentRange>)
    ensures StopsAfter(a, b, |ret|)
    ensures ret == DateRanges(a, b)
  {
    ret := [];
    var m := a;
    while WithinMonthOf(m, b)
      invariant m == AddMonths(a, |ret|)
      invariant forall k :: 0 <= k < |ret| ==> ret[k] == MonthFrom(AddMonths(a, k))
      invariant forall k :: 0 <= k < |ret| ==> WithinMonthOf(ret[k].beginInclusive, b)
      invariant forall k :: 1 <= k < |ret| ==> ret[k].beginInclusive != b
      decreases b.month + 2 - m.month
    {
      if m == a {
        ret := ret + [MomentRange(a, AddMonth(m))];
      } else if m == b {
        break;
      } else {
        ret := ret + [MomentRange(m, AddMonth(m))];
      }
      m := AddMonth(m);
    }
    RangeCountIsExact(a, b, |ret|);
  }

  /** The stopping rule determines the count: it is `RangeCount(a, b)`. */
  lemma RangeCountIsExact(a: Instant, b: Instant, n: nat)
    requires StopsAfter(a, b, n)
    ensures n == RangeCount(a, b)
  {
    var c := RangeCount(a, b);
    // The walk cannot have stopped before `c`: the last emitted start was still in range.
    assert n >= 1 ==> WithinMonthOf(AddMonths(a, n - 1), b);
    // Nor after it: the start at `c` is out of range or is `b` itself.
    assert c < n ==> WithinMonthOf(AddMonths(a, c), b);
    assert 1 <= c < n ==> AddMonths(a, c) != b;
  }

  /** The closed form obeys the stopping rule. */
  lemma RangeCountStops(a: Instant, b: Instant)
    ensures StopsAfter(a, b, RangeCount(a, b))
  {
  }

  /** Range `k` begins `k` months after `a` and spans one month; the first begins at `a`. */
  lemma RangesAreMonths(a: Instant, b: Instant, k: nat)
    requires k < |DateRanges(a, b)|
    ensures DateRanges(a, b)[k].beginInclusive == AddMonths(a, k)
    ensures DateRanges(a, b)[k].endExclusive == AddMonth(DateRanges(a, b)[k].beginInclusive)
    ensures k == 0 ==> DateRanges(a, b)[k].beginInclusive == a
  {
  }

  /** Consecutive ranges meet, and their starts strictly increase. */
  lemma RangesAreContiguous(a: Instant, b: Instant, k: nat)
    requires k + 1 < |DateRanges(a, b)|
    ensures DateRanges(a, b)[k + 1].beginInclusive == DateRanges(a, b)[k].endExclusive
    ensures Before(DateRanges(a, b)[k].beginInclusive, DateRanges(a, b)[k + 1].beginInclusive)
  {
  }

  /** A range exists exactly when `a` is less than a month past `b`; no range after the first begins at `b`. */
  lemma RangesStartInWindow(a: Instant, b: Instant)
    ensures |DateRanges(a, b)| >= 1 <==> WithinMonthOf(a, b)
    ensures forall k :: 1 <= k < |DateRanges(a, b)| ==> DateRanges(a, b)[k].beginInclusive != b
    ensures forall k :: 0 <= k < |DateRanges(a, b)| ==> WithinMonthOf(DateRanges(a, b)[k].beginInclusive, b)
  {
    RangeCountStops(a, b);
  }

  /** The ranges reach `b`: the last one ends at or after `b`. */
  lemma LastRangeReachesEnd(a: Instant, b: Instant)
    requires |DateRanges(a, b)| >= 1
    ensures var r := DateRanges(a, b); !Before(r[|r| - 1].endExclusive, b)
  {
    RangeCountStops(a, b);
  }

  /** When `a == b` the `isSame(a)` test wins and exactly one range `[a, a + 1 month)` is emitted. */
  lemma SameInstantGivesOneRange(a: Instant)
    ensures DateRanges(a, a) == [MonthFrom(a)]
  {
  }

  /** The last range is not clipped: from month 0 to month 1 plus a bit, three ranges, ending at month 3. */
  lemma LastRangeOvershoots()
    ensures DateRanges(Instant(0, 0), Instant(1, 5)) ==
      [MonthFrom(Instant(0, 0)), MonthFrom(Instant(1, 0)), MonthFrom(Instant(2, 0))]
  {
    var r := DateRanges(Instant(0, 0), Instant(1, 5));
    assert |r| == 3;
    assert r[0] == MonthFrom(Instant(0, 0));
    assert r[1] == MonthFrom(Instant(1, 0));
    assert r[2] == MonthFrom(Instant(2, 0));
  }
}

/** The per-day schedule locks of internal/scheduling/repository.go: which dates a writer
    locks, and why writers that take them in ascending order neither miss each other nor
    deadlock. */
module ScheduleLocks {
  import opened Intervals
  import opened Zones

  // ---- the dates of a window ----

  /** The local dates on which some instant of the window falls. */
  ghost predicate Touched(off: Offset, window: Interval, date: int) {
    exists t :: Within(window, t) && DateOf(off, t) == date
  }

  /** The midnights of the window's own dates are regular. */
  ghost predicate RegularAround(off: Offset, window: Interval) {
    RegularDays(off, DateOf(off, window.start), DateOf(off, window.end - 1))
  }

  /** The dates a walk over the window's local days comes by. */
  ghost predicate Walked(off: Offset, window: Interval, date: int) {
    exists k: nat :: Visited(off, window.start, window.end, k) && DateOf(off, DayAt(off, window.start, k)) == date
  }

  ghost predicate WalkedEarlier(off: Offset, window: Interval, k: nat, date: int) {
    exists j: nat :: j < k && DateOf(off, DayAt(off, window.start, j)) == date
  }

  /** touchedLocalDates: the dates of the walk; on regular dates exactly the touched ones, in
      ascending order. */
  method TouchedLocalDates(off: Offset, window: Interval) returns (dates: seq<int>)
    requires Proper(window) ==> GoesForward(off, window.start, window.end)
    ensures forall d :: d in dates <==> Proper(window) && Walked(off, window, d)
    ensures Proper(window) && RegularAround(off, window) ==> Ascending(dates) && forall d :: d in dates <==> Touched(off, window, d)
  {
    hide RegularAt, Midnight, DateOf, NextDay, DayAt;
    dates := [];
    if window.end <= window.start {
      return;
    }
    ghost var regular, k: nat := RegularAround(off, window), 0;
    ghost var first := DateOf(off, window.start);
    var day := Midnight(off, DateOf(off, window.start));
    var last := Midnight(off, DateOf(off, window.end - 1));
    FirstDay(off, window);
    while day <= last
      invariant day == DayAt(off, window.start, k) && forall j: nat :: j < k ==> DayAt(off, window.start, j) <= last
      invariant forall d :: d in dates <==> WalkedEarlier(off, window, k, d)
      invariant regular ==> Ascending(dates) && forall d :: d in dates <==> first <= d < first + k
      decreases last - day
    {
      assert Visited(off, window.start, window.end, k);
      if regular { WalkedInOrder(off, window, k); }
      dates := Appended(dates, DateOf(off, day));
      NextInWalk(off, window, k);
      day := NextDay(off, day);
      k := k + 1;
    }
    forall d
      ensures d in dates <==> Walked(off, window, d)
      ensures regular ==> (d in dates <==> Touched(off, window, d))
    {
      WalkIsOver(off, window, k, d);
      if regular {
        TouchedIsBetween(off, window, d);
        WalkEnds(off, window, k);
      }
    }
  }

  lemma FirstDay(off: Offset, window: Interval)
    ensures DayAt(off, window.start, 0) == Midnight(off, DateOf(off, window.start))
  {
  }

  lemma NextInWalk(off: Offset, window: Interval, k: nat)
    requires GoesForward(off, window.start, window.end) && Visited(off, window.start, window.end, k)
    ensures DayAt(off, window.start, k) < DayAt(off, window.start, k + 1) == NextDay(off, DayAt(off, window.start, k))
  {
    hide NextDay, Visited;
  }

  /** On regular dates, day `k` of the walk is the k-th date after the first. */
  lemma WalkedInOrder(off: Offset, window: Interval, k: nat)
    requires Proper(window) && RegularAround(off, window) && Visited(off, window.start, window.end, k)
    ensures DateOf(off, DayAt(off, window.start, k)) == DateOf(off, window.start) + k
  {
    hide RegularAt, Midnight, DateOf, NextDay, DayAt, Visited;
    DatesIncrease(off, window.start, window.end - 1);
    RegularVisits(off, window.start, window.end, k);
    RegularWalk(off, window.start, window.end, k);
    NextDayIsMidnight(off, DateOf(off, window.start) + k);
  }

  lemma WalkIsOver(off: Offset, window: Interval, k: nat, d: int)
    requires LastDay(off, window.end) < DayAt(off, window.start, k)
    requires forall j: nat :: j < k ==> DayAt(off, window.start, j) <= LastDay(off, window.end)
    ensures Walked(off, window, d) <==> WalkedEarlier(off, window, k, d)
  {
    hide DateOf, DayAt, LastDay;
    if WalkedEarlier(off, window, k, d) {
      var j: nat :| j < k && DateOf(off, DayAt(off, window.start, j)) == d;
      assert Visited(off, window.start, window.end, j);
    }
  }

  lemma WalkEnds(off: Offset, window: Interval, k: nat)
    requires Proper(window) && RegularAround(off, window) && LastDay(off, window.end) < DayAt(off, window.start, k)
    requires forall j: nat :: j < k ==> DayAt(off, window.start, j) <= LastDay(off, window.end)
    ensures DateOf(off, window.start) + k == DateOf(off, window.end - 1) + 1
  {
    hide RegularAt, Midnight, DateOf, NextDay, DayAt;
    DatesIncrease(off, window.start, window.end - 1);
    RegularVisits(off, window.start, window.end, k);
    if k > 0 { RegularVisits(off, window.start, window.end, k - 1); }
  }

  function Appended(s: seq<int>, x: int): (r: seq<int>)
    ensures Ascending(s) && (forall y :: y in s ==> y < x) ==> Ascending(r)
    ensures forall y :: y in r <==> y in s || y == x
  {
    assert forall i :: 0 <= i < |s| ==> s[i] in s;
    s + [x]
  }

  lemma MidnightsInOrder(off: Offset, date: int, later: int)
    requires RegularAt(off, date) && RegularAt(off, later)
    ensures Midnight(off, date) <= Midnight(off, later) <==> date <= later
  {
    hide RegularAt, Midnight;
    if date < later { MidnightsIncrease(off, date, later); }
    if later < date { MidnightsIncrease(off, later, date); }
  }

  lemma TouchedIsBetween(off: Offset, window: Interval, d: int)
    requires RegularAround(off, window) && Proper(window)
    ensures DateOf(off, window.start) <= DateOf(off, window.end - 1)
    ensures Touched(off, window, d) <==> DateOf(off, window.start) <= d <= DateOf(off, window.end - 1)
  {
    hide RegularAt, Midnight, DateOf;
    var first, last := DateOf(off, window.start), DateOf(off, window.end - 1);
    DatesIncrease(off, window.start, window.end - 1);
    if t :| Within(window, t) && DateOf(off, t) == d {
      DatesIncrease(off, window.start, t);
      DatesIncrease(off, t, window.end - 1);
    }
    if d == first {
      assert Within(window, window.start);
    } else if first < d <= last {
      NextDayIsMidnight(off, d);
      DateIsSpan(off, window.start, first);
      DateIsSpan(off, window.end - 1, last);
      MidnightsInOrder(off, first + 1, d);
      MidnightsInOrder(off, d, last);
      assert Within(window, Midnight(off, d));
    }
  }

  /** Two overlapping windows of one staff member and zone share a lock date. */
  lemma OverlappingWindowsShareADate(off: Offset, a: Interval, b: Interval) returns (d: int)
    requires Proper(a) && Proper(b) && Overlap(a, b)
    ensures Touched(off, a, d) && Touched(off, b, d)
  {
    var t := if a.start < b.start then b.start else a.start;
    assert Within(a, t) && Within(b, t);
    d := DateOf(off, t);
  }

  // ---- two zones ----

  /** The date ranges of two windows, each read in its own zone, meet. */
  predicate DatesMeet(home: Offset, a: Interval, asked: Offset, b: Interval) {
    && DateOf(home, a.start) <= DateOf(asked, b.end - 1)
    && DateOf(asked, b.start) <= DateOf(home, a.end - 1)
  }

  ghost predicate ShareADate(home: Offset, a: Interval, asked: Offset, b: Interval) {
    exists d :: Touched(home, a, d) && Touched(asked, b, d)
  }

  /** A customer's reschedule takes its dates in the zone of the request, the other writers in
      the staff member's: two windows share a lock date exactly when their date ranges meet. */
  lemma {:induction false} ShareADateIff(home: Offset, a: Interval, asked: Offset, b: Interval)
    requires Proper(a) && Proper(b) && RegularAround(home, a) && RegularAround(asked, b)
    ensures ShareADate(home, a, asked, b) <==> DatesMeet(home, a, asked, b)
  {
    hide RegularAround, Touched, DateOf;
    var first := if DateOf(home, a.start) < DateOf(asked, b.start) then DateOf(asked, b.start) else DateOf(home, a.start);
    TouchedIsBetween(home, a, first);
    TouchedIsBetween(asked, b, first);
    if d :| Touched(home, a, d) && Touched(asked, b, d) {
      TouchedIsBetween(home, a, d);
      TouchedIsBetween(asked, b, d);
    }
  }

  /** In one zone the date ranges of overlapping windows always meet. */
  lemma OverlapMeetsInOneZone(off: Offset, a: Interval, b: Interval)
    requires Proper(a) && Proper(b) && Overlap(a, b) && RegularAround(off, a) && RegularAround(off, b)
    ensures DatesMeet(off, a, off, b)
  {
    hide RegularAround, Touched;
    var d := OverlappingWindowsShareADate(off, a, b);
    ShareADateIff(off, a, off, b);
  }

  /** In two zones they need not: one window, read twelve hours apart. */
  lemma DifferentZonesMayShareNoDate() returns (home: Offset, asked: Offset, w: Interval)
    ensures Proper(w) && RegularAround(home, w) && RegularAround(asked, w)
    ensures !ShareADate(home, w, asked, w)
  {
    home, asked, w := Fixed(0), Fixed(12 * HOUR), Interval(13 * HOUR, 14 * HOUR);
    FixedIsRegular(0, 0, 0);
    FixedIsRegular(12 * HOUR, 1, 1);
    assert DateOf(home, w.start) == DateOf(home, w.end - 1) == 0;
    assert DateOf(asked, w.start) == DateOf(asked, w.end - 1) == 1;
    ShareADateIff(home, w, asked, w);
  }
}

/** Wall clocks, local days and the resolution of a wall-clock minute to an
    instant (localMinute of internal/scheduling/engine.go). */
module Zones {

  const SECOND := 1_000_000_000
  const MINUTE := 60_000_000_000
  const HOUR := 3_600_000_000_000
  const DAY := 86_400_000_000_000
  const MINUTES_PER_DAY := 1440

  /** A zone is its offset in nanoseconds at each instant. */
  type Offset = int -> int

  function Local(off: Offset, t: int): int {
    t + off(t)
  }

  /** Civil dates are day numbers: day 0 is 1 January 1970, a Thursday. */
  function DateOf(off: Offset, t: int): int {
    Local(off, t) / DAY
  }

  function Weekday(date: int): int {
    (date + 4) % 7
  }

  /** time.Date of the Go library: the offset in force at the wall time read as UTC
      leads to a guess, and the offset in force at that guess decides. */
  function Resolve(off: Offset, wall: int): int {
    wall - off(wall - off(wall))
  }

  function Midnight(off: Offset, date: int): int {
    Resolve(off, date * DAY)
  }

  /** AddDate(0, 0, 1): the same wall clock on the next date. */
  function NextDay(off: Offset, t: int): int {
    Resolve(off, Local(off, t) + DAY)
  }

  // ---- walking from day to day ----

  /** A date, and the date that is taken for the one after it. */
  datatype Day = Day(date: int, next: int)

  function Whole(date: int): Day {
    Day(date, date + 1)
  }

  /** The day as code sees it that holds an instant of it and adds one day. */
  function DayOf(off: Offset, t: int): Day {
    Day(DateOf(off, t), DateOf(off, NextDay(off, t)))
  }

  /** A loop over the local days of a window starts at the midnight of its first date, adds a
      day at a time, and ends when it is past the midnight of the last date. */
  function DayAt(off: Offset, from: int, k: nat): int {
    if k == 0 then Midnight(off, DateOf(off, from)) else NextDay(off, DayAt(off, from, k - 1))
  }

  function LastDay(off: Offset, to: int): int {
    Midnight(off, DateOf(off, to - 1))
  }

  ghost predicate Visited(off: Offset, from: int, to: int, k: nat) {
    forall j: nat :: j <= k ==> DayAt(off, from, j) <= LastDay(off, to)
  }

  /** The loop comes by a day. */
  ghost predicate WalksBy(off: Offset, from: int, to: int, d: Day) {
    exists k: nat :: Visited(off, from, to, k) && DayOf(off, DayAt(off, from, k)) == d
  }

  /** It comes by the dates of the window, each as a whole day, and by nothing else. */
  ghost predicate WalksWhole(off: Offset, from: int, to: int) {
    && (forall d :: WalksBy(off, from, to, d) ==> d == Whole(d.date) && DateOf(off, from) <= d.date <= DateOf(off, to - 1))
    && (forall date :: DateOf(off, from) <= date <= DateOf(off, to - 1) ==> WalksBy(off, from, to, Whole(date)))
  }

  /** The loop makes headway; where it does not, the source goes on until its context ends. */
  ghost predicate GoesForward(off: Offset, from: int, to: int) {
    forall k: nat :: Visited(off, from, to, k) ==> DayAt(off, from, k) < DayAt(off, from, k + 1)
  }

  /** Offsets that differ by less than a day: any zone that does not change sides of the date line. */
  ghost predicate Tame(off: Offset) {
    forall t, u :: off(t) - off(u) < DAY
  }

  lemma TameGoesForward(off: Offset, from: int, to: int)
    requires Tame(off)
    ensures GoesForward(off, from, to)
  {
    forall t
      ensures t < NextDay(off, t)
    {
      var wall := Local(off, t) + DAY;
      assert off(wall - off(wall)) - off(t) < DAY;
    }
  }

  // ---- zones with unique midnights ----

  /** Local midnight of `date` is read exactly once, in its whole first minute, and
      separates earlier wall clocks from later ones. */
  ghost predicate RegularAt(off: Offset, date: int) {
    var m := Midnight(off, date);
    && Local(off, m) == date * DAY
    && forall t ::
         && (t < m ==> Local(off, t) < date * DAY)
         && (m <= t ==> date * DAY <= Local(off, t))
         && (m + MINUTE <= t ==> date * DAY + MINUTE <= Local(off, t))
  }

  /** The midnights that begin and end the date. */
  ghost predicate RegularDay(off: Offset, date: int) {
    RegularAt(off, date) && RegularAt(off, date + 1)
  }

  /** The midnights of a stretch of dates, the one that ends it included. Whatever the
      zone did at other times, before or after, does not matter. */
  ghost predicate RegularDays(off: Offset, first: int, last: int) {
    RegularAt(off, first) && forall d :: first <= d <= last + 1 ==> RegularAt(off, d)
  }

  lemma DateIsSpan(off: Offset, t: int, date: int)
    requires RegularDay(off, date)
    ensures DateOf(off, t) == date <==> Midnight(off, date) <= t < Midnight(off, date + 1)
  {
  }

  lemma MidnightsIncrease(off: Offset, date: int, later: int)
    requires RegularAt(off, date) && RegularAt(off, later) && date < later
    ensures Midnight(off, date) < Midnight(off, later)
  {
    assert date * DAY < later * DAY;
  }

  /** Dates do not go back, as far as one regular midnight can tell. */
  lemma DatesIncrease(off: Offset, t: int, u: int)
    requires t <= u && (RegularAt(off, DateOf(off, t)) || RegularAt(off, DateOf(off, u) + 1))
    ensures DateOf(off, t) <= DateOf(off, u)
  {
    if RegularAt(off, DateOf(off, t)) {
      assert DateOf(off, t) * DAY <= Local(off, t);
    } else {
      assert Local(off, u) < (DateOf(off, u) + 1) * DAY;
    }
  }

  lemma NextDayIsMidnight(off: Offset, date: int)
    requires RegularAt(off, date)
    ensures NextDay(off, Midnight(off, date)) == Midnight(off, date + 1)
    ensures DateOf(off, Midnight(off, date)) == date
  {
    assert date * DAY + DAY == (date + 1) * DAY;
  }

  /** On a regular date the code sees the whole date. */
  lemma RegularDayIsWhole(off: Offset, date: int)
    requires RegularDay(off, date)
    ensures DayOf(off, Midnight(off, date)) == Whole(date)
  {
    hide Midnight, NextDay, DateOf, RegularAt;
    NextDayIsMidnight(off, date);
    NextDayIsMidnight(off, date + 1);
  }

  /** Over regular dates the walk is from midnight to midnight. */
  lemma {:induction false} RegularWalk(off: Offset, from: int, to: int, k: nat)
    requires RegularDays(off, DateOf(off, from), DateOf(off, to - 1)) && DateOf(off, from) + k <= DateOf(off, to - 1) + 1
    ensures DayAt(off, from, k) == Midnight(off, DateOf(off, from) + k)
  {
    hide Midnight, NextDay, DateOf, RegularAt;
    if k > 0 {
      RegularWalk(off, from, to, k - 1);
      NextDayIsMidnight(off, DateOf(off, from) + k - 1);
    }
  }

  /** It visits exactly the dates of the window. */
  lemma {:induction false} RegularVisits(off: Offset, from: int, to: int, k: nat)
    requires RegularDays(off, DateOf(off, from), DateOf(off, to - 1)) && DateOf(off, from) <= DateOf(off, to - 1)
    ensures Visited(off, from, to, k) <==> DateOf(off, from) + k <= DateOf(off, to - 1)
  {
    hide Midnight, NextDay, DateOf, RegularAt, DayAt;
    var first, last := DateOf(off, from), DateOf(off, to - 1);
    if first + k <= last {
      forall j: nat | j <= k
        ensures DayAt(off, from, j) <= LastDay(off, to)
      {
        RegularWalk(off, from, to, j);
        if first + j < last { MidnightsIncrease(off, first + j, last); }
      }
    } else {
      RegularWalk(off, from, to, last + 1 - first);
      MidnightsIncrease(off, last, last + 1);
    }
  }

  lemma {:induction false} RegularWalksWhole(off: Offset, from: int, to: int)
    requires RegularDays(off, DateOf(off, from), DateOf(off, to - 1)) && DateOf(off, from) <= DateOf(off, to - 1)
    ensures WalksWhole(off, from, to)
  {
    hide Midnight, NextDay, DateOf, RegularAt, DayAt, DayOf, Visited;
    var first := DateOf(off, from);
    forall k: nat | Visited(off, from, to, k)
      ensures DayOf(off, DayAt(off, from, k)) == Whole(first + k) && first + k <= DateOf(off, to - 1)
    {
      RegularStop(off, from, to, k);
    }
    forall date | first <= date <= DateOf(off, to - 1)
      ensures WalksBy(off, from, to, Whole(date))
    {
      RegularVisits(off, from, to, date - first);
      RegularStop(off, from, to, date - first);
    }
  }

  lemma RegularStop(off: Offset, from: int, to: int, k: nat)
    requires RegularDays(off, DateOf(off, from), DateOf(off, to - 1)) && DateOf(off, from) <= DateOf(off, to - 1)
    requires Visited(off, from, to, k)
    ensures DateOf(off, from) + k <= DateOf(off, to - 1)
    ensures DayOf(off, DayAt(off, from, k)) == Whole(DateOf(off, from) + k)
  {
    hide Midnight, NextDay, DateOf, RegularAt, DayAt, DayOf, Visited;
    RegularVisits(off, from, to, k);
    RegularWalk(off, from, to, k);
    RegularDayIsWhole(off, DateOf(off, from) + k);
  }

  lemma {:induction false} RegularGoesForward(off: Offset, from: int, to: int)
    requires RegularDays(off, DateOf(off, from), DateOf(off, to - 1)) && DateOf(off, from) <= DateOf(off, to - 1)
    ensures GoesForward(off, from, to)
  {
    hide Midnight, NextDay, DateOf, RegularAt, DayAt, Visited;
    forall k: nat | Visited(off, from, to, k)
      ensures DayAt(off, from, k) < DayAt(off, from, k + 1)
    {
      RegularVisits(off, from, to, k);
      RegularWalk(off, from, to, k);
      RegularWalk(off, from, to, k + 1);
      MidnightsIncrease(off, DateOf(off, from) + k, DateOf(off, from) + k + 1);
    }
  }

  /** A zone that never changes its clock. */
  function Fixed(offset: int): Offset {
    t => offset
  }

  lemma FixedIsRegular(offset: int, first: int, last: int)
    ensures RegularDays(Fixed(offset), first, last)
  {
    var off := Fixed(offset);
    forall date
      ensures RegularAt(off, date)
    {
      assert Midnight(off, date) == date * DAY - offset;
    }
  }

  /** A zone that once skipped a midnight: an hour was added at the start of day `skipped`. */
  function OldChange(skipped: int): Offset {
    t => if t < skipped * DAY then 0 else HOUR
  }

  /** Such a zone has an irregular midnight, and regular days ever after. */
  lemma OldChangeIsRegularLater(skipped: int, first: int, last: int)
    requires skipped < first
    ensures !RegularAt(OldChange(skipped), skipped)
    ensures RegularDays(OldChange(skipped), first, last)
  {
    var off := OldChange(skipped);
    assert skipped * DAY + DAY <= first * DAY;
    forall d | first <= d
      ensures RegularAt(off, d)
    {
      assert skipped * DAY + DAY <= d * DAY;
      assert Midnight(off, d) == d * DAY - HOUR;
    }
    var m := Midnight(off, skipped);
    assert Local(off, m) != skipped * DAY;
  }

  // ---- resolving a wall-clock minute ----

  function Wall(date: int, minute: int): int {
    date * DAY + minute * MINUTE
  }

  /** The wall clock shows the given minute at second zero. */
  predicate Reads(off: Offset, t: int, date: int, minute: int) {
    0 <= Local(off, t) - Wall(date, minute) < SECOND
  }

  const REACH := 10_800_000_000_000

  /** Instants from `t` to `last`, a minute apart, at which the clock reads the minute. */
  function Matches(off: Offset, date: int, minute: int, t: int, last: int): seq<int>
    decreases last - t
  {
    if last < t then []
    else (if Reads(off, t, date, minute) then [t] else []) + Matches(off, date, minute, t + MINUTE, last)
  }

  /** The first minute from `minute` on that the local day really has. */
  function RealMinute(off: Offset, date: int, minute: int, latest: bool): int
    requires 0 <= minute <= MINUTES_PER_DAY
    decreases MINUTES_PER_DAY - minute
  {
    if minute == MINUTES_PER_DAY then Midnight(off, date + 1)
    else
      var anchor := Resolve(off, Wall(date, minute));
      var matches := Matches(off, date, minute, anchor - REACH, anchor + REACH);
      if matches == [] then RealMinute(off, date, minute + 1, latest) else Choice(matches, latest)
  }

  lemma RealMinuteStep(off: Offset, date: int, minute: int, latest: bool)
    requires 0 <= minute < MINUTES_PER_DAY
    ensures var anchor := Resolve(off, Wall(date, minute));
            var matches := Matches(off, date, minute, anchor - REACH, anchor + REACH);
            RealMinute(off, date, minute, latest) ==
            if matches == [] then RealMinute(off, date, minute + 1, latest) else Choice(matches, latest)
  {
  }

  /** A minute of a day; minute 1440 is minute 0 of the next date. */
  function Boundary(off: Offset, d: Day, minute: int, latest: bool): int
    requires 0 <= minute <= MINUTES_PER_DAY
  {
    if minute == MINUTES_PER_DAY then RealMinute(off, d.next, 0, latest) else RealMinute(off, d.date, minute, latest)
  }

  method ScanMatches(off: Offset, date: int, minute: int, first: int, last: int) returns (matches: seq<int>)
    ensures matches == Matches(off, date, minute, first, last)
  {
    matches := [];
    var t := first;
    while t <= last
      invariant Matches(off, date, minute, first, last) == matches + Matches(off, date, minute, t, last)
      decreases last - t
    {
      if Reads(off, t, date, minute) {
        matches := matches + [t];
      }
      t := t + MINUTE;
    }
  }

  function Choice(matches: seq<int>, latest: bool): int
    requires matches != []
  {
    if latest then matches[|matches| - 1] else matches[0]
  }

  method LocalMinute(off: Offset, day: int, minute: int, preferLatest: bool) returns (r: int)
    requires 0 <= minute <= MINUTES_PER_DAY
    ensures r == Boundary(off, DayOf(off, day), minute, preferLatest)
  {
    var date, first := DateOf(off, day), minute;
    if minute == MINUTES_PER_DAY {
      date, first := DateOf(off, NextDay(off, day)), 0;
    }
    hide Matches, Choice, Resolve, Wall, Local, DateOf, NextDay;
    var candidate := first;
    while candidate < MINUTES_PER_DAY
      invariant first <= candidate <= MINUTES_PER_DAY
      invariant RealMinute(off, date, first, preferLatest) == RealMinute(off, date, candidate, preferLatest)
    {
      var anchor := Resolve(off, Wall(date, candidate));
      var matches := ScanMatches(off, date, candidate, anchor - REACH, anchor + REACH);
      if matches != [] {
        return Choice(matches, preferLatest);
      }
      candidate := candidate + 1;
    }
    return Midnight(off, date + 1);
  }

  ghost predicate Ascending(s: seq<int>) {
    forall i, j :: 0 <= i < j < |s| ==> s[i] < s[j]
  }

  predicate OnScan(x: int, t: int, last: int) {
    t <= x <= last && (x - t) % MINUTE == 0
  }

  lemma ScanStep(x: int, t: int, last: int)
    requires t <= last
    ensures OnScan(x, t, last) <==> x == t || OnScan(x, t + MINUTE, last)
  {
    assert (x - t) % MINUTE == (x - t - MINUTE) % MINUTE;
  }

  lemma {:induction false} MatchesExact(off: Offset, date: int, minute: int, t: int, last: int)
    ensures forall x :: x in Matches(off, date, minute, t, last) <==>
              OnScan(x, t, last) && Reads(off, x, date, minute)
    decreases last - t
  {
    hide OnScan, Reads;
    if t <= last {
      MatchesExact(off, date, minute, t + MINUTE, last);
      forall x
        ensures x in Matches(off, date, minute, t, last) <==>
                  OnScan(x, t, last) && Reads(off, x, date, minute)
      {
        ScanStep(x, t, last);
      }
    } else {
      forall x
        ensures !OnScan(x, t, last)
      {
        OffScan(x, t, last);
      }
    }
  }

  lemma OffScan(x: int, t: int, last: int)
    requires last < t
    ensures !OnScan(x, t, last)
  {
  }

  lemma {:induction false} MatchesAscend(off: Offset, date: int, minute: int, t: int, last: int)
    ensures Ascending(Matches(off, date, minute, t, last))
    decreases last - t
  {
    if t <= last {
      var rest := Matches(off, date, minute, t + MINUTE, last);
      MatchesAscend(off, date, minute, t + MINUTE, last);
      MatchesExact(off, date, minute, t + MINUTE, last);
      assert forall i | 0 <= i < |rest| :: rest[i] in rest && t < rest[i];
    }
  }

  /** An instant that reads a minute of the date lies within the date. */
  lemma ReadingIsInDay(off: Offset, date: int, minute: int, x: int)
    requires RegularDay(off, date) && 0 <= minute < MINUTES_PER_DAY && Reads(off, x, date, minute)
    ensures Midnight(off, date) <= x < Midnight(off, date + 1)
  {
    assert DateOf(off, x) == date;
    hide RegularDay;
    DateIsSpan(off, x, date);
  }

  lemma ChoiceIsAMatch(matches: seq<int>, latest: bool)
    requires matches != []
    ensures Choice(matches, latest) in matches
  {
  }

  /** Boundaries of a regular day stay within the day. */
  lemma {:induction false} RealMinuteWithinDay(off: Offset, date: int, minute: int, latest: bool)
    requires RegularDay(off, date) && 0 <= minute <= MINUTES_PER_DAY
    ensures Midnight(off, date) <= RealMinute(off, date, minute, latest) <= Midnight(off, date + 1)
    decreases MINUTES_PER_DAY - minute
  {
    MidnightsIncrease(off, date, date + 1);
    if minute < MINUTES_PER_DAY {
      hide RegularDay, Midnight, Matches, Reads, OnScan, Choice, Resolve, RealMinute;
      RealMinuteStep(off, date, minute, latest);
      var anchor := Resolve(off, Wall(date, minute));
      var matches := Matches(off, date, minute, anchor - REACH, anchor + REACH);
      MatchesExact(off, date, minute, anchor - REACH, anchor + REACH);
      if matches == [] {
        RealMinuteWithinDay(off, date, minute + 1, latest);
      } else {
        ChoiceIsAMatch(matches, latest);
        ReadingIsInDay(off, date, minute, Choice(matches, latest));
      }
    }
  }

  lemma OnGrid(d: int)
    requires 0 <= d < MINUTE && (d + REACH) % MINUTE == 0
    ensures d == 0
  {
    assert d + REACH == d + 180 * MINUTE;
  }

  /** Minute 1440 resolves to the unique midnight that ends the day. */
  lemma EndOfDay(off: Offset, date: int, latest: bool)
    requires RegularAt(off, date)
    ensures RealMinute(off, date, 0, latest) == Midnight(off, date)
  {
    var anchor := Midnight(off, date);
    assert Wall(date, 0) == date * DAY;
    var matches := Matches(off, date, 0, anchor - REACH, anchor + REACH);
    MatchesExact(off, date, 0, anchor - REACH, anchor + REACH);
    assert (anchor - (anchor - REACH)) % MINUTE == 0;
    assert Reads(off, anchor, date, 0);
    assert anchor in matches;
    hide Matches;
    forall x | x in matches
      ensures x == anchor
    {
      assert anchor <= x < anchor + MINUTE;
      OnGrid(x - anchor);
    }
    assert Choice(matches, latest) in matches;
  }

  lemma BoundaryWithinDay(off: Offset, date: int, minute: int, latest: bool)
    requires RegularDay(off, date) && 0 <= minute <= MINUTES_PER_DAY
    ensures Midnight(off, date) <= Boundary(off, Whole(date), minute, latest) <= Midnight(off, date + 1)
  {
    hide RealMinute, Midnight, RegularAt;
    MidnightsIncrease(off, date, date + 1);
    if minute == MINUTES_PER_DAY {
      EndOfDay(off, date + 1, latest);
    } else {
      RealMinuteWithinDay(off, date, minute, latest);
    }
  }
}

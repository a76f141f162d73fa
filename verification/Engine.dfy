/** The slot search of internal/scheduling/engine.go, proved to answer with exactly what its
    walk over the local days comes across, and, where the midnights are regular, with exactly
    what Availability says is on offer. */
module Engine {
  import opened Domain
  import opened Intervals
  import opened Sorting
  import opened Zones
  import opened Availability

  // ---- one day of the search ----

  /** What FindSlots holds while it works on one day. */
  ghost predicate AtDay(off: Offset, q: Search, d: Day, working: seq<Interval>, breaks: seq<Interval>)
    requires Accepted(q)
  {
    && Separated(working) && AllProper(working) && (forall p :: p in working <==> IsPeriod(off, q, d, p))
    && AllProper(breaks)
    && (forall t :: Covers(DaySpans(off, d, q.rules, Break), t) <==> Covers(breaks, t))
  }

  /** The loop's test of one grid point. */
  ghost predicate Passes(q: Search, period: Interval, breaks: seq<Interval>, s: int) {
    && InWindow(q, s) && s + q.service.duration <= period.end
    && !Touches(Occupied(q.service, s), breaks) && !Touches(Occupied(q.service, s), BusySpans(q.busy))
  }

  /** What the day has to offer within the window. */
  ghost predicate Fits(off: Offset, q: Search, d: Day, s: int)
    requires Accepted(q)
  {
    InWindow(q, s) && Free(off, q, d, s)
  }

  lemma ClearIgnoresMerging(off: Offset, q: Search, d: Day, working: seq<Interval>, breaks: seq<Interval>, s: int)
    requires Accepted(q) && AtDay(off, q, d, working, breaks)
    ensures Clear(off, q, d, s) <==>
            !Touches(Occupied(q.service, s), breaks) && !Touches(Occupied(q.service, s), BusySpans(q.busy))
  {
    hide DaySpans, RulesValid, BusySpans, Touches, IsPeriod;
    DaySpansProper(off, d, q.rules, Break);
    OverlapIgnoresMerging(Occupied(q.service, s), DaySpans(off, d, q.rules, Break), breaks);
  }

  /** A free slot starts within one of the day's periods. */
  lemma PeriodOf(off: Offset, q: Search, d: Day, working: seq<Interval>, breaks: seq<Interval>, s: int) returns (k: nat)
    requires Accepted(q) && AtDay(off, q, d, working, breaks) && Free(off, q, d, s)
    ensures k < |working| && OnGridOf(q, working[k], s) && working[k].start <= s < working[k].end
  {
    hide IsPeriod, Clear, RulesValid, OnStep;
    var p :| IsPeriod(off, q, d, p) && OnGridOf(q, p, s);
    assert p in working;
    k :| k < |working| && working[k] == p;
  }

  lemma SameIndex(working: seq<Interval>, i: nat, k: nat, s: int)
    requires Separated(working) && i < |working| && k < |working|
    requires working[i].start <= s < working[i].end && working[k].start <= s < working[k].end
    ensures i == k
  {
  }

  /** Inside a period, the loop's test decides exactly what the day has to offer. */
  lemma TestIsFree(off: Offset, q: Search, d: Day, working: seq<Interval>, breaks: seq<Interval>, i: nat, s: int)
    requires Accepted(q) && AtDay(off, q, d, working, breaks)
    requires i < |working| && working[i].start <= s < working[i].end
    ensures Fits(off, q, d, s) <==> OnStep(working[i].start, s, Step(q)) && Passes(q, working[i], breaks, s)
  {
    hide IsPeriod, Clear, RulesValid, Touches, BusySpans, DaySpans, OnStep;
    ClearIgnoresMerging(off, q, d, working, breaks, s);
    if Free(off, q, d, s) {
      var k := PeriodOf(off, q, d, working, breaks, s);
      SameIndex(working, i, k, s);
    }
    if OnStep(working[i].start, s, Step(q)) && Passes(q, working[i], breaks, s) {
      assert working[i] in working;
      assert OnGridOf(q, working[i], s);
    }
  }

  /** Where the scan stands before period `i`: nothing is left below, and the period is ahead. */
  lemma NothingBetweenPeriods(off: Offset, q: Search, d: Day, working: seq<Interval>, breaks: seq<Interval>, i: nat, s: int)
    requires Accepted(q) && AtDay(off, q, d, working, breaks) && i <= |working| && Fits(off, q, d, s)
    requires i < |working| ==> s < working[i].start
    ensures 0 < i && s < working[i - 1].end
  {
    hide IsPeriod, RulesValid, DaySpans, Free, OnGridOf;
    var k := PeriodOf(off, q, d, working, breaks, s);
  }

  // ---- collecting ----

  /** `slots` goes on from `before` in ascending order, with exactly what the day has to offer
      below `bound` and was not there yet. */
  ghost predicate Extends(off: Offset, q: Search, d: Day, before: seq<Slot>, slots: seq<Slot>, bound: int)
    requires Accepted(q)
  {
    && |before| <= |slots| && slots[..|before|] == before && Ascend(slots[|before|..])
    && (forall i :: |before| <= i < |slots| ==> Fresh(off, q, d, before, slots[i], bound))
    && (forall s {:trigger Fits(off, q, d, s)} :: s < bound && Fits(off, q, d, s) ==> SlotAt(q, s) in slots)
  }

  ghost predicate Fresh(off: Offset, q: Search, d: Day, before: seq<Slot>, x: Slot, bound: int)
    requires Accepted(q)
  {
    x == SlotAt(q, x.start) && x !in before && x.start < bound && Fits(off, q, d, x.start)
  }

  ghost predicate SeenAre(q: Search, slots: seq<Slot>, seen: set<int>) {
    forall s :: s in seen <==> SlotAt(q, s) in slots
  }

  ghost predicate BelowLimit(q: Search, slots: seq<Slot>) {
    q.limit > 0 ==> |slots| < q.limit
  }

  /** Nothing on the day from `lo` up to `hi`, or nothing that is not there yet. */
  ghost predicate Quiet(off: Offset, q: Search, d: Day, slots: seq<Slot>, lo: int, hi: int)
    requires Accepted(q)
  {
    lo <= hi && forall s {:trigger Fits(off, q, d, s)} :: lo <= s < hi && Fits(off, q, d, s) ==> SlotAt(q, s) in slots
  }

  lemma StartExtending(off: Offset, q: Search, d: Day, slots: seq<Slot>, bound: int)
    requires Accepted(q) && forall s :: Fits(off, q, d, s) ==> bound <= s
    ensures Extends(off, q, d, slots, slots, bound)
  {
    hide Accepted, Fits;
  }

  lemma Skip(off: Offset, q: Search, d: Day, before: seq<Slot>, slots: seq<Slot>, lo: int, hi: int)
    requires Accepted(q) && Extends(off, q, d, before, slots, lo) && Quiet(off, q, d, slots, lo, hi)
    ensures Extends(off, q, d, before, slots, hi)
  {
    hide Accepted, Fits, Ascend;
    forall i | |before| <= i < |slots|
      ensures Fresh(off, q, d, before, slots[i], hi)
    {
      assert Fresh(off, q, d, before, slots[i], lo);
    }
  }

  lemma Take(off: Offset, q: Search, d: Day, before: seq<Slot>, slots: seq<Slot>, s: int)
    requires Accepted(q) && Extends(off, q, d, before, slots, s) && Fits(off, q, d, s) && SlotAt(q, s) !in slots
    ensures Extends(off, q, d, before, slots + [SlotAt(q, s)], s + 1)
  {
    hide Accepted, Fits;
    var more := slots + [SlotAt(q, s)];
    assert more[..|before|] == before && more[|before|..] == slots[|before|..] + [SlotAt(q, s)];
    forall i | |before| <= i < |more|
      ensures Fresh(off, q, d, before, more[i], s + 1)
    {
      if i < |slots| {
        assert Fresh(off, q, d, before, slots[i], s);
      } else {
        assert forall x :: x in before ==> x in slots[..|before|];
      }
    }
    forall i | |before| <= i < |slots|
      ensures slots[i].start < s
    {
      assert Fresh(off, q, d, before, slots[i], s);
    }
  }

  lemma QuietToNext(off: Offset, q: Search, d: Day, working: seq<Interval>, breaks: seq<Interval>, i: nat, slots: seq<Slot>, s: int, next: int)
    requires Accepted(q) && AtDay(off, q, d, working, breaks) && i < |working|
    requires working[i].start <= s < working[i].end && OnStep(working[i].start, s, Step(q))
    requires s < next <= s + Step(q) && next <= working[i].end
    ensures Quiet(off, q, d, slots, s + 1, next)
  {
    hide IsPeriod, Fits, RulesValid, DaySpans, Touches, AtDay, OnStep;
    forall t | s + 1 <= t < next
      ensures !Fits(off, q, d, t)
    {
      TestIsFree(off, q, d, working, breaks, i, t);
      OffGrid(working[i].start, s, t, Step(q));
    }
  }

  lemma OffGrid(a: int, s: int, t: int, step: int)
    requires 0 < step && a <= s < t < s + step && OnStep(a, s, step)
    ensures !OnStep(a, t, step)
  {
    var k, m := (s - a) / step, (t - a) / step;
    assert s - a == step * k;
    if (t - a) % step == 0 {
      assert t - a == step * m;
      assert t - s == step * (m - k);
      NoSmallMultiple(step, m - k);
    }
  }

  lemma NoSmallMultiple(step: int, d: int)
    requires 0 < step
    ensures step * d <= 0 || step <= step * d
  {
    if d <= 0 {
      assert step * d <= 0;
    } else {
      assert step * d == step + step * (d - 1);
      assert 0 <= step * (d - 1);
    }
  }

  // ---- the search itself ----

  method IntervalsForDate(off: Offset, day: int, rules: seq<Rule>) returns (working: seq<Interval>, breaks: seq<Interval>)
    requires RulesValid(rules)
    ensures working == DaySpans(off, DayOf(off, day), rules, Working)
    ensures breaks == DaySpans(off, DayOf(off, day), rules, Break)
  {
    hide Boundary, DayOf;
    ghost var d := DayOf(off, day);
    working, breaks := [], [];
    for k := 0 to |rules|
      invariant working == DaySpans(off, d, rules[..k], Working)
      invariant breaks == DaySpans(off, d, rules[..k], Break)
    {
      var rule := rules[k];
      LastSpan(off, d, rules, k, Working);
      LastSpan(off, d, rules, k, Break);
      assert d.date == DateOf(off, day) by { DateOfDay(off, day); }
      if Applies(rule, DateOf(off, day)) {
        var start := LocalMinute(off, day, rule.startMinute, false);
        var end := LocalMinute(off, day, rule.endMinute, true);
        if start < end {
          if rule.kind == Working {
            working := working + [Interval(start, end)];
          } else {
            breaks := breaks + [Interval(start, end)];
          }
        }
      }
    }
    assert rules[..|rules|] == rules;
  }

  lemma DateOfDay(off: Offset, day: int)
    ensures DayOf(off, day).date == DateOf(off, day)
  {
  }

  lemma LastSpan(off: Offset, d: Day, rules: seq<Rule>, k: nat, kind: Kind)
    requires RulesValid(rules) && k < |rules|
    ensures DaySpans(off, d, rules[..k + 1], kind) ==
            DaySpans(off, d, rules[..k], kind) + OneSpan(off, d, rules[k], kind)
  {
    hide OneSpan;
    assert rules[..k + 1][..k] == rules[..k];
  }

  /** The innermost loop: one working period. */
  method ScanPeriod(off: Offset, q: Search, ghost d: Day, ghost working: seq<Interval>, ghost i: nat, ghost before: seq<Slot>,
                    period: Interval, breaks: seq<Interval>, slots0: seq<Slot>, seen0: set<int>)
    returns (slots: seq<Slot>, seen: set<int>, full: bool, ghost bound: int)
    requires Accepted(q) && AtDay(off, q, d, working, breaks) && i < |working| && working[i] == period
    requires Extends(off, q, d, before, slots0, period.start) && SeenAre(q, slots0, seen0) && BelowLimit(q, slots0)
    ensures Extends(off, q, d, before, slots, bound) && SeenAre(q, slots, seen)
    ensures if full then q.limit > 0 && |slots| == q.limit else bound == period.end && BelowLimit(q, slots)
  {
    hide AtDay, Extends, Fits, SeenAre, RulesValid, Passes, Quiet, OnStep;
    slots, seen, full, bound := slots0, seen0, false, period.end;
    PeriodIsProper(off, q, d, working, breaks, i);
    StartsOnGrid(period.start, Step(q));
    var start := period.start;
    while start < period.end
      invariant period.start <= start && OnStep(period.start, start, Step(q))
      invariant Extends(off, q, d, before, slots, Min(start, period.end)) && SeenAre(q, slots, seen) && BelowLimit(q, slots)
      decreases period.end - start
    {
      ghost var next := Min(start + Step(q), period.end);
      TestIsFree(off, q, d, working, breaks, i, start);
      StaysOnGrid(period.start, start, Step(q));
      SeenHas(q, slots, seen, start);
      var passes := TestPoint(q, period, breaks, start);
      if !passes || start in seen {
        QuietHere(off, q, d, slots, start);
        Skip(off, q, d, before, slots, start, start + 1);
      } else {
        Take(off, q, d, before, slots, start);
        NowSeen(q, slots, seen, start);
        slots, seen := slots + [SlotAt(q, start)], seen + {start};
        if q.limit > 0 && |slots| >= q.limit {
          return slots, seen, true, start + 1;
        }
      }
      QuietToNext(off, q, d, working, breaks, i, slots, start, next);
      Skip(off, q, d, before, slots, start + 1, next);
      start := start + Step(q);
    }
  }

  lemma SeenHas(q: Search, slots: seq<Slot>, seen: set<int>, s: int)
    requires SeenAre(q, slots, seen)
    ensures s in seen <==> SlotAt(q, s) in slots
  {
  }

  lemma NowSeen(q: Search, slots: seq<Slot>, seen: set<int>, s: int)
    requires SeenAre(q, slots, seen)
    ensures SeenAre(q, slots + [SlotAt(q, s)], seen + {s})
  {
  }

  lemma QuietHere(off: Offset, q: Search, d: Day, slots: seq<Slot>, s: int)
    requires Accepted(q) && (Fits(off, q, d, s) ==> SlotAt(q, s) in slots)
    ensures Quiet(off, q, d, slots, s, s + 1)
  {
    hide Accepted, Fits;
  }

  /** The tests the loop makes before it takes a grid point. */
  method TestPoint(q: Search, period: Interval, breaks: seq<Interval>, start: int) returns (passes: bool)
    requires Accepted(q)
    ensures passes <==> Passes(q, period, breaks, start)
  {
    var end := start + q.service.duration;
    if start < q.from || end <= start || q.to < end || period.end < end {
      return false;
    }
    var occupied := Occupied(q.service, start);
    var hitsBreak := OverlapsAny(occupied, breaks);
    var hitsBusy := OverlapsAny(occupied, BusySpans(q.busy));
    return !hitsBreak && !hitsBusy;
  }

  lemma StartsOnGrid(a: int, step: int)
    requires 0 < step
    ensures OnStep(a, a, step)
  {
  }

  lemma PeriodIsProper(off: Offset, q: Search, d: Day, working: seq<Interval>, breaks: seq<Interval>, i: nat)
    requires Accepted(q) && AtDay(off, q, d, working, breaks) && i < |working|
    ensures working[i].start < working[i].end
  {
  }

  lemma StaysOnGrid(a: int, s: int, step: int)
    requires 0 < step && OnStep(a, s, step)
    ensures OnStep(a, s + step, step)
  {
    var k := (s - a) / step;
    assert s + step - a == step * (k + 1);
    MultipleHasNoRest(step, k + 1);
  }

  lemma MultipleHasNoRest(step: int, k: int)
    requires 0 < step
    ensures (step * k) % step == 0
  {
    var m, r := (step * k) / step, (step * k) % step;
    assert r == step * (k - m);
    NoSmallMultiple(step, k - m);
  }

  /** The loop over one day's merged working periods. */
  method ScanDay(off: Offset, q: Search, day: int, slots0: seq<Slot>, seen0: set<int>)
    returns (slots: seq<Slot>, seen: set<int>, full: bool, ghost bound: int)
    requires Accepted(q) && SeenAre(q, slots0, seen0) && BelowLimit(q, slots0)
    ensures Extends(off, q, DayOf(off, day), slots0, slots, bound) && SeenAre(q, slots, seen)
    ensures if full then q.limit > 0 && |slots| == q.limit
            else BelowLimit(q, slots) && forall s :: Fits(off, q, DayOf(off, day), s) ==> s < bound
  {
    hide DaySpans, Fits, Extends, SeenAre, RulesValid, DayOf, IsRun, Covers;
    ghost var d := DayOf(off, day);
    var rawWorking, rawBreaks := IntervalsForDate(off, day, q.rules);
    DaySpansProper(off, d, q.rules, Working);
    DaySpansProper(off, d, q.rules, Break);
    var working := MergeIntervals(rawWorking);
    var breaks := MergeIntervals(rawBreaks);
    assert AtDay(off, q, d, working, breaks);
    hide AtDay;
    slots, seen, full := slots0, seen0, false;
    bound := if working == [] then 0 else working[0].start;
    FirstPeriod(off, q, d, working, breaks, bound);
    StartExtending(off, q, d, slots0, bound);
    for i := 0 to |working|
      invariant bound == (if i > 0 then working[i - 1].end else if working == [] then 0 else working[0].start)
      invariant Extends(off, q, d, slots0, slots, bound) && SeenAre(q, slots, seen) && BelowLimit(q, slots)
    {
      GoToPeriod(off, q, d, working, breaks, i, slots0, slots, bound);
      slots, seen, full, bound := ScanPeriod(off, q, d, working, i, slots0, working[i], breaks, slots, seen);
      if full {
        return;
      }
    }
    full := false;
    LastPeriod(off, q, d, working, breaks, bound);
  }

  lemma FirstPeriod(off: Offset, q: Search, d: Day, working: seq<Interval>, breaks: seq<Interval>, bound: int)
    requires Accepted(q) && AtDay(off, q, d, working, breaks) && (working != [] ==> bound <= working[0].start)
    ensures forall s :: Fits(off, q, d, s) ==> bound <= s
  {
    hide AtDay, Fits, Accepted;
    forall s | Fits(off, q, d, s)
      ensures bound <= s
    {
      if working == [] || s < working[0].start { NothingBetweenPeriods(off, q, d, working, breaks, 0, s); }
    }
  }

  lemma LastPeriod(off: Offset, q: Search, d: Day, working: seq<Interval>, breaks: seq<Interval>, bound: int)
    requires Accepted(q) && AtDay(off, q, d, working, breaks) && (working != [] ==> bound == working[|working| - 1].end)
    ensures forall s :: Fits(off, q, d, s) ==> s < bound
  {
    hide AtDay, Fits, Accepted;
    forall s | Fits(off, q, d, s)
      ensures s < bound
    {
      NothingBetweenPeriods(off, q, d, working, breaks, |working|, s);
    }
  }

  lemma GoToPeriod(off: Offset, q: Search, d: Day, working: seq<Interval>, breaks: seq<Interval>, i: nat,
                   before: seq<Slot>, slots: seq<Slot>, bound: int)
    requires Accepted(q) && AtDay(off, q, d, working, breaks) && i < |working|
    requires bound == if i > 0 then working[i - 1].end else working[0].start
    requires Extends(off, q, d, before, slots, bound)
    ensures Extends(off, q, d, before, slots, working[i].start)
  {
    hide Accepted, Extends, Fits, IsPeriod, DaySpans;
    if i > 0 {
      forall s | bound <= s < working[i].start
        ensures !Fits(off, q, d, s)
      {
        if Fits(off, q, d, s) { NothingBetweenPeriods(off, q, d, working, breaks, i, s); }
      }
      Skip(off, q, d, before, slots, bound, working[i].start);
    }
  }

  // ---- the order of the result ----

  /** The order of sortSlots. */
  predicate SlotBefore(a: Slot, b: Slot) {
    a.start < b.start || (a.start == b.start && TextLess(a.staff, b.staff))
  }

  /** Go's order on strings. */
  predicate TextLess(a: string, b: string) {
    if b == [] then false
    else if a == [] then true
    else a[0] < b[0] || (a[0] == b[0] && TextLess(a[1..], b[1..]))
  }

  lemma {:induction false} TextLessIrreflexive(a: string)
    ensures !TextLess(a, a)
  {
    if a != [] { TextLessIrreflexive(a[1..]); }
  }

  lemma {:induction false} TextLessTransitive(a: string, b: string, c: string)
    requires TextLess(a, b) && TextLess(b, c)
    ensures TextLess(a, c)
  {
    if a != [] && a[0] == b[0] == c[0] {
      TextLessTransitive(a[1..], b[1..], c[1..]);
    }
  }

  lemma {:induction false} TextLessTotal(a: string, b: string)
    requires a != b
    ensures TextLess(a, b) || TextLess(b, a)
  {
    if a != [] && b != [] && a[0] == b[0] {
      assert a == [a[0]] + a[1..] && b == [b[0]] + b[1..];
      TextLessTotal(a[1..], b[1..]);
    }
  }

  lemma SlotBeforeIsOrder()
    ensures Order(SlotBefore)
  {
    hide TextLess;
    forall a: Slot
      ensures !SlotBefore(a, a)
    {
      TextLessIrreflexive(a.staff);
    }
    forall a, b, c | SlotBefore(a, b) && SlotBefore(b, c)
      ensures SlotBefore(a, c)
    {
      if a.start == b.start == c.start { TextLessTransitive(a.staff, b.staff, c.staff); }
    }
  }

  lemma DistinctStartsSort(slots: seq<Slot>)
    requires forall i, j :: 0 <= i < j < |slots| ==> slots[i].start != slots[j].start
    ensures Ascend(Sort(SlotBefore, slots))
    ensures |Sort(SlotBefore, slots)| == |slots| && forall x :: x in Sort(SlotBefore, slots) <==> x in slots
  {
    SlotBeforeIsOrder();
    hide TextLess;
    forall i, j | 0 <= i < j < |slots|
      ensures Comparable(SlotBefore, slots[i], slots[j])
    {
    }
    SortIncreasing(SlotBefore, slots);
    SortIsSortedPermutation(SlotBefore, slots);
    var sorted := Sort(SlotBefore, slots);
    assert multiset(sorted) == multiset(slots);
    forall i, j | 0 <= i < j < |sorted|
      ensures sorted[i].start < sorted[j].start
    {
      assert SlotBefore(sorted[i], sorted[j]);
      NoTie(slots, sorted, i, j);
    }
  }

  /** Equal multisets of slots with distinct starts have distinct starts. */
  lemma NoTie(slots: seq<Slot>, sorted: seq<Slot>, i: nat, j: nat)
    requires forall i, j :: 0 <= i < j < |slots| ==> slots[i].start != slots[j].start
    requires multiset(sorted) == multiset(slots) && i < j < |sorted| && SlotBefore(sorted[i], sorted[j])
    ensures sorted[i].start != sorted[j].start
  {
    hide TextLess;
    assert sorted[i] in multiset(slots) && sorted[j] in multiset(slots);
    var m :| 0 <= m < |slots| && slots[m] == sorted[i];
    var n :| 0 <= n < |slots| && slots[n] == sorted[j];
    TextLessIrreflexive(sorted[i].staff);
  }

  // ---- day after day ----

  ghost predicate FitsEarlier(off: Offset, q: Search, k: nat, s: int)
    requires Accepted(q)
  {
    exists j: nat :: j < k && Fits(off, q, DayOf(off, DayAt(off, q.from, j)), s)
  }

  /** The slots are of the first `k` days of the walk, each there once. */
  ghost predicate Gathers(off: Offset, q: Search, slots: seq<Slot>, k: nat)
    requires Accepted(q)
  {
    && (forall i, j :: 0 <= i < j < |slots| ==> slots[i].start != slots[j].start)
    && (forall i :: 0 <= i < |slots| ==> slots[i] == SlotAt(q, slots[i].start) && FitsEarlier(off, q, k, slots[i].start))
  }

  ghost predicate HasAll(off: Offset, q: Search, slots: seq<Slot>, k: nat)
    requires Accepted(q)
  {
    forall s {:trigger FitsEarlier(off, q, k, s)} :: FitsEarlier(off, q, k, s) ==> SlotAt(q, s) in slots
  }

  lemma OneMoreDay(off: Offset, q: Search, before: seq<Slot>, slots: seq<Slot>, k: nat, bound: int)
    requires Accepted(q) && Gathers(off, q, before, k)
    requires Extends(off, q, DayOf(off, DayAt(off, q.from, k)), before, slots, bound)
    ensures Gathers(off, q, slots, k + 1)
  {
    hide Accepted, Fits, DayAt, DayOf;
    var d := DayOf(off, DayAt(off, q.from, k));
    forall i | 0 <= i < |slots|
      ensures slots[i] == SlotAt(q, slots[i].start) && FitsEarlier(off, q, k + 1, slots[i].start)
    {
      if i < |before| {
        assert slots[i] == before[i];
        Later(off, q, k, slots[i].start);
      } else {
        assert Fresh(off, q, d, before, slots[i], bound);
      }
    }
    forall i, j | 0 <= i < j < |slots|
      ensures slots[i].start != slots[j].start
    {
      if j < |before| {
        assert slots[i] == before[i] && slots[j] == before[j];
      } else {
        assert Fresh(off, q, d, before, slots[j], bound);
        if i < |before| {
          assert slots[i] == before[i] == SlotAt(q, before[i].start) && before[i] in before;
        } else {
          assert slots[|before|..][i - |before|] == slots[i] && slots[|before|..][j - |before|] == slots[j];
        }
      }
    }
  }

  lemma Later(off: Offset, q: Search, k: nat, s: int)
    requires Accepted(q)
    ensures FitsEarlier(off, q, k + 1, s) <==> FitsEarlier(off, q, k, s) || Fits(off, q, DayOf(off, DayAt(off, q.from, k)), s)
  {
    hide Accepted, Fits, DayAt, DayOf;
  }

  lemma HasAllOfDay(off: Offset, q: Search, before: seq<Slot>, slots: seq<Slot>, k: nat, bound: int)
    requires Accepted(q) && HasAll(off, q, before, k)
    requires Extends(off, q, DayOf(off, DayAt(off, q.from, k)), before, slots, bound)
    requires forall s :: Fits(off, q, DayOf(off, DayAt(off, q.from, k)), s) ==> s < bound
    ensures HasAll(off, q, slots, k + 1)
  {
    hide Accepted, Fits, DayAt, DayOf, FitsEarlier;
    forall s | FitsEarlier(off, q, k + 1, s)
      ensures SlotAt(q, s) in slots
    {
      Later(off, q, k, s);
      assert FitsEarlier(off, q, k, s) ==> SlotAt(q, s) in slots[..|before|];
    }
  }

  /** The answer in any zone: ascending, everything the walk over the days comes across or, at
      the limit, as many as that. */
  ghost predicate IsFound(off: Offset, q: Search, slots: seq<Slot>)
    requires Accepted(q)
  {
    && Ascend(slots)
    && (forall i :: 0 <= i < |slots| ==> slots[i] == SlotAt(q, slots[i].start) && Reached(off, q, slots[i].start))
    && if q.limit > 0 && |slots| >= q.limit then |slots| == q.limit else forall s :: Reached(off, q, s) ==> SlotAt(q, s) in slots
  }

  lemma EarlierIsReached(off: Offset, q: Search, k: nat, s: int)
    requires Accepted(q) && forall j: nat :: j < k ==> DayAt(off, q.from, j) <= LastDay(off, q.to)
    ensures FitsEarlier(off, q, k, s) ==> Reached(off, q, s)
    ensures LastDay(off, q.to) < DayAt(off, q.from, k) && Reached(off, q, s) ==> FitsEarlier(off, q, k, s)
  {
    hide Accepted, Free, DayAt, DayOf, LastDay;
    if FitsEarlier(off, q, k, s) {
      var j: nat :| j < k && Fits(off, q, DayOf(off, DayAt(off, q.from, j)), s);
      assert Visited(off, q.from, q.to, j);
      assert WalksBy(off, q.from, q.to, DayOf(off, DayAt(off, q.from, j)));
    }
    if LastDay(off, q.to) < DayAt(off, q.from, k) && Reached(off, q, s) {
      var d :| WalksBy(off, q.from, q.to, d) && Free(off, q, d, s);
      var j: nat :| Visited(off, q.from, q.to, j) && DayOf(off, DayAt(off, q.from, j)) == d;
      assert j < k && Fits(off, q, DayOf(off, DayAt(off, q.from, j)), s);
    }
  }

  lemma SortedIsFound(off: Offset, q: Search, slots: seq<Slot>, k: nat)
    requires Accepted(q) && Gathers(off, q, slots, k)
    requires forall j: nat :: j < k ==> DayAt(off, q.from, j) <= LastDay(off, q.to)
    requires || (q.limit > 0 && |slots| == q.limit)
             || (BelowLimit(q, slots) && HasAll(off, q, slots, k) && LastDay(off, q.to) < DayAt(off, q.from, k))
    ensures IsFound(off, q, Sort(SlotBefore, slots))
  {
    hide Accepted, FitsEarlier, Reached, DayAt, LastDay, SlotBefore;
    DistinctStartsSort(slots);
    var sorted := Sort(SlotBefore, slots);
    forall i | 0 <= i < |sorted|
      ensures sorted[i] == SlotAt(q, sorted[i].start) && Reached(off, q, sorted[i].start)
    {
      assert sorted[i] in slots;
      EarlierIsReached(off, q, k, sorted[i].start);
    }
    if !(q.limit > 0 && |slots| == q.limit) {
      forall s | Reached(off, q, s)
        ensures SlotAt(q, s) in sorted
      {
        EarlierIsReached(off, q, k, s);
      }
    }
  }

  // ---- regular dates ----

  lemma WindowDates(off: Offset, q: Search)
    requires RegularWindow(off, q) && q.from < q.to
    ensures DateOf(off, q.from) <= DateOf(off, q.to - 1)
  {
    hide RegularAt, DateOf;
    DatesIncrease(off, q.from, q.to - 1);
  }

  lemma MidnightsInWindow(off: Offset, q: Search, date: int, other: int)
    requires RegularWindow(off, q)
    requires DateOf(off, q.from) <= date <= DateOf(off, q.to - 1) + 1
    requires DateOf(off, q.from) <= other <= DateOf(off, q.to - 1) + 1
    ensures Midnight(off, date) <= Midnight(off, other) <==> date <= other
  {
    hide RegularAt, Midnight, DateOf;
    if date < other { MidnightsIncrease(off, date, other); }
    if other < date { MidnightsIncrease(off, other, date); }
  }

  lemma OfferedWithinDays(off: Offset, q: Search, s: int)
    requires RegularWindow(off, q) && Accepted(q) && Offered(off, q, s)
    ensures Midnight(off, DateOf(off, q.from)) <= s < Midnight(off, DateOf(off, q.to - 1) + 1)
    ensures Free(off, q, Whole(DateOf(off, s)), s)
  {
    hide RegularWindow, Free, Midnight, DateOf, StepValid, RulesValid, WindowValid;
    var d :| DateOf(off, q.from) <= d <= DateOf(off, q.to - 1) && Free(off, q, Whole(d), s);
    DayOfWindow(off, q, d);
    FreeIsOnItsDate(off, q, d, s);
    MidnightsInWindow(off, q, DateOf(off, q.from), d);
    MidnightsInWindow(off, q, d + 1, DateOf(off, q.to - 1) + 1);
  }

  /** Where the walk comes by the window's dates and nothing else, what it comes across is
      what is on offer. */
  lemma WholeWalkReachesTheOffer(off: Offset, q: Search, s: int)
    requires WalksWhole(off, q.from, q.to) && Accepted(q)
    ensures Reached(off, q, s) <==> Offered(off, q, s)
  {
    hide Accepted, Free, WalksBy, DateOf;
  }

  lemma ReachedIsOffered(off: Offset, q: Search, s: int)
    requires RegularWindow(off, q) && Accepted(q)
    ensures WalksWhole(off, q.from, q.to) && (Reached(off, q, s) <==> Offered(off, q, s))
  {
    hide RegularDays, Reached, Offered, RulesValid, StepValid, WalksWhole, DateOf;
    WindowDates(off, q);
    RegularWalksWhole(off, q.from, q.to);
    WholeWalkReachesTheOffer(off, q, s);
  }

  lemma WalkIsWhole(off: Offset, q: Search, k: nat)
    requires RegularWindow(off, q) && DateOf(off, q.from) + k <= DateOf(off, q.to - 1)
    ensures DayAt(off, q.from, k) == Midnight(off, DateOf(off, q.from) + k)
    ensures DayOf(off, DayAt(off, q.from, k)) == Whole(DateOf(off, q.from) + k)
  {
    hide RegularAt, Midnight, DateOf, DayAt, DayOf;
    RegularWalk(off, q.from, q.to, k);
    DayOfWindow(off, q, DateOf(off, q.from) + k);
    RegularDayIsWhole(off, DateOf(off, q.from) + k);
  }

  /** A regular day is scanned in order: what was complete up to its midnight is complete up to `hi`. */
  lemma DayInOrder(off: Offset, q: Search, date: int, before: seq<Slot>, slots: seq<Slot>, bound: int, hi: int)
    requires RegularWindow(off, q) && Accepted(q) && DateOf(off, q.from) <= date <= DateOf(off, q.to - 1)
    requires AllBefore(off, q, before, Midnight(off, date)) && Extends(off, q, Whole(date), before, slots, bound)
    requires Midnight(off, date) <= hi <= Midnight(off, date + 1)
    requires forall s :: Midnight(off, date) <= s < Midnight(off, date + 1) && Fits(off, q, Whole(date), s) ==> (s < hi <==> s < bound)
    ensures AllBefore(off, q, slots, hi)
  {
    hide RegularWindow, Accepted, Offered, Midnight, DateOf, Fits, Free;
    forall i | |before| <= i < |slots|
      ensures slots[i] == SlotAt(q, slots[i].start) && Midnight(off, date) <= slots[i].start < hi && Offered(off, q, slots[i].start)
    {
      assert Fresh(off, q, Whole(date), before, slots[i], bound);
      FitsIsOffered(off, q, date, slots[i].start);
    }
    forall i | 0 <= i < |before|
      ensures slots[i] == before[i] && slots[i].start < Midnight(off, date)
    {
      assert slots[i] == before[i] && before[i] == SlotAt(q, before[i].start) && before[i] in before;
    }
    Joined(before, slots, Midnight(off, date));
    forall s
      ensures SlotAt(q, s) in slots <==> Offered(off, q, s) && s < hi
    {
      if SlotAt(q, s) in slots {
        var i :| 0 <= i < |slots| && slots[i] == SlotAt(q, s);
        assert i < |before| ==> SlotAt(q, s) in before;
      }
      if Offered(off, q, s) && s < hi {
        if s < Midnight(off, date) {
          assert SlotAt(q, s) in slots[..|before|];
        } else {
          OfferedFits(off, q, date, s);
        }
      }
    }
  }

  lemma Joined(before: seq<Slot>, slots: seq<Slot>, border: int)
    requires |before| <= |slots| && Ascend(before) && slots[..|before|] == before && Ascend(slots[|before|..])
    requires forall i :: 0 <= i < |before| ==> slots[i].start < border
    requires forall i :: |before| <= i < |slots| ==> border <= slots[i].start
    ensures Ascend(slots)
  {
    forall i, j | 0 <= i < j < |slots|
      ensures slots[i].start < slots[j].start
    {
      if j < |before| {
        assert slots[i] == before[i] && slots[j] == before[j];
      } else if |before| <= i {
        assert slots[|before|..][i - |before|] == slots[i] && slots[|before|..][j - |before|] == slots[j];
      }
    }
  }

  lemma FitsIsOffered(off: Offset, q: Search, date: int, s: int)
    requires RegularWindow(off, q) && Accepted(q) && DateOf(off, q.from) <= date <= DateOf(off, q.to - 1)
    requires Fits(off, q, Whole(date), s)
    ensures Offered(off, q, s) && Midnight(off, date) <= s < Midnight(off, date + 1)
  {
    hide RegularWindow, Free, Midnight, DateOf, StepValid, RulesValid, WindowValid;
    DayOfWindow(off, q, date);
    FreeIsOnItsDate(off, q, date, s);
  }

  lemma OfferedFits(off: Offset, q: Search, date: int, s: int)
    requires RegularWindow(off, q) && Accepted(q) && DateOf(off, q.from) <= date <= DateOf(off, q.to - 1)
    requires Offered(off, q, s) && Midnight(off, date) <= s < Midnight(off, date + 1)
    ensures Fits(off, q, Whole(date), s)
  {
    hide RegularWindow, Free, Midnight, DateOf, StepValid, RulesValid, WindowValid;
    var other :| DateOf(off, q.from) <= other <= DateOf(off, q.to - 1) && Free(off, q, Whole(other), s);
    DayOfWindow(off, q, other);
    FreeIsOnItsDate(off, q, other, s);
    DayOfWindow(off, q, date);
    DateIsSpan(off, s, date);
  }

  lemma NothingEarlier(off: Offset, q: Search)
    requires RegularWindow(off, q) && Accepted(q)
    ensures AllBefore(off, q, [], Midnight(off, DateOf(off, q.from)))
  {
    hide RegularWindow, Accepted, Offered, Midnight, DateOf;
    forall s | Offered(off, q, s)
      ensures Midnight(off, DateOf(off, q.from)) <= s
    {
      OfferedWithinDays(off, q, s);
    }
  }

  lemma NothingLater(off: Offset, q: Search)
    requires RegularWindow(off, q) && Accepted(q)
    ensures forall s :: Offered(off, q, s) ==> s < Midnight(off, DateOf(off, q.to - 1) + 1)
  {
    hide RegularWindow, Accepted, Offered, Midnight, DateOf;
    forall s | Offered(off, q, s)
      ensures s < Midnight(off, DateOf(off, q.to - 1) + 1)
    {
      OfferedWithinDays(off, q, s);
    }
  }

  lemma AlreadySorted(off: Offset, q: Search, slots: seq<Slot>, bound: int)
    requires Accepted(q) && AllBefore(off, q, slots, bound)
    ensures Sort(SlotBefore, slots) == slots
  {
    hide Accepted, Offered;
    SortKeepsIncreasing(SlotBefore, slots);
  }

  lemma IsLimitedAnswer(off: Offset, q: Search, slots: seq<Slot>, bound: int)
    requires Accepted(q) && AllBefore(off, q, slots, bound) && q.limit > 0 && |slots| == q.limit
    ensures IsAnswer(off, q, slots)
  {
    hide Accepted, AllBefore, Offered;
  }

  lemma IsFullAnswer(off: Offset, q: Search, slots: seq<Slot>, bound: int)
    requires Accepted(q) && AllBefore(off, q, slots, bound) && (q.limit > 0 ==> |slots| < q.limit)
    requires forall s :: Offered(off, q, s) ==> s < bound
    ensures IsAnswer(off, q, slots)
  {
    hide Accepted, AllBefore, Offered;
  }

  // ---- FindSlots and IsAvailable ----

  /** FindSlots: an error exactly on invalid input; otherwise, in any zone, what the walk over
      the days comes across, and on regular dates exactly what is on offer. */
  method FindSlots(off: Offset, q: Search) returns (r: Option<seq<Slot>>)
    requires Answerable(q) ==> GoesForward(off, q.from, q.to)
    ensures r.Some? <==> Answerable(q)
    ensures r.Some? ==> IsFound(off, q, r.value)
    ensures r.Some? && RegularWindow(off, q) ==> IsAnswer(off, q, r.value)
    ensures r.Some? ==> forall i :: 0 <= i < |r.value| ==>
              && r.value[i].service == q.service.id && r.value[i].staff == q.staff
              && r.value[i].end == r.value[i].start + q.service.duration
  {
    hide RegularWindow, Offered, AllBefore, SeenAre, RulesValid, Midnight, DateOf, NextDay, AllBusyValid, Extends, Gathers, HasAll, IsFound, IsAnswer, DayOf, DayAt, Fits, LastDay;
    if !Accepted(q) || !AllBusyValid(q.busy) {
      return None;
    }
    ghost var regular, first, last := RegularWindow(off, q), DateOf(off, q.from), DateOf(off, q.to - 1);
    ghost var k: nat := 0;
    var day := Midnight(off, DateOf(off, q.from));
    var lastDay := Midnight(off, DateOf(off, q.to - 1));
    var slots, seen := [], {};
    Beginning(off, q, day, lastDay);
    while day <= lastDay
      invariant day == DayAt(off, q.from, k) && lastDay == LastDay(off, q.to)
      invariant forall j: nat :: j < k ==> DayAt(off, q.from, j) <= LastDay(off, q.to)
      invariant Gathers(off, q, slots, k) && HasAll(off, q, slots, k) && SeenAre(q, slots, seen) && BelowLimit(q, slots)
      invariant regular ==> first + k <= last + 1 && day == Midnight(off, first + k) && AllBefore(off, q, slots, day)
      decreases lastDay - day
    {
      ghost var before := slots;
      var full;
      ghost var bound;
      slots, seen, full, bound := ScanDay(off, q, day, slots, seen);
      OneMoreDay(off, q, before, slots, k, bound);
      Headway(off, q, k);
      if full {
        SortedIsFound(off, q, slots, k + 1);
        FoundSlotsAre(off, q, Sort(SlotBefore, slots));
        if regular { LimitedInOrder(off, q, k, before, slots, bound); }
        return Some(Sort(SlotBefore, slots));
      }
      HasAllOfDay(off, q, before, slots, k, bound);
      if regular { FullDayInOrder(off, q, k, before, slots, bound); }
      day := NextDay(off, day);
      k := k + 1;
    }
    SortedIsFound(off, q, slots, k);
    FoundSlotsAre(off, q, Sort(SlotBefore, slots));
    if regular { CompleteInOrder(off, q, k, slots); }
    return Some(Sort(SlotBefore, slots));
  }

  lemma FoundSlotsAre(off: Offset, q: Search, slots: seq<Slot>)
    requires Accepted(q) && IsFound(off, q, slots)
    ensures forall i :: 0 <= i < |slots| ==>
              slots[i].service == q.service.id && slots[i].staff == q.staff && slots[i].end == slots[i].start + q.service.duration
  {
    hide Accepted, Reached, Ascend;
  }

  lemma Beginning(off: Offset, q: Search, day: int, lastDay: int)
    requires Accepted(q) && day == Midnight(off, DateOf(off, q.from)) && lastDay == Midnight(off, DateOf(off, q.to - 1))
    ensures day == DayAt(off, q.from, 0) && lastDay == LastDay(off, q.to)
    ensures Gathers(off, q, [], 0) && HasAll(off, q, [], 0) && SeenAre(q, [], {}) && BelowLimit(q, [])
    ensures RegularWindow(off, q) ==> DateOf(off, q.from) <= DateOf(off, q.to - 1) && AllBefore(off, q, [], day)
  {
    hide RegularWindow, Midnight, DateOf, Offered;
    if RegularWindow(off, q) {
      WindowDates(off, q);
      NothingEarlier(off, q);
    }
  }

  lemma Headway(off: Offset, q: Search, k: nat)
    requires GoesForward(off, q.from, q.to) && forall j: nat :: j <= k ==> DayAt(off, q.from, j) <= LastDay(off, q.to)
    ensures DayAt(off, q.from, k) < DayAt(off, q.from, k + 1) == NextDay(off, DayAt(off, q.from, k))
  {
    hide NextDay, LastDay;
    assert Visited(off, q.from, q.to, k);
  }

  lemma StillInWindow(off: Offset, q: Search, k: nat)
    requires RegularWindow(off, q) && DateOf(off, q.from) + k <= DateOf(off, q.to - 1) + 1
    requires Midnight(off, DateOf(off, q.from) + k) <= LastDay(off, q.to) && q.from < q.to
    ensures DateOf(off, q.from) + k <= DateOf(off, q.to - 1)
  {
    hide RegularWindow, Midnight, DateOf;
    WindowDates(off, q);
    MidnightsInWindow(off, q, DateOf(off, q.from) + k, DateOf(off, q.to - 1));
  }

  /** The days of a regular window are scanned in order. */
  lemma FullDayInOrder(off: Offset, q: Search, k: nat, before: seq<Slot>, slots: seq<Slot>, bound: int)
    requires RegularWindow(off, q) && Accepted(q) && DateOf(off, q.from) + k <= DateOf(off, q.to - 1) + 1
    requires DayAt(off, q.from, k) == Midnight(off, DateOf(off, q.from) + k) <= LastDay(off, q.to)
    requires AllBefore(off, q, before, DayAt(off, q.from, k))
    requires Extends(off, q, DayOf(off, DayAt(off, q.from, k)), before, slots, bound)
    requires forall s :: Fits(off, q, DayOf(off, DayAt(off, q.from, k)), s) ==> s < bound
    ensures DateOf(off, q.from) + k <= DateOf(off, q.to - 1)
    ensures NextDay(off, DayAt(off, q.from, k)) == Midnight(off, DateOf(off, q.from) + k + 1)
    ensures AllBefore(off, q, slots, NextDay(off, DayAt(off, q.from, k)))
  {
    hide RegularWindow, Midnight, DateOf, Extends, AllBefore, NextDay, DayAt, DayOf, Fits, RulesValid;
    var date := DateOf(off, q.from) + k;
    StillInWindow(off, q, k);
    WalkIsWhole(off, q, k);
    NextMidnight(off, q, date);
    NextDayIsMidnight(off, date);
    DayInOrder(off, q, date, before, slots, bound, Midnight(off, date + 1));
  }

  lemma NextMidnight(off: Offset, q: Search, date: int)
    requires RegularWindow(off, q) && DateOf(off, q.from) <= date <= DateOf(off, q.to - 1)
    ensures RegularDay(off, date) && Midnight(off, date) < Midnight(off, date + 1)
  {
    hide RegularWindow, DateOf;
    DayOfWindow(off, q, date);
    MidnightsIncrease(off, date, date + 1);
  }

  /** So at the limit it has the first slots on offer. */
  lemma LimitedInOrder(off: Offset, q: Search, k: nat, before: seq<Slot>, slots: seq<Slot>, bound: int)
    requires RegularWindow(off, q) && Accepted(q) && DateOf(off, q.from) + k <= DateOf(off, q.to - 1) + 1
    requires DayAt(off, q.from, k) == Midnight(off, DateOf(off, q.from) + k) <= LastDay(off, q.to)
    requires AllBefore(off, q, before, DayAt(off, q.from, k)) && q.limit > 0 && |slots| == q.limit
    requires Extends(off, q, DayOf(off, DayAt(off, q.from, k)), before, slots, bound)
    ensures IsAnswer(off, q, Sort(SlotBefore, slots))
  {
    hide RegularWindow, Midnight, DateOf, Extends, AllBefore, NextDay, DayAt, DayOf, Fits, RulesValid, SlotBefore, IsAnswer;
    var date := DateOf(off, q.from) + k;
    StillInWindow(off, q, k);
    WalkIsWhole(off, q, k);
    NextMidnight(off, q, date);
    var hi := if bound < Midnight(off, date) then Midnight(off, date) else Min(bound, Midnight(off, date + 1));
    DayInOrder(off, q, date, before, slots, bound, hi);
    AlreadySorted(off, q, slots, hi);
    IsLimitedAnswer(off, q, slots, hi);
  }

  lemma CompleteInOrder(off: Offset, q: Search, k: nat, slots: seq<Slot>)
    requires RegularWindow(off, q) && Accepted(q) && DateOf(off, q.from) + k <= DateOf(off, q.to - 1) + 1
    requires LastDay(off, q.to) < Midnight(off, DateOf(off, q.from) + k) && BelowLimit(q, slots)
    requires AllBefore(off, q, slots, Midnight(off, DateOf(off, q.from) + k))
    ensures IsAnswer(off, q, Sort(SlotBefore, slots))
  {
    hide RegularWindow, Midnight, DateOf, AllBefore, RulesValid, SlotBefore, IsAnswer, Offered;
    var date := DateOf(off, q.from) + k;
    WindowDates(off, q);
    MidnightsInWindow(off, q, date, DateOf(off, q.to - 1));
    NothingLater(off, q);
    AlreadySorted(off, q, slots, Midnight(off, date));
    IsFullAnswer(off, q, slots, Midnight(off, date));
  }

  /** IsAvailable: the same search over the slot's own day. */
  function OwnDay(off: Offset, q: Search, s: int): Search {
    var day := Midnight(off, DateOf(off, s));
    q.(from := day, to := NextDay(off, day), limit := 0)
  }

  method IsAvailable(off: Offset, q: Search, startsAt: int) returns (r: Option<bool>)
    requires Accepted(q) ==> GoesForward(off, OwnDay(off, q, startsAt).from, OwnDay(off, q, startsAt).to)
    ensures r.Some? <==> Accepted(q) && Answerable(OwnDay(off, q, startsAt))
    ensures r.Some? ==> (r.value <==> Reached(off, OwnDay(off, q, startsAt), startsAt))
    ensures r.Some? && RegularDay(off, DateOf(off, startsAt)) ==> (r.value <==> Offered(off, OwnDay(off, q, startsAt), startsAt))
  {
    hide RegularWindow, RegularDay, Offered, Reached, Midnight, DateOf, NextDay, RulesValid, AllBusyValid, AllBefore, IsAnswer, IsFound, GoesForward;
    if !Accepted(q) {
      return None;
    }
    var own := OwnDay(off, q, startsAt);
    var found := FindSlots(off, own);
    if found.None? {
      return None;
    }
    FoundHas(off, own, found.value, startsAt);
    if RegularDay(off, DateOf(off, startsAt)) {
      OwnDayIsRegular(off, q, startsAt);
      ReachedIsOffered(off, own, startsAt);
    }
    for k := 0 to |found.value|
      invariant forall i :: 0 <= i < k ==> found.value[i].start != startsAt
    {
      if found.value[k].start == startsAt {
        return Some(true);
      }
    }
    return Some(false);
  }

  lemma OwnDayIsRegular(off: Offset, q: Search, s: int)
    requires RegularDay(off, DateOf(off, s))
    ensures RegularWindow(off, OwnDay(off, q, s))
    ensures OwnDay(off, q, s).from == Midnight(off, DateOf(off, s)) && OwnDay(off, q, s).to == Midnight(off, DateOf(off, s) + 1)
  {
    hide RegularAt, Midnight, NextDay, DateOf;
    var date := DateOf(off, s);
    NextDayIsMidnight(off, date);
    MidnightsIncrease(off, date, date + 1);
    DateIsSpan(off, Midnight(off, date + 1) - 1, date);
  }

  lemma FoundHas(off: Offset, q: Search, slots: seq<Slot>, s: int)
    requires Accepted(q) && q.limit == 0 && IsFound(off, q, slots)
    ensures Reached(off, q, s) <==> exists i :: 0 <= i < |slots| && slots[i].start == s
  {
    hide Accepted, Reached, Ascend;
    if Reached(off, q, s) {
      var i :| 0 <= i < |slots| && slots[i] == SlotAt(q, s);
    }
  }
}

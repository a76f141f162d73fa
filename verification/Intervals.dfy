/** Half-open intervals of instants and the merge of internal/scheduling/engine.go. */
module Intervals {
  import opened Sorting

  /** `[start, end)`; instants are nanoseconds. */
  datatype Interval = Interval(start: int, end: int)

  predicate Proper(i: Interval) {
    i.start < i.end
  }

  ghost predicate AllProper(items: seq<Interval>) {
    forall i :: 0 <= i < |items| ==> Proper(items[i])
  }

  ghost predicate Within(i: Interval, t: int) {
    i.start <= t < i.end
  }

  ghost predicate Covers(items: seq<Interval>, t: int) {
    exists i :: 0 <= i < |items| && Within(items[i], t)
  }

  /** A maximal run of covered instants: what a merged period is, without saying how it is found. */
  ghost predicate IsRun(items: seq<Interval>, p: Interval) {
    && Proper(p) && (forall t :: Within(p, t) ==> Covers(items, t))
    && !Covers(items, p.start - 1) && !Covers(items, p.end)
  }

  predicate Overlap(a: Interval, b: Interval) {
    a.start < b.end && b.start < a.end
  }

  /** The order mergeIntervals sorts by. */
  predicate Before(a: Interval, b: Interval) {
    a.start < b.start || (a.start == b.start && a.end < b.end)
  }

  /** Strictly separated: between two neighbours lies an uncovered instant. */
  ghost predicate Separated(items: seq<Interval>) {
    forall i, j :: 0 <= i < j < |items| ==> items[i].end < items[j].start
  }

  // ---- overlap is sharing an instant ----

  ghost predicate Touches(c: Interval, items: seq<Interval>) {
    exists i :: 0 <= i < |items| && Overlap(c, items[i])
  }

  lemma TouchesIsSharing(c: Interval, items: seq<Interval>)
    requires Proper(c) && AllProper(items)
    ensures Touches(c, items) <==> exists t :: Within(c, t) && Covers(items, t)
  {
    if Touches(c, items) {
      var i :| 0 <= i < |items| && Overlap(c, items[i]);
      var t := if c.start < items[i].start then items[i].start else c.start;
      assert Within(c, t) && Within(items[i], t);
    }
    if t :| Within(c, t) && Covers(items, t) {
      var i :| 0 <= i < |items| && Within(items[i], t);
      assert Overlap(c, items[i]);
    }
  }

  /** Checking a candidate against merged intervals is checking it against the raw ones. */
  lemma OverlapIgnoresMerging(c: Interval, raw: seq<Interval>, merged: seq<Interval>)
    requires Proper(c) && AllProper(raw) && AllProper(merged)
    requires forall t :: Covers(raw, t) <==> Covers(merged, t)
    ensures Touches(c, raw) <==> Touches(c, merged)
  {
    TouchesIsSharing(c, raw);
    TouchesIsSharing(c, merged);
    if Touches(c, raw) {
      var t :| Within(c, t) && Covers(raw, t);
      assert Covers(merged, t);
    }
    if Touches(c, merged) {
      var t :| Within(c, t) && Covers(merged, t);
      assert Covers(raw, t);
    }
  }

  method OverlapsAny(candidate: Interval, items: seq<Interval>) returns (hit: bool)
    ensures hit <==> Touches(candidate, items)
  {
    for k := 0 to |items|
      invariant forall i :: 0 <= i < k ==> !Overlap(candidate, items[i])
    {
      if Overlap(candidate, items[k]) {
        return true;
      }
    }
    return false;
  }

  // ---- merging ----

  /** The loop of mergeIntervals over sorted input: what is merged so far covers the
      same instants, in strictly separated pieces, and nothing left starts earlier. */
  ghost predicate MergedSoFar(sorted: seq<Interval>, k: nat, merged: seq<Interval>)
    requires k <= |sorted|
  {
    && AllProper(merged) && Separated(merged)
    && (forall t :: Covers(merged, t) <==> Covers(sorted[..k], t))
    && (forall i, j :: 0 <= i < |merged| && k <= j < |sorted| ==> merged[i].start <= sorted[j].start)
  }

  lemma CoversSplit(a: seq<Interval>, x: Interval, t: int)
    ensures Covers(a + [x], t) <==> Covers(a, t) || Within(x, t)
  {
    var b := a + [x];
    if Covers(a, t) {
      var i :| 0 <= i < |a| && Within(a[i], t);
      assert Within(b[i], t);
    }
    if Within(x, t) {
      assert Within(b[|a|], t);
    }
    if Covers(b, t) {
      var i :| 0 <= i < |b| && Within(b[i], t);
      assert i < |a| ==> Within(a[i], t);
    }
  }

  lemma MergeAppend(sorted: seq<Interval>, k: nat, merged: seq<Interval>)
    requires k < |sorted| && MergedSoFar(sorted, k, merged) && AllProper(sorted) && Sorted(Before, sorted)
    requires merged == [] || merged[|merged| - 1].end < sorted[k].start
    ensures MergedSoFar(sorted, k + 1, merged + [sorted[k]])
  {
    forall t
      ensures Covers(merged + [sorted[k]], t) <==> Covers(sorted[..k + 1], t)
    {
      assert sorted[..k + 1] == sorted[..k] + [sorted[k]];
      CoversSplit(merged, sorted[k], t);
      CoversSplit(sorted[..k], sorted[k], t);
    }
    assert forall j :: k < j < |sorted| ==> !Before(sorted[j], sorted[k]);
  }

  lemma MergeExtend(sorted: seq<Interval>, k: nat, merged: seq<Interval>, last: Interval)
    requires k < |sorted| && MergedSoFar(sorted, k, merged) && AllProper(sorted) && Sorted(Before, sorted)
    requires merged != [] && sorted[k].start <= merged[|merged| - 1].end
    requires last.start == merged[|merged| - 1].start
    requires last.end == if merged[|merged| - 1].end < sorted[k].end then sorted[k].end else merged[|merged| - 1].end
    ensures MergedSoFar(sorted, k + 1, merged[..|merged| - 1] + [last])
  {
    var front, prev := merged[..|merged| - 1], merged[|merged| - 1];
    assert merged == front + [prev];
    forall t
      ensures Covers(front + [last], t) <==> Covers(sorted[..k + 1], t)
    {
      assert sorted[..k + 1] == sorted[..k] + [sorted[k]];
      CoversSplit(front, prev, t);
      CoversSplit(front, last, t);
      CoversSplit(sorted[..k], sorted[k], t);
      assert merged[|merged| - 1].start <= sorted[k].start;
      assert Within(last, t) <==> Within(prev, t) || Within(sorted[k], t);
    }
    assert forall j :: k < j < |sorted| ==> !Before(sorted[j], sorted[k]);
  }

  lemma BeforeIsOrder()
    ensures Order(Before)
  {
  }

  /** mergeIntervals: the maximal runs of the covered instants, in order. The input
      list is sorted in place by the source; it belongs to the caller alone. */
  method MergeIntervals(items: seq<Interval>) returns (merged: seq<Interval>)
    requires AllProper(items)
    ensures AllProper(merged) && Separated(merged)
    ensures forall t :: Covers(merged, t) <==> Covers(items, t)
    ensures forall p :: p in merged <==> IsRun(items, p)
  {
    if |items| < 2 {
      merged := items;
      SeparatedIsRuns(items, merged);
      return;
    }
    BeforeIsOrder();
    SortIsSortedPermutation(Before, items);
    var sorted := Sort(Before, items);
    assert AllProper(sorted) by {
      forall i | 0 <= i < |sorted| ensures Proper(sorted[i]) {
        assert sorted[i] in sorted;
      }
    }
    SameElementsCover(items, sorted);
    merged := [sorted[0]];
    assert sorted[..1] == [] + [sorted[0]];
    assert MergedSoFar(sorted, 0, []);
    MergeAppend(sorted, 0, []);
    assert [] + [sorted[0]] == merged;
    var k := 1;
    while k < |sorted|
      invariant 1 <= k <= |sorted| && merged != [] && MergedSoFar(sorted, k, merged)
    {
      var last := merged[|merged| - 1];
      if sorted[k].start <= last.end {
        if last.end < sorted[k].end {
          last := last.(end := sorted[k].end);
        }
        MergeExtend(sorted, k, merged, last);
        merged := merged[..|merged| - 1] + [last];
      } else {
        MergeAppend(sorted, k, merged);
        merged := merged + [sorted[k]];
      }
      k := k + 1;
    }
    assert sorted[..k] == sorted;
    SeparatedIsRuns(items, merged);
  }

  lemma SameElementsCover(a: seq<Interval>, b: seq<Interval>)
    requires forall y :: y in a <==> y in b
    ensures forall t :: Covers(a, t) <==> Covers(b, t)
  {
    forall t
      ensures Covers(a, t) <==> Covers(b, t)
    {
      if Covers(a, t) {
        var i :| 0 <= i < |a| && Within(a[i], t);
        assert a[i] in b;
      }
      if Covers(b, t) {
        var i :| 0 <= i < |b| && Within(b[i], t);
        assert b[i] in a;
      }
    }
  }

  /** Separated pieces that cover the same instants are exactly the maximal runs. */
  lemma SeparatedIsRuns(items: seq<Interval>, merged: seq<Interval>)
    requires AllProper(merged) && Separated(merged) && forall t :: Covers(merged, t) <==> Covers(items, t)
    ensures forall p :: p in merged <==> IsRun(items, p)
  {
    forall p
      ensures p in merged <==> IsRun(items, p)
    {
      if p in merged {
        var i :| 0 <= i < |merged| && merged[i] == p;
        PieceIsRun(items, merged, i);
      }
      if IsRun(items, p) {
        RunIsPiece(items, merged, p);
      }
    }
  }

  lemma PieceIsRun(items: seq<Interval>, merged: seq<Interval>, i: nat)
    requires i < |merged| && AllProper(merged) && Separated(merged) && forall t :: Covers(merged, t) <==> Covers(items, t)
    ensures IsRun(items, merged[i])
  {
    var p := merged[i];
    forall t | Within(p, t)
      ensures Covers(items, t)
    {
      assert Covers(merged, t);
    }
    assert forall j | 0 <= j < |merged| :: !Within(merged[j], p.start - 1) && !Within(merged[j], p.end) by {
      forall j | 0 <= j < |merged|
        ensures !Within(merged[j], p.start - 1) && !Within(merged[j], p.end)
      {
        if j < i {
          assert merged[j].end < merged[i].start;
        } else if i < j {
          assert merged[i].end < merged[j].start;
        }
      }
    }
    assert !Covers(merged, p.start - 1) && !Covers(merged, p.end);
  }

  /** Inside a run, every instant lies in the piece that holds its first instant. */
  lemma {:induction false} SamePiece(merged: seq<Interval>, p: Interval, i: nat, t: int)
    requires i < |merged| && AllProper(merged) && Separated(merged)
    requires Within(merged[i], p.start) && p.start <= t < p.end && forall u :: Within(p, u) ==> Covers(merged, u)
    ensures Within(merged[i], t)
    decreases t - p.start
  {
    if p.start < t {
      SamePiece(merged, p, i, t - 1);
      assert Within(p, t);
      var j :| 0 <= j < |merged| && Within(merged[j], t);
      Apart(merged, i, j, t);
    }
  }

  /** Neighbouring instants lie in one piece. */
  lemma Apart(merged: seq<Interval>, i: nat, j: nat, t: int)
    requires i < |merged| && j < |merged| && Separated(merged) && Within(merged[i], t - 1) && Within(merged[j], t)
    ensures i == j
  {
  }

  lemma RunIsPiece(items: seq<Interval>, merged: seq<Interval>, p: Interval)
    requires AllProper(merged) && Separated(merged) && (forall t :: Covers(merged, t) <==> Covers(items, t)) && IsRun(items, p)
    ensures p in merged
  {
    assert Within(p, p.start) && Covers(items, p.start);
    var i :| 0 <= i < |merged| && Within(merged[i], p.start);
    assert forall u :: Within(p, u) ==> Covers(merged, u);
    SamePiece(merged, p, i, p.end - 1);
    assert !Covers(merged, p.start - 1) && !Covers(merged, p.end);
    assert !Within(merged[i], p.start - 1) && !Within(merged[i], p.end);
    assert merged[i] == p;
  }
}

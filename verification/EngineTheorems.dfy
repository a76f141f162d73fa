/** How answers of different searches relate: limits, sub-windows and the recheck. */
module EngineTheorems {
  import opened Domain
  import opened Intervals
  import opened Sorting
  import opened Zones
  import opened Availability
  import opened Engine

  /** The windows and dates of a search only cut; what is free depends on the slot's own day. */
  lemma OfferedIsFreeInWindow(off: Offset, q: Search, s: int)
    requires RegularWindow(off, q) && Accepted(q)
    ensures Offered(off, q, s) <==> InWindow(q, s) && Free(off, q, Whole(DateOf(off, s)), s)
  {
    hide RegularWindow, Accepted, Free, DateOf;
    if Offered(off, q, s) {
      OfferedWithinDays(off, q, s);
    }
    if InWindow(q, s) && Free(off, q, Whole(DateOf(off, s)), s) {
      Positive(q);
      DateInWindow(off, q, s);
    }
  }

  lemma DateInWindow(off: Offset, q: Search, t: int)
    requires RegularWindow(off, q) && q.from <= t < q.to
    ensures DateOf(off, q.from) <= DateOf(off, t) <= DateOf(off, q.to - 1)
  {
    hide RegularAt, DateOf;
    WindowDates(off, q);
    DatesIncrease(off, q.from, t);
    DatesIncrease(off, t, q.to - 1);
  }

  lemma Positive(q: Search)
    requires Accepted(q)
    ensures 0 < q.service.duration && 0 <= q.limit
  {
  }

  // ---- answers as lists ----

  predicate Earlier(a: Slot, b: Slot) {
    a.start < b.start
  }

  /** An unlimited answer: strictly increasing, and exactly the slots on offer. */
  lemma UnlimitedAnswer(off: Offset, q: Search, slots: seq<Slot>)
    requires Accepted(q) && q.limit == 0
    ensures IsAnswer(off, q, slots) <==>
            Increasing(Earlier, slots) && forall x :: x in slots <==> x == SlotAt(q, x.start) && Offered(off, q, x.start)
  {
    hide Accepted, Offered;
    if IsAnswer(off, q, slots) {
      var bound :| AllBefore(off, q, slots, bound) && forall s :: Offered(off, q, s) ==> s < bound;
      AnswerElements(off, q, slots, bound);
    }
    if Increasing(Earlier, slots) && forall x :: x in slots <==> x == SlotAt(q, x.start) && Offered(off, q, x.start) {
      ElementsAnswer(off, q, slots);
    }
  }

  /** In any zone whose walk comes by the window's dates as whole days, a search without a limit
      is answered completely. */
  lemma WholeWalkIsComplete(off: Offset, q: Search, slots: seq<Slot>)
    requires WalksWhole(off, q.from, q.to) && Accepted(q) && q.limit == 0
    ensures IsFound(off, q, slots) <==> IsAnswer(off, q, slots)
  {
    hide Accepted, Offered, Reached, IsAnswer, WalksWhole;
    UnlimitedAnswer(off, q, slots);
    forall s
      ensures Reached(off, q, s) <==> Offered(off, q, s)
    {
      WholeWalkReachesTheOffer(off, q, s);
    }
    if IsFound(off, q, slots) {
      forall x
        ensures x in slots <==> x == SlotAt(q, x.start) && Offered(off, q, x.start)
      {
        if x in slots {
          var i :| 0 <= i < |slots| && slots[i] == x;
        }
      }
    }
    if Increasing(Earlier, slots) && forall x :: x in slots <==> x == SlotAt(q, x.start) && Offered(off, q, x.start) {
      forall i, j | 0 <= i < j < |slots|
        ensures slots[i].start < slots[j].start
      {
        assert Earlier(slots[i], slots[j]);
      }
      forall i | 0 <= i < |slots|
        ensures slots[i] == SlotAt(q, slots[i].start) && Reached(off, q, slots[i].start)
      {
        assert slots[i] in slots;
      }
    }
  }

  lemma AnswerElements(off: Offset, q: Search, slots: seq<Slot>, bound: int)
    requires Accepted(q) && AllBefore(off, q, slots, bound)
    ensures Increasing(Earlier, slots)
    ensures forall x :: x in slots <==> x == SlotAt(q, x.start) && Offered(off, q, x.start) && x.start < bound
  {
    hide Accepted, Offered;
    forall x
      ensures x in slots <==> x == SlotAt(q, x.start) && Offered(off, q, x.start) && x.start < bound
    {
      assert SlotAt(q, x.start) in slots <==> Offered(off, q, x.start) && x.start < bound;
    }
  }

  lemma ElementsAnswer(off: Offset, q: Search, slots: seq<Slot>)
    requires Accepted(q) && q.limit == 0 && Increasing(Earlier, slots)
    requires forall x :: x in slots <==> x == SlotAt(q, x.start) && Offered(off, q, x.start)
    ensures IsAnswer(off, q, slots)
  {
    hide Accepted, Offered;
    var bound := if slots == [] then 0 else slots[|slots| - 1].start + 1;
    forall i | 0 <= i < |slots|
      ensures slots[i] == SlotAt(q, slots[i].start) && slots[i].start < bound
    {
      assert slots[i] in slots;
      assert i < |slots| - 1 ==> Earlier(slots[i], slots[|slots| - 1]);
    }
    forall s
      ensures SlotAt(q, s) in slots <==> Offered(off, q, s)
    {
      assert SlotAt(q, s) in slots <==> SlotAt(q, s) == SlotAt(q, SlotAt(q, s).start) && Offered(off, q, SlotAt(q, s).start);
    }
    forall s | Offered(off, q, s)
      ensures s < bound
    {
      assert SlotAt(q, s) in slots;
      var i :| 0 <= i < |slots| && slots[i] == SlotAt(q, s);
    }
    assert Ascend(slots);
    assert AllBefore(off, q, slots, bound);
  }

  /** A limit keeps the first slots of the unlimited answer. */
  lemma {:induction false} LimitKeepsTheFirst(off: Offset, q: Search, slots: seq<Slot>, all: seq<Slot>)
    requires Accepted(q) && q.limit > 0 && Accepted(q.(limit := 0))
    requires IsAnswer(off, q, slots) && IsAnswer(off, q.(limit := 0), all)
    ensures slots == all[..Min(q.limit, |all|)]
  {
    hide Accepted, Offered, AllBefore;
    var bound :| AllBefore(off, q, slots, bound)
      && if |slots| >= q.limit then |slots| == q.limit else forall s :: Offered(off, q, s) ==> s < bound;
    AnswerElements(off, q, slots, bound);
    UnlimitedAnswer(off, q.(limit := 0), all);
    LimitDoesNotMatter(off, q);
    FirstOnes(slots, all, bound);
    if |slots| < q.limit {
      IncreasingUnique(Earlier, slots, all);
      assert all[..|all|] == all;
    }
  }

  lemma LimitDoesNotMatter(off: Offset, q: Search)
    requires Accepted(q) && Accepted(q.(limit := 0))
    ensures forall s :: Offered(off, q, s) <==> Offered(off, q.(limit := 0), s)
    ensures forall s :: SlotAt(q, s) == SlotAt(q.(limit := 0), s)
  {
    hide DateOf, DaySpans, Touches, IsRun;
    forall s
      ensures Offered(off, q, s) <==> Offered(off, q.(limit := 0), s)
    {
      FreeIgnores(off, q, q.(limit := 0), s);
    }
  }

  /** What is free does not depend on the window or the limit. */
  lemma FreeIgnores(off: Offset, q: Search, r: Search, s: int)
    requires Accepted(q) && Accepted(r) && r == q.(from := r.from, to := r.to, limit := r.limit)
    ensures forall d :: Free(off, q, d, s) <==> Free(off, r, d, s)
  {
    hide DaySpans, Touches, IsRun;
    forall d
      ensures Free(off, q, d, s) <==> Free(off, r, d, s)
    {
      assert Clear(off, q, d, s) <==> Clear(off, r, d, s);
      assert forall p :: IsPeriod(off, q, d, p) <==> IsPeriod(off, r, d, p);
      assert forall p :: OnGridOf(q, p, s) <==> OnGridOf(r, p, s);
    }
  }

  lemma FirstOnes(some: seq<Slot>, all: seq<Slot>, bound: int)
    requires Increasing(Earlier, some) && Increasing(Earlier, all)
    requires forall x :: x in some <==> x in all && x.start < bound
    ensures |some| <= |all| && some == all[..|some|]
  {
    var n := CountBelow(all, bound);
    assert forall x :: x in all[..n] <==> x in some by {
      forall x
        ensures x in all[..n] <==> x in some
      {
        PrefixBelow(all, bound, n, x);
      }
    }
    IncreasingUnique(Earlier, all[..n], some);
  }

  lemma {:induction false} CountBelow(all: seq<Slot>, bound: int) returns (n: nat)
    requires Increasing(Earlier, all)
    ensures n <= |all|
    ensures forall i :: 0 <= i < |all| ==> (all[i].start < bound <==> i < n)
  {
    n := 0;
    while n < |all| && all[n].start < bound
      invariant n <= |all| && forall i :: 0 <= i < n ==> all[i].start < bound
    {
      n := n + 1;
    }
    assert forall i :: n < i < |all| ==> Earlier(all[n], all[i]);
  }

  lemma PrefixBelow(all: seq<Slot>, bound: int, n: nat, x: Slot)
    requires n <= |all| && forall i :: 0 <= i < |all| ==> (all[i].start < bound <==> i < n)
    ensures x in all[..n] <==> x in all && x.start < bound
  {
    if x in all[..n] {
      var i :| 0 <= i < n && all[..n][i] == x;
      assert all[i] == x;
    }
    if x in all && x.start < bound {
      var i :| 0 <= i < |all| && all[i] == x;
      assert all[..n][i] == x;
    }
  }

  // ---- sub-windows ----

  lemma SubWindowIsRegular(off: Offset, q: Search, from: int, to: int)
    requires RegularWindow(off, q) && q.from <= from < to <= q.to
    ensures RegularWindow(off, q.(from := from, to := to))
  {
    DateInWindow(off, q, from);
    DateInWindow(off, q, to - 1);
    hide RegularAt, DateOf;
  }

  lemma WindowsAreForward(q: Search)
    requires Accepted(q)
    ensures q.from < q.to
  {
  }

  lemma SubWindowOffers(off: Offset, q: Search, from: int, to: int, s: int)
    requires RegularWindow(off, q) && Accepted(q) && Accepted(q.(from := from, to := to))
    requires q.from <= from && to <= q.to
    ensures Offered(off, q.(from := from, to := to), s) <==> Offered(off, q, s) && from <= s && s + q.service.duration <= to
  {
    hide RegularWindow, Accepted, Offered, Free, DateOf;
    var r := q.(from := from, to := to);
    WindowsAreForward(r);
    SubWindowIsRegular(off, q, from, to);
    OfferedIsFreeInWindow(off, q, s);
    OfferedIsFreeInWindow(off, r, s);
    FreeIgnores(off, q, r, s);
  }

  /** The slots of a list that lie in a window. */
  function Cut(slots: seq<Slot>, from: int, to: int): seq<Slot> {
    if slots == [] then []
    else
      var front := Cut(slots[..|slots| - 1], from, to);
      var last := slots[|slots| - 1];
      if from <= last.start && last.end <= to then front + [last] else front
  }

  lemma {:induction false} CutContents(slots: seq<Slot>, from: int, to: int)
    requires Increasing(Earlier, slots)
    ensures Increasing(Earlier, Cut(slots, from, to))
    ensures forall x :: x in Cut(slots, from, to) <==> x in slots && from <= x.start && x.end <= to
  {
    if slots != [] {
      var n := |slots| - 1;
      CutContents(slots[..n], from, to);
      assert slots == slots[..n] + [slots[n]];
      forall x | x in Cut(slots[..n], from, to)
        ensures Earlier(x, slots[n])
      {
        var i :| 0 <= i < n && slots[..n][i] == x;
      }
    }
  }

  /** Searching a sub-window is filtering the answer of the wider search. */
  lemma {:induction false} SubWindowIsFilter(off: Offset, q: Search, from: int, to: int, wide: seq<Slot>, narrow: seq<Slot>)
    requires RegularWindow(off, q) && Accepted(q) && Accepted(q.(from := from, to := to)) && q.limit == 0
    requires q.from <= from && to <= q.to
    requires IsAnswer(off, q, wide) && IsAnswer(off, q.(from := from, to := to), narrow)
    ensures narrow == Cut(wide, from, to)
  {
    hide RegularWindow, Accepted, Offered, IsAnswer, Increasing;
    var r := q.(from := from, to := to);
    UnlimitedAnswer(off, q, wide);
    UnlimitedAnswer(off, r, narrow);
    CutContents(wide, from, to);
    forall x
      ensures x in narrow <==> x in Cut(wide, from, to)
    {
      SubWindowOffers(off, q, from, to, x.start);
      assert SlotAt(r, x.start) == SlotAt(q, x.start);
    }
    EarlierIsOrder();
    IncreasingUnique(Earlier, narrow, Cut(wide, from, to));
  }

  lemma EarlierIsOrder()
    ensures Order(Earlier)
  {
  }

  // ---- the recheck ----

  /** The recheck of a slot agrees with every search whose window holds the slot. */
  lemma RecheckAgreesWithOffer(off: Offset, q: Search, s: int)
    requires RegularWindow(off, q) && Accepted(q) && Accepted(OwnDay(off, q, s)) && InWindow(q, s)
    ensures Offered(off, OwnDay(off, q, s), s) <==> Offered(off, q, s)
  {
    hide RegularWindow, Accepted, Offered, Free, DateOf, Midnight, NextDay;
    var own := OwnDay(off, q, s);
    Positive(q);
    DateInWindow(off, q, s);
    DayOfWindow(off, q, DateOf(off, s));
    OwnDayIsRegular(off, q, s);
    OfferedIsFreeInWindow(off, q, s);
    OfferedIsFreeInWindow(off, own, s);
    FreeIgnores(off, q, own, s);
    if Offered(off, q, s) {
      FreeIsOnItsDate(off, q, DateOf(off, s), s);
    }
  }
}

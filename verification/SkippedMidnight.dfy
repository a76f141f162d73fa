/** Zones that put the clock forward at local midnight, as some still do every spring. No local
    midnight exists on that date, the loops over local days (FindSlots of
    internal/scheduling/engine.go, touchedLocalDates of internal/scheduling/repository.go) are
    thrown off the midnights, and this module says exactly when they still do their work. */
module SkippedMidnight {
  import opened Domain
  import opened Intervals
  import opened Zones
  import opened Availability
  import Engine
  import ScheduleLocks

  /** The clock goes forward by `gap` where local midnight of `skipped` would have been. */
  function Skip(skipped: int, offset: int, gap: int): Offset {
    t => if t < skipped * DAY - offset then offset else offset + gap
  }

  predicate Realistic(offset: int, gap: int) {
    -12 * HOUR <= offset <= 14 * HOUR && 0 < gap <= 3 * HOUR
  }

  lemma SkipIsTame(skipped: int, offset: int, gap: int)
    requires Realistic(offset, gap)
    ensures Tame(Skip(skipped, offset, gap))
  {
  }

  /** The library resolves the missing midnight to the hour before it west of Greenwich, to the
      hour after it elsewhere. */
  function MidnightOf(skipped: int, offset: int, gap: int, date: int): int {
    if date < skipped || (date == skipped && 0 <= offset) then date * DAY - offset else date * DAY - offset - gap
  }

  lemma MidnightIs(skipped: int, offset: int, gap: int, date: int)
    requires Realistic(offset, gap)
    ensures Midnight(Skip(skipped, offset, gap), date) == MidnightOf(skipped, offset, gap, date)
  {
    var off, wall := Skip(skipped, offset, gap), date * DAY;
    if date < skipped {
      assert date * DAY <= skipped * DAY - DAY;
    } else if skipped < date {
      assert skipped * DAY + DAY <= date * DAY;
    }
  }

  /** Where a walk from date `first` stands after `k` days. */
  function Stop(skipped: int, offset: int, gap: int, first: int, k: nat): int {
    var date := first + k;
    if skipped < first then date * DAY - offset - gap
    else if date < skipped || 0 <= offset then date * DAY - offset
    else if date == skipped then date * DAY - offset - gap
    else date * DAY - offset - gap - gap
  }

  /** West of Greenwich the walk lags a date behind from the skipped midnight on. */
  function DateAtStop(skipped: int, offset: int, first: int, k: nat): int {
    if first <= skipped <= first + k && offset < 0 then first + k - 1 else first + k
  }

  lemma StopIsOn(skipped: int, offset: int, gap: int, first: int, k: nat)
    requires Realistic(offset, gap)
    ensures var off, t := Skip(skipped, offset, gap), Stop(skipped, offset, gap, first, k);
            && DateOf(off, t) == DateAtStop(skipped, offset, first, k)
            && NextDay(off, t) == Stop(skipped, offset, gap, first, k + 1)
  {
    var off, t := Skip(skipped, offset, gap), Stop(skipped, offset, gap, first, k);
    var c := skipped * DAY - offset;
    var date := first + k;
    if date < skipped { assert date * DAY <= skipped * DAY - DAY; }
    if skipped < date { assert skipped * DAY + DAY <= date * DAY; }
  }

  lemma {:induction false} WalkStops(skipped: int, offset: int, gap: int, from: int, k: nat)
    requires Realistic(offset, gap)
    ensures var off := Skip(skipped, offset, gap);
            DayAt(off, from, k) == Stop(skipped, offset, gap, DateOf(off, from), k)
  {
    var off := Skip(skipped, offset, gap);
    hide DateOf, NextDay, Midnight, Skip;
    if k == 0 {
      MidnightIs(skipped, offset, gap, DateOf(off, from));
    } else {
      WalkStops(skipped, offset, gap, from, k - 1);
      StopIsOn(skipped, offset, gap, DateOf(off, from), k - 1);
    }
  }

  /** The stops go up, so the walk has made stop `k` if that is not past the last midnight. */
  lemma VisitedIff(skipped: int, offset: int, gap: int, from: int, to: int, k: nat)
    requires Realistic(offset, gap)
    ensures var off := Skip(skipped, offset, gap);
            Visited(off, from, to, k) <==>
            Stop(skipped, offset, gap, DateOf(off, from), k) <= MidnightOf(skipped, offset, gap, DateOf(off, to - 1))
  {
    var off := Skip(skipped, offset, gap);
    hide DateOf, Midnight, Skip, DayAt;
    var first, last := DateOf(off, from), MidnightOf(skipped, offset, gap, DateOf(off, to - 1));
    MidnightIs(skipped, offset, gap, DateOf(off, to - 1));
    WalkStops(skipped, offset, gap, from, k);
    if Stop(skipped, offset, gap, first, k) <= last {
      forall j: nat | j <= k
        ensures DayAt(off, from, j) <= LastDay(off, to)
      {
        WalkStops(skipped, offset, gap, from, j);
        StopsGoUp(skipped, offset, gap, first, j, k);
      }
    }
  }

  lemma StopsGoUp(skipped: int, offset: int, gap: int, first: int, j: nat, k: nat)
    requires Realistic(offset, gap) && j <= k
    ensures Stop(skipped, offset, gap, first, j) <= Stop(skipped, offset, gap, first, k)
  {
    if j < k { assert (first + j) * DAY + DAY <= (first + k) * DAY; }
  }

  /** How far the walk gets: the stops it makes, counted in dates. */
  predicate MakesStop(skipped: int, offset: int, first: int, last: int, k: nat) {
    if first <= skipped <= last && 0 <= offset && skipped < last then first + k < last else first + k <= last
  }

  lemma VisitedInDates(skipped: int, offset: int, gap: int, from: int, to: int, k: nat)
    requires Realistic(offset, gap) && DateOf(Skip(skipped, offset, gap), from) <= DateOf(Skip(skipped, offset, gap), to - 1)
    ensures var off := Skip(skipped, offset, gap);
            Visited(off, from, to, k) <==> MakesStop(skipped, offset, DateOf(off, from), DateOf(off, to - 1), k)
  {
    var off := Skip(skipped, offset, gap);
    hide DateOf, Skip, Visited;
    VisitedIff(skipped, offset, gap, from, to, k);
    var first, last := DateOf(off, from), DateOf(off, to - 1);
    var date := first + k;
    if date < last { assert date * DAY + DAY <= last * DAY; }
    if last < date { assert last * DAY + DAY <= date * DAY; }
    if date + 1 < last { assert date * DAY + DAY + DAY <= last * DAY; }
  }

  lemma DayAtStop(skipped: int, offset: int, gap: int, from: int, k: nat)
    requires Realistic(offset, gap)
    ensures var off := Skip(skipped, offset, gap);
            var first := DateOf(off, from);
            DayOf(off, DayAt(off, from, k)) == Day(DateAtStop(skipped, offset, first, k), DateAtStop(skipped, offset, first, k + 1))
  {
    var off := Skip(skipped, offset, gap);
    hide DateOf, NextDay, DayAt, Skip, Stop;
    WalkStops(skipped, offset, gap, from, k);
    StopIsOn(skipped, offset, gap, DateOf(off, from), k);
    StopIsOn(skipped, offset, gap, DateOf(off, from), k + 1);
  }

  /** When a walk over the window is unharmed: the skipped midnight is not met, or it is east of
      Greenwich and the window's last date begins or ends with it. */
  predicate Unharmed(skipped: int, offset: int, first: int, last: int) {
    skipped < first || last + 1 < skipped || (0 <= offset && (skipped == last || skipped == last + 1))
  }

  lemma UnharmedWalk(skipped: int, offset: int, gap: int, from: int, to: int)
    requires Realistic(offset, gap) && DateOf(Skip(skipped, offset, gap), from) <= DateOf(Skip(skipped, offset, gap), to - 1)
    requires Unharmed(skipped, offset, DateOf(Skip(skipped, offset, gap), from), DateOf(Skip(skipped, offset, gap), to - 1))
    ensures WalksWhole(Skip(skipped, offset, gap), from, to)
  {
    var off := Skip(skipped, offset, gap);
    hide DateOf, DayAt, DayOf, Visited, Skip;
    var first, last := DateOf(off, from), DateOf(off, to - 1);
    forall k: nat | Visited(off, from, to, k)
      ensures DayOf(off, DayAt(off, from, k)) == Whole(first + k) && first + k <= last
    {
      VisitedInDates(skipped, offset, gap, from, to, k);
      DayAtStop(skipped, offset, gap, from, k);
    }
    forall date | first <= date <= last
      ensures WalksBy(off, from, to, Whole(date))
    {
      VisitedInDates(skipped, offset, gap, from, to, date - first);
      DayAtStop(skipped, offset, gap, from, date - first);
    }
  }

  /** With a skipped midnight among its dates, the walk comes by every date but the last, and by
      the last one only if its own midnight is the skipped one and it is east of Greenwich. */
  lemma {:induction false} LastDateIsWalkedIff(skipped: int, offset: int, gap: int, window: Interval)
    requires Realistic(offset, gap)
    requires DateOf(Skip(skipped, offset, gap), window.start) <= skipped <= DateOf(Skip(skipped, offset, gap), window.end - 1)
    ensures var off := Skip(skipped, offset, gap);
            var last := DateOf(off, window.end - 1);
            && (ScheduleLocks.Walked(off, window, last) <==> 0 <= offset && skipped == last)
            && forall date :: DateOf(off, window.start) <= date < last ==> ScheduleLocks.Walked(off, window, date)
  {
    var off := Skip(skipped, offset, gap);
    hide DateOf, DayAt, Visited, Skip;
    var first, last := DateOf(off, window.start), DateOf(off, window.end - 1);
    forall k: nat | Visited(off, window.start, window.end, k)
      ensures DateOf(off, DayAt(off, window.start, k)) == last ==> 0 <= offset && skipped == last
    {
      VisitedInDates(skipped, offset, gap, window.start, window.end, k);
      DateAtDay(skipped, offset, gap, window.start, k);
    }
    forall date | first <= date < last || (date == last && 0 <= offset && skipped == last)
      ensures ScheduleLocks.Walked(off, window, date)
    {
      var k: nat := if offset < 0 && skipped <= date then date + 1 - first else date - first;
      VisitedInDates(skipped, offset, gap, window.start, window.end, k);
      DateAtDay(skipped, offset, gap, window.start, k);
    }
  }

  lemma DateAtDay(skipped: int, offset: int, gap: int, from: int, k: nat)
    requires Realistic(offset, gap)
    ensures var off := Skip(skipped, offset, gap);
            DateOf(off, DayAt(off, from, k)) == DateAtStop(skipped, offset, DateOf(off, from), k)
  {
    var off := Skip(skipped, offset, gap);
    hide DateOf, NextDay, DayAt, Skip, Stop;
    WalkStops(skipped, offset, gap, from, k);
    StopIsOn(skipped, offset, gap, DateOf(off, from), k);
  }

  /** The walk comes by the window's dates and nothing else if and only if it is unharmed. */
  lemma {:induction false} WalksWholeIff(skipped: int, offset: int, gap: int, from: int, to: int)
    requires Realistic(offset, gap) && DateOf(Skip(skipped, offset, gap), from) <= DateOf(Skip(skipped, offset, gap), to - 1)
    ensures var off := Skip(skipped, offset, gap);
            WalksWhole(off, from, to) <==> Unharmed(skipped, offset, DateOf(off, from), DateOf(off, to - 1))
  {
    var off := Skip(skipped, offset, gap);
    hide DateOf, DayAt, DayOf, Visited, Skip;
    var first, last := DateOf(off, from), DateOf(off, to - 1);
    if Unharmed(skipped, offset, first, last) {
      UnharmedWalk(skipped, offset, gap, from, to);
    } else if last < skipped {
      VisitedInDates(skipped, offset, gap, from, to, last - first);
      DayAtStop(skipped, offset, gap, from, last - first);
      assert WalksBy(off, from, to, Day(last, last));
    } else {
      forall k: nat | Visited(off, from, to, k)
        ensures DayOf(off, DayAt(off, from, k)) != Whole(last)
      {
        VisitedInDates(skipped, offset, gap, from, to, k);
        DayAtStop(skipped, offset, gap, from, k);
      }
      assert !WalksBy(off, from, to, Whole(last));
    }
  }

  // ---- what the search loses ----

  lemma {:induction false} NoRuleNoSpan(off: Offset, d: Day, rules: seq<Rule>, kind: Kind)
    requires RulesValid(rules) && forall i :: 0 <= i < |rules| ==> !Applies(rules[i], d.date)
    ensures DaySpans(off, d, rules, kind) == []
  {
    hide RuleSpan, Applies;
    if rules != [] {
      NoRuleNoSpan(off, d, rules[..|rules| - 1], kind);
    }
  }

  lemma NoRuleNoSlot(off: Offset, q: Search, d: Day, s: int)
    requires Accepted(q) && forall i :: 0 <= i < |q.rules| ==> !Applies(q.rules[i], d.date)
    ensures !Free(off, q, d, s)
  {
    hide Applies, Clear, OnGridOf, RulesValid;
    NoRuleNoSpan(off, d, q.rules, Working);
    forall p
      ensures !IsPeriod(off, q, d, p)
    {
      NothingToRun(p);
    }
  }

  lemma NothingToRun(p: Interval)
    ensures !IsRun([], p)
  {
    assert !Covers([], p.start);
    assert Proper(p) ==> Within(p, p.start);
  }

  /** Rules that hold on one date only. */
  predicate OnlyOn(rules: seq<Rule>, date: int) {
    forall i :: 0 <= i < |rules| ==> rules[i].validFrom == Some(date) && rules[i].validUntil == Some(date)
  }

  /** With a skipped midnight before it, nothing on the last date of a search is ever found. */
  lemma {:induction false} LastDateIsLost(skipped: int, offset: int, gap: int, q: Search, s: int)
    requires Realistic(offset, gap) && Accepted(q)
    requires var off := Skip(skipped, offset, gap);
             var last := DateOf(off, q.to - 1);
             DateOf(off, q.from) <= skipped <= last && !(0 <= offset && skipped == last) && OnlyOn(q.rules, last)
    ensures !Reached(Skip(skipped, offset, gap), q, s)
  {
    var off := Skip(skipped, offset, gap);
    hide DateOf, DayAt, DayOf, Visited, Skip, Accepted, Free;
    var last := DateOf(off, q.to - 1);
    if Reached(off, q, s) {
      var d :| WalksBy(off, q.from, q.to, d) && Free(off, q, d, s);
      var k: nat :| Visited(off, q.from, q.to, k) && DayOf(off, DayAt(off, q.from, k)) == d;
      VisitedInDates(skipped, offset, gap, q.from, q.to, k);
      DayAtStop(skipped, offset, gap, q.from, k);
      NoRuleNoSlot(off, q, d, s);
    }
  }

  /** West of Greenwich the recheck refuses every slot of the day of the change itself. */
  lemma {:induction false} NothingIsAvailableThatDay(skipped: int, offset: int, gap: int, q: Search, s: int)
    requires Realistic(offset, gap) && offset < 0 && DateOf(Skip(skipped, offset, gap), s) == skipped && OnlyOn(q.rules, skipped)
    requires Accepted(Engine.OwnDay(Skip(skipped, offset, gap), q, s))
    ensures !Reached(Skip(skipped, offset, gap), Engine.OwnDay(Skip(skipped, offset, gap), q, s), s)
  {
    var off := Skip(skipped, offset, gap);
    MidnightIs(skipped, offset, gap, skipped);
    StopIsOn(skipped, offset, gap, skipped, 0);
    hide Accepted, Reached;
    LastDateIsLost(skipped, offset, gap, Engine.OwnDay(off, q, s), s);
  }

  /** Open around the clock on one date. */
  function OpenOn(date: int): Rule {
    Rule(Working, Weekday(date), 0, MINUTES_PER_DAY, Some(date), Some(date))
  }

  lemma OpenDay(off: Offset, date: int)
    requires RegularDay(off, date) && RuleValid(OpenOn(date))
    ensures DaySpans(off, Whole(date), [OpenOn(date)], Working) == [Interval(Midnight(off, date), Midnight(off, date + 1))]
    ensures DaySpans(off, Whole(date), [OpenOn(date)], Break) == []
  {
    var none: seq<Rule> := [];
    assert [OpenOn(date)][..0] == none;
    EndOfDay(off, date, false);
    EndOfDay(off, date + 1, true);
    MidnightsIncrease(off, date, date + 1);
    hide RealMinute, Midnight, RegularAt;
    assert RuleSpan(off, Whole(date), OpenOn(date)) == Interval(Midnight(off, date), Midnight(off, date + 1));
    assert OneSpan(off, Whole(date), OpenOn(date), Working) == [Interval(Midnight(off, date), Midnight(off, date + 1))];
  }

  /** On such a date midnight itself is on offer, if the window has room for the slot. */
  lemma MidnightIsOffered(off: Offset, q: Search, date: int)
    requires Accepted(q) && RegularDay(off, date) && q.rules == [OpenOn(date)] && q.busy == []
    requires DateOf(off, q.from) <= date <= DateOf(off, q.to - 1) && InWindow(q, Midnight(off, date))
    requires Midnight(off, date) + q.service.duration <= Midnight(off, date + 1)
    ensures Offered(off, q, Midnight(off, date))
  {
    assert q.rules[0] == OpenOn(date);
    MidnightsIncrease(off, date, date + 1);
    OpenDay(off, date);
    hide DaySpans, DateOf, RegularAt, Midnight;
    var s, p := Midnight(off, date), Interval(Midnight(off, date), Midnight(off, date + 1));
    OneRun(DaySpans(off, Whole(date), q.rules, Working), p);
    assert IsPeriod(off, q, Whole(date), p);
    assert OnGridOf(q, p, s);
    assert BusySpans(q.busy) == [];
    assert Clear(off, q, Whole(date), s);
    assert Free(off, q, Whole(date), s);
  }

  lemma OneRun(items: seq<Interval>, p: Interval)
    requires items == [p] && Proper(p)
    ensures IsRun(items, p)
  {
    forall t | Within(p, t)
      ensures Covers(items, t)
    {
      assert Within(items[0], t);
    }
  }

  lemma LaterDaysAreRegular(skipped: int, offset: int, gap: int, date: int)
    requires Realistic(offset, gap) && skipped < date
    ensures RegularAt(Skip(skipped, offset, gap), date)
  {
    MidnightIs(skipped, offset, gap, date);
    assert skipped * DAY + DAY <= date * DAY;
  }

  // ---- two spring days in a western zone ----

  const HAVANA := Skip(1, -5 * HOUR, HOUR)
  const TWO_DAYS := Search(Service("visit", HOUR, 0, 0), "ana", DAY + 5 * HOUR, 3 * DAY + 4 * HOUR, [OpenOn(2)], [], 0, 0)

  lemma HavanaDays()
    ensures Answerable(TWO_DAYS) && RegularDay(HAVANA, 2) && GoesForward(HAVANA, TWO_DAYS.from, TWO_DAYS.to)
    ensures DateOf(HAVANA, TWO_DAYS.from) == 1 && DateOf(HAVANA, TWO_DAYS.to - 1) == 2
    ensures Midnight(HAVANA, 2) == 2 * DAY + 4 * HOUR && Midnight(HAVANA, 3) == 3 * DAY + 4 * HOUR
  {
    assert RuleValid(OpenOn(2));
    SkipIsTame(1, -5 * HOUR, HOUR);
    TameGoesForward(HAVANA, TWO_DAYS.from, TWO_DAYS.to);
    LaterDaysAreRegular(1, -5 * HOUR, HOUR, 2);
    LaterDaysAreRegular(1, -5 * HOUR, HOUR, 3);
    hide RegularAt;
    MidnightIs(1, -5 * HOUR, HOUR, 2);
    MidnightIs(1, -5 * HOUR, HOUR, 3);
  }

  /** A search over the day of the change and the next one finds nothing, although the next one
      is open around the clock. */
  method LostDay() returns (r: Option<seq<Slot>>)
    ensures Accepted(TWO_DAYS) && Offered(HAVANA, TWO_DAYS, 2 * DAY + 4 * HOUR)
    ensures r == Some([])
  {
    HavanaDays();
    hide RegularDay, GoesForward, Skip, Engine.IsFound, IsAnswer, Offered, Reached;
    MidnightIsOffered(HAVANA, TWO_DAYS, 2);
    r := Engine.FindSlots(HAVANA, TWO_DAYS);
    NothingFound(r.value);
  }

  lemma NothingFound(slots: seq<Slot>)
    requires Accepted(TWO_DAYS) && Engine.IsFound(HAVANA, TWO_DAYS, slots)
    ensures slots == []
  {
    HavanaDays();
    hide Reached, Skip, Accepted;
    if slots != [] {
      LastDateIsLost(1, -5 * HOUR, HOUR, TWO_DAYS, slots[0].start);
    }
  }
}

/** A request without a limit that the cut to 1000 slots per staff member really shortens. */
module CrowdedDay {
  import opened Domain
  import opened Intervals
  import opened Zones
  import opened Availability
  import opened SlotMerge
  import Engine

  /** Open around the clock on day 1, a Friday, with a slot every minute. */
  const ALL_DAY := Rule(Working, 5, 0, 1440, None, None)
  const QUICK := Service("quick", MINUTE, 0, 0)
  const REQUEST := Request(QUICK, DAY, 2 * DAY, MINUTE, 0)
  const ANA := Member("ana", Fixed(0), [ALL_DAY], [])
  const QUERY := QueryFor(REQUEST, ANA, 0)

  function Minute(k: nat): int {
    DAY + k * MINUTE
  }

  lemma QueryIsAnswerable()
    ensures Answerable(QUERY) && RequestValid(REQUEST) && RegularFor(REQUEST, ANA)
    ensures DateOf(ANA.off, QUERY.from) == 1 == DateOf(ANA.off, QUERY.to - 1)
  {
    FixedIsRegular(0, 1, 1);
    assert RuleValid(ALL_DAY);
  }

  lemma WholeDayIsOpen()
    ensures DaySpans(ANA.off, Whole(1), QUERY.rules, Working) == [Interval(DAY, 2 * DAY)]
    ensures DaySpans(ANA.off, Whole(1), QUERY.rules, Break) == []
  {
    QueryIsAnswerable();
    FixedIsRegular(0, 1, 2);
    DayIsItsMidnights(1);
    var none: seq<Rule> := [];
    assert QUERY.rules[..0] == none;
    assert RuleSpan(ANA.off, Whole(1), ALL_DAY) == Interval(DAY, 2 * DAY);
    assert Applies(ALL_DAY, 1);
    hide RuleSpan;
    assert OneSpan(ANA.off, Whole(1), ALL_DAY, Working) == [Interval(DAY, 2 * DAY)];
    assert OneSpan(ANA.off, Whole(1), ALL_DAY, Break) == [];
  }

  lemma DayIsItsMidnights(date: int)
    ensures Boundary(ANA.off, Whole(date), 0, false) == date * DAY
    ensures Boundary(ANA.off, Whole(date), MINUTES_PER_DAY, true) == (date + 1) * DAY
  {
    FixedIsRegular(0, date, date + 1);
    hide RealMinute;
    EndOfDay(ANA.off, date, false);
    EndOfDay(ANA.off, date + 1, true);
  }

  lemma WholeDayIsARun(items: seq<Interval>, p: Interval)
    requires items == [p] && Proper(p)
    ensures IsRun(items, p)
  {
    forall t | Within(p, t)
      ensures Covers(items, t)
    {
      assert Within(items[0], t);
    }
  }

  lemma EveryMinuteIsOffered(k: nat)
    requires k < 1440 && Accepted(QUERY)
    ensures Offered(ANA.off, QUERY, Minute(k))
  {
    QueryIsAnswerable();
    WholeDayIsOpen();
    var s, p := Minute(k), Interval(DAY, 2 * DAY);
    hide DaySpans, DateOf, RulesValid;
    WholeDayIsARun(DaySpans(ANA.off, Whole(1), QUERY.rules, Working), p);
    assert IsPeriod(ANA.off, QUERY, Whole(1), p);
    assert (s - p.start) % MINUTE == 0;
    assert OnGridOf(QUERY, p, s);
    assert BusySpans(QUERY.busy) == [];
    assert Clear(ANA.off, QUERY, Whole(1), s);
    assert Free(ANA.off, QUERY, Whole(1), s);
  }

  /** In an ascending list, the k-th of the day's minutes stands at position k or later. */
  lemma {:induction false} Standing(slots: seq<Slot>, k: nat) returns (i: nat)
    requires Ascend(slots) && forall j :: 0 <= j <= k ==> SlotAt(QUERY, Minute(j)) in slots
    ensures k <= i < |slots| && slots[i].start == Minute(k)
  {
    assert SlotAt(QUERY, Minute(k)) in slots;
    i :| 0 <= i < |slots| && slots[i] == SlotAt(QUERY, Minute(k));
    if k > 0 {
      var before := Standing(slots, k - 1);
      Later(slots, before, i);
    }
  }

  lemma Later(slots: seq<Slot>, a: nat, b: nat)
    requires Ascend(slots) && a < |slots| && b < |slots| && slots[a].start < slots[b].start
    ensures a < b
  {
  }

  /** The complete answer has at least 1440 slots, so the search returns fewer. */
  lemma {:induction false} MoreThanAThousand(slots: seq<Slot>)
    requires Accepted(QUERY) && IsAnswer(ANA.off, QUERY, slots)
    ensures 1440 <= |slots|
    ensures PER_STAFF < |slots|
  {
    hide Offered, Accepted;
    var bound :| AllBefore(ANA.off, QUERY, slots, bound) && forall s :: Offered(ANA.off, QUERY, s) ==> s < bound;
    forall j | 0 <= j <= 1439
      ensures SlotAt(QUERY, Minute(j)) in slots
    {
      EveryMinuteIsOffered(j);
    }
    var i := Standing(slots, 1439);
  }

  /** The search itself: it finds 1000 slots although the complete answer has at least 1440. */
  method CutSearch() returns (r: Outcome, complete: seq<Slot>)
    ensures AreAnswers(REQUEST, [ANA], 0, [complete]) && 1440 <= |complete|
    ensures r.Found? && |r.slots| == 1000 && r.slots != Merge([complete])
  {
    hide IsAnswer, Engine.IsFound, Answerable, RegularFor, RegularWindow, Merge, Cap, GoesForward, OfferedBy;
    QueryIsAnswerable();
    AnaIsARoster();
    var found := Engine.FindSlots(ANA.off, QUERY);
    complete := found.value;
    AnaAnswers(complete);
    MoreThanAThousand(complete);
    r := FindSlotsOfAll(REQUEST, [ANA]);
    CutLength(complete);
    assert |[complete][0]| > PER_STAFF;
  }

  lemma AnaIsARoster()
    ensures Roster(REQUEST, [ANA]) && RegularWindow(ANA.off, QUERY) && AllRegular(REQUEST, [ANA])
    ensures AllAnswerable(REQUEST, [ANA], 0) && Accepted(QUERY) && GoesForward(ANA.off, QUERY.from, QUERY.to)
  {
    QueryIsAnswerable();
    RegularGoesForward(ANA.off, REQUEST.from, REQUEST.to);
    hide GoesForward;
  }

  lemma AnaAnswers(complete: seq<Slot>)
    requires Accepted(QUERY) && IsAnswer(ANA.off, QUERY, complete)
    ensures AreAnswers(REQUEST, [ANA], 0, [complete])
  {
    QueryIsAnswerable();
    hide IsAnswer;
  }

  lemma CutLength(complete: seq<Slot>)
    requires Accepted(QUERY) && IsAnswer(ANA.off, QUERY, complete) && PER_STAFF < |complete|
    ensures |Merge(CapAll([complete], PER_STAFF))| == PER_STAFF
  {
    hide IsAnswer, Merge, PerStaff;
    AnaIsARoster();
    AnaAnswers(complete);
    AnswersPerStaff(REQUEST, [ANA], [complete]);
    CappedPerStaff(Ids([ANA]), [complete], PER_STAFF);
    MergeContents(Ids([ANA]), CapAll([complete], PER_STAFF));
    assert CapAll([complete], PER_STAFF) == [Cap(complete, PER_STAFF)];
    assert [Cap(complete, PER_STAFF)][..0] == [];
  }
}

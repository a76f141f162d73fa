/** Working hours across a change of the clock: what the two resolved boundaries of
    a wall-clock rule cover when the offset changes once around the rule's date. */
module Dst {
  import opened Domain
  import opened Intervals
  import opened Zones
  import opened Availability

  /** Around one date the offset is `before` until instant `at` and `after` from then on. */
  datatype Change = Change(at: int, before: int, after: int)

  function Low(c: Change): int { if c.before < c.after then c.at + c.before else c.at + c.after }
  function High(c: Change): int { if c.before < c.after then c.at + c.after else c.at + c.before }

  const FARTHEST := 54_000_000_000_000

  /** From 18 hours before the date's midnight in UTC to 42 hours after it: all instants that
      can matter to the date when offsets are at most 15 hours and a scan reaches 3. */
  predicate Around(date: int, t: int) {
    date * DAY - 18 * HOUR <= t <= date * DAY + 42 * HOUR
  }

  /** Around the date the zone has the one change, of at most three hours, on whole wall-clock
      minutes and away from midnight; at other times it may do what it likes, as long as the
      clock does not show the date again. */
  ghost predicate ChangesOnce(off: Offset, date: int, c: Change) {
    && -FARTHEST <= c.before <= FARTHEST && -FARTHEST <= c.after <= FARTHEST
    && (forall t :: Around(date, t) ==> off(t) == if t < c.at then c.before else c.after)
    && (forall t :: DateOf(off, t) == date ==> Around(date, t))
    && (c.at + c.before) % MINUTE == 0 == (c.at + c.after) % MINUTE
    && High(c) - Low(c) <= REACH
    && 0 < Low(c) % DAY && Low(c) / DAY == High(c) / DAY
  }

  /** A minute of the date, or the midnight that ends it. */
  predicate OfDate(date: int, on: int, minute: int) {
    (on == date && 0 <= minute < MINUTES_PER_DAY) || (on == date + 1 && minute == 0)
  }

  /** The first and the last instant that reads a wall time; in a gap, the change itself. */
  function Earliest(c: Change, wall: int): int {
    if wall < c.at + c.before then wall - c.before
    else if wall < c.at + c.after then c.at
    else wall - c.after
  }

  function Latest(c: Change, wall: int): int {
    if c.at + c.after <= wall then wall - c.after
    else if c.at + c.before <= wall then c.at
    else wall - c.before
  }

  function Bound(c: Change, wall: int, latest: bool): int {
    if latest then Latest(c, wall) else Earliest(c, wall)
  }

  predicate InGap(c: Change, wall: int) {
    c.at + c.before <= wall < c.at + c.after
  }

  lemma WallIsOnMinute(date: int, minute: int)
    ensures Wall(date, minute) % MINUTE == 0
  {
    assert Wall(date, minute) == (date * 1440 + minute) * MINUTE;
  }

  lemma WholeSteps(x: int, y: int)
    requires x % MINUTE == 0 == y % MINUTE
    ensures (x - y) % MINUTE == 0
  {
  }

  /** The anchor of the search is one of the two readings of the wall time. */
  lemma AnchorIsAReading(off: Offset, date: int, c: Change, wall: int)
    requires ChangesOnce(off, date, c) && date * DAY <= wall <= date * DAY + DAY
    ensures Resolve(off, wall) in {wall - c.before, wall - c.after}
    ensures wall < Low(c) ==> Resolve(off, wall) == wall - c.before
    ensures High(c) <= wall ==> Resolve(off, wall) == wall - c.after
  {
  }

  /** A reading of the wall minute on the anchor's grid is exact to the nanosecond. */
  lemma ReadingIsExact(off: Offset, date: int, c: Change, on: int, minute: int, x: int)
    requires ChangesOnce(off, date, c) && OfDate(date, on, minute)
    requires Reads(off, x, on, minute) && Around(date, x)
    requires (x - (Wall(on, minute) - c.before)) % MINUTE == 0
    ensures Local(off, x) == Wall(on, minute)
    ensures x == Wall(on, minute) - (if x < c.at then c.before else c.after)
  {
    var wall := Wall(on, minute);
    var d := Local(off, x) - wall;
    WholeSteps(c.at + c.before, c.at + c.after);
    if x < c.at {
      assert x - (wall - c.before) == d;
    } else {
      assert (x - (wall - c.before)) - d == (c.at + c.before) - (c.at + c.after);
    }
  }

  predicate IsReadingOf(c: Change, wall: int, x: int) {
    || (x == wall - c.before && wall < c.at + c.before)
    || (x == wall - c.after && c.at + c.after <= wall)
  }

  ghost predicate AllReadings(c: Change, wall: int, matches: seq<int>) {
    forall x :: x in matches <==> IsReadingOf(c, wall, x)
  }

  /** The scan finds both readings of a repeated minute and none of a skipped one. */
  lemma ScanFindsAllReadings(off: Offset, date: int, c: Change, on: int, minute: int)
    requires ChangesOnce(off, date, c) && OfDate(date, on, minute)
    ensures var anchor := Resolve(off, Wall(on, minute));
            AllReadings(c, Wall(on, minute), Matches(off, on, minute, anchor - REACH, anchor + REACH))
  {
    hide Matches, Resolve, ChangesOnce, Reads, OnScan, Wall, IsReadingOf;
    var wall := Wall(on, minute);
    var anchor := Resolve(off, wall);
    WallIsNear(date, on, minute);
    AnchorIsAReading(off, date, c, wall);
    MatchesExact(off, on, minute, anchor - REACH, anchor + REACH);
    forall x
      ensures x in Matches(off, on, minute, anchor - REACH, anchor + REACH) <==> IsReadingOf(c, wall, x)
    {
      ScanDecides(off, date, c, on, minute, anchor, x);
    }
  }

  lemma WallIsNear(date: int, on: int, minute: int)
    requires OfDate(date, on, minute)
    ensures date * DAY <= Wall(on, minute) <= date * DAY + DAY
  {
  }

  lemma ScanDecides(off: Offset, date: int, c: Change, on: int, minute: int, anchor: int, x: int)
    requires ChangesOnce(off, date, c) && OfDate(date, on, minute)
    requires anchor in {Wall(on, minute) - c.before, Wall(on, minute) - c.after}
    ensures OnScan(x, anchor - REACH, anchor + REACH) && Reads(off, x, on, minute) <==> IsReadingOf(c, Wall(on, minute), x)
  {
    hide Reads, Wall, ChangesOnce;
    ChangeShape(off, date, c);
    GridOfAnchor(c, Wall(on, minute), anchor, x);
    if OnScan(x, anchor - REACH, anchor + REACH) && Reads(off, x, on, minute) {
      WallIsNear(date, on, minute);
      ReadingIsExact(off, date, c, on, minute, x);
    }
    if IsReadingOf(c, Wall(on, minute), x) {
      IsAReading(off, date, c, on, minute, x);
    }
  }

  lemma GridOfAnchor(c: Change, wall: int, anchor: int, x: int)
    requires (c.at + c.before) % MINUTE == 0 == (c.at + c.after) % MINUTE
    requires anchor in {wall - c.before, wall - c.after}
    ensures (x - (anchor - REACH)) % MINUTE == 0 <==> (x - (wall - c.before)) % MINUTE == 0
    ensures x in {wall - c.before, wall - c.after} ==> (x - (anchor - REACH)) % MINUTE == 0
  {
    WholeSteps(c.at + c.before, c.at + c.after);
    WholeSteps(c.at + c.after, c.at + c.before);
    assert REACH == 180 * MINUTE;
  }

  lemma IsAReading(off: Offset, date: int, c: Change, on: int, minute: int, x: int)
    requires ChangesOnce(off, date, c) && OfDate(date, on, minute)
    requires || (x == Wall(on, minute) - c.before && Wall(on, minute) < c.at + c.before)
             || (x == Wall(on, minute) - c.after && c.at + c.after <= Wall(on, minute))
    ensures Reads(off, x, on, minute)
  {
    WallIsNear(date, on, minute);
    assert Around(date, x);
  }

  /** Both boundaries of the code in closed form. */
  lemma {:induction false} RealMinuteIsBound(off: Offset, date: int, c: Change, on: int, minute: int, latest: bool)
    requires ChangesOnce(off, date, c) && OfDate(date, on, minute)
    ensures RealMinute(off, on, minute, latest) == Bound(c, Wall(on, minute), latest)
    decreases MINUTES_PER_DAY - minute
  {
    hide Matches, Resolve, Bound, Choice, RealMinute, ChangesOnce, Wall, Low, High, InGap;
    ScanOutcome(off, date, c, on, minute, latest);
    RealMinuteStep(off, on, minute, latest);
    ChangeShape(off, date, c);
    if InGap(c, Wall(on, minute)) {
      GapGoesOn(c, on, minute, latest);
      GapIsWithinTheDate(c, date, on, minute);
      RealMinuteIsBound(off, date, c, on, minute + 1, latest);
    }
  }

  lemma ScanOutcome(off: Offset, date: int, c: Change, on: int, minute: int, latest: bool)
    requires ChangesOnce(off, date, c) && OfDate(date, on, minute)
    ensures var anchor := Resolve(off, Wall(on, minute));
            var matches := Matches(off, on, minute, anchor - REACH, anchor + REACH);
            if InGap(c, Wall(on, minute)) then matches == []
            else matches != [] && Choice(matches, latest) == Bound(c, Wall(on, minute), latest)
  {
    hide Matches, AllReadings, Resolve, Bound, Choice, ChangesOnce, Wall, InGap, Ascending;
    var wall := Wall(on, minute);
    var anchor := Resolve(off, wall);
    var matches := Matches(off, on, minute, anchor - REACH, anchor + REACH);
    ScanFindsAllReadings(off, date, c, on, minute);
    MatchesAscend(off, on, minute, anchor - REACH, anchor + REACH);
    if InGap(c, wall) {
      NoReadings(c, wall, matches);
    } else {
      ChosenReading(c, wall, matches, latest);
    }
  }

  lemma GapIsWithinTheDate(c: Change, date: int, on: int, minute: int)
    requires 0 < Low(c) % DAY && Low(c) / DAY == High(c) / DAY && OfDate(date, on, minute) && InGap(c, Wall(on, minute))
    ensures on == date
  {
    MidnightIsUndisturbed(c, on);
  }

  lemma GapGoesOn(c: Change, on: int, minute: int, latest: bool)
    requires (c.at + c.after) % MINUTE == 0 && Low(c) / DAY == High(c) / DAY
    requires 0 <= minute < MINUTES_PER_DAY && InGap(c, Wall(on, minute))
    ensures minute + 1 < MINUTES_PER_DAY
    ensures Bound(c, Wall(on, minute + 1), latest) == Bound(c, Wall(on, minute), latest)
  {
    var wall := Wall(on, minute);
    WallIsOnMinute(on, minute);
    WholeSteps(c.at + c.after, wall);
    assert wall + MINUTE <= c.at + c.after;
    assert wall / DAY == on;
    assert High(c) / DAY == on;
  }

  lemma FirstIsMember(s: seq<int>)
    ensures s == [] || s[0] in s
  {
  }

  lemma ChangeShape(off: Offset, date: int, c: Change)
    requires ChangesOnce(off, date, c)
    ensures (c.at + c.after) % MINUTE == 0 == (c.at + c.before) % MINUTE && Low(c) / DAY == High(c) / DAY
    ensures -REACH <= c.after - c.before <= REACH && 0 < Low(c) % DAY
    ensures -FARTHEST <= c.before <= FARTHEST && -FARTHEST <= c.after <= FARTHEST
  {
  }

  lemma NoReadings(c: Change, wall: int, matches: seq<int>)
    requires AllReadings(c, wall, matches) && InGap(c, wall)
    ensures matches == []
  {
    forall x
      ensures x !in matches
    {
    }
    FirstIsMember(matches);
  }

  lemma ChosenReading(c: Change, wall: int, matches: seq<int>, latest: bool)
    requires AllReadings(c, wall, matches) && !InGap(c, wall)
    requires Ascending(matches)
    ensures matches != [] && Choice(matches, latest) == Bound(c, wall, latest)
  {
    assert Bound(c, wall, true) in matches && Bound(c, wall, false) in matches;
    assert matches[0] in matches && matches[|matches| - 1] in matches;
  }

  /** The day handed to localMinute is the date's midnight; minute 1440 is the next one. */
  lemma BoundaryIsBound(off: Offset, date: int, c: Change, minute: int, latest: bool)
    requires ChangesOnce(off, date, c) && 0 <= minute <= MINUTES_PER_DAY
    ensures Boundary(off, Whole(date), minute, latest) == Bound(c, Wall(date, minute), latest)
  {
    hide RealMinute, Bound, ChangesOnce, DateOf, NextDay, Midnight, Wall;
    MidnightReads(off, date, c, date);
    if minute == MINUTES_PER_DAY {
      NextDayReads(off, date, c);
      RealMinuteIsBound(off, date, c, date + 1, 0, latest);
      SameWall(date);
    } else {
      RealMinuteIsBound(off, date, c, date, minute, latest);
    }
  }

  lemma SameWall(date: int)
    ensures Wall(date + 1, 0) == Wall(date, MINUTES_PER_DAY)
  {
  }

  lemma NextDayReads(off: Offset, date: int, c: Change)
    requires ChangesOnce(off, date, c)
    ensures DateOf(off, NextDay(off, Midnight(off, date))) == date + 1
  {
    hide ChangesOnce, Local, DateOf, Resolve;
    MidnightReads(off, date, c, date);
    MidnightReads(off, date, c, date + 1);
    assert (date + 1) * DAY == date * DAY + DAY;
  }

  lemma MidnightReads(off: Offset, date: int, c: Change, on: int)
    requires ChangesOnce(off, date, c) && on in {date, date + 1}
    ensures Local(off, Midnight(off, on)) == on * DAY && DateOf(off, Midnight(off, on)) == on
  {
    var wall := on * DAY;
    MidnightIsUndisturbed(c, on);
    AnchorIsAReading(off, date, c, wall);
    LocalAway(off, date, c, wall);
    OwnDate(wall, on);
  }

  lemma OwnDate(wall: int, on: int)
    requires wall == on * DAY
    ensures wall / DAY == on
  {
  }

  lemma LocalAway(off: Offset, date: int, c: Change, wall: int)
    requires ChangesOnce(off, date, c) && date * DAY <= wall <= date * DAY + DAY
    ensures wall < Low(c) ==> Local(off, wall - c.before) == wall
    ensures High(c) <= wall ==> Local(off, wall - c.after) == wall
  {
  }

  lemma MidnightIsUndisturbed(c: Change, on: int)
    requires 0 < Low(c) % DAY && Low(c) / DAY == High(c) / DAY
    ensures on * DAY < Low(c) || High(c) <= on * DAY
  {
    var q := Low(c) / DAY;
    if Low(c) <= on * DAY {
      assert q * DAY < on * DAY;
      assert q + 1 <= on;
    }
  }

  // ---- what a rule covers ----

  /** The clock reads within the rule. */
  ghost predicate ReadsWithin(off: Offset, date: int, rule: Rule, t: int) {
    Wall(date, rule.startMinute) <= Local(off, t) < Wall(date, rule.endMinute)
  }

  lemma SpanIsBounds(off: Offset, date: int, c: Change, rule: Rule)
    requires ChangesOnce(off, date, c) && RuleValid(rule)
    ensures RuleSpan(off, Whole(date), rule) ==
            Interval(Earliest(c, Wall(date, rule.startMinute)), Latest(c, Wall(date, rule.endMinute)))
  {
    hide ChangesOnce, Boundary, Midnight;
    BoundaryIsBound(off, date, c, rule.startMinute, false);
    BoundaryIsBound(off, date, c, rule.endMinute, true);
  }

  /** Every instant that reads within the rule lies in the rule's span. */
  lemma {:induction false} RuleCoversItsHours(off: Offset, date: int, c: Change, rule: Rule, t: int)
    requires ChangesOnce(off, date, c) && RuleValid(rule) && ReadsWithin(off, date, rule, t)
    ensures Within(RuleSpan(off, Whole(date), rule), t)
  {
    hide RuleSpan, Weekday;
    SpanIsBounds(off, date, c, rule);
    OwnDate(Wall(date, 0), date);
    assert DateOf(off, t) == date;
  }

  /** A boundary inside a forward gap is the first instant after it. */
  lemma GapBoundary(off: Offset, date: int, c: Change, minute: int, latest: bool)
    requires ChangesOnce(off, date, c) && 0 <= minute <= MINUTES_PER_DAY
    requires InGap(c, Wall(date, minute))
    ensures Boundary(off, Whole(date), minute, latest) == c.at
  {
    BoundaryIsBound(off, date, c, minute, latest);
  }

  /** A rule is dropped as empty exactly when the gap swallows all of it. */
  lemma CollapsedRule(off: Offset, date: int, c: Change, rule: Rule)
    requires ChangesOnce(off, date, c) && RuleValid(rule)
    ensures Proper(RuleSpan(off, Whole(date), rule)) <==>
            !(c.at + c.before <= Wall(date, rule.startMinute) && Wall(date, rule.endMinute) <= c.at + c.after)
  {
    hide RuleSpan, ChangesOnce;
    SpanIsBounds(off, date, c, rule);
  }

  /** A repeated stretch of the clock cut by one of the rule's boundaries. */
  predicate CutsTheFold(c: Change, start: int, end: int) {
    || c.at + c.after < start < c.at + c.before
    || c.at + c.after <= end < c.at + c.before
  }

  ghost predicate ExactHours(off: Offset, date: int, rule: Rule)
    requires RuleValid(rule)
  {
    forall t :: Within(RuleSpan(off, Whole(date), rule), t) ==> ReadsWithin(off, date, rule, t)
  }

  /** The resolved interval holds nothing but the rule's hours, unless a boundary cuts
      a repeated stretch, and then it always holds something else. */
  lemma {:induction false} ExactUnlessFoldIsCut(off: Offset, date: int, c: Change, rule: Rule)
    requires ChangesOnce(off, date, c) && RuleValid(rule)
    ensures ExactHours(off, date, rule) <==> !CutsTheFold(c, Wall(date, rule.startMinute), Wall(date, rule.endMinute))
  {
    hide ChangesOnce, RuleSpan;
    SpanIsBounds(off, date, c, rule);
    var s, e := Wall(date, rule.startMinute), Wall(date, rule.endMinute);
    if CutsTheFold(c, s, e) {
      var t := if c.at + c.after < s < c.at + c.before then c.at else e - c.before;
      NearTheDate(off, date, c, t);
      assert Within(RuleSpan(off, Whole(date), rule), t) && !ReadsWithin(off, date, rule, t);
    } else {
      forall t | Within(RuleSpan(off, Whole(date), rule), t)
        ensures ReadsWithin(off, date, rule, t)
      {
        NearTheDate(off, date, c, t);
      }
    }
  }

  lemma NearTheDate(off: Offset, date: int, c: Change, t: int)
    requires ChangesOnce(off, date, c)
    requires Earliest(c, date * DAY) <= t < Latest(c, date * DAY + DAY)
    ensures off(t) == if t < c.at then c.before else c.after
  {
    assert Around(date, t);
  }

  /** Such zones exist. Clocks go from one hour ahead to two at one in the morning of day 0,
      and the rule from 02:30 starts at the change. */
  lemma SpringForward() returns (off: Offset, c: Change)
    ensures ChangesOnce(off, 0, c) && InGap(c, Wall(0, 150))
  {
    off, c := t => if t < HOUR then HOUR else 2 * HOUR, Change(HOUR, HOUR, 2 * HOUR);
  }

  /** Clocks go back from two hours ahead to one at one in the morning of day 0, and the rule
      from 02:30 to 04:00 also covers the first half of the second 02:00 hour. */
  lemma FallBack() returns (off: Offset, c: Change, rule: Rule)
    ensures ChangesOnce(off, 0, c) && RuleValid(rule)
    ensures !ExactHours(off, 0, rule)
    ensures exists t :: Within(RuleSpan(off, Whole(0), rule), t) && !ReadsWithin(off, 0, rule, t)
  {
    off, c := t => if t < HOUR then 2 * HOUR else HOUR, Change(HOUR, 2 * HOUR, HOUR);
    rule := Rule(Working, 4, 150, 240, None, None);
    assert CutsTheFold(c, Wall(0, 150), Wall(0, 240));
    ExactUnlessFoldIsCut(off, 0, c, rule);
  }
}

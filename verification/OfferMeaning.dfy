/** What "on offer" means, spelled out in rules, busy intervals and instants, without the lists of
    spans the engine works with (internal/scheduling/engine.go). */
module OfferMeaning {
  import opened Domain
  import opened Intervals
  import opened Zones
  import opened Availability

  /** The rule is of the kind and in force on the date; day 0 was a Thursday. */
  predicate InForce(rule: Rule, kind: Kind, date: int) {
    && rule.kind == kind && rule.weekday == (date + 4) % 7
    && (rule.validFrom.Some? ==> rule.validFrom.value <= date) && (rule.validUntil.Some? ==> date <= rule.validUntil.value)
  }

  /** Some rule of the kind holds at the instant, as the date's wall clock resolves its minutes. */
  ghost predicate HoldsAt(off: Offset, rules: seq<Rule>, kind: Kind, date: int, t: int)
    requires RulesValid(rules)
  {
    exists i :: 0 <= i < |rules| && InForce(rules[i], kind, date) && RuleHolds(off, rules[i], date, t)
  }

  predicate RuleHolds(off: Offset, rule: Rule, date: int, t: int)
    requires RuleValid(rule)
  {
    Boundary(off, Day(date, date + 1), rule.startMinute, false) <= t < Boundary(off, Day(date, date + 1), rule.endMinute, true)
  }

  lemma HoldsIsCovered(off: Offset, rules: seq<Rule>, kind: Kind, date: int, t: int)
    requires RulesValid(rules)
    ensures Covers(DaySpans(off, Whole(date), rules, kind), t) <==> HoldsAt(off, rules, kind, date, t)
  {
    hide DaySpans, Boundary;
    var spans := DaySpans(off, Whole(date), rules, kind);
    DaySpansExact(off, Whole(date), rules, kind);
    if k :| 0 <= k < |spans| && Within(spans[k], t) {
      assert spans[k] in spans;
      var i :| 0 <= i < |rules| && spans[k] in OneSpan(off, Whole(date), rules[i], kind);
      assert InForce(rules[i], kind, date) && RuleHolds(off, rules[i], date, t);
    }
    if i :| 0 <= i < |rules| && InForce(rules[i], kind, date) && RuleHolds(off, rules[i], date, t) {
      var span := RuleSpan(off, Whole(date), rules[i]);
      assert span in OneSpan(off, Whole(date), rules[i], kind);
      assert span in spans;
      var k :| 0 <= k < |spans| && spans[k] == span;
      assert Within(spans[k], t);
    }
  }

  /** A longest stretch of the date that working rules cover. */
  ghost predicate OpenStretch(off: Offset, rules: seq<Rule>, date: int, p: Interval)
    requires RulesValid(rules)
  {
    && p.start < p.end && (forall t :: p.start <= t < p.end ==> HoldsAt(off, rules, Working, date, t))
    && !HoldsAt(off, rules, Working, date, p.start - 1) && !HoldsAt(off, rules, Working, date, p.end)
  }

  lemma StretchIsPeriod(off: Offset, q: Search, date: int, p: Interval)
    requires RulesValid(q.rules)
    ensures IsPeriod(off, q, Whole(date), p) <==> OpenStretch(off, q.rules, date, p)
  {
    hide DaySpans, HoldsAt, Covers, RulesValid;
    forall t
      ensures Covers(DaySpans(off, Whole(date), q.rules, Working), t) <==> HoldsAt(off, q.rules, Working, date, t)
    {
      HoldsIsCovered(off, q.rules, Working, date, t);
    }
    assert forall t :: Within(p, t) <==> p.start <= t < p.end;
  }

  /** On the date, the slot fits an open stretch on the grid that starts with the stretch, no break
      rule holds while it and its buffers last, and nothing busy, with buffers of its own, overlaps. */
  ghost predicate FreeOn(off: Offset, q: Search, date: int, p: Interval, s: int)
    requires RulesValid(q.rules)
  {
    var from, to := s - q.service.bufferBefore, s + q.service.duration + q.service.bufferAfter;
    var step := if q.interval == 0 then 900_000_000_000 else q.interval;
    && OpenStretch(off, q.rules, date, p) && p.start <= s && s + q.service.duration <= p.end
    && step != 0 && (s - p.start) % step == 0
    && (forall t :: from <= t < to ==> !HoldsAt(off, q.rules, Break, date, t))
    && (forall i :: 0 <= i < |q.busy| ==>
          q.busy[i].end + q.busy[i].bufferAfter <= from || to <= q.busy[i].start - q.busy[i].bufferBefore)
  }

  lemma ClearMeans(off: Offset, q: Search, date: int, s: int)
    requires Accepted(q)
    ensures var from, to := s - q.service.bufferBefore, s + q.service.duration + q.service.bufferAfter;
            Clear(off, q, Whole(date), s) <==>
            && (forall t :: from <= t < to ==> !HoldsAt(off, q.rules, Break, date, t))
            && (forall i :: 0 <= i < |q.busy| ==>
                  q.busy[i].end + q.busy[i].bufferAfter <= from || to <= q.busy[i].start - q.busy[i].bufferBefore)
  {
    hide DaySpans, HoldsAt, Covers, RulesValid, Touches;
    var o, breaks := Occupied(q.service, s), DaySpans(off, Whole(date), q.rules, Break);
    DaySpansProper(off, Whole(date), q.rules, Break);
    TouchesIsSharing(o, breaks);
    forall t
      ensures Covers(breaks, t) <==> HoldsAt(off, q.rules, Break, date, t)
    {
      HoldsIsCovered(off, q.rules, Break, date, t);
    }
    assert forall t :: Within(o, t) <==> s - q.service.bufferBefore <= t < s + q.service.duration + q.service.bufferAfter;
    BusyMeans(q, s);
  }

  lemma BusyMeans(q: Search, s: int)
    ensures var from, to := s - q.service.bufferBefore, s + q.service.duration + q.service.bufferAfter;
            !Touches(Occupied(q.service, s), BusySpans(q.busy)) <==>
            forall i :: 0 <= i < |q.busy| ==>
              q.busy[i].end + q.busy[i].bufferAfter <= from || to <= q.busy[i].start - q.busy[i].bufferBefore
  {
    var o, spans := Occupied(q.service, s), BusySpans(q.busy);
    forall i | 0 <= i < |q.busy|
      ensures !Overlap(o, spans[i]) <==>
              || q.busy[i].end + q.busy[i].bufferAfter <= s - q.service.bufferBefore
              || s + q.service.duration + q.service.bufferAfter <= q.busy[i].start - q.busy[i].bufferBefore
    {
    }
    assert |spans| == |q.busy|;
  }

  /** A slot is on offer exactly when it lies within the window and is free on one of its dates. */
  lemma {:induction false} OfferedMeans(off: Offset, q: Search, s: int)
    requires Accepted(q)
    ensures Offered(off, q, s) <==>
            && q.from <= s && s + q.service.duration <= q.to
            && exists date, p :: DateOf(off, q.from) <= date <= DateOf(off, q.to - 1) && FreeOn(off, q, date, p, s)
  {
    hide DaySpans, DateOf, RulesValid, Clear, OpenStretch, HoldsAt;
    forall date, p
      ensures FreeOn(off, q, date, p, s) <==> Clear(off, q, Whole(date), s) && IsPeriod(off, q, Whole(date), p) && OnGridOf(q, p, s)
    {
      ClearMeans(off, q, date, s);
      StretchIsPeriod(off, q, date, p);
    }
    if Offered(off, q, s) {
      var date :| DateOf(off, q.from) <= date <= DateOf(off, q.to - 1) && Free(off, q, Whole(date), s);
      var p :| IsPeriod(off, q, Whole(date), p) && OnGridOf(q, p, s);
      assert FreeOn(off, q, date, p, s);
    }
    if date, p :| DateOf(off, q.from) <= date <= DateOf(off, q.to - 1) && FreeOn(off, q, date, p, s) {
      assert IsPeriod(off, q, Whole(date), p) && OnGridOf(q, p, s);
      assert Free(off, q, Whole(date), s);
    }
  }

  /** The searches the engine answers. */
  lemma AnswerableMeans(q: Search)
    ensures Answerable(q) <==>
            && 0 < q.service.duration <= 86_400_000_000_000
            && 0 <= q.service.bufferBefore <= 14_400_000_000_000 && 0 <= q.service.bufferAfter <= 14_400_000_000_000
            && q.from != ZERO_TIME && q.to != ZERO_TIME && q.from < q.to && q.to - q.from <= 31 * 86_400_000_000_000 + 7_200_000_000_000
            && 0 <= q.limit <= 1000
            && (q.interval == 0 || (60_000_000_000 <= q.interval <= 86_400_000_000_000 && q.interval % 60_000_000_000 == 0))
            && (forall i :: 0 <= i < |q.rules| ==>
                  && q.rules[i].kind in {Working, Break} && 0 <= q.rules[i].weekday <= 6
                  && 0 <= q.rules[i].startMinute < q.rules[i].endMinute <= 1440
                  && (q.rules[i].validFrom.Some? && q.rules[i].validUntil.Some? ==>
                        q.rules[i].validFrom.value <= q.rules[i].validUntil.value))
            && (forall i :: 0 <= i < |q.busy| ==>
                  && q.busy[i].start != ZERO_TIME && q.busy[i].end != ZERO_TIME && q.busy[i].start < q.busy[i].end
                  && 0 <= q.busy[i].bufferBefore && 0 <= q.busy[i].bufferAfter)
  {
  }
}

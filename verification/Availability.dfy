/** What a slot search answers: the declarative side of internal/scheduling/engine.go. */
module Availability {
  import opened Domain
  import opened Intervals
  import opened Zones

  datatype Kind = Working | Break | OtherKind

  /** A weekly rule on the local wall clock. Validity bounds are civil dates. */
  datatype Rule = Rule(kind: Kind, weekday: int, startMinute: int, endMinute: int,
                       validFrom: Option<int>, validUntil: Option<int>)

  datatype Service = Service(id: string, duration: int, bufferBefore: int, bufferAfter: int)

  datatype Busy = Busy(start: int, end: int, bufferBefore: int, bufferAfter: int)

  datatype Slot = Slot(service: string, staff: string, start: int, end: int)

  datatype Search = Search(service: Service, staff: string, from: int, to: int,
                           rules: seq<Rule>, busy: seq<Busy>, interval: int, limit: int)

  /** 1 January of year 1, UTC: the instant Go treats as no instant at all. */
  const ZERO_TIME := -62_135_596_800_000_000_000

  // ---- validation ----

  predicate RuleValid(rule: Rule) {
    && rule.kind in {Working, Break} && 0 <= rule.weekday <= 6
    && 0 <= rule.startMinute < rule.endMinute <= MINUTES_PER_DAY
    && (rule.validFrom.Some? && rule.validUntil.Some? ==> rule.validFrom.value <= rule.validUntil.value)
  }

  function Step(q: Search): int {
    if q.interval == 0 then 15 * MINUTE else q.interval
  }

  predicate ServiceValid(service: Service) {
    0 < service.duration <= DAY && 0 <= service.bufferBefore <= 4 * HOUR && 0 <= service.bufferAfter <= 4 * HOUR
  }

  predicate WindowValid(from: int, to: int) {
    from != ZERO_TIME && to != ZERO_TIME && from < to && to - from <= 31 * DAY + 2 * HOUR
  }

  predicate StepValid(step: int) {
    MINUTE <= step <= DAY && step % MINUTE == 0
  }

  predicate RulesValid(rules: seq<Rule>) {
    forall i :: 0 <= i < |rules| ==> RuleValid(rules[i])
  }

  predicate Accepted(q: Search) {
    && ServiceValid(q.service) && WindowValid(q.from, q.to) && 0 <= q.limit <= 1000
    && StepValid(Step(q)) && RulesValid(q.rules)
  }

  predicate BusyValid(b: Busy) {
    b.start != ZERO_TIME && b.end != ZERO_TIME && b.start < b.end && 0 <= b.bufferBefore && 0 <= b.bufferAfter
  }

  predicate AllBusyValid(busy: seq<Busy>) {
    forall i :: 0 <= i < |busy| ==> BusyValid(busy[i])
  }

  predicate Answerable(q: Search) {
    Accepted(q) && AllBusyValid(q.busy)
  }

  // ---- the staff member's day ----

  predicate Applies(rule: Rule, date: int) {
    && rule.weekday == Weekday(date)
    && (rule.validFrom.Some? ==> rule.validFrom.value <= date)
    && (rule.validUntil.Some? ==> date <= rule.validUntil.value)
  }

  function RuleSpan(off: Offset, d: Day, rule: Rule): Interval
    requires RuleValid(rule)
  {
    Interval(Boundary(off, d, rule.startMinute, false),
             Boundary(off, d, rule.endMinute, true))
  }

  /** The resolved spans of the date's rules of one kind; a span swallowed by a gap is dropped. */
  function DaySpans(off: Offset, d: Day, rules: seq<Rule>, kind: Kind): seq<Interval>
    requires RulesValid(rules)
  {
    if rules == [] then []
    else
      var n := |rules| - 1;
      DaySpans(off, d, rules[..n], kind) + OneSpan(off, d, rules[n], kind)
  }

  function OneSpan(off: Offset, d: Day, rule: Rule, kind: Kind): seq<Interval>
    requires RuleValid(rule)
  {
    if rule.kind == kind && Applies(rule, d.date) && Proper(RuleSpan(off, d, rule)) then [RuleSpan(off, d, rule)] else []
  }

  function BusySpan(b: Busy): Interval {
    Interval(b.start - b.bufferBefore, b.end + b.bufferAfter)
  }

  function BusySpans(busy: seq<Busy>): seq<Interval> {
    seq(|busy|, i requires 0 <= i < |busy| => BusySpan(busy[i]))
  }

  function Occupied(service: Service, s: int): Interval {
    Interval(s - service.bufferBefore, s + service.duration + service.bufferAfter)
  }

  // ---- what is on offer ----

  predicate OnStep(a: int, s: int, step: int)
    requires 0 < step
  {
    (s - a) % step == 0
  }

  /** `s` is a grid point of a maximal working period that fits into the period. */
  ghost predicate OnGridOf(q: Search, p: Interval, s: int)
    requires StepValid(Step(q))
  {
    p.start <= s && s + q.service.duration <= p.end && OnStep(p.start, s, Step(q))
  }

  ghost predicate IsPeriod(off: Offset, q: Search, d: Day, p: Interval)
    requires RulesValid(q.rules)
  {
    IsRun(DaySpans(off, d, q.rules, Working), p)
  }

  /** The buffered span misses the day's breaks and everything busy. */
  ghost predicate Clear(off: Offset, q: Search, d: Day, s: int)
    requires RulesValid(q.rules)
  {
    && !Touches(Occupied(q.service, s), DaySpans(off, d, q.rules, Break))
    && !Touches(Occupied(q.service, s), BusySpans(q.busy))
  }

  ghost predicate Free(off: Offset, q: Search, d: Day, s: int)
    requires Accepted(q)
  {
    Clear(off, q, d, s) && exists p :: IsPeriod(off, q, d, p) && OnGridOf(q, p, s)
  }

  ghost predicate InWindow(q: Search, s: int) {
    q.from <= s && s + q.service.duration <= q.to
  }

  ghost predicate Offered(off: Offset, q: Search, s: int)
    requires Accepted(q)
  {
    && InWindow(q, s)
    && exists date :: DateOf(off, q.from) <= date <= DateOf(off, q.to - 1) && Free(off, q, Whole(date), s)
  }

  /** What the engine's walk over the days comes across, in any zone. */
  ghost predicate Reached(off: Offset, q: Search, s: int)
    requires Accepted(q)
  {
    InWindow(q, s) && exists d :: WalksBy(off, q.from, q.to, d) && Free(off, q, d, s)
  }

  function SlotAt(q: Search, s: int): Slot {
    Slot(q.service.id, q.staff, s, s + q.service.duration)
  }

  // ---- answers ----

  ghost predicate Ascend(slots: seq<Slot>) {
    forall i, j :: 0 <= i < j < |slots| ==> slots[i].start < slots[j].start
  }

  /** Everything on offer before `bound`, in order. */
  ghost predicate AllBefore(off: Offset, q: Search, slots: seq<Slot>, bound: int)
    requires Accepted(q)
  {
    && Ascend(slots)
    && (forall i :: 0 <= i < |slots| ==> slots[i] == SlotAt(q, slots[i].start))
    && (forall s {:trigger Offered(off, q, s)} {:trigger SlotAt(q, s)} :: SlotAt(q, s) in slots <==> Offered(off, q, s) && s < bound)
  }

  /** The answer to a search: the slots on offer, strictly increasing, all of them
      or as many of the first as the limit asks for. */
  ghost predicate IsAnswer(off: Offset, q: Search, slots: seq<Slot>)
    requires Accepted(q)
  {
    exists bound :: AllBefore(off, q, slots, bound)
      && if q.limit > 0 && |slots| >= q.limit then |slots| == q.limit else forall s :: Offered(off, q, s) ==> s < bound
  }

  // ---- facts about days ----

  /** The midnights of the search's own dates are regular. */
  ghost predicate RegularWindow(off: Offset, q: Search) {
    RegularDays(off, DateOf(off, q.from), DateOf(off, q.to - 1))
  }

  lemma DayOfWindow(off: Offset, q: Search, date: int)
    requires RegularWindow(off, q) && DateOf(off, q.from) <= date <= DateOf(off, q.to - 1)
    ensures RegularDay(off, date)
  {
    hide DateOf, RegularAt;
  }

  lemma {:induction false} DaySpansExact(off: Offset, d: Day, rules: seq<Rule>, kind: Kind)
    requires RulesValid(rules)
    ensures forall x :: x in DaySpans(off, d, rules, kind) <==>
              exists i :: 0 <= i < |rules| && x in OneSpan(off, d, rules[i], kind)
  {
    if rules != [] {
      var n := |rules| - 1;
      DaySpansExact(off, d, rules[..n], kind);
      hide OneSpan;
      forall x
        ensures x in DaySpans(off, d, rules, kind) <==>
                  exists i :: 0 <= i < |rules| && x in OneSpan(off, d, rules[i], kind)
      {
        SpanOfPrefix(off, d, rules, rules[..n], kind, x);
      }
    }
  }

  lemma SpanOfPrefix(off: Offset, d: Day, rules: seq<Rule>, front: seq<Rule>, kind: Kind, x: Interval)
    requires RulesValid(rules) && rules != [] && front == rules[..|rules| - 1]
    ensures (exists i :: 0 <= i < |rules| && x in OneSpan(off, d, rules[i], kind)) <==>
            || x in OneSpan(off, d, rules[|rules| - 1], kind)
            || exists i :: 0 <= i < |front| && x in OneSpan(off, d, front[i], kind)
  {
    hide OneSpan;
    if i :| 0 <= i < |front| && x in OneSpan(off, d, front[i], kind) {
      assert rules[i] == front[i];
    }
    if i :| 0 <= i < |rules| && x in OneSpan(off, d, rules[i], kind) {
      assert i < |rules| - 1 ==> rules[i] == front[i];
    }
  }

  ghost predicate InDay(off: Offset, date: int, x: Interval) {
    Midnight(off, date) <= x.start && x.end <= Midnight(off, date + 1)
  }

  lemma RuleSpanInDay(off: Offset, date: int, rule: Rule)
    requires RegularDay(off, date) && RuleValid(rule)
    ensures InDay(off, date, RuleSpan(off, Whole(date), rule))
  {
    BoundaryWithinDay(off, date, rule.startMinute, false);
    BoundaryWithinDay(off, date, rule.endMinute, true);
  }

  lemma DaySpansInDay(off: Offset, date: int, rules: seq<Rule>, kind: Kind, x: Interval)
    requires RegularDay(off, date) && RulesValid(rules) && x in DaySpans(off, Whole(date), rules, kind)
    ensures Proper(x) && InDay(off, date, x)
  {
    hide DaySpans, RuleSpan, InDay;
    DaySpansExact(off, Whole(date), rules, kind);
    var i :| 0 <= i < |rules| && x in OneSpan(off, Whole(date), rules[i], kind);
    RuleSpanInDay(off, date, rules[i]);
  }

  lemma DaySpansProper(off: Offset, d: Day, rules: seq<Rule>, kind: Kind)
    requires RulesValid(rules)
    ensures AllProper(DaySpans(off, d, rules, kind))
  {
    hide DaySpans;
    var spans := DaySpans(off, d, rules, kind);
    forall k | 0 <= k < |spans|
      ensures Proper(spans[k])
    {
      SpanIsProper(off, d, rules, kind, spans[k]);
    }
  }

  lemma SpanIsProper(off: Offset, d: Day, rules: seq<Rule>, kind: Kind, x: Interval)
    requires RulesValid(rules) && x in DaySpans(off, d, rules, kind)
    ensures Proper(x)
  {
    hide DaySpans, RuleSpan;
    DaySpansExact(off, d, rules, kind);
    var i :| 0 <= i < |rules| && x in OneSpan(off, d, rules[i], kind);
  }

  /** A working period lies within its own day. */
  lemma PeriodInDay(off: Offset, q: Search, date: int, p: Interval)
    requires RegularDay(off, date) && RulesValid(q.rules) && IsPeriod(off, q, Whole(date), p)
    ensures InDay(off, date, p)
  {
    CoveredInDay(off, date, q.rules, Working, p.start);
    CoveredInDay(off, date, q.rules, Working, p.end - 1);
  }

  lemma CoveredInDay(off: Offset, date: int, rules: seq<Rule>, kind: Kind, t: int)
    requires RegularDay(off, date) && RulesValid(rules)
    ensures Covers(DaySpans(off, Whole(date), rules, kind), t) ==> Midnight(off, date) <= t < Midnight(off, date + 1)
  {
    hide RegularDay, RulesValid;
    var spans := DaySpans(off, Whole(date), rules, kind);
    if i :| 0 <= i < |spans| && Within(spans[i], t) {
      DaySpansInDay(off, date, rules, kind, spans[i]);
    }
  }

  /** Every slot belongs to the day its start falls on. */
  lemma FreeIsOnItsDate(off: Offset, q: Search, date: int, s: int)
    requires RegularDay(off, date) && Accepted(q) && Free(off, q, Whole(date), s)
    ensures date == DateOf(off, s)
    ensures Midnight(off, date) <= s && s + q.service.duration <= Midnight(off, date + 1)
  {
    hide IsPeriod, RegularDay, Clear, Midnight, DateOf;
    var p :| IsPeriod(off, q, Whole(date), p) && OnGridOf(q, p, s);
    PeriodInDay(off, q, date, p);
    DateIsSpan(off, s, date);
  }
}

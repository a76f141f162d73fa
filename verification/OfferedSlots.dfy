/** From offer to booking on fixed tables: the search of internal/scheduling/repository.go
    loads what is busy around the requested window, the recheck of a create loads what is
    busy around the slot's own day, and both should agree on every slot offered. */
module OfferedSlots {
  import opened Intervals
  import opened Zones
  import opened Availability
  import Engine
  import opened EngineTheorems
  import opened SlotMerge
  import opened Bookings
  import BookingProofs
  import BookingRepository
  import CrowdedDay

  /** The grid of the recheck. */
  const QUARTER := 15 * MINUTE

  function OnQuarters(q: Search): Search {
    q.(interval := QUARTER)
  }

  /** The slot is also a point of the recheck's grid. */
  ghost predicate OnQuarter(off: Offset, q: Search, s: int)
    requires RulesValid(q.rules)
  {
    exists p :: IsPeriod(off, q, Whole(DateOf(off, s)), p) && OnGridOf(OnQuarters(q), p, s)
  }

  lemma FreeOnQuarters(off: Offset, q: Search, s: int)
    requires Accepted(q) && Accepted(OnQuarters(q)) && Free(off, q, Whole(DateOf(off, s)), s)
    ensures Free(off, OnQuarters(q), Whole(DateOf(off, s)), s) <==> OnQuarter(off, q, s)
  {
    hide DaySpans, IsRun, DateOf, Touches, RulesValid, Occupied;
    assert forall p :: IsPeriod(off, q, Whole(DateOf(off, s)), p) <==> IsPeriod(off, OnQuarters(q), Whole(DateOf(off, s)), p);
  }

  lemma {:induction false} StepRefines(a: int, s: int, coarse: int)
    requires 0 < coarse && coarse % QUARTER == 0 && OnStep(a, s, coarse)
    ensures OnStep(a, s, QUARTER)
  {
    var m, n := coarse / QUARTER, (s - a) / coarse;
    assert s - a == n * coarse && coarse == m * QUARTER;
    assert s - a == (n * m) * QUARTER;
    Multiple(n * m);
  }

  lemma Multiple(n: int)
    ensures (n * QUARTER) % QUARTER == 0
  {
  }

  /** A grid of whole quarters of an hour is part of the recheck's. */
  lemma CoarseGridIsOnQuarters(off: Offset, q: Search, s: int)
    requires Accepted(q) && Step(q) % QUARTER == 0 && Free(off, q, Whole(DateOf(off, s)), s)
    ensures OnQuarter(off, q, s)
  {
    hide IsPeriod, Clear, DateOf, RulesValid, OnStep;
    var p :| IsPeriod(off, q, Whole(DateOf(off, s)), p) && OnGridOf(q, p, s);
    StepRefines(p.start, s, Step(q));
  }

  // ---- the rows that matter are loaded either way ----

  ghost predicate Reaches(q: Search, s: int) {
    q.from - PADDING <= Occupied(q.service, s).start < Occupied(q.service, s).end <= q.to + PADDING
  }

  lemma LoadedEitherWay(row: Staff, bookings: map<string, Booking>, q: Search, r: Search, s: int, b: Busy)
    requires Reaches(q, s) && Reaches(r, s) && q.staff == r.staff && q.service == r.service
    requires Overlap(Occupied(q.service, s), BusySpan(b)) && Loaded(row.blocks, bookings, q.staff, q.from, q.to, b)
    ensures Loaded(row.blocks, bookings, r.staff, r.from, r.to, b)
  {
    if i :| 0 <= i < |row.blocks| && b == Busy(row.blocks[i].start, row.blocks[i].end, 0, 0) {
      assert row.blocks[i].start < r.to + PADDING && r.from - PADDING < row.blocks[i].end;
    }
    if id :| id in bookings && LoadedBooking(bookings[id], q.staff, q.from, q.to) && b == BusyOf(bookings[id]) {
      assert LoadedBooking(bookings[id], r.staff, r.from, r.to);
    }
  }

  /** What is busy around the slot is the same in every window that holds it. */
  lemma SameBusy(row: Staff, bookings: map<string, Booking>, q: Search, r: Search, s: int)
    requires Accepted(q) && Accepted(r) && Reached(row.off, q, s) && Reached(row.off, r, s)
    requires q.staff == r.staff && q.service == r.service
    ensures Available(row, bookings, q, s) <==> Available(row, bookings, r, s)
  {
    hide Accepted, Reached, Loaded, Overlap, Occupied, BusySpan;
    BookingProofs.OccupiedWithinPadding(row.off, q, s);
    BookingProofs.OccupiedWithinPadding(row.off, r, s);
    forall b | Overlap(Occupied(q.service, s), BusySpan(b))
      ensures Loaded(row.blocks, bookings, q.staff, q.from, q.to, b) <==> Loaded(row.blocks, bookings, r.staff, r.from, r.to, b)
    {
      if Loaded(row.blocks, bookings, q.staff, q.from, q.to, b) { LoadedEitherWay(row, bookings, q, r, s, b); }
      if Loaded(row.blocks, bookings, r.staff, r.from, r.to, b) { LoadedEitherWay(row, bookings, r, q, s, b); }
    }
  }

  /** For a slot the search offers on the tables as they are, the recheck of a create on the
      same tables says yes exactly when the slot is a point of the recheck's grid. */
  lemma {:induction false} OfferPassesRecheckIff(row: Staff, bookings: map<string, Booking>, q: Search, s: int)
    requires q.busy == [] && q.rules == row.rules && Accepted(q) && RegularWindow(row.off, q)
    requires Available(row, bookings, q, s) && Accepted(DayQuery(q.service, q.staff, row, s))
    ensures Available(row, bookings, DayQuery(q.service, q.staff, row, s), s) <==> OnQuarter(row.off, q, s)
    ensures Step(q) % QUARTER == 0 ==> OnQuarter(row.off, q, s)
  {
    hide RegularWindow, Accepted, Offered, Reached, Free, DateOf, Midnight, NextDay, OnQuarter, Loaded, RegularDay;
    var own := Engine.OwnDay(row.off, q, s);
    var day := DayQuery(q.service, q.staff, row, s);
    assert day == OnQuarters(own);
    Engine.ReachedIsOffered(row.off, q, s);
    SameDay(row.off, q, s);
    Engine.ReachedIsOffered(row.off, day, s);
    FreeOnQuarters(row.off, own, s);
    OwnQuarter(row.off, q, s);
    OfferedIsFreeInWindow(row.off, day, s);
    if Offered(row.off, day, s) {
      SameBusy(row, bookings, q, day, s);
    }
    if Step(q) % QUARTER == 0 {
      OfferedIsFreeInWindow(row.off, q, s);
      CoarseGridIsOnQuarters(row.off, q, s);
    }
  }

  /** The slot's own day, on the search's grid and on the recheck's. */
  lemma SameDay(off: Offset, q: Search, s: int)
    requires Accepted(q) && RegularWindow(off, q) && Offered(off, q, s)
    requires Accepted(OnQuarters(Engine.OwnDay(off, q, s)))
    ensures var own := Engine.OwnDay(off, q, s);
            && Accepted(own) && RegularWindow(off, OnQuarters(own)) && Free(off, own, Whole(DateOf(off, s)), s)
            && InWindow(OnQuarters(own), s)
  {
    hide RegularWindow, Offered, Free, DateOf, Midnight, NextDay, RegularDay, RulesValid;
    var own := Engine.OwnDay(off, q, s);
    Positive(q);
    OfferedIsFreeInWindow(off, q, s);
    DateInWindow(off, q, s);
    DayOfWindow(off, q, DateOf(off, s));
    Engine.OwnDayIsRegular(off, q, s);
    SameWindow(off, own);
    FreeIsOnItsDate(off, q, DateOf(off, s), s);
    FreeIgnores(off, q, own, s);
  }

  lemma SameWindow(off: Offset, q: Search)
    requires RegularWindow(off, q)
    ensures RegularWindow(off, OnQuarters(q))
  {
    hide RegularDays, DateOf;
  }

  lemma OwnQuarter(off: Offset, q: Search, s: int)
    requires Accepted(q)
    ensures OnQuarter(off, Engine.OwnDay(off, q, s), s) <==> OnQuarter(off, q, s)
  {
    hide DaySpans, IsRun, DateOf, Midnight, NextDay, RulesValid;
    var own := Engine.OwnDay(off, q, s);
    assert forall p :: IsPeriod(off, q, Whole(DateOf(off, s)), p) <==> IsPeriod(off, own, Whole(DateOf(off, s)), p);
    assert forall p :: OnGridOf(OnQuarters(q), p, s) <==> OnGridOf(OnQuarters(own), p, s);
  }

  // ---- the search on the tables ----

  /** An eligible staff member and the catalog row. */
  datatype Candidate = Candidate(id: string, row: Staff)

  function WindowQuery(req: Request, c: Candidate): Search {
    Search(req.service, c.id, req.from, req.to, c.row.rules, [], req.interval, 0)
  }

  ghost predicate Candidates(req: Request, staff: seq<Candidate>) {
    && (RequestValid(req) ==> forall i :: 0 <= i < |staff| ==> GoesForward(staff[i].row.off, req.from, req.to))
    && (forall i, j :: 0 <= i < j < |staff| ==> staff[i].id != staff[j].id)
  }

  /** On offer for the candidate on the tables as they are. */
  ghost predicate OnTables(req: Request, c: Candidate, bookings: map<string, Booking>, x: Slot) {
    && Accepted(WindowQuery(req, c)) && x == SlotAt(WindowQuery(req, c), x.start)
    && Available(c.row, bookings, WindowQuery(req, c), x.start)
  }

  /** The recheck of a create on the same tables accepts the slot, if it can be answered. */
  ghost predicate Bookable(req: Request, c: Candidate, bookings: map<string, Booking>, s: int) {
    var q := DayQuery(req.service, c.id, c.row, s);
    Checkable(c.row, bookings, q) ==> Available(c.row, bookings, q, s)
  }

  /** The slot is the candidate's, and bookable if the window's dates are regular there. */
  ghost predicate Accepts(req: Request, c: Candidate, bookings: map<string, Booking>, x: Slot) {
    c.id == x.staff && (RegularWindow(c.row.off, WindowQuery(req, c)) ==> Bookable(req, c, bookings, x.start))
  }

  /** FindSlots of the repository with the rows loaded for the window: every slot it returns is
      on offer on the tables and, on a grid of whole quarters and regular dates, passes the
      recheck. */
  method SearchTables(req: Request, staff: seq<Candidate>, bookings: map<string, Booking>) returns (r: SlotMerge.Outcome)
    requires Candidates(req, staff)
    ensures r.Found? ==> forall x :: x in r.slots ==> exists i :: 0 <= i < |staff| && OnTables(req, staff[i], bookings, x)
    ensures r.Found? && (if req.interval == 0 then QUARTER else req.interval) % QUARTER == 0 ==>
              forall x :: x in r.slots ==> exists i :: 0 <= i < |staff| && Accepts(req, staff[i], bookings, x)
    ensures r.NotFound? <==> RequestValid(req) && staff == []
  {
    hide RegularWindow, Available, BusyIs, Reached, Accepted, OnTables, Bookable, DayQuery, GoesForward, OfferedBy;
    var members: seq<Member> := [];
    for k := 0 to |staff|
      invariant |members| == k
      invariant forall i :: 0 <= i < k ==> MemberOf(req, staff[i], bookings, members[i])
    {
      var busy := BookingRepository.LoadBusy(staff[k].row, bookings, WindowQuery(req, staff[k]));
      members := members + [Member(staff[k].id, staff[k].row.off, staff[k].row.rules, busy)];
    }
    MembersAreARoster(req, staff, bookings, members);
    r := FindSlotsOfAll(req, members);
    if r.Found? {
      forall x | x in r.slots
        ensures exists i :: 0 <= i < |staff| && OnTables(req, staff[i], bookings, x)
        ensures (if req.interval == 0 then QUARTER else req.interval) % QUARTER == 0 ==>
                  exists i :: 0 <= i < |staff| && Accepts(req, staff[i], bookings, x)
      {
        var i :| 0 <= i < |members| && OfferedBy(req, members[i], x);
        MemberOffers(req, staff[i], bookings, members[i], x);
        if (if req.interval == 0 then QUARTER else req.interval) % QUARTER == 0 && RegularWindow(staff[i].row.off, WindowQuery(req, staff[i])) {
          OnTablesIsBookable(req, staff[i], bookings, x);
        }
        assert (if req.interval == 0 then QUARTER else req.interval) % QUARTER == 0 ==> Accepts(req, staff[i], bookings, x);
      }
    }
  }

  /** The member the search sees: its row, with what is busy loaded for the window. */
  ghost predicate MemberOf(req: Request, c: Candidate, bookings: map<string, Booking>, m: Member) {
    m == Member(c.id, c.row.off, c.row.rules, m.busy) && BusyIs(c.row, bookings, WindowQuery(req, c), m.busy)
  }

  lemma MembersAreARoster(req: Request, staff: seq<Candidate>, bookings: map<string, Booking>, members: seq<Member>)
    requires Candidates(req, staff) && |members| == |staff|
    requires forall i :: 0 <= i < |staff| ==> MemberOf(req, staff[i], bookings, members[i])
    ensures Roster(req, members)
  {
    hide GoesForward, BusyIs;
    if RequestValid(req) {
      forall i | 0 <= i < |members|
        ensures GoesForward(members[i].off, req.from, req.to)
      {
        assert MemberOf(req, staff[i], bookings, members[i]);
        assert GoesForward(staff[i].row.off, req.from, req.to);
      }
    }
    forall i, j | 0 <= i < j < |members|
      ensures members[i].id != members[j].id
    {
      assert MemberOf(req, staff[i], bookings, members[i]) && MemberOf(req, staff[j], bookings, members[j]);
    }
  }

  lemma MemberOffers(req: Request, c: Candidate, bookings: map<string, Booking>, m: Member, x: Slot)
    requires MemberOf(req, c, bookings, m) && OfferedBy(req, m, x)
    ensures OnTables(req, c, bookings, x) && x.staff == c.id
  {
    hide BusyIs, Reached, Available, Accepted, Checkable, AllBusyValid;
    var q := WindowQuery(req, c);
    assert QueryFor(req, m, 0) == q.(busy := m.busy);
    BookingRepository.AcceptedIgnoresBusy(q, m.busy);
    BookingRepository.RecheckMeansAvailable(c.row, bookings, q, m.busy, x.start);
  }

  lemma OnTablesIsBookable(req: Request, c: Candidate, bookings: map<string, Booking>, x: Slot)
    requires RegularWindow(c.row.off, WindowQuery(req, c)) && OnTables(req, c, bookings, x)
    requires (if req.interval == 0 then QUARTER else req.interval) % QUARTER == 0
    ensures Bookable(req, c, bookings, x.start)
  {
    hide RegularWindow, Available, Accepted, DayQuery, OnQuarter, Loaded;
    var q := WindowQuery(req, c);
    if Accepted(DayQuery(q.service, q.staff, c.row, x.start)) {
      OfferPassesRecheckIff(c.row, bookings, q, x.start);
    }
  }

  // ---- a finer grid ----

  const OPEN := Staff(CrowdedDay.ANA.off, "UTC", [CrowdedDay.ALL_DAY], [])

  /** With a slot every minute, one is offered that the recheck refuses on the same tables. */
  lemma {:induction false} FinerGridIsRefused() returns (q: Search, s: int)
    ensures q.busy == [] && q.rules == OPEN.rules && Accepted(q) && RegularWindow(OPEN.off, q)
    ensures Available(OPEN, map[], q, s)
    ensures Accepted(DayQuery(q.service, q.staff, OPEN, s)) && !Available(OPEN, map[], DayQuery(q.service, q.staff, OPEN, s), s)
  {
    q, s := CrowdedDay.QUERY, CrowdedDay.Minute(1);
    CrowdedDay.QueryIsAnswerable();
    CrowdedDay.AnaIsARoster();
    CrowdedDay.EveryMinuteIsOffered(1);
    Engine.ReachedIsOffered(OPEN.off, q, s);
    NothingLoaded(q);
    FixedDay(q, s);
    hide Offered, Reached, DaySpans, DayQuery, OnQuarter, RulesValid, Loaded, RegularDays;
    OfferPassesRecheckIff(OPEN, map[], q, s);
    NotOnQuarter(q, s);
  }

  lemma NothingLoaded(q: Search)
    ensures forall b :: !Loaded(OPEN.blocks, map[], q.staff, q.from, q.to, b)
  {
  }

  lemma FixedDay(q: Search, s: int)
    requires q == CrowdedDay.QUERY && s == CrowdedDay.Minute(1)
    ensures DateOf(OPEN.off, s) == 1 && Accepted(DayQuery(q.service, q.staff, OPEN, s))
  {
    FixedIsRegular(0, 1, 2);
    hide RegularAt;
    NextDayIsMidnight(OPEN.off, 1);
    CrowdedDay.QueryIsAnswerable();
  }

  lemma NotOnQuarter(q: Search, s: int)
    requires q == CrowdedDay.QUERY && s == CrowdedDay.Minute(1) && DateOf(OPEN.off, s) == 1 && RulesValid(q.rules)
    ensures !OnQuarter(OPEN.off, q, s)
  {
    CrowdedDay.WholeDayIsOpen();
    hide DaySpans, DateOf, RulesValid;
    forall p | IsPeriod(OPEN.off, q, Whole(1), p)
      ensures p == Interval(DAY, 2 * DAY)
    {
      OneRun(DaySpans(OPEN.off, Whole(1), q.rules, Working), Interval(DAY, 2 * DAY), p);
    }
  }

  lemma OneRun(items: seq<Interval>, whole: Interval, p: Interval)
    requires items == [whole] && Proper(whole) && IsRun(items, p)
    ensures p == whole
  {
    forall t
      ensures Covers(items, t) <==> Within(whole, t)
    {
      if Within(whole, t) { assert Within(items[0], t); }
    }
    assert Within(p, p.start) && Within(p, p.end - 1);
  }
}

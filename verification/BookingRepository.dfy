/** The transactions of internal/scheduling/repository.go as methods on the tables: each
    works on copies of the tables and stores them only when it commits. */
module BookingRepository {
  import opened Domain
  import opened Intervals
  import opened Zones
  import opened Availability
  import Engine
  import Q = JobQueue
  import opened Bookings
  import opened BookingProofs
  import opened BookingEffects

  // ---- loading what is busy ----

  /** loadBusy: blocks and live bookings near the window, in no particular order. */
  method LoadBusy(row: Staff, bookings: map<string, Booking>, q: Search) returns (busy: seq<Busy>)
    ensures BusyIs(row, bookings, q, busy)
  {
    busy := [];
    for k := 0 to |row.blocks|
      invariant forall b :: b in busy <==> BlockLoaded(row.blocks[..k], q.from, q.to, b)
    {
      var block := row.blocks[k];
      if block.start < q.to + PADDING && q.from - PADDING < block.end {
        busy := busy + [Busy(block.start, block.end, 0, 0)];
      }
      NextBlock(row.blocks, k, q.from, q.to);
    }
    assert row.blocks[..|row.blocks|] == row.blocks;
    var rest := bookings.Keys;
    while rest != {}
      invariant rest <= bookings.Keys
      invariant forall b :: b in busy <==>
                  BlockLoaded(row.blocks, q.from, q.to, b) || BookingLoaded(bookings, bookings.Keys - rest, q, b)
      decreases rest
    {
      var id :| id in rest;
      if LoadedBooking(bookings[id], q.staff, q.from, q.to) {
        busy := busy + [BusyOf(bookings[id])];
      }
      NextBooking(bookings, bookings.Keys - rest, q, id);
      rest := rest - {id};
      assert bookings.Keys - rest == bookings.Keys - (rest + {id}) + {id};
    }
    hide LoadedBooking;
    forall b
      ensures b in busy <==> Loaded(row.blocks, bookings, q.staff, q.from, q.to, b)
    {
      LoadedEitherWay(row, bookings, q, b);
    }
  }

  ghost predicate BlockLoaded(blocks: seq<Interval>, from: int, to: int, b: Busy) {
    exists i :: 0 <= i < |blocks| && b == Busy(blocks[i].start, blocks[i].end, 0, 0)
                && blocks[i].start < to + PADDING && from - PADDING < blocks[i].end
  }

  ghost predicate BookingLoaded(bookings: map<string, Booking>, ids: set<string>, q: Search, b: Busy) {
    exists id :: id in ids && id in bookings && LoadedBooking(bookings[id], q.staff, q.from, q.to) && b == BusyOf(bookings[id])
  }

  lemma LoadedEitherWay(row: Staff, bookings: map<string, Booking>, q: Search, b: Busy)
    ensures Loaded(row.blocks, bookings, q.staff, q.from, q.to, b) <==>
            BlockLoaded(row.blocks, q.from, q.to, b) || BookingLoaded(bookings, bookings.Keys, q, b)
  {
    hide LoadedBooking, BusyOf;
  }

  lemma NextBlock(blocks: seq<Interval>, k: nat, from: int, to: int)
    requires k < |blocks|
    ensures forall b :: BlockLoaded(blocks[..k + 1], from, to, b) <==>
              || BlockLoaded(blocks[..k], from, to, b)
              || (b == Busy(blocks[k].start, blocks[k].end, 0, 0) && blocks[k].start < to + PADDING && from - PADDING < blocks[k].end)
  {
    forall b
      ensures BlockLoaded(blocks[..k + 1], from, to, b) <==>
                || BlockLoaded(blocks[..k], from, to, b)
                || (b == Busy(blocks[k].start, blocks[k].end, 0, 0) && blocks[k].start < to + PADDING && from - PADDING < blocks[k].end)
    {
      assert blocks[..k + 1][k] == blocks[k];
      assert forall i | 0 <= i < k :: blocks[..k + 1][i] == blocks[..k][i];
    }
  }

  lemma NextBooking(bookings: map<string, Booking>, ids: set<string>, q: Search, id: string)
    requires id in bookings
    ensures forall b :: BookingLoaded(bookings, ids + {id}, q, b) <==>
              || BookingLoaded(bookings, ids, q, b)
              || (LoadedBooking(bookings[id], q.staff, q.from, q.to) && b == BusyOf(bookings[id]))
  {
    hide LoadedBooking, BusyOf;
  }

  // ---- the recheck ----

  lemma ReachedWithBusy(off: Offset, q: Search, busy: seq<Busy>, s: int)
    requires Accepted(q) && q.busy == []
    ensures Accepted(q.(busy := busy))
    ensures Reached(off, q.(busy := busy), s) <==> Reached(off, q, s) && !Touches(Occupied(q.service, s), BusySpans(busy))
  {
    hide DaySpans, Touches, IsRun, DateOf, RulesValid, Occupied, BusySpans, WalksBy;
    var r := q.(busy := busy);
    assert !Touches(Occupied(q.service, s), BusySpans([])) by { NothingBusy(Occupied(q.service, s)); }
    forall d
      ensures Free(off, r, d, s) <==> Free(off, q, d, s) && !Touches(Occupied(q.service, s), BusySpans(busy))
    {
      assert forall p :: IsPeriod(off, q, d, p) <==> IsPeriod(off, r, d, p);
      assert forall p :: OnGridOf(q, p, s) <==> OnGridOf(r, p, s);
    }
  }

  lemma NothingBusy(o: Interval)
    ensures !Touches(o, BusySpans([]))
  {
  }

  lemma TouchesBusy(o: Interval, busy: seq<Busy>)
    ensures Touches(o, BusySpans(busy)) <==> exists b :: b in busy && Overlap(o, BusySpan(b))
  {
    var spans := BusySpans(busy);
    if Touches(o, spans) {
      var i :| 0 <= i < |spans| && Overlap(o, spans[i]);
      assert busy[i] in busy && Overlap(o, BusySpan(busy[i]));
    }
    if b :| b in busy && Overlap(o, BusySpan(b)) {
      var i :| 0 <= i < |busy| && busy[i] == b;
      assert Overlap(o, spans[i]);
    }
  }

  /** The engine, run on the rows loaded, decides availability as the specification states it. */
  lemma RecheckMeansAvailable(row: Staff, bookings: map<string, Booking>, q: Search, busy: seq<Busy>, s: int)
    requires q.busy == [] && BusyIs(row, bookings, q, busy)
    ensures Answerable(q.(busy := busy)) <==> Checkable(row, bookings, q)
    ensures Accepted(q) ==> Accepted(q.(busy := busy))
    ensures Accepted(q) ==> (Reached(row.off, q.(busy := busy), s) <==> Available(row, bookings, q, s))
  {
    hide Loaded, Reached, Overlap, Occupied, BusySpan, BusyValid, RulesValid;
    assert AllBusyValid(busy) <==> forall b :: b in busy ==> BusyValid(b);
    TouchesBusy(Occupied(q.service, s), busy);
    if Accepted(q) {
      ReachedWithBusy(row.off, q, busy, s);
    }
  }

  lemma OwnDayIsDayQuery(service: Service, staff: string, row: Staff, s: int, busy: seq<Busy>)
    ensures Engine.OwnDay(row.off, DayQuery(service, staff, row, s).(busy := busy), s) == DayQuery(service, staff, row, s).(busy := busy)
  {
  }

  /** The locked recheck of the create transaction: None where the engine reports an error. */
  method Recheck(service: Service, staff: string, row: Staff, bookings: map<string, Booking>, s: int) returns (r: Option<bool>)
    requires DayGoesForward(row.off, s)
    ensures var q := DayQuery(service, staff, row, s);
            && (r.Some? <==> Checkable(row, bookings, q))
            && (r.Some? ==> (r.value <==> Available(row, bookings, q, s)))
  {
    hide Checkable, Available, Offered, Reached, BusyIs, GoesForward, Accepted, DayQuery, AllBusyValid;
    var q := DayQuery(service, staff, row, s);
    var busy := LoadBusy(row, bookings, q);
    assert q.busy == [] by { NoBusyYet(service, staff, row, s); }
    RecheckMeansAvailable(row, bookings, q, busy, s);
    OwnDayIsDayQuery(service, staff, row, s, busy);
    AcceptedIgnoresBusy(q, busy);
    r := Engine.IsAvailable(row.off, q.(busy := busy), s);
  }

  lemma NoBusyYet(service: Service, staff: string, row: Staff, s: int)
    ensures DayQuery(service, staff, row, s).busy == []
  {
  }

  lemma AcceptedIgnoresBusy(q: Search, busy: seq<Busy>)
    ensures Accepted(q) <==> Accepted(q.(busy := busy))
    ensures Answerable(q.(busy := busy)) ==> Accepted(q)
  {
  }

  // ---- the transactions ----

  /** For the transactions that read no catalog row. */
  const NO_CATALOG := Catalog(map[], map[], {})

  lemma KeepsExclusive(cat: Catalog, db: Db, a: Action)
    requires Enabled(db, a)
    ensures Exclusive(db.bookings) ==> Exclusive(Perform(cat, db, a).db.bookings)
  {
    hide Perform, Enabled, Exclusive;
    if Exclusive(db.bookings) {
      StaysExclusive(cat, db, a);
    }
  }

  class Repository {
    var bookings: map<string, Booking>
    var records: map<RecordKey, Record>
    var queue: Q.Queue

    ghost function Contents(): Db
      reads this
    {
      Db(bookings, records, queue)
    }

    method CreateBookingOnce(cat: Catalog, req: CreateRequest, now: int, dbNow: int, ids: Ids) returns (outcome: Outcome)
      requires FreshIds(Contents(), ids)
      requires req.staff in cat.staff ==> DayGoesForward(cat.staff[req.staff].off, req.start)
      modifies this
      ensures Result(Contents(), outcome) == Create(cat, old(Contents()), req, now, dbNow, ids)
      ensures !outcome.Done? ==> Contents() == old(Contents())
      ensures outcome.Done? ==>
                && now < req.start && outcome == Done(ids.booking)
                && CreatedFor(cat, old(Contents()), Contents(), RecordKey(OpCreate, req.customer, req.key),
                              CreateDigest(req.customer, req.conversation, req.service, req.staff, req.start, req.notes), ids,
                              req.customer, req.service, req.staff, req.start, dbNow)
      ensures Exclusive(old(bookings)) ==> Exclusive(bookings)
    {
      hide Exclusive, CreatedFor;
      CreateEffect(cat, Contents(), req, now, dbNow, ids);
      KeepsExclusive(cat, Contents(), ACreate(req, now, dbNow, ids));
      hide DayGoesForward, Checkable, Available, DayQuery, DigestOf, WithJobs, Q.Inv;
      if !CreateComplete(req) { return InvalidInput; }
      if req.start <= now { return SlotUnavailable; }
      if !KeyFits(req.key) || 500 < |req.notes| { return InvalidInput; }
      var rk := RecordKey(OpCreate, req.customer, req.key);
      if rk in records {
        return Recorded(Db(bookings, records, queue), rk, DigestOf(req));
      }
      var newRecords := records[rk := Record(DigestOf(req), None)];
      if !Offers(cat, req.service, req.staff) { return NotFound; }
      if req.start <= dbNow { return SlotUnavailable; }
      var service, row := cat.services[req.service], cat.staff[req.staff];
      var free := Recheck(service, req.staff, row, bookings, req.start);
      if free.None? { return InvalidInput; }
      if !free.value { return SlotUnavailable; }
      outcome := Commit(rk, newRecords, DigestOf(req), NewBooking(req.customer, service, req.staff, req.start), row.zone, ids, dbNow);
    }

    method AdminCreateBookingOnce(cat: Catalog, req: AdminCreateRequest, dbNow: int, ids: Ids) returns (outcome: Outcome)
      requires FreshIds(Contents(), ids)
      modifies this
      ensures Result(Contents(), outcome) == AdminCreate(cat, old(Contents()), req, dbNow, ids)
      ensures !outcome.Done? ==> Contents() == old(Contents())
      ensures outcome.Done? ==>
                && outcome == Done(ids.booking)
                && CreatedFor(cat, old(Contents()), Contents(), RecordKey(OpAdminCreate, req.customer, req.key),
                              AdminCreateDigest(req.customer, req.service, req.staff, req.start, req.notes), ids,
                              req.customer, req.service, req.staff, req.start, dbNow)
      ensures Exclusive(old(bookings)) ==> Exclusive(bookings)
    {
      hide Exclusive, CreatedFor;
      AdminCreateEffect(cat, Contents(), req, dbNow, ids);
      KeepsExclusive(cat, Contents(), AAdminCreate(req, dbNow, ids));
      hide WithJobs;
      if !AdminCreateValid(req) { return InvalidInput; }
      var rk := RecordKey(OpAdminCreate, req.customer, req.key);
      var digest := AdminCreateDigest(req.customer, req.service, req.staff, req.start, req.notes);
      if rk in records {
        return Recorded(Db(bookings, records, queue), rk, digest);
      }
      var newRecords := records[rk := Record(digest, None)];
      if !Offers(cat, req.service, req.staff) { return NotFound; }
      if req.start <= dbNow { return SlotUnavailable; }
      var b := NewBooking(req.customer, cat.services[req.service], req.staff, req.start);
      outcome := Commit(rk, newRecords, digest, b, cat.staff[req.staff].zone, ids, dbNow);
    }

    /** Insert the row, enqueue its jobs, finish the record, commit. */
    method Commit(rk: RecordKey, reserved: map<RecordKey, Record>, digest: Digest, b: Booking, zone: string, ids: Ids, now: int)
      returns (outcome: Outcome)
      requires reserved == records[rk := Record(digest, None)] && rk !in records && FreshIds(Contents(), ids)
      modifies this
      ensures Result(Contents(), outcome) == Insert(old(Contents()), rk, digest, b, zone, ids, now)
      ensures outcome == if Violates(old(bookings), ids.booking, b) then ConstraintViolated else Done(ids.booking)
      ensures if outcome.Done? then Appears(old(Contents()), Contents(), rk, digest, ids, zone, now) && bookings[ids.booking] == b
              else Contents() == old(Contents())
    {
      hide Violates, Appears;
      InsertEffect(Contents(), rk, digest, b, zone, ids, now);
      if Violates(bookings, ids.booking, b) { return ConstraintViolated; }
      var jobs := queue.jobs;
      jobs := Q.EnqueueRow(jobs, ids.reminder,
                           NewJob(ids.booking, Q.SendReminder, ReminderKey(ids.booking), now, Q.Seconds(b.start), zone));
      jobs := Q.EnqueueRow(jobs, ids.crm, NewJob(ids.booking, Q.CrmUpsert, CrmKey(ids.booking), now, 0, ""));
      bookings := bookings[ids.booking := b];
      records := reserved[rk := Record(digest, Some(ids.booking))];
      queue := queue.(jobs := jobs);
      return Done(ids.booking);
    }

    method RescheduleBookingOnce(req: MoveRequest) returns (outcome: Outcome)
      modifies this
      ensures Result(Contents(), outcome) == Move(old(Contents()), req)
      ensures !outcome.Done? ==> Contents() == old(Contents())
      ensures outcome.Done? ==>
                && Rescheduled(old(Contents()), Contents(), req.booking, req.start, req.end, req.zone)
                && old(bookings)[req.booking].customer == req.owner
                && records == if req.key == "" then old(records)
                              else old(records)[RecordKey(OpMove, req.owner, req.key) :=
                                                  Record(MoveDigest(req.booking, req.start, req.end), Some(req.booking))]
      ensures Exclusive(old(bookings)) ==> Exclusive(bookings)
    {
      hide Exclusive;
      MoveEffect(Contents(), req);
      KeepsExclusive(NO_CATALOG, Contents(), AMove(req));
      hide Violates, Q.MoveRows;
      if !MoveValid(req) { return InvalidInput; }
      var rk := RecordKey(OpMove, req.owner, req.key);
      var digest := MoveDigest(req.booking, req.start, req.end);
      var newRecords := records;
      if req.key != "" {
        if !KeyFits(req.key) { return DatabaseError; }
        if rk in records {
          return Recorded(Db(bookings, records, queue), rk, digest);
        }
        newRecords := newRecords[rk := Record(digest, None)];
      }
      if req.booking !in bookings || bookings[req.booking].customer != req.owner { return NotFound; }
      var current := bookings[req.booking];
      if current.status != Confirmed { return StateConflict; }
      var updated := current.(start := req.start, end := req.end, version := current.version + 1);
      if Violates(bookings, req.booking, updated) { return ConstraintViolated; }
      if req.key != "" {
        newRecords := newRecords[rk := Record(digest, Some(req.booking))];
      }
      bookings, records := bookings[req.booking := updated], newRecords;
      queue := queue.(jobs := Q.MoveRows(queue.jobs, req.booking, req.start, req.zone));
      return Done(req.booking);
    }

    method AdminRescheduleBookingOnce(cat: Catalog, req: AdminMoveRequest) returns (outcome: Outcome)
      modifies this
      ensures Result(Contents(), outcome) == AdminMove(cat, old(Contents()), req)
      ensures !outcome.Done? ==> Contents() == old(Contents())
      ensures outcome.Done? ==>
                && req.booking in old(bookings) && old(bookings)[req.booking].version == req.expected
                && old(bookings)[req.booking].staff in cat.staff
                && Rescheduled(old(Contents()), Contents(), req.booking, req.start,
                               req.start + (old(bookings)[req.booking].end - old(bookings)[req.booking].start),
                               cat.staff[old(bookings)[req.booking].staff].zone)
                && records == old(records)[RecordKey(OpAdminMove, req.booking, req.key) :=
                                             Record(AdminMoveDigest(req.booking, req.start), Some(req.booking))]
      ensures Exclusive(old(bookings)) ==> Exclusive(bookings)
    {
      hide Exclusive;
      AdminMoveEffect(cat, Contents(), req);
      KeepsExclusive(cat, Contents(), AAdminMove(req));
      hide Violates, Q.MoveRows;
      if req.booking == "" || req.start == ZERO_TIME || req.expected <= 0 || !KeyFits(req.key) { return InvalidInput; }
      var rk := RecordKey(OpAdminMove, req.booking, req.key);
      var digest := AdminMoveDigest(req.booking, req.start);
      if rk in records {
        return Recorded(Db(bookings, records, queue), rk, digest);
      }
      if req.booking !in bookings { return NotFound; }
      var current := bookings[req.booking];
      if current.version != req.expected { return VersionConflict; }
      if current.status != Confirmed { return StateConflict; }
      var end := req.start + (current.end - current.start);
      if current.staff !in cat.staff { return DatabaseError; }
      var updated := current.(start := req.start, end := end, version := current.version + 1);
      if Violates(bookings, req.booking, updated) { return ConstraintViolated; }
      bookings, records := bookings[req.booking := updated], records[rk := Record(digest, Some(req.booking))];
      queue := queue.(jobs := Q.MoveRows(queue.jobs, req.booking, req.start, cat.staff[current.staff].zone));
      return Done(req.booking);
    }

    method CancelBookingOnce(req: CancelRequest) returns (outcome: Outcome)
      modifies this
      ensures Result(Contents(), outcome) == CancelOwn(old(Contents()), req)
      ensures outcome.Done? ==>
                && Silenced(old(Contents()), Contents(), req.booking) && old(bookings)[req.booking].customer == req.owner
                && records == if req.key == "" then old(records)
                              else old(records)[RecordKey(OpCancel, req.owner, req.key) :=
                                                  Record(CancelDigest("cancel:" + req.booking + ":" + req.reason), Some(req.booking))]
      ensures !outcome.Done? ==>
                && bookings == old(bookings) && queue == old(queue)
                && records == if RecordKey(OpCancel, req.owner, req.key) !in old(records) && CancelsTheCancelled(old(Contents()), req)
                              then old(records)[RecordKey(OpCancel, req.owner, req.key) :=
                                                  Record(CancelDigest("cancel:" + req.booking + ":" + req.reason), None)]
                              else old(records)
      ensures Exclusive(old(bookings)) ==> Exclusive(bookings)
    {
      hide Exclusive;
      CancelEffect(Contents(), req);
      KeepsExclusive(NO_CATALOG, Contents(), ACancel(req));
      assert CancelText(req.booking, req.reason) == "cancel:" + req.booking + ":" + req.reason;
      hide Q.CancelRows, CancelText;
      if req.booking == "" || req.owner == "" || req.reason == "" { return InvalidInput; }
      var rk := RecordKey(OpCancel, req.owner, req.key);
      var digest := CancelDigest(CancelText(req.booking, req.reason));
      var newRecords := records;
      if req.key != "" {
        if !KeyFits(req.key) || !DigestFits(digest.text) { return DatabaseError; }
        if rk in records {
          return Recorded(Db(bookings, records, queue), rk, digest);
        }
        newRecords := newRecords[rk := Record(digest, None)];
      }
      if req.booking !in bookings || bookings[req.booking].customer != req.owner { return NotFound; }
      var current := bookings[req.booking];
      if current.status == Cancelled {
        records := newRecords;
        return Replayed(req.booking);
      }
      if current.status != Confirmed { return StateConflict; }
      if 500 < |req.reason| { return DatabaseError; }
      var cancelled := current.(status := Cancelled, version := current.version + 1);
      if req.key != "" {
        newRecords := newRecords[rk := Record(digest, Some(req.booking))];
      }
      bookings, records := bookings[req.booking := cancelled], newRecords;
      queue := queue.(jobs := Q.CancelRows(queue.jobs, req.booking, Some(Q.SendReminder)));
      return Done(req.booking);
    }

    method AdminCancelBookingOnce(req: AdminCancelRequest) returns (outcome: Outcome)
      modifies this
      ensures Result(Contents(), outcome) == AdminCancel(old(Contents()), req)
      ensures !outcome.Done? ==> Contents() == old(Contents())
      ensures outcome.Done? ==>
                && Silenced(old(Contents()), Contents(), req.booking)
                && old(bookings)[req.booking].version == req.expected && records == old(records)
      ensures Exclusive(old(bookings)) ==> Exclusive(bookings)
    {
      hide Exclusive;
      AdminCancelEffect(Contents(), req);
      KeepsExclusive(NO_CATALOG, Contents(), AAdminCancel(req));
      hide Q.CancelRows;
      if req.booking == "" || req.reason == "" || req.expected <= 0 || 500 < |req.reason| || !KeyFits(req.key) {
        return InvalidInput;
      }
      if req.booking !in bookings { return NotFound; }
      var current := bookings[req.booking];
      if current.status == Cancelled { return Replayed(req.booking); }
      if current.version != req.expected { return VersionConflict; }
      if current.status != Confirmed { return StateConflict; }
      bookings := bookings[req.booking := current.(status := Cancelled, version := current.version + 1)];
      queue := queue.(jobs := Q.CancelRows(queue.jobs, req.booking, Some(Q.SendReminder)));
      return Done(req.booking);
    }
  }
}

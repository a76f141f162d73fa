/** When a booking transaction succeeds and why it is refused, in terms of the request, the
    rows and the staff member's time (internal/scheduling/repository.go). */
module BookingOutcomes {
  import opened Domain
  import opened Intervals
  import opened Availability
  import Q = JobQueue
  import opened Bookings
  import opened BookingProofs

  // ---- overlapping rows ----

  /** Two rows do not compete: different staff, one cancelled, or buffered times that do not overlap. */
  predicate Apart(a: Booking, b: Booking) {
    || a.staff != b.staff || a.status == Cancelled || b.status == Cancelled
    || a.end + a.after <= b.start - b.before || b.end + b.after <= a.start - a.before
  }

  predicate RoomFor(bookings: map<string, Booking>, id: string, b: Booking) {
    forall other :: other in bookings && other != id ==> Apart(bookings[other], b)
  }

  lemma RoomIff(bookings: map<string, Booking>, id: string, b: Booking)
    ensures Violates(bookings, id, b) <==> !RoomFor(bookings, id, b)
  {
    forall other | other in bookings
      ensures Collide(bookings[other], b) <==> !Apart(bookings[other], b)
    {
    }
  }

  /** In every run two live bookings of a staff member stay apart, buffers included. */
  lemma {:induction false} LiveBookingsStayApart(cat: Catalog, db: Db, actions: seq<Action>, i: string, j: string)
    requires forall x, y :: x in db.bookings && y in db.bookings && x != y ==> Apart(db.bookings[x], db.bookings[y])
    requires Legal(cat, db, actions)
    requires i in Run(cat, db, actions).bookings && j in Run(cat, db, actions).bookings && i != j
    ensures Apart(Run(cat, db, actions).bookings[i], Run(cat, db, actions).bookings[j])
  {
    hide Run, Legal;
    forall x, y | x in db.bookings && y in db.bookings && x != y
      ensures !Collide(db.bookings[x], db.bookings[y])
    {
      assert Apart(db.bookings[x], db.bookings[y]);
    }
    NoDoubleBooking(cat, db, actions);
    assert !Collide(Run(cat, db, actions).bookings[i], Run(cat, db, actions).bookings[j]);
  }

  // ---- the staff member's time ----

  /** The recheck says yes exactly when the engine reaches the slot and neither a block nor a live
      booking of the staff member touches the time it takes, buffers included. */
  lemma {:induction false} AvailableIff(row: Staff, bookings: map<string, Booking>, q: Search, s: int)
    requires Accepted(q) && q.busy == []
    ensures var from, to := s - q.service.bufferBefore, s + q.service.duration + q.service.bufferAfter;
            Available(row, bookings, q, s) <==>
            && Reached(row.off, q, s)
            && (forall i :: 0 <= i < |row.blocks| ==> row.blocks[i].end <= from || to <= row.blocks[i].start)
            && (forall id :: id in bookings && bookings[id].staff == q.staff && bookings[id].status != Cancelled ==>
                  bookings[id].end + bookings[id].after <= from || to <= bookings[id].start - bookings[id].before)
  {
    hide Reached, Accepted;
    if Reached(row.off, q, s) {
      OccupiedWithinPadding(row.off, q, s);
      var from, to := s - q.service.bufferBefore, s + q.service.duration + q.service.bufferAfter;
      if Available(row, bookings, q, s) {
        forall i | 0 <= i < |row.blocks|
          ensures row.blocks[i].end <= from || to <= row.blocks[i].start
        {
          BlockInTheWay(row, bookings, q, s, i);
        }
        forall id | id in bookings && bookings[id].staff == q.staff && bookings[id].status != Cancelled
          ensures bookings[id].end + bookings[id].after <= from || to <= bookings[id].start - bookings[id].before
        {
          BookingInTheWay(row, bookings, q, s, id);
        }
      }
    }
  }

  lemma BlockInTheWay(row: Staff, bookings: map<string, Booking>, q: Search, s: int, i: nat)
    requires Accepted(q) && Available(row, bookings, q, s) && i < |row.blocks|
    requires q.from - PADDING <= Occupied(q.service, s).start < Occupied(q.service, s).end <= q.to + PADDING
    ensures row.blocks[i].end <= s - q.service.bufferBefore || s + q.service.duration + q.service.bufferAfter <= row.blocks[i].start
  {
    hide Reached, Accepted;
    var b := Busy(row.blocks[i].start, row.blocks[i].end, 0, 0);
    if row.blocks[i].start < q.to + PADDING && q.from - PADDING < row.blocks[i].end {
      assert Loaded(row.blocks, bookings, q.staff, q.from, q.to, b);
      assert !Overlap(Occupied(q.service, s), BusySpan(b));
    }
  }

  lemma BookingInTheWay(row: Staff, bookings: map<string, Booking>, q: Search, s: int, id: string)
    requires Accepted(q) && Available(row, bookings, q, s)
    requires id in bookings && bookings[id].staff == q.staff && bookings[id].status != Cancelled
    requires q.from - PADDING <= Occupied(q.service, s).start < Occupied(q.service, s).end <= q.to + PADDING
    ensures || bookings[id].end + bookings[id].after <= s - q.service.bufferBefore
            || s + q.service.duration + q.service.bufferAfter <= bookings[id].start - bookings[id].before
  {
    hide Reached, Accepted;
    var b := Busy(bookings[id].start, bookings[id].end, bookings[id].before, bookings[id].after);
    if LoadedBooking(bookings[id], q.staff, q.from, q.to) {
      assert b == BusyOf(bookings[id]);
      assert Loaded(row.blocks, bookings, q.staff, q.from, q.to, b);
      assert !Overlap(Occupied(q.service, s), BusySpan(b));
    }
  }

  // ---- success and refusal ----

  /** An answer that is no success has one of the reasons a keyed request can have: its key is on
      record for the same request, for another one, or for one that never finished. */
  predicate OnRecord(db: Db, rk: RecordKey, digest: Digest, outcome: Outcome) {
    && (outcome.Replayed? ==> rk in db.records && db.records[rk] == Record(digest, Some(outcome.booking)))
    && (outcome == IdempotencyConflict ==> rk in db.records && db.records[rk].digest != digest)
    && (outcome == IncompleteRecord ==> rk in db.records && db.records[rk] == Record(digest, None))
  }

  /** A customer's create succeeds exactly for a complete request with a fresh key, for a start
      that is still ahead, of a service the staff member offers, at a time the recheck accepts. */
  lemma {:induction false} CreateSucceedsIff(cat: Catalog, db: Db, req: CreateRequest, now: int, dbNow: int, ids: Ids)
    requires FreshIds(db, ids)
    ensures var rk := RecordKey(OpCreate, req.customer, req.key);
            Create(cat, db, req, now, dbNow, ids).outcome.Done? <==>
            && req.customer != "" && req.service != "" && req.staff != "" && req.start != ZERO_TIME
            && now < req.start && dbNow < req.start && 16 <= |req.key| <= 128 && |req.notes| <= 500 && rk !in db.records
            && req.service in cat.services && req.staff in cat.staff && (req.service, req.staff) in cat.eligible
            && var row := cat.staff[req.staff];
               var q := DayQuery(cat.services[req.service], req.staff, row, req.start);
               Checkable(row, db.bookings, q) && Available(row, db.bookings, q, req.start)
    ensures var outcome := Create(cat, db, req, now, dbNow, ids).outcome;
            && OnRecord(db, RecordKey(OpCreate, req.customer, req.key),
                        CreateDigest(req.customer, req.conversation, req.service, req.staff, req.start, req.notes), outcome)
            && outcome !in {ConstraintViolated, StateConflict, VersionConflict, DatabaseError}
  {
    hide Available, Checkable, DayQuery, WithJobs, Violates;
    CreateNeverHitsTheConstraint(cat, db, req, now, dbNow, ids);
  }

  /** An operator's create, without the grid: exactly where no live booking is in the way. */
  lemma {:induction false} AdminCreateSucceedsIff(cat: Catalog, db: Db, req: AdminCreateRequest, dbNow: int, ids: Ids)
    requires FreshIds(db, ids)
    ensures var rk := RecordKey(OpAdminCreate, req.customer, req.key);
            AdminCreate(cat, db, req, dbNow, ids).outcome.Done? <==>
            && req.customer != "" && req.service != "" && req.staff != "" && req.start != ZERO_TIME
            && dbNow < req.start && 16 <= |req.key| <= 128 && |req.notes| <= 500 && rk !in db.records
            && req.service in cat.services && req.staff in cat.staff && (req.service, req.staff) in cat.eligible
            && var s := cat.services[req.service];
               RoomFor(db.bookings, ids.booking,
                       Booking(req.customer, s.id, req.staff, Confirmed, req.start, req.start + s.duration, s.bufferBefore, s.bufferAfter, 1))
    ensures OnRecord(db, RecordKey(OpAdminCreate, req.customer, req.key),
                     AdminCreateDigest(req.customer, req.service, req.staff, req.start, req.notes), AdminCreate(cat, db, req, dbNow, ids).outcome)
  {
    hide WithJobs, Violates, RoomFor;
    if Offers(cat, req.service, req.staff) {
      RoomIff(db.bookings, ids.booking, NewBooking(req.customer, cat.services[req.service], req.staff, req.start));
    }
  }

  /** A customer's move succeeds exactly for a confirmed booking of their own, to a proper window
      with room for it, under no key or a fresh one. */
  lemma {:induction false} MoveSucceedsIff(db: Db, req: MoveRequest)
    ensures Move(db, req).outcome.Done? <==>
            && req.booking != "" && req.owner != "" && req.start != ZERO_TIME && req.end != ZERO_TIME && req.start < req.end
            && (req.key == "" || (16 <= |req.key| <= 128 && RecordKey(OpMove, req.owner, req.key) !in db.records))
            && req.booking in db.bookings && db.bookings[req.booking].customer == req.owner
            && db.bookings[req.booking].status == Confirmed
            && RoomFor(db.bookings, req.booking, db.bookings[req.booking].(start := req.start, end := req.end))
    ensures var outcome := Move(db, req).outcome;
            && (outcome == NotFound && (req.key == "" || RecordKey(OpMove, req.owner, req.key) !in db.records) ==>
                  req.booking !in db.bookings || db.bookings[req.booking].customer != req.owner)
            && (outcome == StateConflict ==>
                  req.booking in db.bookings && db.bookings[req.booking].customer == req.owner && db.bookings[req.booking].status != Confirmed)
            && (outcome == ConstraintViolated ==>
                  req.booking in db.bookings && !RoomFor(db.bookings, req.booking, db.bookings[req.booking].(start := req.start, end := req.end)))
            && OnRecord(db, RecordKey(OpMove, req.owner, req.key), MoveDigest(req.booking, req.start, req.end), outcome)
  {
    hide Violates, RoomFor, Q.MoveRows;
    if req.booking in db.bookings {
      var b := db.bookings[req.booking].(start := req.start, end := req.end);
      RoomIff(db.bookings, req.booking, b.(version := b.version + 1));
      VersionTakesNoRoom(db.bookings, req.booking, b, b.version + 1);
    }
  }

  lemma VersionTakesNoRoom(bookings: map<string, Booking>, id: string, b: Booking, version: int)
    ensures RoomFor(bookings, id, b) <==> RoomFor(bookings, id, b.(version := version))
  {
    assert forall other :: other in bookings ==> (Apart(bookings[other], b) <==> Apart(bookings[other], b.(version := version)));
  }

  /** An operator's move succeeds exactly against the version they saw, keeping the length. */
  lemma {:induction false} AdminMoveSucceedsIff(cat: Catalog, db: Db, req: AdminMoveRequest)
    ensures AdminMove(cat, db, req).outcome.Done? <==>
            && req.booking != "" && req.start != ZERO_TIME && 0 < req.expected && 16 <= |req.key| <= 128
            && RecordKey(OpAdminMove, req.booking, req.key) !in db.records && req.booking in db.bookings
            && var b := db.bookings[req.booking];
               && b.version == req.expected && b.status == Confirmed && b.staff in cat.staff
               && RoomFor(db.bookings, req.booking, b.(start := req.start, end := req.start + (b.end - b.start)))
    ensures var outcome := AdminMove(cat, db, req).outcome;
            && (outcome == VersionConflict ==> req.booking in db.bookings && db.bookings[req.booking].version != req.expected)
            && (outcome == StateConflict ==>
                  req.booking in db.bookings && db.bookings[req.booking].version == req.expected && db.bookings[req.booking].status != Confirmed)
            && OnRecord(db, RecordKey(OpAdminMove, req.booking, req.key), AdminMoveDigest(req.booking, req.start), outcome)
  {
    hide Violates, RoomFor, Q.MoveRows;
    if req.booking in db.bookings {
      var b := db.bookings[req.booking].(start := req.start, end := req.start + (db.bookings[req.booking].end - db.bookings[req.booking].start));
      RoomIff(db.bookings, req.booking, b.(version := b.version + 1));
      VersionTakesNoRoom(db.bookings, req.booking, b, b.version + 1);
    }
  }

  /** A customer's cancellation succeeds exactly for a confirmed booking of their own; the reason
      must fit the row, and under a key also the digest. */
  lemma {:induction false} CancelSucceedsIff(db: Db, req: CancelRequest)
    ensures CancelOwn(db, req).outcome.Done? <==>
            && req.booking != "" && req.owner != "" && 1 <= |req.reason| <= 500
            && (req.key == "" || (16 <= |req.key| <= 128 && 32 <= 8 + |req.booking| + |req.reason| <= 128
                                  && RecordKey(OpCancel, req.owner, req.key) !in db.records))
            && req.booking in db.bookings && db.bookings[req.booking].customer == req.owner && db.bookings[req.booking].status == Confirmed
    ensures var outcome := CancelOwn(db, req).outcome;
            && (outcome == StateConflict ==>
                  && req.booking in db.bookings && db.bookings[req.booking].customer == req.owner
                  && db.bookings[req.booking].status !in {Confirmed, Cancelled})
            && (outcome.Replayed? && (req.key == "" || RecordKey(OpCancel, req.owner, req.key) !in db.records) ==>
                  && outcome.booking == req.booking && req.booking in db.bookings
                  && db.bookings[req.booking].customer == req.owner && db.bookings[req.booking].status == Cancelled)
  {
    hide Q.CancelRows;
    assert |CancelText(req.booking, req.reason)| == 8 + |req.booking| + |req.reason|;
  }

  /** An operator's cancellation succeeds exactly against the version they saw. */
  lemma {:induction false} AdminCancelSucceedsIff(db: Db, req: AdminCancelRequest)
    ensures AdminCancel(db, req).outcome.Done? <==>
            && req.booking != "" && 1 <= |req.reason| <= 500 && 0 < req.expected && 16 <= |req.key| <= 128
            && req.booking in db.bookings && db.bookings[req.booking].version == req.expected
            && db.bookings[req.booking].status == Confirmed
    ensures var outcome := AdminCancel(db, req).outcome;
            && (outcome.Replayed? ==> outcome.booking == req.booking && req.booking in db.bookings && db.bookings[req.booking].status == Cancelled)
            && (outcome == VersionConflict ==> req.booking in db.bookings && db.bookings[req.booking].version != req.expected)
            && (outcome == StateConflict ==> req.booking in db.bookings && db.bookings[req.booking].status !in {Confirmed, Cancelled})
  {
    hide Q.CancelRows;
  }

  // ---- workers on the same tables ----

  /** What workers and reapers do among bookings is what they do to the queue alone. */
  lemma {:induction false} WorkRunsAsInTheQueue(cat: Catalog, db: Db, work: seq<Q.Action>)
    ensures var actions := seq(|work|, i requires 0 <= i < |work| => AWork(work[i]));
            Run(cat, db, actions) == Db(db.bookings, db.records, Q.Run(db.queue, work))
  {
    var actions := seq(|work|, i requires 0 <= i < |work| => AWork(work[i]));
    hide Q.Apply;
    if work != [] {
      var front := work[..|work| - 1];
      WorkRunsAsInTheQueue(cat, db, front);
      assert actions[..|work| - 1] == seq(|front|, i requires 0 <= i < |front| => AWork(front[i]));
    }
  }
}

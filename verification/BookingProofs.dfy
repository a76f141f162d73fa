/** No double booking, lasting answers to repeated requests, and what the recheck of the
    customer's create path guarantees on its own. */
module BookingProofs {
  import opened Domain
  import opened Intervals
  import opened Zones
  import opened Availability
  import Q = JobQueue
  import opened Bookings

  // ---- no double booking ----

  ghost predicate Exclusive(bookings: map<string, Booking>) {
    forall i, j :: i in bookings && j in bookings && i != j ==> !Collide(bookings[i], bookings[j])
  }

  /** A row may change only from confirmed, to a later version of the same appointment. */
  predicate LaterVersion(a: Booking, b: Booking) {
    && a.status == Confirmed && b.status in {Confirmed, Cancelled} && b.version == a.version + 1
    && b == a.(status := b.status, start := b.start, end := b.end, version := b.version)
    && (b.status == Cancelled ==> b.start == a.start && b.end == a.end)
  }

  ghost predicate RowWritten(x: map<string, Booking>, y: map<string, Booking>, id: string, b: Booking) {
    y == x[id := b] && (Live(b) ==> !Violates(x, id, b)) && (id in x ==> LaterVersion(x[id], b))
  }

  ghost predicate BookingChange(x: map<string, Booking>, y: map<string, Booking>) {
    x == y || exists id, b :: RowWritten(x, y, id, b)
  }

  lemma StepWritesOneRow(cat: Catalog, db: Db, a: Action)
    requires Enabled(db, a)
    ensures BookingChange(db.bookings, Perform(cat, db, a).db.bookings)
  {
    hide Violates, BookingChange, Available, Checkable, DayQuery, WithJobs, Q.MoveRows, Q.CancelRows, Recorded, Q.Apply, Offers;
    match a
    case ACreate(req, now, dbNow, ids) => Written(db.bookings, Create(cat, db, req, now, dbNow, ids).db.bookings, ids.booking);
    case AAdminCreate(req, dbNow, ids) => Written(db.bookings, AdminCreate(cat, db, req, dbNow, ids).db.bookings, ids.booking);
    case AMove(req) => Written(db.bookings, Move(db, req).db.bookings, req.booking);
    case AAdminMove(req) => Written(db.bookings, AdminMove(cat, db, req).db.bookings, req.booking);
    case ACancel(req) => Written(db.bookings, CancelOwn(db, req).db.bookings, req.booking);
    case AAdminCancel(req) => Written(db.bookings, AdminCancel(db, req).db.bookings, req.booking);
    case AWork(work) => Written(db.bookings, db.bookings, "");
  }

  lemma Written(x: map<string, Booking>, y: map<string, Booking>, id: string)
    requires x == y || (id in y && RowWritten(x, y, id, y[id]))
    ensures BookingChange(x, y)
  {
  }

  lemma ChangeKeepsExclusive(x: map<string, Booking>, y: map<string, Booking>)
    requires Exclusive(x) && BookingChange(x, y)
    ensures Exclusive(y)
  {
    if x != y {
      var id, b :| RowWritten(x, y, id, b);
      forall i, j | i in y && j in y && i != j
        ensures !Collide(y[i], y[j])
      {
        if i != id && j != id {
          assert !Collide(x[i], x[j]);
        } else if i == id {
          assert !Live(b) || !Collide(x[j], b);
        }
      }
    }
  }

  /** In every run of creates, moves, cancellations, their operator variants and any work
      on the queue, live bookings of one staff member never overlap. */
  lemma {:induction false} NoDoubleBooking(cat: Catalog, db: Db, actions: seq<Action>)
    requires Exclusive(db.bookings) && Legal(cat, db, actions)
    ensures Exclusive(Run(cat, db, actions).bookings)
  {
    hide Perform, Enabled, Exclusive, BookingChange;
    if actions != [] {
      var before := Run(cat, db, actions[..|actions| - 1]);
      NoDoubleBooking(cat, db, actions[..|actions| - 1]);
      StepWritesOneRow(cat, before, actions[|actions| - 1]);
      ChangeKeepsExclusive(before.bookings, Perform(cat, before, actions[|actions| - 1]).db.bookings);
    }
  }

  // ---- the recheck alone excludes collisions ----

  /** A slot on offer for its own day, with its buffers, stays within the padded window. */
  lemma OccupiedWithinPadding(off: Offset, q: Search, s: int)
    requires Accepted(q) && Reached(off, q, s)
    ensures q.from - PADDING <= Occupied(q.service, s).start < Occupied(q.service, s).end <= q.to + PADDING
  {
    hide Free, DateOf, RulesValid, StepValid;
  }

  /** A live booking that the new one would collide with is among the rows loaded. */
  lemma ColliderIsLoaded(q: Search, s: int, b: Booking, other: Booking)
    requires q.from - PADDING <= Occupied(q.service, s).start < Occupied(q.service, s).end <= q.to + PADDING
    requires Range(b) == Occupied(q.service, s) && b.staff == q.staff && Collide(other, b)
    ensures LoadedBooking(other, q.staff, q.from, q.to)
    ensures Overlap(Occupied(q.service, s), BusySpan(BusyOf(other)))
  {
  }

  lemma {:induction false} AvailableExcludesCollision(row: Staff, bookings: map<string, Booking>, q: Search, s: int, id: string, b: Booking)
    requires Accepted(q) && Available(row, bookings, q, s)
    requires Range(b) == Occupied(q.service, s) && b.staff == q.staff
    ensures !Violates(bookings, id, b)
  {
    hide Accepted, Reached, Collide, Overlap, LoadedBooking, Range, Occupied;
    OccupiedWithinPadding(row.off, q, s);
    forall other | other in bookings
      ensures !Collide(bookings[other], b)
    {
      if Collide(bookings[other], b) {
        ColliderIsLoaded(q, s, b, bookings[other]);
      }
    }
  }

  /** For a customer's create the exclusion constraint never has to fire. */
  lemma {:induction false} CreateNeverHitsTheConstraint(cat: Catalog, db: Db, req: CreateRequest, now: int, dbNow: int, ids: Ids)
    ensures Create(cat, db, req, now, dbNow, ids).outcome != ConstraintViolated
  {
    hide Violates, Available, WithJobs, Accepted;
    if Offers(cat, req.service, req.staff) {
      var service, row := cat.services[req.service], cat.staff[req.staff];
      var q := DayQuery(service, req.staff, row, req.start);
      var b := NewBooking(req.customer, service, req.staff, req.start);
      if Checkable(row, db.bookings, q) && Available(row, db.bookings, q, req.start) {
        AvailableExcludesCollision(row, db.bookings, q, req.start, ids.booking, b);
      }
    }
  }

  // ---- answers to repeated requests ----

  ghost predicate RecordChange(x: map<RecordKey, Record>, y: map<RecordKey, Record>, rk: RecordKey, unfinished: bool) {
    x == y || (rk !in x && rk in y && y == x[rk := y[rk]] && (y[rk].resource.None? ==> unfinished))
  }

  /** The record a request would leave. */
  function KeyOf(a: Action): RecordKey {
    match a
    case ACreate(req, _, _, _) => RecordKey(OpCreate, req.customer, req.key)
    case AAdminCreate(req, _, _) => RecordKey(OpAdminCreate, req.customer, req.key)
    case AMove(req) => RecordKey(OpMove, req.owner, req.key)
    case AAdminMove(req) => RecordKey(OpAdminMove, req.booking, req.key)
    case ACancel(req) => RecordKey(OpCancel, req.owner, req.key)
    case _ => RecordKey(OpCreate, "", "")
  }

  /** A step adds at most the record of its own key, finished, except that a customer's
      cancellation of a booking that is already cancelled leaves it unfinished. */
  lemma StepAddsOneRecord(cat: Catalog, db: Db, a: Action)
    requires Enabled(db, a)
    ensures RecordChange(db.records, Perform(cat, db, a).db.records, KeyOf(a), LeavesUnfinished(db, a))
  {
    hide Violates, Available, Checkable, DayQuery, WithJobs, Q.MoveRows, Q.CancelRows, Recorded, Q.Apply, Offers, CancelText;
  }

  predicate LeavesUnfinished(db: Db, a: Action) {
    a.ACancel? && a.cancel.booking in db.bookings && db.bookings[a.cancel.booking].status == Cancelled
  }

  lemma {:induction false} RecordsLast(cat: Catalog, db: Db, actions: seq<Action>, rk: RecordKey)
    requires Legal(cat, db, actions) && rk in db.records
    ensures rk in Run(cat, db, actions).records && Run(cat, db, actions).records[rk] == db.records[rk]
  {
    hide Perform, Enabled, KeyOf, LeavesUnfinished;
    if actions != [] {
      var before := Run(cat, db, actions[..|actions| - 1]);
      RecordsLast(cat, db, actions[..|actions| - 1], rk);
      StepAddsOneRecord(cat, before, actions[|actions| - 1]);
    }
  }

  lemma {:induction false} BookingsLast(cat: Catalog, db: Db, actions: seq<Action>, id: string)
    requires Legal(cat, db, actions) && id in db.bookings
    ensures id in Run(cat, db, actions).bookings
    ensures Run(cat, db, actions).bookings[id].version >= db.bookings[id].version
    ensures db.bookings[id].status != Confirmed ==> Run(cat, db, actions).bookings[id] == db.bookings[id]
  {
    hide Perform, Enabled, Violates;
    if actions != [] {
      var before := Run(cat, db, actions[..|actions| - 1]);
      BookingsLast(cat, db, actions[..|actions| - 1], id);
      StepWritesOneRow(cat, before, actions[|actions| - 1]);
    }
  }

  /** A create that succeeded once: the same request, sent again at any later point of any
      run, answers with the same booking and writes nothing. A retry whose start has passed
      in the meantime is refused before the record is read. */
  lemma {:induction false} RepeatedCreateReplays(cat: Catalog, db: Db, req: CreateRequest, now: int, dbNow: int, ids: Ids,
                                                 actions: seq<Action>, now': int, dbNow': int, ids': Ids)
    requires Create(cat, db, req, now, dbNow, ids).outcome == Done(ids.booking) && FreshIds(db, ids)
    requires Legal(cat, Create(cat, db, req, now, dbNow, ids).db, actions)
    ensures var later := Run(cat, Create(cat, db, req, now, dbNow, ids).db, actions);
            Create(cat, later, req, now', dbNow', ids') ==
            Result(later, if req.start <= now' then SlotUnavailable else Replayed(ids.booking))
  {
    var after := Create(cat, db, req, now, dbNow, ids).db;
    CreateLeaves(cat, db, req, now, dbNow, ids);
    RecordsLast(cat, after, actions, RecordKey(OpCreate, req.customer, req.key));
    BookingsLast(cat, after, actions, ids.booking);
    AnsweredFromRecord(cat, Run(cat, after, actions), req, now', dbNow', ids', ids.booking);
  }

  lemma CreateLeaves(cat: Catalog, db: Db, req: CreateRequest, now: int, dbNow: int, ids: Ids)
    requires Create(cat, db, req, now, dbNow, ids).outcome == Done(ids.booking) && FreshIds(db, ids)
    ensures var after := Create(cat, db, req, now, dbNow, ids).db;
            var rk := RecordKey(OpCreate, req.customer, req.key);
            && CreateComplete(req) && KeyFits(req.key) && |req.notes| <= 500
            && rk in after.records && after.records[rk] == Record(DigestOf(req), Some(ids.booking)) && ids.booking in after.bookings
  {
    hide Violates, Available, Checkable, DayQuery, WithJobs, Offers, DigestOf;
  }

  lemma AnsweredFromRecord(cat: Catalog, db: Db, req: CreateRequest, now: int, dbNow: int, ids: Ids, id: string)
    requires CreateComplete(req) && KeyFits(req.key) && |req.notes| <= 500 && id in db.bookings
    requires var rk := RecordKey(OpCreate, req.customer, req.key);
             rk in db.records && db.records[rk] == Record(DigestOf(req), Some(id))
    ensures Create(cat, db, req, now, dbNow, ids) == Result(db, if req.start <= now then SlotUnavailable else Replayed(id))
  {
    hide Violates, Available, Checkable, DayQuery, WithJobs, Offers, DigestOf;
  }

  /** The other requests that leave a record, as one family. */
  predicate Keyed(a: Action) {
    match a
    case AAdminCreate(req, _, _) => AdminCreateValid(req)
    case AMove(req) => MoveValid(req) && KeyFits(req.key)
    case AAdminMove(req) => req.booking != "" && req.start != ZERO_TIME && 0 < req.expected && KeyFits(req.key)
    case ACancel(req) =>
      && req.booking != "" && req.owner != "" && req.reason != "" && KeyFits(req.key)
      && DigestFits(CancelText(req.booking, req.reason))
    case _ => false
  }

  function DigestFor(a: Action): Digest
    requires Keyed(a)
  {
    match a
    case AAdminCreate(req, _, _) => AdminCreateDigest(req.customer, req.service, req.staff, req.start, req.notes)
    case AMove(req) => MoveDigest(req.booking, req.start, req.end)
    case AAdminMove(req) => AdminMoveDigest(req.booking, req.start)
    case ACancel(req) => CancelDigest(CancelText(req.booking, req.reason))
  }

  lemma DoneLeavesItsRecord(cat: Catalog, db: Db, a: Action, id: string)
    requires Enabled(db, a) && Keyed(a) && Perform(cat, db, a).outcome == Done(id)
    ensures var after := Perform(cat, db, a).db;
            && KeyOf(a) in after.records && after.records[KeyOf(a)] == Record(DigestFor(a), Some(id)) && id in after.bookings
  {
    hide Violates, Q.MoveRows, Q.CancelRows, WithJobs, Offers, CancelText;
  }

  lemma AnsweredAgain(cat: Catalog, db: Db, a: Action, id: string)
    requires Keyed(a) && KeyOf(a) in db.records && db.records[KeyOf(a)] == Record(DigestFor(a), Some(id)) && id in db.bookings
    ensures Perform(cat, db, a) == Result(db, Replayed(id))
  {
    hide Violates, Q.MoveRows, Q.CancelRows, WithJobs, Offers, CancelText;
  }

  /** A keyed reschedule, cancellation or operator command that succeeded once: sent again
      after any run, it answers with the same booking and writes nothing. */
  lemma {:induction false} RepeatedRequestReplays(cat: Catalog, db: Db, a: Action, id: string, actions: seq<Action>)
    requires Enabled(db, a) && Keyed(a) && Perform(cat, db, a).outcome == Done(id)
    requires Legal(cat, Perform(cat, db, a).db, actions)
    ensures var later := Run(cat, Perform(cat, db, a).db, actions);
            Perform(cat, later, a) == Result(later, Replayed(id))
  {
    hide Perform, Keyed, KeyOf, DigestFor, Run, Legal, Enabled;
    var after := Perform(cat, db, a).db;
    DoneLeavesItsRecord(cat, db, a, id);
    RecordsLast(cat, after, actions, KeyOf(a));
    BookingsLast(cat, after, actions, id);
    AnsweredAgain(cat, Run(cat, after, actions), a, id);
  }

  /** Who may touch a booking of `customer`: that customer, and operators. */
  predicate ByAnother(a: Action, customer: string) {
    match a
    case AMove(req) => req.owner != customer
    case ACancel(req) => req.owner != customer
    case AAdminMove(_) => false
    case AAdminCancel(_) => false
    case _ => true
  }

  lemma OthersLeaveItAlone(cat: Catalog, db: Db, a: Action, id: string)
    requires Enabled(db, a) && id in db.bookings && ByAnother(a, db.bookings[id].customer)
    ensures id in Perform(cat, db, a).db.bookings && Perform(cat, db, a).db.bookings[id] == db.bookings[id]
  {
    hide Violates, Q.MoveRows, Q.CancelRows, CancelText, Recorded, Available, Checkable, DayQuery, WithJobs, Offers, Q.Apply;
  }

  /** Whatever all other customers create, move and cancel, and whatever the queue does, a
      customer's booking stays as it is. */
  lemma {:induction false} BookingsAreTheirOwners(cat: Catalog, db: Db, actions: seq<Action>, id: string)
    requires Legal(cat, db, actions) && id in db.bookings
    requires forall i :: 0 <= i < |actions| ==> ByAnother(actions[i], db.bookings[id].customer)
    ensures id in Run(cat, db, actions).bookings && Run(cat, db, actions).bookings[id] == db.bookings[id]
  {
    hide Perform, Enabled, ByAnother;
    if actions != [] {
      BookingsAreTheirOwners(cat, db, actions[..|actions| - 1], id);
      OthersLeaveItAlone(cat, Run(cat, db, actions[..|actions| - 1]), actions[|actions| - 1], id);
    }
  }

  /** A key that has served one create never serves another request, after any run. */
  lemma {:induction false} KeyServesOneRequest(cat: Catalog, db: Db, a: CreateRequest, now: int, dbNow: int, ids: Ids,
                                               actions: seq<Action>, b: CreateRequest, now': int, dbNow': int, ids': Ids)
    requires Create(cat, db, a, now, dbNow, ids).outcome == Done(ids.booking) && FreshIds(db, ids)
    requires Legal(cat, Create(cat, db, a, now, dbNow, ids).db, actions)
    requires b.customer == a.customer && b.key == a.key && DigestOf(b) != DigestOf(a)
    ensures var later := Run(cat, Create(cat, db, a, now, dbNow, ids).db, actions);
            var again := Create(cat, later, b, now', dbNow', ids');
            again.db == later && again.outcome in {InvalidInput, SlotUnavailable, IdempotencyConflict}
  {
    hide Run, Legal, Violates, Available, Checkable, DayQuery, WithJobs, Offers, DigestOf;
    var after := Create(cat, db, a, now, dbNow, ids).db;
    CreateLeaves(cat, db, a, now, dbNow, ids);
    RecordsLast(cat, after, actions, RecordKey(OpCreate, a.customer, a.key));
  }

  ghost predicate FinishedExcept(records: map<RecordKey, Record>) {
    forall rk :: rk in records && rk.op != OpCancel ==> records[rk].resource.Some?
  }

  /** Only customer cancellations can leave a record unfinished. */
  lemma {:induction false} RecordsAreFinished(cat: Catalog, db: Db, actions: seq<Action>)
    requires Legal(cat, db, actions) && FinishedExcept(db.records)
    ensures FinishedExcept(Run(cat, db, actions).records)
  {
    hide Perform, Enabled;
    if actions != [] {
      RecordsAreFinished(cat, db, actions[..|actions| - 1]);
      StepAddsOneRecord(cat, Run(cat, db, actions[..|actions| - 1]), actions[|actions| - 1]);
    }
  }

  /** The guard of the branch that commits the record unfinished. */
  predicate CancelsTheCancelled(db: Db, req: CancelRequest) {
    && req.booking != "" && req.owner != "" && req.reason != ""
    && KeyFits(req.key) && DigestFits(CancelText(req.booking, req.reason))
    && req.booking in db.bookings && db.bookings[req.booking].customer == req.owner
    && db.bookings[req.booking].status == Cancelled
  }

  /** A cancellation with a fresh key leaves its record unfinished exactly when it names an
      own booking that is cancelled already; every repetition, after any run, is then refused. */
  lemma {:induction false} UnfinishedCancel(cat: Catalog, db: Db, req: CancelRequest, actions: seq<Action>)
    requires req.key != "" && RecordKey(OpCancel, req.owner, req.key) !in db.records
    requires Legal(cat, CancelOwn(db, req).db, actions)
    ensures var rk := RecordKey(OpCancel, req.owner, req.key);
            var after := CancelOwn(db, req).db;
            && ((rk in after.records && after.records[rk].resource.None?) <==> CancelsTheCancelled(db, req))
            && (CancelsTheCancelled(db, req) ==>
                  CancelOwn(Run(cat, after, actions), req) == Result(Run(cat, after, actions), IncompleteRecord))
  {
    hide CancelText, Q.CancelRows, Run, Legal;
    var rk := RecordKey(OpCancel, req.owner, req.key);
    if CancelsTheCancelled(db, req) {
      RecordsLast(cat, CancelOwn(db, req).db, actions, rk);
    }
  }

  // ---- the length of a cancellation's reason ----

  /** A customer's keyed cancellation of a confirmed booking of their own commits exactly
      when the stored digest fits: for a 36-character id, up to 84 characters of reason,
      although the tool and the booking row admit 500. */
  lemma {:induction false} CancelCommitsIff(db: Db, req: CancelRequest)
    requires |req.booking| == 36 && req.owner != "" && 1 <= |req.reason| <= 500 && KeyFits(req.key)
    requires RecordKey(OpCancel, req.owner, req.key) !in db.records
    requires req.booking in db.bookings && db.bookings[req.booking].customer == req.owner
    requires db.bookings[req.booking].status == Confirmed
    ensures CancelOwn(db, req).outcome == Done(req.booking) <==> |req.reason| <= 84
    ensures 84 < |req.reason| ==> CancelOwn(db, req) == Result(db, DatabaseError)
  {
    hide Q.CancelRows;
    assert |CancelText(req.booking, req.reason)| == 44 + |req.reason|;
  }

  // ---- optimistic versions ----

  /** An operator acts on the version they saw or not at all, and acting uses it up. */
  lemma VersionIsUsedOnce(cat: Catalog, db: Db, a: AdminMoveRequest, actions: seq<Action>, b: AdminMoveRequest)
    requires AdminMove(cat, db, a).outcome == Done(a.booking)
    requires Legal(cat, AdminMove(cat, db, a).db, actions)
    requires b.booking == a.booking && b.expected == a.expected
    ensures db.bookings[a.booking].version == a.expected
    ensures AdminMove(cat, Run(cat, AdminMove(cat, db, a).db, actions), b).outcome != Done(b.booking)
  {
    var after := AdminMove(cat, db, a).db;
    AdminMoveRaises(cat, db, a);
    BookingsLast(cat, after, actions, a.booking);
    hide Run, Legal, Violates, Q.MoveRows;
  }

  lemma AdminMoveRaises(cat: Catalog, db: Db, a: AdminMoveRequest)
    requires AdminMove(cat, db, a).outcome == Done(a.booking)
    ensures a.booking in db.bookings && db.bookings[a.booking].version == a.expected
    ensures a.booking in AdminMove(cat, db, a).db.bookings && AdminMove(cat, db, a).db.bookings[a.booking].version == a.expected + 1
  {
    hide Violates, Q.MoveRows;
  }
}

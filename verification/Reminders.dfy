/** Reminders and bookings stay together, whatever bookings, workers and reapers do. */
module Reminders {
  import opened Domain
  import Q = JobQueue
  import opened Bookings
  import BookingProofs

  type BookingRows = map<string, Booking>

  /** A reminder against its booking: retired with it, and true to it until first claimed. */
  predicate Faithful(bookings: BookingRows, j: Q.Job) {
    && j.booking in bookings
    && (bookings[j.booking].status == Cancelled ==> j.status !in {Q.Pending, Q.Claimed})
    && (j.status == Q.Cancelled ==> bookings[j.booking].status == Cancelled)
    && (j.attempts == 0 ==> j.startsAt == Q.Seconds(bookings[j.booking].start))
  }

  ghost predicate AllFaithful(bookings: BookingRows, jobs: Q.Rows) {
    forall id :: id in jobs && jobs[id].kind == Q.SendReminder ==> Faithful(bookings, jobs[id])
  }

  /** Every job belongs to a booking and carries one of its two keys. */
  ghost predicate KeysKnown(bookings: BookingRows, jobs: Q.Rows) {
    forall id :: id in jobs ==>
      jobs[id].booking in bookings
      && jobs[id].key in {Some(ReminderKey(jobs[id].booking)), Some(CrmKey(jobs[id].booking))}
  }

  predicate HasReminder(jobs: Q.Rows, booking: string, id: string) {
    id in jobs && jobs[id].booking == booking && jobs[id].kind == Q.SendReminder
  }

  ghost predicate Outbox(bookings: BookingRows, jobs: Q.Rows) {
    forall b :: b in bookings ==> exists id :: HasReminder(jobs, b, id)
  }

  ghost predicate Coherent(db: Db) {
    && Q.Inv(db.queue) && AllFaithful(db.bookings, db.queue.jobs)
    && KeysKnown(db.bookings, db.queue.jobs) && Outbox(db.bookings, db.queue.jobs)
  }

  // ---- rows that only move on ----

  /** What a worker or reaper may do to a row. */
  predicate Worked(a: Q.Job, b: Q.Job) {
    && b.booking == a.booking && b.kind == a.kind && b.key == a.key && b.startsAt == a.startsAt && a.attempts <= b.attempts
    && (b.status in {Q.Pending, Q.Claimed} ==> a.status in {Q.Pending, Q.Claimed})
    && (b.status == Q.Cancelled <==> a.status == Q.Cancelled)
  }

  lemma WorkMovesRows(q: Q.Queue, work: Q.Action, id: string)
    requires Works(work) && Q.Enabled(q, work)
    ensures id in Q.Apply(q, work).jobs <==> id in q.jobs
    ensures id in q.jobs ==> Worked(q.jobs[id], Q.Apply(q, work).jobs[id])
  {
    hide Q.RetryDelay, Q.LetterFor, Q.Lease, Q.ReapRows, Q.ClaimRows, Q.FailRow;
    match work
    case AReap(lease, now) => ReapMovesRows(q, Q.Lease(lease), now, id);
    case AClaim(ids, now) => ClaimMovesRows(q, ids, now, id);
    case AFail(victim, now) => FailMovesRows(q, victim, now, id);
    case _ =>
  }

  lemma ReapMovesRows(q: Q.Queue, lease: int, now: int, id: string)
    ensures id in Q.ReapRows(q, lease, now).jobs <==> id in q.jobs
    ensures id in q.jobs ==> Worked(q.jobs[id], Q.ReapRows(q, lease, now).jobs[id])
  {
  }

  lemma ClaimMovesRows(q: Q.Queue, ids: set<string>, now: int, id: string)
    requires Q.AllDue(q.jobs, ids, now)
    ensures id in Q.ClaimRows(q.jobs, ids, now) <==> id in q.jobs
    ensures id in q.jobs ==> Worked(q.jobs[id], Q.ClaimRows(q.jobs, ids, now)[id])
  {
  }

  lemma FailMovesRows(q: Q.Queue, victim: string, now: int, id: string)
    ensures id in Q.FailRow(q, victim, now).jobs <==> id in q.jobs
    ensures id in q.jobs ==> Worked(q.jobs[id], Q.FailRow(q, victim, now).jobs[id])
  {
    hide Q.RetryDelay, Q.LetterFor;
  }

  lemma WorkKeeps(db: Db, work: Q.Action)
    requires Coherent(db) && Works(work) && Q.Enabled(db.queue, work)
    ensures Coherent(db.(queue := Q.Apply(db.queue, work)))
  {
    hide Q.Apply, Q.Enabled, Q.Inv;
    var after := Q.Apply(db.queue, work);
    Q.StepKeepsInv(db.queue, work);
    forall id
      ensures id in after.jobs <==> id in db.queue.jobs
      ensures id in after.jobs && id in db.queue.jobs ==> Worked(db.queue.jobs[id], after.jobs[id])
    {
      WorkMovesRows(db.queue, work, id);
    }
    assert AllFaithful(db.bookings, after.jobs) by { FaithfulAfterWork(db, after.jobs); }
    forall b | b in db.bookings
      ensures exists id :: HasReminder(after.jobs, b, id)
    {
      var id :| HasReminder(db.queue.jobs, b, id);
      assert HasReminder(after.jobs, b, id);
    }
  }

  lemma FaithfulAfterWork(db: Db, jobs: Q.Rows)
    requires Q.Inv(db.queue) && AllFaithful(db.bookings, db.queue.jobs)
    requires forall id :: id in jobs ==> id in db.queue.jobs && Worked(db.queue.jobs[id], jobs[id])
    ensures AllFaithful(db.bookings, jobs)
  {
    forall id | id in jobs && jobs[id].kind == Q.SendReminder
      ensures Faithful(db.bookings, jobs[id])
    {
      Q.OkRow(db.queue, id);
      assert Worked(db.queue.jobs[id], jobs[id]) && Faithful(db.bookings, db.queue.jobs[id]);
    }
  }

  // ---- new bookings ----

  lemma KeysDiffer(a: string, b: string)
    ensures ReminderKey(a) != CrmKey(b)
    ensures ReminderKey(a) == ReminderKey(b) ==> a == b
    ensures CrmKey(a) == CrmKey(b) ==> a == b
  {
    assert ReminderKey(a)[0] != CrmKey(b)[0];
    assert ReminderKey(a)[9..] == a && ReminderKey(b)[9..] == b;
    assert CrmKey(a)[11..] == a && CrmKey(b)[11..] == b;
  }

  /** For a fresh booking neither insert meets a row with its key. */
  lemma BothJobsAreInserted(bookings: BookingRows, jobs: Q.Rows, ids: Ids, start: int, zone: string, now: int)
    requires KeysKnown(bookings, jobs) && ids.booking !in bookings
    ensures WithJobs(jobs, ids, start, zone, now) ==
            jobs[ids.reminder := NewJob(ids.booking, Q.SendReminder, ReminderKey(ids.booking), now, Q.Seconds(start), zone)]
                [ids.crm := NewJob(ids.booking, Q.CrmUpsert, CrmKey(ids.booking), now, 0, "")]
  {
    hide ReminderKey, CrmKey;
    forall id | id in jobs
      ensures jobs[id].key != Some(ReminderKey(ids.booking)) && jobs[id].key != Some(CrmKey(ids.booking))
    {
      KeysDiffer(jobs[id].booking, ids.booking);
      KeysDiffer(ids.booking, jobs[id].booking);
    }
    KeysDiffer(ids.booking, ids.booking);
  }

  lemma InsertKeeps(db: Db, rk: RecordKey, digest: Digest, b: Booking, zone: string, ids: Ids, now: int)
    requires Coherent(db) && FreshIds(db, ids) && b.status == Confirmed
    ensures Coherent(Insert(db, rk, digest, b, zone, ids, now).db)
  {
    hide Q.Inv, Violates, ReminderKey, CrmKey, WithJobs;
    if !Violates(db.bookings, ids.booking, b) {
      var after := Insert(db, rk, digest, b, zone, ids, now).db;
      BothJobsAreInserted(db.bookings, db.queue.jobs, ids, b.start, zone, now);
      NewRowsAreOk(db.queue, ids, b.start, zone, now, after.queue);
      assert AllFaithful(after.bookings, after.queue.jobs);
      forall x | x in after.bookings
        ensures exists id :: HasReminder(after.queue.jobs, x, id)
      {
        if x == ids.booking {
          assert HasReminder(after.queue.jobs, x, ids.reminder);
        } else {
          var id :| HasReminder(db.queue.jobs, x, id);
          assert HasReminder(after.queue.jobs, x, id);
        }
      }
    }
  }

  lemma NewRowsAreOk(q: Q.Queue, ids: Ids, start: int, zone: string, now: int, r: Q.Queue)
    requires Q.Inv(q) && r.letters == q.letters && ids.reminder !in q.jobs && ids.crm !in q.jobs
    requires r.jobs ==
             q.jobs[ids.reminder := NewJob(ids.booking, Q.SendReminder, ReminderKey(ids.booking), now, Q.Seconds(start), zone)]
                   [ids.crm := NewJob(ids.booking, Q.CrmUpsert, CrmKey(ids.booking), now, 0, "")]
    ensures Q.Inv(r)
  {
    hide ReminderKey, CrmKey, Q.Mourned;
  }

  // ---- moved and retired bookings ----

  lemma MovedRow(bookings: BookingRows, id: string, b: Booking, j: Q.Job, zone: string)
    requires id in bookings && bookings[id].status == Confirmed == b.status && Faithful(bookings, j) && Q.JobOk(j)
    requires j.kind == Q.SendReminder
    ensures Faithful(bookings[id := b],
                     if Q.Movable(j, id) then j.(startsAt := Q.Seconds(b.start), timezone := zone) else j)
  {
  }

  lemma MovedFaithful(q: Q.Queue, bookings: BookingRows, id: string, b: Booking, zone: string)
    requires Q.Inv(q) && AllFaithful(bookings, q.jobs)
    requires id in bookings && bookings[id].status == Confirmed == b.status
    ensures AllFaithful(bookings[id := b], Q.MoveRows(q.jobs, id, b.start, zone))
  {
    hide Faithful, Q.Inv, Q.JobOk, Q.Movable;
    forall k | k in q.jobs && q.jobs[k].kind == Q.SendReminder
      ensures Faithful(bookings[id := b], Q.MoveRows(q.jobs, id, b.start, zone)[k])
    {
      Q.OkRow(q, k);
      MovedRow(bookings, id, b, q.jobs[k], zone);
    }
  }

  lemma RowsKept(x: BookingRows, y: BookingRows, before: Q.Rows, after: Q.Rows)
    requires KeysKnown(x, before) && Outbox(x, before) && y.Keys == x.Keys && before.Keys == after.Keys
    requires forall k :: k in before ==>
               after[k].booking == before[k].booking && after[k].kind == before[k].kind && after[k].key == before[k].key
    ensures KeysKnown(y, after) && Outbox(y, after)
  {
    hide ReminderKey, CrmKey;
    SameReminders(before, after, x, y);
  }

  lemma MovedKeeps(db: Db, id: string, start: int, end: int, zone: string, records: map<RecordKey, Record>)
    requires Coherent(db) && id in db.bookings && db.bookings[id].status == Confirmed
    ensures Coherent(Moved(db, id, start, end, zone, records).db)
  {
    hide Q.Inv, Violates, AllFaithful, KeysKnown, Outbox;
    var b := db.bookings[id].(start := start, end := end, version := db.bookings[id].version + 1);
    var jobs := Q.MoveRows(db.queue.jobs, id, start, zone);
    Q.StepKeepsInv(db.queue, Q.AMove(id, start, zone));
    MovedFaithful(db.queue, db.bookings, id, b, zone);
    RowsKept(db.bookings, db.bookings[id := b], db.queue.jobs, jobs);
  }

  lemma SameReminders(before: Q.Rows, after: Q.Rows, x: BookingRows, y: BookingRows)
    requires Outbox(x, before) && y.Keys == x.Keys && before.Keys == after.Keys
    requires forall k :: k in before ==> after[k].booking == before[k].booking && after[k].kind == before[k].kind
    ensures Outbox(y, after)
  {
    forall b | b in y
      ensures exists id :: HasReminder(after, b, id)
    {
      var id :| HasReminder(before, b, id);
      assert HasReminder(after, b, id);
    }
  }

  lemma RetiredFaithful(jobs: Q.Rows, bookings: BookingRows, id: string, b: Booking)
    requires AllFaithful(bookings, jobs) && id in bookings && b.status == Cancelled && b.start == bookings[id].start
    ensures AllFaithful(bookings[id := b], Q.CancelRows(jobs, id, Some(Q.SendReminder)))
  {
    forall k | k in jobs && jobs[k].kind == Q.SendReminder
      ensures Faithful(bookings[id := b], Q.CancelRows(jobs, id, Some(Q.SendReminder))[k])
    {
      assert Faithful(bookings, jobs[k]);
    }
  }

  lemma RetiredKeeps(db: Db, id: string, records: map<RecordKey, Record>)
    requires Coherent(db) && id in db.bookings && db.bookings[id].status == Confirmed
    ensures Coherent(Retired(db, id, records).db)
  {
    hide Q.Inv, AllFaithful, KeysKnown, Outbox;
    var b := db.bookings[id].(status := Cancelled, version := db.bookings[id].version + 1);
    Q.StepKeepsInv(db.queue, Q.ACancel(id, Some(Q.SendReminder)));
    RetiredFaithful(db.queue.jobs, db.bookings, id, b);
    RowsKept(db.bookings, db.bookings[id := b], db.queue.jobs, Q.CancelRows(db.queue.jobs, id, Some(Q.SendReminder)));
  }

  // ---- runs ----

  lemma RecordsDoNotMatter(db: Db, records: map<RecordKey, Record>)
    requires Coherent(db)
    ensures Coherent(db.(records := records))
  {
  }

  lemma {:induction false} StepKeepsCoherent(cat: Catalog, db: Db, a: Action)
    requires Coherent(db) && Enabled(db, a)
    ensures Coherent(Perform(cat, db, a).db)
  {
    hide Coherent, Insert, Moved, Retired, Q.Apply, Q.Enabled, Available, Checkable, DayQuery, Offers, Recorded, CancelText;
    match a
    case ACreate(req, now, dbNow, ids) => CreateKeeps(cat, db, req, now, dbNow, ids);
    case AAdminCreate(req, dbNow, ids) => AdminCreateKeeps(cat, db, req, dbNow, ids);
    case AMove(req) => MoveKeeps(db, req);
    case AAdminMove(req) => AdminMoveKeeps(cat, db, req);
    case ACancel(req) => CancelKeeps(db, req);
    case AAdminCancel(req) => AdminCancelKeeps(db, req);
    case AWork(work) => WorkKeeps(db, work);
  }

  lemma CreateKeeps(cat: Catalog, db: Db, req: CreateRequest, now: int, dbNow: int, ids: Ids)
    requires Coherent(db) && FreshIds(db, ids)
    ensures Coherent(Create(cat, db, req, now, dbNow, ids).db)
  {
    hide Coherent, Insert, Available, Checkable, DayQuery, Recorded, DigestOf;
    if Offers(cat, req.service, req.staff) {
      InsertKeeps(db, RecordKey(OpCreate, req.customer, req.key), DigestOf(req),
                  NewBooking(req.customer, cat.services[req.service], req.staff, req.start), cat.staff[req.staff].zone, ids, dbNow);
    }
  }

  lemma AdminCreateKeeps(cat: Catalog, db: Db, req: AdminCreateRequest, dbNow: int, ids: Ids)
    requires Coherent(db) && FreshIds(db, ids)
    ensures Coherent(AdminCreate(cat, db, req, dbNow, ids).db)
  {
    hide Coherent, Insert, Recorded;
    if Offers(cat, req.service, req.staff) {
      InsertKeeps(db, RecordKey(OpAdminCreate, req.customer, req.key),
                  AdminCreateDigest(req.customer, req.service, req.staff, req.start, req.notes),
                  NewBooking(req.customer, cat.services[req.service], req.staff, req.start), cat.staff[req.staff].zone, ids, dbNow);
    }
  }

  lemma MoveKeeps(db: Db, req: MoveRequest)
    requires Coherent(db)
    ensures Coherent(Move(db, req).db)
  {
    hide Coherent, Moved, Recorded;
    if req.booking in db.bookings && db.bookings[req.booking].status == Confirmed {
      var records := if req.key == "" then db.records
                     else db.records[RecordKey(OpMove, req.owner, req.key) := Record(MoveDigest(req.booking, req.start, req.end), Some(req.booking))];
      MovedKeeps(db, req.booking, req.start, req.end, req.zone, records);
    }
  }

  lemma AdminMoveKeeps(cat: Catalog, db: Db, req: AdminMoveRequest)
    requires Coherent(db)
    ensures Coherent(AdminMove(cat, db, req).db)
  {
    hide Coherent, Moved, Recorded;
    if req.booking in db.bookings && db.bookings[req.booking].status == Confirmed && db.bookings[req.booking].staff in cat.staff {
      var b := db.bookings[req.booking];
      MovedKeeps(db, req.booking, req.start, req.start + (b.end - b.start), cat.staff[b.staff].zone,
                 db.records[RecordKey(OpAdminMove, req.booking, req.key) := Record(AdminMoveDigest(req.booking, req.start), Some(req.booking))]);
    }
  }

  lemma CancelKeeps(db: Db, req: CancelRequest)
    requires Coherent(db)
    ensures Coherent(CancelOwn(db, req).db)
  {
    hide Coherent, Retired, Recorded, CancelText;
    var rk := RecordKey(OpCancel, req.owner, req.key);
    var digest := CancelDigest(CancelText(req.booking, req.reason));
    RecordsDoNotMatter(db, db.records[rk := Record(digest, None)]);
    if req.booking in db.bookings && db.bookings[req.booking].status == Confirmed {
      RetiredKeeps(db, req.booking, if req.key == "" then db.records else db.records[rk := Record(digest, Some(req.booking))]);
    }
  }

  lemma AdminCancelKeeps(db: Db, req: AdminCancelRequest)
    requires Coherent(db)
    ensures Coherent(AdminCancel(db, req).db)
  {
    hide Coherent, Retired;
    if req.booking in db.bookings && db.bookings[req.booking].status == Confirmed {
      RetiredKeeps(db, req.booking, db.records);
    }
  }

  lemma {:induction false} RunKeepsCoherent(cat: Catalog, db: Db, actions: seq<Action>)
    requires Coherent(db) && Legal(cat, db, actions)
    ensures Coherent(Run(cat, db, actions))
  {
    hide Coherent, Perform, Enabled;
    if actions != [] {
      RunKeepsCoherent(cat, db, actions[..|actions| - 1]);
      StepKeepsCoherent(cat, Run(cat, db, actions[..|actions| - 1]), actions[|actions| - 1]);
    }
  }

  /** Once a booking is cancelled, no reminder of it is ever pending or claimed again. */
  lemma {:induction false} CancelledStaysSilent(cat: Catalog, db: Db, actions: seq<Action>, booking: string, job: string)
    requires Coherent(db) && Legal(cat, db, actions)
    requires booking in db.bookings && db.bookings[booking].status == Cancelled
    requires HasReminder(Run(cat, db, actions).queue.jobs, booking, job)
    ensures Run(cat, db, actions).queue.jobs[job].status !in {Q.Pending, Q.Claimed}
  {
    hide Run, Legal;
    RunKeepsCoherent(cat, db, actions);
    BookingProofs.BookingsLast(cat, db, actions, booking);
  }

  /** A reminder no worker has claimed yet always tells the booking's current start. */
  lemma {:induction false} UnclaimedTellsTheStart(cat: Catalog, db: Db, actions: seq<Action>, booking: string, job: string)
    requires Coherent(db) && Legal(cat, db, actions)
    requires HasReminder(Run(cat, db, actions).queue.jobs, booking, job) && Run(cat, db, actions).queue.jobs[job].attempts == 0
    ensures booking in Run(cat, db, actions).bookings
    ensures Run(cat, db, actions).queue.jobs[job].startsAt == Q.Seconds(Run(cat, db, actions).bookings[booking].start)
  {
    hide Run, Legal;
    RunKeepsCoherent(cat, db, actions);
  }

  /** Every booking has its reminder: the outbox row commits with the booking. */
  lemma {:induction false} EveryBookingHasAReminder(cat: Catalog, db: Db, actions: seq<Action>, booking: string) returns (job: string)
    requires Coherent(db) && Legal(cat, db, actions) && booking in Run(cat, db, actions).bookings
    ensures HasReminder(Run(cat, db, actions).queue.jobs, booking, job)
  {
    hide Run, Legal;
    RunKeepsCoherent(cat, db, actions);
    job :| HasReminder(Run(cat, db, actions).queue.jobs, booking, job);
  }
}

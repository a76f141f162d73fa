/** What the caller of a booking transaction can rely on: which outcomes write, what they
    write, and that nothing else changes. */
module BookingEffects {
  import opened Domain
  import opened Availability
  import Q = JobQueue
  import opened Bookings
  import opened BookingProofs

  // ---- effects ----

  ghost predicate HasKey(jobs: Q.Rows, key: string) {
    exists j :: j in jobs && jobs[j].key == Some(key)
  }

  /** A job that is waiting for its first attempt. */
  predicate IsNew(j: Q.Job, booking: string, kind: Q.Kind, key: string, startsAt: int, zone: string, now: int) {
    && j.booking == booking && j.kind == kind && j.key == Some(key) && j.status == Q.Pending && j.attempts == 0 && j.max == 5
    && j.nextRetry == now && j.claimedAt == None && j.startsAt == startsAt && j.timezone == zone
  }

  /** No job changes and at most the two new rows appear: the reminder, which tells the start in
      whole seconds, and the CRM job, each unless a row with its key was there already. */
  ghost predicate JobsAdded(before: Q.Rows, after: Q.Rows, ids: Ids, start: int, zone: string, now: int) {
    && (forall j :: j in before ==> j in after && after[j] == before[j])
    && (forall j :: j in after && j !in before ==> j == ids.reminder || j == ids.crm)
    && (ids.reminder in after <==> !HasKey(before, "reminder:" + ids.booking))
    && (ids.crm in after <==> !HasKey(before, "crm_upsert:" + ids.booking))
    && (ids.reminder in after ==>
          IsNew(after[ids.reminder], ids.booking, Q.SendReminder, "reminder:" + ids.booking, start / 1_000_000_000, zone, now))
    && (ids.crm in after ==> IsNew(after[ids.crm], ids.booking, Q.CrmUpsert, "crm_upsert:" + ids.booking, 0, "", now))
  }

  /** The row a request asks for, with the service's own length and buffers. */
  predicate IsBookedFor(b: Booking, customer: string, service: Service, staff: string, start: int) {
    && b.customer == customer && b.service == service.id && b.staff == staff && b.status == Confirmed && b.version == 1
    && b.start == start && b.end == start + service.duration && b.before == service.bufferBefore && b.after == service.bufferAfter
  }

  /** A new booking, its jobs and its finished record are there, and all else is as before. */
  ghost predicate Appears(before: Db, after: Db, rk: RecordKey, digest: Digest, ids: Ids, zone: string, now: int) {
    && ids.booking !in before.bookings && ids.booking in after.bookings
    && after.bookings == before.bookings[ids.booking := after.bookings[ids.booking]]
    && after.records == before.records[rk := Record(digest, Some(ids.booking))] && rk !in before.records
    && after.queue.letters == before.queue.letters
    && JobsAdded(before.queue.jobs, after.queue.jobs, ids, after.bookings[ids.booking].start, zone, now)
  }

  predicate IsReminder(j: Q.Job, booking: string) {
    j.booking == booking && j.kind == Q.SendReminder
  }

  /** The confirmed booking has the new times and the next version, its pending reminders tell
      the new start and zone, and no other booking or job changes. */
  ghost predicate Rescheduled(before: Db, after: Db, id: string, start: int, end: int, zone: string) {
    && id in before.bookings && before.bookings[id].status == Confirmed
    && after.bookings == before.bookings[id := before.bookings[id].(start := start, end := end, version := before.bookings[id].version + 1)]
    && after.queue.letters == before.queue.letters && after.queue.jobs.Keys == before.queue.jobs.Keys
    && (forall j :: j in before.queue.jobs && IsReminder(before.queue.jobs[j], id) && before.queue.jobs[j].status == Q.Pending ==>
          after.queue.jobs[j] == before.queue.jobs[j].(startsAt := start / 1_000_000_000, timezone := zone))
    && (forall j :: j in before.queue.jobs && !(IsReminder(before.queue.jobs[j], id) && before.queue.jobs[j].status == Q.Pending) ==>
          after.queue.jobs[j] == before.queue.jobs[j])
  }

  /** The confirmed booking is cancelled in its next version, its pending and claimed reminders
      are cancelled, and no other booking or job changes. */
  ghost predicate Silenced(before: Db, after: Db, id: string) {
    && id in before.bookings && before.bookings[id].status == Confirmed
    && after.bookings == before.bookings[id := before.bookings[id].(status := Cancelled, version := before.bookings[id].version + 1)]
    && after.queue.letters == before.queue.letters && after.queue.jobs.Keys == before.queue.jobs.Keys
    && (forall j :: j in before.queue.jobs && IsReminder(before.queue.jobs[j], id) && before.queue.jobs[j].status in {Q.Pending, Q.Claimed} ==>
          after.queue.jobs[j] == before.queue.jobs[j].(status := Q.Cancelled, claimedAt := None))
    && (forall j :: j in before.queue.jobs && !(IsReminder(before.queue.jobs[j], id) && before.queue.jobs[j].status in {Q.Pending, Q.Claimed}) ==>
          after.queue.jobs[j] == before.queue.jobs[j])
  }

  // ---- creating ----

  lemma EnqueueEffect(jobs: Q.Rows, id: string, j: Q.Job)
    requires id !in jobs && j.key.Some?
    ensures var after := Q.EnqueueRow(jobs, id, j);
            && (forall k :: k in jobs ==> k in after && after[k] == jobs[k])
            && (forall k :: k in after && k !in jobs ==> k == id)
            && (id in after <==> !HasKey(jobs, j.key.value)) && (id in after ==> after[id] == j)
  {
  }

  lemma WithJobsEffect(jobs: Q.Rows, ids: Ids, start: int, zone: string, now: int)
    requires ids.reminder !in jobs && ids.crm !in jobs && ids.reminder != ids.crm
    ensures JobsAdded(jobs, WithJobs(jobs, ids, start, zone, now), ids, start, zone, now)
  {
    hide Q.EnqueueRow, HasKey;
    var reminder := NewJob(ids.booking, Q.SendReminder, ReminderKey(ids.booking), now, Q.Seconds(start), zone);
    var crm := NewJob(ids.booking, Q.CrmUpsert, CrmKey(ids.booking), now, 0, "");
    var first := Q.EnqueueRow(jobs, ids.reminder, reminder);
    EnqueueEffect(jobs, ids.reminder, reminder);
    EnqueueEffect(first, ids.crm, crm);
    OtherKey(jobs, first, ids);
  }

  lemma OtherKey(jobs: Q.Rows, first: Q.Rows, ids: Ids)
    requires forall k :: k in jobs ==> k in first && first[k] == jobs[k]
    requires forall k :: k in first && k !in jobs ==> first[k].key == Some("reminder:" + ids.booking)
    ensures HasKey(first, "crm_upsert:" + ids.booking) <==> HasKey(jobs, "crm_upsert:" + ids.booking)
  {
    var crm, reminder := "crm_upsert:" + ids.booking, "reminder:" + ids.booking;
    assert crm[0] == 'c' && reminder[0] == 'r';
    if j :| j in jobs && jobs[j].key == Some(crm) { assert first[j].key == Some(crm); }
  }

  lemma InsertEffect(db: Db, rk: RecordKey, digest: Digest, b: Booking, zone: string, ids: Ids, now: int)
    requires FreshIds(db, ids) && rk !in db.records
    ensures var r := Insert(db, rk, digest, b, zone, ids, now);
            if Violates(db.bookings, ids.booking, b) then r == Result(db, ConstraintViolated)
            else r.outcome == Done(ids.booking) && Appears(db, r.db, rk, digest, ids, zone, now) && r.db.bookings[ids.booking] == b
  {
    hide Violates, WithJobs, JobsAdded;
    WithJobsEffect(db.queue.jobs, ids, b.start, zone, now);
  }

  /** What a create leaves behind when it is done, field by field. */
  ghost predicate CreatedFor(cat: Catalog, before: Db, after: Db, rk: RecordKey, digest: Digest, ids: Ids,
                             customer: string, service: string, staff: string, start: int, now: int) {
    && service in cat.services && staff in cat.staff && (service, staff) in cat.eligible && now < start
    && Appears(before, after, rk, digest, ids, cat.staff[staff].zone, now)
    && IsBookedFor(after.bookings[ids.booking], customer, cat.services[service], staff, start)
  }

  lemma CreateEffect(cat: Catalog, db: Db, req: CreateRequest, now: int, dbNow: int, ids: Ids)
    requires FreshIds(db, ids)
    ensures var r := Create(cat, db, req, now, dbNow, ids);
            && (!r.outcome.Done? ==> r.db == db)
            && (r.outcome.Done? ==>
                  && now < req.start && r.outcome == Done(ids.booking)
                  && CreatedFor(cat, db, r.db, RecordKey(OpCreate, req.customer, req.key),
                                CreateDigest(req.customer, req.conversation, req.service, req.staff, req.start, req.notes), ids,
                                req.customer, req.service, req.staff, req.start, dbNow))
  {
    hide Insert, Available, Checkable, DayQuery, Appears, FreshIds, Violates;
    var rk := RecordKey(OpCreate, req.customer, req.key);
    if Offers(cat, req.service, req.staff) && rk !in db.records {
      InsertEffect(db, rk, DigestOf(req), NewBooking(req.customer, cat.services[req.service], req.staff, req.start),
                   cat.staff[req.staff].zone, ids, dbNow);
    }
  }

  lemma AdminCreateEffect(cat: Catalog, db: Db, req: AdminCreateRequest, dbNow: int, ids: Ids)
    requires FreshIds(db, ids)
    ensures var r := AdminCreate(cat, db, req, dbNow, ids);
            && (!r.outcome.Done? ==> r.db == db)
            && (r.outcome.Done? ==>
                  && r.outcome == Done(ids.booking)
                  && CreatedFor(cat, db, r.db, RecordKey(OpAdminCreate, req.customer, req.key),
                                AdminCreateDigest(req.customer, req.service, req.staff, req.start, req.notes), ids,
                                req.customer, req.service, req.staff, req.start, dbNow))
  {
    hide Insert, Appears, FreshIds, Violates;
    var rk := RecordKey(OpAdminCreate, req.customer, req.key);
    if Offers(cat, req.service, req.staff) && rk !in db.records {
      InsertEffect(db, rk, AdminCreateDigest(req.customer, req.service, req.staff, req.start, req.notes),
                   NewBooking(req.customer, cat.services[req.service], req.staff, req.start),
                   cat.staff[req.staff].zone, ids, dbNow);
    }
  }

  // ---- moving and cancelling ----

  lemma MovedEffect(db: Db, id: string, start: int, end: int, zone: string, records: map<RecordKey, Record>)
    requires id in db.bookings && db.bookings[id].status == Confirmed
    ensures var r := Moved(db, id, start, end, zone, records);
            || r == Result(db, ConstraintViolated)
            || (r.outcome == Done(id) && r.db.records == records && Rescheduled(db, r.db, id, start, end, zone))
  {
    hide Violates;
  }

  lemma MoveEffect(db: Db, req: MoveRequest)
    ensures var r := Move(db, req);
            && (!r.outcome.Done? ==> r.db == db)
            && (r.outcome.Done? ==>
                  && Rescheduled(db, r.db, req.booking, req.start, req.end, req.zone) && db.bookings[req.booking].customer == req.owner
                  && r.db.records == if req.key == "" then db.records
                                     else db.records[RecordKey(OpMove, req.owner, req.key) :=
                                                       Record(MoveDigest(req.booking, req.start, req.end), Some(req.booking))])
  {
    hide Moved, Rescheduled, Recorded;
    RecordedIsNeverDone();
    if req.booking in db.bookings && db.bookings[req.booking].status == Confirmed {
      MovedEffect(db, req.booking, req.start, req.end, req.zone,
                  if req.key == "" then db.records
                  else db.records[RecordKey(OpMove, req.owner, req.key) :=
                                    Record(MoveDigest(req.booking, req.start, req.end), Some(req.booking))]);
    }
  }

  lemma RecordedIsNeverDone()
    ensures forall db: Db, rk, digest :: rk in db.records ==> !Recorded(db, rk, digest).Done?
  {
  }

  lemma AdminMoveEffect(cat: Catalog, db: Db, req: AdminMoveRequest)
    ensures var r := AdminMove(cat, db, req);
            && (!r.outcome.Done? ==> r.db == db)
            && (r.outcome.Done? ==>
                  && req.booking in db.bookings && db.bookings[req.booking].version == req.expected
                  && db.bookings[req.booking].staff in cat.staff
                  && Rescheduled(db, r.db, req.booking, req.start,
                                 req.start + (db.bookings[req.booking].end - db.bookings[req.booking].start),
                                 cat.staff[db.bookings[req.booking].staff].zone)
                  && r.db.records == db.records[RecordKey(OpAdminMove, req.booking, req.key) :=
                                                  Record(AdminMoveDigest(req.booking, req.start), Some(req.booking))])
  {
    hide Moved, Rescheduled, Recorded;
    RecordedIsNeverDone();
    if req.booking in db.bookings && db.bookings[req.booking].status == Confirmed && db.bookings[req.booking].staff in cat.staff {
      var b := db.bookings[req.booking];
      MovedEffect(db, req.booking, req.start, req.start + (b.end - b.start), cat.staff[b.staff].zone,
                  db.records[RecordKey(OpAdminMove, req.booking, req.key) :=
                               Record(AdminMoveDigest(req.booking, req.start), Some(req.booking))]);
    }
  }

  lemma RetiredEffect(db: Db, id: string, records: map<RecordKey, Record>)
    requires id in db.bookings && db.bookings[id].status == Confirmed
    ensures var r := Retired(db, id, records);
            r.outcome == Done(id) && r.db.records == records && Silenced(db, r.db, id)
  {
  }

  lemma CancelEffect(db: Db, req: CancelRequest)
    ensures var r := CancelOwn(db, req);
            var rk := RecordKey(OpCancel, req.owner, req.key);
            var digest := CancelDigest(CancelText(req.booking, req.reason));
            && (r.outcome.Done? ==>
                  && Silenced(db, r.db, req.booking) && db.bookings[req.booking].customer == req.owner
                  && r.db.records == if req.key == "" then db.records else db.records[rk := Record(digest, Some(req.booking))])
            && (!r.outcome.Done? ==>
                  r.db == if rk !in db.records && CancelsTheCancelled(db, req)
                          then db.(records := db.records[rk := Record(digest, None)]) else db)
  {
    hide Retired, Silenced, Recorded, CancelText;
    RecordedIsNeverDone();
    if req.booking in db.bookings && db.bookings[req.booking].status == Confirmed {
      RetiredEffect(db, req.booking,
                    if req.key == "" then db.records
                    else db.records[RecordKey(OpCancel, req.owner, req.key) :=
                                      Record(CancelDigest(CancelText(req.booking, req.reason)), Some(req.booking))]);
    }
  }

  lemma AdminCancelEffect(db: Db, req: AdminCancelRequest)
    ensures var r := AdminCancel(db, req);
            && (!r.outcome.Done? ==> r.db == db)
            && (r.outcome.Done? ==>
                  && Silenced(db, r.db, req.booking) && db.bookings[req.booking].version == req.expected
                  && r.db.records == db.records)
  {
    hide Retired, Silenced;
    if req.booking in db.bookings && db.bookings[req.booking].status == Confirmed {
      RetiredEffect(db, req.booking, db.records);
    }
  }

  // ---- the invariant ----

  /** No transaction leaves two live bookings of a staff member overlapping. */
  lemma StaysExclusive(cat: Catalog, db: Db, a: Action)
    requires Enabled(db, a) && Exclusive(db.bookings)
    ensures Exclusive(Perform(cat, db, a).db.bookings)
  {
    hide Perform, Enabled, Exclusive, BookingChange;
    StepWritesOneRow(cat, db, a);
    ChangeKeepsExclusive(db.bookings, Perform(cat, db, a).db.bookings);
  }
}

/** The booking transactions of internal/scheduling/repository.go, each as one atomic step
    on the bookings, the idempotency records and the job queue. */
module Bookings {
  import opened Domain
  import opened Intervals
  import opened Zones
  import opened Availability
  import Q = JobQueue

  // ---- rows ----

  datatype Status = Confirmed | CheckedIn | Completed | NoShow | Cancelled

  datatype Booking = Booking(customer: string, service: string, staff: string, status: Status,
                             start: int, end: int, before: int, after: int, version: int)

  /** The scopes of idempotency records. */
  datatype Operation = OpCreate | OpMove | OpCancel | OpAdminCreate | OpAdminMove

  datatype RecordKey = RecordKey(op: Operation, owner: string, key: string)

  /** Ideal digests of the requests; the cancel digest is the text the code stores. */
  datatype Digest =
    | CreateDigest(customer: string, conversation: string, service: string, staff: string, start: int, notes: string)
    | AdminCreateDigest(customer: string, service: string, staff: string, start: int, notes: string)
    | MoveDigest(booking: string, start: int, end: int)
    | AdminMoveDigest(booking: string, start: int)
    | CancelDigest(text: string)

  /** A record without a resource is in progress. */
  datatype Record = Record(digest: Digest, resource: Option<string>)

  datatype Db = Db(bookings: map<string, Booking>, records: map<RecordKey, Record>, queue: Q.Queue)

  /** Catalog rows the transactions read: the services a staff member may perform, the
      zone, the weekly rules and the blocks. */
  datatype Staff = Staff(off: Offset, zone: string, rules: seq<Rule>, blocks: seq<Interval>)

  datatype Catalog = Catalog(services: map<string, Service>, staff: map<string, Staff>, eligible: set<(string, string)>)

  predicate Offers(cat: Catalog, service: string, staff: string) {
    service in cat.services && staff in cat.staff && (service, staff) in cat.eligible
  }

  // ---- the exclusion constraint ----

  function Range(b: Booking): Interval {
    Interval(b.start - b.before, b.end + b.after)
  }

  predicate Live(b: Booking) {
    b.status != Cancelled
  }

  predicate Collide(a: Booking, b: Booking) {
    Live(a) && Live(b) && a.staff == b.staff && Overlap(Range(a), Range(b))
  }

  predicate Violates(bookings: map<string, Booking>, id: string, b: Booking) {
    exists other :: other in bookings && other != id && Collide(bookings[other], b)
  }

  // ---- availability under the lock ----

  const PADDING := 14_400_000_000_000

  /** A busy interval that loadBusy returns for the window. */
  ghost predicate Loaded(blocks: seq<Interval>, bookings: map<string, Booking>, staff: string, from: int, to: int, b: Busy) {
    || (exists i :: 0 <= i < |blocks| && b == Busy(blocks[i].start, blocks[i].end, 0, 0)
                    && blocks[i].start < to + PADDING && from - PADDING < blocks[i].end)
    || (exists id :: id in bookings && LoadedBooking(bookings[id], staff, from, to) && b == BusyOf(bookings[id]))
  }

  predicate LoadedBooking(b: Booking, staff: string, from: int, to: int) {
    b.staff == staff && Live(b) && Overlap(Range(b), Interval(from - PADDING, to + PADDING))
  }

  function BusyOf(b: Booking): Busy {
    Busy(b.start, b.end, b.before, b.after)
  }

  /** A walk over the days of the slot's own day makes headway. */
  ghost predicate DayGoesForward(off: Offset, s: int) {
    var day := Midnight(off, DateOf(off, s));
    GoesForward(off, day, NextDay(off, day))
  }

  /** The recheck's search over the slot's own day, apart from what is busy. */
  function DayQuery(service: Service, staff: string, row: Staff, s: int): Search {
    var day := Midnight(row.off, DateOf(row.off, s));
    Search(service, staff, day, NextDay(row.off, day), row.rules, [], 15 * MINUTE, 0)
  }

  ghost predicate BusyIs(row: Staff, bookings: map<string, Booking>, q: Search, busy: seq<Busy>) {
    forall b :: b in busy <==> Loaded(row.blocks, bookings, q.staff, q.from, q.to, b)
  }

  /** The recheck can be answered, and answers yes, for the busy rows the window loads. */
  ghost predicate Checkable(row: Staff, bookings: map<string, Booking>, q: Search) {
    Accepted(q) && forall b :: Loaded(row.blocks, bookings, q.staff, q.from, q.to, b) ==> BusyValid(b)
  }

  ghost predicate Available(row: Staff, bookings: map<string, Booking>, q: Search, s: int)
    requires Accepted(q)
  {
    && Reached(row.off, q, s)
    && forall b :: Loaded(row.blocks, bookings, q.staff, q.from, q.to, b) ==> !Overlap(Occupied(q.service, s), BusySpan(b))
  }

  // ---- requests and results ----

  datatype CreateRequest = CreateRequest(customer: string, conversation: string, service: string, staff: string,
                                         start: int, notes: string, key: string)

  datatype AdminCreateRequest = AdminCreateRequest(customer: string, service: string, staff: string,
                                                   start: int, notes: string, key: string)

  datatype MoveRequest = MoveRequest(booking: string, owner: string, start: int, end: int, zone: string, key: string)

  datatype AdminMoveRequest = AdminMoveRequest(booking: string, expected: int, start: int, key: string)

  datatype CancelRequest = CancelRequest(booking: string, owner: string, reason: string, key: string)

  datatype AdminCancelRequest = AdminCancelRequest(booking: string, expected: int, reason: string, key: string)

  datatype Outcome =
    | Done(booking: string)
    | Replayed(booking: string)
    | InvalidInput
    | NotFound
    | SlotUnavailable
    | ConstraintViolated
    | IdempotencyConflict
    | IncompleteRecord
    | StateConflict
    | VersionConflict
    | DatabaseError

  datatype Result = Result(db: Db, outcome: Outcome)

  /** Row ids drawn by the database for a new booking and its two jobs. */
  datatype Ids = Ids(booking: string, reminder: string, crm: string)

  predicate FreshIds(db: Db, ids: Ids) {
    ids.booking !in db.bookings && ids.reminder !in db.queue.jobs && ids.crm !in db.queue.jobs && ids.reminder != ids.crm
  }

  predicate KeyFits(key: string) {
    16 <= |key| <= 128
  }

  // ---- shared parts of the transactions ----

  /** A request whose key is on record: the recorded answer or a refusal, never a write. */
  function Recorded(db: Db, rk: RecordKey, digest: Digest): Outcome
    requires rk in db.records
  {
    var rec := db.records[rk];
    if rec.digest != digest then IdempotencyConflict
    else if rec.resource.None? then IncompleteRecord
    else if rec.resource.value !in db.bookings then NotFound
    else Replayed(rec.resource.value)
  }

  function ReminderKey(booking: string): string {
    "reminder:" + booking
  }

  function CrmKey(booking: string): string {
    "crm_upsert:" + booking
  }

  function NewJob(booking: string, kind: Q.Kind, key: string, now: int, startsAt: int, zone: string): Q.Job {
    Q.Job(booking, kind, Some(key), Q.Pending, 0, 5, now, None, startsAt, zone)
  }

  /** enqueueBookingCreatedJobs: the reminder and the CRM job of a new booking. */
  function WithJobs(jobs: Q.Rows, ids: Ids, start: int, zone: string, now: int): Q.Rows {
    Q.EnqueueRow(
      Q.EnqueueRow(jobs, ids.reminder, NewJob(ids.booking, Q.SendReminder, ReminderKey(ids.booking), now, Q.Seconds(start), zone)),
      ids.crm, NewJob(ids.booking, Q.CrmUpsert, CrmKey(ids.booking), now, 0, ""))
  }

  /** The insert that ends both create transactions. */
  function Insert(db: Db, rk: RecordKey, digest: Digest, b: Booking, zone: string, ids: Ids, now: int): Result {
    if Violates(db.bookings, ids.booking, b) then Result(db, ConstraintViolated)
    else
      Result(Db(db.bookings[ids.booking := b], db.records[rk := Record(digest, Some(ids.booking))],
                db.queue.(jobs := WithJobs(db.queue.jobs, ids, b.start, zone, now))),
             Done(ids.booking))
  }

  function NewBooking(customer: string, service: Service, staff: string, start: int): Booking {
    Booking(customer, service.id, staff, Confirmed, start, start + service.duration, service.bufferBefore, service.bufferAfter, 1)
  }

  /** The update that ends both reschedule transactions. */
  function Moved(db: Db, id: string, start: int, end: int, zone: string, records: map<RecordKey, Record>): Result
    requires id in db.bookings
  {
    var b := db.bookings[id].(start := start, end := end, version := db.bookings[id].version + 1);
    if Violates(db.bookings, id, b) then Result(db, ConstraintViolated)
    else
      Result(Db(db.bookings[id := b], records, db.queue.(jobs := Q.MoveRows(db.queue.jobs, id, start, zone))), Done(id))
  }

  /** The update that ends both cancel transactions. */
  function Retired(db: Db, id: string, records: map<RecordKey, Record>): Result
    requires id in db.bookings
  {
    var b := db.bookings[id].(status := Cancelled, version := db.bookings[id].version + 1);
    Result(Db(db.bookings[id := b], records,
              db.queue.(jobs := Q.CancelRows(db.queue.jobs, id, Some(Q.SendReminder)))), Done(id))
  }

  // ---- the transactions ----

  predicate CreateComplete(req: CreateRequest) {
    req.customer != "" && req.service != "" && req.staff != "" && req.start != ZERO_TIME
  }

  function DigestOf(req: CreateRequest): Digest {
    CreateDigest(req.customer, req.conversation, req.service, req.staff, req.start, req.notes)
  }

  /** createBooking: recheck on the engine's grid under the lock, then insert. */
  ghost function Create(cat: Catalog, db: Db, req: CreateRequest, now: int, dbNow: int, ids: Ids): Result {
    var rk := RecordKey(OpCreate, req.customer, req.key);
    if !CreateComplete(req) then Result(db, InvalidInput)
    else if req.start <= now then Result(db, SlotUnavailable)
    else if !KeyFits(req.key) || 500 < |req.notes| then Result(db, InvalidInput)
    else if rk in db.records then Result(db, Recorded(db, rk, DigestOf(req)))
    else if !Offers(cat, req.service, req.staff) then Result(db, NotFound)
    else if req.start <= dbNow then Result(db, SlotUnavailable)
    else
      var service, row := cat.services[req.service], cat.staff[req.staff];
      var q := DayQuery(service, req.staff, row, req.start);
      if !Checkable(row, db.bookings, q) then Result(db, InvalidInput)
      else if !Available(row, db.bookings, q, req.start) then Result(db, SlotUnavailable)
      else Insert(db, rk, DigestOf(req), NewBooking(req.customer, service, req.staff, req.start), row.zone, ids, dbNow)
  }

  predicate AdminCreateValid(req: AdminCreateRequest) {
    && req.customer != "" && req.service != "" && req.staff != "" && req.start != ZERO_TIME
    && |req.notes| <= 500 && KeyFits(req.key)
  }

  /** adminCreateBooking: no grid, the exclusion constraint alone. */
  function AdminCreate(cat: Catalog, db: Db, req: AdminCreateRequest, dbNow: int, ids: Ids): Result {
    var rk := RecordKey(OpAdminCreate, req.customer, req.key);
    var digest := AdminCreateDigest(req.customer, req.service, req.staff, req.start, req.notes);
    if !AdminCreateValid(req) then Result(db, InvalidInput)
    else if rk in db.records then Result(db, Recorded(db, rk, digest))
    else if !Offers(cat, req.service, req.staff) then Result(db, NotFound)
    else if req.start <= dbNow then Result(db, SlotUnavailable)
    else
      Insert(db, rk, digest, NewBooking(req.customer, cat.services[req.service], req.staff, req.start),
             cat.staff[req.staff].zone, ids, dbNow)
  }

  predicate MoveValid(req: MoveRequest) {
    && req.booking != "" && req.owner != "" && req.start != ZERO_TIME && req.end != ZERO_TIME && req.start < req.end
  }

  /** rescheduleBooking: by its owner, to the start and end of the request. */
  function Move(db: Db, req: MoveRequest): Result {
    var rk := RecordKey(OpMove, req.owner, req.key);
    var digest := MoveDigest(req.booking, req.start, req.end);
    if !MoveValid(req) then Result(db, InvalidInput)
    else if req.key != "" && !KeyFits(req.key) then Result(db, DatabaseError)
    else if req.key != "" && rk in db.records then Result(db, Recorded(db, rk, digest))
    else if req.booking !in db.bookings || db.bookings[req.booking].customer != req.owner then Result(db, NotFound)
    else if db.bookings[req.booking].status != Confirmed then Result(db, StateConflict)
    else
      var records := if req.key == "" then db.records else db.records[rk := Record(digest, Some(req.booking))];
      Moved(db, req.booking, req.start, req.end, req.zone, records)
  }

  /** adminRescheduleBooking: only against the version the operator saw. */
  function AdminMove(cat: Catalog, db: Db, req: AdminMoveRequest): Result {
    var rk := RecordKey(OpAdminMove, req.booking, req.key);
    var digest := AdminMoveDigest(req.booking, req.start);
    if req.booking == "" || req.start == ZERO_TIME || req.expected <= 0 || !KeyFits(req.key) then Result(db, InvalidInput)
    else if rk in db.records then Result(db, Recorded(db, rk, digest))
    else if req.booking !in db.bookings then Result(db, NotFound)
    else
      var b := db.bookings[req.booking];
      if b.version != req.expected then Result(db, VersionConflict)
      else if b.status != Confirmed then Result(db, StateConflict)
      else if b.staff !in cat.staff then Result(db, DatabaseError)
      else Moved(db, req.booking, req.start, req.start + (b.end - b.start), cat.staff[b.staff].zone,
                 db.records[rk := Record(digest, Some(req.booking))])
  }

  function CancelText(booking: string, reason: string): string {
    "cancel:" + booking + ":" + reason
  }

  /** The length the records table admits for a stored digest. */
  predicate DigestFits(text: string) {
    32 <= |text| <= 128
  }

  /** cancelBooking: by its owner. The branch for a booking that is cancelled already
      commits the record it has just inserted, unfinished. */
  function CancelOwn(db: Db, req: CancelRequest): Result {
    var rk := RecordKey(OpCancel, req.owner, req.key);
    var digest := CancelDigest(CancelText(req.booking, req.reason));
    if req.booking == "" || req.owner == "" || req.reason == "" then Result(db, InvalidInput)
    else if req.key != "" && !(KeyFits(req.key) && DigestFits(digest.text)) then Result(db, DatabaseError)
    else if req.key != "" && rk in db.records then Result(db, Recorded(db, rk, digest))
    else if req.booking !in db.bookings || db.bookings[req.booking].customer != req.owner then Result(db, NotFound)
    else if db.bookings[req.booking].status == Cancelled then
      Result(if req.key == "" then db else db.(records := db.records[rk := Record(digest, None)]), Replayed(req.booking))
    else if db.bookings[req.booking].status != Confirmed then Result(db, StateConflict)
    else if 500 < |req.reason| then Result(db, DatabaseError)
    else
      Retired(db, req.booking, if req.key == "" then db.records else db.records[rk := Record(digest, Some(req.booking))])
  }

  /** adminCancelBooking: keeps no record. */
  function AdminCancel(db: Db, req: AdminCancelRequest): Result {
    if req.booking == "" || req.reason == "" || req.expected <= 0 || 500 < |req.reason| || !KeyFits(req.key)
    then Result(db, InvalidInput)
    else if req.booking !in db.bookings then Result(db, NotFound)
    else
      var b := db.bookings[req.booking];
      if b.status == Cancelled then Result(db, Replayed(req.booking))
      else if b.version != req.expected then Result(db, VersionConflict)
      else if b.status != Confirmed then Result(db, StateConflict)
      else Retired(db, req.booking, db.records)
  }

  // ---- runs ----

  datatype Action =
    | ACreate(create: CreateRequest, now: int, dbNow: int, ids: Ids)
    | AAdminCreate(adminCreate: AdminCreateRequest, dbNow: int, ids: Ids)
    | AMove(move: MoveRequest)
    | AAdminMove(adminMove: AdminMoveRequest)
    | ACancel(cancel: CancelRequest)
    | AAdminCancel(adminCancel: AdminCancelRequest)
    | AWork(work: Q.Action)

  /** Workers and reapers; dead-letter replay is an operator's repair and not part of a run. */
  predicate Works(a: Q.Action) {
    a.AClaim? || a.AComplete? || a.AFail? || a.AReap?
  }

  predicate Enabled(db: Db, a: Action) {
    match a
    case ACreate(_, _, _, ids) => FreshIds(db, ids)
    case AAdminCreate(_, _, ids) => FreshIds(db, ids)
    case AWork(work) => Works(work) && Q.Enabled(db.queue, work)
    case _ => true
  }

  ghost function Perform(cat: Catalog, db: Db, a: Action): Result {
    match a
    case ACreate(req, now, dbNow, ids) => Create(cat, db, req, now, dbNow, ids)
    case AAdminCreate(req, dbNow, ids) => AdminCreate(cat, db, req, dbNow, ids)
    case AMove(req) => Move(db, req)
    case AAdminMove(req) => AdminMove(cat, db, req)
    case ACancel(req) => CancelOwn(db, req)
    case AAdminCancel(req) => AdminCancel(db, req)
    case AWork(work) => Result(db.(queue := Q.Apply(db.queue, work)), Done(""))
  }

  ghost function Run(cat: Catalog, db: Db, actions: seq<Action>): Db {
    if actions == [] then db else Perform(cat, Run(cat, db, actions[..|actions| - 1]), actions[|actions| - 1]).db
  }

  ghost predicate Legal(cat: Catalog, db: Db, actions: seq<Action>) {
    actions == [] ||
    (Legal(cat, db, actions[..|actions| - 1]) && Enabled(Run(cat, db, actions[..|actions| - 1]), actions[|actions| - 1]))
  }
}

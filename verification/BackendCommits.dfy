/** The backend step of the turn protocol, carried out by the booking transactions: the
    records table is the protocol's set of used keys (internal/scheduling/tool_backend.go). */
module BackendCommits {
  import opened Domain
  import Gateway
  import Protocol
  import Q = JobQueue
  import opened Bookings
  import opened BookingProofs
  import opened BookingEffects

  // ---- commands as requests ----

  function OpOf(tool: Tool): Operation {
    match tool
    case CreateBooking => OpCreate
    case Reschedule => OpMove
    case Cancel => OpCancel
  }

  /** The tool backend: the command of one tenant, with the checks it adds, as a transaction. */
  ghost function Backend(tenant: string, cat: Catalog, db: Db, c: Gateway.Command, now: int, dbNow: int, ids: Ids): Result {
    if c.scope.tenant != tenant || c.scope.customer == "" then Result(db, NotFound)
    else
      match c
      case CreateCommand(scope, service, staff, start, end, timezone, _, notes, key) =>
        if !Offers(cat, service, staff) || end != start + cat.services[service].duration || timezone != cat.staff[staff].zone
        then Result(db, SlotUnavailable)
        else Create(cat, db, CreateRequest(scope.customer, scope.conversation, service, staff, start, notes, key), now, dbNow, ids)
      case RescheduleCommand(scope, booking, start, end, timezone, key) =>
        Move(db, MoveRequest(booking, scope.customer, start, end, timezone, key))
      case CancelCommand(scope, booking, reason, key) =>
        CancelOwn(db, CancelRequest(booking, scope.customer, reason, key))
  }

  function ToolOf(c: Gateway.Command): Tool {
    match c
    case CreateCommand(_, _, _, _, _, _, _, _, _) => CreateBooking
    case RescheduleCommand(_, _, _, _, _, _) => Reschedule
    case CancelCommand(_, _, _, _) => Cancel
  }

  function KeyFor(c: Gateway.Command): RecordKey {
    RecordKey(OpOf(ToolOf(c)), c.scope.customer, c.key)
  }

  function AbstractKey(c: Gateway.Command): Protocol.IdempotencyKey {
    Protocol.IdempotencyKey(ToolOf(c), c.scope.tenant, c.scope.customer, c.key)
  }

  /** A key of the tenant is used exactly when its record exists. */
  ghost predicate Represents(tenant: string, used: set<Protocol.IdempotencyKey>, records: map<RecordKey, Record>) {
    forall tool, customer, key ::
      RecordKey(OpOf(tool), customer, key) in records <==> Protocol.IdempotencyKey(tool, tenant, customer, key) in used
  }

  lemma KeysMatch(tenant: string, used: set<Protocol.IdempotencyKey>, records: map<RecordKey, Record>, c: Gateway.Command)
    requires Represents(tenant, used, records) && c.scope.tenant == tenant
    ensures KeyFor(c) in records <==> AbstractKey(c) in used
  {
  }

  lemma OneMoreKey(tenant: string, used: set<Protocol.IdempotencyKey>, records: map<RecordKey, Record>, c: Gateway.Command, rec: Record)
    requires Represents(tenant, used, records) && c.scope.tenant == tenant
    ensures Represents(tenant, used + {AbstractKey(c)}, records[KeyFor(c) := rec])
  {
    forall tool, customer, key
      ensures RecordKey(OpOf(tool), customer, key) in records[KeyFor(c) := rec] <==>
              Protocol.IdempotencyKey(tool, tenant, customer, key) in used + {AbstractKey(c)}
    {
      assert OpOf(tool) == OpOf(ToolOf(c)) <==> tool == ToolOf(c);
    }
  }

  // ---- one backend call ----

  /** A key on record: nothing is written. A fresh key: an answer leaves its record, and a
      failure leaves nothing. Bookings change only under a fresh key. */
  lemma {:induction false} BackendEffect(tenant: string, cat: Catalog, db: Db, c: Gateway.Command, now: int, dbNow: int, ids: Ids)
    requires FreshIds(db, ids) && c.key != ""
    ensures var r := Backend(tenant, cat, db, c, now, dbNow, ids);
            && (KeyFor(c) in db.records ==> r.db == db)
            && (!r.outcome.Done? && !r.outcome.Replayed? ==> r.db == db)
            && (KeyFor(c) !in db.records && (r.outcome.Done? || r.outcome.Replayed?) ==>
                  KeyFor(c) in r.db.records && r.db.records == db.records[KeyFor(c) := r.db.records[KeyFor(c)]])
  {
    hide Rescheduled, Silenced, CancelText, Recorded;
    RecordedIsNeverDone();
    match c
    case CreateCommand(scope, service, staff, start, end, timezone, _, notes, key) =>
      CreateAnswers(cat, db, CreateRequest(scope.customer, scope.conversation, service, staff, start, notes, key), now, dbNow, ids);
    case RescheduleCommand(scope, booking, start, end, timezone, key) =>
      MoveAnswers(db, MoveRequest(booking, scope.customer, start, end, timezone, key));
    case CancelCommand(scope, booking, reason, key) =>
      CancelAnswers(db, CancelRequest(booking, scope.customer, reason, key));
  }

  /** What a transaction does to the record of its key. */
  ghost predicate Answers(db: Db, r: Result, rk: RecordKey) {
    && (rk in db.records ==> r.db == db)
    && (!r.outcome.Done? && !r.outcome.Replayed? ==> r.db == db)
    && (rk !in db.records && (r.outcome.Done? || r.outcome.Replayed?) ==>
          rk in r.db.records && r.db.records == db.records[rk := r.db.records[rk]])
  }

  lemma CreateAnswers(cat: Catalog, db: Db, req: CreateRequest, now: int, dbNow: int, ids: Ids)
    requires FreshIds(db, ids)
    ensures Answers(db, Create(cat, db, req, now, dbNow, ids), RecordKey(OpCreate, req.customer, req.key))
  {
    hide Available, Checkable, DayQuery, Violates, WithJobs, FreshIds, Offers, DigestOf;
  }

  lemma MoveAnswers(db: Db, req: MoveRequest)
    requires req.key != ""
    ensures Answers(db, Move(db, req), RecordKey(OpMove, req.owner, req.key))
  {
    hide Violates, Q.MoveRows;
  }

  lemma CancelAnswers(db: Db, req: CancelRequest)
    requires req.key != ""
    ensures Answers(db, CancelOwn(db, req), RecordKey(OpCancel, req.owner, req.key))
  {
    hide CancelText, Q.CancelRows;
  }

  /** The transactions implement the protocol's backend step: an answer is Commit, an error
      is BackendFails, and whenever a booking changes, the protocol records the mutation. */
  lemma {:induction false} TransactionsImplementCommit(tenant: string, cat: Catalog, db: Db, s: Protocol.State, turn: string, now: int, dbNow: int, ids: Ids)
    requires turn in s.turns && s.turns[turn].stage.Checked? && FreshIds(db, ids)
    requires var c := s.turns[turn].stage;
             c.binding.scope.tenant == tenant && Protocol.Stands(s.minted, c.binding, c.command) && c.command.key != ""
    requires Represents(tenant, s.used, db.records)
    ensures var c := s.turns[turn].stage;
            var r := Backend(tenant, cat, db, c.command, now, dbNow, ids);
            var next := Protocol.CommitStep(s, turn);
            && (r.outcome.Done? || r.outcome.Replayed? ==> Represents(tenant, next.used, r.db.records))
            && (!r.outcome.Done? && !r.outcome.Replayed? ==> r.db == db)
            && (r.db.bookings != db.bookings ==>
                  Protocol.Mutated(s.now, c.id, c.binding, c.command, s.now) in next.history
                  && Protocol.RecordKey(c.binding) !in s.used)
  {
    hide Backend, Represents;
    var c := s.turns[turn].stage;
    CommandKey(s.minted, c.binding, c.command);
    BackendEffect(tenant, cat, db, c.command, now, dbNow, ids);
    KeysMatch(tenant, s.used, db.records, c.command);
    var r := Backend(tenant, cat, db, c.command, now, dbNow, ids);
    if KeyFor(c.command) !in db.records && (r.outcome.Done? || r.outcome.Replayed?) {
      OneMoreKey(tenant, s.used, db.records, c.command, r.db.records[KeyFor(c.command)]);
    }
  }

  /** The same for a call its turn no longer waits for. */
  lemma {:induction false} TransactionsImplementLanding(tenant: string, cat: Catalog, db: Db, s: Protocol.State, f: Protocol.Flight, now: int, dbNow: int, ids: Ids)
    requires f in s.flights && FreshIds(db, ids) && f.binding.scope.tenant == tenant
    requires Protocol.Stands(s.minted, f.binding, f.command) && f.command.key != ""
    requires Represents(tenant, s.used, db.records)
    ensures var r := Backend(tenant, cat, db, f.command, now, dbNow, ids);
            var next := Protocol.LandStep(s, f);
            && (r.outcome.Done? || r.outcome.Replayed? ==> Represents(tenant, next.used, r.db.records))
            && (!r.outcome.Done? && !r.outcome.Replayed? ==> r.db == db)
            && (r.db.bookings != db.bookings ==>
                  Protocol.Mutated(s.now, f.id, f.binding, f.command, f.sent) in next.history
                  && Protocol.RecordKey(f.binding) !in s.used)
  {
    hide Backend, Represents;
    CommandKey(s.minted, f.binding, f.command);
    BackendEffect(tenant, cat, db, f.command, now, dbNow, ids);
    KeysMatch(tenant, s.used, db.records, f.command);
    var r := Backend(tenant, cat, db, f.command, now, dbNow, ids);
    if KeyFor(f.command) !in db.records && (r.outcome.Done? || r.outcome.Replayed?) {
      OneMoreKey(tenant, s.used, db.records, f.command, r.db.records[KeyFor(f.command)]);
    }
  }

  // ---- what a backend call writes ----

  /** The bookings after a command took effect, field by field. */
  ghost predicate TakesEffect(cat: Catalog, before: map<string, Booking>, after: map<string, Booking>, c: Gateway.Command, id: string) {
    && id in after && after == before[id := after[id]]
    && match c
       case CreateCommand(scope, service, staff, start, end, timezone, _, _, _) =>
         && id !in before && service in cat.services && staff in cat.staff && timezone == cat.staff[staff].zone
         && after[id].customer == scope.customer && after[id].service == cat.services[service].id && after[id].staff == staff
         && after[id].start == start && after[id].end == end && after[id].status == Confirmed
       case RescheduleCommand(scope, booking, start, end, _, _) =>
         && id == booking && id in before && before[id].customer == scope.customer && before[id].status == Confirmed
         && after[id] == before[id].(start := start, end := end, version := before[id].version + 1)
       case CancelCommand(scope, booking, _, _) =>
         && id == booking && id in before && before[id].customer == scope.customer && before[id].status == Confirmed
         && after[id] == before[id].(status := Cancelled, version := before[id].version + 1)
  }

  lemma {:induction false} BackendTakesEffect(tenant: string, cat: Catalog, db: Db, c: Gateway.Command, now: int, dbNow: int, ids: Ids) returns (id: string)
    requires FreshIds(db, ids) && Backend(tenant, cat, db, c, now, dbNow, ids).db.bookings != db.bookings
    ensures TakesEffect(cat, db.bookings, Backend(tenant, cat, db, c, now, dbNow, ids).db.bookings, c, id) && c.scope.tenant == tenant
  {
    hide CancelText, Recorded, Create, Move, CancelOwn, JobsAdded, CancelsTheCancelled;
    match c
    case CreateCommand(scope, service, staff, start, end, timezone, _, notes, key) =>
      CreateEffect(cat, db, CreateRequest(scope.customer, scope.conversation, service, staff, start, notes, key), now, dbNow, ids);
      id := ids.booking;
    case RescheduleCommand(scope, booking, start, end, timezone, key) =>
      MoveEffect(db, MoveRequest(booking, scope.customer, start, end, timezone, key));
      id := booking;
    case CancelCommand(scope, booking, reason, key) =>
      CancelEffect(db, CancelRequest(booking, scope.customer, reason, key));
      id := booking;
  }

  /** The key of the command is the key of the binding. */
  lemma CommandKey(minted: Gateway.Minted, b: Binding, command: Gateway.Command)
    requires Protocol.Stands(minted, b, command)
    ensures AbstractKey(command) == Protocol.RecordKey(b) && command.scope == b.scope
  {
  }

  /** Everything else that happens to the database leaves the used keys alone. */
  lemma OtherTransactionsKeepKeys(tenant: string, cat: Catalog, db: Db, a: Action, used: set<Protocol.IdempotencyKey>)
    requires Enabled(db, a) && (a.AAdminCreate? || a.AAdminMove? || a.AAdminCancel? || a.AWork?)
    requires Represents(tenant, used, db.records)
    ensures Represents(tenant, used, Perform(cat, db, a).db.records)
  {
    StepAddsOneRecord(cat, db, a);
    hide Perform, Enabled;
    var after := Perform(cat, db, a).db.records;
    forall tool, customer, key
      ensures RecordKey(OpOf(tool), customer, key) in after <==> RecordKey(OpOf(tool), customer, key) in db.records
    {
      OperatorKeysDiffer(cat, db, a, tool, customer, key);
    }
  }

  lemma OperatorKeysDiffer(cat: Catalog, db: Db, a: Action, tool: Tool, customer: string, key: string)
    requires Enabled(db, a) && (a.AAdminCreate? || a.AAdminMove? || a.AAdminCancel? || a.AWork?)
    ensures RecordKey(OpOf(tool), customer, key) in Perform(cat, db, a).db.records <==> RecordKey(OpOf(tool), customer, key) in db.records
  {
    hide Violates, WithJobs, Q.MoveRows, Q.CancelRows, Q.Apply, Offers, Recorded;
  }

  /** Under the protocol's invariant the command about to be sent has a key, so the step above applies. */
  lemma CheckedKey(cfg: Gateway.Config, s: Protocol.State, turn: string)
    requires Protocol.Inv(cfg, s) && turn in s.turns && s.turns[turn].stage.Checked?
    ensures s.turns[turn].stage.command.key != ""
    ensures Protocol.Stands(s.minted, s.turns[turn].stage.binding, s.turns[turn].stage.command)
  {
    hide Protocol.ClockInv, Protocol.LockInv, Protocol.MessageInv, Protocol.SavedInv, Protocol.ReplyInv, Protocol.StatusInv, Protocol.PledgeInv, Protocol.UsedInv, Protocol.Safe;
    var c := s.turns[turn].stage;
    assert Protocol.CheckedOk(s.turns[turn], s.rows, s.minted);
    assert Gateway.Frozen(cfg, s.minted, s.rows[c.id]);
  }
}

/** Conversations and booking tables together: the turn protocol of all tenants, with the
    backend calls of one tenant carried out as transactions on its tables, and the operators,
    workers and reapers who work on the same tables. */
module JointRuns {
  import opened Domain
  import Confirmations
  import Gateway
  import P = Protocol
  import ProtocolProofs
  import opened Bookings
  import opened BackendCommits
  import Decisions

  datatype Joint = Joint(protocol: P.State, db: Db)

  /** What a transaction reads besides the tables. */
  datatype Inputs = Inputs(now: int, dbNow: int, ids: Ids)

  datatype Move =
    | Talk(step: P.Action, at: int)
    | Send(turn: string, at: int, inputs: Inputs)
    | SendLate(flight: P.Flight, at: int, inputs: Inputs)
    | Operate(work: Bookings.Action)

  /** The server's fixed surroundings. */
  datatype World = World(cfg: Gateway.Config, tenant: string, cat: Catalog)

  predicate Answered(r: Result) {
    r.outcome.Done? || r.outcome.Replayed?
  }

  ghost function Transaction(w: World, db: Db, c: Gateway.Command, i: Inputs): Result {
    Backend(w.tenant, w.cat, db, c, i.now, i.dbNow, i.ids)
  }

  /** Protocol steps that do not commit in the tenant's tables. */
  predicate Outside(w: World, s: P.State, a: P.Action) {
    match a
    case Commit(turn) => turn in s.turns && s.turns[turn].stage.Checked? && s.turns[turn].stage.binding.scope.tenant != w.tenant
    case Land(flight) => flight.binding.scope.tenant != w.tenant
    case _ => true
  }

  predicate Operator(a: Bookings.Action) {
    a.AAdminCreate? || a.AAdminMove? || a.AAdminCancel? || a.AWork?
  }

  ghost predicate Talks(w: World, s: P.State, a: P.Action, at: int, s': P.State) {
    s.now < at && P.Enabled(w.cfg, s.(now := at), a) && s' == P.Apply(w.cfg, s.(now := at), a)
  }

  ghost predicate Sends(w: World, j: Joint, turn: string, at: int, i: Inputs, j': Joint) {
    && turn in j.protocol.turns && j.protocol.turns[turn].stage.Checked? && FreshIds(j.db, i.ids)
    && j.protocol.turns[turn].stage.binding.scope.tenant == w.tenant
    && var r := Transaction(w, j.db, j.protocol.turns[turn].stage.command, i);
       && j'.db == r.db
       && Talks(w, j.protocol, if Answered(r) then P.Commit(turn) else P.BackendFails(turn), at, j'.protocol)
  }

  ghost predicate SendsLate(w: World, j: Joint, f: P.Flight, at: int, i: Inputs, j': Joint) {
    && f in j.protocol.flights && f.binding.scope.tenant == w.tenant && FreshIds(j.db, i.ids)
    && var r := Transaction(w, j.db, f.command, i);
       && j'.db == r.db
       && if Answered(r) then Talks(w, j.protocol, P.Land(f), at, j'.protocol) else j'.protocol == j.protocol
  }

  ghost predicate Operates(w: World, db: Db, a: Bookings.Action, db': Db) {
    Operator(a) && Bookings.Enabled(db, a) && db' == Perform(w.cat, db, a).db
  }

  ghost predicate Next(w: World, j: Joint, m: Move, j': Joint) {
    match m
    case Talk(a, at) => Outside(w, j.protocol, a) && Talks(w, j.protocol, a, at, j'.protocol) && j'.db == j.db
    case Send(turn, at, i) => Sends(w, j, turn, at, i, j')
    case SendLate(f, at, i) => SendsLate(w, j, f, at, i, j')
    case Operate(a) => Operates(w, j.db, a, j'.db) && j'.protocol == j.protocol
  }

  ghost predicate IsRun(w: World, run: seq<Joint>, moves: seq<Move>) {
    && |run| == |moves| + 1
    && P.Init(run[0].protocol) && Represents(w.tenant, {}, run[0].db.records)
    && forall i :: 0 <= i < |moves| ==> Next(w, run[i], moves[i], run[i + 1])
  }

  // ---- what every move keeps ----

  ghost predicate JointInv(w: World, j: Joint) {
    P.Inv(w.cfg, j.protocol) && Represents(w.tenant, j.protocol.used, j.db.records)
  }

  lemma TalkKeeps(w: World, s: P.State, a: P.Action, at: int, s': P.State)
    requires w.cfg.Valid() && P.Inv(w.cfg, s) && Talks(w, s, a, at, s')
    ensures P.Inv(w.cfg, s')
  {
    hide P.Inv, P.Apply, P.Enabled;
    EnabledAnytime(w.cfg, s, a, at);
    ProtocolProofs.StepKeepsInvariant(w.cfg, s, s');
  }

  lemma EnabledAnytime(cfg: Gateway.Config, s: P.State, a: P.Action, at: int)
    ensures P.Enabled(cfg, s.(now := at), a) <==> P.Enabled(cfg, s, a)
  {
  }

  lemma OutsideKeepsKeys(w: World, s: P.State, a: P.Action, at: int, s': P.State, records: map<RecordKey, Record>)
    requires Talks(w, s, a, at, s') && Outside(w, s, a) && Represents(w.tenant, s.used, records)
    ensures Represents(w.tenant, s'.used, records)
  {
    hide P.Enabled;
    match a
    case Commit(turn) => ForeignKey(w.tenant, s.used, records, P.RecordKey(s.turns[turn].stage.binding));
    case Land(f) => ForeignKey(w.tenant, s.used, records, P.RecordKey(f.binding));
    case _ => StepLogs(w.cfg, s.(now := at), a);
  }

  lemma ForeignKey(tenant: string, used: set<P.IdempotencyKey>, records: map<RecordKey, Record>, k: P.IdempotencyKey)
    requires Represents(tenant, used, records) && k.tenant != tenant
    ensures Represents(tenant, used + {k}, records)
  {
  }

  /** A step writes to the history, and only the backend uses up keys. */
  ghost predicate Logs(s: P.State, t: P.State) {
    s.history <= t.history && t.now == s.now
  }

  lemma JudgeLogs(s: P.State, turn: string)
    requires turn in s.turns
    ensures Logs(s, P.JudgeStep(s, turn)) && P.JudgeStep(s, turn).used == s.used
  {
    hide Confirmations.InvalidateRows, Confirmations.MayAuthorize, Confirmations.LatestRow, P.Withdrawals;
  }

  lemma CallLogs(cfg: Gateway.Config, s: P.State, turn: string, tool: Tool, args: Arguments, newId: string)
    requires turn in s.turns
    ensures Logs(s, P.CallStep(cfg, s, turn, tool, args, newId)) && P.CallStep(cfg, s, turn, tool, args, newId).used == s.used
  {
    hide Gateway.Execute, P.OfferStep;
    match Gateway.Execute(cfg, s.rows, s.minted, P.TrustedOf(s, s.turns[turn]), tool, args, s.now)
    case Offer(b, expiresAt) => OfferLogs(s, b, expiresAt, newId);
    case _ =>
  }

  lemma OfferLogs(s: P.State, b: Binding, expiresAt: int, newId: string)
    ensures Logs(s, P.OfferStep(s, b, expiresAt, newId)) && P.OfferStep(s, b, expiresAt, newId).used == s.used
  {
    hide Confirmations.ProposeRows, P.Withdrawals;
  }

  lemma StepLogs(cfg: Gateway.Config, s: P.State, a: P.Action)
    requires P.Enabled(cfg, s, a)
    ensures Logs(s, P.Apply(cfg, s, a))
    ensures !a.Commit? && !a.Land? ==> P.Apply(cfg, s, a).used == s.used
  {
    hide Confirmations.InvalidateRows, P.JudgeStep, P.CallStep, Gateway.Mintable, P.Release, P.WithRows, P.CommitStep, P.TimeOutStep, P.LandStep, P.ConsumeStep, P.To;
    match a
    case Judge(turn) => JudgeLogs(s, turn);
    case Call(turn, tool, args, newId) => CallLogs(cfg, s, turn, tool, args, newId);
    case Withdraw(turn) => RowsLog(s, Confirmations.InvalidateRows(s.rows, s.turns[turn].scope, s.now));
    case Commit(turn) => BackendLogs(s, turn);
    case TimeOut(turn) => BackendLogs(s, turn);
    case Land(flight) => LandLogs(s, flight);
    case Consume(turn) => ConsumeLogs(s, turn);
    case StoreReply(turn, _) => ReleaseLogs(s, turn);
    case Crash(turn) => ReleaseLogs(s, turn);
    case Acquire(turn) => StageLogs(s, turn, P.Locked);
    case Save(turn) => StageLogs(s, turn, P.Saved);
    case BackendFails(turn) => StageLogs(s, turn, P.Running);
    case LoseResponse(turn) => StageLogs(s, turn, P.Running);
    case BeginReply(turn) => StageLogs(s, turn, P.Replying(s.now));
    case _ =>
  }

  lemma StageLogs(s: P.State, turn: string, stage: P.Stage)
    requires turn in s.turns
    ensures Logs(s, P.To(s, turn, stage)) && P.To(s, turn, stage).used == s.used
  {
  }

  lemma BackendLogs(s: P.State, turn: string)
    requires turn in s.turns && s.turns[turn].stage.Checked?
    ensures Logs(s, P.CommitStep(s, turn)) && Logs(s, P.TimeOutStep(s, turn)) && P.TimeOutStep(s, turn).used == s.used
  {
    hide P.RecordKey;
  }

  lemma LandLogs(s: P.State, flight: P.Flight)
    ensures Logs(s, P.LandStep(s, flight))
  {
    hide P.RecordKey;
  }

  lemma ConsumeLogs(s: P.State, turn: string)
    requires turn in s.turns && s.turns[turn].stage.Committed?
    ensures Logs(s, P.ConsumeStep(s, turn)) && P.ConsumeStep(s, turn).used == s.used
  {
    hide Confirmations.ConsumeRows;
  }

  lemma RowsLog(s: P.State, rows: Confirmations.Rows)
    ensures Logs(s, P.WithRows(s, rows)) && P.WithRows(s, rows).used == s.used
  {
    hide P.Withdrawals;
  }

  lemma ReleaseLogs(s: P.State, turn: string)
    requires turn in s.turns
    ensures Logs(s, P.Release(s, turn)) && P.Release(s, turn).used == s.used
  {
  }

  /** The move is a backend call in the name of a confirmation. */
  predicate InTheNameOf(s: P.State, m: Move, id: string) {
    match m
    case Send(turn, _, _) => turn in s.turns && s.turns[turn].stage.Checked? && s.turns[turn].stage.id == id
    case SendLate(f, _, _) => f.id == id
    case _ => false
  }

  /** The protocol recorded a mutation by this confirmation in this step. */
  predicate Recorded(s: P.State, s': P.State, id: string, e: P.Event) {
    e in s'.history && e.Mutated? && e.id == id && s.now < e.at == s'.now
  }

  lemma SendKeeps(w: World, j: Joint, turn: string, at: int, i: Inputs, j': Joint) returns (e: P.Event)
    requires w.cfg.Valid() && JointInv(w, j) && Sends(w, j, turn, at, i, j')
    ensures JointInv(w, j')
    ensures j'.db.bookings != j.db.bookings ==> Recorded(j.protocol, j'.protocol, j.protocol.turns[turn].stage.id, e)
  {
    hide P.Inv, P.Enabled, Backend, Represents;
    CheckedKey(w.cfg, j.protocol, turn);
    var s, c := j.protocol.(now := at), j.protocol.turns[turn].stage;
    TransactionsImplementCommit(w.tenant, w.cat, j.db, s, turn, i.now, i.dbNow, i.ids);
    e := P.Mutated(at, c.id, c.binding, c.command, at);
    TalkKeeps(w, j.protocol, if Answered(Transaction(w, j.db, c.command, i)) then P.Commit(turn) else P.BackendFails(turn), at, j'.protocol);
  }

  lemma FlightKey(cfg: Gateway.Config, s: P.State, f: P.Flight)
    requires P.Inv(cfg, s) && f in s.flights
    ensures f.command.key != "" && P.Stands(s.minted, f.binding, f.command)
  {
    hide P.ClockInv, P.LockInv, P.MessageInv, P.SavedInv, P.ReplyInv, P.StatusInv, P.GrantInv, P.UsedInv, P.Safe, P.GrantBefore;
    assert P.Pledged(f, s.rows, s.minted, s.history);
    assert Gateway.Frozen(cfg, s.minted, s.rows[f.id]);
  }

  lemma SendLateKeeps(w: World, j: Joint, f: P.Flight, at: int, i: Inputs, j': Joint) returns (e: P.Event)
    requires w.cfg.Valid() && JointInv(w, j) && SendsLate(w, j, f, at, i, j')
    ensures JointInv(w, j')
    ensures j'.db.bookings != j.db.bookings ==> Recorded(j.protocol, j'.protocol, f.id, e)
  {
    hide P.Inv, P.Enabled, Backend, Represents, P.Stands;
    FlightKey(w.cfg, j.protocol, f);
    var s := j.protocol.(now := at);
    TransactionsImplementLanding(w.tenant, w.cat, j.db, s, f, i.now, i.dbNow, i.ids);
    e := P.Mutated(at, f.id, f.binding, f.command, f.sent);
    if Answered(Transaction(w, j.db, f.command, i)) {
      TalkKeeps(w, j.protocol, P.Land(f), at, j'.protocol);
    }
  }

  /** Every move keeps the protocol's invariant and the match between used keys and records,
      and a backend call changes a booking only where the protocol records a mutation. */
  lemma {:induction false} MoveKeepsInv(w: World, j: Joint, m: Move, j': Joint) returns (e: P.Event)
    requires w.cfg.Valid() && JointInv(w, j) && Next(w, j, m, j')
    ensures JointInv(w, j')
    ensures forall id :: InTheNameOf(j.protocol, m, id) && j'.db.bookings != j.db.bookings ==> Recorded(j.protocol, j'.protocol, id, e)
  {
    hide P.Inv, Represents, Sends, SendsLate, Talks, Perform;
    e := P.TimedOut(0, "");
    match m
    case Talk(a, at) =>
      TalkKeeps(w, j.protocol, a, at, j'.protocol);
      OutsideKeepsKeys(w, j.protocol, a, at, j'.protocol, j.db.records);
    case Send(turn, at, i) => e := SendKeeps(w, j, turn, at, i, j');
    case SendLate(f, at, i) => e := SendLateKeeps(w, j, f, at, i, j');
    case Operate(a) => OtherTransactionsKeepKeys(w.tenant, w.cat, j.db, a, j.protocol.used);
  }

  lemma TalkLogs(w: World, s: P.State, a: P.Action, at: int, s': P.State)
    requires Talks(w, s, a, at, s')
    ensures s.history <= s'.history && s.now <= s'.now
  {
    hide P.Apply, P.Enabled;
    StepLogs(w.cfg, s.(now := at), a);
  }

  lemma MoveLogs(w: World, j: Joint, m: Move, j': Joint)
    requires Next(w, j, m, j')
    ensures j.protocol.history <= j'.protocol.history && j.protocol.now <= j'.protocol.now
  {
    hide Talks, Backend, FreshIds, Operates, Outside;
    match m
    case Talk(a, at) => TalkLogs(w, j.protocol, a, at, j'.protocol);
    case Send(turn, at, i) =>
      var r := Transaction(w, j.db, j.protocol.turns[turn].stage.command, i);
      TalkLogs(w, j.protocol, if Answered(r) then P.Commit(turn) else P.BackendFails(turn), at, j'.protocol);
    case SendLate(f, at, i) =>
      if Answered(Transaction(w, j.db, f.command, i)) { TalkLogs(w, j.protocol, P.Land(f), at, j'.protocol); }
    case Operate(_) =>
  }

  // ---- over whole runs ----

  lemma {:induction false} RunKeepsJointInv(w: World, run: seq<Joint>, moves: seq<Move>, i: nat)
    requires w.cfg.Valid() && IsRun(w, run, moves) && i < |run|
    ensures JointInv(w, run[i])
  {
    hide Next, P.Inv, Represents;
    if i == 0 {
      Begin(w, run[0]);
    } else {
      RunKeepsJointInv(w, run, moves, i - 1);
      var _ := MoveKeepsInv(w, run[i - 1], moves[i - 1], run[i]);
    }
  }

  lemma Begin(w: World, j: Joint)
    requires w.cfg.Valid() && P.Init(j.protocol) && Represents(w.tenant, {}, j.db.records)
    ensures JointInv(w, j)
  {
    hide Represents;
    assert P.IsRun(w.cfg, [j.protocol]);
    ProtocolProofs.RunKeepsInvariant(w.cfg, [j.protocol], 0);
  }

  lemma {:induction false} RunLogs(w: World, run: seq<Joint>, moves: seq<Move>, i: nat, j: nat)
    requires IsRun(w, run, moves) && i <= j < |run|
    ensures run[i].protocol.history <= run[j].protocol.history && run[i].protocol.now <= run[j].protocol.now
  {
    hide Next, Represents, P.Init;
    if i < j {
      RunLogs(w, run, moves, i, j - 1);
      MoveLogs(w, run[j - 1], moves[j - 1], run[j]);
    }
  }

  /** Move `i` is a backend call in the name of the confirmation and changes a booking. */
  ghost predicate ChangesFor(run: seq<Joint>, moves: seq<Move>, i: nat, id: string)
    requires |run| == |moves| + 1
  {
    i < |moves| && InTheNameOf(run[i].protocol, moves[i], id) && run[i + 1].db.bookings != run[i].db.bookings
  }

  /** The booking tables change only by authorized mutations: what the protocol proves of its
      events holds of the rows. */
  lemma {:induction false} BookingChangesAreAuthorized(w: World, run: seq<Joint>, moves: seq<Move>, i: nat, id: string) returns (e: P.Event)
    requires w.cfg.Valid() && IsRun(w, run, moves) && ChangesFor(run, moves, i, id)
    ensures Recorded(run[i].protocol, run[i + 1].protocol, id, e)
    ensures P.Justified(run[i + 1].protocol.history, run[i + 1].protocol.minted, e)
  {
    hide Next, Represents, P.Init, P.Justified;
    RunKeepsJointInv(w, run, moves, i);
    RunKeepsJointInv(w, run, moves, i + 1);
    e := MoveKeepsInv(w, run[i], moves[i], run[i + 1]);
    assert InTheNameOf(run[i].protocol, moves[i], id);
    SafeEvent(w.cfg, run[i + 1].protocol, e);
  }

  lemma SafeEvent(cfg: Gateway.Config, s: P.State, e: P.Event)
    requires P.Inv(cfg, s) && e in s.history && e.Mutated?
    ensures P.Justified(s.history, s.minted, e)
    ensures forall f :: f in s.history && f.Mutated? && f.id == e.id ==> f == e
  {
    hide P.ClockInv, P.LockInv, P.MessageInv, P.SavedInv, P.ReplyInv, P.StatusInv, P.GrantInv, P.PledgeInv, P.UsedInv, P.RowInv;
    forall f | f in s.history && f.Mutated? && f.id == e.id
      ensures f == e
    {
      assert P.Twice(e, f);
    }
  }

  /** In every joint run, through retries, lost responses, timeouts and late commits, one
      confirmation changes the booking tables at most once. */
  lemma {:induction false} OneChangePerConfirmation(w: World, run: seq<Joint>, moves: seq<Move>, i: nat, j: nat, id: string)
    requires w.cfg.Valid() && IsRun(w, run, moves)
    requires ChangesFor(run, moves, i, id) && ChangesFor(run, moves, j, id)
    ensures i == j
  {
    hide IsRun, ChangesFor, P.Justified, P.Inv;
    if i != j {
      var a, b := if i < j then i else j, if i < j then j else i;
      InRange(w, run, moves, a, id);
      InRange(w, run, moves, b, id);
      var e := BookingChangesAreAuthorized(w, run, moves, a, id);
      var f := BookingChangesAreAuthorized(w, run, moves, b, id);
      RunLogs(w, run, moves, a + 1, b);
      RunLogs(w, run, moves, b, b + 1);
      RunKeepsJointInv(w, run, moves, b + 1);
      SafeEvent(w.cfg, run[b + 1].protocol, f);
      assert false;
    }
  }

  lemma InRange(w: World, run: seq<Joint>, moves: seq<Move>, i: nat, id: string)
    requires IsRun(w, run, moves) && ChangesFor(run, moves, i, id)
    ensures i + 1 < |run| == |moves| + 1
  {
  }

  // ---- what was confirmed is what is in the table ----

  /** The command and the frozen row of the confirmation a backend call names. */
  lemma CallIsFrozen(w: World, j: Joint, m: Move, j': Joint, id: string) returns (c: Gateway.Command)
    requires JointInv(w, j) && Next(w, j, m, j') && InTheNameOf(j.protocol, m, id)
    ensures id in j.protocol.rows && var p := j.protocol.rows[id];
            && c.scope == p.scope && p.scope.tenant == w.tenant
            && (p.tool != Cancel ==> Gateway.SlotToken(p.tool, p.args) in j.protocol.minted)
            && c == Gateway.CommandOf(j.protocol.minted, p.scope, p.tool, p.args)
    ensures (m.Send? || m.SendLate?) && j'.db == Transaction(w, j.db, c, m.inputs).db && FreshIds(j.db, m.inputs.ids)
  {
    hide Talks, Backend, Represents, P.ClockInv, P.LockInv, P.MessageInv, P.SavedInv, P.ReplyInv, P.StatusInv, P.UsedInv, P.Safe, P.RowInv, P.GrantBefore;
    match m
    case Send(turn, _, _) =>
      assert P.CheckedOk(j.protocol.turns[turn], j.protocol.rows, j.protocol.minted);
      c := j.protocol.turns[turn].stage.command;
      CommandKey(j.protocol.minted, j.protocol.turns[turn].stage.binding, c);
    case SendLate(f, _, _) =>
      assert P.Pledged(f, j.protocol.rows, j.protocol.minted, j.protocol.history);
      c := f.command;
      CommandKey(j.protocol.minted, f.binding, c);
  }

  /** The row of the table against the proposal: for a new booking the customer's own, with the
      signed service, staff member, start and end; otherwise the frozen booking of the customer,
      moved to the signed times or cancelled. */
  ghost predicate AsConfirmed(w: World, minted: Gateway.Minted, p: Confirmations.Proposal, before: map<string, Booking>,
                              after: map<string, Booking>, id: string)
    requires p.tool != Cancel ==> Gateway.SlotToken(p.tool, p.args) in minted
  {
    && id in after && after == before[id := after[id]]
    && match p.tool
       case CreateBooking =>
         var claims := minted[Gateway.SlotToken(p.tool, p.args)];
         && id !in before && claims.service in w.cat.services
         && after[id].customer == p.scope.customer && after[id].service == w.cat.services[claims.service].id
         && after[id].staff == claims.staff && after[id].start == claims.start && after[id].end == claims.end
         && after[id].status == Confirmed
       case Reschedule =>
         var claims := minted[Gateway.SlotToken(p.tool, p.args)];
         && id == Text(p.args, "booking_id") && id in before && before[id].customer == p.scope.customer && before[id].status == Confirmed
         && after[id] == before[id].(start := claims.start, end := claims.end, version := before[id].version + 1)
       case Cancel =>
         && id == Text(p.args, "booking_id") && id in before && before[id].customer == p.scope.customer && before[id].status == Confirmed
         && after[id] == before[id].(status := Cancelled, version := before[id].version + 1)
  }

  /** In every joint run, what a confirmed action writes to the booking tables is what its
      proposal froze. */
  lemma {:induction false} TablesHoldWhatWasConfirmed(w: World, run: seq<Joint>, moves: seq<Move>, i: nat, id: string) returns (row: string)
    requires w.cfg.Valid() && IsRun(w, run, moves) && ChangesFor(run, moves, i, id)
    ensures id in run[i].protocol.rows && var p := run[i].protocol.rows[id];
            && (p.tool != Cancel ==> Gateway.SlotToken(p.tool, p.args) in run[i].protocol.minted)
            && AsConfirmed(w, run[i].protocol.minted, p, run[i].db.bookings, run[i + 1].db.bookings, row)
  {
    hide Next, Represents, P.Init, P.Inv, Gateway.CommandOf, Gateway.SlotToken, Backend, FreshIds;
    RunKeepsJointInv(w, run, moves, i);
    var c := CallIsFrozen(w, run[i], moves[i], run[i + 1], id);
    var p, inputs := run[i].protocol.rows[id], moves[i].inputs;
    row := BackendTakesEffect(w.tenant, w.cat, run[i].db, c, inputs.now, inputs.dbNow, inputs.ids);
    Decisions.CommandSays(run[i].protocol.minted, p.scope, p.tool, p.args);
  }
}

/** The turn protocol over arbitrary interleavings: concurrent requests, a
    per-conversation lock, an arbitrary planner, lost responses and crashes.
    Sources: internal/app/service.go, internal/tools/gateway.go,
    internal/confirmations/postgres.go, internal/agenttools/executor.go. */
module Protocol {
  import opened Domain
  import opened Confirmations
  import opened Gateway

  /** Where a request stands. `Checked` is between VerifyAuthorized and the
      backend call, `Committed` between the backend's answer and MarkConsumed,
      `Replying` between the BEGIN and the COMMIT of the reply transaction. */
  datatype Stage =
    | Queued | Locked | Saved | Running
    | Checked(id: string, binding: Binding, command: Command)
    | Committed(id: string, binding: Binding)
    | Replying(begunAt: int)
    | Finished

  datatype Turn = Turn(scope: Scope, consent: bool, receivedAt: int, message: string, stage: Stage)

  datatype IdempotencyKey = IdempotencyKey(tool: Tool, tenant: string, customer: string, key: string)

  datatype Event =
    | Arrived(at: int, message: string, scope: Scope)
    | Proposed(at: int, id: string, scope: Scope, tool: Tool, args: Arguments, message: string)
    | ReplyBegun(at: int, scope: Scope)
    | ReplyStored(at: int, scope: Scope, begunAt: int)
    | Authorized(at: int, id: string, message: string)
    | Withdrawn(at: int, id: string)
    | TimedOut(at: int, id: string)
    | Mutated(at: int, id: string, binding: Binding, command: Command, sent: int)

  datatype State = State(
    now: int,
    turns: map<string, Turn>,
    lock: map<Scope, string>,
    messages: map<string, Message>,
    rows: Rows,
    minted: Minted,
    profiles: map<string, Profile>,
    used: set<IdempotencyKey>,
    flights: set<Flight>,
    history: set<Event>)

  /** A backend call whose turn no longer waits for it; its transaction may still commit. */
  datatype Flight = Flight(id: string, binding: Binding, command: Command, sent: int)

  /** One atomic step. Every step reads a later clock than the one before. */
  datatype Action =
    | Arrive(turn: string, scope: Scope, consent: bool, message: string)
    | Acquire(turn: string)
    | Save(turn: string)
    | Judge(turn: string)
    | Mint(token: string, claims: Claims)
    | SetProfile(customer: string, profile: Profile)
    | Call(turn: string, tool: Tool, args: Arguments, newId: string)
    | Commit(turn: string)
    | BackendFails(turn: string)
    | TimeOut(turn: string)
    | Land(flight: Flight)
    | Consume(turn: string)
    | LoseResponse(turn: string)
    | Withdraw(turn: string)
    | BeginReply(turn: string)
    | StoreReply(turn: string, message: string)
    | Crash(turn: string)

  predicate Holding(stage: Stage) {
    !stage.Queued? && !stage.Finished?
  }

  predicate Waiting(stage: Stage) {
    stage.Queued? || stage.Locked?
  }

  /** The message is saved and the turn may reply or give up, before its consent is judged (an
      escalated conversation, an early hand-off) or after. */
  predicate Answering(stage: Stage) {
    stage.Saved? || stage.Running?
  }

  function TrustedOf(s: State, t: Turn): Trusted {
    Trusted(t.scope, t.message,
            if t.scope.customer in s.profiles then s.profiles[t.scope.customer] else Profile("", "", ""))
  }

  function RecordKey(b: Binding): IdempotencyKey {
    IdempotencyKey(b.tool, b.scope.tenant, b.scope.customer, Text(b.args, IDEMPOTENCY_KEY))
  }

  ghost predicate Enabled(cfg: Config, s: State, a: Action) {
    match a
    case Arrive(turn, scope, _, message) =>
      && turn !in s.turns && message != "" && message !in s.messages
      && (forall t :: t in s.turns ==> s.turns[t].message != message)
    case Acquire(turn) => turn in s.turns && s.turns[turn].stage.Queued? && s.turns[turn].scope !in s.lock
    case Save(turn) => turn in s.turns && s.turns[turn].stage.Locked?
    case Judge(turn) => turn in s.turns && s.turns[turn].stage.Saved?
    case Mint(token, claims) => token !in s.minted
    case SetProfile(_, _) => true
    case Call(turn, _, _, newId) => turn in s.turns && s.turns[turn].stage.Running? && newId !in s.rows && newId != ""
    case Commit(turn) => turn in s.turns && s.turns[turn].stage.Checked?
    case BackendFails(turn) => turn in s.turns && s.turns[turn].stage.Checked?
    case TimeOut(turn) => turn in s.turns && s.turns[turn].stage.Checked?
    case Land(flight) => flight in s.flights
    case Consume(turn) => turn in s.turns && s.turns[turn].stage.Committed?
    case LoseResponse(turn) => turn in s.turns && s.turns[turn].stage.Committed?
    case Withdraw(turn) => turn in s.turns && Answering(s.turns[turn].stage)
    case BeginReply(turn) => turn in s.turns && Answering(s.turns[turn].stage)
    case StoreReply(turn, message) =>
      && turn in s.turns && s.turns[turn].stage.Replying? && message !in s.messages
      && (forall t :: t in s.turns ==> s.turns[t].message != message)
    case Crash(turn) => turn in s.turns
  }

  function To(s: State, turn: string, stage: Stage): State
    requires turn in s.turns
  {
    s.(turns := s.turns[turn := s.turns[turn].(stage := stage)])
  }

  function Log(s: State, events: set<Event>): State {
    s.(history := s.history + events)
  }

  function Withdrawals(before: Rows, after: Rows, at: int): set<Event> {
    set i | i in before && i in after && Live(before[i]) && after[i].status == Rejected :: Withdrawn(at, i)
  }

  function WithRows(s: State, rows: Rows): State {
    Log(s, Withdrawals(s.rows, rows, s.now)).(rows := rows)
  }

  function Release(s: State, turn: string): State
    requires turn in s.turns
  {
    var t := s.turns[turn];
    var lock := if t.scope in s.lock && s.lock[t.scope] == turn then s.lock - {t.scope} else s.lock;
    To(s, turn, Finished).(lock := lock)
  }

  /** Consent handling: without explicit consent the live proposal is withdrawn,
      with it the latest pending one is authorized if Authorize's guard holds. */
  ghost function JudgeStep(s: State, turn: string): State
    requires turn in s.turns
  {
    var t := s.turns[turn];
    var running := To(s, turn, Running);
    if !t.consent then WithRows(running, InvalidateRows(s.rows, t.scope, s.now))
    else
      match LatestRow(s.rows, t.scope, s.now)
      case None => running
      case Some(id) =>
        if id in s.rows && MayAuthorize(s.rows, s.messages, id, TrustedOf(s, t), s.now)
        then Log(running, {Authorized(s.now, id, t.message)}).(rows := AuthorizeRow(s.rows, id, t.message))
        else running
  }

  /** The store either keeps the live proposal of the same action or replaces what is live. */
  function OfferStep(s: State, b: Binding, expiresAt: int, newId: string): State {
    var rows := ProposeRows(s.rows, b, newId, expiresAt, s.now);
    var shown := if newId in rows then {Proposed(s.now, newId, b.scope, b.tool, b.args, b.message)} else {};
    Log(WithRows(s, rows), shown)
  }

  ghost function CallStep(cfg: Config, s: State, turn: string, tool: Tool, args: Arguments, newId: string): State
    requires turn in s.turns
  {
    var t := s.turns[turn];
    match Execute(cfg, s.rows, s.minted, TrustedOf(s, t), tool, args, s.now)
    case Refuse(_) => s
    case Offer(b, expiresAt) => OfferStep(s, b, expiresAt, newId)
    case Dispatch(id, b, command) => To(s, turn, Checked(id, b, command))
  }

  /** The backend transaction: a used key replays, an unused one mutates once. */
  function CommitStep(s: State, turn: string): State
    requires turn in s.turns && s.turns[turn].stage.Checked?
  {
    var c := s.turns[turn].stage;
    var done := To(s, turn, Committed(c.id, c.binding));
    if RecordKey(c.binding) in s.used then done
    else Log(done, {Mutated(s.now, c.id, c.binding, c.command, s.now)}).(used := s.used + {RecordKey(c.binding)})
  }

  /** The turn stops waiting and goes on; the call is on its way. */
  function TimeOutStep(s: State, turn: string): State
    requires turn in s.turns && s.turns[turn].stage.Checked?
  {
    var c := s.turns[turn].stage;
    Log(To(s, turn, Running), {TimedOut(s.now, c.id)}).(flights := s.flights + {Flight(c.id, c.binding, c.command, s.now)})
  }

  /** A call nobody waits for commits, whatever has happened to its turn and its proposal. */
  function LandStep(s: State, f: Flight): State {
    var gone := s.(flights := s.flights - {f});
    if RecordKey(f.binding) in s.used then gone
    else Log(gone, {Mutated(s.now, f.id, f.binding, f.command, f.sent)}).(used := s.used + {RecordKey(f.binding)})
  }

  function ConsumeStep(s: State, turn: string): State
    requires turn in s.turns && s.turns[turn].stage.Committed?
  {
    var c := s.turns[turn].stage;
    To(s, turn, Running).(rows := ConsumeRows(s.rows, c.id, c.binding, s.now))
  }

  /** The effect of an action, in a state whose clock already shows its instant. */
  ghost function Apply(cfg: Config, s: State, a: Action): State
    requires Enabled(cfg, s, a)
  {
    match a
    case Arrive(turn, scope, consent, message) =>
      Log(s, {Arrived(s.now, message, scope)})
        .(turns := s.turns[turn := Turn(scope, consent, s.now, message, Queued)])
    case Acquire(turn) => To(s, turn, Locked).(lock := s.lock[s.turns[turn].scope := turn])
    case Save(turn) =>
      var t := s.turns[turn];
      To(s, turn, Saved).(messages := s.messages[t.message := Message(t.scope, User, t.receivedAt)])
    case Judge(turn) => JudgeStep(s, turn)
    case Mint(token, claims) => if Mintable(cfg, claims, s.now) then s.(minted := s.minted[token := claims]) else s
    case SetProfile(customer, profile) => s.(profiles := s.profiles[customer := profile])
    case Call(turn, tool, args, newId) => CallStep(cfg, s, turn, tool, args, newId)
    case Commit(turn) => CommitStep(s, turn)
    case BackendFails(turn) => To(s, turn, Running)
    case TimeOut(turn) => TimeOutStep(s, turn)
    case Land(flight) => LandStep(s, flight)
    case Consume(turn) => ConsumeStep(s, turn)
    case LoseResponse(turn) => To(s, turn, Running)
    case Withdraw(turn) => WithRows(s, InvalidateRows(s.rows, s.turns[turn].scope, s.now))
    case BeginReply(turn) => Log(To(s, turn, Replying(s.now)), {ReplyBegun(s.now, s.turns[turn].scope)})
    case StoreReply(turn, message) =>
      var t := s.turns[turn];
      Log(Release(s, turn), {ReplyStored(s.now, t.scope, t.stage.begunAt)})
        .(messages := s.messages[message := Message(t.scope, Assistant, t.stage.begunAt)])
    case Crash(turn) => Release(s, turn)
  }

  ghost predicate Next(cfg: Config, s: State, s': State) {
    exists a, at :: s.now < at && Enabled(cfg, s, a) && s' == Apply(cfg, s.(now := at), a)
  }

  ghost predicate Init(s: State) {
    && s.turns == map[] && s.lock == map[] && s.messages == map[] && s.rows == map[]
    && s.minted == map[] && s.used == {} && s.flights == {} && s.history == {}
  }

  ghost predicate IsRun(cfg: Config, run: seq<State>) {
    && 0 < |run| && Init(run[0])
    && forall i :: 0 <= i < |run| - 1 ==> Next(cfg, run[i], run[i + 1])
  }

  // ---------------------------------------------------------------- properties

  /** `p` proposed what `e` authorizes, a reply to it began as `r` and was stored as `q`
      before the authorization, and the consenting message, another one than the message
      behind the proposal, arrived after the reply had begun. */
  ghost predicate PresentedBy(h: set<Event>, e: Event, p: Event, r: Event, q: Event, c: Event)
    requires e.Authorized?
  {
    && p in h && p.Proposed? && p.id == e.id && p.message != e.message
    && r in h && r.ReplyBegun? && r.scope == p.scope
    && q in h && q.ReplyStored? && q.scope == p.scope && q.begunAt == r.at && q.at < e.at
    && c in h && c.Arrived? && c.message == e.message && c.scope == p.scope
    && p.at < r.at < c.at < e.at
  }

  /** The proposal was shown in a stored reply before the consent was accepted. */
  ghost predicate Presented(h: set<Event>, e: Event)
    requires e.Authorized?
  {
    exists p, r, q, c :: PresentedBy(h, e, p, r, q, c)
  }

  /** `p` proposed exactly the bound action and `g` authorized it in between. */
  ghost predicate AuthorizedBy(h: set<Event>, e: Event, p: Event, g: Event)
    requires e.Mutated?
  {
    && p in h && p.Proposed? && p.id == e.id && p.scope == e.binding.scope
    && p.tool == e.binding.tool && p.args == e.binding.args
    && g in h && g.Authorized? && g.id == e.id && g.message != p.message
    && p.at < g.at < e.sent <= e.at
  }

  /** A mutation is the frozen action of a proposal the customer authorized before the call was
      sent and that was not withdrawn before then; the call is sent when it commits, unless its
      turn had stopped waiting for it. */
  ghost predicate Justified(h: set<Event>, minted: Minted, e: Event)
    requires e.Mutated?
  {
    && (exists p, g :: AuthorizedBy(h, e, p, g))
    && (forall w :: w in h && w.Withdrawn? && w.id == e.id ==> e.sent < w.at)
    && (e.sent == e.at || TimedOut(e.sent, e.id) in h)
    && Stands(minted, e.binding, e.command)
  }

  /** The command is the one the bound arguments stand for. */
  ghost predicate Stands(minted: Minted, b: Binding, command: Command) {
    && (b.tool != Cancel ==> SlotToken(b.tool, b.args) in minted)
    && command == CommandOf(minted, b.scope, b.tool, b.args)
  }

  ghost predicate Safe(h: set<Event>, minted: Minted) {
    && (forall e :: e in h && e.Authorized? ==> Presented(h, e))
    && (forall e :: e in h && e.Mutated? ==> Justified(h, minted, e))
    && (forall e, f {:trigger Twice(e, f)} :: e in h && f in h && Twice(e, f) ==> e == f)
  }

  /** Two mutations in the name of one confirmation. */
  predicate Twice(e: Event, f: Event) {
    e.Mutated? && f.Mutated? && e.id == f.id
  }

  /** A proposal and a reply stamped with the same instant. */
  predicate Tied(p: Event, r: Event) {
    p.Proposed? && r.ReplyBegun? && p.at == r.at
  }

  // ----------------------------------------------------------------- invariant

  ghost predicate ClockInv(now: int, turns: map<string, Turn>, rows: Rows, h: set<Event>) {
    && (forall e :: e in h ==> e.at <= now)
    && (forall e, f {:trigger Tied(e, f)} :: e in h && f in h ==> !Tied(e, f))
    && (forall t :: t in turns ==> turns[t].receivedAt <= now)
    && (forall i :: i in rows ==> rows[i].createdAt <= now)
  }

  /** The lock is held exactly by the turn that is between acquiring and releasing it. */
  ghost predicate LockInv(turns: map<string, Turn>, lock: map<Scope, string>) {
    && (forall t :: t in turns && Holding(turns[t].stage) ==> turns[t].scope in lock && lock[turns[t].scope] == t)
    && (forall c :: c in lock ==> lock[c] in turns && turns[lock[c]].scope == c && Holding(turns[lock[c]].stage))
  }

  /** Stored messages carry the instants of the events that produced them. */
  ghost predicate MessageInv(turns: map<string, Turn>, messages: map<string, Message>, h: set<Event>) {
    && (forall t :: t in turns ==> Arrived(turns[t].receivedAt, turns[t].message, turns[t].scope) in h)
    && (forall t :: t in turns && turns[t].stage.Replying? ==> ReplyBegun(turns[t].stage.begunAt, turns[t].scope) in h)
    && (forall m :: m in messages && messages[m].role == User ==> Arrived(messages[m].createdAt, m, messages[m].scope) in h)
    && (forall m :: m in messages && messages[m].role == Assistant ==> ReplyBegun(messages[m].createdAt, messages[m].scope) in h)
  }

  predicate SameMessage(turns: map<string, Turn>, t: string, u: string) {
    t in turns && u in turns && turns[t].message == turns[u].message
  }

  /** A turn's message is stored with its time of arrival exactly from Save on. */
  ghost predicate SavedInv(turns: map<string, Turn>, messages: map<string, Message>) {
    && (forall t :: t in turns && Waiting(turns[t].stage) ==> turns[t].message !in messages)
    && (forall t :: t in turns && Holding(turns[t].stage) && !Waiting(turns[t].stage) ==>
          turns[t].message in messages && messages[turns[t].message] == Message(turns[t].scope, User, turns[t].receivedAt))
    && (forall t, u {:trigger SameMessage(turns, t, u)} :: SameMessage(turns, t, u) ==> t == u)
  }

  predicate StoredAs(h: set<Event>, q: Event, scope: Scope, begunAt: int) {
    q in h && q.ReplyStored? && q.scope == scope && q.begunAt == begunAt
  }

  ghost predicate HasStored(h: set<Event>, scope: Scope, begunAt: int) {
    exists q :: StoredAs(h, q, scope, begunAt)
  }

  predicate ReplyAs(messages: map<string, Message>, m: string, scope: Scope, begunAt: int) {
    m in messages && messages[m] == Message(scope, Assistant, begunAt)
  }

  ghost predicate HasReply(messages: map<string, Message>, scope: Scope, begunAt: int) {
    exists m :: ReplyAs(messages, m, scope, begunAt)
  }

  /** Assistant messages are exactly the stored replies. */
  ghost predicate ReplyInv(messages: map<string, Message>, h: set<Event>) {
    && (forall m :: m in messages && messages[m].role == Assistant ==> HasStored(h, messages[m].scope, messages[m].createdAt))
    && (forall q :: q in h && q.ReplyStored? ==> q.begunAt < q.at && HasReply(messages, q.scope, q.begunAt))
  }

  /** Each row is well frozen, and its proposal is on record. */
  ghost predicate RowInv(cfg: Config, rows: Rows, minted: Minted, h: set<Event>) {
    && OneLive(rows) && MintedOk(cfg, minted)
    && (forall i :: i in rows ==> i != "" && Frozen(cfg, minted, rows[i]))
    && (forall i :: i in rows ==>
          Proposed(rows[i].createdAt, i, rows[i].scope, rows[i].tool, rows[i].args, rows[i].proposedBy) in h)
  }

  ghost predicate GrantOf(h: set<Event>, i: string, p: Proposal, g: Event) {
    g in h && g.Authorized? && g.id == i && g.message != p.proposedBy && p.createdAt < g.at
  }

  ghost predicate HasGrant(h: set<Event>, i: string, p: Proposal) {
    exists g :: GrantOf(h, i, p, g)
  }

  predicate Usable(p: Proposal) {
    p.status == Confirmed || p.status == Consumed
  }

  /** A usable row was authorized, and a withdrawn one never becomes usable again. */
  ghost predicate StatusInv(rows: Rows, h: set<Event>) {
    && (forall e :: e in h && e.Withdrawn? ==> e.id in rows && rows[e.id].status == Rejected)
    && (forall i :: i in rows && Usable(rows[i]) ==> HasGrant(h, i, rows[i]))
  }

  ghost predicate CheckedOk(t: Turn, rows: Rows, minted: Minted)
    requires t.stage.Checked?
  {
    && t.stage.id in rows && SameAction(rows[t.stage.id], t.stage.binding) && t.stage.binding.scope == t.scope
    && Usable(rows[t.stage.id]) && Stands(minted, t.stage.binding, t.stage.command)
  }

  /** A checked action is still authorized, whoever else is running. */
  ghost predicate GrantInv(turns: map<string, Turn>, rows: Rows, minted: Minted) {
    forall t :: t in turns && turns[t].stage.Checked? ==> CheckedOk(turns[t], rows, minted)
  }

  ghost predicate GrantBefore(h: set<Event>, i: string, p: Proposal, sent: int) {
    exists g :: GrantOf(h, i, p, g) && g.at < sent
  }

  /** What a call on its way keeps, whatever becomes of its proposal. */
  ghost predicate Pledged(f: Flight, rows: Rows, minted: Minted, h: set<Event>) {
    && f.id in rows && SameAction(rows[f.id], f.binding) && Stands(minted, f.binding, f.command)
    && GrantBefore(h, f.id, rows[f.id], f.sent) && TimedOut(f.sent, f.id) in h
    && (forall w :: w in h && w.Withdrawn? && w.id == f.id ==> f.sent < w.at)
  }

  ghost predicate PledgeInv(now: int, flights: set<Flight>, rows: Rows, minted: Minted, h: set<Event>) {
    forall f :: f in flights ==> f.sent <= now && Pledged(f, rows, minted, h)
  }

  ghost predicate UsedInv(rows: Rows, used: set<IdempotencyKey>, h: set<Event>) {
    forall e :: e in h && e.Mutated? ==>
      e.id in rows && SameAction(rows[e.id], e.binding) && RecordKey(e.binding) in used
  }

  ghost predicate Inv(cfg: Config, s: State) {
    && ClockInv(s.now, s.turns, s.rows, s.history)
    && LockInv(s.turns, s.lock)
    && MessageInv(s.turns, s.messages, s.history)
    && SavedInv(s.turns, s.messages)
    && ReplyInv(s.messages, s.history)
    && RowInv(cfg, s.rows, s.minted, s.history)
    && StatusInv(s.rows, s.history)
    && GrantInv(s.turns, s.rows, s.minted)
    && PledgeInv(s.now, s.flights, s.rows, s.minted, s.history)
    && UsedInv(s.rows, s.used, s.history)
    && Safe(s.history, s.minted)
  }
}

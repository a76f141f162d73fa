/** The promises of two-phase confirmation, for every state of every run. */
module ProtocolTheorems {
  import opened Domain
  import opened Confirmations
  import opened Gateway
  import opened Protocol
  import opened ProtocolProofs

  /** Every committed mutation executes exactly what an earlier proposal froze, in the same
      scope and with the same tool, after the customer authorized that proposal by another
      message, shown in a stored reply, and with no withdrawal before the call was sent. The
      call is sent as it commits, unless its turn had stopped waiting for it. */
  lemma MutationsAreAuthorized(cfg: Config, run: seq<State>, i: nat, e: Event)
    requires cfg.Valid() && IsRun(cfg, run) && i < |run|
    requires e in run[i].history && e.Mutated?
    ensures exists p, g :: AuthorizedBy(run[i].history, e, p, g) && Presented(run[i].history, g)
    ensures forall w :: w in run[i].history && w.Withdrawn? && w.id == e.id ==> e.sent < w.at
    ensures e.sent == e.at || TimedOut(e.sent, e.id) in run[i].history
    ensures Stands(run[i].minted, e.binding, e.command)
  {
    RunKeepsInvariant(cfg, run, i);
    var h := run[i].history;
    assert Justified(h, run[i].minted, e);
    var p, g :| AuthorizedBy(h, e, p, g);
    assert Presented(h, g);
  }

  /** A withdrawal precedes a mutation only if the backend call had timed out before the
      withdrawal and was still on its way. */
  lemma WithdrawnOnlyInFlight(cfg: Config, run: seq<State>, i: nat, e: Event, w: Event)
    requires cfg.Valid() && IsRun(cfg, run) && i < |run|
    requires e in run[i].history && e.Mutated? && w in run[i].history && w.Withdrawn? && w.id == e.id && w.at <= e.at
    ensures exists o :: o in run[i].history && o == TimedOut(e.sent, e.id) && o.at < w.at
  {
    MutationsAreAuthorized(cfg, run, i, e);
    assert TimedOut(e.sent, e.id) in run[i].history;
  }

  /** Retries, lost responses and replays after consumption included, one
      confirmation id commits at most one mutation. */
  lemma OneMutationPerConfirmation(cfg: Config, run: seq<State>, i: nat, e: Event, f: Event)
    requires cfg.Valid() && IsRun(cfg, run) && i < |run|
    requires e in run[i].history && f in run[i].history && Twice(e, f)
    ensures e == f
  {
    RunKeepsInvariant(cfg, run, i);
  }

  /** A consent that no stored reply precedes, neither by its begin nor by its end, never
      authorizes: the message arrived at or before the begin of every reply stored since. */
  lemma EarlyConsentNeverAuthorizes(cfg: Config, run: seq<State>, i: nat, id: string, message: string)
    requires cfg.Valid() && IsRun(cfg, run) && i < |run|
    requires forall p, q, c {:trigger Early(p, q, c, id, message)} ::
               p in run[i].history && q in run[i].history && c in run[i].history ==> Early(p, q, c, id, message)
    ensures forall g :: g in run[i].history && g.Authorized? ==> g.id != id || g.message != message
  {
    RunKeepsInvariant(cfg, run, i);
    var h := run[i].history;
    forall g | g in h && g.Authorized?
      ensures g.id != id || g.message != message
    {
      assert Presented(h, g);
      var p, r, q, c :| PresentedBy(h, g, p, r, q, c);
      assert Early(p, q, c, id, message);
    }
  }

  /** If `p` proposed `id` and `q` stored a reply begun after it, then message `c` had
      arrived by the reply's begin. */
  ghost predicate Early(p: Event, q: Event, c: Event, id: string, message: string) {
    p.Proposed? && p.id == id && q.ReplyStored? && q.scope == p.scope && p.at < q.begunAt && c.Arrived? && c.message == message
    ==> c.at <= q.begunAt
  }

  // ---- exactly when a consent is granted ----

  /** A stored reply of the conversation that began between two instants. */
  predicate BegunBetween(h: set<Event>, q: Event, scope: Scope, after: int, before: int) {
    q in h && q.ReplyStored? && q.scope == scope && after < q.begunAt < before
  }

  /** The turn consents, its message is saved, and it is about to be judged against the
      pending proposal `id` of its conversation. */
  predicate Consenting(s: State, turn: string, id: string, at: int) {
    && turn in s.turns && s.turns[turn].stage.Saved? && s.turns[turn].consent && s.now < at
    && id in s.rows && s.rows[id].scope == s.turns[turn].scope && s.rows[id].status == Pending && at < s.rows[id].expiresAt
  }

  ghost predicate ConsentGranted(cfg: Config, s: State, turn: string, id: string, at: int)
    requires Enabled(cfg, s.(now := at), Judge(turn))
  {
    Authorized(at, id, s.turns[turn].message) in Apply(cfg, s.(now := at), Judge(turn)).history
  }

  lemma GuardExactly(s: State, turn: string, id: string, at: int)
    requires Consenting(s, turn, id, at) && ClockInv(s.now, s.turns, s.rows, s.history)
    requires MessageInv(s.turns, s.messages, s.history) && SavedInv(s.turns, s.messages) && ReplyInv(s.messages, s.history)
    requires Proposed(s.rows[id].createdAt, id, s.rows[id].scope, s.rows[id].tool, s.rows[id].args, s.rows[id].proposedBy) in s.history
    ensures var t := s.turns[turn];
            MayAuthorize(s.rows, s.messages, id, TrustedOf(s, t), at) <==>
            && s.rows[id].proposedBy != t.message
            && exists q :: BegunBetween(s.history, q, t.scope, s.rows[id].createdAt, t.receivedAt)
  {
    var t, row := s.turns[turn], s.rows[id];
    assert s.messages[t.message] == Message(t.scope, User, t.receivedAt);
    if m :| m in s.messages && s.messages[m].scope == t.scope && s.messages[m].role == Assistant
            && row.createdAt <= s.messages[m].createdAt < t.receivedAt {
      MessageIsStored(s, id, m);
      var q :| StoredAs(s.history, q, t.scope, s.messages[m].createdAt);
      assert BegunBetween(s.history, q, t.scope, row.createdAt, t.receivedAt);
    }
    if q :| BegunBetween(s.history, q, t.scope, row.createdAt, t.receivedAt) {
      var m :| ReplyAs(s.messages, m, q.scope, q.begunAt);
      assert s.messages[m].role == Assistant;
    }
  }

  lemma MessageIsStored(s: State, id: string, m: string)
    requires ClockInv(s.now, s.turns, s.rows, s.history) && MessageInv(s.turns, s.messages, s.history) && ReplyInv(s.messages, s.history)
    requires id in s.rows && m in s.messages && s.messages[m].role == Assistant
    requires Proposed(s.rows[id].createdAt, id, s.rows[id].scope, s.rows[id].tool, s.rows[id].args, s.rows[id].proposedBy) in s.history
    ensures HasStored(s.history, s.messages[m].scope, s.messages[m].createdAt)
    ensures s.messages[m].createdAt != s.rows[id].createdAt
  {
    hide HasReply, HasStored;
    var p := Proposed(s.rows[id].createdAt, id, s.rows[id].scope, s.rows[id].tool, s.rows[id].args, s.rows[id].proposedBy);
    assert !Tied(p, ReplyBegun(s.messages[m].createdAt, s.messages[m].scope));
  }

  lemma JudgedExactly(cfg: Config, s: State, turn: string, id: string, at: int)
    requires Consenting(s, turn, id, at) && OneLive(s.rows) && forall e :: e in s.history ==> e.at <= s.now
    ensures ConsentGranted(cfg, s, turn, id, at) <==> MayAuthorize(s.rows, s.messages, id, TrustedOf(s, s.turns[turn]), at)
  {
    hide MayAuthorize, OneLive;
    LatestFindsTheLiveRow(s.rows, s.turns[turn].scope, at, id);
  }

  /** In every reachable state, a consenting turn facing a pending, unexpired proposal is
      granted exactly when the proposal stems from another message and some stored reply of
      the conversation began after the proposal and before the consent arrived. */
  lemma {:induction false} ConsentGrantedIff(cfg: Config, run: seq<State>, i: nat, turn: string, id: string, at: int)
    requires cfg.Valid() && IsRun(cfg, run) && i < |run| && Consenting(run[i], turn, id, at)
    ensures var s, t := run[i], run[i].turns[turn];
            ConsentGranted(cfg, s, turn, id, at) <==>
            && s.rows[id].proposedBy != t.message
            && exists q :: BegunBetween(s.history, q, t.scope, s.rows[id].createdAt, t.receivedAt)
  {
    RunKeepsInvariant(cfg, run, i);
    RowIsOnRecord(cfg, run[i], id);
    hide ConsentGranted, LockInv, RowInv, StatusInv, GrantInv, PledgeInv, UsedInv, Safe, MayAuthorize, BegunBetween, MessageInv, SavedInv, ReplyInv, IsRun;
    GuardExactly(run[i], turn, id, at);
    JudgedExactly(cfg, run[i], turn, id, at);
  }

  lemma RowIsOnRecord(cfg: Config, s: State, id: string)
    requires Inv(cfg, s) && id in s.rows
    ensures OneLive(s.rows)
    ensures Proposed(s.rows[id].createdAt, id, s.rows[id].scope, s.rows[id].tool, s.rows[id].args, s.rows[id].proposedBy) in s.history
  {
    hide ClockInv, LockInv, MessageInv, SavedInv, ReplyInv, StatusInv, GrantInv, PledgeInv, UsedInv, Safe;
  }

  /** A reply to the proposal was stored before the consent arrived. */
  ghost predicate StoredBefore(s: State, turn: string, id: string)
    requires turn in s.turns && id in s.rows
  {
    exists q :: q in s.history && q.ReplyStored? && q.scope == s.turns[turn].scope
                && s.rows[id].createdAt < q.begunAt && q.at < s.turns[turn].receivedAt
  }

  /** The consent arrived after a reply to the proposal had begun and not after it was stored. */
  ghost predicate InTheWindow(s: State, turn: string, id: string)
    requires turn in s.turns && id in s.rows
  {
    exists q :: q in s.history && q.ReplyStored? && q.scope == s.turns[turn].scope
                && s.rows[id].createdAt < q.begunAt < s.turns[turn].receivedAt <= q.at
  }

  lemma BegunMeansStoredOrOpen(s: State, turn: string, id: string)
    requires turn in s.turns && id in s.rows && ReplyInv(s.messages, s.history)
    ensures (exists q :: BegunBetween(s.history, q, s.turns[turn].scope, s.rows[id].createdAt, s.turns[turn].receivedAt)) <==>
            StoredBefore(s, turn, id) || InTheWindow(s, turn, id)
  {
    hide HasReply, HasStored;
    var t, row := s.turns[turn], s.rows[id];
    if q :| q in s.history && q.ReplyStored? && q.scope == t.scope && row.createdAt < q.begunAt && q.at < t.receivedAt {
      assert BegunBetween(s.history, q, t.scope, row.createdAt, t.receivedAt);
    }
    if q :| q in s.history && q.ReplyStored? && q.scope == t.scope && row.createdAt < q.begunAt < t.receivedAt <= q.at {
      assert BegunBetween(s.history, q, t.scope, row.createdAt, t.receivedAt);
    }
  }

  /** That only a consent to a stored reply is granted fails exactly for a consent that arrived
      between the begin of a reply and its end, with no earlier reply stored in time. */
  lemma {:induction false} PromiseFailsExactlyInTheWindow(cfg: Config, run: seq<State>, i: nat, turn: string, id: string, at: int)
    requires cfg.Valid() && IsRun(cfg, run) && i < |run| && Consenting(run[i], turn, id, at)
    requires run[i].rows[id].proposedBy != run[i].turns[turn].message
    ensures ConsentGranted(cfg, run[i], turn, id, at) && !StoredBefore(run[i], turn, id) <==>
            InTheWindow(run[i], turn, id) && !StoredBefore(run[i], turn, id)
  {
    RunKeepsInvariant(cfg, run, i);
    hide ConsentGranted, LockInv, RowInv, StatusInv, GrantInv, PledgeInv, UsedInv, Safe, BegunBetween, MessageInv, SavedInv, ReplyInv, ClockInv, StoredBefore, InTheWindow, IsRun;
    ConsentGrantedIff(cfg, run, i, turn, id, at);
    BegunMeansStoredOrOpen(run[i], turn, id);
  }

  /** At most one live proposal faces a free-text consent. */
  lemma OneLiveProposal(cfg: Config, run: seq<State>, i: nat)
    requires cfg.Valid() && IsRun(cfg, run) && i < |run|
    ensures OneLive(run[i].rows)
  {
    RunKeepsInvariant(cfg, run, i);
  }

  /** In every reachable state, an authorized proposal that has not expired is executed
      as frozen by any schema-valid call that names it, unless the customer's profile
      is no longer the frozen one. */
  lemma ConsentIsNeverStranded(cfg: Config, run: seq<State>, i: nat, id: string, t: Trusted, args: Arguments, now: int)
    requires cfg.Valid() && IsRun(cfg, run) && i < |run| && run[i].now <= now
    requires id in run[i].rows && run[i].rows[id].status == Confirmed && now < run[i].rows[id].expiresAt
    requires t.Valid() && t.scope == run[i].rows[id].scope
    requires SchemaValid(run[i].rows[id].tool, args) && Text(args, CONFIRMATION_ID) == id
    ensures var s, p := run[i], run[i].rows[id];
            var sameOwner := p.tool == CreateBooking ==>
                               Reachable(t.profile) && "customer" in p.args && p.args["customer"] == EncodeProfile(t.profile);
            var d := Execute(cfg, s.rows, s.minted, t, p.tool, args, now);
            && (d.Dispatch? <==> sameOwner)
            && (p.tool != Cancel ==> SlotToken(p.tool, p.args) in s.minted)
            && (d.Dispatch? ==>
                  d == Dispatch(id, Binding(t.scope, t.message, p.tool, p.args), CommandOf(s.minted, t.scope, p.tool, p.args)))
  {
    RunKeepsInvariant(cfg, run, i);
    hide Execute, LockInv, MessageInv, StatusInv, GrantInv, PledgeInv, UsedInv, Safe;
    ConsentReachesBackend(cfg, run[i].rows, run[i].minted, t, args, id, now);
  }

  // ---- what single steps do ----

  /** The conversation's live proposals are withdrawn, each with an event, and nothing of another
      conversation changes. */
  ghost predicate WithdrawsLive(s: State, after: State, scope: Scope, at: int) {
    && after.rows.Keys == s.rows.Keys
    && forall i :: i in s.rows ==>
         if s.rows[i].scope == scope && s.rows[i].status in {Pending, Confirmed} && at < s.rows[i].expiresAt
         then after.rows[i] == s.rows[i].(status := Rejected) && Withdrawn(at, i) in after.history
         else after.rows[i] == s.rows[i]
  }

  /** A message that is no consent withdraws what its conversation had on offer; so does giving up. */
  lemma {:induction false} OtherMessagesWithdraw(cfg: Config, s: State, turn: string, at: int)
    requires turn in s.turns
    ensures Enabled(cfg, s.(now := at), Judge(turn)) && !s.turns[turn].consent ==>
              WithdrawsLive(s, Apply(cfg, s.(now := at), Judge(turn)), s.turns[turn].scope, at)
    ensures Enabled(cfg, s.(now := at), Withdraw(turn)) ==>
              WithdrawsLive(s, Apply(cfg, s.(now := at), Withdraw(turn)), s.turns[turn].scope, at)
  {
    hide InvalidateRows, LatestRow, MayAuthorize;
    InvalidateRowByRow(s.rows, s.turns[turn].scope, at);
  }

  /** After the backend's answer the authorized row is consumed, and no other row changes. */
  lemma ConsumeMarksTheRow(cfg: Config, s: State, turn: string, at: int)
    requires Enabled(cfg, s.(now := at), Consume(turn))
    ensures var c, after := s.turns[turn].stage, Apply(cfg, s.(now := at), Consume(turn));
            after.rows == if && c.id in s.rows && s.rows[c.id].scope == c.binding.scope && s.rows[c.id].tool == c.binding.tool
                             && s.rows[c.id].args == c.binding.args && at < s.rows[c.id].expiresAt
                             && s.rows[c.id].status in {Confirmed, Consumed}
                          then s.rows[c.id := s.rows[c.id].(status := Consumed)] else s.rows
  {
  }

  /** A granted consent confirms the row in the name of the message, and changes no other. */
  lemma ConsentConfirmsTheRow(cfg: Config, s: State, turn: string, id: string, at: int)
    requires Enabled(cfg, s.(now := at), Judge(turn)) && s.turns[turn].consent && id in s.rows
    requires forall e :: e in s.history ==> e.at <= s.now
    requires s.now < at && ConsentGranted(cfg, s, turn, id, at)
    ensures Apply(cfg, s.(now := at), Judge(turn)).rows == s.rows[id := s.rows[id].(status := Confirmed, confirmedBy := Some(s.turns[turn].message))]
  {
    hide MayAuthorize, LatestRow;
  }

  /** After an offer the conversation has the offered action as its one live proposal. */
  lemma {:induction false} OfferIsOnRecord(s: State, b: Binding, expiresAt: int, newId: string) returns (id: string)
    requires OneLive(s.rows) && newId !in s.rows && s.now < expiresAt
    ensures var after := OfferStep(s, b, expiresAt, newId);
            && id in after.rows && after.rows[id].scope == b.scope && after.rows[id].tool == b.tool && after.rows[id].args == b.args
            && Live(after.rows[id]) && s.now < after.rows[id].expiresAt && OneLive(after.rows)
            && (id == newId ==> Proposed(s.now, id, b.scope, b.tool, b.args, b.message) in after.history
                                && after.rows[id].createdAt == s.now && after.rows[id].expiresAt == expiresAt)
            && (id != newId ==> id in s.rows && after.rows[id] == s.rows[id])
  {
    ProposeKeepsOneLive(s.rows, b, newId, expiresAt, s.now);
    var kept := ExpireRows(s.rows, b.scope, s.now);
    hide OneLive, Withdrawals;
    if repeated :| repeated in Repeats(kept, b, s.now) {
      id := repeated;
    } else {
      id := newId;
    }
  }
}

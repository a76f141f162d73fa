/** Every step of the turn protocol keeps the invariant, so every run is safe. */
module ProtocolProofs {
  import opened Domain
  import opened Confirmations
  import opened Gateway
  import opened Protocol

  /** The invariant at an instant later than everything recorded. */
  ghost predicate Ready(cfg: Config, s: State) {
    && cfg.Valid() && Inv(cfg, s)
    && (forall e :: e in s.history ==> e.at < s.now)
    && (forall i :: i in s.rows ==> s.rows[i].createdAt < s.now)
    && (forall f :: f in s.flights ==> f.sent < s.now)
  }

  ghost predicate Extends(a: Minted, b: Minted) {
    forall k :: k in a ==> k in b && a[k] == b[k]
  }

  // ---- the past stays settled ----

  lemma PresentedStays(h: set<Event>, h': set<Event>, e: Event)
    requires h <= h' && e.Authorized? && Presented(h, e)
    ensures Presented(h', e)
  {
    var p, r, q, c :| PresentedBy(h, e, p, r, q, c);
    assert PresentedBy(h', e, p, r, q, c);
  }

  lemma JustifiedStays(h: set<Event>, h': set<Event>, m: Minted, m': Minted, e: Event)
    requires h <= h' && Extends(m, m') && e.Mutated? && Justified(h, m, e)
    requires forall w :: w in h' && w !in h ==> e.at < w.at
    ensures Justified(h', m', e)
  {
    var p, g :| AuthorizedBy(h, e, p, g);
    assert AuthorizedBy(h', e, p, g);
  }

  /** Later events that are neither grants nor mutations, and later tokens, keep a safe history safe. */
  lemma SafeStays(h: set<Event>, h': set<Event>, m: Minted, m': Minted, now: int)
    requires Safe(h, m) && Extends(m, m') && h <= h'
    requires forall e :: e in h ==> e.at < now
    requires forall e :: e in h' && e !in h ==> e.at == now && !e.Authorized? && !e.Mutated?
    ensures Safe(h', m')
  {
    forall e | e in h' && e.Authorized?
      ensures Presented(h', e)
    {
      PresentedStays(h, h', e);
    }
    forall e | e in h' && e.Mutated?
      ensures Justified(h', m', e)
    {
      JustifiedStays(h, h', m, m', e);
    }
  }

  lemma GrantStays(h: set<Event>, h': set<Event>, i: string, p: Proposal, p': Proposal)
    requires h <= h' && HasGrant(h, i, p) && p'.proposedBy == p.proposedBy && p'.createdAt == p.createdAt
    ensures HasGrant(h', i, p')
  {
    var g :| GrantOf(h, i, p, g);
    assert GrantOf(h', i, p', g);
  }

  lemma StatusStays(rows: Rows, h: set<Event>, h': set<Event>)
    requires StatusInv(rows, h) && h <= h' && forall e :: e in h' && e !in h ==> !e.Withdrawn?
    ensures StatusInv(rows, h')
  {
    forall i | i in rows && Usable(rows[i])
      ensures HasGrant(h', i, rows[i])
    {
      GrantStays(h, h', i, rows[i], rows[i]);
    }
  }

  lemma ChecksStay(turns: map<string, Turn>, rows: Rows, m: Minted, m': Minted)
    requires GrantInv(turns, rows, m) && Extends(m, m')
    ensures GrantInv(turns, rows, m')
  {
    forall t | t in turns && turns[t].stage.Checked?
      ensures CheckedOk(turns[t], rows, m')
    {
      assert CheckedOk(turns[t], rows, m);
    }
  }

  /** Rows may change their status, later events and tokens may come: calls on their way
      keep their pledge as long as withdrawals come after they were sent. */
  ghost predicate SameRows(rows: Rows, rows': Rows) {
    forall i :: i in rows ==>
      i in rows' && rows'[i] == rows[i].(status := rows'[i].status, confirmedBy := rows'[i].confirmedBy)
  }

  lemma PledgeStays(f: Flight, rows: Rows, rows': Rows, m: Minted, m': Minted, h: set<Event>, h': set<Event>)
    requires Pledged(f, rows, m, h) && SameRows(rows, rows') && Extends(m, m') && h <= h'
    requires forall e :: e in h' && e !in h && e.Withdrawn? ==> f.sent < e.at
    ensures Pledged(f, rows', m', h')
  {
    var g :| GrantOf(h, f.id, rows[f.id], g) && g.at < f.sent;
    assert GrantOf(h', f.id, rows'[f.id], g);
  }

  lemma PledgesStay(now: int, flights: set<Flight>, rows: Rows, rows': Rows, m: Minted, m': Minted, h: set<Event>, h': set<Event>)
    requires PledgeInv(now, flights, rows, m, h) && SameRows(rows, rows') && Extends(m, m') && h <= h'
    requires forall e, f :: e in h' && e !in h && e.Withdrawn? && f in flights ==> f.sent < e.at
    ensures PledgeInv(now, flights, rows', m', h')
  {
    hide Pledged, SameRows, Extends;
    forall f | f in flights
      ensures Pledged(f, rows', m', h')
    {
      PledgeStays(f, rows, rows', m, m', h, h');
    }
  }

  // ---- one component at a time ----

  lemma LockKept(turns: map<string, Turn>, lock: map<Scope, string>, turn: string, stage: Stage)
    requires LockInv(turns, lock) && turn in turns && Holding(turns[turn].stage) && Holding(stage)
    ensures LockInv(turns[turn := turns[turn].(stage := stage)], lock)
  {
  }

  lemma LockReleased(s: State, turn: string)
    requires LockInv(s.turns, s.lock) && turn in s.turns
    ensures LockInv(Release(s, turn).turns, Release(s, turn).lock)
  {
  }

  lemma StageMessages(turns: map<string, Turn>, messages: map<string, Message>, h: set<Event>, turn: string, stage: Stage)
    requires MessageInv(turns, messages, h) && turn in turns
    requires stage.Replying? ==> ReplyBegun(stage.begunAt, turns[turn].scope) in h
    ensures MessageInv(turns[turn := turns[turn].(stage := stage)], messages, h)
  {
  }

  lemma StageChecks(turns: map<string, Turn>, rows: Rows, m: Minted, turn: string, stage: Stage)
    requires GrantInv(turns, rows, m) && turn in turns
    requires stage.Checked? ==> CheckedOk(turns[turn].(stage := stage), rows, m)
    ensures GrantInv(turns[turn := turns[turn].(stage := stage)], rows, m)
  {
    hide CheckedOk;
  }

  lemma StageClock(now: int, turns: map<string, Turn>, rows: Rows, h: set<Event>, turn: string, stage: Stage)
    requires ClockInv(now, turns, rows, h) && turn in turns
    ensures ClockInv(now, turns[turn := turns[turn].(stage := stage)], rows, h)
  {
  }

  lemma StageSaved(turns: map<string, Turn>, messages: map<string, Message>, turn: string, stage: Stage)
    requires SavedInv(turns, messages) && turn in turns && !Waiting(stage)
    requires Holding(stage) ==> Holding(turns[turn].stage) && !Waiting(turns[turn].stage)
    ensures SavedInv(turns[turn := turns[turn].(stage := stage)], messages)
  {
    SameTurns(turns, turn, stage);
  }

  lemma SameTurns(turns: map<string, Turn>, turn: string, stage: Stage)
    requires turn in turns && forall t, u {:trigger SameMessage(turns, t, u)} :: SameMessage(turns, t, u) ==> t == u
    ensures var after := turns[turn := turns[turn].(stage := stage)];
            forall t, u {:trigger SameMessage(after, t, u)} :: SameMessage(after, t, u) ==> t == u
  {
    var after := turns[turn := turns[turn].(stage := stage)];
    forall t, u | SameMessage(after, t, u)
      ensures t == u
    {
      assert SameMessage(turns, t, u);
    }
  }

  lemma RepliesStay(messages: map<string, Message>, h: set<Event>, h': set<Event>)
    requires ReplyInv(messages, h) && h <= h' && forall e :: e in h' && e !in h ==> !e.ReplyStored?
    ensures ReplyInv(messages, h')
  {
    forall m | m in messages && messages[m].role == Assistant
      ensures HasStored(h', messages[m].scope, messages[m].createdAt)
    {
      var q :| StoredAs(h, q, messages[m].scope, messages[m].createdAt);
      assert StoredAs(h', q, messages[m].scope, messages[m].createdAt);
    }
  }

  /** A turn moves to another stage while it holds the lock. */
  lemma StageStep(cfg: Config, s: State, turn: string, stage: Stage)
    requires Inv(cfg, s) && turn in s.turns && Holding(s.turns[turn].stage) && Holding(stage)
    requires !Waiting(s.turns[turn].stage) && !Waiting(stage)
    requires stage.Checked? ==> CheckedOk(s.turns[turn].(stage := stage), s.rows, s.minted)
    requires stage.Replying? ==> ReplyBegun(stage.begunAt, s.turns[turn].scope) in s.history
    ensures Inv(cfg, To(s, turn, stage))
  {
    hide ClockInv, LockInv, MessageInv, SavedInv, ReplyInv, RowInv, StatusInv, GrantInv, PledgeInv, UsedInv, Safe, CheckedOk;
    LockKept(s.turns, s.lock, turn, stage);
    StageMessages(s.turns, s.messages, s.history, turn, stage);
    StageChecks(s.turns, s.rows, s.minted, turn, stage);
    StageClock(s.now, s.turns, s.rows, s.history, turn, stage);
    StageSaved(s.turns, s.messages, turn, stage);
  }

  lemma ReleaseStep(cfg: Config, s: State, turn: string)
    requires Inv(cfg, s) && turn in s.turns
    ensures Inv(cfg, Release(s, turn))
  {
    hide ClockInv, LockInv, MessageInv, SavedInv, ReplyInv, RowInv, StatusInv, GrantInv, PledgeInv, UsedInv, Safe;
    LockReleased(s, turn);
    StageMessages(s.turns, s.messages, s.history, turn, Finished);
    StageChecks(s.turns, s.rows, s.minted, turn, Finished);
    StageClock(s.now, s.turns, s.rows, s.history, turn, Finished);
    StageSaved(s.turns, s.messages, turn, Finished);
  }

  lemma EventStep(cfg: Config, s: State, e: Event)
    requires Inv(cfg, s) && e.at == s.now && (e.Arrived? || e.ReplyBegun? || e.TimedOut?)
    requires forall f :: f in s.history ==> f.at < s.now
    ensures Inv(cfg, Log(s, {e}))
  {
    hide LockInv, SavedInv, ReplyInv, StatusInv, GrantInv, PledgeInv, Safe, Frozen, OneLive, MintedOk, SameAction;
    SafeStays(s.history, s.history + {e}, s.minted, s.minted, s.now);
    StatusStays(s.rows, s.history, s.history + {e});
    RepliesStay(s.messages, s.history, s.history + {e});
    PledgesStay(s.now, s.flights, s.rows, s.rows, s.minted, s.minted, s.history, s.history + {e});
  }

  /** Save: the message is stored with its time of arrival. */
  lemma SaveStep(cfg: Config, s: State, turn: string)
    requires Inv(cfg, s) && turn in s.turns && s.turns[turn].stage.Locked?
    ensures var t := s.turns[turn];
            Inv(cfg, To(s, turn, Saved).(messages := s.messages[t.message := Message(t.scope, User, t.receivedAt)]))
  {
    ArrivalIsOnRecord(cfg, s, turn);
    hide ClockInv, LockInv, MessageInv, SavedInv, ReplyInv, RowInv, StatusInv, GrantInv, PledgeInv, UsedInv, Safe;
    LockKept(s.turns, s.lock, turn, Saved);
    SaveMessages(s.turns, s.messages, s.history, turn);
    SaveSaved(s.turns, s.messages, turn);
    SaveReplies(s.turns, s.messages, s.history, turn);
    StageChecks(s.turns, s.rows, s.minted, turn, Saved);
    StageClock(s.now, s.turns, s.rows, s.history, turn, Saved);
  }

  lemma SaveMessages(turns: map<string, Turn>, messages: map<string, Message>, h: set<Event>, turn: string)
    requires MessageInv(turns, messages, h) && turn in turns
    ensures var t := turns[turn];
            MessageInv(turns[turn := t.(stage := Saved)], messages[t.message := Message(t.scope, User, t.receivedAt)], h)
  {
  }

  lemma SaveSaved(turns: map<string, Turn>, messages: map<string, Message>, turn: string)
    requires SavedInv(turns, messages) && turn in turns && turns[turn].stage.Locked?
    ensures var t := turns[turn];
            SavedInv(turns[turn := t.(stage := Saved)], messages[t.message := Message(t.scope, User, t.receivedAt)])
  {
    SameTurns(turns, turn, Saved);
    forall u | u in turns && u != turn
      ensures turns[u].message != turns[turn].message
    {
      assert SameMessage(turns, u, turn) <==> turns[u].message == turns[turn].message;
    }
  }

  lemma SaveReplies(turns: map<string, Turn>, messages: map<string, Message>, h: set<Event>, turn: string)
    requires SavedInv(turns, messages) && ReplyInv(messages, h) && turn in turns && turns[turn].stage.Locked?
    ensures var t := turns[turn];
            ReplyInv(messages[t.message := Message(t.scope, User, t.receivedAt)], h)
  {
    hide HasStored;
    var t := turns[turn];
    var after := messages[t.message := Message(t.scope, User, t.receivedAt)];
    forall q | q in h && q.ReplyStored?
      ensures HasReply(after, q.scope, q.begunAt)
    {
      var m :| ReplyAs(messages, m, q.scope, q.begunAt);
      assert ReplyAs(after, m, q.scope, q.begunAt);
    }
  }

  /** StoreReply: the row and the event appear together, the lock is released. */
  lemma StoreStep(cfg: Config, s: State, e: Event, id: string)
    requires Ready(cfg, s) && e.ReplyStored? && e.at == s.now && id !in s.messages && e.begunAt < e.at
    requires ReplyBegun(e.begunAt, e.scope) in s.history && forall t :: t in s.turns ==> s.turns[t].message != id
    ensures Inv(cfg, Log(s, {e}).(messages := s.messages[id := Message(e.scope, Assistant, e.begunAt)]))
  {
    hide ClockInv, LockInv, MessageInv, SavedInv, ReplyInv, RowInv, StatusInv, GrantInv, PledgeInv, UsedInv, Safe;
    var h', m' := s.history + {e}, s.messages[id := Message(e.scope, Assistant, e.begunAt)];
    SafeStays(s.history, h', s.minted, s.minted, s.now);
    StatusStays(s.rows, s.history, h');
    RowsStay(cfg, s.rows, s.minted, s.history, h');
    StoreClock(s.now, s.turns, s.rows, s.history, e);
    StoreUsed(s.rows, s.used, s.history, e);
    StoreMessages(s.turns, s.messages, s.history, e, id);
    StoreSaved(s.turns, s.messages, id, e);
    StoreReplies(s.messages, s.history, e, id);
    PledgesStay(s.now, s.flights, s.rows, s.rows, s.minted, s.minted, s.history, h');
  }

  lemma StoreClock(now: int, turns: map<string, Turn>, rows: Rows, h: set<Event>, e: Event)
    requires ClockInv(now, turns, rows, h) && e.ReplyStored? && e.at == now
    ensures ClockInv(now, turns, rows, h + {e})
  {
  }

  lemma StoreUsed(rows: Rows, used: set<IdempotencyKey>, h: set<Event>, e: Event)
    requires UsedInv(rows, used, h) && e.ReplyStored?
    ensures UsedInv(rows, used, h + {e})
  {
    hide SameAction;
  }

  lemma StoreMessages(turns: map<string, Turn>, messages: map<string, Message>, h: set<Event>, e: Event, id: string)
    requires MessageInv(turns, messages, h) && e.ReplyStored? && ReplyBegun(e.begunAt, e.scope) in h
    ensures MessageInv(turns, messages[id := Message(e.scope, Assistant, e.begunAt)], h + {e})
  {
  }

  lemma StoreSaved(turns: map<string, Turn>, messages: map<string, Message>, id: string, e: Event)
    requires SavedInv(turns, messages) && e.ReplyStored? && forall t :: t in turns ==> turns[t].message != id
    ensures SavedInv(turns, messages[id := Message(e.scope, Assistant, e.begunAt)])
  {
  }

  lemma StoreReplies(messages: map<string, Message>, h: set<Event>, e: Event, id: string)
    requires ReplyInv(messages, h) && e.ReplyStored? && e.begunAt < e.at && id !in messages
    ensures ReplyInv(messages[id := Message(e.scope, Assistant, e.begunAt)], h + {e})
  {
    var h', m' := h + {e}, messages[id := Message(e.scope, Assistant, e.begunAt)];
    forall m | m in m' && m'[m].role == Assistant
      ensures HasStored(h', m'[m].scope, m'[m].createdAt)
    {
      if m == id {
        assert StoredAs(h', e, e.scope, e.begunAt);
      } else {
        var q :| StoredAs(h, q, messages[m].scope, messages[m].createdAt);
        assert StoredAs(h', q, m'[m].scope, m'[m].createdAt);
      }
    }
    forall q | q in h' && q.ReplyStored?
      ensures HasReply(m', q.scope, q.begunAt)
    {
      if q in h {
        var m :| ReplyAs(messages, m, q.scope, q.begunAt);
        assert ReplyAs(m', m, q.scope, q.begunAt);
      } else {
        assert ReplyAs(m', id, q.scope, q.begunAt);
      }
    }
  }

  lemma QueueStep(cfg: Config, s: State, turn: string, t: Turn)
    requires Inv(cfg, s) && turn !in s.turns && t.stage == Queued && t.receivedAt == s.now
    requires Arrived(t.receivedAt, t.message, t.scope) in s.history
    requires t.message !in s.messages && forall u :: u in s.turns ==> s.turns[u].message != t.message
    ensures Inv(cfg, s.(turns := s.turns[turn := t]))
  {
    hide ClockInv, LockInv, MessageInv, SavedInv, ReplyInv, RowInv, StatusInv, GrantInv, PledgeInv, UsedInv, Safe;
    QueueClock(s.now, s.turns, s.rows, s.history, turn, t);
    QueueLock(s.turns, s.lock, turn, t);
    QueueMessages(s.turns, s.messages, s.history, turn, t);
    QueueChecks(s.turns, s.rows, s.minted, turn, t);
    QueueSaved(s.turns, s.messages, turn, t);
  }

  lemma QueueSaved(turns: map<string, Turn>, messages: map<string, Message>, turn: string, t: Turn)
    requires SavedInv(turns, messages) && turn !in turns && t.stage == Queued
    requires t.message !in messages && forall u :: u in turns ==> turns[u].message != t.message
    ensures SavedInv(turns[turn := t], messages)
  {
    var after := turns[turn := t];
    forall u, v | SameMessage(after, u, v)
      ensures u == v
    {
      assert u in turns && v in turns ==> SameMessage(turns, u, v);
    }
  }

  lemma QueueClock(now: int, turns: map<string, Turn>, rows: Rows, h: set<Event>, turn: string, t: Turn)
    requires ClockInv(now, turns, rows, h) && t.stage == Queued && t.receivedAt == now
    ensures ClockInv(now, turns[turn := t], rows, h)
  {
  }

  lemma QueueLock(turns: map<string, Turn>, lock: map<Scope, string>, turn: string, t: Turn)
    requires LockInv(turns, lock) && turn !in turns && t.stage == Queued
    ensures LockInv(turns[turn := t], lock)
  {
  }

  lemma QueueMessages(turns: map<string, Turn>, messages: map<string, Message>, h: set<Event>, turn: string, t: Turn)
    requires MessageInv(turns, messages, h) && t.stage == Queued && Arrived(t.receivedAt, t.message, t.scope) in h
    ensures MessageInv(turns[turn := t], messages, h)
  {
  }

  lemma QueueChecks(turns: map<string, Turn>, rows: Rows, m: Minted, turn: string, t: Turn)
    requires GrantInv(turns, rows, m) && t.stage == Queued
    ensures GrantInv(turns[turn := t], rows, m)
  {
    hide CheckedOk;
  }

  lemma LockStep(cfg: Config, s: State, turn: string)
    requires Inv(cfg, s) && turn in s.turns && s.turns[turn].stage.Queued? && s.turns[turn].scope !in s.lock
    ensures Inv(cfg, To(s, turn, Locked).(lock := s.lock[s.turns[turn].scope := turn]))
  {
    hide ClockInv, MessageInv, SavedInv, ReplyInv, RowInv, StatusInv, GrantInv, PledgeInv, UsedInv, Safe;
    StageMessages(s.turns, s.messages, s.history, turn, Locked);
    StageChecks(s.turns, s.rows, s.minted, turn, Locked);
    StageClock(s.now, s.turns, s.rows, s.history, turn, Locked);
    LockSaved(s.turns, s.messages, turn);
  }

  lemma LockSaved(turns: map<string, Turn>, messages: map<string, Message>, turn: string)
    requires SavedInv(turns, messages) && turn in turns && turns[turn].stage.Queued?
    ensures SavedInv(turns[turn := turns[turn].(stage := Locked)], messages)
  {
    SameTurns(turns, turn, Locked);
  }

  lemma FrozenStays(cfg: Config, m: Minted, m': Minted, p: Proposal)
    requires Extends(m, m') && Frozen(cfg, m, p)
    ensures Frozen(cfg, m', p)
  {
  }

  lemma MintStep(cfg: Config, s: State, token: string, claims: Claims)
    requires Ready(cfg, s) && token !in s.minted && Mintable(cfg, claims, s.now)
    ensures Inv(cfg, s.(minted := s.minted[token := claims]))
  {
    hide ClockInv, LockInv, MessageInv, SavedInv, ReplyInv, StatusInv, GrantInv, PledgeInv, UsedInv, Safe, Frozen;
    var m' := s.minted[token := claims];
    SafeStays(s.history, s.history, s.minted, m', s.now);
    ChecksStay(s.turns, s.rows, s.minted, m');
    PledgesStay(s.now, s.flights, s.rows, s.rows, s.minted, m', s.history, s.history);
    forall i | i in s.rows
      ensures Frozen(cfg, m', s.rows[i])
    {
      FrozenStays(cfg, s.minted, m', s.rows[i]);
    }
  }

  // ---- steps that change rows ----

  /** Live rows of one conversation stop being live; nothing else changes. */
  ghost predicate Retires(rows: Rows, rows': Rows, scope: Scope) {
    && rows'.Keys == rows.Keys
    && forall i :: i in rows ==>
         || rows'[i] == rows[i]
         || (rows[i].scope == scope && Live(rows[i])
             && (rows'[i] == rows[i].(status := Rejected) || rows'[i] == rows[i].(status := Expired)))
  }

  lemma RetireStatus(rows: Rows, rows': Rows, scope: Scope, h: set<Event>, now: int)
    requires StatusInv(rows, h) && Retires(rows, rows', scope)
    ensures StatusInv(rows', h + Withdrawals(rows, rows', now))
  {
    var h' := h + Withdrawals(rows, rows', now);
    forall i | i in rows' && Usable(rows'[i])
      ensures HasGrant(h', i, rows'[i])
    {
      GrantStays(h, h', i, rows[i], rows'[i]);
    }
  }

  /** The holder of a conversation's lock is the only turn that may have an action checked in it. */
  lemma RetireChecks(turns: map<string, Turn>, lock: map<Scope, string>, rows: Rows, rows': Rows, m: Minted, turn: string)
    requires LockInv(turns, lock) && GrantInv(turns, rows, m)
    requires turn in turns && Holding(turns[turn].stage) && !turns[turn].stage.Checked?
    requires Retires(rows, rows', turns[turn].scope)
    ensures GrantInv(turns, rows', m)
  {
    forall t | t in turns && turns[t].stage.Checked?
      ensures CheckedOk(turns[t], rows', m)
    {
      assert CheckedOk(turns[t], rows, m);
      assert turns[t].scope != turns[turn].scope;
    }
  }

  lemma RetireRows(cfg: Config, rows: Rows, rows': Rows, scope: Scope, m: Minted, h: set<Event>, h': set<Event>)
    requires RowInv(cfg, rows, m, h) && Retires(rows, rows', scope) && h <= h'
    ensures RowInv(cfg, rows', m, h')
  {
    hide Frozen, MintedOk;
    forall i | i in rows'
      ensures Frozen(cfg, m, rows'[i])
    {
      FrozenWhatever(cfg, m, rows[i], rows'[i]);
    }
  }

  /** What is frozen does not depend on the status of the row. */
  lemma FrozenWhatever(cfg: Config, m: Minted, p: Proposal, p': Proposal)
    requires Frozen(cfg, m, p) && p' == p.(status := p'.status, confirmedBy := p'.confirmedBy)
    ensures Frozen(cfg, m, p')
  {
  }

  lemma RetireUsed(rows: Rows, rows': Rows, scope: Scope, used: set<IdempotencyKey>, h: set<Event>, extra: set<Event>)
    requires UsedInv(rows, used, h) && Retires(rows, rows', scope) && forall e :: e in extra ==> e.Withdrawn?
    ensures UsedInv(rows', used, h + extra)
  {
  }

  lemma RetireClock(s: State, rows': Rows, scope: Scope, extra: set<Event>)
    requires ClockInv(s.now, s.turns, s.rows, s.history) && Retires(s.rows, rows', scope)
    requires forall e :: e in extra ==> e.Withdrawn? && e.at == s.now
    ensures ClockInv(s.now, s.turns, rows', s.history + extra)
  {
  }

  lemma MessagesStay(turns: map<string, Turn>, messages: map<string, Message>, h: set<Event>, h': set<Event>)
    requires MessageInv(turns, messages, h) && h <= h'
    ensures MessageInv(turns, messages, h')
  {
  }

  lemma RetiredSameRows(rows: Rows, rows': Rows, scope: Scope)
    requires Retires(rows, rows', scope)
    ensures SameRows(rows, rows')
  {
  }

  lemma RetireStep(cfg: Config, s: State, turn: string, rows': Rows)
    requires Ready(cfg, s) && turn in s.turns && Holding(s.turns[turn].stage) && !s.turns[turn].stage.Checked?
    requires Retires(s.rows, rows', s.turns[turn].scope)
    ensures Inv(cfg, WithRows(s, rows'))
  {
    hide ClockInv, LockInv, MessageInv, SavedInv, ReplyInv, RowInv, StatusInv, GrantInv, PledgeInv, UsedInv, Safe, Retires;
    var scope, extra := s.turns[turn].scope, Withdrawals(s.rows, rows', s.now);
    SafeStays(s.history, s.history + extra, s.minted, s.minted, s.now);
    RetireStatus(s.rows, rows', scope, s.history, s.now);
    RetireChecks(s.turns, s.lock, s.rows, rows', s.minted, turn);
    RetireRows(cfg, s.rows, rows', scope, s.minted, s.history, s.history + extra);
    RetireUsed(s.rows, rows', scope, s.used, s.history, extra);
    RetireClock(s, rows', scope, extra);
    RetiredSameRows(s.rows, rows', scope);
    PledgesStay(s.now, s.flights, s.rows, rows', s.minted, s.minted, s.history, s.history + extra);
    MessagesStay(s.turns, s.messages, s.history, s.history + extra);
    RepliesStay(s.messages, s.history, s.history + extra);
  }

  lemma InvalidateRetires(rows: Rows, scope: Scope, now: int)
    ensures Retires(rows, InvalidateRows(rows, scope, now), scope)
  {
  }

  // ---- proposals ----

  lemma InsertRows(cfg: Config, rows: Rows, id: string, p: Proposal, m: Minted, h: set<Event>, h': set<Event>)
    requires RowInv(cfg, rows, m, h) && h <= h' && id != "" && id !in rows && Frozen(cfg, m, p)
    requires Proposed(p.createdAt, id, p.scope, p.tool, p.args, p.proposedBy) in h'
    requires LiveIn(rows, p.scope) == {}
    ensures RowInv(cfg, rows[id := p], m, h')
  {
    hide Frozen, MintedOk;
    forall i | i in rows && Live(rows[i])
      ensures rows[i].scope != p.scope
    {
      assert i !in LiveIn(rows, p.scope);
    }
  }

  lemma InsertStatus(rows: Rows, id: string, p: Proposal, h: set<Event>, h': set<Event>)
    requires StatusInv(rows, h) && h <= h' && id !in rows && p.status == Pending
    requires forall e :: e in h' && e !in h ==> !e.Withdrawn?
    ensures StatusInv(rows[id := p], h')
  {
    forall i | i in rows && Usable(rows[i])
      ensures HasGrant(h', i, rows[i])
    {
      GrantStays(h, h', i, rows[i], rows[i]);
    }
  }

  lemma InsertChecks(turns: map<string, Turn>, rows: Rows, id: string, p: Proposal, m: Minted)
    requires GrantInv(turns, rows, m) && id !in rows
    ensures GrantInv(turns, rows[id := p], m)
  {
    hide Stands;
    forall t | t in turns && turns[t].stage.Checked?
      ensures CheckedOk(turns[t], rows[id := p], m)
    {
      assert CheckedOk(turns[t], rows, m);
    }
  }

  lemma JustifiedBeside(h: set<Event>, e: Event, m: Minted, f: Event)
    requires f.Mutated? && Justified(h, m, f) && !e.Withdrawn?
    ensures Justified(h + {e}, m, f)
  {
    hide Stands;
    var p, g :| AuthorizedBy(h, f, p, g);
    assert AuthorizedBy(h + {e}, f, p, g);
  }

  /** Proposals and grants that were presented leave a safe history safe. */
  lemma SafeGrows(h: set<Event>, e: Event, m: Minted)
    requires Safe(h, m) && (e.Proposed? || (e.Authorized? && Presented(h, e)))
    ensures Safe(h + {e}, m)
  {
    hide Presented, Justified;
    var h' := h + {e};
    forall f | f in h' && f.Authorized?
      ensures Presented(h', f)
    {
      PresentedStays(h, h', f);
    }
    forall f | f in h' && f.Mutated?
      ensures Justified(h', m, f)
    {
      JustifiedBeside(h, e, m, f);
    }
  }

  lemma InsertClock(s: State, id: string, p: Proposal, e: Event)
    requires ClockInv(s.now, s.turns, s.rows, s.history) && p.createdAt == s.now && e.Proposed? && e.at == s.now
    requires forall f :: f in s.history && f.ReplyBegun? ==> f.at < s.now
    ensures ClockInv(s.now, s.turns, s.rows[id := p], s.history + {e})
  {
  }

  /** A new pending row, once no row of the conversation is live. */
  lemma InsertStep(cfg: Config, s: State, id: string, p: Proposal)
    requires Inv(cfg, s) && (forall e :: e in s.history && e.ReplyBegun? ==> e.at < s.now)
    requires id != "" && id !in s.rows && p.status == Pending && p.createdAt == s.now && Frozen(cfg, s.minted, p)
    requires LiveIn(s.rows, p.scope) == {}
    ensures Inv(cfg, Log(s.(rows := s.rows[id := p]), {Proposed(s.now, id, p.scope, p.tool, p.args, p.proposedBy)}))
  {
    hide ClockInv, LockInv, MessageInv, SavedInv, ReplyInv, RowInv, StatusInv, GrantInv, PledgeInv, Safe, Frozen, SameAction, LiveIn;
    var e := Proposed(s.now, id, p.scope, p.tool, p.args, p.proposedBy);
    InsertRows(cfg, s.rows, id, p, s.minted, s.history, s.history + {e});
    InsertStatus(s.rows, id, p, s.history, s.history + {e});
    InsertChecks(s.turns, s.rows, id, p, s.minted);
    SafeGrows(s.history, e, s.minted);
    InsertClock(s, id, p, e);
    PledgesStay(s.now, s.flights, s.rows, s.rows[id := p], s.minted, s.minted, s.history, s.history + {e});
    MessagesStay(s.turns, s.messages, s.history, s.history + {e});
    RepliesStay(s.messages, s.history, s.history + {e});
  }

  lemma ProposeRetires(rows: Rows, b: Binding, now: int)
    ensures var kept := ExpireRows(rows, b.scope, now);
            && LiveIn(kept, b.scope) <= kept.Keys
            && var cleared := SetStatus(kept, LiveIn(kept, b.scope), Rejected);
               Retires(rows, kept, b.scope) && Retires(rows, cleared, b.scope) && LiveIn(cleared, b.scope) == {}
  {
  }

  lemma OfferStepKeeps(cfg: Config, s: State, turn: string, b: Binding, expiresAt: int, newId: string)
    requires Ready(cfg, s) && turn in s.turns && s.turns[turn].stage.Running? && newId !in s.rows && newId != ""
    requires b.scope == s.turns[turn].scope
    requires Frozen(cfg, s.minted, Proposal(b.scope, b.tool, b.args, b.message, Pending, s.now, expiresAt, None))
    ensures Inv(cfg, OfferStep(s, b, expiresAt, newId))
  {
    hide ClockInv, LockInv, MessageInv, SavedInv, ReplyInv, RowInv, StatusInv, GrantInv, PledgeInv, UsedInv, Safe, Frozen, Retires, SameAction;
    hide Repeats, LiveIn, SetStatus, ExpireRows;
    ProposeRetires(s.rows, b, s.now);
    var kept := ExpireRows(s.rows, b.scope, s.now);
    if Repeats(kept, b, s.now) != {} {
      RetiresKeys(s.rows, kept, b.scope);
      RetireStep(cfg, s, turn, kept);
      assert OfferStep(s, b, expiresAt, newId).history == WithRows(s, kept).history;
    } else {
      var cleared := SetStatus(kept, LiveIn(kept, b.scope), Rejected);
      RetiresKeys(s.rows, cleared, b.scope);
      RetireStep(cfg, s, turn, cleared);
      var p := Proposal(b.scope, b.tool, b.args, b.message, Pending, s.now, expiresAt, None);
      InsertStep(cfg, WithRows(s, cleared), newId, p);
      assert Withdrawals(s.rows, cleared[newId := p], s.now) == Withdrawals(s.rows, cleared, s.now);
    }
  }

  lemma ProposeStep(cfg: Config, s: State, turn: string, tool: Tool, args: Arguments, newId: string)
    requires Ready(cfg, s) && turn in s.turns && s.turns[turn].stage.Running? && newId !in s.rows && newId != ""
    requires Execute(cfg, s.rows, s.minted, TrustedOf(s, s.turns[turn]), tool, args, s.now).Offer?
    ensures Inv(cfg, CallStep(cfg, s, turn, tool, args, newId))
  {
    hide Inv, Frozen, Execute, OfferStep;
    var t := TrustedOf(s, s.turns[turn]);
    OfferIsFrozen(cfg, s.rows, s.minted, t, tool, args, s.now);
    var d := Execute(cfg, s.rows, s.minted, t, tool, args, s.now);
    OfferStepKeeps(cfg, s, turn, d.binding, d.expiresAt, newId);
  }

  lemma RetiresKeys(rows: Rows, rows': Rows, scope: Scope)
    requires Retires(rows, rows', scope)
    ensures rows'.Keys == rows.Keys
  {
  }

  lemma DispatchStep(cfg: Config, s: State, turn: string, tool: Tool, args: Arguments, newId: string)
    requires Ready(cfg, s) && turn in s.turns && s.turns[turn].stage.Running?
    requires Execute(cfg, s.rows, s.minted, TrustedOf(s, s.turns[turn]), tool, args, s.now).Dispatch?
    ensures Inv(cfg, CallStep(cfg, s, turn, tool, args, newId))
  {
    hide ClockInv, LockInv, MessageInv, SavedInv, ReplyInv, RowInv, StatusInv, GrantInv, PledgeInv, UsedInv, Safe, Execute, SameAction;
    var t := TrustedOf(s, s.turns[turn]);
    DispatchIsBound(cfg, s.rows, s.minted, t, tool, args, s.now);
    var d := Execute(cfg, s.rows, s.minted, t, tool, args, s.now);
    StageStep(cfg, s, turn, Checked(d.confirmation, d.binding, d.command));
  }

  // ---- consent ----

  /** The guard of Authorize means that the proposal was shown in a stored reply. */
  lemma GuardMeansPresented(s: State, id: string, t: Trusted)
    requires ClockInv(s.now, s.turns, s.rows, s.history) && MessageInv(s.turns, s.messages, s.history)
    requires ReplyInv(s.messages, s.history)
    requires forall e :: e in s.history ==> e.at < s.now
    requires MayAuthorize(s.rows, s.messages, id, t, s.now)
    requires Proposed(s.rows[id].createdAt, id, s.rows[id].scope, s.rows[id].tool, s.rows[id].args, s.rows[id].proposedBy) in s.history
    ensures Presented(s.history, Authorized(s.now, id, t.message))
  {
    hide HasReply;
    var row := s.rows[id];
    var m :| m in s.messages && s.messages[m].scope == t.scope && s.messages[m].role == Assistant
             && row.createdAt <= s.messages[m].createdAt < s.messages[t.message].createdAt;
    var p := Proposed(row.createdAt, id, row.scope, row.tool, row.args, row.proposedBy);
    var r := ReplyBegun(s.messages[m].createdAt, t.scope);
    var c := Arrived(s.messages[t.message].createdAt, t.message, t.scope);
    var q :| StoredAs(s.history, q, s.messages[m].scope, s.messages[m].createdAt);
    assert !Tied(p, r);
    assert PresentedBy(s.history, Authorized(s.now, id, t.message), p, r, q, c);
  }

  lemma GrantRows(cfg: Config, rows: Rows, id: string, p': Proposal, m: Minted, h: set<Event>, h': set<Event>)
    requires RowInv(cfg, rows, m, h) && h <= h' && id in rows && p' == rows[id].(status := p'.status, confirmedBy := p'.confirmedBy)
    requires Live(p') ==> Live(rows[id])
    ensures RowInv(cfg, rows[id := p'], m, h')
  {
    hide MintedOk, Frozen;
    FrozenWhatever(cfg, m, rows[id], p');
  }

  /** A row that becomes, or stays, usable with a grant on record. */
  lemma UsableStatus(rows: Rows, id: string, p': Proposal, h: set<Event>, h': set<Event>)
    requires StatusInv(rows, h) && h <= h' && id in rows && rows[id].status != Rejected && HasGrant(h', id, p')
    requires forall e :: e in h' && e !in h ==> !e.Withdrawn?
    ensures StatusInv(rows[id := p'], h')
  {
    forall i | i in rows && i != id && Usable(rows[i])
      ensures HasGrant(h', i, rows[i])
    {
      GrantStays(h, h', i, rows[i], rows[i]);
    }
  }

  lemma UsableChecks(turns: map<string, Turn>, rows: Rows, id: string, p': Proposal, m: Minted)
    requires GrantInv(turns, rows, m) && id in rows && Usable(p')
    requires p' == rows[id].(status := p'.status, confirmedBy := p'.confirmedBy)
    ensures GrantInv(turns, rows[id := p'], m)
  {
    hide Stands;
    forall t | t in turns && turns[t].stage.Checked?
      ensures CheckedOk(turns[t], rows[id := p'], m)
    {
      assert CheckedOk(turns[t], rows, m);
    }
  }

  /** Row `id` becomes usable; a grant for it, old or new, is on record. */
  lemma UsableStep(cfg: Config, s: State, id: string, p': Proposal, extra: set<Event>)
    requires Ready(cfg, s) && id in s.rows && s.rows[id].status != Rejected && Usable(p')
    requires p' == s.rows[id].(status := p'.status, confirmedBy := p'.confirmedBy) && (Live(p') ==> Live(s.rows[id]))
    requires forall e :: e in extra ==> e.Authorized? && e.at == s.now
    requires HasGrant(s.history + extra, id, p') && Safe(s.history + extra, s.minted)
    ensures Inv(cfg, Log(s.(rows := s.rows[id := p']), extra))
  {
    hide LockInv, MessageInv, SavedInv, ReplyInv, RowInv, StatusInv, GrantInv, PledgeInv, Safe, HasGrant;
    GrantRows(cfg, s.rows, id, p', s.minted, s.history, s.history + extra);
    UsableStatus(s.rows, id, p', s.history, s.history + extra);
    UsableChecks(s.turns, s.rows, id, p', s.minted);
    PledgesStay(s.now, s.flights, s.rows, s.rows[id := p'], s.minted, s.minted, s.history, s.history + extra);
    MessagesStay(s.turns, s.messages, s.history, s.history + extra);
    RepliesStay(s.messages, s.history, s.history + extra);
  }

  lemma AuthorizeStep(cfg: Config, s: State, id: string, t: Trusted)
    requires Ready(cfg, s) && MayAuthorize(s.rows, s.messages, id, t, s.now)
    ensures Inv(cfg, Log(s, {Authorized(s.now, id, t.message)}).(rows := AuthorizeRow(s.rows, id, t.message)))
  {
    var g := Authorized(s.now, id, t.message);
    hide RowInv, LockInv, MessageInv, SavedInv, ReplyInv, StatusInv, GrantInv, PledgeInv, UsedInv, Safe;
    RowOnRecord(cfg, s.rows, s.minted, s.history, id);
    GuardMeansPresented(s, id, t);
    SafeGrows(s.history, g, s.minted);
    var p' := s.rows[id].(status := Confirmed, confirmedBy := Some(t.message));
    assert GrantOf(s.history + {g}, id, p', g);
    UsableStep(cfg, s, id, p', {g});
  }

  lemma RowOnRecord(cfg: Config, rows: Rows, m: Minted, h: set<Event>, id: string)
    requires RowInv(cfg, rows, m, h) && id in rows
    ensures Proposed(rows[id].createdAt, id, rows[id].scope, rows[id].tool, rows[id].args, rows[id].proposedBy) in h
  {
  }

  lemma JudgeStepKeeps(cfg: Config, s: State, turn: string)
    requires Ready(cfg, s) && turn in s.turns && s.turns[turn].stage.Saved?
    ensures Inv(cfg, JudgeStep(s, turn))
  {
    hide ClockInv, RowInv, LockInv, MessageInv, SavedInv, ReplyInv, StatusInv, GrantInv, PledgeInv, UsedInv, Safe, MayAuthorize, LatestRow, Retires;
    StageStep(cfg, s, turn, Running);
    var running := To(s, turn, Running);
    var t := s.turns[turn];
    if !t.consent {
      InvalidateRetires(s.rows, t.scope, s.now);
      RetireStep(cfg, running, turn, InvalidateRows(s.rows, t.scope, s.now));
    } else if LatestRow(s.rows, t.scope, s.now).Some? {
      var id := LatestRow(s.rows, t.scope, s.now).value;
      if id in s.rows && MayAuthorize(s.rows, s.messages, id, TrustedOf(s, t), s.now) {
        AuthorizeStep(cfg, running, id, TrustedOf(s, t));
      }
    }
  }

  // ---- backend commits ----

  lemma MutationJustified(s: State, c: Stage)
    requires StatusInv(s.rows, s.history) && c.Checked? && c.id in s.rows && SameAction(s.rows[c.id], c.binding)
    requires Usable(s.rows[c.id]) && Stands(s.minted, c.binding, c.command)
    requires Proposed(s.rows[c.id].createdAt, c.id, s.rows[c.id].scope, s.rows[c.id].tool, s.rows[c.id].args, s.rows[c.id].proposedBy) in s.history
    requires forall e :: e in s.history ==> e.at < s.now
    ensures var e := Mutated(s.now, c.id, c.binding, c.command, s.now);
            Justified(s.history + {e}, s.minted, e)
  {
    hide Stands;
    var e := Mutated(s.now, c.id, c.binding, c.command, s.now);
    var row := s.rows[c.id];
    var g :| GrantOf(s.history, c.id, row, g);
    var p := Proposed(row.createdAt, c.id, row.scope, row.tool, row.args, row.proposedBy);
    assert AuthorizedBy(s.history + {e}, e, p, g);
  }

  /** The first mutation for an id: an earlier one would have used its key. */
  lemma MutationSafe(s: State, e: Event)
    requires Safe(s.history, s.minted) && UsedInv(s.rows, s.used, s.history)
    requires e.Mutated? && e.at == s.now && e.id in s.rows && SameAction(s.rows[e.id], e.binding) && RecordKey(e.binding) !in s.used
    requires Justified(s.history + {e}, s.minted, e)
    ensures Safe(s.history + {e}, s.minted)
  {
    hide Justified, Presented;
    var h' := s.history + {e};
    forall f | f in h' && f.Authorized?
      ensures Presented(h', f)
    {
      PresentedStays(s.history, h', f);
    }
    forall f | f in h' && f.Mutated?
      ensures Justified(h', s.minted, f)
    {
      if f != e {
        OtherMutationStays(s.history, e, s.minted, f);
      }
    }
  }

  lemma OtherMutationStays(h: set<Event>, e: Event, m: Minted, f: Event)
    requires f.Mutated? && e.Mutated? && Justified(h, m, f)
    ensures Justified(h + {e}, m, f)
  {
    var p, g :| AuthorizedBy(h, f, p, g);
    assert AuthorizedBy(h + {e}, f, p, g);
  }

  lemma MutateStep(cfg: Config, s: State, e: Event)
    requires Inv(cfg, s) && e.Mutated? && e.at == s.now && e.id in s.rows && SameAction(s.rows[e.id], e.binding)
    requires Safe(s.history + {e}, s.minted)
    ensures Inv(cfg, Log(s, {e}).(used := s.used + {RecordKey(e.binding)}))
  {
    hide ClockInv, LockInv, MessageInv, SavedInv, ReplyInv, RowInv, StatusInv, GrantInv, PledgeInv, UsedInv, Safe, SameAction, RecordKey;
    StatusStays(s.rows, s.history, s.history + {e});
    RowsStay(cfg, s.rows, s.minted, s.history, s.history + {e});
    MutationUsed(s.rows, s.used, s.history, e);
    PledgesStay(s.now, s.flights, s.rows, s.rows, s.minted, s.minted, s.history, s.history + {e});
    MessagesStay(s.turns, s.messages, s.history, s.history + {e});
    RepliesStay(s.messages, s.history, s.history + {e});
    MutationClock(s.now, s.turns, s.rows, s.history, e);
  }

  lemma CheckedMutationSafe(cfg: Config, s: State, turn: string)
    requires Ready(cfg, s) && turn in s.turns && s.turns[turn].stage.Checked?
    requires RecordKey(s.turns[turn].stage.binding) !in s.used
    ensures var c := s.turns[turn].stage;
            && c.id in s.rows && SameAction(s.rows[c.id], c.binding)
            && Safe(s.history + {Mutated(s.now, c.id, c.binding, c.command, s.now)}, s.minted)
  {
    hide ClockInv, LockInv, MessageInv, SavedInv, ReplyInv, RowInv, StatusInv, GrantInv, PledgeInv, UsedInv, Safe, Stands, SameAction, RecordKey, Justified;
    var c := s.turns[turn].stage;
    CheckOnRecord(s.turns, s.rows, s.minted, turn);
    RowOnRecord(cfg, s.rows, s.minted, s.history, c.id);
    MutationJustified(s, c);
    MutationSafe(s, Mutated(s.now, c.id, c.binding, c.command, s.now));
  }

  lemma CommitStepKeeps(cfg: Config, s: State, turn: string)
    requires Ready(cfg, s) && turn in s.turns && s.turns[turn].stage.Checked?
    ensures Inv(cfg, CommitStep(s, turn))
  {
    hide Inv, Safe, RecordKey, SameAction;
    var c := s.turns[turn].stage;
    StageStep(cfg, s, turn, Committed(c.id, c.binding));
    if RecordKey(c.binding) !in s.used {
      CheckedMutationSafe(cfg, s, turn);
      MutateStep(cfg, To(s, turn, Committed(c.id, c.binding)), Mutated(s.now, c.id, c.binding, c.command, s.now));
    }
  }

  // ---- calls nobody waits for ----

  lemma TimeOutKeeps(cfg: Config, s: State, turn: string)
    requires Ready(cfg, s) && turn in s.turns && s.turns[turn].stage.Checked?
    ensures Inv(cfg, TimeOutStep(s, turn))
  {
    hide Inv;
    var c := s.turns[turn].stage;
    var e := TimedOut(s.now, c.id);
    PledgeIsMade(cfg, s, turn);
    EventStep(cfg, s, e);
    StageStep(cfg, Log(s, {e}), turn, Running);
    TakeOff(cfg, To(Log(s, {e}), turn, Running), Flight(c.id, c.binding, c.command, s.now));
  }

  lemma PledgeIsMade(cfg: Config, s: State, turn: string)
    requires Ready(cfg, s) && turn in s.turns && s.turns[turn].stage.Checked?
    ensures var c := s.turns[turn].stage;
            Pledged(Flight(c.id, c.binding, c.command, s.now), s.rows, s.minted, s.history + {TimedOut(s.now, c.id)})
  {
    hide ClockInv, LockInv, MessageInv, SavedInv, ReplyInv, RowInv, PledgeInv, UsedInv, Safe, Stands, SameAction;
    var c := s.turns[turn].stage;
    var h' := s.history + {TimedOut(s.now, c.id)};
    CheckOnRecord(s.turns, s.rows, s.minted, turn);
    GrantOnRecord(s.rows, s.history, c.id);
    var g :| GrantOf(s.history, c.id, s.rows[c.id], g);
    assert GrantOf(h', c.id, s.rows[c.id], g);
  }

  lemma TakeOff(cfg: Config, s: State, f: Flight)
    requires Inv(cfg, s) && f.sent <= s.now && Pledged(f, s.rows, s.minted, s.history)
    ensures Inv(cfg, s.(flights := s.flights + {f}))
  {
    hide ClockInv, LockInv, MessageInv, SavedInv, ReplyInv, RowInv, StatusInv, GrantInv, UsedInv, Safe, Pledged;
  }

  lemma FlightEnds(cfg: Config, s: State, f: Flight)
    requires Inv(cfg, s)
    ensures Inv(cfg, s.(flights := s.flights - {f}))
  {
    hide ClockInv, LockInv, MessageInv, SavedInv, ReplyInv, RowInv, StatusInv, GrantInv, UsedInv, Safe, Pledged;
  }

  lemma LandingJustified(s: State, f: Flight)
    requires Pledged(f, s.rows, s.minted, s.history) && f.sent < s.now
    requires Proposed(s.rows[f.id].createdAt, f.id, s.rows[f.id].scope, s.rows[f.id].tool, s.rows[f.id].args, s.rows[f.id].proposedBy) in s.history
    ensures var e := Mutated(s.now, f.id, f.binding, f.command, f.sent);
            Justified(s.history + {e}, s.minted, e)
  {
    hide Stands;
    var e := Mutated(s.now, f.id, f.binding, f.command, f.sent);
    var row := s.rows[f.id];
    var g :| GrantOf(s.history, f.id, row, g) && g.at < f.sent;
    var p := Proposed(row.createdAt, f.id, row.scope, row.tool, row.args, row.proposedBy);
    assert AuthorizedBy(s.history + {e}, e, p, g);
  }

  lemma LandingSafe(cfg: Config, s: State, f: Flight)
    requires Ready(cfg, s) && f in s.flights && RecordKey(f.binding) !in s.used
    ensures f.id in s.rows && SameAction(s.rows[f.id], f.binding)
    ensures Safe(s.history + {Mutated(s.now, f.id, f.binding, f.command, f.sent)}, s.minted)
  {
    hide ClockInv, LockInv, MessageInv, SavedInv, ReplyInv, RowInv, StatusInv, GrantInv, UsedInv, Safe, Stands, SameAction, RecordKey, Justified, GrantBefore;
    assert Pledged(f, s.rows, s.minted, s.history);
    RowOnRecord(cfg, s.rows, s.minted, s.history, f.id);
    LandingJustified(s, f);
    MutationSafe(s, Mutated(s.now, f.id, f.binding, f.command, f.sent));
  }

  lemma LandKeeps(cfg: Config, s: State, f: Flight)
    requires Ready(cfg, s) && f in s.flights
    ensures Inv(cfg, LandStep(s, f))
  {
    hide Inv, Safe, RecordKey, SameAction;
    FlightEnds(cfg, s, f);
    if RecordKey(f.binding) !in s.used {
      LandingSafe(cfg, s, f);
      MutateStep(cfg, s.(flights := s.flights - {f}), Mutated(s.now, f.id, f.binding, f.command, f.sent));
    }
  }

  lemma CheckOnRecord(turns: map<string, Turn>, rows: Rows, m: Minted, turn: string)
    requires GrantInv(turns, rows, m) && turn in turns && turns[turn].stage.Checked?
    ensures CheckedOk(turns[turn], rows, m)
  {
  }

  lemma RowsStay(cfg: Config, rows: Rows, m: Minted, h: set<Event>, h': set<Event>)
    requires RowInv(cfg, rows, m, h) && h <= h'
    ensures RowInv(cfg, rows, m, h')
  {
    hide Frozen, MintedOk, OneLive;
  }

  lemma MutationUsed(rows: Rows, used: set<IdempotencyKey>, h: set<Event>, e: Event)
    requires UsedInv(rows, used, h) && e.Mutated? && e.id in rows && SameAction(rows[e.id], e.binding)
    ensures UsedInv(rows, used + {RecordKey(e.binding)}, h + {e})
  {
    hide SameAction;
  }

  lemma MutationClock(now: int, turns: map<string, Turn>, rows: Rows, h: set<Event>, e: Event)
    requires ClockInv(now, turns, rows, h) && e.Mutated? && e.at == now
    ensures ClockInv(now, turns, rows, h + {e})
  {
  }

  lemma ConsumeRowKeeps(cfg: Config, s: State, id: string)
    requires Ready(cfg, s) && id in s.rows && Usable(s.rows[id])
    ensures Inv(cfg, s.(rows := s.rows[id := s.rows[id].(status := Consumed)]))
  {
    hide ClockInv, RowInv, LockInv, MessageInv, SavedInv, ReplyInv, StatusInv, GrantInv, PledgeInv, UsedInv, Safe, HasGrant;
    var p' := s.rows[id].(status := Consumed);
    GrantOnRecord(s.rows, s.history, id);
    GrantStays(s.history, s.history, id, s.rows[id], p');
    assert s.history + {} == s.history;
    UsableStep(cfg, s, id, p', {});
  }

  lemma ConsumeStepKeeps(cfg: Config, s: State, turn: string)
    requires Ready(cfg, s) && turn in s.turns && s.turns[turn].stage.Committed?
    ensures Inv(cfg, ConsumeStep(s, turn))
  {
    hide Inv, SameAction;
    var c := s.turns[turn].stage;
    StageStep(cfg, s, turn, Running);
    if VerifyRow(s.rows, c.id, c.binding, s.now) == Granted {
      ConsumeRowKeeps(cfg, To(s, turn, Running), c.id);
    }
  }

  lemma GrantOnRecord(rows: Rows, h: set<Event>, id: string)
    requires StatusInv(rows, h) && id in rows && Usable(rows[id])
    ensures HasGrant(h, id, rows[id])
  {
  }

  // ---- every step, every run ----

  lemma CallStepKeeps(cfg: Config, s: State, turn: string, tool: Tool, args: Arguments, newId: string)
    requires Ready(cfg, s) && turn in s.turns && s.turns[turn].stage.Running? && newId !in s.rows && newId != ""
    ensures Inv(cfg, CallStep(cfg, s, turn, tool, args, newId))
  {
    hide Inv, Execute;
    match Execute(cfg, s.rows, s.minted, TrustedOf(s, s.turns[turn]), tool, args, s.now)
    case Refuse(_) =>
    case Offer(_, _) => ProposeStep(cfg, s, turn, tool, args, newId);
    case Dispatch(_, _, _) => DispatchStep(cfg, s, turn, tool, args, newId);
  }

  lemma BeginReplyKeeps(cfg: Config, s: State, turn: string)
    requires Ready(cfg, s) && turn in s.turns && Answering(s.turns[turn].stage)
    ensures Inv(cfg, Apply(cfg, s, BeginReply(turn)))
  {
    hide ClockInv, RowInv, LockInv, MessageInv, SavedInv, ReplyInv, StatusInv, GrantInv, PledgeInv, UsedInv, Safe;
    var e := ReplyBegun(s.now, s.turns[turn].scope);
    EventStep(cfg, s, e);
    StageStep(cfg, Log(s, {e}), turn, Replying(s.now));
  }

  lemma ReplyWasBegun(cfg: Config, s: State, turn: string, message: string)
    requires Ready(cfg, s) && Enabled(cfg, s, StoreReply(turn, message))
    ensures ReplyBegun(s.turns[turn].stage.begunAt, s.turns[turn].scope) in s.history
  {
    hide RowInv, LockInv, SavedInv, ReplyInv, StatusInv, GrantInv, PledgeInv, UsedInv, Safe;
  }

  lemma StoreReplyKeeps(cfg: Config, s: State, turn: string, message: string)
    requires Ready(cfg, s) && Enabled(cfg, s, StoreReply(turn, message))
    ensures Inv(cfg, Apply(cfg, s, StoreReply(turn, message)))
  {
    hide Inv;
    ReplyWasBegun(cfg, s, turn, message);
    var t := s.turns[turn];
    var e := ReplyStored(s.now, t.scope, t.stage.begunAt);
    StoreStep(cfg, s, e, message);
    ReleaseStep(cfg, Log(s, {e}).(messages := s.messages[message := Message(t.scope, Assistant, t.stage.begunAt)]), turn);
  }

  lemma ArrivalIsOnRecord(cfg: Config, s: State, turn: string)
    requires Inv(cfg, s) && turn in s.turns
    ensures Arrived(s.turns[turn].receivedAt, s.turns[turn].message, s.turns[turn].scope) in s.history
  {
    hide ClockInv, LockInv, SavedInv, ReplyInv, RowInv, StatusInv, GrantInv, PledgeInv, UsedInv, Safe;
  }

  lemma ProfileStep(cfg: Config, s: State, profiles: map<string, Profile>)
    requires Inv(cfg, s)
    ensures Inv(cfg, s.(profiles := profiles))
  {
  }

  lemma ReadyStep(cfg: Config, s: State, a: Action)
    requires Ready(cfg, s) && Enabled(cfg, s, a)
    ensures Inv(cfg, Apply(cfg, s, a))
  {
    hide Inv, CallStep, JudgeStep, CommitStep, TimeOutStep, LandStep, ConsumeStep, Retires;
    match a
    case Arrive(turn, scope, consent, message) =>
      var e := Arrived(s.now, message, scope);
      EventStep(cfg, s, e);
      QueueStep(cfg, Log(s, {e}), turn, Turn(scope, consent, s.now, message, Queued));
    case Acquire(turn) => LockStep(cfg, s, turn);
    case Save(turn) =>
      SaveStep(cfg, s, turn);
    case Judge(turn) => JudgeStepKeeps(cfg, s, turn);
    case Mint(token, claims) =>
      if Mintable(cfg, claims, s.now) {
        MintStep(cfg, s, token, claims);
      }
    case SetProfile(_, _) => ProfileStep(cfg, s, Apply(cfg, s, a).profiles);
    case Call(turn, tool, args, newId) => CallStepKeeps(cfg, s, turn, tool, args, newId);
    case Commit(turn) => CommitStepKeeps(cfg, s, turn);
    case BackendFails(turn) => StageStep(cfg, s, turn, Running);
    case TimeOut(turn) => TimeOutKeeps(cfg, s, turn);
    case Land(flight) => LandKeeps(cfg, s, flight);
    case Consume(turn) => ConsumeStepKeeps(cfg, s, turn);
    case LoseResponse(turn) => StageStep(cfg, s, turn, Running);
    case Withdraw(turn) =>
      InvalidateRetires(s.rows, s.turns[turn].scope, s.now);
      RetireStep(cfg, s, turn, InvalidateRows(s.rows, s.turns[turn].scope, s.now));
    case BeginReply(turn) => BeginReplyKeeps(cfg, s, turn);
    case StoreReply(turn, message) => StoreReplyKeeps(cfg, s, turn, message);
    case Crash(turn) => ReleaseStep(cfg, s, turn);
  }

  /** Time passes before each step. */
  lemma ClockMoves(cfg: Config, s: State, at: int)
    requires cfg.Valid() && Inv(cfg, s) && s.now < at
    ensures Ready(cfg, s.(now := at))
  {
    hide RowInv, LockInv, MessageInv, SavedInv, ReplyInv, StatusInv, GrantInv, Pledged, UsedInv, Safe;
  }

  lemma StepKeepsInvariant(cfg: Config, s: State, s': State)
    requires cfg.Valid() && Inv(cfg, s) && Next(cfg, s, s')
    ensures Inv(cfg, s')
  {
    hide Inv, Apply, Ready;
    var a, at :| s.now < at && Enabled(cfg, s, a) && s' == Apply(cfg, s.(now := at), a);
    ClockMoves(cfg, s, at);
    ReadyStep(cfg, s.(now := at), a);
  }

  lemma {:induction false} RunKeepsInvariant(cfg: Config, run: seq<State>, i: nat)
    requires cfg.Valid() && IsRun(cfg, run) && i < |run|
    ensures Inv(cfg, run[i])
  {
    if i != 0 {
      hide Inv;
      RunKeepsInvariant(cfg, run, i - 1);
      StepKeepsInvariant(cfg, run[i - 1], run[i]);
    }
  }
}

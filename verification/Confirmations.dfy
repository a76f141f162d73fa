/** The PostgreSQL confirmation store (internal/confirmations/postgres.go): one
    function per SQL statement group on the proposal rows, and the class that
    runs them. */
module Confirmations {
  import opened Domain

  datatype Status = Pending | Confirmed | Consumed | Expired | Rejected

  datatype Proposal = Proposal(
    scope: Scope, tool: Tool, args: Arguments, proposedBy: string,
    status: Status, createdAt: int, expiresAt: int, confirmedBy: Option<string>)

  type Rows = map<string, Proposal>

  datatype Verdict = Granted | Invalid | TooLate | Stale

  predicate Live(p: Proposal) {
    p.status == Pending || p.status == Confirmed
  }

  /** The rows a read-only lookup of the conversation considers. */
  predicate Current(p: Proposal, scope: Scope, now: int) {
    p.scope == scope && Live(p) && now < p.expiresAt
  }

  predicate SameAction(p: Proposal, b: Binding) {
    p.scope == b.scope && p.tool == b.tool && p.args == b.args
  }

  /** Free-text consent faces at most one action per conversation. */
  ghost predicate OneLive(rows: Rows) {
    forall i, j :: i in rows && j in rows && Live(rows[i]) && Live(rows[j]) && rows[i].scope == rows[j].scope ==> i == j
  }

  function SetStatus(rows: Rows, ids: set<string>, status: Status): Rows
    requires ids <= rows.Keys
  {
    map i | i in rows :: if i in ids then rows[i].(status := status) else rows[i]
  }

  function Lapsed(rows: Rows, scope: Scope, now: int): set<string> {
    set i | i in rows && rows[i].scope == scope && Live(rows[i]) && rows[i].expiresAt <= now
  }

  function LiveIn(rows: Rows, scope: Scope): set<string> {
    set i | i in rows && rows[i].scope == scope && Live(rows[i])
  }

  function CurrentIn(rows: Rows, scope: Scope, now: int): set<string> {
    set i | i in rows && Current(rows[i], scope, now)
  }

  /** Live rows that already carry exactly this action. */
  function Repeats(rows: Rows, b: Binding, now: int): set<string> {
    set i | i in rows && Current(rows[i], b.scope, now) && SameAction(rows[i], b)
  }

  function ExpireRows(rows: Rows, scope: Scope, now: int): Rows {
    SetStatus(rows, Lapsed(rows, scope, now), Expired)
  }

  /** Propose: expire, then return the repeated live proposal or replace every
      live one by a new pending row. */
  function ProposeRows(rows: Rows, b: Binding, id: string, expiresAt: int, now: int): Rows {
    var kept := ExpireRows(rows, b.scope, now);
    if Repeats(kept, b, now) != {} then kept
    else SetStatus(kept, LiveIn(kept, b.scope), Rejected)
           [id := Proposal(b.scope, b.tool, b.args, b.message, Pending, now, expiresAt, None)]
  }

  function InvalidateRows(rows: Rows, scope: Scope, now: int): Rows {
    SetStatus(rows, CurrentIn(rows, scope, now), Rejected)
  }

  /** The WHERE clause of Authorize: a later user message of the conversation, with
      an assistant message stored between the proposal and it. */
  ghost predicate MayAuthorize(rows: Rows, messages: map<string, Message>, id: string, t: Trusted, now: int) {
    && id in rows && rows[id].scope == t.scope && rows[id].status == Pending && now < rows[id].expiresAt
    && rows[id].proposedBy != t.message
    && t.message in messages && messages[t.message].scope == t.scope && messages[t.message].role == User
    && exists m :: m in messages && messages[m].scope == t.scope && messages[m].role == Assistant
                   && rows[id].createdAt <= messages[m].createdAt < messages[t.message].createdAt
  }

  function AuthorizeRow(rows: Rows, id: string, message: string): Rows
    requires id in rows
  {
    rows[id := rows[id].(status := Confirmed, confirmedBy := Some(message))]
  }

  /** VerifyAuthorized, in its order of checks: a consumed grant may replay only
      the identical action. */
  function VerifyRow(rows: Rows, id: string, b: Binding, now: int): Verdict {
    if id !in rows || rows[id].scope != b.scope then Invalid
    else if rows[id].expiresAt <= now then TooLate
    else if !SameAction(rows[id], b) then Stale
    else if rows[id].status != Confirmed && rows[id].status != Consumed then Invalid
    else Granted
  }

  function ConsumeRows(rows: Rows, id: string, b: Binding, now: int): Rows {
    if VerifyRow(rows, id, b, now) == Granted then rows[id := rows[id].(status := Consumed)] else rows
  }

  /** The single live, unexpired proposal of a conversation. */
  ghost predicate IsLatest(rows: Rows, scope: Scope, now: int, id: string) {
    id in rows && Current(rows[id], scope, now)
    && forall i :: i in rows && Current(rows[i], scope, now) ==> rows[i].createdAt <= rows[id].createdAt
  }

  ghost function LatestRow(rows: Rows, scope: Scope, now: int): Option<string> {
    if exists id :: IsLatest(rows, scope, now, id) then
      var id :| IsLatest(rows, scope, now, id);
      Some(id)
    else None
  }

  /** With one live row, the lookup finds exactly it: nothing live is hidden. */
  lemma LatestFindsTheLiveRow(rows: Rows, scope: Scope, now: int, id: string)
    requires OneLive(rows) && id in rows && Current(rows[id], scope, now)
    ensures LatestRow(rows, scope, now) == Some(id)
  {
    assert IsLatest(rows, scope, now, id);
  }

  lemma ProposeKeepsOneLive(rows: Rows, b: Binding, id: string, expiresAt: int, now: int)
    requires OneLive(rows) && id !in rows
    ensures OneLive(ProposeRows(rows, b, id, expiresAt, now))
    ensures forall i :: i in rows ==> i in ProposeRows(rows, b, id, expiresAt, now)
  {
    hide Repeats;
    var kept := ExpireRows(rows, b.scope, now);
    StatusKeepsOneLive(rows, Lapsed(rows, b.scope, now), Expired);
    var cleared := SetStatus(kept, LiveIn(kept, b.scope), Rejected);
    StatusKeepsOneLive(kept, LiveIn(kept, b.scope), Rejected);
    NoneLiveAfterReject(kept, b.scope);
    hide SetStatus, ExpireRows, Lapsed;
    RowKeepsOneLive(cleared, id, Proposal(b.scope, b.tool, b.args, b.message, Pending, now, expiresAt, None));
  }

  lemma StatusKeepsOneLive(rows: Rows, ids: set<string>, status: Status)
    requires OneLive(rows) && ids <= rows.Keys && status in {Expired, Rejected}
    ensures OneLive(SetStatus(rows, ids, status)) && SetStatus(rows, ids, status).Keys == rows.Keys
  {
  }

  lemma NoneLiveAfterReject(rows: Rows, scope: Scope)
    ensures forall i :: i in SetStatus(rows, LiveIn(rows, scope), Rejected) ==>
              !(SetStatus(rows, LiveIn(rows, scope), Rejected)[i].scope == scope && Live(SetStatus(rows, LiveIn(rows, scope), Rejected)[i]))
  {
  }

  lemma RowKeepsOneLive(rows: Rows, id: string, p: Proposal)
    requires OneLive(rows) && forall i :: i in rows ==> !(rows[i].scope == p.scope && Live(rows[i]))
    ensures OneLive(rows[id := p])
  {
  }

  // ---- what the statements do to each row ----

  /** What a proposal in `scope` makes of a row: rows of other conversations and finished rows stay,
      an expired one is marked, and a live one stays only if it is the one that is shown. */
  predicate ProposedBeside(p: Proposal, scope: Scope, now: int, shown: bool, r: Proposal) {
    if p.scope != scope || (p.status != Pending && p.status != Confirmed) then r == p
    else if p.expiresAt <= now then r == p.(status := Expired)
    else if shown then r == p else r == p.(status := Rejected)
  }

  lemma ProposeRowByRow(rows: Rows, b: Binding, id: string, expiresAt: int, now: int, i: string)
    requires OneLive(rows) && id !in rows && i in rows
    ensures i in ProposeRows(rows, b, id, expiresAt, now)
    ensures ProposedBeside(rows[i], b.scope, now, rows[i].tool == b.tool && rows[i].args == b.args, ProposeRows(rows, b, id, expiresAt, now)[i])
  {
    hide OneLive;
    var kept := ExpireRows(rows, b.scope, now);
    assert kept[i] == if rows[i].scope == b.scope && Live(rows[i]) && rows[i].expiresAt <= now then rows[i].(status := Expired) else rows[i];
    if Current(rows[i], b.scope, now) { RepeatIsTheLiveRow(rows, b, now, i); }
  }

  /** The repeated proposal is the conversation's live one. */
  lemma RepeatIsTheLiveRow(rows: Rows, b: Binding, now: int, i: string)
    requires OneLive(rows) && i in rows && Current(rows[i], b.scope, now)
    ensures Repeats(ExpireRows(rows, b.scope, now), b, now) != {} <==> rows[i].tool == b.tool && rows[i].args == b.args
  {
    var kept := ExpireRows(rows, b.scope, now);
    assert kept[i] == rows[i];
    if rows[i].tool == b.tool && rows[i].args == b.args {
      assert i in Repeats(kept, b, now);
    }
    if j :| j in Repeats(kept, b, now) {
      assert Live(rows[j]) && rows[j].scope == b.scope && i == j;
    }
  }

  lemma InvalidateRowByRow(rows: Rows, scope: Scope, now: int)
    ensures InvalidateRows(rows, scope, now).Keys == rows.Keys
    ensures forall i :: i in rows ==>
              InvalidateRows(rows, scope, now)[i] ==
              if rows[i].scope == scope && (rows[i].status == Pending || rows[i].status == Confirmed) && now < rows[i].expiresAt
              then rows[i].(status := Rejected) else rows[i]
  {
  }

  /** internal/confirmations/postgres.go: each method is one transaction. */
  class Store {
    var rows: Rows

    constructor ()
      ensures rows == map[] && OneLive(rows)
    {
      rows := map[];
    }

    method Propose(b: Binding, id: string, expiresAt: int, now: int) returns (shown: Option<string>)
      requires OneLive(rows) && id !in rows
      modifies this
      ensures OneLive(rows)
      ensures b.message == "" ==> shown == None && rows == old(rows)
      ensures b.message != "" ==> rows == ProposeRows(old(rows), b, id, expiresAt, now)
      ensures b.message != "" && now < expiresAt ==>
                shown.Some? && shown.value in rows && Current(rows[shown.value], b.scope, now) && SameAction(rows[shown.value], b)
      ensures b.message != "" && now < expiresAt ==>
                forall i :: i in rows && rows[i].scope == b.scope && Live(rows[i]) ==> Some(i) == shown
      ensures b.message != "" ==> forall i :: i in old(rows) ==>
                i in rows && ProposedBeside(old(rows)[i], b.scope, now, old(rows)[i].tool == b.tool && old(rows)[i].args == b.args, rows[i])
      ensures b.message != "" ==> forall i :: i in rows && i !in old(rows) ==> i == id && shown == Some(id)
      ensures b.message != "" && shown == Some(id) ==>
                && id in rows && rows[id].scope == b.scope && rows[id].tool == b.tool && rows[id].args == b.args
                && rows[id].proposedBy == b.message && rows[id].status == Pending && rows[id].confirmedBy == None
                && rows[id].createdAt == now && rows[id].expiresAt == expiresAt
    {
      if b.message == "" {
        return None;
      }
      ProposeKeepsOneLive(rows, b, id, expiresAt, now);
      forall i | i in rows
        ensures i in ProposeRows(rows, b, id, expiresAt, now)
        ensures ProposedBeside(rows[i], b.scope, now, rows[i].tool == b.tool && rows[i].args == b.args, ProposeRows(rows, b, id, expiresAt, now)[i])
      {
        ProposeRowByRow(rows, b, id, expiresAt, now, i);
      }
      hide ProposedBeside;
      rows := ExpireRows(rows, b.scope, now);
      var repeats := Repeats(rows, b, now);
      if repeats != {} {
        var existing :| existing in repeats;
        return Some(existing);
      }
      rows := SetStatus(rows, LiveIn(rows, b.scope), Rejected);
      rows := rows[id := Proposal(b.scope, b.tool, b.args, b.message, Pending, now, expiresAt, None)];
      return Some(id);
    }

    method InvalidateLatest(scope: Scope, now: int)
      requires OneLive(rows)
      modifies this
      ensures OneLive(rows) && rows == InvalidateRows(old(rows), scope, now)
      ensures forall i :: i in rows ==> !Current(rows[i], scope, now)
      ensures rows.Keys == old(rows).Keys
      ensures forall i :: i in rows ==>
                rows[i] == if old(rows)[i].scope == scope && old(rows)[i].status in {Pending, Confirmed} && now < old(rows)[i].expiresAt
                           then old(rows)[i].(status := Rejected) else old(rows)[i]
    {
      rows := SetStatus(rows, CurrentIn(rows, scope, now), Rejected);
    }

    method Authorize(id: string, t: Trusted, messages: map<string, Message>, now: int) returns (granted: bool)
      requires OneLive(rows)
      modifies this
      ensures OneLive(rows)
      ensures granted <==> t.message != "" && MayAuthorize(old(rows), messages, id, t, now)
      ensures rows == if granted then old(rows)[id := old(rows)[id].(status := Confirmed, confirmedBy := Some(t.message))] else old(rows)
    {
      granted := false;
      if t.message == "" || id !in rows || t.message !in messages {
        return;
      }
      var p, c := rows[id], messages[t.message];
      var presented := set m | m in messages && messages[m].scope == t.scope && messages[m].role == Assistant
                               && p.createdAt <= messages[m].createdAt < c.createdAt;
      if p.scope == t.scope && p.status == Pending && now < p.expiresAt && p.proposedBy != t.message
         && c.scope == t.scope && c.role == User && presented != {} {
        var m :| m in presented;
        rows := AuthorizeRow(rows, id, t.message);
        granted := true;
      } else {
        assert forall m | m in messages && messages[m].scope == t.scope && messages[m].role == Assistant
                          && p.createdAt <= messages[m].createdAt < c.createdAt :: m in presented;
      }
    }

    method MarkConsumed(id: string, b: Binding, now: int) returns (ok: bool)
      requires OneLive(rows)
      modifies this
      ensures OneLive(rows) && rows == ConsumeRows(old(rows), id, b, now)
      ensures ok <==> && id in old(rows) && old(rows)[id].scope == b.scope && old(rows)[id].tool == b.tool && old(rows)[id].args == b.args
                      && now < old(rows)[id].expiresAt && old(rows)[id].status in {Confirmed, Consumed}
      ensures rows == if ok then old(rows)[id := old(rows)[id].(status := Consumed)] else old(rows)
      ensures ok <==> VerifyRow(old(rows), id, b, now) == Granted
    {
      ok := VerifyRow(rows, id, b, now) == Granted;
      if ok {
        rows := rows[id := rows[id].(status := Consumed)];
      }
    }
  }
}

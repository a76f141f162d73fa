/** A backend call that its turn no longer waits for can commit after its proposal was
    withdrawn: the run that makes the exception in MutationsAreAuthorized necessary. */
module LateCommit {
  import opened Domain
  import opened Confirmations
  import opened Gateway
  import opened Protocol
  import opened ConsentWindow

  const ASKED: Arguments := FROZEN[CONFIRMATION_ID := Str("p1")]
  const ROW11 := ROW.(status := Confirmed, confirmedBy := Some("m2"))
  const ALICES := Trusted(ALICE, "m2", Profile("", "", ""))
  const BOUND := Binding(ALICE, "m2", Cancel, FROZEN)
  const SENT := CancelCommand(ALICE, "b-1", "ill", "cancel-booking-b-1")

  lemma RowIsFrozen()
    ensures Frozen(CFG, map[], ROW11) && OneLive(map["p1" := ROW11])
  {
    assert FROZEN[IDEMPOTENCY_KEY] == Str("cancel-booking-b-1");
    assert "cancel-booking-b-1"[0] == 'c' && 'c' in "cancel-booking-b-1";
    assert CONFIRMATION_ID !in FROZEN;
  }

  lemma AskedIsValid()
    ensures SchemaValid(Cancel, ASKED) && Text(ASKED, CONFIRMATION_ID) == "p1"
  {
    assert ASKED["booking_id"] == Str("b-1") && ASKED["reason"] == Str("ill") && ASKED[IDEMPOTENCY_KEY] == Str("cancel-booking-b-1");
    assert "cancel-booking-b-1"[0] == 'c' && 'c' in "cancel-booking-b-1";
  }

  lemma CommandIsSent(minted: Minted)
    ensures CommandOf(minted, ALICE, Cancel, FROZEN) == SENT
  {
    assert FROZEN["booking_id"] == Str("b-1") && FROZEN["reason"] == Str("ill") && FROZEN[IDEMPOTENCY_KEY] == Str("cancel-booking-b-1");
  }

  lemma ConsentIsDispatched()
    ensures Execute(CFG, S11.rows, map[], ALICES, Cancel, ASKED, 12) == Dispatch("p1", BOUND, SENT)
  {
    hide Execute, SchemaValid, CommandOf, Frozen, OneLive;
    RowIsFrozen();
    AskedIsValid();
    CommandIsSent(map[]);
    assert S11.rows == map["p1" := ROW11];
    NoTokens();
    ConsentReachesBackend(CFG, S11.rows, map[], ALICES, ASKED, "p1", 12);
  }

  lemma NoTokens()
    ensures MintedOk(CFG, map[])
  {
  }

  /** The call is checked and about to be sent. */
  const S12 := At(12, Two(Finished, Checked("p1", BOUND, SENT)), S11.lock, S11.messages, S11.rows, S11.history)

  lemma CallIsChecked()
    ensures Next(CFG, S11, S12)
  {
    ConsentIsDispatched();
    hide Execute;
    var s := S11.(now := 12);
    assert TrustedOf(s, s.turns["t2"]) == ALICES;
    assert To(s, "t2", Checked("p1", BOUND, SENT)) == S12;
    Steps(S11, Call("t2", Cancel, ASKED, "p2"), 12, S12);
  }

  /** From any state with a checked call on a live proposal: the turn stops waiting, gives the
      proposal up, and then the call commits. */
  lemma CommitsAfterWithdrawal(cfg: Config, s: State, turn: string) returns (a: State, b: State, c: State)
    requires turn in s.turns && s.turns[turn].stage.Checked? && RecordKey(s.turns[turn].stage.binding) !in s.used
    requires s.turns[turn].stage.id in s.rows && Current(s.rows[s.turns[turn].stage.id], s.turns[turn].scope, s.now + 2)
    ensures Next(cfg, s, a) && Next(cfg, a, b) && Next(cfg, b, c)
    ensures var call := s.turns[turn].stage;
            Withdrawn(s.now + 2, call.id) in c.history
            && Mutated(s.now + 3, call.id, call.binding, call.command, s.now + 1) in c.history
  {
    var call := s.turns[turn].stage;
    var f := Flight(call.id, call.binding, call.command, s.now + 1);
    hide RecordKey;
    a := TimeOutStep(s.(now := s.now + 1), turn);
    StepTo(cfg, s, TimeOut(turn), s.now + 1, a);
    var rows := InvalidateRows(a.rows, s.turns[turn].scope, s.now + 2);
    b := WithRows(a.(now := s.now + 2), rows);
    assert call.id in CurrentIn(a.rows, s.turns[turn].scope, s.now + 2);
    assert rows[call.id].status == Rejected;
    assert Withdrawn(s.now + 2, call.id) in Withdrawals(a.rows, rows, s.now + 2);
    StepTo(cfg, a, Withdraw(turn), s.now + 2, b);
    c := LandStep(b.(now := s.now + 3), f);
    StepTo(cfg, b, Land(f), s.now + 3, c);
  }

  lemma StepTo(cfg: Config, s: State, a: Action, at: int, s': State)
    requires s.now < at && Enabled(cfg, s, a) && s' == Apply(cfg, s.(now := at), a)
    ensures Next(cfg, s, s')
  {
  }

  /** A complete run in which a mutation commits after its proposal was withdrawn. */
  lemma {:induction false} WithdrawnActionCanCommit() returns (run: seq<State>, w: Event, e: Event)
    ensures CFG.Valid() && IsRun(CFG, run)
    ensures w in run[|run| - 1].history && w.Withdrawn? && e in run[|run| - 1].history && e.Mutated? && w.id == e.id && w.at < e.at
  {
    var front, g, c, r := UnstoredReplyCanBeConsentedTo();
    assert front[|front| - 1] == S11;
    CallIsChecked();
    StillOpen();
    var s13, s14, s15 := CommitsAfterWithdrawal(CFG, S12, "t2");
    hide Next;
    Longer(front, S12);
    Longer(front + [S12], s13);
    Longer(front + [S12] + [s13], s14);
    Longer(front + [S12] + [s13] + [s14], s15);
    run := front + [S12] + [s13] + [s14] + [s15];
    w, e := Withdrawn(14, "p1"), Mutated(15, "p1", BOUND, SENT, 13);
  }

  lemma StillOpen()
    ensures S12.turns["t2"].stage == Checked("p1", BOUND, SENT) && S12.used == {} && S12.now == 12
    ensures "p1" in S12.rows && Current(S12.rows["p1"], ALICE, 14) && S12.turns["t2"].scope == ALICE
  {
  }

  lemma Longer(run: seq<State>, s: State)
    requires IsRun(CFG, run) && Next(CFG, run[|run| - 1], s)
    ensures IsRun(CFG, run + [s])
  {
    hide Next, Init;
    var all := run + [s];
    assert forall i | 0 <= i < |run| :: all[i] == run[i];
  }
}

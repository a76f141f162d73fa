/** What the guard of Authorize does not cover. The reply row is stamped with the
    start of its transaction, so a consent that arrives after BEGIN and before
    COMMIT counts as later than a reply nobody could have read yet. */
module ConsentWindow {
  import opened Domain
  import opened Confirmations
  import opened Gateway
  import opened Protocol

  const CFG := Config(300, 600, 900, 31536000)
  const ALICE := Scope("tenant", "alice", "chat")
  const FROZEN: Arguments := map["booking_id" := Str("b-1"), "reason" := Str("ill"), IDEMPOTENCY_KEY := Str("cancel-booking-b-1")]
  const FIRST := Turn(ALICE, false, 1, "m1", Queued)
  const SECOND := Turn(ALICE, true, 7, "m2", Queued)
  const ROW := Proposal(ALICE, Cancel, FROZEN, "m1", Pending, 5, 605, None)

  const H5 := {Arrived(1, "m1", ALICE), Proposed(5, "p1", ALICE, Cancel, FROZEN, "m1")}
  const H8 := H5 + {ReplyBegun(6, ALICE), Arrived(7, "m2", ALICE), ReplyStored(8, ALICE, 6)}
  const M3 := map["m1" := Message(ALICE, User, 1)]
  const M8 := map["m1" := Message(ALICE, User, 1), "a1" := Message(ALICE, Assistant, 6)]
  const R5: Rows := map["p1" := ROW]

  function At(now: int, turns: map<string, Turn>, lock: map<Scope, string>, messages: map<string, Message>, rows: Rows, h: set<Event>): State {
    State(now, turns, lock, messages, rows, map[], map[], {}, {}, h)
  }

  function One(first: Stage): map<string, Turn> {
    map["t1" := FIRST.(stage := first)]
  }

  function Two(first: Stage, second: Stage): map<string, Turn> {
    map["t1" := FIRST.(stage := first), "t2" := SECOND.(stage := second)]
  }

  // First message up to the proposal.
  const S0 := At(0, map[], map[], map[], map[], {})
  const S1 := At(1, One(Queued), map[], map[], map[], {Arrived(1, "m1", ALICE)})
  const S2 := At(2, One(Locked), map[ALICE := "t1"], map[], map[], {Arrived(1, "m1", ALICE)})
  const S3 := At(3, One(Saved), map[ALICE := "t1"], M3, map[], {Arrived(1, "m1", ALICE)})
  const S4 := At(4, One(Running), map[ALICE := "t1"], M3, map[], {Arrived(1, "m1", ALICE)})
  const S5 := At(5, One(Running), map[ALICE := "t1"], M3, R5, H5)
  // The reply begins, the consent arrives, the reply is stored.
  const S6 := At(6, One(Replying(6)), map[ALICE := "t1"], M3, R5, H5 + {ReplyBegun(6, ALICE)})
  const S7 := At(7, Two(Replying(6), Queued), map[ALICE := "t1"], M3, R5, H5 + {ReplyBegun(6, ALICE), Arrived(7, "m2", ALICE)})
  const S8 := At(8, Two(Finished, Queued), map[], M8, R5, H8)
  // The consent is judged.
  const S9 := At(9, Two(Finished, Locked), map[ALICE := "t2"], M8, R5, H8)
  const S10 := At(10, Two(Finished, Saved), map[ALICE := "t2"], M8["m2" := Message(ALICE, User, 7)], R5, H8)
  const S11 := At(11, Two(Finished, Running), map[ALICE := "t2"], M8["m2" := Message(ALICE, User, 7)],
                  map["p1" := ROW.(status := Confirmed, confirmedBy := Some("m2"))], H8 + {Authorized(11, "p1", "m2")})

  lemma Steps(s: State, a: Action, at: int, s': State)
    requires s.now < at && Enabled(CFG, s, a) && s' == Apply(CFG, s.(now := at), a)
    ensures Next(CFG, s, s')
  {
  }

  lemma UpToSave()
    ensures Next(CFG, S0, S1) && Next(CFG, S1, S2) && Next(CFG, S2, S3)
  {
    Steps(S0, Arrive("t1", ALICE, false, "m1"), 1, S1);
    Steps(S1, Acquire("t1"), 2, S2);
    Steps(S2, Save("t1"), 3, S3);
  }

  lemma Judged()
    ensures Next(CFG, S3, S4)
  {
    assert InvalidateRows(map[], ALICE, 4) == map[];
    assert Withdrawals(map[], map[], 4) == {};
    Steps(S3, Judge("t1"), 4, S4);
  }

  lemma FrozenIsValid()
    ensures SchemaValid(Cancel, FROZEN) && Text(FROZEN, CONFIRMATION_ID) == "" && FROZEN - {CONFIRMATION_ID} == FROZEN
    ensures !Blank(Text(FROZEN, IDEMPOTENCY_KEY))
  {
    assert FROZEN["booking_id"] == Str("b-1") && FROZEN["reason"] == Str("ill") && FROZEN[IDEMPOTENCY_KEY] == Str("cancel-booking-b-1");
    assert "cancel-booking-b-1"[0] == 'c' && 'c' in "cancel-booking-b-1";
    assert CONFIRMATION_ID !in FROZEN;
  }

  lemma ProposalDecision()
    ensures Execute(CFG, map[], map[], Trusted(ALICE, "m1", Profile("", "", "")), Cancel, FROZEN, 5)
            == Offer(Binding(ALICE, "m1", Cancel, FROZEN), 605)
  {
    hide SchemaValid, Blank, Text, KeyParts;
    FrozenIsValid();
  }

  lemma ProposedStep()
    ensures Next(CFG, S4, S5)
  {
    ProposalDecision();
    var b := Binding(ALICE, "m1", Cancel, FROZEN);
    hide Execute;
    assert ExpireRows(map[], ALICE, 5) == map[];
    assert Repeats(map[], b, 5) == {};
    assert SetStatus(map[], LiveIn(map[], ALICE), Rejected) == map[];
    var rows := ProposeRows(map[], b, "p1", 605, 5);
    assert rows == map["p1" := ROW];
    assert Withdrawals(map[], rows, 5) == {};
    assert S4.(now := 5).rows == map[] && S4.minted == map[];
    Steps(S4, Call("t1", Cancel, FROZEN, "p1"), 5, S5);
  }

  lemma ReplyBegins()
    ensures Next(CFG, S5, S6)
  {
    Steps(S5, BeginReply("t1"), 6, S6);
  }

  lemma ConsentArrives()
    ensures Next(CFG, S6, S7)
  {
    Steps(S6, Arrive("t2", ALICE, true, "m2"), 7, S7);
  }

  lemma ReplyCommits()
    ensures Next(CFG, S7, S8)
  {
    hide CallStep, JudgeStep, CommitStep, ConsumeStep, WithRows;
    var s := S7.(now := 8);
    assert s.lock - {ALICE} == map[];
    assert Release(s, "t1").turns == Two(Finished, Queued);
    assert s.messages["a1" := Message(ALICE, Assistant, 6)] == M8;
    assert s.history + {ReplyStored(8, ALICE, 6)} == H8;
    Steps(S7, StoreReply("t1", "a1"), 8, S8);
  }

  lemma ConsentLocked()
    ensures Next(CFG, S8, S9)
  {
    Steps(S8, Acquire("t2"), 9, S9);
  }

  lemma ConsentSaved()
    ensures Next(CFG, S9, S10)
  {
    Steps(S9, Save("t2"), 10, S10);
  }

  lemma ConsentMayAuthorize()
    ensures MayAuthorize(R5, S10.messages, "p1", Trusted(ALICE, "m2", Profile("", "", "")), 11)
    ensures LatestRow(R5, ALICE, 11) == Some("p1")
  {
    assert "p1" in R5 && Current(R5["p1"], ALICE, 11);
    LatestFindsTheLiveRow(R5, ALICE, 11, "p1");
    var messages := S10.messages;
    assert "a1" in messages && messages["a1"] == Message(ALICE, Assistant, 6);
    assert "m2" in messages && messages["m2"] == Message(ALICE, User, 7);
  }

  lemma ConsentGranted()
    ensures Next(CFG, S10, S11)
  {
    ConsentMayAuthorize();
    hide MayAuthorize, LatestRow;
    assert S10.rows == R5 && AuthorizeRow(R5, "p1", "m2") == S11.rows;
    Steps(S10, Judge("t2"), 11, S11);
  }

  lemma TwelveStates(run: seq<State>)
    requires |run| == 12 && Init(run[0])
    requires Next(CFG, run[0], run[1]) && Next(CFG, run[1], run[2]) && Next(CFG, run[2], run[3]) && Next(CFG, run[3], run[4])
    requires Next(CFG, run[4], run[5]) && Next(CFG, run[5], run[6]) && Next(CFG, run[6], run[7]) && Next(CFG, run[7], run[8])
    requires Next(CFG, run[8], run[9]) && Next(CFG, run[9], run[10]) && Next(CFG, run[10], run[11])
    ensures IsRun(CFG, run)
  {
    hide Next;
  }

  /** An authorization by a message that arrived before any reply was stored. */
  ghost predicate AheadOfReply(h: set<Event>, g: Event, c: Event, r: Event) {
    && g in h && g.Authorized? && c in h && c.Arrived? && c.message == g.message
    && r in h && r.ReplyStored? && c.at < r.at < g.at
    && (forall q :: q in h && q.ReplyStored? ==> q == r)
  }

  /** Such an authorization is reachable, so no later event than the start of the
      reply transaction can replace it in EarlyConsentNeverAuthorizes. */
  lemma UnstoredReplyCanBeConsentedTo() returns (run: seq<State>, g: Event, c: Event, r: Event)
    ensures CFG.Valid() && IsRun(CFG, run) && AheadOfReply(run[|run| - 1].history, g, c, r)
    ensures run[|run| - 1] == S11
  {
    UpToSave();
    Judged();
    ProposedStep();
    ReplyBegins();
    ConsentArrives();
    ReplyCommits();
    ConsentLocked();
    ConsentSaved();
    ConsentGranted();
    hide Next, At, Init, AheadOfReply, IsRun;
    run := [S0, S1, S2, S3, S4, S5, S6, S7, S8, S9, S10, S11];
    assert Init(S0) by { StartIsInitial(); }
    TwelveStates(run);
    EndOfRun();
    g, c, r := Authorized(11, "p1", "m2"), Arrived(7, "m2", ALICE), ReplyStored(8, ALICE, 6);
  }

  lemma StartIsInitial()
    ensures Init(S0)
  {
  }

  lemma EndOfRun()
    ensures AheadOfReply(S11.history, Authorized(11, "p1", "m2"), Arrived(7, "m2", ALICE), ReplyStored(8, ALICE, 6))
  {
  }
}

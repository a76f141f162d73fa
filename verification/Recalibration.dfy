/** The recalibration at every start of the server (internal/bootstrap/bootstrap.go,
    internal/conversations/store.go) against the hard cap: it replaces what was charged by
    what the recorded iterations report, and this module says when the cap survives that. */
module Recalibration {
  import opened Domain
  import opened Budget
  import S = Spend
  import opened CallsUnderTheCap

  // ---- runs that stay under the cap ----

  /** The recalibration changes the row. */
  predicate Lowers(l: Ledger, penalty: int, calls: seq<Call>)
    requires |l.handles| <= |calls|
  {
    l.recorded != {} && l.row.open && l.row.reserved == 0 && MeasuredOf(l, calls, penalty) < l.row.used
  }

  /** A recalibration that lowers the row still measures what the settled calls cost. */
  ghost predicate Honest(l: Ledger, e: Event, calls: seq<Call>)
    requires Can(l, e, calls)
  {
    e.Recalibrated? && Lowers(l, e.penalty, calls) ==> SettledCost(l.handles, calls) <= MeasuredOf(l, calls, e.penalty)
  }

  ghost predicate AllHonest(l: Ledger, events: seq<Event>, calls: seq<Call>)
    requires Happens(l, events, calls)
    decreases |events|
  {
    events == [] || (Honest(l, events[0], calls) && AllHonest(Next(l, events[0], calls), events[1..], calls))
  }

  /** The row counts at least what the settled calls cost. */
  ghost predicate Within(l: Ledger, calls: seq<Call>) {
    LedgerOk(l, calls) && SettledCost(l.handles, calls) <= l.row.used
  }

  lemma StepKeepsWithin(l: Ledger, e: Event, calls: seq<Call>)
    requires Can(l, e, calls) && Within(l, calls) && AllSound(calls) && Honest(l, e, calls)
    ensures Within(Next(l, e, calls), calls)
  {
    hide SettledCost, Outstanding, Price, Reservation, MeasuredOf, Sound;
    StepKeepsLedgerOk(l, e, calls);
    match e
    case Reserved(tokens) =>
      if RowReserve(l.row, tokens).1 == Accepted {
        SettledAppend(l.handles, Handle(tokens, false, 0), calls);
      }
    case Settled(k) =>
      var h := l.handles[k];
      if !h.settled {
        assert Sound(calls[k]);
        PriceFits(calls[k]);
        SettleNeverFailsItsGuards(l.row, l.handles, k, Price(calls[k]));
        SettledSettle(l.handles, k, h.(settled := true, charge := Charge(h, Price(calls[k]))), calls);
      }
    case _ =>
  }

  lemma {:induction false} RunKeepsWithin(l: Ledger, events: seq<Event>, calls: seq<Call>)
    requires Happens(l, events, calls) && Within(l, calls) && AllSound(calls) && AllHonest(l, events, calls)
    ensures Within(After(l, events, calls), calls) && After(l, events, calls).row.budget == l.row.budget
    decreases |events|
  {
    hide AllSound, Honest, Next, SettledCost, LedgerOk;
    if events != [] {
      StepKeepsLedgerOk(l, events[0], calls);
      StepKeepsWithin(l, events[0], calls);
      RunKeepsWithin(Next(l, events[0], calls), events[1..], calls);
    }
  }

  lemma WithinIsUnderTheCap(l: Ledger, calls: seq<Call>)
    requires Within(l, calls) && AllSound(calls)
    ensures Sum(Spent(calls, |l.handles|)) <= l.row.budget
  {
    hide SettledCost, Outstanding, Spent, Sum, AllSound;
    SpentSplits(l.handles, calls);
  }

  /** The hard cap holds in every run whose recalibrations are honest, so in every run without one. */
  lemma {:induction false} HonestRunsStayUnderTheCap(l: Ledger, events: seq<Event>, calls: seq<Call>)
    requires Happens(l, events, calls) && Within(l, calls) && AllSound(calls) && AllHonest(l, events, calls)
    ensures |After(l, events, calls).handles| <= |calls|
    ensures Sum(Spent(calls, |After(l, events, calls).handles|)) <= l.row.budget
  {
    hide Happens, After, AllHonest, AllSound, SettledCost, Sum, Spent, RowOk;
    RunKeepsWithin(l, events, calls);
    WithinIsUnderTheCap(After(l, events, calls), calls);
  }

  // ---- exactly when the cap is safe ----

  /** Whatever further sound calls are made, with honest recalibrations, all calls together
      stay under the cap. */
  ghost predicate CapIsSafe(l: Ledger, calls: seq<Call>) {
    forall more: seq<Call>, events: seq<Event> :: StaysUnder(l, calls, more, events)
  }

  ghost predicate StaysUnder(l: Ledger, calls: seq<Call>, more: seq<Call>, events: seq<Event>) {
    var all := calls + more;
    AllSound(more) && Happens(l, events, all) && AllHonest(l, events, all) ==>
      |After(l, events, all).handles| <= |all| && Sum(Spent(all, |After(l, events, all).handles|)) <= l.row.budget
  }

  lemma {:induction false} MoreCallsLater(handles: seq<Handle>, calls: seq<Call>, more: seq<Call>)
    requires |handles| <= |calls|
    ensures SettledCost(handles, calls + more) == SettledCost(handles, calls)
    ensures Priced(handles, calls) ==> Priced(handles, calls + more)
    ensures AllSound(calls) && AllSound(more) ==> AllSound(calls + more)
  {
    hide Price, Reservation, Sound, S.Cost;
    if handles != [] {
      MoreCallsLater(handles[..|handles| - 1], calls, more);
      assert (calls + more)[|handles| - 1] == calls[|handles| - 1];
    }
    assert forall i | 0 <= i < |calls| :: (calls + more)[i] == calls[i];
  }

  /** A call that reserves and really costs exactly `tokens`. */
  function FullCall(tokens: int): Call {
    Call([S.Attempt(true, S.Usage(tokens, 0, tokens), false, false, tokens)], 1, tokens, tokens)
  }

  lemma FullCallIsSound(tokens: int)
    requires 0 < tokens
    ensures Sound(FullCall(tokens)) && Reservation(FullCall(tokens)) == tokens && S.Cost(FullCall(tokens).attempts) == tokens
  {
    var a := FullCall(tokens).attempts[0];
    assert [a][..0] == [];
    assert S.Cost([a]) == S.Cost([]) + a.cost;
  }

  lemma OneMoreSpent(calls: seq<Call>, c: Call)
    ensures Sum(Spent(calls + [c], |calls| + 1)) == Sum(Spent(calls, |calls|)) + S.Cost(c.attempts)
  {
    hide S.Cost;
    assert Spent(calls + [c], |calls| + 1)[..|calls|] == Spent(calls, |calls|);
  }

  /** With the row below the true spend, one more honest call passes the cap. */
  lemma OneCallTooMany(l: Ledger, calls: seq<Call>)
    requires LedgerOk(l, calls) && AllSound(calls) && |calls| == |l.handles| && l.row.reserved == 0
    requires l.row.used < SettledCost(l.handles, calls)
    ensures !CapIsSafe(l, calls)
  {
    hide SettledCost, Outstanding, Spent, Sum, AllSound, Price;
    SpentSplits(l.handles, calls);
    var room := l.row.budget - l.row.used;
    var none: seq<Call> := [];
    assert calls + none == calls;
    if room == 0 {
      assert AllSound(none) by { NoCalls(); }
      assert !StaysUnder(l, calls, none, []);
    } else {
      var c := FullCall(room);
      FullCallIsSound(room);
      OneMoreSpent(calls, c);
      assert AllSound([c]) by { OneCall(c); }
      var e := Reserved(room);
      assert Can(l, e, calls + [c]);
      var next := Next(l, e, calls + [c]);
      assert [e][1..] == [];
      assert Happens(next, [], calls + [c]);
      assert After(l, [e], calls + [c]) == next;
      assert AllHonest(l, [e], calls + [c]);
      assert |next.handles| == |calls| + 1;
      assert !StaysUnder(l, calls, [c], [e]);
    }
  }

  lemma NoCalls()
    ensures AllSound([])
  {
  }

  lemma OneCall(c: Call)
    requires Sound(c)
    ensures AllSound([c])
  {
  }

  /** An idle conversation is safe exactly when its row counts what its calls really cost. */
  lemma {:induction false} CapIsSafeIff(l: Ledger, calls: seq<Call>)
    requires LedgerOk(l, calls) && AllSound(calls) && |calls| == |l.handles| && l.row.reserved == 0
    ensures CapIsSafe(l, calls) <==> SettledCost(l.handles, calls) <= l.row.used
  {
    hide SettledCost, Outstanding, Spent, Sum, AllSound, Happens, AllHonest, After, Priced, RowOk;
    if SettledCost(l.handles, calls) <= l.row.used {
      forall more: seq<Call>, events: seq<Event>
        ensures StaysUnder(l, calls, more, events)
      {
        MoreCallsLater(l.handles, calls, more);
        if AllSound(more) && Happens(l, events, calls + more) && AllHonest(l, events, calls + more) {
          HonestRunsStayUnderTheCap(l, events, calls + more);
        }
      }
    } else {
      OneCallTooMany(l, calls);
    }
  }

  /** After a recalibration that lowers the row, the cap is safe exactly when what it measured
      covers what the settled calls really cost. */
  lemma {:induction false} RecalibrationIsSafeIff(l: Ledger, calls: seq<Call>, penalty: int)
    requires LedgerOk(l, calls) && AllSound(calls) && |calls| == |l.handles| && Lowers(l, penalty, calls)
    ensures CapIsSafe(Next(l, Recalibrated(penalty), calls), calls) <==>
            SettledCost(l.handles, calls) <= MeasuredOf(l, calls, penalty)
  {
    hide SettledCost, AllSound, CapIsSafe, LedgerOk, MeasuredOf;
    StepKeepsLedgerOk(l, Recalibrated(penalty), calls);
    CapIsSafeIff(Next(l, Recalibrated(penalty), calls), calls);
  }

  // ---- what can be told from the reports ----

  /** The same calls as the server sees them; only what the attempts cost may differ. */
  ghost predicate SameCalls(calls: seq<Call>, other: seq<Call>) {
    && |calls| == |other|
    && forall i :: 0 <= i < |calls| ==>
         other[i] == calls[i].(attempts := other[i].attempts) && S.SameReports(calls[i].attempts, other[i].attempts)
  }

  function WorstOf(c: Call): int {
    S.Worst(c.attempts, c.prompt, c.estimate)
  }

  /** The most the settled calls can have cost, given their reports. */
  function WorstSettled(handles: seq<Handle>, calls: seq<Call>): int
    requires |handles| <= |calls|
  {
    if handles == [] then 0
    else
      var n := |handles| - 1;
      WorstSettled(handles[..n], calls) + if handles[n].settled then WorstOf(calls[n]) else 0
  }

  function DearestOf(c: Call): Call {
    c.(attempts := S.Dearest(c.attempts, c.prompt, c.estimate))
  }

  function AllDearest(calls: seq<Call>): seq<Call> {
    seq(|calls|, i requires 0 <= i < |calls| => DearestOf(calls[i]))
  }

  lemma DearestIsSound(c: Call)
    requires Sound(c)
    ensures Sound(DearestOf(c)) && S.SameReports(c.attempts, DearestOf(c).attempts)
    ensures S.Cost(DearestOf(c).attempts) == WorstOf(c)
  {
    hide S.Dearest, S.Worst, S.Cost, S.SameReports, S.IsCall, S.AllFair, S.SilentAfterReport;
    S.WorstIsFair(c.attempts, c.prompt, c.estimate);
    CallsAreMade(c.attempts, c.max);
    S.SameCall(c.attempts, DearestOf(c).attempts, c.max);
  }

  lemma CallsAreMade(attempts: seq<S.Attempt>, max: nat)
    requires S.IsCall(attempts, max)
    ensures attempts != []
  {
  }

  lemma AllDearestAreSound(calls: seq<Call>)
    requires AllSound(calls)
    ensures AllSound(AllDearest(calls)) && SameCalls(calls, AllDearest(calls))
  {
    hide Sound, DearestOf, S.SameReports;
    forall i | 0 <= i < |calls|
      ensures Sound(DearestOf(calls[i])) && S.SameReports(calls[i].attempts, DearestOf(calls[i]).attempts)
      ensures DearestOf(calls[i]) == calls[i].(attempts := DearestOf(calls[i]).attempts)
    {
      DearestIsSound(calls[i]);
      OnlyAttemptsDiffer(calls[i]);
    }
  }

  lemma OnlyAttemptsDiffer(c: Call)
    ensures DearestOf(c) == c.(attempts := DearestOf(c).attempts)
  {
  }

  lemma {:induction false} WorstIsAttained(handles: seq<Handle>, calls: seq<Call>)
    requires |handles| <= |calls| && AllSound(calls)
    ensures SettledCost(handles, AllDearest(calls)) == WorstSettled(handles, calls)
  {
    hide Sound, DearestOf, WorstOf, S.Cost;
    if handles != [] {
      WorstIsAttained(handles[..|handles| - 1], calls);
      DearestIsSound(calls[|handles| - 1]);
    }
  }

  lemma {:induction false} WorstIsMost(handles: seq<Handle>, calls: seq<Call>, other: seq<Call>)
    requires |handles| <= |calls| && SameCalls(calls, other) && AllSound(other)
    ensures SettledCost(handles, other) <= WorstSettled(handles, calls)
  {
    hide S.Cost, S.Worst, S.SameReports, S.AllFair, S.IsCall, S.SilentAfterReport;
    if handles != [] {
      var n := |handles| - 1;
      WorstIsMost(handles[..n], calls, other);
      assert Sound(other[n]);
      S.WorstIsMost(calls[n].attempts, other[n].attempts, calls[n].prompt, calls[n].estimate);
    }
  }

  lemma SamePrice(c: Call, d: Call)
    requires d == c.(attempts := d.attempts) && S.SameReports(c.attempts, d.attempts) && c.attempts != []
    ensures d.attempts != [] && Price(c) == Price(d)
  {
    S.ReportsDecide(c.attempts, d.attempts);
  }

  lemma {:induction false} SameMeasure(calls: seq<Call>, other: seq<Call>, recorded: set<nat>, penalty: int)
    requires SameCalls(calls, other)
    ensures Measured(calls, recorded, penalty) == Measured(other, recorded, penalty)
  {
    hide S.SumUsage, S.SameReports;
    if calls != [] {
      var n := |calls| - 1;
      SameMeasure(calls[..n], other[..n], recorded, penalty);
      S.ReportsDecide(calls[n].attempts, other[n].attempts);
    }
  }

  lemma SameLedger(l: Ledger, calls: seq<Call>, other: seq<Call>)
    requires LedgerOk(l, calls) && SameCalls(calls, other)
    ensures LedgerOk(l, other)
  {
    hide Price, S.SameReports, RowOk;
    forall i | 0 <= i < |l.handles| && l.handles[i].settled
      ensures other[i].attempts != [] && l.handles[i].charge == Price(other[i])
    {
      SamePrice(calls[i], other[i]);
    }
  }

  /** Whatever the calls behind the reports cost, the cap is safe after the recalibration. */
  ghost predicate SafeWhateverItCost(l: Ledger, calls: seq<Call>, penalty: int)
    requires |calls| == |l.handles|
  {
    forall other :: SameCalls(calls, other) && AllSound(other) ==> CapIsSafe(Next(l, Recalibrated(penalty), other), other)
  }

  /** From the reports alone: a recalibration that lowers the row leaves the cap safe, whatever
      the calls cost, exactly when it measured the most they can have cost. */
  lemma {:induction false} SafeWhateverItCostIff(l: Ledger, calls: seq<Call>, penalty: int)
    requires LedgerOk(l, calls) && AllSound(calls) && |calls| == |l.handles| && Lowers(l, penalty, calls)
    ensures SafeWhateverItCost(l, calls, penalty) <==> WorstSettled(l.handles, calls) <= MeasuredOf(l, calls, penalty)
  {
    hide CapIsSafe, SettledCost, WorstSettled, AllSound, LedgerOk, Next, Measured;
    forall other | SameCalls(calls, other) && AllSound(other)
      ensures CapIsSafe(Next(l, Recalibrated(penalty), other), other) <==>
              SettledCost(l.handles, other) <= MeasuredOf(l, calls, penalty)
      ensures SettledCost(l.handles, other) <= WorstSettled(l.handles, calls)
    {
      assert calls[..|l.handles|] == calls && other[..|l.handles|] == other;
      SameMeasure(calls, other, l.recorded, penalty);
      SameLedger(l, calls, other);
      RecalibrationIsSafeIff(l, other, penalty);
      WorstIsMost(l.handles, calls, other);
    }
    AllDearestAreSound(calls);
    WorstIsAttained(l.handles, calls);
  }

  // ---- call by call ----

  /** A provider's total counts at least its parts. */
  ghost predicate PartsWithinTotals(attempts: seq<S.Attempt>) {
    forall i :: 0 <= i < |attempts| ==> attempts[i].usage.input + attempts[i].usage.output <= S.Total(attempts[i].usage)
  }

  lemma {:induction false} PartsWithinSum(attempts: seq<S.Attempt>)
    requires PartsWithinTotals(attempts)
    ensures S.SumUsage(attempts).input + S.SumUsage(attempts).output <= S.SumUsage(attempts).total
  {
    if attempts != [] { PartsWithinSum(attempts[..|attempts| - 1]); }
  }

  /** What is read off a recorded call covers its cost exactly when every token was reported in
      parts; off a call that reported no parts, exactly when the penalty does. */
  lemma {:induction false} ReadingCoversIff(c: Call, penalty: int)
    requires Sound(c) && PartsWithinTotals(c.attempts)
    ensures var u := S.SumUsage(c.attempts);
            S.Cost(c.attempts) <= Reading(c, penalty) <==>
            if 0 < u.input + u.output then S.UnseenCost(c.attempts) == 0 && u.total == u.input + u.output
            else S.Cost(c.attempts) <= (if penalty <= 0 then 500 else penalty)
  {
    hide S.SumUsage, S.Cost, S.UnseenCost, S.SomeReport;
    S.CostSplits(c.attempts, c.prompt, c.estimate);
    PartsWithinSum(c.attempts);
  }

  /** From the reports alone: nothing unreported that could have cost anything, and no total
      beyond its parts. */
  lemma {:induction false} ReadingCoversWorstIff(c: Call, penalty: int)
    requires Sound(c) && PartsWithinTotals(c.attempts)
    ensures var u := S.SumUsage(c.attempts);
            WorstOf(c) <= Reading(c, penalty) <==>
            if 0 < u.input + u.output
            then (S.CountUnreported(c.attempts) == 0 || Min(c.prompt, c.estimate) == 0) && u.total == u.input + u.output
            else WorstOf(c) <= (if penalty <= 0 then 500 else penalty)
  {
    hide S.SumUsage, S.Cost, S.UnseenCost, S.SomeReport, S.CountUnreported, S.Worst;
    S.CostSplits(c.attempts, c.prompt, c.estimate);
    S.WithinReservation(c.attempts, c.max, c.prompt, c.estimate);
    assert S.Fair(c.attempts[0], c.prompt, c.estimate);
    PartsWithinSum(c.attempts);
    S.WorstSplits(c.attempts, c.prompt, c.estimate);
    var n, p := S.CountUnreported(c.attempts), Min(c.prompt, c.estimate);
    S.NeverLess(n, 0, p);
    assert n * p == 0 <==> n == 0 || p == 0;
  }

  /** A ledger whose settled calls are all on record, each read off at its worst cost, is
      measured honestly. */
  lemma {:induction false} CallByCall(handles: seq<Handle>, calls: seq<Call>, recorded: set<nat>, penalty: int)
    requires |handles| == |calls|
    requires forall i :: 0 <= i < |handles| && handles[i].settled ==> i in recorded && WorstOf(calls[i]) <= Reading(calls[i], penalty)
    ensures WorstSettled(handles, calls) <= Measured(calls, recorded, penalty)
  {
    hide WorstOf, Reading;
    if handles != [] {
      var n := |handles| - 1;
      CallByCall(handles[..n], calls[..n], recorded, penalty);
      FirstSettled(handles[..n], calls);
    }
  }

  lemma {:induction false} FirstSettled(handles: seq<Handle>, calls: seq<Call>)
    requires |handles| < |calls|
    ensures WorstSettled(handles, calls) == WorstSettled(handles, calls[..|calls| - 1])
  {
    hide WorstOf;
    if handles != [] { FirstSettled(handles[..|handles| - 1], calls); }
  }

  // ---- a run that passes the cap ----

  /** An attempt that costs 400 and reports nothing, then a success that reports 400 + 100. */
  const RETRIED := Call([S.Attempt(false, S.Usage(0, 0, 0), true, true, 400),
                         S.Attempt(true, S.Usage(400, 100, 500), false, false, 500)], 2, 400, 500)

  const OPENED := Ledger(Row(0, 0, 1000, true), [], {})

  const RESTART := [Reserved(1000), Settled(0), Recorded(0), Recalibrated(PENALTY), Reserved(500), Settled(1)]

  const RESTARTED := Ledger(Row(500, 0, 1000, true), [Handle(1000, true, 900)], {0})

  lemma RetriedIsSound()
    ensures Sound(RETRIED) && Reservation(RETRIED) == 1000 && Price(RETRIED) == 900
    ensures S.Cost(RETRIED.attempts) == 900 && Reading(RETRIED, PENALTY) == 500
  {
    var first, second := RETRIED.attempts[0], RETRIED.attempts[1];
    var none: seq<S.Attempt> := [];
    S.NoAttempts();
    S.SumsAppend(none, first);
    S.SumsAppend([first], second);
    assert none + [first] == [first] && [first] + [second] == RETRIED.attempts;
  }

  lemma FullPrice(tokens: int)
    requires 0 < tokens
    ensures Price(FullCall(tokens)) == tokens
  {
    var c := FullCall(tokens);
    var none: seq<S.Attempt> := [];
    S.NoAttempts();
    S.SumsAppend(none, c.attempts[0]);
    assert none + [c.attempts[0]] == c.attempts;
  }

  /** Reserve 1000, settle 900, and be recalibrated to 500 by a restart... */
  lemma {:induction false} UpToTheRestart(calls: seq<Call>)
    requires |calls| == 2 && calls[0].attempts != [] && Reservation(calls[0]) == 1000 && Price(calls[0]) == 900
    requires Reading(calls[0], PENALTY) == 500 && Happens(RESTARTED, RESTART[4..], calls)
    ensures Happens(OPENED, RESTART, calls) && After(OPENED, RESTART, calls) == After(RESTARTED, RESTART[4..], calls)
  {
    hide Reservation, Price, Reading, Happens, After, Measured, Next, Can;
    Measurement(calls);
    var l1 := Ledger(Row(0, 1000, 1000, true), [Handle(1000, false, 0)], {});
    var l2 := Ledger(Row(900, 0, 1000, true), [Handle(1000, true, 900)], {});
    var l3 := l2.(recorded := {0});
    RecalibrateNext(l3, calls, RESTARTED);
    Then(l3, 3, calls, RESTARTED);
    RecordNext(l2, 0, calls, l3);
    Then(l2, 2, calls, l3);
    SettleNext(l1, 0, calls);
    Then(l1, 1, calls, l2);
    ReserveNext(OPENED, 1000, calls);
    Then(OPENED, 0, calls, l1);
  }

  /** ...then spend 500 more. */
  lemma {:induction false} AfterTheRestart(calls: seq<Call>)
    requires |calls| == 2 && calls[1].attempts != [] && Reservation(calls[1]) == 500 && Price(calls[1]) == 500
    ensures Happens(RESTARTED, RESTART[4..], calls)
    ensures After(RESTARTED, RESTART[4..], calls) ==
            Ledger(Row(1000, 0, 1000, true), [Handle(1000, true, 900), Handle(500, true, 500)], {0})
  {
    hide Reservation, Price, Happens, After, Next, Can;
    var l5 := Ledger(Row(500, 500, 1000, true), [Handle(1000, true, 900), Handle(500, false, 0)], {0});
    var l6 := Ledger(Row(1000, 0, 1000, true), [Handle(1000, true, 900), Handle(500, true, 500)], {0});
    NoEvents(l6, calls);
    SettleNext(l5, 1, calls);
    Then(l5, 5, calls, l6);
    ReserveNext(RESTARTED, 500, calls);
    Then(RESTARTED, 4, calls, l5);
  }

  /** Sound calls that really cost 1400 under a cap of 1000. */
  lemma {:induction false} RestartPassesTheCap(calls: seq<Call>)
    requires calls == [RETRIED, FullCall(500)]
    ensures AllSound(calls) && Within(OPENED, calls)
    ensures Happens(OPENED, RESTART, calls)
    ensures var end := After(OPENED, RESTART, calls);
            |end.handles| == 2 && end.row == Row(1000, 0, 1000, true) && Sum(Spent(calls, 2)) == 1400
  {
    hide Sound, S.Cost, Happens, After, Sum, Spent, Price, Reservation, Reading;
    RetriedIsSound();
    FullCallIsSound(500);
    FullPrice(500);
    AfterTheRestart(calls);
    UpToTheRestart(calls);
    TwoSpent(calls);
  }

  lemma NoEvents(l: Ledger, calls: seq<Call>)
    ensures Happens(l, [], calls) && After(l, [], calls) == l
  {
  }

  lemma Then(l: Ledger, i: nat, calls: seq<Call>, next: Ledger)
    requires i < |RESTART| && Can(l, RESTART[i], calls) && Next(l, RESTART[i], calls) == next
    requires Happens(next, RESTART[i + 1..], calls)
    ensures Happens(l, RESTART[i..], calls) && After(l, RESTART[i..], calls) == After(next, RESTART[i + 1..], calls)
  {
    assert RESTART[i..][1..] == RESTART[i + 1..];
  }

  lemma {:induction false} Measurement(calls: seq<Call>)
    requires |calls| == 2
    ensures Measured(calls[..1], {0}, PENALTY) == Reading(calls[0], PENALTY)
  {
    hide Reading;
    assert calls[..1][..0] == [];
  }

  lemma {:induction false} TwoSpent(calls: seq<Call>)
    requires |calls| == 2
    ensures Sum(Spent(calls, 2)) == S.Cost(calls[0].attempts) + S.Cost(calls[1].attempts)
  {
    hide S.Cost;
    var none, first := [], [calls[0]];
    assert none + [calls[0]] == first && first + [calls[1]] == calls;
    OneMoreSpent(none, calls[0]);
    OneMoreSpent(first, calls[1]);
    assert Sum(Spent(none, 0)) == 0;
  }

  lemma {:induction false} ReserveNext(l: Ledger, tokens: int, calls: seq<Call>)
    requires RowReserve(l.row, tokens).1 == Accepted && |l.handles| < |calls| && tokens == Reservation(calls[|l.handles|])
    ensures Can(l, Reserved(tokens), calls)
    ensures Next(l, Reserved(tokens), calls) ==
            l.(row := l.row.(reserved := l.row.reserved + tokens), handles := l.handles + [Handle(tokens, false, 0)])
  {
    hide Price, Reservation, Measured;
  }

  lemma RecordNext(l: Ledger, k: nat, calls: seq<Call>, next: Ledger)
    requires k < |l.handles| && l.handles[k].settled && next == l.(recorded := l.recorded + {k})
    ensures Can(l, Recorded(k), calls) && Next(l, Recorded(k), calls) == next
  {
  }

  lemma RecalibrateNext(l: Ledger, calls: seq<Call>, next: Ledger)
    requires |l.handles| <= |calls| && Lowers(l, PENALTY, calls)
    requires next == l.(row := l.row.(used := MeasuredOf(l, calls, PENALTY)))
    ensures Can(l, Recalibrated(PENALTY), calls) && Next(l, Recalibrated(PENALTY), calls) == next
  {
    hide Measured;
  }

  lemma {:induction false} SettleNext(l: Ledger, k: nat, calls: seq<Call>)
    requires k < |l.handles| <= |calls| && calls[k].attempts != [] && !l.handles[k].settled && 0 <= Price(calls[k])
    requires GuardsHold(l.row, l.handles[k].tokens, Price(calls[k]))
    ensures Can(l, Settled(k), calls)
    ensures Next(l, Settled(k), calls) ==
            l.(row := l.row.(reserved := l.row.reserved - l.handles[k].tokens, used := l.row.used + Price(calls[k])),
               handles := l.handles[k := Handle(l.handles[k].tokens, true, Price(calls[k]))])
  {
    hide Price, Measured;
  }
}

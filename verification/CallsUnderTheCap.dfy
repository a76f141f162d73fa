/** From provider attempts to the conversation's cap: the runner reserves, calls, charges,
    settles and records (internal/agent/runner.go), every start of the server recalibrates
    (internal/conversations/store.go), and the question is what the calls really spend. */
module CallsUnderTheCap {
  import opened Budget
  import S = Spend

  /** One model call: its provider attempts, and what it was estimated with. */
  datatype Call = Call(attempts: seq<S.Attempt>, max: nat, prompt: int, estimate: int)

  function Reservation(c: Call): int {
    c.estimate * c.max
  }

  ghost predicate Sound(c: Call) {
    && S.IsCall(c.attempts, c.max) && S.AllFair(c.attempts, c.prompt, c.estimate)
    && !S.SilentAfterReport(c.attempts)
  }

  ghost predicate AllSound(calls: seq<Call>) {
    forall i :: 0 <= i < |calls| ==> Sound(calls[i])
  }

  function Price(c: Call): int
    requires c.attempts != []
  {
    S.ChargeFor(S.Summary(c.attempts), Reservation(c))
  }

  lemma PriceFits(c: Call)
    requires Sound(c)
    ensures 0 <= S.Cost(c.attempts) <= Price(c) <= Reservation(c)
  {
    S.ChargeCoversSpend(c.attempts, c.max, c.prompt, c.estimate);
    S.CostWithinEstimate(c.attempts, c.prompt, c.estimate);
  }

  // ---- the ledger of one conversation ----

  /** The row, the reservations in the order of the calls, and the calls whose iteration is on
      record; the record is written after the settlement. */
  datatype Ledger = Ledger(row: Row, handles: seq<Handle>, recorded: set<nat>)

  datatype Event =
    | Reserved(tokens: int)
    | Settled(call: nat)
    | Recorded(call: nat)
    | Recalibrated(penalty: int)
    | StatusSet(open: bool)

  const PENALTY := 500

  function PenaltyOf(penalty: int): int {
    if penalty <= 0 then PENALTY else penalty
  }

  /** What a recalibration reads off a recorded call: input plus output, or the penalty. */
  function Reading(c: Call, penalty: int): (r: int)
    ensures 0 < r
  {
    var u := S.SumUsage(c.attempts);
    if u.input + u.output > 0 then u.input + u.output else PenaltyOf(penalty)
  }

  function Measured(calls: seq<Call>, recorded: set<nat>, penalty: int): int {
    if calls == [] then 0
    else
      var n := |calls| - 1;
      Measured(calls[..n], recorded, penalty) + if n in recorded then Reading(calls[n], penalty) else 0
  }

  /** The next granted reservation is that of the next call, a call settles its charge, and
      only a settled call is recorded. */
  ghost predicate Can(l: Ledger, e: Event, calls: seq<Call>) {
    match e
    case Reserved(tokens) =>
      RowReserve(l.row, tokens).1 == Accepted ==> |l.handles| < |calls| && tokens == Reservation(calls[|l.handles|])
    case Settled(k) => k < |l.handles| <= |calls| && calls[k].attempts != [] && 0 <= Price(calls[k])
    case Recorded(k) => k < |l.handles| && l.handles[k].settled
    case Recalibrated(_) => |l.handles| <= |calls|
    case StatusSet(_) => true
  }

  /** The statement's join finds nothing for a conversation without records. */
  function MeasuredOf(l: Ledger, calls: seq<Call>, penalty: int): int
    requires |l.handles| <= |calls|
  {
    Measured(calls[..|l.handles|], l.recorded, penalty)
  }

  /** What an event asks of the row. */
  ghost function AsRowAction(l: Ledger, e: Event, calls: seq<Call>): RowAction
    requires Can(l, e, calls)
  {
    match e
    case Reserved(tokens) => RowAct(Reserve(tokens))
    case Settled(k) => RowAct(Settle(k, Price(calls[k])))
    case Recorded(_) => SetOpen(l.row.open)
    case Recalibrated(penalty) =>
      if l.recorded == {} then SetOpen(l.row.open) else Recalibrate(MeasuredOf(l, calls, penalty))
    case StatusSet(open) => SetOpen(open)
  }

  ghost function Next(l: Ledger, e: Event, calls: seq<Call>): Ledger
    requires Can(l, e, calls)
  {
    var next := RowStep(l.row, l.handles, AsRowAction(l, e, calls));
    Ledger(next.0, next.1, if e.Recorded? then l.recorded + {e.call} else l.recorded)
  }

  ghost predicate Happens(l: Ledger, events: seq<Event>, calls: seq<Call>)
    decreases |events|
  {
    events == [] || (Can(l, events[0], calls) && Happens(Next(l, events[0], calls), events[1..], calls))
  }

  ghost function After(l: Ledger, events: seq<Event>, calls: seq<Call>): Ledger
    requires Happens(l, events, calls)
    decreases |events|
  {
    if events == [] then l else After(Next(l, events[0], calls), events[1..], calls)
  }

  // ---- what every event keeps ----

  /** Handles stand for calls: reserved in full, and once settled charged their price. */
  ghost predicate Priced(handles: seq<Handle>, calls: seq<Call>) {
    && |handles| <= |calls|
    && forall i :: 0 <= i < |handles| ==>
         && handles[i].tokens == Reservation(calls[i])
         && (handles[i].settled ==> calls[i].attempts != [] && handles[i].charge == Price(calls[i]))
  }

  ghost predicate LedgerOk(l: Ledger, calls: seq<Call>) {
    RowOk(l.row, l.handles) && Priced(l.handles, calls)
  }

  lemma {:induction false} MeasuredIsNatural(calls: seq<Call>, recorded: set<nat>, penalty: int)
    ensures 0 <= Measured(calls, recorded, penalty)
  {
    if calls != [] { MeasuredIsNatural(calls[..|calls| - 1], recorded, penalty); }
  }

  lemma CanMeansEnabled(l: Ledger, e: Event, calls: seq<Call>)
    requires Can(l, e, calls)
    ensures RowEnabled(l.row, l.handles, AsRowAction(l, e, calls))
  {
    hide Price, Reading;
    if e.Recalibrated? { MeasuredIsNatural(calls[..|l.handles|], l.recorded, e.penalty); }
  }

  lemma StepKeepsPriced(l: Ledger, e: Event, calls: seq<Call>)
    requires Can(l, e, calls) && Priced(l.handles, calls) && AllSound(calls)
    ensures Priced(Next(l, e, calls).handles, calls)
  {
    hide Price, Reservation, Sound, Measured;
    if e.Settled? {
      assert Sound(calls[e.call]);
      PriceFits(calls[e.call]);
    }
  }

  lemma StepKeepsLedgerOk(l: Ledger, e: Event, calls: seq<Call>)
    requires Can(l, e, calls) && LedgerOk(l, calls) && AllSound(calls)
    ensures LedgerOk(Next(l, e, calls), calls) && Next(l, e, calls).row.budget == l.row.budget
  {
    hide AsRowAction, RowStep, RowOk, Priced, RowEnabled;
    CanMeansEnabled(l, e, calls);
    RowStepKeepsCap(l.row, l.handles, AsRowAction(l, e, calls));
    StepKeepsPriced(l, e, calls);
  }

  /** A recalibration sets the row to what the recorded calls read exactly when there are records,
      the conversation is open and idle, and that is less; and changes nothing else. */
  lemma RecalibratesExactly(l: Ledger, penalty: int, calls: seq<Call>)
    requires |l.handles| <= |calls|
    ensures Next(l, Recalibrated(penalty), calls) ==
            if l.recorded != {} && l.row.open && l.row.reserved == 0 && MeasuredOf(l, calls, penalty) < l.row.used
            then l.(row := l.row.(used := MeasuredOf(l, calls, penalty))) else l
  {
    hide MeasuredOf;
  }

  /** What is read off the calls: input and output of each one on record, and nothing of the others. */
  lemma {:induction false} MeasuredAppend(calls: seq<Call>, c: Call, recorded: set<nat>, penalty: int)
    ensures Measured(calls + [c], recorded, penalty) ==
            Measured(calls, recorded, penalty) + if |calls| in recorded then Reading(c, penalty) else 0
  {
    hide Reading;
    assert (calls + [c])[..|calls|] == calls;
  }

  // ---- true spend ----

  /** What the calls behind the first `n` reservations really cost. */
  function Spent(calls: seq<Call>, n: nat): seq<int>
    requires n <= |calls|
  {
    seq(n, i requires 0 <= i < n => S.Cost(calls[i].attempts))
  }

  lemma CallsAreCovered(handles: seq<Handle>, calls: seq<Call>)
    requires Priced(handles, calls) && AllSound(calls)
    ensures Covered(handles, Spent(calls, |handles|))
  {
    hide Price, Reservation, S.Cost;
    forall i | 0 <= i < |handles|
      ensures S.Cost(calls[i].attempts) <= if handles[i].settled then handles[i].charge else handles[i].tokens
    {
      PriceFits(calls[i]);
    }
  }

  /** What the settled calls really cost. */
  function SettledCost(handles: seq<Handle>, calls: seq<Call>): int
    requires |handles| <= |calls|
  {
    if handles == [] then 0
    else
      var n := |handles| - 1;
      SettledCost(handles[..n], calls) + if handles[n].settled then S.Cost(calls[n].attempts) else 0
  }

  /** Everything spent is settled, or covered by what is still reserved. */
  lemma {:induction false} SpentSplits(handles: seq<Handle>, calls: seq<Call>)
    requires Priced(handles, calls) && AllSound(calls)
    ensures SettledCost(handles, calls) <= Sum(Spent(calls, |handles|)) <= SettledCost(handles, calls) + Outstanding(handles)
  {
    hide Price, Reservation, S.Cost, Sound;
    if handles != [] {
      var n := |handles| - 1;
      SpentSplits(handles[..n], calls);
      assert Spent(calls, n + 1)[..n] == Spent(calls, n);
      PriceFits(calls[n]);
    }
  }

  lemma {:induction false} SettledAppend(handles: seq<Handle>, h: Handle, calls: seq<Call>)
    requires |handles| < |calls| && !h.settled
    ensures SettledCost(handles + [h], calls) == SettledCost(handles, calls)
  {
    assert (handles + [h])[..|handles|] == handles;
  }

  lemma {:induction false} SettledSettle(handles: seq<Handle>, k: nat, h: Handle, calls: seq<Call>)
    requires |handles| <= |calls| && k < |handles| && !handles[k].settled && h.settled
    ensures SettledCost(handles[k := h], calls) == SettledCost(handles, calls) + S.Cost(calls[k].attempts)
  {
    var n := |handles| - 1;
    if k < n {
      SettledSettle(handles[..n], k, h, calls);
      assert handles[k := h][..n] == handles[..n][k := h];
    } else {
      assert handles[k := h][..n] == handles[..n];
    }
  }

  // ---- the bound for every run ----

  /** What the recalibrations of a run take off the row. */
  ghost function TakenOffIn(l: Ledger, events: seq<Event>, calls: seq<Call>): int
    requires Happens(l, events, calls)
    decreases |events|
  {
    if events == [] then 0
    else TakenOffBy(l.row, AsRowAction(l, events[0], calls)) + TakenOffIn(Next(l, events[0], calls), events[1..], calls)
  }

  lemma StepAccounts(l: Ledger, e: Event, calls: seq<Call>)
    requires Can(l, e, calls) && LedgerOk(l, calls)
    ensures var next, taken := Next(l, e, calls), TakenOffBy(l.row, AsRowAction(l, e, calls));
            0 <= taken && next.row.used - Charged(next.handles) + taken == l.row.used - Charged(l.handles)
  {
    hide AsRowAction, RowStep, RowOk, RowEnabled, TakenOffBy, Charged;
    CanMeansEnabled(l, e, calls);
    RowStepKeepsCap(l.row, l.handles, AsRowAction(l, e, calls));
  }

  lemma {:induction false} RunAccounts(l: Ledger, events: seq<Event>, calls: seq<Call>)
    requires Happens(l, events, calls) && LedgerOk(l, calls) && AllSound(calls)
    ensures var end := After(l, events, calls);
            && LedgerOk(end, calls) && end.row.budget == l.row.budget && 0 <= TakenOffIn(l, events, calls)
            && end.row.used - Charged(end.handles) + TakenOffIn(l, events, calls) == l.row.used - Charged(l.handles)
    decreases |events|
  {
    hide LedgerOk, AllSound, Charged, Next, TakenOffBy;
    if events != [] {
      StepKeepsLedgerOk(l, events[0], calls);
      StepAccounts(l, events[0], calls);
      RunAccounts(Next(l, events[0], calls), events[1..], calls);
    }
  }

  /** For any interleaving of turns, with recalibrations at any point, the calls of a
      conversation really spend no more than its cap and what recalibrations took off. */
  lemma {:induction false} TrueSpendStaysUnderTheCap(l: Ledger, events: seq<Event>, calls: seq<Call>)
    requires LedgerOk(l, calls) && l.row.used == Charged(l.handles) && AllSound(calls) && Happens(l, events, calls)
    ensures |After(l, events, calls).handles| <= |calls|
    ensures Sum(Spent(calls, |After(l, events, calls).handles|)) <= l.row.budget + TakenOffIn(l, events, calls)
  {
    hide Happens, After, AllSound, Charged, Outstanding, TakenOffIn, Spent, Covered;
    RunAccounts(l, events, calls);
    var end := After(l, events, calls);
    CallsAreCovered(end.handles, calls);
    SpendIsAccounted(end.handles, Spent(calls, |end.handles|));
  }
}

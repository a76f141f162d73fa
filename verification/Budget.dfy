/** The hard token cap of a conversation: the in-memory budget of internal/agent/budget.go,
    the database budget of internal/agentbudget/postgres.go over internal/conversations/store.go,
    and the sense in which one refines the other. */
module Budget {

  /** A reservation as its holder sees it; `charge` is what it counts for once settled. */
  datatype Handle = Handle(tokens: int, settled: bool, charge: int)

  datatype Memory = Memory(accounted: int, limit: int)

  datatype Row = Row(used: int, reserved: int, budget: int, open: bool)

  datatype Answer = Accepted | Refused | Invalid | Overrun

  // ---- single operations ----

  /** tokens > limit - accounted refuses. */
  function MemoryReserve(m: Memory, tokens: int): (Memory, Answer) {
    if tokens <= 0 then (m, Invalid)
    else if tokens > m.limit - m.accounted then (m, Refused)
    else (m.(accounted := m.accounted + tokens), Accepted)
  }

  function RowReserve(r: Row, tokens: int): (Row, Answer) {
    if tokens < 1 then (r, Invalid)
    else if r.used + r.reserved + tokens <= r.budget then (r.(reserved := r.reserved + tokens), Accepted)
    else (r, Refused)
  }

  /** A report above the reservation keeps the whole reservation charged. */
  function MemorySettle(m: Memory, h: Handle, actual: int): (Memory, Answer) {
    if actual < 0 || h.settled then (m, Invalid)
    else if h.tokens < actual then (m, Overrun)
    else (m.(accounted := m.accounted - (h.tokens - actual)), Accepted)
  }

  predicate GuardsHold(r: Row, reserved: int, actual: int) {
    1 <= reserved && 0 <= actual <= reserved && reserved <= r.reserved && r.used + actual <= r.budget
  }

  /** SettleTokens: one guarded update. */
  function RowSettleTokens(r: Row, reserved: int, actual: int): (Row, Answer) {
    if !GuardsHold(r, reserved, actual) then (r, Refused)
    else (r.(reserved := r.reserved - reserved, used := r.used + actual), Accepted)
  }

  function RowSettle(r: Row, h: Handle, actual: int): (Row, Answer) {
    if h.settled then (r, Invalid)
    else if actual < 0 || h.tokens < actual then
      var done := RowSettleTokens(r, h.tokens, h.tokens);
      if done.1 == Accepted then (done.0, Overrun) else done
    else RowSettleTokens(r, h.tokens, actual)
  }

  /** RecalibrateInflatedUsage on one row: only idle, open, and only downwards. */
  function RowRecalibrate(r: Row, measured: int): Row {
    if r.open && r.reserved == 0 && measured < r.used then r.(used := measured) else r
  }

  // ---- both budgets side by side ----

  datatype System = System(memory: Memory, row: Row, handles: seq<Handle>)

  datatype Action = Reserve(tokens: int) | Settle(handle: nat, actual: int)

  function Charge(h: Handle, actual: int): int {
    if h.tokens < actual then h.tokens else actual
  }

  predicate Enabled(s: System, a: Action) {
    a.Settle? ==> a.handle < |s.handles| && 0 <= a.actual
  }

  /** The answers of the two budgets to one action. */
  function MemoryAnswer(s: System, a: Action): Answer
    requires Enabled(s, a)
  {
    match a
    case Reserve(tokens) => MemoryReserve(s.memory, tokens).1
    case Settle(k, actual) => MemorySettle(s.memory, s.handles[k], actual).1
  }

  function RowAnswer(s: System, a: Action): Answer
    requires Enabled(s, a)
  {
    match a
    case Reserve(tokens) => RowReserve(s.row, tokens).1
    case Settle(k, actual) => RowSettle(s.row, s.handles[k], actual).1
  }

  /** Both budgets act; a handle appears when the database grants the reservation. */
  function Step(s: System, a: Action): System
    requires Enabled(s, a)
  {
    match a
    case Reserve(tokens) =>
      System(MemoryReserve(s.memory, tokens).0, RowReserve(s.row, tokens).0,
             if RowReserve(s.row, tokens).1 == Accepted then s.handles + [Handle(tokens, false, 0)] else s.handles)
    case Settle(k, actual) =>
      var h := s.handles[k];
      System(MemorySettle(s.memory, h, actual).0, RowSettle(s.row, h, actual).0,
             if h.settled then s.handles else s.handles[k := h.(settled := true, charge := Charge(h, actual))])
  }

  function Outstanding(handles: seq<Handle>): int {
    if handles == [] then 0
    else Outstanding(handles[..|handles| - 1]) + if handles[|handles| - 1].settled then 0 else handles[|handles| - 1].tokens
  }

  function Charged(handles: seq<Handle>): int {
    if handles == [] then 0
    else Charged(handles[..|handles| - 1]) + if handles[|handles| - 1].settled then handles[|handles| - 1].charge else 0
  }

  ghost predicate HandlesOk(handles: seq<Handle>) {
    forall i :: 0 <= i < |handles| ==> 1 <= handles[i].tokens && 0 <= handles[i].charge <= handles[i].tokens
  }

  /** The row is within its cap and its reservations are those not settled yet. */
  ghost predicate RowOk(r: Row, handles: seq<Handle>) {
    && HandlesOk(handles) && 0 <= r.used && 0 <= r.reserved && r.used + r.reserved <= r.budget
    && r.reserved == Outstanding(handles)
  }

  ghost predicate Related(s: System) {
    && RowOk(s.row, s.handles) && s.memory.accounted == s.row.used + s.row.reserved
    && s.memory.limit == s.row.budget && s.row.used == Charged(s.handles)
  }

  // ---- sums over handles ----

  lemma SumsAppend(handles: seq<Handle>, h: Handle)
    ensures Outstanding(handles + [h]) == Outstanding(handles) + if h.settled then 0 else h.tokens
    ensures Charged(handles + [h]) == Charged(handles) + if h.settled then h.charge else 0
  {
    assert (handles + [h])[..|handles|] == handles;
  }

  lemma {:induction false} SumsSettle(handles: seq<Handle>, k: nat, charge: int)
    requires k < |handles| && !handles[k].settled
    ensures var after := handles[k := handles[k].(settled := true, charge := charge)];
            && Outstanding(after) == Outstanding(handles) - handles[k].tokens
            && Charged(after) == Charged(handles) + charge
  {
    var n := |handles| - 1;
    var after := handles[k := handles[k].(settled := true, charge := charge)];
    if k < n {
      SumsSettle(handles[..n], k, charge);
      assert after[..n] == handles[..n][k := handles[k].(settled := true, charge := charge)];
    } else {
      assert after[..n] == handles[..n];
    }
  }

  lemma {:induction false} OutstandingHolds(handles: seq<Handle>, k: nat)
    requires HandlesOk(handles) && k < |handles| && !handles[k].settled
    ensures handles[k].tokens <= Outstanding(handles)
  {
    var n := |handles| - 1;
    OutstandingIsNatural(handles[..n]);
    if k < n { OutstandingHolds(handles[..n], k); }
  }

  lemma {:induction false} OutstandingIsNatural(handles: seq<Handle>)
    requires HandlesOk(handles)
    ensures 0 <= Outstanding(handles)
  {
    if handles != [] { OutstandingIsNatural(handles[..|handles| - 1]); }
  }

  // ---- refinement ----

  /** Settling an outstanding reservation never fails a guard of the database. */
  lemma SettleNeverFailsItsGuards(r: Row, handles: seq<Handle>, k: nat, actual: int)
    requires RowOk(r, handles) && k < |handles| && !handles[k].settled && 0 <= actual
    ensures GuardsHold(r, handles[k].tokens, Charge(handles[k], actual))
    ensures RowSettle(r, handles[k], actual).1 == if handles[k].tokens < actual then Overrun else Accepted
  {
    OutstandingHolds(handles, k);
  }

  lemma {:induction false} StepKeepsRelated(s: System, a: Action)
    requires Related(s) && Enabled(s, a)
    ensures Related(Step(s, a)) && MemoryAnswer(s, a) == RowAnswer(s, a)
  {
    hide Outstanding, Charged;
    match a
    case Reserve(tokens) => SumsAppend(s.handles, Handle(tokens, false, 0));
    case Settle(k, actual) =>
      if !s.handles[k].settled {
        SettleNeverFailsItsGuards(s.row, s.handles, k, actual);
        SumsSettle(s.handles, k, Charge(s.handles[k], actual));
      }
  }

  function Run(s: System, actions: seq<Action>): System
    requires Legal(s, actions)
    decreases |actions|
  {
    if actions == [] then s else Run(Step(s, actions[0]), actions[1..])
  }

  predicate Legal(s: System, actions: seq<Action>)
    decreases |actions|
  {
    actions == [] || (Enabled(s, actions[0]) && Legal(Step(s, actions[0]), actions[1..]))
  }

  /** The answers both budgets give along a run. */
  function MemoryAnswers(s: System, actions: seq<Action>): seq<Answer>
    requires Legal(s, actions)
    decreases |actions|
  {
    if actions == [] then [] else [MemoryAnswer(s, actions[0])] + MemoryAnswers(Step(s, actions[0]), actions[1..])
  }

  function RowAnswers(s: System, actions: seq<Action>): seq<Answer>
    requires Legal(s, actions)
    decreases |actions|
  {
    if actions == [] then [] else [RowAnswer(s, actions[0])] + RowAnswers(Step(s, actions[0]), actions[1..])
  }

  /** Over every interleaving the two budgets answer alike and agree on what is accounted. */
  lemma {:induction false} DatabaseRefinesMemory(s: System, actions: seq<Action>)
    requires Related(s) && Legal(s, actions)
    ensures Related(Run(s, actions)) && MemoryAnswers(s, actions) == RowAnswers(s, actions)
    decreases |actions|
  {
    hide Related;
    if actions != [] {
      StepKeepsRelated(s, actions[0]);
      DatabaseRefinesMemory(Step(s, actions[0]), actions[1..]);
    }
  }

  // ---- the cap, with recalibration ----

  datatype RowAction = RowAct(act: Action) | Recalibrate(measured: int) | SetOpen(open: bool)

  /** The database alone, recalibration and changes of the conversation's status included. */
  function RowStep(r: Row, handles: seq<Handle>, a: RowAction): (Row, seq<Handle>)
    requires a.RowAct? ==> Enabled(System(Memory(0, 0), r, handles), a.act)
  {
    match a
    case RowAct(act) => var s := Step(System(Memory(0, 0), r, handles), act); (s.row, s.handles)
    case Recalibrate(measured) => (RowRecalibrate(r, measured), handles)
    case SetOpen(open) => (r.(open := open), handles)
  }

  lemma {:induction false} RowStepKeepsCap(r: Row, handles: seq<Handle>, a: RowAction)
    requires RowOk(r, handles) && RowEnabled(r, handles, a)
    ensures RowOk(RowStep(r, handles, a).0, RowStep(r, handles, a).1)
    ensures RowStep(r, handles, a).0.budget == r.budget
    ensures 0 <= TakenOffBy(r, a)
    ensures RowStep(r, handles, a).0.used - Charged(RowStep(r, handles, a).1) + TakenOffBy(r, a) == r.used - Charged(handles)
  {
    hide Outstanding, Charged;
    match a
    case RowAct(Reserve(tokens)) => SumsAppend(handles, Handle(tokens, false, 0));
    case RowAct(Settle(k, actual)) =>
      if !handles[k].settled {
        SettleNeverFailsItsGuards(r, handles, k, actual);
        SumsSettle(handles, k, Charge(handles[k], actual));
      }
    case _ =>
  }

  /** What a recalibration takes off the tokens used. */
  function TakenOffBy(r: Row, a: RowAction): int {
    if a.Recalibrate? then r.used - RowRecalibrate(r, a.measured).used else 0
  }

  ghost predicate RowEnabled(r: Row, handles: seq<Handle>, a: RowAction) {
    match a
    case RowAct(act) => Enabled(System(Memory(0, 0), r, handles), act)
    case Recalibrate(measured) => 0 <= measured
    case SetOpen(_) => true
  }

  ghost predicate RowLegal(r: Row, handles: seq<Handle>, actions: seq<RowAction>)
    decreases |actions|
  {
    actions == [] ||
    (RowEnabled(r, handles, actions[0])
     && RowLegal(RowStep(r, handles, actions[0]).0, RowStep(r, handles, actions[0]).1, actions[1..]))
  }

  ghost function RowRun(r: Row, handles: seq<Handle>, actions: seq<RowAction>): (Row, seq<Handle>)
    requires RowLegal(r, handles, actions)
    decreases |actions|
  {
    if actions == [] then (r, handles)
    else RowRun(RowStep(r, handles, actions[0]).0, RowStep(r, handles, actions[0]).1, actions[1..])
  }

  /** used + reserved never passes the cap and reserved is the sum of what is not settled,
      in every run, recalibrations at any point included. */
  lemma {:induction false} CapHoldsWithRecalibration(r: Row, handles: seq<Handle>, actions: seq<RowAction>)
    requires RowOk(r, handles) && RowLegal(r, handles, actions)
    ensures RowOk(RowRun(r, handles, actions).0, RowRun(r, handles, actions).1)
    ensures RowRun(r, handles, actions).0.budget == r.budget
    decreases |actions|
  {
    hide RowOk, RowStep;
    if actions != [] {
      RowStepKeepsCap(r, handles, actions[0]);
      CapHoldsWithRecalibration(RowStep(r, handles, actions[0]).0, RowStep(r, handles, actions[0]).1, actions[1..]);
    }
  }

  // ---- true spend ----

  /** What the calls behind the reservations really cost, never more than they are charged
      or, before settlement, have reserved. */
  ghost predicate Covered(handles: seq<Handle>, spent: seq<int>) {
    |spent| == |handles| && forall i :: 0 <= i < |handles| ==>
      spent[i] <= if handles[i].settled then handles[i].charge else handles[i].tokens
  }

  function Sum(xs: seq<int>): int {
    if xs == [] then 0 else Sum(xs[..|xs| - 1]) + xs[|xs| - 1]
  }

  lemma {:induction false} SpendIsAccounted(handles: seq<Handle>, spent: seq<int>)
    requires Covered(handles, spent)
    ensures Sum(spent) <= Charged(handles) + Outstanding(handles)
  {
    if handles != [] {
      SpendIsAccounted(handles[..|handles| - 1], spent[..|spent| - 1]);
    }
  }

  /** What all recalibrations of a run take off. */
  ghost function TakenOff(r: Row, handles: seq<Handle>, actions: seq<RowAction>): int
    requires RowLegal(r, handles, actions)
    decreases |actions|
  {
    if actions == [] then 0
    else TakenOffBy(r, actions[0]) + TakenOff(RowStep(r, handles, actions[0]).0, RowStep(r, handles, actions[0]).1, actions[1..])
  }

  /** The row counts what was charged, less what recalibrations took off. */
  lemma {:induction false} UsedPlusTakenOff(r: Row, handles: seq<Handle>, actions: seq<RowAction>)
    requires RowOk(r, handles) && RowLegal(r, handles, actions)
    ensures 0 <= TakenOff(r, handles, actions)
    ensures var end := RowRun(r, handles, actions);
            end.0.used + TakenOff(r, handles, actions) - Charged(end.1) == r.used - Charged(handles)
    decreases |actions|
  {
    hide RowOk, RowStep, TakenOffBy, Charged;
    if actions != [] {
      RowStepKeepsCap(r, handles, actions[0]);
      UsedPlusTakenOff(RowStep(r, handles, actions[0]).0, RowStep(r, handles, actions[0]).1, actions[1..]);
    }
  }

  /** Whatever turns run side by side, the true spend of a conversation stays under its cap
      plus what recalibrations took off, so under its cap where none lowers the row. */
  lemma {:induction false} SpendStaysUnderTheCap(r: Row, handles: seq<Handle>, actions: seq<RowAction>, spent: seq<int>)
    requires RowOk(r, handles) && r.used == Charged(handles) && RowLegal(r, handles, actions)
    requires Covered(RowRun(r, handles, actions).1, spent)
    ensures Sum(spent) <= r.budget + TakenOff(r, handles, actions)
  {
    hide Charged, Outstanding, Covered;
    CapHoldsWithRecalibration(r, handles, actions);
    UsedPlusTakenOff(r, handles, actions);
    SpendIsAccounted(RowRun(r, handles, actions).1, spent);
  }
}

/** The bounded agent loop of internal/agent/runner.go against an arbitrary model, arbitrary
    tools and interruptions at any point. */
module Runner {
  import opened Domain
  import opened ToolCallIds

  const RESPOND := "respond_to_customer"
  const ESCALATE := "escalate_to_human"
  const CREATE := "create_booking"
  const MAX_CORRECTIONS := 2
  const MAX_RUNES := 2000

  const HANDED_OVER := "I\U{2019}ve handed this conversation to a person. The automated agent will not take further actions."
  const REFUSED_SAFELY := "I couldn\U{2019}t perform that action safely, so I\U{2019}ve handed this conversation to a person."

  /** Limits and registered tools, as NewRunner admits them. */
  datatype Config = Config(max: nat, registered: set<string>, hasExecutor: bool) {
    predicate Valid() {
      0 < max && RESPOND in registered
    }
  }

  datatype Reply = ModelFailed | Reply(role: string, content: string, calls: seq<Call>)

  datatype ToolStatus = Succeeded | Failed | Refused | ConfirmationRequired

  /** What an executor may return: an error, an unreadable result, no known status. */
  datatype Execution = Execution(status: Option<ToolStatus>, isError: bool, committed: bool, readable: bool, failed: bool)

  datatype Answer = Answer(disposition: string, message: string)

  datatype Event =
    | ModelCalled(iteration: nat, calls: seq<Call>)
    | Executed(iteration: nat, call: Call, status: ToolStatus, committed: bool)
    | Denied(iteration: nat, call: Call)
    | Skipped(iteration: nat, call: Call)
    | Corrected(iteration: nat)
    | Responded(iteration: nat, call: Call, answer: Answer)

  type Log = seq<Event>

  datatype Point = AtIteration | AtReserve | AtSettle | AtModelTrace | AtCall | AtSkip | AtToolStart | AtToolEnd
                 | AtResponseStart | AtResponseEnd

  /** Everything outside the loop. Model and tools may answer by all that happened before;
      `stops` is a deadline, an exhausted budget or a failed trace write. */
  datatype World = World(model: Log -> Reply, tool: (Log, Call) -> Execution, stops: (Log, Point) -> bool,
                         decode: string -> Option<Answer>, isObject: string -> bool, blank: string -> bool)

  datatype Error = NoConversation | Interrupted | ModelError | WrongRole | TerminalProtocol | IterationLimit

  datatype Turn = Turn(message: Option<string>, error: Option<Error>, committed: bool)

  // ---- pieces of the loop ----

  const NAMESPACE := "default_api."

  /** The one spelling of a registered name that is accepted besides the name itself. */
  function NormalName(cfg: Config, name: string): (n: string)
    ensures forall r :: r in cfg.registered && name == "default_api." + r ==> n == r
    ensures n == name || (n in cfg.registered && name == "default_api." + n)
  {
    if |NAMESPACE| <= |name| && name[..|NAMESPACE|] == NAMESPACE && name[|NAMESPACE|..] in cfg.registered
    then name[|NAMESPACE|..] else name
  }

  function NormalNames(cfg: Config, calls: seq<Call>): seq<Call> {
    seq(|calls|, i requires 0 <= i < |calls| => calls[i].(name := NormalName(cfg, calls[i].name)))
  }

  function FinalStatus(e: Execution): ToolStatus {
    if e.failed || !e.readable then Failed
    else if e.status.Some? then e.status.value
    else if e.isError then Failed else Succeeded
  }

  /** executeTool: only a registered call with an object for arguments reaches the executor. */
  function ToolEvent(cfg: Config, w: World, log: Log, iteration: nat, call: Call): Event {
    if call.name !in cfg.registered || !w.isObject(call.args) || !cfg.hasExecutor then Denied(iteration, call)
    else
      var e := w.tool(log, call);
      Executed(iteration, call, FinalStatus(e), e.committed)
  }

  predicate ValidAnswer(w: World, a: Answer) {
    a.disposition in {"complete", "clarification_needed"} && !w.blank(a.message) && |a.message| <= MAX_RUNES
  }

  /** A response that may be delivered: a terminal call alone, no prose beside it, and arguments
      that decode to an answer of a known disposition with a message that is neither blank nor
      longer than 2000 characters. */
  ghost predicate GoodTerminal(w: World, reply: Reply, calls: seq<Call>) {
    && reply.Reply? && |calls| == 1 && calls[0].name == "respond_to_customer" && w.blank(reply.content)
    && w.decode(calls[0].args).Some?
    && var a := w.decode(calls[0].args).value;
       (a.disposition == "complete" || a.disposition == "clarification_needed") && !w.blank(a.message) && |a.message| <= 2000
  }

  predicate HasTerminal(calls: seq<Call>) {
    exists i :: 0 <= i < |calls| && calls[i].name == RESPOND
  }

  // ---- what a log may look like ----

  /** The customer or a person has to act before anything else may. */
  predicate Decides(e: Event) {
    e.Executed? && (e.status in {Refused, ConfirmationRequired} || (e.status == Succeeded && e.call.name == ESCALATE))
  }

  ghost predicate Decided(log: Log) {
    exists i :: 0 <= i < |log| && Decides(log[i])
  }

  ghost predicate NoneAfterDecision(log: Log) {
    forall i, j :: 0 <= i < j < |log| && Decides(log[i]) ==> !log[j].Executed?
  }

  predicate IsBatch(e: Event, iteration: nat, call: Call) {
    e.ModelCalled? && e.iteration == iteration && call in e.calls && !HasTerminal(e.calls)
  }

  ghost predicate PlacedAt(cfg: Config, log: Log, j: nat)
    requires j < |log|
  {
    log[j].Executed? ==>
      && log[j].iteration < cfg.max && log[j].call.name in cfg.registered && log[j].call.name != RESPOND
      && exists i :: 0 <= i < j && IsBatch(log[i], log[j].iteration, log[j].call)
  }

  /** Tools run only for calls of a response without a terminal call, never in the last iteration. */
  ghost predicate Placed(cfg: Config, log: Log) {
    forall j :: 0 <= j < |log| ==> PlacedAt(cfg, log, j)
  }

  /** One response per iteration, in order. */
  ghost predicate InOrder(log: Log) {
    forall i, j :: 0 <= i < j < |log| && log[i].ModelCalled? && log[j].ModelCalled? ==> log[i].iteration < log[j].iteration
  }

  ghost predicate OwnIds(log: Log) {
    forall i, j :: 0 <= i < j < |log| && log[i].Executed? && log[j].Executed? ==> log[i].call.id != log[j].call.id
  }

  function ModelCalls(log: Log): nat {
    if log == [] then 0 else ModelCalls(log[..|log| - 1]) + if log[|log| - 1].ModelCalled? then 1 else 0
  }

  function Corrections(log: Log): nat {
    if log == [] then 0 else Corrections(log[..|log| - 1]) + if log[|log| - 1].Corrected? then 1 else 0
  }

  predicate Books(e: Event) {
    e.Executed? && e.committed && e.call.name == CREATE
  }

  ghost predicate Booked(log: Log) {
    exists i :: 0 <= i < |log| && Books(log[i])
  }

  ghost predicate Sound(cfg: Config, log: Log) {
    NoneAfterDecision(log) && Placed(cfg, log) && InOrder(log) && OwnIds(log)
  }

  predicate Escalates(e: Event) {
    e.Executed? && e.status == Succeeded && e.call.name == ESCALATE
  }

  predicate Refuses(e: Event) {
    e.Executed? && e.status == Refused
  }

  ghost predicate AnyEscalates(log: Log) {
    exists i :: 0 <= i < |log| && Escalates(log[i])
  }

  ghost predicate AnyRefuses(log: Log) {
    exists i :: 0 <= i < |log| && Refuses(log[i])
  }

  /** What a turn without an error delivers: the answer just given, or the text for a hand-off,
      which speaks of a refusal exactly when nothing was handed over on request. */
  ghost predicate Delivered(w: World, log: Log, message: string) {
    && log != []
    && if log[|log| - 1].Responded? then message == log[|log| - 1].answer.message
       else
         && !log[|log| - 1].ModelCalled?
         && (if AnyEscalates(log) then message == HANDED_OVER else AnyRefuses(log) && message == REFUSED_SAFELY)
  }

  // ---- what each event tells ----

  /** The calls of an event are those the model returned, with normal names and own ids. */
  ghost predicate FromReply(cfg: Config, reply: Reply, calls: seq<Call>) {
    if reply.ModelFailed? then calls == []
    else |calls| == |reply.calls| && forall k :: 0 <= k < |calls| ==>
           calls[k] == Call(calls[k].id, NormalName(cfg, reply.calls[k].name), reply.calls[k].args)
  }

  /** An event that follows from all that was before it: the model's reply, the tool's own
      result, a skip after a decision, a correction of a response that called for one. */
  ghost predicate Follows(cfg: Config, w: World, past: Log, e: Event) {
    match e
    case ModelCalled(_, calls) => FromReply(cfg, w.model(past), calls)
    case Executed(_, call, status, committed) =>
      && !Decided(past) && call.name in cfg.registered && w.isObject(call.args) && cfg.hasExecutor
      && TellsResult(w.tool(past, call), status, committed)
    case Denied(_, call) => !Decided(past) && (call.name !in cfg.registered || !w.isObject(call.args) || !cfg.hasExecutor)
    case Skipped(_, _) => Decided(past)
    case Corrected(_) =>
      && past != [] && past[|past| - 1].ModelCalled? && !HasTerminal(past[|past| - 1].calls)
      && (past[|past| - 1].calls == [] || Decided(past))
    case Responded(iteration, call, answer) =>
      && past != [] && past[|past| - 1] == ModelCalled(iteration, [call])
      && GoodTerminal(w, w.model(past[..|past| - 1]), [call]) && w.decode(call.args) == Some(answer)
  }

  /** The result of an executor as the log tells it: an error or an unreadable result is a failure,
      a status of its own counts, and the committed flag is the executor's. */
  predicate TellsResult(r: Execution, status: ToolStatus, committed: bool) {
    && committed == r.committed
    && (r.failed || !r.readable ==> status == Failed)
    && (!r.failed && r.readable && r.status.Some? ==> status == r.status.value)
    && (!r.failed && r.readable && r.status.None? ==> status == if r.isError then Failed else Succeeded)
  }

  ghost predicate Truthful(cfg: Config, w: World, log: Log) {
    forall j :: 0 <= j < |log| ==> Follows(cfg, w, log[..j], log[j])
  }

  lemma GrowTruth(cfg: Config, w: World, log: Log, e: Event)
    requires Truthful(cfg, w, log) && Follows(cfg, w, log, e)
    ensures Truthful(cfg, w, log + [e])
  {
    hide Follows;
    var all := log + [e];
    forall j | 0 <= j < |all|
      ensures Follows(cfg, w, all[..j], all[j])
    {
      assert j < |log| ==> all[..j] == log[..j] && all[j] == log[j];
      assert all[..|log|] == log;
    }
  }

  predicate IsFor(e: Event, call: Call) {
    (e.Executed? || e.Denied? || e.Skipped?) && e.call == call
  }

  /** A response is dealt with: corrected, or each of its calls has its event, in order. */
  ghost predicate DealtWith(log: Log, i: nat)
    requires i < |log|
  {
    log[i].ModelCalled? ==>
      || (i + 1 < |log| && log[i + 1].Corrected?)
      || (i + |log[i].calls| < |log| && forall k :: 0 <= k < |log[i].calls| ==> IsFor(log[i + 1 + k], log[i].calls[k]))
  }

  ghost predicate AllDealtWith(log: Log) {
    forall i :: 0 <= i < |log| ==> DealtWith(log, i)
  }

  /** The model is not asked again before its last response is dealt with. */
  ghost predicate AskedInTurn(log: Log) {
    forall i, j :: 0 <= i < j < |log| && log[j].ModelCalled? ==> DealtWith(log, i)
  }

  lemma DealtWithStays(log: Log, more: Log, i: nat)
    requires i < |log| && DealtWith(log, i)
    ensures DealtWith(log + more, i)
  {
    var all := log + more;
    assert all[i] == log[i];
    if log[i].ModelCalled? {
      if i + 1 < |log| && log[i + 1].Corrected? {
        assert all[i + 1] == log[i + 1];
      } else {
        assert forall m :: i < m < |log| ==> all[m] == log[m];
      }
    }
  }

  /** After a new response only that response is open. */
  lemma OneOpen(log: Log, e: Event)
    requires AllDealtWith(log) && AskedInTurn(log) && e.ModelCalled?
    ensures AskedInTurn(log + [e])
    ensures forall i :: 0 <= i < |log| ==> DealtWith(log + [e], i)
  {
    hide DealtWith;
    forall i | 0 <= i < |log|
      ensures DealtWith(log + [e], i)
    {
      DealtWithStays(log, [e], i);
    }
  }

  /** Dealing with the open response closes it. */
  lemma Closed(log: Log, more: Log)
    requires log != [] && log[|log| - 1].ModelCalled? && AskedInTurn(log)
    requires forall i :: 0 <= i < |log| - 1 ==> DealtWith(log, i)
    requires forall k :: 0 <= k < |more| ==> !more[k].ModelCalled?
    ensures AskedInTurn(log + more)
    ensures Closes(log, more) ==> AllDealtWith(log + more)
  {
    hide DealtWith;
    var all := log + more;
    var last := |log| - 1;
    forall i | 0 <= i < last
      ensures DealtWith(all, i)
    {
      DealtWithStays(log, more, i);
    }
    NoResponseAfter(log, more);
    if Closes(log, more) {
      ClosedLast(log, more);
      forall i | last < i < |all|
        ensures DealtWith(all, i)
      {
        NotAResponse(all, i);
      }
    }
  }

  /** The events are a correction, or one for each call of the last response. */
  ghost predicate Closes(log: Log, more: Log)
    requires log != [] && log[|log| - 1].ModelCalled?
  {
    || (more != [] && more[0].Corrected?)
    || (|more| == |log[|log| - 1].calls| && forall k :: 0 <= k < |more| ==> IsFor(more[k], log[|log| - 1].calls[k]))
  }

  lemma NoResponseAfter(log: Log, more: Log)
    requires forall k :: 0 <= k < |more| ==> !more[k].ModelCalled?
    ensures forall j :: |log| <= j < |log + more| ==> !(log + more)[j].ModelCalled?
  {
  }

  lemma NotAResponse(log: Log, i: nat)
    requires i < |log| && !log[i].ModelCalled?
    ensures DealtWith(log, i)
  {
  }

  lemma ClosedLast(log: Log, more: Log)
    requires log != [] && log[|log| - 1].ModelCalled?
    requires Closes(log, more)
    ensures DealtWith(log + more, |log| - 1)
  {
    var all := log + more;
    assert all[|log| - 1] == log[|log| - 1];
    assert forall k | 0 <= k < |more| :: all[|log| - 1 + 1 + k] == more[k];
  }

  // ---- growing a log ----

  lemma GrowCounts(log: Log, e: Event)
    ensures ModelCalls(log + [e]) == ModelCalls(log) + if e.ModelCalled? then 1 else 0
    ensures Corrections(log + [e]) == Corrections(log) + if e.Corrected? then 1 else 0
    ensures Booked(log + [e]) <==> Booked(log) || Books(e)
    ensures Decided(log + [e]) <==> Decided(log) || Decides(e)
  {
    var all := log + [e];
    assert all[..|all| - 1] == log;
    assert forall i | 0 <= i < |log| :: all[i] == log[i];
    assert all[|log|] == e;
    if i :| 0 <= i < |log| && Books(log[i]) { assert Books(all[i]); }
    if i :| 0 <= i < |log| && Decides(log[i]) { assert Decides(all[i]); }
    if Books(e) { assert Books(all[|log|]); }
    if Decides(e) { assert Decides(all[|log|]); }
  }

  lemma PlacedStays(cfg: Config, log: Log, e: Event)
    requires Placed(cfg, log)
    ensures forall j :: 0 <= j < |log| ==> PlacedAt(cfg, log + [e], j)
  {
    var all := log + [e];
    forall j | 0 <= j < |log|
      ensures PlacedAt(cfg, all, j)
    {
      assert PlacedAt(cfg, log, j) && all[j] == log[j];
      if all[j].Executed? {
        var i :| 0 <= i < j && IsBatch(log[i], log[j].iteration, log[j].call);
        assert all[i] == log[i];
      }
    }
  }

  /** Events that run no tool keep a log sound. */
  lemma GrowQuietly(cfg: Config, log: Log, e: Event)
    requires Sound(cfg, log) && !e.Executed?
    requires e.ModelCalled? ==> forall i :: 0 <= i < |log| && log[i].ModelCalled? ==> log[i].iteration < e.iteration
    ensures Sound(cfg, log + [e])
  {
    hide IsBatch, Decides;
    PlacedStays(cfg, log, e);
    assert PlacedAt(cfg, log + [e], |log|);
  }

  /** Running a tool keeps a log sound where nothing is decided yet. */
  lemma GrowByTool(cfg: Config, log: Log, e: Event, batch: nat)
    requires Sound(cfg, log) && !Decided(log) && e.Executed? && e.iteration < cfg.max
    requires e.call.name in cfg.registered && e.call.name != RESPOND
    requires batch < |log| && IsBatch(log[batch], e.iteration, e.call)
    requires forall i :: 0 <= i < |log| && log[i].Executed? ==> log[i].call.id != e.call.id
    ensures Sound(cfg, log + [e])
  {
    hide Decides;
    PlacedStays(cfg, log, e);
    var all := log + [e];
    assert PlacedAt(cfg, all, |log|) by {
      assert all[batch] == log[batch] && all[|log|] == e;
    }
    assert Placed(cfg, all);
  }

  // ---- the calls of one response ----

  /** All responses so far came in earlier iterations, or in this one. */
  ghost predicate UpTo(log: Log, iteration: nat) {
    forall i :: 0 <= i < |log| && log[i].ModelCalled? ==> log[i].iteration <= iteration
  }

  /** No tool call that ran so far has one of these ids. */
  ghost predicate Unused(log: Log, calls: seq<Call>, from: nat) {
    forall i, k :: 0 <= i < |log| && log[i].Executed? && from <= k < |calls| ==> log[i].call.id != calls[k].id
  }

  ghost predicate IdsWithin(log: Log, used: set<string>) {
    forall i :: 0 <= i < |log| && log[i].Executed? ==> log[i].call.id in used
  }

  /** The log stands within the batch that event `batch` holds, before call `k`. */
  ghost predicate InBatch(cfg: Config, log: Log, batch: nat, iteration: nat, calls: seq<Call>, k: nat, used: set<string>) {
    && Sound(cfg, log) && UpTo(log, iteration) && Unused(log, calls, k) && IdsWithin(log, used)
    && batch < |log| && log[batch] == ModelCalled(iteration, calls)
  }

  ghost predicate BatchReady(cfg: Config, iteration: nat, calls: seq<Call>, used: set<string>) {
    && iteration < cfg.max && !HasTerminal(calls) && DistinctIds(calls)
    && forall k :: 0 <= k < |calls| ==> calls[k].id in used
  }

  lemma NextInBatch(cfg: Config, log: Log, batch: nat, iteration: nat, calls: seq<Call>, k: nat, used: set<string>, e: Event)
    requires InBatch(cfg, log, batch, iteration, calls, k, used) && BatchReady(cfg, iteration, calls, used) && k < |calls|
    requires e.Executed? || e.Denied? || e.Skipped?
    requires e.Executed? ==> e.iteration == iteration && e.call == calls[k] && e.call.name in cfg.registered && !Decided(log)
    ensures InBatch(cfg, log + [e], batch, iteration, calls, k + 1, used)
  {
    hide Decided, Sound;
    var all := log + [e];
    if e.Executed? {
      assert calls[k] in calls && e.call.name != RESPOND;
      GrowByTool(cfg, log, e, batch);
    } else {
      GrowQuietly(cfg, log, e);
    }
    assert UpTo(all, iteration) && IdsWithin(all, used);
    assert Unused(all, calls, k + 1);
  }

  /** The loop over a response's calls. Once a result decides the turn, the rest is skipped. */
  method RunCalls(cfg: Config, w: World, log0: Log, iteration: nat, calls: seq<Call>, ghost used: set<string>, committed0: bool)
    returns (log: Log, stopped: bool, refused: bool, escalated: bool, pending: bool, committed: bool, ghost more: Log)
    requires Truthful(cfg, w, log0)
    requires BatchReady(cfg, iteration, calls, used) && !Decided(log0) && (committed0 <==> Booked(log0))
    requires log0 != [] && InBatch(cfg, log0, |log0| - 1, iteration, calls, 0, used)
    ensures Sound(cfg, log) && UpTo(log, iteration) && IdsWithin(log, used)
    ensures ModelCalls(log) == ModelCalls(log0) && Corrections(log) == Corrections(log0)
    ensures committed <==> Booked(log)
    ensures !stopped ==> (refused <==> AnyRefuses(log)) && (escalated <==> AnyEscalates(log))
    ensures !stopped ==> (Decided(log) <==> refused || escalated || pending)
    ensures Truthful(cfg, w, log) && log == log0 + more && |more| <= |calls|
    ensures forall k :: 0 <= k < |more| ==> IsFor(more[k], calls[k])
    ensures if stopped then exists p :: w.stops(log, p) else |more| == |calls|
  {
    hide InBatch, BatchReady, Decided, Booked, ModelCalls, Corrections, Sound, UpTo, IdsWithin, Truthful, AnyRefuses, AnyEscalates;
    UndecidedIsQuiet(log0);
    log, committed, more := log0, committed0, [];
    stopped, refused, escalated, pending := false, false, false, false;
    for k := 0 to |calls|
      invariant InBatch(cfg, log, |log0| - 1, iteration, calls, k, used)
      invariant ModelCalls(log) == ModelCalls(log0) && Corrections(log) == Corrections(log0)
      invariant committed <==> Booked(log)
      invariant Decided(log) <==> refused || escalated || pending
      invariant (refused <==> AnyRefuses(log)) && (escalated <==> AnyEscalates(log))
      invariant Truthful(cfg, w, log) && log == log0 + more && |more| == k
      invariant forall i :: 0 <= i < k ==> IsFor(more[i], calls[i])
    {
      BatchIsSound(cfg, log, |log0| - 1, iteration, calls, k, used);
      var call := calls[k];
      if w.stops(log, AtCall) {
        stopped := true;
        return;
      }
      var skip := refused || escalated || pending;
      if w.stops(log, if skip then AtSkip else AtToolStart) {
        stopped := true;
        return;
      }
      var e := if skip then Skipped(iteration, call) else ToolEvent(cfg, w, log, iteration, call);
      NextInBatch(cfg, log, |log0| - 1, iteration, calls, k, used, e);
      GrowCounts(log, e);
      LastEvent(log, e);
      GrowTruth(cfg, w, log, e);
      log, more := log + [e], more + [e];
      committed := committed || Books(e);
      if !skip && w.stops(log, AtToolEnd) {
        BatchIsSound(cfg, log, |log0| - 1, iteration, calls, k + 1, used);
        stopped := true;
        return;
      }
      refused := refused || Refuses(e);
      escalated := escalated || Escalates(e);
      pending := pending || (e.Executed? && e.status == ConfirmationRequired);
    }
    BatchIsSound(cfg, log, |log0| - 1, iteration, calls, |calls|, used);
  }

  lemma BatchIsSound(cfg: Config, log: Log, batch: nat, iteration: nat, calls: seq<Call>, k: nat, used: set<string>)
    requires InBatch(cfg, log, batch, iteration, calls, k, used)
    ensures Sound(cfg, log) && UpTo(log, iteration) && IdsWithin(log, used)
  {
  }

  lemma UndecidedIsQuiet(log: Log)
    requires !Decided(log)
    ensures !AnyRefuses(log) && !AnyEscalates(log)
  {
    if i :| 0 <= i < |log| && Refuses(log[i]) { assert Decides(log[i]); }
    if i :| 0 <= i < |log| && Escalates(log[i]) { assert Decides(log[i]); }
  }

  lemma LastEvent(log: Log, e: Event)
    ensures AnyRefuses(log + [e]) <==> AnyRefuses(log) || Refuses(e)
    ensures AnyEscalates(log + [e]) <==> AnyEscalates(log) || Escalates(e)
  {
    var all := log + [e];
    assert all[|log|] == e && forall i | 0 <= i < |log| :: all[i] == log[i];
    if i :| 0 <= i < |log| && Refuses(log[i]) { assert Refuses(all[i]); }
    if i :| 0 <= i < |log| && Escalates(log[i]) { assert Escalates(all[i]); }
    if Refuses(e) { assert Refuses(all[|log|]); }
    if Escalates(e) { assert Escalates(all[|log|]); }
  }

  // ---- the turn ----

  /** Where the loop stands before an iteration. */
  ghost predicate Standing(cfg: Config, log: Log, iteration: nat, corrections: nat, pending: bool, used: set<string>) {
    && Sound(cfg, log) && 1 <= iteration && UpTo(log, iteration - 1) && IdsWithin(log, used)
    && ModelCalls(log) == iteration - 1 && Corrections(log) == corrections <= MAX_CORRECTIONS
    && (Decided(log) <==> pending)
  }

  lemma AfterModel(cfg: Config, log: Log, iteration: nat, corrections: nat, pending: bool, seen: set<string>, raw: seq<Call>, calls: seq<Call>)
    requires Standing(cfg, log, iteration, corrections, pending, seen)
    requires |calls| == |raw| && forall i :: 0 <= i < |raw| ==> NormalAt(raw, calls, seen, i)
    ensures var all := log + [ModelCalled(iteration, calls)];
            && Sound(cfg, all) && ModelCalls(all) == iteration && Corrections(all) == corrections
            && (Decided(all) <==> pending) && (Booked(all) <==> Booked(log))
            && DistinctIds(calls) && InBatch(cfg, all, |log|, iteration, calls, 0, seen + IdsOf(calls))
  {
    hide Decided, Booked, ModelCalls, Corrections;
    var e := ModelCalled(iteration, calls);
    NormalIdsDiffer(raw, calls, seen);
    GrowCounts(log, e);
    GrowQuietly(cfg, log, e);
    hide Sound;
    var all := log + [e];
    assert UpTo(all, iteration);
    assert IdsWithin(all, seen + IdsOf(calls));
    assert Unused(all, calls, 0);
  }

  lemma AfterCorrection(cfg: Config, log: Log, iteration: nat, corrections: nat, pending: bool, used: set<string>)
    requires Sound(cfg, log) && UpTo(log, iteration) && IdsWithin(log, used) && ModelCalls(log) == iteration
    requires Corrections(log) == corrections < MAX_CORRECTIONS && (Decided(log) <==> pending)
    ensures Standing(cfg, log + [Corrected(iteration)], iteration + 1, corrections + 1, pending, used)
    ensures Booked(log + [Corrected(iteration)]) <==> Booked(log)
  {
    hide Decided, Booked, ModelCalls, Corrections;
    GrowCounts(log, Corrected(iteration));
    GrowQuietly(cfg, log, Corrected(iteration));
    hide Sound;
  }

  /** What holds of the log of every turn, however it ended. */
  ghost predicate Bounded(cfg: Config, log: Log) {
    Sound(cfg, log) && ModelCalls(log) <= cfg.max && Corrections(log) <= MAX_CORRECTIONS
  }

  lemma StandingIsBounded(cfg: Config, log: Log, iteration: nat, corrections: nat, pending: bool, used: set<string>)
    requires Standing(cfg, log, iteration, corrections, pending, used) && iteration <= cfg.max + 1
    ensures Bounded(cfg, log) && ModelCalls(log) == iteration - 1
  {
  }

  method Run(cfg: Config, w: World, conversation: string) returns (turn: Turn, log: Log)
    requires cfg.Valid()
    ensures Bounded(cfg, log)
    ensures turn.committed <==> Booked(log)
    ensures turn.message.Some? <==> turn.error.None?
    ensures turn.message.Some? ==> Delivered(w, log, turn.message.value)
    ensures Told(cfg, w, log) && Explained(cfg, w, log, turn)
    ensures EndsInTerminal(log) && turn.error !in {Some(Interrupted), Some(WrongRole)} ==>
              (turn.message.Some? <==> GoodTerminal(w, LastReply(w, log), LastCalls(log)))
  {
    hide GoodTerminal, AnyRefuses, AnyEscalates, NormalName, GivenName, LastReply, LastCalls;
    hide Decided, Booked, ModelCalls, Corrections, Sound, UpTo, IdsWithin, InBatch, Delivered, NormalAt, DistinctIds, BatchReady, Bounded, Standing;
    hide AskedInTurn, Truthful, DealtWith, AllDealtWith, FromReply, HasTerminal, NormalNames;
    log := [];
    EmptyLog(cfg);
    if conversation == "" {
      return Turn(None, Some(NoConversation), false), log;
    }
    var used: set<string>, corrections, pending, committed := {}, 0, false, false;
    var iteration := 1;
    while true
      invariant iteration <= cfg.max && Standing(cfg, log, iteration, corrections, pending, used)
      invariant corrections <= MAX_CORRECTIONS && (committed <==> Booked(log))
      invariant Told(cfg, w, log) && AllDealtWith(log)
      decreases cfg.max - iteration
    {
      StandingIsBounded(cfg, log, iteration, corrections, pending, used);
      if w.stops(log, AtIteration) || w.stops(log, AtReserve) {
        return Turn(None, Some(Interrupted), committed), log;
      }
      var reply := w.model(log);
      var raw := if reply.Reply? then NormalNames(cfg, reply.calls) else [];
      var calls, nowUsed := NormalizeToolCallIds(raw, iteration, used);
      AfterModel(cfg, log, iteration, corrections, pending, used, raw, calls);
      CallsFromReply(cfg, reply, raw, calls, used);
      NewResponse(cfg, w, log, ModelCalled(iteration, calls));
      ghost var past := log;
      log, used := log + [ModelCalled(iteration, calls)], nowUsed;
      BatchIsSound(cfg, log, |log| - 1, iteration, calls, 0, used);
      CountsAreBounded(cfg, log);
      NoCallsNoTerminal();
      if w.stops(log, AtSettle) || w.stops(log, AtModelTrace) {
        return Turn(None, Some(Interrupted), committed), log;
      }
      if reply.ModelFailed? {
        assert calls == [];
        return Turn(None, Some(ModelError), committed), log;
      }
      if reply.role != "" && reply.role != "assistant" {
        return Turn(None, Some(WrongRole), committed), log;
      }
      var terminal := HasTerminal(calls);
      if calls == [] || (!terminal && pending) {
        if corrections + 1 > MAX_CORRECTIONS || iteration == cfg.max {
          return Turn(None, Some(TerminalProtocol), committed), log;
        }
        AfterCorrection(cfg, log, iteration, corrections, pending, used);
        GrowTruth(cfg, w, log, Corrected(iteration));
        Closed(log, [Corrected(iteration)]);
        log, corrections := log + [Corrected(iteration)], corrections + 1;
      } else if terminal {
        turn, log := Respond(cfg, w, log, iteration, reply.content, calls, committed);
        return;
      } else if iteration == cfg.max {
        return Turn(None, Some(IterationLimit), committed), log;
      } else {
        ReadyBatch(cfg, iteration, calls, used);
        var stopped, refused, escalated, proposed;
        ghost var more, open := [], log;
        log, stopped, refused, escalated, proposed, committed, more := RunCalls(cfg, w, log, iteration, calls, used, committed);
        CountsAreBounded(cfg, log);
        Closed(open, more);
        if stopped {
          return Turn(None, Some(Interrupted), committed), log;
        }
        if refused || escalated {
          DeliversHandoff(w, open, more, refused, escalated);
          return Turn(Some(if refused && !escalated then REFUSED_SAFELY else HANDED_OVER), None, committed), log;
        }
        pending := proposed;
        NextStanding(cfg, log, iteration, corrections, pending, used);
      }
      iteration := iteration + 1;
    }
  }

  /** Every event follows from those before it, and no response is passed over. */
  ghost predicate Told(cfg: Config, w: World, log: Log) {
    Truthful(cfg, w, log) && AskedInTurn(log)
  }

  ghost predicate OneOpenResponse(cfg: Config, w: World, log: Log) {
    && Told(cfg, w, log) && log != [] && log[|log| - 1].ModelCalled?
    && forall i :: 0 <= i < |log| - 1 ==> DealtWith(log, i)
  }

  /** Each error has its cause. */
  ghost predicate Explained(cfg: Config, w: World, log: Log, turn: Turn) {
    match turn.error
    case None => true
    case Some(Interrupted) => exists p :: w.stops(log, p)
    case Some(ModelError) => log != [] && w.model(log[..|log| - 1]).ModelFailed?
    case Some(IterationLimit) =>
      && ModelCalls(log) == cfg.max && log != [] && log[|log| - 1].ModelCalled?
      && log[|log| - 1].calls != [] && !HasTerminal(log[|log| - 1].calls) && !Decided(log)
    case Some(TerminalProtocol) =>
      && log != [] && log[|log| - 1].ModelCalled?
      && (if HasTerminal(log[|log| - 1].calls) then !GoodTerminal(w, w.model(log[..|log| - 1]), log[|log| - 1].calls)
          else (log[|log| - 1].calls == [] || Decided(log)) && (Corrections(log) == 2 || ModelCalls(log) == cfg.max))
    case Some(WrongRole) => log != [] && w.model(log[..|log| - 1]).Reply? && w.model(log[..|log| - 1]).role !in {"", "assistant"}
    case Some(NoConversation) => log == []
  }

  lemma NoCallsNoTerminal()
    ensures !HasTerminal([])
  {
  }

  lemma CallsFromReply(cfg: Config, reply: Reply, raw: seq<Call>, calls: seq<Call>, seen: set<string>)
    requires raw == if reply.Reply? then NormalNames(cfg, reply.calls) else []
    requires |calls| == |raw| && forall i :: 0 <= i < |raw| ==> NormalAt(raw, calls, seen, i)
    ensures FromReply(cfg, reply, calls)
  {
    hide IdsOf, NormalName, Unusable;
    forall k | 0 <= k < |calls|
      ensures calls[k] == raw[k].(id := calls[k].id)
    {
      assert NormalAt(raw, calls, seen, k);
    }
  }

  lemma NewResponse(cfg: Config, w: World, log: Log, e: Event)
    requires Told(cfg, w, log) && AllDealtWith(log) && e.ModelCalled? && FromReply(cfg, w.model(log), e.calls)
    ensures OneOpenResponse(cfg, w, log + [e]) && (log + [e])[..|log|] == log
  {
    hide Truthful, AskedInTurn, DealtWith, FromReply;
    GrowTruth(cfg, w, log, e);
    OneOpen(log, e);
  }

  lemma EmptyLog(cfg: Config)
    ensures Standing(cfg, [], 1, 0, false, {}) && !Booked([]) && Bounded(cfg, [])
    ensures AskedInTurn([]) && AllDealtWith([]) && forall w :: Truthful(cfg, w, [])
  {
  }

  lemma CountsAreBounded(cfg: Config, log: Log)
    requires Sound(cfg, log) && ModelCalls(log) <= cfg.max && Corrections(log) <= MAX_CORRECTIONS
    ensures Bounded(cfg, log)
  {
  }

  lemma NextStanding(cfg: Config, log: Log, iteration: nat, corrections: nat, pending: bool, used: set<string>)
    requires Sound(cfg, log) && UpTo(log, iteration) && IdsWithin(log, used)
    requires ModelCalls(log) == iteration && Corrections(log) == corrections <= MAX_CORRECTIONS && (Decided(log) <==> pending)
    ensures Standing(cfg, log, iteration + 1, corrections, pending, used)
  {
    hide Sound, Decided;
  }

  lemma ReadyBatch(cfg: Config, iteration: nat, calls: seq<Call>, used: set<string>)
    requires iteration < cfg.max && !HasTerminal(calls) && DistinctIds(calls) && IdsOf(calls) <= used
    ensures BatchReady(cfg, iteration, calls, used)
  {
    hide DistinctIds, HasTerminal;
    forall k | 0 <= k < |calls|
      ensures calls[k].id in used
    {
      assert calls[k].id in IdsOf(calls);
    }
  }

  lemma DeliversHandoff(w: World, open: Log, more: Log, refused: bool, escalated: bool)
    requires (refused || escalated) && more != []
    requires forall k :: 0 <= k < |more| ==> more[k].Executed? || more[k].Denied? || more[k].Skipped?
    requires (refused <==> AnyRefuses(open + more)) && (escalated <==> AnyEscalates(open + more))
    ensures Delivered(w, open + more, if refused && !escalated then REFUSED_SAFELY else HANDED_OVER)
    ensures !EndsInTerminal(open + more)
  {
    hide AnyRefuses, AnyEscalates;
    assert (open + more)[|open + more| - 1] == more[|more| - 1];
  }

  /** The turn's last response held a terminal call. */
  predicate EndsInTerminal(log: Log) {
    log != [] && (log[|log| - 1].Responded? || (log[|log| - 1].ModelCalled? && HasTerminal(log[|log| - 1].calls)))
  }

  /** The last response of such a turn, as the log tells it and as the model gave it. */
  function LastCalls(log: Log): seq<Call>
    requires EndsInTerminal(log)
  {
    if log[|log| - 1].Responded? then [log[|log| - 1].call] else log[|log| - 1].calls
  }

  function LastReply(w: World, log: Log): Reply
    requires EndsInTerminal(log)
  {
    if log[|log| - 1].Responded? && 2 <= |log| then w.model(log[..|log| - 2]) else w.model(log[..|log| - 1])
  }

  /** The terminal call: delivered exactly when it is alone, without prose and within its
      contract, unless the turn is interrupted. */
  method Respond(cfg: Config, w: World, log0: Log, iteration: nat, content: string, calls: seq<Call>, committed: bool)
    returns (turn: Turn, log: Log)
    requires HasTerminal(calls) && Bounded(cfg, log0) && (committed <==> Booked(log0))
    requires OneOpenResponse(cfg, w, log0) && log0[|log0| - 1] == ModelCalled(iteration, calls)
    requires w.model(log0[..|log0| - 1]).Reply? && content == w.model(log0[..|log0| - 1]).content
    ensures Bounded(cfg, log) && (turn.committed <==> Booked(log)) && Told(cfg, w, log) && Explained(cfg, w, log, turn)
    ensures turn.message.Some? <==> turn.error.None?
    ensures turn.message.Some? ==> Delivered(w, log, turn.message.value)
    ensures turn.error in {None, Some(Interrupted), Some(TerminalProtocol)} && EndsInTerminal(log)
    ensures turn.error != Some(Interrupted) ==>
              (turn.message.Some? <==> GoodTerminal(w, w.model(log0[..|log0| - 1]), calls))
    ensures LastReply(w, log) == w.model(log0[..|log0| - 1]) && LastCalls(log) == calls
  {
    hide Booked, Sound, ModelCalls, Corrections, Decided, AskedInTurn, Truthful, DealtWith;
    log := log0;
    if |calls| != 1 || !w.blank(content) {
      return Turn(None, Some(TerminalProtocol), committed), log;
    }
    var call := calls[0];
    if w.stops(log, AtResponseStart) {
      return Turn(None, Some(Interrupted), committed), log;
    }
    var answer := w.decode(call.args);
    if w.stops(log, AtResponseEnd) {
      return Turn(None, Some(Interrupted), committed), log;
    }
    if answer.None? || !ValidAnswer(w, answer.value) {
      return Turn(None, Some(TerminalProtocol), committed), log;
    }
    var e := Responded(iteration, call, answer.value);
    GrowCounts(log, e);
    GrowQuietly(cfg, log, e);
    GrowTruth(cfg, w, log, e);
    Closed(log, [e]);
    log := log + [e];
    assert log[..|log| - 2] == log0[..|log0| - 1];
    return Turn(Some(answer.value.message), None, committed), log;
  }
}

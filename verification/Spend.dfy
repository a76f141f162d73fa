/** What one model call is charged, against what its provider attempts really cost:
    Complete of internal/llm/openrouter.go, chargeForModelCall of internal/agent/runner.go
    and the estimator of internal/agent/budget.go. */
module Spend {
  import opened Domain

  datatype Usage = Usage(input: int, output: int, total: int)

  /** The provider's total when present, otherwise input plus output. */
  function Total(u: Usage): int {
    if u.total > 0 then u.total else u.input + u.output
  }

  /** One attempt as the adapter sees it, and `cost`, which it does not see. */
  datatype Attempt = Attempt(ok: bool, usage: Usage, retryable: bool, waits: bool, cost: int)

  datatype Response = Response(ok: bool, usage: Usage, incomplete: bool, unknown: int)

  // ---- the retry loop ----

  function AddUsage(t: Usage, u: Usage): Usage {
    Usage(t.input + u.input, t.output + u.output, t.total + Total(u))
  }

  function SumUsage(attempts: seq<Attempt>): Usage {
    if attempts == [] then Usage(0, 0, 0)
    else AddUsage(SumUsage(attempts[..|attempts| - 1]), attempts[|attempts| - 1].usage)
  }

  predicate Unreported(a: Attempt) {
    !a.ok && Total(a.usage) <= 0
  }

  function CountUnreported(attempts: seq<Attempt>): nat {
    if attempts == [] then 0
    else CountUnreported(attempts[..|attempts| - 1]) + if Unreported(attempts[|attempts| - 1]) then 1 else 0
  }

  function Cost(attempts: seq<Attempt>): int {
    if attempts == [] then 0 else Cost(attempts[..|attempts| - 1]) + attempts[|attempts| - 1].cost
  }

  /** The attempts a call makes: it goes on exactly after a retryable failure. */
  predicate IsCall(attempts: seq<Attempt>, max: nat) {
    && 1 <= |attempts| <= max
    && forall i :: 0 <= i < |attempts| - 1 ==> !attempts[i].ok && attempts[i].retryable && attempts[i].waits
  }

  predicate Finished(attempts: seq<Attempt>, max: nat)
    requires IsCall(attempts, max)
  {
    var last := attempts[|attempts| - 1];
    last.ok || |attempts| == max || !last.retryable || !last.waits
  }

  function Summary(attempts: seq<Attempt>): Response
    requires attempts != []
  {
    Response(attempts[|attempts| - 1].ok, SumUsage(attempts), CountUnreported(attempts) > 0, CountUnreported(attempts))
  }

  /** The provider's first answers. */
  function Made(provider: nat -> Attempt, n: nat): seq<Attempt> {
    seq(n, i requires 0 <= i < n => provider(i))
  }

  /** Complete, against a provider that answers attempt after attempt as it likes. */
  method Complete(provider: nat -> Attempt, max: nat) returns (r: Response, made: nat)
    requires 1 <= max
    ensures IsCall(Made(provider, made), max) && Finished(Made(provider, made), max)
    ensures r == Summary(Made(provider, made))
  {
    hide SumUsage, CountUnreported;
    var usage, incomplete, unknown := Usage(0, 0, 0), false, 0;
    NoAttempts();
    made := 0;
    assert Made(provider, 0) == [];
    while true
      invariant made < max && usage == SumUsage(Made(provider, made))
      invariant unknown == CountUnreported(Made(provider, made)) && (incomplete <==> unknown > 0)
      invariant forall i :: 0 <= i < made ==> !provider(i).ok && provider(i).retryable && provider(i).waits
      decreases max - made
    {
      var a := provider(made);
      SumsAppend(Made(provider, made), a);
      assert Made(provider, made) + [a] == Made(provider, made + 1);
      if !a.ok && Total(a.usage) <= 0 {
        incomplete, unknown := true, unknown + 1;
      }
      usage := AddUsage(usage, a.usage);
      made := made + 1;
      if a.ok || made == max || !a.retryable || !a.waits {
        return Response(a.ok, usage, incomplete, unknown), made;
      }
    }
  }

  // ---- the charge ----

  function ChargeFor(r: Response, reserved: int): int {
    var reported := Total(r.usage);
    if !r.ok || reported <= 0 then reserved
    else if !r.incomplete then reported
    else
      var unknown := if r.unknown < 1 then 1 else r.unknown;
      var perAttempt := if r.usage.input <= 0 then reported else r.usage.input;
      var charged := reported + unknown * perAttempt;
      if charged > reserved || charged < reported then reserved else charged
  }

  /** What the accounting relies on: an attempt costs at most the estimate, a reported one
      costs what it reports, an unreported failure at most the prompt, and a reported
      prompt is the prompt. A success may report or be silent. */
  ghost predicate Fair(a: Attempt, prompt: int, estimate: int) {
    && 0 <= a.cost <= estimate && 0 <= prompt && 0 <= a.usage.input && 0 <= a.usage.output && 0 <= a.usage.total
    && (0 < Total(a.usage) ==> a.cost == Total(a.usage))
    && (0 < a.usage.input ==> prompt <= a.usage.input)
    && (a.ok && 0 < Total(a.usage) ==> prompt <= Total(a.usage))
    && (Unreported(a) ==> a.cost <= prompt)
  }

  ghost predicate AllFair(attempts: seq<Attempt>, prompt: int, estimate: int) {
    forall i :: 0 <= i < |attempts| ==> Fair(attempts[i], prompt, estimate)
  }

  predicate Silent(a: Attempt) {
    a.ok && Total(a.usage) <= 0
  }

  ghost predicate SomeReport(attempts: seq<Attempt>) {
    exists i :: 0 <= i < |attempts| && 0 < Total(attempts[i].usage)
  }

  /** The call succeeded without a report although an earlier attempt had reported. */
  ghost predicate SilentAfterReport(attempts: seq<Attempt>)
    requires attempts != []
  {
    Silent(attempts[|attempts| - 1]) && SomeReport(attempts)
  }

  // ---- sums ----

  lemma SumsAppend(front: seq<Attempt>, a: Attempt)
    ensures SumUsage(front + [a]) == AddUsage(SumUsage(front), a.usage)
    ensures CountUnreported(front + [a]) == CountUnreported(front) + if Unreported(a) then 1 else 0
    ensures Cost(front + [a]) == Cost(front) + a.cost
    ensures UnseenCost(front + [a]) == UnseenCost(front) + if Total(a.usage) <= 0 then a.cost else 0
  {
    assert (front + [a])[..|front|] == front;
  }

  lemma NoAttempts()
    ensures SumUsage([]) == Usage(0, 0, 0) && CountUnreported([]) == 0 && Cost([]) == 0 && UnseenCost([]) == 0
  {
  }

  /** What no report tells: unreported failures and a silent success. */
  function UnseenCost(attempts: seq<Attempt>): int {
    if attempts == [] then 0
    else
      var last := attempts[|attempts| - 1];
      UnseenCost(attempts[..|attempts| - 1]) + if Total(last.usage) <= 0 then last.cost else 0
  }

  lemma {:induction false} CostWithinEstimate(attempts: seq<Attempt>, prompt: int, estimate: int)
    requires AllFair(attempts, prompt, estimate)
    ensures 0 <= Cost(attempts) <= |attempts| * estimate
  {
    if attempts != [] {
      CostWithinEstimate(attempts[..|attempts| - 1], prompt, estimate);
      assert |attempts| * estimate == (|attempts| - 1) * estimate + estimate;
    }
  }

  /** True spend is what was reported plus what was not seen. */
  lemma {:induction false} CostSplits(attempts: seq<Attempt>, prompt: int, estimate: int)
    requires AllFair(attempts, prompt, estimate)
    ensures Cost(attempts) == SumUsage(attempts).total + UnseenCost(attempts)
    ensures 0 <= SumUsage(attempts).total && 0 <= UnseenCost(attempts)
    ensures 0 <= SumUsage(attempts).input && 0 <= SumUsage(attempts).output
    ensures 0 < SumUsage(attempts).input ==> prompt <= SumUsage(attempts).input
    ensures 0 < SumUsage(attempts).total <==> SomeReport(attempts)
    ensures !SomeReport(attempts) ==> SumUsage(attempts) == Usage(0, 0, 0)
  {
    hide SumUsage, CountUnreported, Cost, UnseenCost, Fair, SomeReport;
    if attempts == [] {
      NoAttempts();
      NoReport();
    } else {
      var front, last := attempts[..|attempts| - 1], attempts[|attempts| - 1];
      assert attempts == front + [last];
      SumsAppend(front, last);
      CostSplits(front, prompt, estimate);
      FairReport(last, prompt, estimate);
      ReportAppend(front, last);
    }
  }

  lemma NoReport()
    ensures !SomeReport([])
  {
  }

  lemma ReportAppend(front: seq<Attempt>, a: Attempt)
    ensures SomeReport(front + [a]) <==> SomeReport(front) || 0 < Total(a.usage)
  {
    var all := front + [a];
    if i :| 0 <= i < |front| && 0 < Total(front[i].usage) { assert 0 < Total(all[i].usage); }
    assert all[|front|] == a;
  }

  lemma FairReport(a: Attempt, prompt: int, estimate: int)
    requires Fair(a, prompt, estimate)
    ensures 0 <= Total(a.usage) && 0 <= a.usage.input && 0 <= a.usage.output && 0 <= prompt && 0 <= a.cost
    ensures 0 < Total(a.usage) ==> a.cost == Total(a.usage)
    ensures Total(a.usage) <= 0 ==> a.usage == Usage(0, 0, 0)
    ensures 0 < a.usage.input ==> prompt <= a.usage.input
    ensures Unreported(a) ==> a.cost <= prompt
    ensures a.ok && 0 < Total(a.usage) ==> prompt <= Total(a.usage)
  {
  }

  lemma OneMore(n: nat, prompt: int)
    ensures (n + 1) * prompt == n * prompt + prompt
  {
  }

  /** Without a silent success, the unseen spend is at most a prompt per unreported attempt. */
  lemma {:induction false} CostIsReportedPlusUnknown(attempts: seq<Attempt>, prompt: int, estimate: int)
    requires AllFair(attempts, prompt, estimate) && forall i :: 0 <= i < |attempts| ==> !Silent(attempts[i])
    ensures UnseenCost(attempts) <= CountUnreported(attempts) * prompt
  {
    hide SumUsage, CountUnreported, Cost, UnseenCost, Fair;
    if attempts == [] {
      NoAttempts();
    } else {
      var front, last := attempts[..|attempts| - 1], attempts[|attempts| - 1];
      assert attempts == front + [last];
      SumsAppend(front, last);
      CostIsReportedPlusUnknown(front, prompt, estimate);
      FairReport(last, prompt, estimate);
      OneMore(CountUnreported(front), prompt);
    }
  }

  // ---- the charge against the spend ----

  lemma Scaled(n: nat, max: nat, estimate: int)
    requires n <= max && 0 <= estimate
    ensures n * estimate <= estimate * max
  {
  }

  lemma NeverLess(n: int, prompt: int, perAttempt: int)
    requires 0 <= n && 0 <= prompt <= perAttempt
    ensures 0 <= n * prompt <= n * perAttempt
  {
  }

  lemma WithinReservation(attempts: seq<Attempt>, max: nat, prompt: int, estimate: int)
    requires IsCall(attempts, max) && AllFair(attempts, prompt, estimate)
    ensures Cost(attempts) <= estimate * max && 0 <= prompt
  {
    CostWithinEstimate(attempts, prompt, estimate);
    assert Fair(attempts[0], prompt, estimate);
    Scaled(|attempts|, max, estimate);
  }

  /** What an unaccounted attempt is priced at. */
  function PerAttempt(r: Response): int {
    if r.usage.input <= 0 then Total(r.usage) else r.usage.input
  }

  /** The charge of a success with a report somewhere: what was reported, a price for each
      unreported attempt, and never more than the reservation. */
  lemma ReportedCharge(attempts: seq<Attempt>, max: nat, prompt: int, estimate: int)
    requires IsCall(attempts, max) && AllFair(attempts, prompt, estimate)
    requires attempts[|attempts| - 1].ok && SomeReport(attempts)
    ensures var r := Summary(attempts);
            var charged := SumUsage(attempts).total + CountUnreported(attempts) * PerAttempt(r);
            && 0 < PerAttempt(r) && 0 <= CountUnreported(attempts) * PerAttempt(r)
            && ChargeFor(r, estimate * max) == if charged <= estimate * max then charged else estimate * max
  {
    hide SumUsage, CountUnreported, Fair, SomeReport, Cost, UnseenCost;
    CostSplits(attempts, prompt, estimate);
    WithinReservation(attempts, max, prompt, estimate);
    var r := Summary(attempts);
    assert Total(r.usage) == SumUsage(attempts).total;
    NeverLess(CountUnreported(attempts), 0, PerAttempt(r));
    if CountUnreported(attempts) == 0 {
      assert CountUnreported(attempts) * PerAttempt(r) == 0;
    }
  }

  /** For every sequence of attempts whose success reports, or in which nothing was reported,
      and for every failed call: true spend <= charge <= reservation. */
  lemma {:induction false} ChargeCoversSpend(attempts: seq<Attempt>, max: nat, prompt: int, estimate: int)
    requires IsCall(attempts, max) && AllFair(attempts, prompt, estimate) && !SilentAfterReport(attempts)
    ensures Cost(attempts) <= ChargeFor(Summary(attempts), estimate * max) <= estimate * max
  {
    hide SumUsage, CountUnreported, SomeReport, Cost, UnseenCost, PerAttempt;
    CostSplits(attempts, prompt, estimate);
    WithinReservation(attempts, max, prompt, estimate);
    var last := attempts[|attempts| - 1];
    if last.ok && SomeReport(attempts) {
      ReportedCharge(attempts, max, prompt, estimate);
      CostIsReportedPlusUnknown(attempts, prompt, estimate);
      PriceCoversPrompt(attempts, max, prompt, estimate);
      NeverLess(CountUnreported(attempts), prompt, PerAttempt(Summary(attempts)));
    }
  }

  lemma PriceCoversPrompt(attempts: seq<Attempt>, max: nat, prompt: int, estimate: int)
    requires IsCall(attempts, max) && AllFair(attempts, prompt, estimate)
    requires attempts[|attempts| - 1].ok && 0 < Total(attempts[|attempts| - 1].usage)
    ensures prompt <= PerAttempt(Summary(attempts))
  {
    hide CountUnreported, Fair, SomeReport, Cost, UnseenCost;
    var front, last := attempts[..|attempts| - 1], attempts[|attempts| - 1];
    assert attempts == front + [last];
    SumsAppend(front, last);
    CostSplits(front, prompt, estimate);
    CostSplits(attempts, prompt, estimate);
    FairReport(last, prompt, estimate);
  }

  /** A silent success after a report: the charge covers the spend exactly when the price of
      the unreported attempts covers what was not seen, or hits the reservation. */
  lemma {:induction false} SilentSuccessExactly(attempts: seq<Attempt>, max: nat, prompt: int, estimate: int)
    requires IsCall(attempts, max) && AllFair(attempts, prompt, estimate) && SilentAfterReport(attempts)
    ensures var price := CountUnreported(attempts) * PerAttempt(Summary(attempts));
            Cost(attempts) <= ChargeFor(Summary(attempts), estimate * max) <==>
            || UnseenCost(attempts) <= price
            || estimate * max < SumUsage(attempts).total + price
  {
    hide SumUsage, CountUnreported, SomeReport, Cost, UnseenCost, PerAttempt, ChargeFor, Fair;
    CostSplits(attempts, prompt, estimate);
    WithinReservation(attempts, max, prompt, estimate);
    ReportedCharge(attempts, max, prompt, estimate);
  }

  /** After any number of reported failures, a silent success goes uncharged: the charge falls
      short exactly when that success cost something. */
  lemma {:induction false} SilentSuccessEscapes(attempts: seq<Attempt>, max: nat, prompt: int, estimate: int)
    requires IsCall(attempts, max) && AllFair(attempts, prompt, estimate) && SilentAfterReport(attempts)
    requires forall i :: 0 <= i < |attempts| - 1 ==> 0 < Total(attempts[i].usage)
    ensures ChargeFor(Summary(attempts), estimate * max) < Cost(attempts) <==> 0 < attempts[|attempts| - 1].cost
  {
    hide SumUsage, CountUnreported, SomeReport, Cost, UnseenCost, PerAttempt, ChargeFor, Fair;
    var front, last := attempts[..|attempts| - 1], attempts[|attempts| - 1];
    assert attempts == front + [last];
    AllSeen(front);
    SumsAppend(front, last);
    SilentSuccessExactly(attempts, max, prompt, estimate);
    CostSplits(attempts, prompt, estimate);
    WithinReservation(attempts, max, prompt, estimate);
    assert CountUnreported(attempts) * PerAttempt(Summary(attempts)) == 0;
  }

  lemma {:induction false} AllSeen(attempts: seq<Attempt>)
    requires forall i :: 0 <= i < |attempts| ==> 0 < Total(attempts[i].usage)
    ensures UnseenCost(attempts) == 0 && CountUnreported(attempts) == 0
  {
    if attempts != [] {
      AllSeen(attempts[..|attempts| - 1]);
    }
  }

  // ---- for given reports, whatever the attempts cost ----

  /** The same attempts as the adapter sees them; only their cost may differ. */
  ghost predicate SameReports(xs: seq<Attempt>, ys: seq<Attempt>) {
    |xs| == |ys| && forall i :: 0 <= i < |xs| ==> ys[i] == xs[i].(cost := ys[i].cost)
  }

  /** The most an attempt with this report can fairly cost. */
  function MostFor(a: Attempt, prompt: int, estimate: int): int {
    if 0 < Total(a.usage) then Total(a.usage) else if a.ok then estimate else Min(prompt, estimate)
  }

  function Worst(attempts: seq<Attempt>, prompt: int, estimate: int): int {
    if attempts == [] then 0
    else Worst(attempts[..|attempts| - 1], prompt, estimate) + MostFor(attempts[|attempts| - 1], prompt, estimate)
  }

  function Dearest(attempts: seq<Attempt>, prompt: int, estimate: int): seq<Attempt> {
    seq(|attempts|, i requires 0 <= i < |attempts| => attempts[i].(cost := MostFor(attempts[i], prompt, estimate)))
  }

  lemma {:induction false} ReportsDecide(xs: seq<Attempt>, ys: seq<Attempt>)
    requires SameReports(xs, ys)
    ensures SumUsage(xs) == SumUsage(ys) && CountUnreported(xs) == CountUnreported(ys)
  {
    if xs != [] {
      ReportsDecide(xs[..|xs| - 1], ys[..|ys| - 1]);
    }
  }

  lemma SameCall(xs: seq<Attempt>, ys: seq<Attempt>, max: nat)
    requires SameReports(xs, ys) && IsCall(xs, max)
    ensures IsCall(ys, max) && Summary(xs) == Summary(ys)
    ensures SilentAfterReport(xs) <==> SilentAfterReport(ys)
  {
    ReportsDecide(xs, ys);
    assert forall i :: 0 <= i < |xs| ==> xs[i].usage == ys[i].usage;
  }

  /** No fair cost behind the same reports is higher than the worst one... */
  lemma {:induction false} WorstIsMost(xs: seq<Attempt>, ys: seq<Attempt>, prompt: int, estimate: int)
    requires SameReports(xs, ys) && AllFair(ys, prompt, estimate)
    ensures Cost(ys) <= Worst(xs, prompt, estimate)
  {
    if xs != [] {
      WorstIsMost(xs[..|xs| - 1], ys[..|ys| - 1], prompt, estimate);
      assert Fair(ys[|ys| - 1], prompt, estimate);
    }
  }

  /** ...and the worst one is fair. */
  lemma {:induction false} WorstIsFair(xs: seq<Attempt>, prompt: int, estimate: int)
    requires AllFair(xs, prompt, estimate)
    ensures SameReports(xs, Dearest(xs, prompt, estimate)) && AllFair(Dearest(xs, prompt, estimate), prompt, estimate)
    ensures Cost(Dearest(xs, prompt, estimate)) == Worst(xs, prompt, estimate)
  {
    if xs != [] {
      WorstIsFair(xs[..|xs| - 1], prompt, estimate);
      assert Dearest(xs, prompt, estimate)[..|xs| - 1] == Dearest(xs[..|xs| - 1], prompt, estimate);
      assert Fair(xs[|xs| - 1], prompt, estimate);
    }
  }

  /** The worst case: the reports, a prompt for each unreported failure and the estimate for
      a silent success. */
  lemma {:induction false} WorstSplits(attempts: seq<Attempt>, prompt: int, estimate: int)
    requires AllFair(attempts, prompt, estimate) && forall i :: 0 <= i < |attempts| - 1 ==> !attempts[i].ok
    ensures Worst(attempts, prompt, estimate) ==
            SumUsage(attempts).total + CountUnreported(attempts) * Min(prompt, estimate)
            + if attempts != [] && Silent(attempts[|attempts| - 1]) then estimate else 0
  {
    hide SumUsage, CountUnreported, Worst, Fair;
    if attempts == [] {
      NoAttempts();
      NoWorst(prompt, estimate);
    } else {
      var front, last := attempts[..|attempts| - 1], attempts[|attempts| - 1];
      assert attempts == front + [last];
      SumsAppend(front, last);
      WorstAppend(front, last, prompt, estimate);
      WorstSplits(front, prompt, estimate);
      FairReport(last, prompt, estimate);
      OneMore(CountUnreported(front), Min(prompt, estimate));
      assert front != [] ==> !front[|front| - 1].ok;
    }
  }

  lemma NoWorst(prompt: int, estimate: int)
    ensures Worst([], prompt, estimate) == 0
  {
  }

  lemma WorstAppend(front: seq<Attempt>, a: Attempt, prompt: int, estimate: int)
    ensures Worst(front + [a], prompt, estimate) == Worst(front, prompt, estimate) + MostFor(a, prompt, estimate)
  {
    assert (front + [a])[..|front|] == front;
  }

  ghost predicate CoveredWhateverItCost(attempts: seq<Attempt>, max: nat, prompt: int, estimate: int)
    requires attempts != []
  {
    forall other :: SameReports(attempts, other) && AllFair(other, prompt, estimate) ==>
      Cost(other) <= ChargeFor(Summary(attempts), estimate * max)
  }

  lemma CoveredIffWorstIs(attempts: seq<Attempt>, max: nat, prompt: int, estimate: int)
    requires IsCall(attempts, max) && AllFair(attempts, prompt, estimate)
    ensures CoveredWhateverItCost(attempts, max, prompt, estimate) <==>
            Worst(attempts, prompt, estimate) <= ChargeFor(Summary(attempts), estimate * max)
  {
    hide Cost, Worst, Summary, ChargeFor, SameReports, Dearest, AllFair;
    WorstIsFair(attempts, prompt, estimate);
    forall other | SameReports(attempts, other) && AllFair(other, prompt, estimate)
      ensures Cost(other) <= Worst(attempts, prompt, estimate)
    {
      WorstIsMost(attempts, other, prompt, estimate);
    }
  }

  /** What can be told from the reports of a silent success after a report: the charge covers
      every fair cost exactly when the price of the unreported attempts pays for the estimate
      and a prompt each, or reports and price reach the reservation. */
  lemma {:induction false} SilentSuccessCoveredIff(attempts: seq<Attempt>, max: nat, prompt: int, estimate: int)
    requires IsCall(attempts, max) && AllFair(attempts, prompt, estimate) && SilentAfterReport(attempts)
    ensures var price := CountUnreported(attempts) * PerAttempt(Summary(attempts));
            CoveredWhateverItCost(attempts, max, prompt, estimate) <==>
            || estimate + CountUnreported(attempts) * Min(prompt, estimate) <= price
            || estimate * max <= SumUsage(attempts).total + price
  {
    hide SumUsage, CountUnreported, SomeReport, Cost, UnseenCost, PerAttempt, ChargeFor, Fair, Worst, CoveredWhateverItCost, SameReports, Dearest;
    CoveredIffWorstIs(attempts, max, prompt, estimate);
    WorstSplits(attempts, prompt, estimate);
    ReportedCharge(attempts, max, prompt, estimate);
    WorstIsFair(attempts, prompt, estimate);
    SameCall(attempts, Dearest(attempts, prompt, estimate), max);
    WithinReservation(Dearest(attempts, prompt, estimate), max, prompt, estimate);
  }

  /** Such a call: a failure that reports 10 tokens, then a silent success that cost 90. */
  lemma SilentCall() returns (attempts: seq<Attempt>)
    ensures IsCall(attempts, 2) && AllFair(attempts, 5, 100) && SilentAfterReport(attempts)
    ensures ChargeFor(Summary(attempts), 100 * 2) < Cost(attempts)
  {
    var first := Attempt(false, Usage(10, 0, 10), true, true, 10);
    var second := Attempt(true, Usage(0, 0, 0), false, false, 90);
    attempts := [first, second];
    assert 0 < Total(attempts[0].usage);
    hide ChargeFor, Cost, Summary;
    SilentSuccessEscapes(attempts, 2, 5, 100);
  }

  /** A provider that reports only a total is charged that total, one that reports only parts their sum. */
  lemma ChargedAsReported(u: Usage, reserved: int, retryable: bool, waits: bool, cost: int)
    requires 0 <= u.input && 0 <= u.output && 0 <= u.total
    ensures var a := Attempt(true, u, retryable, waits, cost);
            ChargeFor(Summary([a]), reserved) ==
            if 0 < u.total then u.total else if 0 < u.input + u.output then u.input + u.output else reserved
  {
    var a := Attempt(true, u, retryable, waits, cost);
    var none: seq<Attempt> := [];
    NoAttempts();
    SumsAppend(none, a);
    assert none + [a] == [a];
  }

  // ---- the estimate ----

  datatype Message = Message(bytes: nat, calls: seq<nat>)

  const MAX_INT := 9_223_372_036_854_775_807

  function SumNats(xs: seq<nat>): nat {
    if xs == [] then 0 else SumNats(xs[..|xs| - 1]) + xs[|xs| - 1]
  }

  function MessageBytes(m: Message): nat {
    m.bytes + SumNats(m.calls)
  }

  function AllBytes(messages: seq<Message>): nat {
    if messages == [] then 0 else AllBytes(messages[..|messages| - 1]) + MessageBytes(messages[|messages| - 1])
  }

  datatype Estimator = Estimator(base: int, perMessage: int, perTool: int, bytesPerToken: int, attempts: int)

  function OrElse(x: int, d: int): int {
    if x <= 0 then d else x
  }

  /** The least number of tokens whose bytes cover the content. */
  ghost predicate Covers(tokens: int, bytes: int, bytesPerToken: int) {
    bytes <= tokens * bytesPerToken && forall t :: bytes <= t * bytesPerToken ==> tokens <= t
  }

  /** The worst case for one attempt at a request: the output bound, the fixed overheads, and the
      least number of tokens that covers the content. */
  ghost predicate WorstCase(e: Estimator, maxOutput: int, messages: seq<Message>, tools: seq<nat>, each: int) {
    Covers(each - maxOutput - OrElse(e.base, 256) - |messages| * OrElse(e.perMessage, 64) - |tools| * OrElse(e.perTool, 64),
           AllBytes(messages) + SumNats(tools), OrElse(e.bytesPerToken, 4))
  }

  lemma OneWorstCase(e: Estimator, maxOutput: int, messages: seq<Message>, tools: seq<nat>, each: int, other: int)
    requires WorstCase(e, maxOutput, messages, tools, each) && WorstCase(e, maxOutput, messages, tools, other)
    ensures each == other
  {
    hide AllBytes, SumNats;
  }

  /** Estimate: the same worst case for each attempt; None exactly without an output bound or
      when the product does not fit an integer. */
  method Estimate(e: Estimator, maxOutput: int, messages: seq<Message>, tools: seq<nat>) returns (r: Option<int>)
    ensures exists each :: WorstCase(e, maxOutput, messages, tools, each)
    ensures forall each :: WorstCase(e, maxOutput, messages, tools, each) ==>
              && (r.None? <==> maxOutput <= 0 || MAX_INT < each * OrElse(e.attempts, 1))
              && (r.Some? ==> 0 < r.value == each * OrElse(e.attempts, 1))
  {
    hide WorstCase;
    if maxOutput <= 0 {
      SomeWorstCase(e, maxOutput, messages, tools);
      return None;
    }
    var bytesPerToken := OrElse(e.bytesPerToken, 4);
    var raw := 0;
    for k := 0 to |messages|
      invariant raw == AllBytes(messages[..k])
    {
      var m := messages[k];
      raw := raw + m.bytes;
      var start := raw;
      for c := 0 to |m.calls|
        invariant raw == start + SumNats(m.calls[..c])
      {
        raw := raw + m.calls[c];
        assert m.calls[..c + 1][..c] == m.calls[..c];
      }
      assert m.calls[..|m.calls|] == m.calls;
      assert messages[..k + 1][..k] == messages[..k];
    }
    assert messages[..|messages|] == messages;
    var start := raw;
    for k := 0 to |tools|
      invariant raw == start + SumNats(tools[..k])
    {
      raw := raw + tools[k];
      assert tools[..k + 1][..k] == tools[..k];
    }
    assert tools[..|tools|] == tools;
    var contentTokens := (raw + bytesPerToken - 1) / bytesPerToken;
    CeilingCovers(raw, bytesPerToken);
    var perAttempt := maxOutput + contentTokens + OrElse(e.base, 256) + |messages| * OrElse(e.perMessage, 64) + |tools| * OrElse(e.perTool, 64);
    var attempts := OrElse(e.attempts, 1);
    NaturalProducts(|messages|, OrElse(e.perMessage, 64));
    NaturalProducts(|tools|, OrElse(e.perTool, 64));
    IsWorstCase(e, maxOutput, messages, tools, contentTokens, perAttempt);
    forall each | WorstCase(e, maxOutput, messages, tools, each)
      ensures each == perAttempt
    {
      OneWorstCase(e, maxOutput, messages, tools, each, perAttempt);
    }
    FitsInt(perAttempt, attempts);
    if perAttempt > MAX_INT / attempts {
      return None;
    }
    return Some(perAttempt * attempts);
  }

  lemma IsWorstCase(e: Estimator, maxOutput: int, messages: seq<Message>, tools: seq<nat>, content: int, each: int)
    requires Covers(content, AllBytes(messages) + SumNats(tools), OrElse(e.bytesPerToken, 4))
    requires each == maxOutput + content + OrElse(e.base, 256) + |messages| * OrElse(e.perMessage, 64) + |tools| * OrElse(e.perTool, 64)
    ensures WorstCase(e, maxOutput, messages, tools, each)
  {
    hide AllBytes, SumNats, Covers;
  }

  lemma SomeWorstCase(e: Estimator, maxOutput: int, messages: seq<Message>, tools: seq<nat>)
    ensures exists each :: WorstCase(e, maxOutput, messages, tools, each)
  {
    hide WorstCase, AllBytes, SumNats;
    var bytes, bytesPerToken := AllBytes(messages) + SumNats(tools), OrElse(e.bytesPerToken, 4);
    var content := (bytes + bytesPerToken - 1) / bytesPerToken;
    CeilingCovers(bytes, bytesPerToken);
    IsWorstCase(e, maxOutput, messages, tools, content,
                maxOutput + content + OrElse(e.base, 256) + |messages| * OrElse(e.perMessage, 64) + |tools| * OrElse(e.perTool, 64));
  }

  lemma NaturalProducts(n: nat, x: int)
    requires 0 <= x
    ensures 0 <= n * x
  {
  }

  /** The code's test before multiplying is the test of the product. */
  lemma FitsInt(each: int, attempts: int)
    requires 0 < attempts && 0 < each
    ensures 0 < each * attempts && (each <= MAX_INT / attempts <==> each * attempts <= MAX_INT)
  {
    var q := MAX_INT / attempts;
    assert q * attempts <= MAX_INT < (q + 1) * attempts;
    if each <= q {
      NeverLess(attempts, each, q);
    } else {
      NeverLess(attempts, q + 1, each);
    }
  }

  lemma CeilingCovers(bytes: nat, bytesPerToken: int)
    requires 0 < bytesPerToken
    ensures Covers((bytes + bytesPerToken - 1) / bytesPerToken, bytes, bytesPerToken)
    ensures 0 <= (bytes + bytesPerToken - 1) / bytesPerToken
  {
    var n := (bytes + bytesPerToken - 1) / bytesPerToken;
    var rest := (bytes + bytesPerToken - 1) % bytesPerToken;
    assert bytes + bytesPerToken - 1 == n * bytesPerToken + rest;
    forall t | bytes <= t * bytesPerToken
      ensures n <= t
    {
      assert (n - t) * bytesPerToken == n * bytesPerToken - t * bytesPerToken;
      assert (n - t) * bytesPerToken < bytesPerToken;
      NotAMultiple(n - t, bytesPerToken);
    }
  }

  lemma NotAMultiple(d: int, step: int)
    requires 0 < step && d * step < step
    ensures d <= 0
  {
  }

  // ---- the back-off ----

  /** retryDelay's loop: doubled for each failed attempt and cut at the maximum, without
      ever computing a value beyond it. */
  method Backoff(base: int, max: int, failed: nat) returns (backoff: int)
    requires 0 < base && 0 < max && 1 <= failed
    ensures backoff == Min(base * Pow2(failed - 1), max)
  {
    backoff := base;
    var step := 1;
    while step < failed && backoff < max
      invariant 1 <= step <= failed && backoff == base * Pow2(step - 1)
    {
      StepDoubles(base, step);
      if backoff > max / 2 {
        Grows(base, step, failed - 1);
        return max;
      }
      backoff := backoff * 2;
      step := step + 1;
    }
    if step < failed {
      Grows(base, step - 1, failed - 1);
    }
    if backoff > max {
      backoff := max;
    }
  }

  lemma StepDoubles(base: int, step: nat)
    requires 1 <= step
    ensures base * Pow2(step) == 2 * (base * Pow2(step - 1))
  {
    var p := Pow2(step - 1);
    assert base * (2 * p) == 2 * (base * p);
  }

  lemma {:induction false} Grows(base: int, m: nat, n: nat)
    requires 0 < base && m <= n
    ensures base * Pow2(m) <= base * Pow2(n)
  {
    if m < n {
      Grows(base, m, n - 1);
      StepDoubles(base, n);
      PositivePower(base, n - 1);
    }
  }

  lemma {:induction false} PositivePower(base: int, n: nat)
    requires 0 < base
    ensures 0 < base * Pow2(n)
  {
    if n > 0 {
      PositivePower(base, n - 1);
      StepDoubles(base, n);
    }
  }

  /** The jittered delay lies in the upper half of the back-off, or is what the provider asked for. */
  function Delay(backoff: int, jitter: int, retryAfter: int): (d: int)
    requires 0 <= backoff
    ensures retryAfter <= d && backoff / 2 <= d && (d <= backoff || d == retryAfter)
  {
    var half := backoff / 2;
    var window := backoff - half;
    var j := if jitter < 0 then 0 else if jitter > window then window else jitter;
    if retryAfter > half + j then retryAfter else half + j
  }
}

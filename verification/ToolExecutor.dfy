/** The retry loop of internal/agenttools/executor.go around one gateway call. */
module ToolExecutor {

  datatype Status = Success | ConfirmationRequired | Error

  /** One gateway call: its result, and whether the attempt's own deadline or the turn's
      context had ended by then. */
  datatype Attempt = Attempt(status: Status, refusal: bool, retryable: bool, committed: bool, context: Context, waits: bool)

  datatype Context = Alive | DeadlineExceeded | Cancelled

  datatype ToolStatus = Succeeded | Failed | Refused | NeedsConfirmation

  datatype Execution = Execution(status: ToolStatus, isError: bool, committed: bool, failed: bool)

  /** The loop goes on after a missed deadline or a retryable error, as long as the turn lets it. */
  predicate TriesAgain(a: Attempt) {
    a.waits && (a.context == DeadlineExceeded || (a.context == Alive && a.status == Error && a.retryable))
  }

  function StatusOf(a: Attempt): ToolStatus {
    match a.status
    case Success => Succeeded
    case ConfirmationRequired => NeedsConfirmation
    case Error => if a.refusal then Refused else Failed
  }

  ghost predicate AnyCommitted(attempts: seq<Attempt>) {
    exists i :: 0 <= i < |attempts| && attempts[i].committed
  }

  ghost predicate IsExecution(attempts: seq<Attempt>, max: nat) {
    && 1 <= |attempts| <= max
    && (forall i :: 0 <= i < |attempts| - 1 ==> TriesAgain(attempts[i]))
    && (|attempts| == max || !TriesAgain(attempts[|attempts| - 1]))
  }

  /** The outcome speaks for the last attempt, the side-effect flag for all of them: a
      committed write stays known even when its response was lost and a retry failed. */
  method Execute(gateway: nat -> Attempt, maxAttempts: int) returns (e: Execution, attempts: seq<Attempt>)
    ensures IsExecution(attempts, if maxAttempts < 1 then 1 else maxAttempts)
    ensures forall i :: 0 <= i < |attempts| ==> attempts[i] == gateway(i)
    ensures e.committed <==> AnyCommitted(attempts)
    ensures var last := attempts[|attempts| - 1];
            && (last.status == Success ==> e.status == Succeeded) && (last.status == ConfirmationRequired ==> e.status == NeedsConfirmation)
            && (last.status == Error ==> e.status == if last.refusal then Refused else Failed)
    ensures e.isError <==> attempts[|attempts| - 1].status == Error || attempts[|attempts| - 1].context != Alive
    ensures var last := attempts[|attempts| - 1];
            e.failed <==>
            || last.context != Alive
            || (last.status == Error && last.retryable && !last.waits && |attempts| < maxAttempts)
  {
    var max := if maxAttempts < 1 then 1 else maxAttempts;
    var committed, n := false, 0;
    attempts := [];
    while true
      invariant n == |attempts| < max && (committed <==> AnyCommitted(attempts))
      invariant forall i :: 0 <= i < n ==> attempts[i] == gateway(i) && TriesAgain(attempts[i])
      decreases max - n
    {
      var a := gateway(n);
      CommittedAppend(attempts, a);
      attempts, committed, n := attempts + [a], committed || a.committed, n + 1;
      e := Execution(StatusOf(a), a.status == Error || a.context != Alive, committed, false);
      if a.context != Alive {
        if a.context != DeadlineExceeded || n == max {
          e := e.(failed := true);
          return;
        }
      } else if a.status != Error || !a.retryable || n == max {
        return;
      }
      if !a.waits {
        e := e.(failed := true);
        return;
      }
    }
  }

  lemma CommittedAppend(attempts: seq<Attempt>, a: Attempt)
    ensures AnyCommitted(attempts + [a]) <==> AnyCommitted(attempts) || a.committed
  {
    var all := attempts + [a];
    if i :| 0 <= i < |attempts| && attempts[i].committed { assert all[i].committed; }
    assert all[|attempts|] == a;
  }
}

/** One model call of the agent loop from estimate to settlement (internal/agent/runner.go),
    against the database budget. */
module ModelCalls {
  import opened Domain
  import opened Budget
  import opened TokenBudgets
  import opened CallsUnderTheCap
  import S = Spend

  /** Refused before any attempt, settled beyond the reservation, or answered. */
  datatype Outcome = NotMade | Overran | Answered(response: S.Response)

  /** What the table's check constraints keep. */
  ghost predicate RowsOk(rows: map<string, Row>) {
    forall c :: c in rows ==> 0 <= rows[c].used && 0 <= rows[c].reserved
  }

  lemma ChargeIsPositive(c: Call)
    requires c.attempts != [] && 0 < Reservation(c)
    ensures 0 < Price(c)
  {
    hide S.SumUsage, S.CountUnreported, Reservation;
  }

  /** Estimate, reserve, complete, charge and settle. `call` is the call as it was made; its
      reservation is the estimate, and the row pays the charge, never more than it reserved. */
  method CallModel(store: ConversationStore, conversation: string, e: S.Estimator, maxOutput: int,
                   messages: seq<S.Message>, tools: seq<nat>, provider: nat -> S.Attempt, ghost prompt: int)
    returns (outcome: Outcome, ghost call: Call)
    requires RowsOk(store.rows)
    modifies store
    ensures outcome.NotMade? ==> store.rows == old(store.rows)
    ensures !outcome.NotMade? ==>
              && conversation in old(store.rows)
              && S.IsCall(call.attempts, call.max) && S.Finished(call.attempts, call.max)
              && call.attempts == S.Made(provider, |call.attempts|)
              && outcome == (if Reservation(call) < Price(call) then Overran else Answered(S.Summary(call.attempts)))
              && call.prompt == prompt && call.max == S.OrElse(e.attempts, 1)
              && S.WorstCase(e, maxOutput, messages, tools, call.estimate)
              && 0 < Reservation(call) <= S.MAX_INT
    ensures !outcome.NotMade? ==>
              var row := old(store.rows)[conversation];
              && store.rows == old(store.rows)[conversation := row.(used := row.used + Min(Price(call), Reservation(call)))]
              && row.used + row.reserved + Reservation(call) <= row.budget
    ensures !outcome.NotMade? && Sound(call) ==>
              outcome.Answered? && S.Cost(call.attempts) <= store.rows[conversation].used - old(store.rows)[conversation].used
  {
    hide S.SumUsage, S.CountUnreported, S.Cost, S.WorstCase, S.ChargeFor, Sound;
    call := Call([], 0, prompt, 0);
    var reserved := S.Estimate(e, maxOutput, messages, tools);
    ghost var each :| S.WorstCase(e, maxOutput, messages, tools, each);
    if reserved.None? {
      return NotMade, call;
    }
    var granted := store.ReserveTokens(conversation, reserved.value);
    if granted != Accepted {
      return NotMade, call;
    }
    var held := new StoredReservation(store, conversation, reserved.value);
    var answer, made := S.Complete(provider, S.OrElse(e.attempts, 1));
    call := Call(S.Made(provider, made), S.OrElse(e.attempts, 1), prompt, each);
    var charged := S.ChargeFor(answer, reserved.value);
    assert charged == Price(call);
    ChargeIsPositive(call);
    var settled := held.Settle(charged);
    if Sound(call) {
      PriceFits(call);
    }
    return if settled == Accepted then Answered(answer) else Overran, call;
  }
}

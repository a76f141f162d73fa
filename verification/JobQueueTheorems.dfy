/** What the job queue promises over whole runs. */
module JobQueueTheorems {
  import opened Domain
  import opened Zones
  import opened JobQueue

  // ---- reaping ----

  /** A reap leaves no stale claim, gives each one back or buries it with one letter,
      and touches nothing else. */
  lemma {:induction false} ReapSplitsStaleClaims(q: Queue, lease: int, now: int)
    requires Inv(q) && 0 <= lease
    ensures var r := ReapRows(q, lease, now);
            && r.jobs.Keys == q.jobs.Keys
            && (forall id :: id in r.jobs ==> !Stale(r.jobs[id], lease, now))
            && (forall id :: id in q.jobs && Stale(q.jobs[id], lease, now) ==>
                  (r.jobs[id].status == Pending && r.jobs[id].attempts == q.jobs[id].attempts < q.jobs[id].max)
                  != (r.jobs[id].status == Dead && q.jobs[id].attempts == q.jobs[id].max))
            && (forall id :: id in q.jobs && !Stale(q.jobs[id], lease, now) ==> r.jobs[id] == q.jobs[id])
  {
    forall id | id in q.jobs
      ensures !Stale(Reaped(q.jobs[id], lease, now), lease, now)
    {
      OkRow(q, id);
    }
  }

  /** Each burial leaves exactly one letter. */
  lemma OneLetterPerBurial(q: Queue, lease: int, now: int, id: string)
    requires Inv(q) && id in q.jobs
    ensures var l := LetterFor(id, q.jobs[id], now);
            ReapRows(q, lease, now).letters[l] ==
            q.letters[l] + if Stale(q.jobs[id], lease, now) && q.jobs[id].attempts == q.jobs[id].max then 1 else 0
  {
    OkRow(q, id);
    var buried := set other | other in q.jobs && Stale(q.jobs[other], lease, now) && q.jobs[other].max <= q.jobs[other].attempts
                    :: LetterFor(other, q.jobs[other], now);
    var l := LetterFor(id, q.jobs[id], now);
    assert l in buried <==> Stale(q.jobs[id], lease, now) && q.jobs[id].max <= q.jobs[id].attempts;
    assert multiset(buried)[l] == if l in buried then 1 else 0;
  }

  // ---- each job is claimed at most max_attempts times between replays ----

  /** How often a run claims a job since its row appeared or was last replayed. */
  function ClaimsOf(q: Queue, actions: seq<Action>, id: string): nat {
    if actions == [] then 0
    else
      var front, last := actions[..|actions| - 1], actions[|actions| - 1];
      if last.AClaim? && id in last.ids then ClaimsOf(q, front, id) + 1
      else if last.AReplay? && last.id == id && id in Run(q, front).jobs && Run(q, front).jobs[id].status == Dead then 0
      else ClaimsOf(q, front, id)
  }

  lemma {:induction false} AttemptsCountClaims(q: Queue, actions: seq<Action>, id: string)
    requires Legal(q, actions) && id !in q.jobs
    ensures id in Run(q, actions).jobs ==> Run(q, actions).jobs[id].attempts == ClaimsOf(q, actions, id)
    ensures id !in Run(q, actions).jobs ==> ClaimsOf(q, actions, id) == 0
  {
    if actions != [] {
      var front, last := actions[..|actions| - 1], actions[|actions| - 1];
      AttemptsCountClaims(q, front, id);
      AttemptsAfter(Run(q, front), last, id);
    }
  }

  lemma AttemptsAfter(q: Queue, a: Action, id: string)
    requires Enabled(q, a)
    ensures id in Apply(q, a).jobs && id in q.jobs ==>
              Apply(q, a).jobs[id].attempts ==
              if a.AClaim? && id in a.ids then q.jobs[id].attempts + 1
              else if a.AReplay? && a.id == id && q.jobs[id].status == Dead then 0
              else q.jobs[id].attempts
    ensures id in q.jobs ==> id in Apply(q, a).jobs
    ensures id !in q.jobs ==> !(a.AClaim? && id in a.ids)
    ensures id !in q.jobs && id in Apply(q, a).jobs ==> Apply(q, a).jobs[id].attempts == 0
  {
  }

  lemma {:induction false} ClaimedAtMostMaxAttempts(q: Queue, actions: seq<Action>, id: string)
    requires Inv(q) && Legal(q, actions) && id !in q.jobs && id in Run(q, actions).jobs
    ensures ClaimsOf(q, actions, id) <= Run(q, actions).jobs[id].max
  {
    AttemptsCountClaims(q, actions, id);
    RunKeepsInv(q, actions);
    OkRow(Run(q, actions), id);
  }

  // ---- finished rows stay as they are ----

  /** A completed or cancelled row never changes again, whatever workers, reapers, bookings and
      operators do, so no handler ever gets it a second time. */
  lemma {:induction false} FinishedRowsStay(q: Queue, actions: seq<Action>, id: string)
    requires Legal(q, actions) && id in q.jobs && (q.jobs[id].status == Completed || q.jobs[id].status == Cancelled)
    ensures id in Run(q, actions).jobs && Run(q, actions).jobs[id] == q.jobs[id]
  {
    if actions != [] {
      var front, last := actions[..|actions| - 1], actions[|actions| - 1];
      FinishedRowsStay(q, front, id);
      FinishedRowStays(Run(q, front), last, id);
    }
  }

  lemma FinishedRowStays(q: Queue, a: Action, id: string)
    requires Enabled(q, a) && id in q.jobs && (q.jobs[id].status == Completed || q.jobs[id].status == Cancelled)
    ensures id in Apply(q, a).jobs && Apply(q, a).jobs[id] == q.jobs[id]
  {
  }

  /** Completing a claimed job finishes its row, leaves every other row alone, and lasts. */
  lemma {:induction false} CompletedForGood(q: Queue, id: string, actions: seq<Action>)
    requires id in q.jobs && q.jobs[id].status == Claimed && Legal(Apply(q, AComplete(id)), actions)
    ensures Apply(q, AComplete(id)) == Queue(q.jobs[id := q.jobs[id].(status := Completed)], q.letters)
    ensures id in Run(Apply(q, AComplete(id)), actions).jobs && Run(Apply(q, AComplete(id)), actions).jobs[id].status == Completed
  {
    FinishedRowsStay(Apply(q, AComplete(id)), actions, id);
  }

  // ---- without replays every job comes to rest ----

  /** How many more changes of status a job can see. */
  function Left(j: Job): int {
    match j.status
    case Pending => 2 * (j.max - j.attempts)
    case Claimed => 2 * (j.max - j.attempts) + 1
    case _ => 0
  }

  /** Does the last action of the run change the job's status? */
  predicate Changes(q: Queue, a: Action, id: string) {
    id in q.jobs && id in Apply(q, a).jobs && Apply(q, a).jobs[id].status != q.jobs[id].status
  }

  predicate Revives(a: Action, id: string) {
    a.AReplay? && a.id == id
  }

  lemma {:induction false} StatusChangeCosts(q: Queue, a: Action, id: string)
    requires Inv(q) && Enabled(q, a) && id in q.jobs && !Revives(a, id)
    ensures id in Apply(q, a).jobs && 0 <= Left(Apply(q, a).jobs[id])
    ensures Left(Apply(q, a).jobs[id]) + (if Changes(q, a, id) then 1 else 0) <= Left(q.jobs[id])
  {
    hide Inv;
    OkRow(q, id);
    match a
    case AReap(lease, now) => ReapCosts(q.jobs[id], Lease(lease), now);
    case _ =>
  }

  lemma ReapCosts(j: Job, lease: int, now: int)
    requires JobOk(j)
    ensures 0 <= Left(Reaped(j, lease, now))
    ensures Left(Reaped(j, lease, now)) + (if Reaped(j, lease, now).status != j.status then 1 else 0) <= Left(j)
  {
  }

  function ChangesIn(q: Queue, actions: seq<Action>, id: string): nat {
    if actions == [] then 0
    else
      var front, last := actions[..|actions| - 1], actions[|actions| - 1];
      ChangesIn(q, front, id) + if Changes(Run(q, front), last, id) then 1 else 0
  }

  /** Whatever workers, reapers and bookings do, an unreplayed job changes status at most
      `Left` times, so it is retried, reaped and claimed only finitely often. */
  lemma {:induction false} JobsComeToRest(q: Queue, actions: seq<Action>, id: string)
    requires Inv(q) && Legal(q, actions) && id in q.jobs
    requires forall i :: 0 <= i < |actions| ==> !Revives(actions[i], id)
    ensures id in Run(q, actions).jobs
    ensures ChangesIn(q, actions, id) + Left(Run(q, actions).jobs[id]) <= Left(q.jobs[id])
  {
    if actions != [] {
      var front, last := actions[..|actions| - 1], actions[|actions| - 1];
      JobsComeToRest(q, front, id);
      RunKeepsInv(q, front);
      StatusChangeCosts(Run(q, front), last, id);
    }
  }

  // ---- the back-off ----

  lemma {:induction false} DelayGrowsToAnHour(attempts: int)
    requires 1 <= attempts
    ensures 30 * SECOND <= RetryDelay(attempts) <= RetryDelay(attempts + 1) <= HOUR
    ensures 8 <= attempts ==> RetryDelay(attempts) == HOUR
    ensures RetryDelay(1) == 30 * SECOND && RetryDelay(attempts + 1) == Min(2 * RetryDelay(attempts), HOUR)
  {
    AtLeast(attempts - 1);
  }

  lemma {:induction false} AtLeast(n: nat)
    ensures 1 <= Pow2(n) && (7 <= n ==> 128 <= Pow2(n))
  {
    if n > 7 {
      AtLeast(n - 1);
    } else {
      assert Pow2(7) == 128;
      if n != 0 { AtLeast(n - 1); }
    }
  }

  // ---- why Fail has to be one step ----

  /** The update statement of retryJob on its own, with the attempts read earlier. */
  function LateRetry(jobs: Rows, id: string, attempts: int, now: int): Rows {
    if id in jobs && jobs[id].status == Claimed then jobs[id := Retry(jobs[id], now + RetryDelay(attempts))] else jobs
  }

  /** The late write keeps the queue sound exactly when it does not meet a claim that has
      used the last attempt by then. */
  lemma LateRetryKeepsInvIff(q: Queue, id: string, attempts: int, now: int)
    requires Inv(q) && id in q.jobs
    ensures Inv(q.(jobs := LateRetry(q.jobs, id, attempts, now))) <==>
            !(q.jobs[id].status == Claimed && q.jobs[id].attempts == q.jobs[id].max)
  {
    hide Mourned;
    OkRow(q, id);
    var late := LateRetry(q.jobs, id, attempts, now);
    if q.jobs[id].status == Claimed && q.jobs[id].attempts == q.jobs[id].max {
      assert !JobOk(late[id]);
    } else {
      forall k | k in late
        ensures JobOk(late[k]) && (late[k].status == Dead ==> Mourned(q.letters, k, late[k].max))
      {
        OkRow(q, k);
      }
    }
  }

  /** A worker that read `attempts` before a reaper and a second worker got in leaves a
      pending job without attempts left. */
  lemma SplitFailBreaksTheBound() returns (q: Queue, r: Queue, between: seq<Action>)
    ensures Inv(q) && "job" in q.jobs && q.jobs["job"].status == Claimed
    ensures q.jobs["job"].attempts < q.jobs["job"].max
    ensures Legal(q, between) && r == Run(q, between)
    ensures var late := LateRetry(r.jobs, "job", q.jobs["job"].attempts, 1000 * SECOND);
            "job" in late && late["job"].status == Pending && late["job"].attempts == late["job"].max
  {
    var j := Job("booking", SendReminder, None, Claimed, 1, 2, 0, Some(0), 0, "");
    q := Queue(map["job" := j], multiset{});
    var reap, claim := AReap(300 * SECOND, 400 * SECOND), AClaim({"job"}, 400 * SECOND);
    between := [reap, claim];
    var q1 := Apply(q, reap);
    assert [reap][..0] == [] && between[..1] == [reap];
    assert Run(q, [reap]) == q1;
    assert q1.jobs["job"] == Retry(j, 400 * SECOND);
    assert Legal(q, [reap]);
    assert Run(q, between) == Apply(q1, claim);
    r := Run(q, between);
    assert r.jobs["job"].attempts == 2;
  }
}

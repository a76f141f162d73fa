/** Fail in two statements again, now with the worker's deadlines: jobs of a batch end within
    the schedule of cmd/worker/main.go, and a reap waits for the lease. */
module TimelyFail {
  import opened Domain
  import opened JobQueue
  import opened JobQueueTheorems
  import opened Lease
  import SplitFail

  /** What Fail's lookup reads. */
  datatype Seen = Seen(attempts: int, max: int)

  /** The work on one claim: it may read and write until its deadline. */
  datatype Execution = Execution(id: string, claimedAt: int, deadline: int, attempts: int, seen: Option<Seen>)

  datatype State = State(queue: Queue, clock: int, open: set<Execution>)

  datatype Action =
    | Whole(a: JobQueue.Action, now: int)
    | ClaimBatch(order: seq<string>, starts: seq<int>, ends: seq<int>, now: int)
    | Read(e: Execution, now: int)
    | Write(e: Execution, now: int)

  const JOB_LENGTH := JOB_TIMEOUT + WRITE_TIMEOUT

  /** A batch claims distinct due jobs and works on them in the order of a schedule. */
  ghost predicate Batch(jobs: Rows, order: seq<string>, starts: seq<int>, ends: seq<int>, now: int) {
    && |order| == |starts| == |ends| <= BATCH && Schedule(SLOTS, JOB_LENGTH, starts, ends)
    && (forall i, j :: 0 <= i < j < |order| ==> order[i] != order[j])
    && (forall i :: 0 <= i < |order| ==> order[i] in jobs && Due(jobs[order[i]], now))
  }

  /** Bookings, completions, replays and reaps are the queue's own statements. */
  predicate Statement(q: Queue, a: JobQueue.Action, now: int) {
    !a.AClaim? && !a.AFail? && JobQueue.Enabled(q, a) && (a.AReap? ==> a.now == now && STALE_LEASE <= JobQueue.Lease(a.lease))
  }

  ghost predicate Enabled(s: State, a: Action) {
    && s.clock <= a.now
    && match a
       case Whole(w, now) => Statement(s.queue, w, now)
       case ClaimBatch(order, starts, ends, now) => Batch(s.queue.jobs, order, starts, ends, now)
       case Read(e, now) =>
         && e in s.open && e.seen.None? && now <= e.deadline
         && e.id in s.queue.jobs && s.queue.jobs[e.id].status == Claimed
       case Write(e, now) => e in s.open && e.seen.Some? && now <= e.deadline
  }

  function Ids(order: seq<string>): set<string> {
    set i | 0 <= i < |order| :: order[i]
  }

  function Opened(jobs: Rows, id: string, now: int, length: int): Execution
    requires id in jobs
  {
    Execution(id, now, now + length, jobs[id].attempts + 1, None)
  }

  ghost function Batched(jobs: Rows, order: seq<string>, ends: seq<int>, now: int): set<Execution>
    requires |order| == |ends| && forall i :: 0 <= i < |order| ==> order[i] in jobs
  {
    set i | 0 <= i < |order| :: Opened(jobs, order[i], now, ends[i])
  }

  /** The second statement, chosen by what the first one read. */
  function WriteSeen(q: Queue, id: string, seen: Seen, now: int): Queue {
    if seen.attempts < seen.max then q.(jobs := LateRetry(q.jobs, id, seen.attempts, now))
    else SplitFail.LateBurial(q, id, now)
  }

  ghost function Step(s: State, a: Action): State
    requires Enabled(s, a)
  {
    match a
    case Whole(w, now) => State(JobQueue.Apply(s.queue, w), now, s.open)
    case ClaimBatch(order, _, ends, now) =>
      State(JobQueue.Apply(s.queue, AClaim(Ids(order), now)), now, s.open + Batched(s.queue.jobs, order, ends, now))
    case Read(e, now) =>
      var j := s.queue.jobs[e.id];
      State(s.queue, now, s.open - {e} + {e.(seen := Some(Seen(j.attempts, j.max)))})
    case Write(e, now) => State(WriteSeen(s.queue, e.id, e.seen.value, now), now, s.open - {e})
  }

  ghost predicate Legal(s: State, actions: seq<Action>)
    decreases |actions|, 0
  {
    actions == [] ||
    (Legal(s, actions[..|actions| - 1]) && Enabled(Run(s, actions[..|actions| - 1]), actions[|actions| - 1]))
  }

  ghost function Run(s: State, actions: seq<Action>): State
    requires Legal(s, actions)
    decreases |actions|, 1
  {
    if actions == [] then s else Step(Run(s, actions[..|actions| - 1]), actions[|actions| - 1])
  }

  // ---- a live claim stays its worker's ----

  /** The job is still as the execution claimed it, or finished otherwise. */
  predicate Owns(jobs: Rows, e: Execution) {
    && e.id in jobs
    && (|| (jobs[e.id].status == Claimed && jobs[e.id].claimedAt == Some(e.claimedAt) && jobs[e.id].attempts == e.attempts)
        || jobs[e.id].status in {Completed, Cancelled})
    && (e.seen.Some? ==> e.seen.value == Seen(e.attempts, jobs[e.id].max))
  }

  predicate Alive(s: State, e: Execution) {
    e in s.open && s.clock <= e.deadline
  }

  ghost predicate Inv(s: State) {
    && (forall e :: e in s.open ==> e.deadline <= e.claimedAt + STALE_LEASE)
    && (forall e :: Alive(s, e) ==> Owns(s.queue.jobs, e))
    && (forall e, f :: Alive(s, e) && Alive(s, f) && e.id == f.id ==> e == f)
  }

  lemma StatementKeepsOwner(q: Queue, a: JobQueue.Action, e: Execution, now: int)
    requires Statement(q, a, now) && Owns(q.jobs, e) && now <= e.deadline <= e.claimedAt + STALE_LEASE
    ensures Owns(JobQueue.Apply(q, a).jobs, e)
  {
  }

  lemma BatchEndsWithinLease(starts: seq<int>, ends: seq<int>, k: nat)
    requires Schedule(SLOTS, JOB_LENGTH, starts, ends) && |starts| == |ends| <= BATCH && k < |ends|
    ensures ends[k] <= STALE_LEASE
  {
    ShippedLeaseHolds(|starts|);
    SafeUntilIff(STALE_LEASE, ends[k]);
  }

  /** Every statement leaves a live claim with its worker. */
  lemma OwnerAfter(s: State, a: Action, e: Execution)
    requires Inv(s) && Enabled(s, a) && e in s.open && a.now <= e.deadline && (a.Write? ==> a.e != e)
    ensures Owns(Step(s, a).queue.jobs, e)
  {
    hide Batch, Statement, Schedule;
    assert Alive(s, e);
    match a
    case Whole(w, now) =>
      hide Owns;
      StatementKeepsOwner(s.queue, w, e, now);
    case ClaimBatch(order, starts, ends, now) => ClaimKeepsOwner(s.queue, order, starts, ends, now, e);
    case Read(_, _) =>
    case Write(f, now) => assert Alive(s, f);
  }

  lemma ClaimKeepsOwner(q: Queue, order: seq<string>, starts: seq<int>, ends: seq<int>, now: int, e: Execution)
    requires Batch(q.jobs, order, starts, ends, now) && Owns(q.jobs, e)
    ensures e.id !in Ids(order) && Owns(JobQueue.Apply(q, AClaim(Ids(order), now)).jobs, e)
  {
    hide Schedule;
  }

  lemma OpenedOwns(q: Queue, order: seq<string>, starts: seq<int>, ends: seq<int>, now: int, e: Execution)
    requires Batch(q.jobs, order, starts, ends, now) && e in Batched(q.jobs, order, ends, now)
    ensures Owns(JobQueue.Apply(q, AClaim(Ids(order), now)).jobs, e)
    ensures e.id in Ids(order) && e.deadline <= e.claimedAt + STALE_LEASE && e.seen.None?
  {
    hide Schedule, STALE_LEASE, Due;
    var k :| 0 <= k < |order| && e == Opened(q.jobs, order[k], now, ends[k]);
    BatchEndsWithinLease(starts, ends, k);
    assert order[k] in Ids(order);
    assert JobQueue.Apply(q, AClaim(Ids(order), now)).jobs[order[k]] == Claim(q.jobs[order[k]], now);
  }

  lemma OpenedOnce(jobs: Rows, order: seq<string>, starts: seq<int>, ends: seq<int>, now: int, e: Execution, f: Execution)
    requires Batch(jobs, order, starts, ends, now) && e in Batched(jobs, order, ends, now) && f in Batched(jobs, order, ends, now)
    requires e.id == f.id
    ensures e == f
  {
    hide Schedule;
    var i :| 0 <= i < |order| && e == Opened(jobs, order[i], now, ends[i]);
    var j :| 0 <= j < |order| && f == Opened(jobs, order[j], now, ends[j]);
  }

  /** After a batch was claimed. */
  lemma ClaimKeepsInv(s: State, a: Action)
    requires Inv(s) && Enabled(s, a) && a.ClaimBatch?
    ensures Inv(Step(s, a))
  {
    hide Schedule, Owns, JobQueue.Apply, Batched, Ids;
    var t, newer := Step(s, a), Batched(s.queue.jobs, a.order, a.ends, a.now);
    forall e | e in t.open
      ensures e.deadline <= e.claimedAt + STALE_LEASE
      ensures Alive(t, e) ==> Owns(t.queue.jobs, e)
      ensures e in newer ==> e.id in Ids(a.order)
      ensures e !in newer && Alive(t, e) ==> Alive(s, e) && e.id !in Ids(a.order)
    {
      if e in newer {
        OpenedOwns(s.queue, a.order, a.starts, a.ends, a.now, e);
      } else if Alive(t, e) {
        OwnerAfter(s, a, e);
        ClaimKeepsOwner(s.queue, a.order, a.starts, a.ends, a.now, e);
      }
    }
    forall e, f | Alive(t, e) && Alive(t, f) && e.id == f.id
      ensures e == f
    {
      if e in newer && f in newer {
        OpenedOnce(s.queue.jobs, a.order, a.starts, a.ends, a.now, e, f);
      }
    }
  }

  lemma ReadKeepsInv(s: State, a: Action)
    requires Inv(s) && Enabled(s, a) && a.Read?
    ensures Inv(Step(s, a))
  {
    var t, j := Step(s, a), s.queue.jobs[a.e.id];
    var read := a.e.(seen := Some(Seen(j.attempts, j.max)));
    assert Alive(s, a.e);
    forall e | e in t.open && e != read
      ensures e in s.open && e != a.e && (Alive(t, e) ==> Alive(s, e) && e.id != a.e.id)
    {
    }
  }

  lemma {:induction false} StepKeepsInv(s: State, a: Action)
    requires Inv(s) && Enabled(s, a)
    ensures Inv(Step(s, a))
  {
    hide Batch, Owns, JobQueue.Apply, Batched, Statement, WriteSeen;
    match a
    case ClaimBatch(_, _, _, _) => ClaimKeepsInv(s, a);
    case Read(_, _) => ReadKeepsInv(s, a);
    case _ =>
      var t := Step(s, a);
      forall e | Alive(t, e)
        ensures Alive(s, e) && Owns(t.queue.jobs, e)
      {
        OwnerAfter(s, a, e);
      }
  }

  // ---- so Fail is one step after all ----

  /** The statements of the queue, with the failure where it is written. */
  function AtomicOf(a: Action): seq<JobQueue.Action> {
    match a
    case Whole(w, _) => [w]
    case ClaimBatch(order, _, _, now) => [AClaim(Ids(order), now)]
    case Read(_, _) => []
    case Write(e, now) => [AFail(e.id, now)]
  }

  function Atomic(actions: seq<Action>): seq<JobQueue.Action> {
    if actions == [] then [] else Atomic(actions[..|actions| - 1]) + AtomicOf(actions[|actions| - 1])
  }

  /** In time, the late write is Fail on the row as it is then. */
  lemma WriteIsFail(s: State, a: Action)
    requires Inv(s) && Enabled(s, a) && a.Write?
    ensures Step(s, a).queue == FailRow(s.queue, a.e.id, a.now)
  {
    assert Alive(s, a.e);
  }

  lemma StepIsAtomic(s: State, a: Action)
    requires Inv(s) && Enabled(s, a)
    ensures if a.Read? then Step(s, a).queue == s.queue
            else |AtomicOf(a)| == 1 && JobQueue.Enabled(s.queue, AtomicOf(a)[0])
                 && Step(s, a).queue == JobQueue.Apply(s.queue, AtomicOf(a)[0])
  {
    hide Schedule, Inv, Batched, WriteSeen, FailRow, ReapRows;
    if a.Write? { WriteIsFail(s, a); }
  }

  /** With deadlines kept, the queue with Fail in two statements runs as the queue with Fail
      in one: no reap falls between the lookup and the write. */
  lemma {:induction false} TimelyFailIsOneStep(s: State, actions: seq<Action>)
    requires Inv(s) && Legal(s, actions)
    ensures Inv(Run(s, actions))
    ensures JobQueue.Legal(s.queue, Atomic(actions)) && Run(s, actions).queue == JobQueue.Run(s.queue, Atomic(actions))
  {
    hide Inv, Enabled, Step, JobQueue.Apply, AtomicOf, JobQueue.Run, JobQueue.Legal, JobQueue.Enabled;
    NoStatements(s.queue);
    if actions != [] {
      var front, last := actions[..|actions| - 1], actions[|actions| - 1];
      TimelyFailIsOneStep(s, front);
      StepKeepsInv(Run(s, front), last);
      StepIsAtomic(Run(s, front), last);
      ReadIsNothing(last);
      if last.Read? {
        assert Atomic(actions) == Atomic(front);
      } else {
        OneMore(s.queue, Atomic(front), AtomicOf(last)[0]);
        assert Atomic(actions) == Atomic(front) + [AtomicOf(last)[0]];
      }
    }
  }

  lemma NoStatements(q: Queue)
    ensures JobQueue.Legal(q, []) && JobQueue.Run(q, []) == q
  {
  }

  lemma ReadIsNothing(a: Action)
    ensures a.Read? ==> AtomicOf(a) == []
  {
  }

  lemma OneMore(q: Queue, actions: seq<JobQueue.Action>, a: JobQueue.Action)
    requires JobQueue.Legal(q, actions) && JobQueue.Enabled(JobQueue.Run(q, actions), a)
    ensures JobQueue.Legal(q, actions + [a]) && JobQueue.Run(q, actions + [a]) == JobQueue.Apply(JobQueue.Run(q, actions), a)
  {
    hide JobQueue.Apply, JobQueue.Enabled;
    assert (actions + [a])[..|actions|] == actions;
  }

  const NEW := Queue(map[], multiset{})

  /** Hence, under the shipped timeouts, a pending job has an attempt left and a job is claimed
      at most max_attempts times between replays. */
  lemma {:induction false} ClaimedAtMostMaxInTime(clock: int, actions: seq<Action>, id: string)
    requires Legal(State(NEW, clock, {}), actions)
    ensures JobQueue.Inv(Run(State(NEW, clock, {}), actions).queue)
    ensures id in Run(State(NEW, clock, {}), actions).queue.jobs ==>
              ClaimsOf(NEW, Atomic(actions), id) <= Run(State(NEW, clock, {}), actions).queue.jobs[id].max
  {
    hide Legal, Run, Atomic, ClaimsOf, JobQueue.Run, JobQueue.Legal;
    TimelyFailIsOneStep(State(NEW, clock, {}), actions);
    RunKeepsInv(NEW, Atomic(actions));
    if id in Run(State(NEW, clock, {}), actions).queue.jobs {
      ClaimedAtMostMaxAttempts(NEW, Atomic(actions), id);
    }
  }
}

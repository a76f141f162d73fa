/** The durable job queue of internal/jobqueue/postgres.go: rows, the statements that
    change them, and what every interleaving of the statements keeps. */
module JobQueue {
  import opened Domain
  import opened Zones

  datatype Status = Pending | Claimed | Completed | Dead | Cancelled

  datatype Kind = SendReminder | CrmUpsert | CrmDeal

  /** `startsAt` and `timezone` are the two payload fields the queue itself edits. */
  datatype Job = Job(booking: string, kind: Kind, key: Option<string>, status: Status, attempts: int, max: int,
                     nextRetry: int, claimedAt: Option<int>, startsAt: int, timezone: string)

  datatype Letter = Letter(job: string, attempts: int, max: int, at: int)

  type Rows = map<string, Job>

  datatype Queue = Queue(jobs: Rows, letters: multiset<Letter>)

  const DEFAULT_LEASE := 300_000_000_000

  // ---- single rows ----

  predicate Due(j: Job, now: int) {
    j.status == Pending && j.nextRetry <= now
  }

  function Claim(j: Job, now: int): Job {
    j.(status := Claimed, claimedAt := Some(now), attempts := j.attempts + 1)
  }

  /** 30 seconds, doubled for every further attempt, at most an hour. */
  function RetryDelay(attempts: int): int {
    if attempts < 1 then 15 * SECOND else Min(30 * SECOND * Pow2(attempts - 1), HOUR)
  }

  function Retry(j: Job, at: int): Job {
    j.(status := Pending, nextRetry := at, claimedAt := None)
  }

  function Kill(j: Job): Job {
    j.(status := Dead, claimedAt := None)
  }

  predicate Stale(j: Job, lease: int, now: int) {
    j.status == Claimed && j.claimedAt.Some? && j.claimedAt.value < now - lease
  }

  function Lease(lease: int): int {
    if lease <= 0 then DEFAULT_LEASE else lease
  }

  function LetterFor(id: string, j: Job, now: int): Letter {
    Letter(id, j.attempts, j.max, now)
  }

  // ---- statements ----

  function ClaimRows(jobs: Rows, ids: set<string>, now: int): Rows {
    map id | id in jobs :: if id in ids then Claim(jobs[id], now) else jobs[id]
  }

  function CompleteRow(jobs: Rows, id: string): Rows {
    if id in jobs && jobs[id].status == Claimed then jobs[id := jobs[id].(status := Completed)] else jobs
  }

  function FailRow(q: Queue, id: string, now: int): Queue {
    if id !in q.jobs || q.jobs[id].status != Claimed then q
    else
      var j := q.jobs[id];
      if j.attempts < j.max then q.(jobs := q.jobs[id := Retry(j, now + RetryDelay(j.attempts))])
      else Queue(q.jobs[id := Kill(j)], q.letters + multiset{LetterFor(id, j, now)})
  }

  function Reaped(j: Job, lease: int, now: int): Job {
    if !Stale(j, lease, now) then j else if j.attempts < j.max then Retry(j, now) else Kill(j)
  }

  function ReapRows(q: Queue, lease: int, now: int): Queue {
    Queue(map id | id in q.jobs :: Reaped(q.jobs[id], lease, now),
          q.letters + multiset(set id | id in q.jobs && Stale(q.jobs[id], lease, now) && q.jobs[id].max <= q.jobs[id].attempts
                                 :: LetterFor(id, q.jobs[id], now)))
  }

  /** The insert of a job; a row with the same idempotency key makes it a no-op. */
  function EnqueueRow(jobs: Rows, id: string, j: Job): Rows {
    if j.key.Some? && exists other :: other in jobs && jobs[other].key == j.key then jobs else jobs[id := j]
  }

  function ReplayRow(jobs: Rows, id: string, now: int): Rows {
    if id in jobs && jobs[id].status == Dead
    then jobs[id := jobs[id].(status := Pending, attempts := 0, nextRetry := now, claimedAt := None)]
    else jobs
  }

  predicate Retirable(j: Job, booking: string, kind: Option<Kind>) {
    j.booking == booking && j.status in {Pending, Claimed} && (kind.None? || kind.value == j.kind)
  }

  function CancelRows(jobs: Rows, booking: string, kind: Option<Kind>): Rows {
    map id | id in jobs ::
      if Retirable(jobs[id], booking, kind) then jobs[id].(status := Cancelled, claimedAt := None) else jobs[id]
  }

  predicate Movable(j: Job, booking: string) {
    j.booking == booking && j.kind == SendReminder && j.status == Pending
  }

  /** The payload holds the start in whole seconds. */
  function Seconds(t: int): int {
    t / SECOND
  }

  function MoveRows(jobs: Rows, booking: string, startsAt: int, timezone: string): Rows {
    map id | id in jobs ::
      if Movable(jobs[id], booking) then jobs[id].(startsAt := Seconds(startsAt), timezone := timezone) else jobs[id]
  }

  // ---- the queue as a machine ----

  datatype Action =
    | AEnqueue(id: string, job: Job)
    | AClaim(ids: set<string>, now: int)
    | AComplete(id: string)
    | AFail(id: string, now: int)
    | AReap(lease: int, now: int)
    | AReplay(id: string, now: int)
    | ACancel(booking: string, kind: Option<Kind>)
    | AMove(booking: string, startsAt: int, timezone: string)

  /** A new row: pending, never tried, within the table's bounds on max_attempts. */
  predicate NewJob(j: Job) {
    j.status == Pending && j.attempts == 0 && 1 <= j.max <= 20 && j.claimedAt.None?
  }

  predicate AllDue(jobs: Rows, ids: set<string>, now: int) {
    forall id :: id in ids ==> id in jobs && Due(jobs[id], now)
  }

  predicate Enabled(q: Queue, a: Action) {
    match a
    case AEnqueue(id, job) => id !in q.jobs && NewJob(job)
    case AClaim(ids, now) => AllDue(q.jobs, ids, now)
    case _ => true
  }

  function Apply(q: Queue, a: Action): Queue {
    match a
    case AEnqueue(id, job) => q.(jobs := EnqueueRow(q.jobs, id, job))
    case AClaim(ids, now) => q.(jobs := ClaimRows(q.jobs, ids, now))
    case AComplete(id) => q.(jobs := CompleteRow(q.jobs, id))
    case AFail(id, now) => FailRow(q, id, now)
    case AReap(lease, now) => ReapRows(q, Lease(lease), now)
    case AReplay(id, now) => q.(jobs := ReplayRow(q.jobs, id, now))
    case ACancel(booking, kind) => q.(jobs := CancelRows(q.jobs, booking, kind))
    case AMove(booking, startsAt, timezone) => q.(jobs := MoveRows(q.jobs, booking, startsAt, timezone))
  }

  function Run(q: Queue, actions: seq<Action>): Queue {
    if actions == [] then q else Apply(Run(q, actions[..|actions| - 1]), actions[|actions| - 1])
  }

  predicate Legal(q: Queue, actions: seq<Action>) {
    actions == [] ||
    (Legal(q, actions[..|actions| - 1]) && Enabled(Run(q, actions[..|actions| - 1]), actions[|actions| - 1]))
  }

  // ---- what every step keeps ----

  predicate JobOk(j: Job) {
    && 1 <= j.max && 0 <= j.attempts <= j.max
    && (j.status == Pending ==> j.attempts < j.max)
    && (j.status == Claimed ==> 1 <= j.attempts && j.claimedAt.Some?)
    && (j.status == Completed ==> 1 <= j.attempts)
    && (j.status == Dead ==> j.attempts == j.max)
  }

  ghost predicate Mourned(letters: multiset<Letter>, id: string, max: int) {
    exists at :: Letter(id, max, max, at) in letters
  }

  ghost predicate Inv(q: Queue) {
    && (forall id :: id in q.jobs ==> JobOk(q.jobs[id]))
    && (forall id :: id in q.jobs && q.jobs[id].status == Dead ==> Mourned(q.letters, id, q.jobs[id].max))
  }

  /** One row's share of a step. */
  ghost predicate RowStep(id: string, before: Option<Job>, j: Job, letters: multiset<Letter>) {
    && JobOk(j)
    && (j.status == Dead && (before.None? || before.value.status != Dead) ==> Mourned(letters, id, j.max))
    && (before.Some? ==> j.max == before.value.max)
  }

  function Row(jobs: Rows, id: string): Option<Job> {
    if id in jobs then Some(jobs[id]) else None
  }

  lemma {:induction false} StepKeepsInv(q: Queue, a: Action)
    requires Inv(q) && Enabled(q, a)
    ensures Inv(Apply(q, a))
  {
    hide Apply, Enabled, JobOk, Mourned;
    var r := Apply(q, a);
    LettersStay(q, a);
    forall id | id in r.jobs
      ensures JobOk(r.jobs[id]) && (r.jobs[id].status == Dead ==> Mourned(r.letters, id, r.jobs[id].max))
    {
      RowAfter(q, a, id);
      if id in q.jobs && q.jobs[id].status == Dead {
        StillMourned(q.letters, r.letters, id, q.jobs[id].max);
      }
    }
  }

  lemma StillMourned(before: multiset<Letter>, after: multiset<Letter>, id: string, max: int)
    requires before <= after && Mourned(before, id, max)
    ensures Mourned(after, id, max)
  {
    var at :| Letter(id, max, max, at) in before;
    assert Letter(id, max, max, at) in after;
  }

  lemma LettersStay(q: Queue, a: Action)
    ensures q.letters <= Apply(q, a).letters
  {
  }

  lemma RowAfter(q: Queue, a: Action, id: string)
    requires Inv(q) && Enabled(q, a) && id in Apply(q, a).jobs
    ensures RowStep(id, Row(q.jobs, id), Apply(q, a).jobs[id], Apply(q, a).letters)
  {
    hide Inv;
    if id in q.jobs { OkRow(q, id); }
    match a
    case AFail(victim, now) => FailedRow(q, victim, now, id);
    case AReap(lease, now) => ReapedRow(q, Lease(lease), now, id);
    case _ =>
  }

  lemma OkRow(q: Queue, id: string)
    requires Inv(q) && id in q.jobs
    ensures JobOk(q.jobs[id])
  {
  }

  lemma FailedRow(q: Queue, victim: string, now: int, id: string)
    requires id in q.jobs && JobOk(q.jobs[id])
    ensures id in FailRow(q, victim, now).jobs
    ensures RowStep(id, Some(q.jobs[id]), FailRow(q, victim, now).jobs[id], FailRow(q, victim, now).letters)
  {
    if id == victim && q.jobs[id].status == Claimed && q.jobs[id].attempts == q.jobs[id].max {
      assert Letter(id, q.jobs[id].max, q.jobs[id].max, now) in FailRow(q, victim, now).letters;
    }
  }

  lemma ReapedRow(q: Queue, lease: int, now: int, id: string)
    requires id in q.jobs && JobOk(q.jobs[id])
    ensures id in ReapRows(q, lease, now).jobs
    ensures RowStep(id, Some(q.jobs[id]), ReapRows(q, lease, now).jobs[id], ReapRows(q, lease, now).letters)
  {
    if Stale(q.jobs[id], lease, now) && q.jobs[id].attempts == q.jobs[id].max {
      assert LetterFor(id, q.jobs[id], now) in ReapRows(q, lease, now).letters;
    }
  }

  /** In every run of the queue, from an empty table or any sound one. */
  lemma {:induction false} RunKeepsInv(q: Queue, actions: seq<Action>)
    requires Inv(q) && Legal(q, actions)
    ensures Inv(Run(q, actions))
  {
    if actions != [] {
      RunKeepsInv(q, actions[..|actions| - 1]);
      StepKeepsInv(Run(q, actions[..|actions| - 1]), actions[|actions| - 1]);
    }
  }
}

/** The queue with Fail as the code has it: one statement reads the attempts, a later one
    writes the retry or the burial, and anything may happen in between. */
module SplitFail {
  import opened Domain
  import opened Zones
  import opened JobQueue
  import opened JobQueueTheorems

  /** What the workers of one job still have in hand: executions that may yet report a failure,
      retries and burials read but not written, and how many retries were read and written. */
  datatype Book = Book(tickets: nat, lates: nat, burials: nat, retriesRead: nat, retriesWritten: nat)

  const BLANK := Book(0, 0, 0, 0, 0)

  datatype State = State(queue: Queue, books: map<string, Book>)

  datatype Action =
    | Whole(a: JobQueue.Action)
    | Read(id: string)
    | WriteRetry(id: string, attempts: int, now: int)
    | WriteBurial(id: string, now: int)

  function BookOf(s: State, id: string): Book {
    if id in s.books then s.books[id] else BLANK
  }

  /** Each claim gives its worker one execution, which reads at most once. */
  predicate Enabled(s: State, a: Action) {
    match a
    case Whole(w) => !w.AFail? && !w.AReplay? && JobQueue.Enabled(s.queue, w)
    case Read(id) => id in s.queue.jobs && s.queue.jobs[id].status == Claimed && BookOf(s, id).tickets > 0
    case WriteRetry(id, _, _) => BookOf(s, id).lates > 0
    case WriteBurial(id, _) => BookOf(s, id).burials > 0
  }

  function WithTickets(s: State, ids: set<string>): map<string, Book> {
    map id | id in s.books.Keys + ids ::
      if id in ids then BookOf(s, id).(tickets := BookOf(s, id).tickets + 1) else BookOf(s, id)
  }

  function AfterRead(j: Job, b: Book): Book
    requires b.tickets > 0
  {
    if j.attempts < j.max then b.(tickets := b.tickets - 1, lates := b.lates + 1, retriesRead := b.retriesRead + 1)
    else b.(tickets := b.tickets - 1, burials := b.burials + 1)
  }

  function Step(s: State, a: Action): State
    requires Enabled(s, a)
  {
    match a
    case Whole(w) =>
      State(JobQueue.Apply(s.queue, w), if w.AClaim? then WithTickets(s, w.ids) else s.books)
    case Read(id) => s.(books := s.books[id := AfterRead(s.queue.jobs[id], BookOf(s, id))])
    case WriteRetry(id, attempts, now) =>
      var b := BookOf(s, id);
      State(s.queue.(jobs := LateRetry(s.queue.jobs, id, attempts, now)),
            s.books[id := b.(lates := b.lates - 1, retriesWritten := b.retriesWritten + 1)])
    case WriteBurial(id, now) =>
      var b := BookOf(s, id);
      State(LateBurial(s.queue, id, now), s.books[id := b.(burials := b.burials - 1)])
  }

  function LateBurial(q: Queue, id: string, now: int): Queue {
    if id in q.jobs && q.jobs[id].status == Claimed
    then Queue(q.jobs[id := Kill(q.jobs[id])], q.letters + multiset{LetterFor(id, q.jobs[id], now)})
    else q
  }

  predicate Legal(s: State, actions: seq<Action>)
    decreases |actions|, 0
  {
    actions == [] ||
    (Legal(s, actions[..|actions| - 1]) && Enabled(Run(s, actions[..|actions| - 1]), actions[|actions| - 1]))
  }

  function Run(s: State, actions: seq<Action>): State
    requires Legal(s, actions)
    decreases |actions|, 1
  {
    if actions == [] then s else Step(Run(s, actions[..|actions| - 1]), actions[|actions| - 1])
  }

  // ---- the invariant ----

  /** A retry read needs an attempt left, so there are at most max - 1 of them, and each one
      written may give away one claim more. */
  predicate RowOk(j: Job, b: Book) {
    && 1 <= j.max && 0 <= j.attempts && b.tickets + b.retriesRead <= j.attempts
    && b.retriesRead <= j.max - 1 && b.lates + b.retriesWritten == b.retriesRead
    && j.attempts <= j.max + b.retriesWritten && (j.status == Pending ==> j.attempts < j.max + b.retriesWritten)
    && (j.status == Claimed ==> 1 <= j.attempts && j.claimedAt.Some?)
    && (b.burials > 0 ==> j.max <= j.attempts) && (j.status == Dead ==> j.max <= j.attempts)
  }

  ghost predicate Inv(s: State) {
    && (forall id :: id in s.queue.jobs ==> RowOk(s.queue.jobs[id], BookOf(s, id)))
    && (forall id :: id !in s.queue.jobs ==> BookOf(s, id) == BLANK)
  }

  lemma {:induction false} StepKeepsInv(s: State, a: Action)
    requires Inv(s) && Enabled(s, a)
    ensures Inv(Step(s, a))
  {
    hide Inv;
    var t := Step(s, a);
    forall id
      ensures id in t.queue.jobs ==> RowOk(t.queue.jobs[id], BookOf(t, id))
      ensures id !in t.queue.jobs ==> BookOf(t, id) == BLANK
    {
      RowAfter(s, a, id);
    }
    Collect(t);
  }

  lemma Collect(t: State)
    requires forall id :: id in t.queue.jobs ==> RowOk(t.queue.jobs[id], BookOf(t, id))
    requires forall id :: id !in t.queue.jobs ==> BookOf(t, id) == BLANK
    ensures Inv(t)
  {
  }

  lemma InvAt(s: State, id: string)
    requires Inv(s)
    ensures id in s.queue.jobs ==> RowOk(s.queue.jobs[id], BookOf(s, id))
    ensures id !in s.queue.jobs ==> BookOf(s, id) == BLANK
  {
  }

  lemma RowAfter(s: State, a: Action, id: string)
    requires Inv(s) && Enabled(s, a)
    ensures id in Step(s, a).queue.jobs ==> RowOk(Step(s, a).queue.jobs[id], BookOf(Step(s, a), id))
    ensures id !in Step(s, a).queue.jobs ==> BookOf(Step(s, a), id) == BLANK
  {
    hide Inv;
    InvAt(s, id);
    match a
    case Whole(w) =>
      BooksAfter(s, w, id);
      hide Step;
      WholeRow(s, w, id);
    case _ =>
  }

  lemma BooksAfter(s: State, w: JobQueue.Action, id: string)
    requires Enabled(s, Whole(w))
    ensures Step(s, Whole(w)).queue == JobQueue.Apply(s.queue, w)
    ensures BookOf(Step(s, Whole(w)), id) ==
            if w.AClaim? && id in w.ids then BookOf(s, id).(tickets := BookOf(s, id).tickets + 1) else BookOf(s, id)
  {
    hide JobQueue.Apply;
  }

  lemma WholeRow(s: State, w: JobQueue.Action, id: string)
    requires Enabled(s, Whole(w))
    requires id in s.queue.jobs ==> RowOk(s.queue.jobs[id], BookOf(s, id))
    requires id !in s.queue.jobs ==> BookOf(s, id) == BLANK
    ensures var jobs := JobQueue.Apply(s.queue, w).jobs;
            var b := BookOf(s, id);
            && (id in jobs ==> RowOk(jobs[id], if w.AClaim? && id in w.ids then b.(tickets := b.tickets + 1) else b))
            && (id !in jobs ==> b == BLANK && !(w.AClaim? && id in w.ids))
  {
  }

  /** In every run. */
  lemma {:induction false} RunKeepsInv(s: State, actions: seq<Action>)
    requires Inv(s) && Legal(s, actions)
    ensures Inv(Run(s, actions))
  {
    hide Inv, Step, Enabled;
    if actions != [] {
      RunKeepsInv(s, actions[..|actions| - 1]);
      StepKeepsInv(Run(s, actions[..|actions| - 1]), actions[|actions| - 1]);
    }
  }

  const EMPTY := State(Queue(map[], multiset{}), map[])

  /** With Fail in two statements, a job that is not replayed is claimed at most 2 * max - 1
      times, instead of max. */
  lemma {:induction false} ClaimedLessThanTwiceMax(actions: seq<Action>, id: string)
    requires Legal(EMPTY, actions) && id in Run(EMPTY, actions).queue.jobs
    ensures Run(EMPTY, actions).queue.jobs[id].attempts <= 2 * Run(EMPTY, actions).queue.jobs[id].max - 1
  {
    hide Run, Legal;
    RunKeepsInv(EMPTY, actions);
    InvAt(Run(EMPTY, actions), id);
  }

  /** And a pending job can be out of attempts only if a retry was written late. */
  lemma {:induction false} PendingHasAttemptUnlessLate(actions: seq<Action>, id: string)
    requires Legal(EMPTY, actions) && id in Run(EMPTY, actions).queue.jobs
    requires Run(EMPTY, actions).queue.jobs[id].status == Pending && BookOf(Run(EMPTY, actions), id).retriesWritten == 0
    ensures Run(EMPTY, actions).queue.jobs[id].attempts < Run(EMPTY, actions).queue.jobs[id].max
  {
    hide Run, Legal;
    RunKeepsInv(EMPTY, actions);
    InvAt(Run(EMPTY, actions), id);
  }

  // ---- jobs still come to rest ----

  /** How many more changes of status a job can see. */
  function LeftSplit(j: Job): int {
    match j.status
    case Pending => 2 * (2 * j.max - 1 - j.attempts)
    case Claimed => 2 * (2 * j.max - 1 - j.attempts) + 1
    case _ => 0
  }

  predicate StatusChanges(s: State, a: Action, id: string)
    requires Enabled(s, a)
  {
    id in s.queue.jobs && id in Step(s, a).queue.jobs && Step(s, a).queue.jobs[id].status != s.queue.jobs[id].status
  }

  lemma {:induction false} StatusChangeCosts(s: State, a: Action, id: string)
    requires Inv(s) && Enabled(s, a) && id in s.queue.jobs
    ensures id in Step(s, a).queue.jobs && 0 <= LeftSplit(Step(s, a).queue.jobs[id])
    ensures LeftSplit(Step(s, a).queue.jobs[id]) + (if StatusChanges(s, a, id) then 1 else 0) <= LeftSplit(s.queue.jobs[id])
  {
    hide Inv;
    InvAt(s, id);
    RowAfter(s, a, id);
    match a
    case Whole(w) =>
      BooksAfter(s, w, id);
      hide Step;
      WholeCosts(s.queue, w, id);
    case _ =>
  }

  lemma WholeCosts(q: Queue, w: JobQueue.Action, id: string)
    requires !w.AFail? && !w.AReplay? && JobQueue.Enabled(q, w) && id in q.jobs
    ensures var j := JobQueue.Apply(q, w).jobs;
            && id in j && j[id].max == q.jobs[id].max && q.jobs[id].attempts <= j[id].attempts
            && (j[id].status == q.jobs[id].status ==> j[id].attempts == q.jobs[id].attempts)
            && (j[id].status != q.jobs[id].status ==>
                  || (q.jobs[id].status == Pending && j[id].status == Claimed && j[id].attempts == q.jobs[id].attempts + 1)
                  || (q.jobs[id].status == Claimed && j[id].status == Pending && j[id].attempts == q.jobs[id].attempts)
                  || (q.jobs[id].status in {Pending, Claimed} && j[id].status in {Completed, Dead, Cancelled}))
  {
  }

  function ChangesIn(s: State, actions: seq<Action>, id: string): nat
    requires Legal(s, actions)
  {
    if actions == [] then 0
    else
      var front, last := actions[..|actions| - 1], actions[|actions| - 1];
      ChangesIn(s, front, id) + if StatusChanges(Run(s, front), last, id) then 1 else 0
  }

  /** Also with Fail in two statements an unreplayed job changes status only finitely often. */
  lemma {:induction false} JobsComeToRest(s: State, actions: seq<Action>, id: string)
    requires Inv(s) && Legal(s, actions) && id in s.queue.jobs
    ensures id in Run(s, actions).queue.jobs
    ensures ChangesIn(s, actions, id) + LeftSplit(Run(s, actions).queue.jobs[id]) <= LeftSplit(s.queue.jobs[id])
  {
    hide Inv, Step, Enabled, StatusChanges, LeftSplit;
    if actions != [] {
      JobsComeToRest(s, actions[..|actions| - 1], id);
      RunKeepsInv(s, actions[..|actions| - 1]);
      StatusChangeCosts(Run(s, actions[..|actions| - 1]), actions[|actions| - 1], id);
    }
  }

  // ---- the bound is reached ----

  const J := "job"

  function Fresh(max: int): Job {
    Job("booking", SendReminder, None, Pending, 0, max, 0, None, 0, "")
  }

  /** The job is claimed for the `attempts`-th time, with `lates` retries read and not written. */
  predicate InHand(s: State, max: int, attempts: int, lates: nat) {
    && J in s.queue.jobs && s.queue.jobs[J].max == max && s.queue.jobs[J].attempts == attempts
    && s.queue.jobs[J].status == Claimed && s.queue.jobs[J].claimedAt.Some?
    && BookOf(s, J).tickets > 0 && BookOf(s, J).lates == lates
  }

  lemma OneMore(s: State, actions: seq<Action>, a: Action)
    requires Legal(s, actions) && Enabled(Run(s, actions), a)
    ensures Legal(s, actions + [a]) && Run(s, actions + [a]) == Step(Run(s, actions), a)
  {
    assert (actions + [a])[..|actions|] == actions;
  }

  lemma FirstClaim(max: int) returns (actions: seq<Action>)
    requires 1 <= max <= 20
    ensures Legal(EMPTY, actions) && InHand(Run(EMPTY, actions), max, 1, 0)
  {
    var enqueue, claim := Whole(AEnqueue(J, Fresh(max))), Whole(AClaim({J}, 0));
    OneMore(EMPTY, [], enqueue);
    OneMore(EMPTY, [] + [enqueue], claim);
    actions := [] + [enqueue] + [claim];
  }

  /** Read, lose the claim to a reaper, be claimed again. */
  lemma ClimbOne(s: State, max: int, attempts: int, lates: nat) returns (a: Action, b: Action, c: Action)
    requires InHand(s, max, attempts, lates) && attempts < max
    ensures Enabled(s, a) && Enabled(Step(s, a), b) && Enabled(Step(Step(s, a), b), c)
    ensures InHand(Step(Step(Step(s, a), b), c), max, attempts + 1, lates + 1)
  {
    var now := s.queue.jobs[J].claimedAt.value + 301 * SECOND;
    a, b, c := Read(J), Whole(AReap(300 * SECOND, now)), Whole(AClaim({J}, now));
    var s1 := Step(s, a);
    var s2 := Step(s1, b);
    assert Stale(s1.queue.jobs[J], 300 * SECOND, now);
    assert s2.queue.jobs[J] == Retry(s.queue.jobs[J], now);
  }

  /** A late write gives the claim away, and the job is claimed again. */
  lemma OverOne(s: State, max: int, attempts: int, lates: nat) returns (a: Action, b: Action)
    requires InHand(s, max, attempts, lates) && 0 < lates
    ensures Enabled(s, a) && Enabled(Step(s, a), b)
    ensures InHand(Step(Step(s, a), b), max, attempts + 1, lates - 1)
  {
    a := WriteRetry(J, 1, 0);
    var s1 := Step(s, a);
    b := Whole(AClaim({J}, s1.queue.jobs[J].nextRetry));
  }

  lemma {:induction false} Climb(max: int, k: nat) returns (actions: seq<Action>)
    requires 1 <= k <= max <= 20
    ensures Legal(EMPTY, actions) && InHand(Run(EMPTY, actions), max, k, k - 1)
    decreases k
  {
    hide InHand, Enabled, Step;
    if k == 1 {
      actions := FirstClaim(max);
    } else {
      var before := Climb(max, k - 1);
      var a, b, c := ClimbOne(Run(EMPTY, before), max, k - 1, k - 2);
      OneMore(EMPTY, before, a);
      OneMore(EMPTY, before + [a], b);
      OneMore(EMPTY, before + [a] + [b], c);
      actions := before + [a] + [b] + [c];
    }
  }

  lemma {:induction false} Over(max: int, k: nat) returns (actions: seq<Action>)
    requires 0 <= k < max <= 20
    ensures Legal(EMPTY, actions) && InHand(Run(EMPTY, actions), max, max + k, max - 1 - k)
    decreases k
  {
    hide InHand, Enabled, Step;
    if k == 0 {
      actions := Climb(max, max);
    } else {
      var before := Over(max, k - 1);
      var a, b := OverOne(Run(EMPTY, before), max, max + k - 1, max - k);
      OneMore(EMPTY, before, a);
      OneMore(EMPTY, before + [a], b);
      actions := before + [a] + [b];
    }
  }

  /** For every max the table admits, some run claims a job 2 * max - 1 times. */
  lemma {:induction false} BoundIsReached(max: int) returns (actions: seq<Action>)
    requires 1 <= max <= 20
    ensures Legal(EMPTY, actions) && J in Run(EMPTY, actions).queue.jobs
    ensures Run(EMPTY, actions).queue.jobs[J].max == max && Run(EMPTY, actions).queue.jobs[J].attempts == 2 * max - 1
  {
    hide Run, Legal;
    actions := Over(max, max - 1);
  }
}

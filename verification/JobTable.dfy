/** The methods of internal/jobqueue/postgres.go as updates of the jobs table. */
module JobTable {
  import opened Domain
  import opened JobQueue

  class Table {
    var jobs: Rows
    var letters: multiset<Letter>

    ghost function Contents(): Queue
      reads this
    {
      Queue(jobs, letters)
    }

    /** Claims up to `limit` due jobs whose rows no other transaction has locked. */
    method ClaimBatch(limit: nat, locked: set<string>, now: int) returns (claimed: seq<string>)
      modifies this
      ensures IsBatch(old(jobs), Candidates(old(jobs), locked, now), claimed, limit)
      ensures Enabled(old(Contents()), AClaim(Ids(claimed), now))
      ensures Contents() == Apply(old(Contents()), AClaim(Ids(claimed), now))
      ensures |claimed| <= limit && forall id :: id in claimed ==>
                id in old(jobs) && old(jobs)[id].status == Pending && old(jobs)[id].nextRetry <= now && id !in locked
      ensures |claimed| < limit ==>
                forall id :: id in old(jobs) && old(jobs)[id].status == Pending && old(jobs)[id].nextRetry <= now && id !in locked ==> id in claimed
      ensures jobs.Keys == old(jobs).Keys && letters == old(letters)
      ensures forall id :: id in jobs ==>
                jobs[id] == if id in claimed
                            then old(jobs)[id].(status := Claimed, claimedAt := Some(now), attempts := old(jobs)[id].attempts + 1)
                            else old(jobs)[id]
    {
      hide IsBatch;
      claimed := SelectDue(jobs, limit, locked, now);
      BatchIsDue(jobs, locked, now, claimed, limit);
      BatchIsWhole(jobs, locked, now, claimed, limit);
      jobs := ClaimRows(jobs, Ids(claimed), now);
    }

    method Complete(id: string) returns (ok: bool)
      modifies this
      ensures ok <==> id in old(jobs) && old(jobs)[id].status == Claimed
      ensures Contents() == Apply(old(Contents()), AComplete(id))
      ensures letters == old(letters)
      ensures jobs == if ok then old(jobs)[id := old(jobs)[id].(status := Completed)] else old(jobs)
    {
      ok := id in jobs && jobs[id].status == Claimed;
      if ok {
        jobs := jobs[id := jobs[id].(status := Completed)];
      }
    }

    method Fail(id: string, now: int) returns (ok: bool)
      modifies this
      ensures ok <==> id in old(jobs) && old(jobs)[id].status == Claimed
      ensures Contents() == Apply(old(Contents()), AFail(id, now))
      ensures !ok ==> jobs == old(jobs) && letters == old(letters)
      ensures ok && old(jobs)[id].attempts < old(jobs)[id].max ==>
                && letters == old(letters)
                && jobs == old(jobs)[id := old(jobs)[id].(status := Pending, claimedAt := None,
                                                          nextRetry := now + RetryDelay(old(jobs)[id].attempts))]
      ensures ok && old(jobs)[id].max <= old(jobs)[id].attempts ==>
                && letters == old(letters) + multiset{Letter(id, old(jobs)[id].attempts, old(jobs)[id].max, now)}
                && jobs == old(jobs)[id := old(jobs)[id].(status := Dead, claimedAt := None)]
    {
      if id !in jobs || jobs[id].status != Claimed {
        return false;
      }
      var attempts, max := jobs[id].attempts, jobs[id].max;
      if attempts < max {
        RetryJob(id, attempts, now);
      } else {
        DeadLetter(id, now);
      }
      return true;
    }

    method RetryJob(id: string, attempts: int, now: int)
      requires id in jobs && jobs[id].status == Claimed
      modifies this
      ensures jobs == old(jobs)[id := Retry(old(jobs)[id], now + RetryDelay(attempts))] && letters == old(letters)
    {
      jobs := jobs[id := Retry(jobs[id], now + RetryDelay(attempts))];
    }

    method DeadLetter(id: string, now: int)
      requires id in jobs && jobs[id].status == Claimed
      modifies this
      ensures jobs == old(jobs)[id := Kill(old(jobs)[id])]
      ensures letters == old(letters) + multiset{LetterFor(id, old(jobs)[id], now)}
    {
      letters := letters + multiset{LetterFor(id, jobs[id], now)};
      jobs := jobs[id := Kill(jobs[id])];
    }

    /** Two statements in one transaction: bury the exhausted stale claims, then give
        back the stale claims that are left. */
    method RequeueStaleClaims(lease: int, now: int) returns (requeued: nat, deadLettered: nat)
      modifies this
      ensures Contents() == Apply(old(Contents()), AReap(lease, now))
      ensures requeued + deadLettered == |StaleIds(old(jobs), Lease(lease), now)|
      ensures deadLettered == |Exhausted(old(jobs), Lease(lease), now)|
      ensures jobs.Keys == old(jobs).Keys
      ensures forall id :: id in jobs ==>
                ReapedAs(old(jobs)[id], if lease <= 0 then 300_000_000_000 else lease, now, jobs[id])
    {
      ReapedRows(Contents(), Lease(lease), now);
      hide StaleIds, Exhausted, Bury, GiveBack, Letters, Returned, ReapRows;
      var span := if lease <= 0 then DEFAULT_LEASE else lease;
      ReapInTwoStatements(jobs, span, now);
      ReapAdds(jobs, letters, span, now);
      letters := letters + Letters(jobs, span, now);
      deadLettered := |Exhausted(jobs, span, now)|;
      var buried := Bury(jobs, span, now);
      LeftStale(jobs, span, now);
      var returned := StaleIds(buried, span, now) - Exhausted(buried, span, now);
      requeued := |returned|;
      jobs := GiveBack(buried, returned, now);
    }

    method ReplayDeadLetter(id: string, now: int) returns (ok: bool)
      modifies this
      ensures ok <==> id in old(jobs) && old(jobs)[id].status == Dead
      ensures Contents() == Apply(old(Contents()), AReplay(id, now))
      ensures letters == old(letters)
      ensures jobs == if ok then old(jobs)[id := old(jobs)[id].(status := Pending, attempts := 0, nextRetry := now, claimedAt := None)]
                      else old(jobs)
    {
      ok := id in jobs && jobs[id].status == Dead;
      if ok {
        jobs := jobs[id := jobs[id].(status := Pending, attempts := 0, nextRetry := now, claimedAt := None)];
      }
    }
  }

  /** What a reap makes of a row: a claim older than the lease is given back at once while it has
      attempts left and buried when it has none; every other row stays as it is. */
  predicate ReapedAs(j: Job, lease: int, now: int, r: Job) {
    if j.status == Claimed && j.claimedAt.Some? && j.claimedAt.value < now - lease then
      if j.attempts < j.max then r == j.(status := Pending, nextRetry := now, claimedAt := None)
      else r == j.(status := Dead, claimedAt := None)
    else r == j
  }

  lemma ReapedRows(q: Queue, lease: int, now: int)
    ensures ReapRows(q, lease, now).jobs.Keys == q.jobs.Keys
    ensures forall id :: id in q.jobs ==> ReapedAs(q.jobs[id], lease, now, ReapRows(q, lease, now).jobs[id])
  {
  }

  function Ids(s: seq<string>): set<string> {
    set id | id in s
  }

  function Candidates(jobs: Rows, locked: set<string>, now: int): set<string> {
    set id | id in jobs && Due(jobs[id], now) && id !in locked
  }

  predicate NoneLater(jobs: Rows, s: seq<string>, t: int) {
    forall i :: 0 <= i < |s| ==> s[i] in jobs && jobs[s[i]].nextRetry <= t
  }

  predicate EarliestFirst(jobs: Rows, s: seq<string>) {
    forall j :: 0 <= j < |s| ==> s[j] in jobs && NoneLater(jobs, s[..j], jobs[s[j]].nextRetry)
  }

  predicate Distinct(s: seq<string>) {
    forall i, j :: 0 <= i < j < |s| ==> s[i] != s[j]
  }

  /** What ORDER BY next_retry_at LIMIT selects: distinct candidates, earliest first, and
      a candidate is passed over only for a full batch of earlier ones. */
  ghost predicate IsBatch(jobs: Rows, candidates: set<string>, s: seq<string>, limit: nat) {
    && |s| <= limit && Distinct(s) && EarliestFirst(jobs, s) && Ids(s) <= candidates
    && forall id :: id in candidates - Ids(s) ==> |s| == limit && id in jobs && NoneLater(jobs, s, jobs[id].nextRetry)
  }

  /** A batch in the making: no candidate left is earlier than one taken. */
  ghost predicate Picking(jobs: Rows, candidates: set<string>, rest: set<string>, s: seq<string>) {
    && Distinct(s) && EarliestFirst(jobs, s) && Ids(s) <= candidates && rest == candidates - Ids(s)
    && forall id :: id in rest ==> id in jobs && NoneLater(jobs, s, jobs[id].nextRetry)
  }

  lemma DistinctNext(s: seq<string>, id: string)
    requires Distinct(s) && id !in s
    ensures Distinct(s + [id]) && Ids(s + [id]) == Ids(s) + {id}
  {
  }

  lemma {:induction false} EarliestNext(jobs: Rows, s: seq<string>, id: string)
    requires EarliestFirst(jobs, s) && id in jobs && NoneLater(jobs, s, jobs[id].nextRetry)
    ensures EarliestFirst(jobs, s + [id])
  {
    var t := s + [id];
    forall j | 0 <= j < |t|
      ensures t[j] in jobs && NoneLater(jobs, t[..j], jobs[t[j]].nextRetry)
    {
      assert t[..j] == s[..j];
      assert s[..|s|] == s;
    }
  }

  lemma {:induction false} PickNext(jobs: Rows, candidates: set<string>, rest: set<string>, s: seq<string>, id: string)
    requires Picking(jobs, candidates, rest, s) && id in rest
    requires forall other :: other in rest ==> jobs[id].nextRetry <= jobs[other].nextRetry
    ensures Picking(jobs, candidates, rest - {id}, s + [id])
  {
    hide Distinct, EarliestFirst;
    assert id !in Ids(s);
    DistinctNext(s, id);
    EarliestNext(jobs, s, id);
  }

  method SelectDue(jobs: Rows, limit: nat, locked: set<string>, now: int) returns (batch: seq<string>)
    ensures IsBatch(jobs, Candidates(jobs, locked, now), batch, limit)
  {
    hide Distinct, EarliestFirst, NoneLater, Due;
    batch := [];
    var rest := Candidates(jobs, locked, now);
    NothingPicked(jobs, rest);
    while |batch| < limit && rest != {}
      invariant |batch| <= limit && Picking(jobs, Candidates(jobs, locked, now), rest, batch)
      decreases rest
    {
      var id := Earliest(jobs, rest);
      PickNext(jobs, Candidates(jobs, locked, now), rest, batch, id);
      batch, rest := batch + [id], rest - {id};
    }
  }

  lemma NothingPicked(jobs: Rows, candidates: set<string>)
    requires forall id :: id in candidates ==> id in jobs
    ensures Picking(jobs, candidates, candidates, [])
  {
    assert Ids([]) == {};
  }

  lemma BatchIsDue(jobs: Rows, locked: set<string>, now: int, s: seq<string>, limit: nat)
    requires IsBatch(jobs, Candidates(jobs, locked, now), s, limit)
    ensures AllDue(jobs, Ids(s), now)
  {
  }

  lemma BatchIsWhole(jobs: Rows, locked: set<string>, now: int, s: seq<string>, limit: nat)
    requires IsBatch(jobs, Candidates(jobs, locked, now), s, limit)
    ensures |s| <= limit && forall id :: id in s ==> id in jobs && jobs[id].status == Pending && jobs[id].nextRetry <= now && id !in locked
    ensures |s| < limit ==>
              forall id :: id in jobs && jobs[id].status == Pending && jobs[id].nextRetry <= now && id !in locked ==> id in s
  {
    forall id | id in s
      ensures id in Candidates(jobs, locked, now)
    {
      assert id in Ids(s);
    }
    if |s| < limit {
      forall id | id in Candidates(jobs, locked, now)
        ensures id in s
      {
        assert id in Ids(s);
      }
    }
  }

  function StaleIds(jobs: Rows, lease: int, now: int): set<string> {
    set id | id in jobs && Stale(jobs[id], lease, now)
  }

  function Exhausted(jobs: Rows, lease: int, now: int): set<string> {
    set id | id in jobs && Stale(jobs[id], lease, now) && jobs[id].max <= jobs[id].attempts
  }

  function Letters(jobs: Rows, lease: int, now: int): multiset<Letter> {
    multiset(set id | id in jobs && Stale(jobs[id], lease, now) && jobs[id].max <= jobs[id].attempts
               :: LetterFor(id, jobs[id], now))
  }

  function Bury(jobs: Rows, lease: int, now: int): Rows {
    map id | id in jobs :: if id in Exhausted(jobs, lease, now) then Kill(jobs[id]) else jobs[id]
  }

  function GiveBack(jobs: Rows, ids: set<string>, now: int): Rows {
    map id | id in jobs :: if id in ids then Retry(jobs[id], now) else jobs[id]
  }

  /** What is left stale after the burial. */
  function Returned(jobs: Rows, lease: int, now: int): set<string> {
    StaleIds(Bury(jobs, lease, now), lease, now) - Exhausted(Bury(jobs, lease, now), lease, now)
  }

  lemma ReapInTwoStatements(jobs: Rows, lease: int, now: int)
    ensures GiveBack(Bury(jobs, lease, now), Returned(jobs, lease, now), now) == ReapRows(Queue(jobs, multiset{}), lease, now).jobs
    ensures |Returned(jobs, lease, now)| + |Exhausted(jobs, lease, now)| == |StaleIds(jobs, lease, now)|
  {
    hide Returned, Reaped, Stale;
    var returned := Returned(jobs, lease, now);
    forall id | id in jobs
      ensures GiveBack(Bury(jobs, lease, now), returned, now)[id] == Reaped(jobs[id], lease, now)
    {
      RowInTwoStatements(jobs, lease, now, id);
    }
    forall id
      ensures id in returned <==> id in StaleIds(jobs, lease, now) && id !in Exhausted(jobs, lease, now)
    {
      RowInTwoStatements(jobs, lease, now, id);
    }
    assert StaleIds(jobs, lease, now) == returned + Exhausted(jobs, lease, now);
  }

  lemma LeftStale(jobs: Rows, lease: int, now: int)
    ensures Returned(jobs, lease, now) ==
            StaleIds(Bury(jobs, lease, now), lease, now) - Exhausted(Bury(jobs, lease, now), lease, now)
  {
  }

  lemma ReapAdds(jobs: Rows, letters: multiset<Letter>, lease: int, now: int)
    ensures ReapRows(Queue(jobs, letters), lease, now).letters == letters + Letters(jobs, lease, now)
    ensures ReapRows(Queue(jobs, letters), lease, now).jobs == ReapRows(Queue(jobs, multiset{}), lease, now).jobs
  {
  }

  lemma RowInTwoStatements(jobs: Rows, lease: int, now: int, id: string)
    ensures id in Returned(jobs, lease, now) <==> id in StaleIds(jobs, lease, now) && id !in Exhausted(jobs, lease, now)
    ensures id in jobs ==> id in Bury(jobs, lease, now)
    ensures id in jobs ==>
              (if id in Returned(jobs, lease, now) then Retry(Bury(jobs, lease, now)[id], now) else Bury(jobs, lease, now)[id])
              == Reaped(jobs[id], lease, now)
  {
  }

  /** The row that ORDER BY next_retry_at puts first. */
  method Earliest(jobs: Rows, ids: set<string>) returns (first: string)
    requires ids != {} && forall id :: id in ids ==> id in jobs
    ensures first in ids && forall id :: id in ids ==> jobs[first].nextRetry <= jobs[id].nextRetry
  {
    first :| first in ids;
    var rest := ids - {first};
    while rest != {}
      invariant first in ids && rest <= ids
      invariant forall id :: id in ids && id !in rest ==> jobs[first].nextRetry <= jobs[id].nextRetry
      decreases rest
    {
      var id :| id in rest;
      if jobs[id].nextRetry < jobs[first].nextRetry {
        first := id;
      }
      rest := rest - {id};
    }
  }
}

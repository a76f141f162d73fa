/** One batch of the worker in cmd/worker/main.go: a semaphore of c slots, jobs of bounded
    length, and why the lease outlives every claim of a live worker. */
module Lease {
  import opened Domain
  import opened Zones
  import Q = JobQueue

  const BATCH := 10
  const SLOTS := 4
  const JOB_TIMEOUT := 30 * SECOND
  const WRITE_TIMEOUT := 5 * SECOND
  const STALE_LEASE := 300 * SECOND

  /** How many of the first `k` jobs are still running at time `t`. */
  function Running(ends: seq<int>, k: nat, t: int): nat
    requires k <= |ends|
  {
    if k == 0 then 0 else Running(ends, k - 1, t) + if t < ends[k - 1] then 1 else 0
  }

  function Earliest(starts: seq<int>, k: nat): int
    requires k <= |starts|
  {
    if k == 0 then 0 else starts[k - 1]
  }

  /** Job `k` starts in order, when a slot is free, and as soon as one is. */
  ghost predicate StartsEagerly(slots: nat, starts: seq<int>, ends: seq<int>, k: nat)
    requires |starts| == |ends| && k < |starts|
  {
    && Earliest(starts, k) <= starts[k] && Running(ends, k, starts[k]) < slots
    && forall t :: Earliest(starts, k) <= t && Running(ends, k, t) < slots ==> starts[k] <= t
  }

  /** A batch whose jobs all take at most `longest`; time counts from the claim. */
  ghost predicate Schedule(slots: nat, longest: int, starts: seq<int>, ends: seq<int>) {
    && |starts| == |ends|
    && forall k :: 0 <= k < |starts| ==>
         StartsEagerly(slots, starts, ends, k) && starts[k] <= ends[k] <= starts[k] + longest
  }

  // ---- processBatch ----

  /** The loop over the jobs: acquire a slot, start the job, which takes as long as it takes. */
  method ProcessBatch(slots: nat, lengths: seq<int>) returns (starts: seq<int>, ends: seq<int>)
    requires 0 < slots && forall k :: 0 <= k < |lengths| ==> 0 <= lengths[k]
    ensures |starts| == |lengths|
    ensures forall longest :: (forall k :: 0 <= k < |lengths| ==> lengths[k] <= longest) ==> Schedule(slots, longest, starts, ends)
    ensures |ends| == |lengths| && forall k :: 0 <= k < |lengths| ==> ends[k] == starts[k] + lengths[k]
  {
    hide StartsEagerly, Running;
    starts, ends := [], [];
    for k := 0 to |lengths|
      invariant |starts| == |ends| == k
      invariant forall i :: 0 <= i < k ==> StartsEagerly(slots, starts, ends, i)
      invariant forall i :: 0 <= i < k ==> ends[i] == starts[i] + lengths[i]
    {
      var now := AcquireSlot(slots, ends, Earliest(starts, k));
      Extended(slots, starts, ends, now, now + lengths[k]);
      starts, ends := starts + [now], ends + [now + lengths[k]];
    }
  }

  lemma {:induction false} RunningExtended(ends: seq<int>, e: int, k: nat, t: int)
    requires k <= |ends|
    ensures Running(ends + [e], k, t) == Running(ends, k, t)
  {
    if k > 0 { RunningExtended(ends, e, k - 1, t); }
  }

  lemma Extended(slots: nat, starts: seq<int>, ends: seq<int>, s: int, e: int)
    requires |starts| == |ends| && forall i :: 0 <= i < |starts| ==> StartsEagerly(slots, starts, ends, i)
    requires Earliest(starts, |starts|) <= s && Running(ends, |ends|, s) < slots
    requires forall t :: Earliest(starts, |starts|) <= t && Running(ends, |ends|, t) < slots ==> s <= t
    ensures forall i :: 0 <= i <= |starts| ==> StartsEagerly(slots, starts + [s], ends + [e], i)
  {
    forall i | 0 <= i <= |starts|
      ensures StartsEagerly(slots, starts + [s], ends + [e], i)
    {
      forall t
        ensures Running(ends + [e], i, t) == Running(ends, i, t)
      {
        RunningExtended(ends, e, i, t);
      }
      assert Earliest(starts + [s], i) == Earliest(starts, i);
      assert i < |starts| ==> StartsEagerly(slots, starts, ends, i);
    }
  }

  /** Waiting on the semaphore: the first moment from `now` on with a free slot. */
  method AcquireSlot(slots: nat, ends: seq<int>, now: int) returns (t: int)
    requires 0 < slots
    ensures now <= t && Running(ends, |ends|, t) < slots
    ensures forall u :: now <= u && Running(ends, |ends|, u) < slots ==> t <= u
  {
    t := now;
    while slots <= Running(ends, |ends|, t)
      invariant now <= t && forall u :: now <= u && Running(ends, |ends|, u) < slots ==> t <= u
      decreases Running(ends, |ends|, t)
    {
      var next := NextEnd(ends, t);
      forall u | t <= u < next
        ensures Running(ends, |ends|, u) == Running(ends, |ends|, t)
      {
        NoEndBetween(ends, |ends|, t, u);
      }
      OneEnds(ends, |ends|, t, next);
      t := next;
    }
  }

  method NextEnd(ends: seq<int>, t: int) returns (next: int)
    requires 0 < Running(ends, |ends|, t)
    ensures t < next && next in ends && forall i :: 0 <= i < |ends| ==> ends[i] <= t || next <= ends[i]
  {
    var found := false;
    next := t;
    for k := 0 to |ends|
      invariant !found ==> Running(ends, k, t) == 0 && forall i :: 0 <= i < k ==> ends[i] <= t
      invariant found ==> t < next && next in ends && forall i :: 0 <= i < k ==> ends[i] <= t || next <= ends[i]
    {
      if t < ends[k] && (!found || ends[k] < next) {
        found, next := true, ends[k];
      }
    }
  }

  lemma {:induction false} NoEndBetween(ends: seq<int>, k: nat, t: int, u: int)
    requires k <= |ends| && t <= u && forall i :: 0 <= i < |ends| ==> ends[i] <= t || u < ends[i]
    ensures Running(ends, k, u) == Running(ends, k, t)
  {
    if k > 0 { NoEndBetween(ends, k - 1, t, u); }
  }

  lemma {:induction false} RunningFalls(ends: seq<int>, k: nat, t: int, u: int)
    requires k <= |ends| && t <= u
    ensures Running(ends, k, u) <= Running(ends, k, t)
  {
    if k > 0 { RunningFalls(ends, k - 1, t, u); }
  }

  lemma {:induction false} OneEnds(ends: seq<int>, k: nat, t: int, u: int)
    requires k <= |ends| && t < u && u in ends[..k]
    ensures Running(ends, k, u) < Running(ends, k, t)
  {
    if ends[k - 1] == u {
      RunningFalls(ends, k - 1, t, u);
    } else {
      assert ends[..k] == ends[..k - 1] + [ends[k - 1]];
      OneEnds(ends, k - 1, t, u);
    }
  }

  // ---- the bound ----

  /** floor(k / slots) * longest. */
  function Rounds(k: nat, slots: nat, longest: int): int
    requires 0 < slots
  {
    if k < slots then 0 else Rounds(k - slots, slots, longest) + longest
  }

  lemma {:induction false} RoundsIsFloor(k: nat, slots: nat, longest: int)
    requires 0 < slots
    ensures Rounds(k, slots, longest) == (k / slots) * longest
  {
    if k < slots {
      assert k / slots == 0;
    } else {
      RoundsIsFloor(k - slots, slots, longest);
      Quotient(k, slots);
      assert (k / slots) * longest == ((k - slots) / slots) * longest + longest;
    }
  }

  lemma Quotient(k: nat, slots: nat)
    requires 0 < slots <= k
    ensures k / slots == (k - slots) / slots + 1
  {
    var m, r := (k - slots) / slots, (k - slots) % slots;
    assert k == (m + 1) * slots + r;
    UniqueQuotient(k, slots, m + 1, r);
  }

  lemma UniqueQuotient(k: int, slots: int, m: int, r: int)
    requires 0 < slots && k == m * slots + r && 0 <= r < slots
    ensures k / slots == m
  {
    var d := k / slots - m;
    assert slots * d == r - k % slots;
    AtLeastOneMultiple(slots, d);
  }

  lemma AtLeastOneMultiple(slots: int, d: int)
    requires 0 < slots
    ensures 0 < d ==> slots <= slots * d
    ensures d < 0 ==> slots * d <= -slots
  {
  }

  lemma {:induction false} RoundsGrow(k: nat, slots: nat, longest: int)
    requires 0 < slots && 0 <= longest
    ensures Rounds(k, slots, longest) <= Rounds(k + 1, slots, longest)
    decreases k
  {
    if slots <= k {
      RoundsGrow(k - slots, slots, longest);
    } else if k + 1 == slots {
      assert Rounds(0, slots, longest) == 0;
    }
  }

  lemma {:induction false} RunningAtMost(ends: seq<int>, k: nat, t: int, done: nat)
    requires done <= k <= |ends| && forall i :: 0 <= i < done ==> ends[i] <= t
    ensures Running(ends, k, t) <= k - done
  {
    if k > 0 {
      if done == k {
        RunningAtMost(ends, k - 1, t, k - 1);
      } else {
        RunningAtMost(ends, k - 1, t, done);
      }
    }
  }

  lemma {:induction false} StartsAscend(slots: nat, longest: int, starts: seq<int>, ends: seq<int>, i: nat, j: nat)
    requires Schedule(slots, longest, starts, ends) && i <= j < |starts|
    ensures starts[i] <= starts[j]
    decreases j
  {
    if i < j {
      StartsAscend(slots, longest, starts, ends, i, j - 1);
      assert StartsEagerly(slots, starts, ends, j);
    }
  }

  /** Job k of a batch starts by floor(k / slots) times the longest job. */
  lemma {:induction false} StartsInTime(slots: nat, longest: int, starts: seq<int>, ends: seq<int>, k: nat)
    requires 0 < slots && 0 <= longest && Schedule(slots, longest, starts, ends) && k < |starts|
    ensures starts[k] <= Rounds(k, slots, longest)
    decreases k
  {
    assert StartsEagerly(slots, starts, ends, k);
    var t := Rounds(k, slots, longest);
    if k > 0 {
      StartsInTime(slots, longest, starts, ends, k - 1);
      RoundsGrow(k - 1, slots, longest);
    } else {
      assert t == 0;
    }
    if slots <= k {
      var done := k - slots;
      StartsInTime(slots, longest, starts, ends, done);
      forall i | 0 <= i < done + 1
        ensures ends[i] <= t
      {
        StartsAscend(slots, longest, starts, ends, i, done);
      }
      RunningAtMost(ends, k, t, done + 1);
    } else {
      RunningAtMost(ends, k, t, 0);
    }
  }

  /** The whole batch ends by ceil(n / slots) times the longest job. */
  lemma {:induction false} BatchEndsInTime(slots: nat, longest: int, starts: seq<int>, ends: seq<int>, k: nat)
    requires 0 < slots && 0 <= longest && Schedule(slots, longest, starts, ends) && k < |starts|
    ensures ends[k] <= Rounds(|ends| - 1, slots, longest) + longest
  {
    StartsInTime(slots, longest, starts, ends, |starts| - 1);
    StartsAscend(slots, longest, starts, ends, k, |starts| - 1);
  }

  // ---- the bound is reached ----

  function FullStarts(n: nat, slots: nat, longest: int): seq<int>
    requires 0 < slots
  {
    seq(n, k requires 0 <= k < n => Rounds(k, slots, longest))
  }

  function FullEnds(n: nat, slots: nat, longest: int): seq<int>
    requires 0 < slots
  {
    seq(n, k requires 0 <= k < n => Rounds(k, slots, longest) + longest)
  }

  lemma {:induction false} RunningAtLeast(ends: seq<int>, k: nat, t: int, from: nat)
    requires from <= k <= |ends| && forall i :: from <= i < k ==> t < ends[i]
    ensures k - from <= Running(ends, k, t)
  {
    if from < k { RunningAtLeast(ends, k - 1, t, from); }
  }

  lemma {:induction false} RoundsMonotone(i: nat, j: nat, slots: nat, longest: int)
    requires 0 < slots && 0 <= longest && i <= j
    ensures Rounds(i, slots, longest) <= Rounds(j, slots, longest)
    decreases j
  {
    if i < j {
      RoundsMonotone(i, j - 1, slots, longest);
      RoundsGrow(j - 1, slots, longest);
    }
  }

  lemma {:induction false} FullBatchIsASchedule(n: nat, slots: nat, longest: int)
    requires 0 < slots && 0 < longest
    ensures Schedule(slots, longest, FullStarts(n, slots, longest), FullEnds(n, slots, longest))
  {
    var starts, ends := FullStarts(n, slots, longest), FullEnds(n, slots, longest);
    forall k | 0 <= k < n
      ensures StartsEagerly(slots, starts, ends, k)
    {
      FullBatchStartsEagerly(n, slots, longest, k);
    }
  }

  lemma FullBatchStartsEagerly(n: nat, slots: nat, longest: int, k: nat)
    requires 0 < slots && 0 < longest && k < n
    ensures StartsEagerly(slots, FullStarts(n, slots, longest), FullEnds(n, slots, longest), k)
  {
    var starts, ends := FullStarts(n, slots, longest), FullEnds(n, slots, longest);
    var from := if k < slots then 0 else k - slots;
    if k > 0 { RoundsGrow(k - 1, slots, longest); }
    forall i | 0 <= i <= from && slots <= k
      ensures ends[i] <= starts[k]
    {
      RoundsMonotone(i, from, slots, longest);
    }
    if slots <= k {
      RunningAtMost(ends, k, starts[k], from + 1);
    } else {
      RunningAtMost(ends, k, starts[k], 0);
    }
    forall t | Earliest(starts, k) <= t && Running(ends, k, t) < slots
      ensures starts[k] <= t
    {
      if slots <= k && t < starts[k] {
        forall i | from <= i < k
          ensures t < ends[i]
        {
          RoundsMonotone(from, i, slots, longest);
        }
        RunningAtLeast(ends, k, t, from);
      } else if k < slots {
        assert starts[k] == 0;
        assert k > 0 ==> starts[k - 1] == 0;
      }
    }
  }

  // ---- the lease ----

  /** No schedule of an n-job batch lets a reap see one of its claims as stale before the
      job's last write, exactly when ceil(n / slots) rounds fit into the lease. */
  ghost predicate LeaseHolds(n: nat, slots: nat, longest: int, lease: int) {
    forall starts, ends, k :: Schedule(slots, longest, starts, ends) && |starts| == n && 0 <= k < n ==> SafeUntil(lease, ends[k])
  }

  /** A claim is not stale for this long. */
  ghost predicate SafeUntil(lease: int, length: int) {
    forall job: Q.Job, now: int ::
      job.status == Q.Claimed && job.claimedAt.Some? && now <= job.claimedAt.value + length ==> !Q.Stale(job, lease, now)
  }

  lemma SafeUntilIff(lease: int, length: int)
    ensures SafeUntil(lease, length) <==> length <= lease
  {
    if lease < length {
      var job := Q.Job("", Q.SendReminder, None, Q.Claimed, 1, 5, 0, Some(0), 0, "");
      assert Q.Stale(job, lease, length);
    }
  }

  lemma {:induction false} LeaseHoldsIff(n: nat, slots: nat, longest: int, lease: int)
    requires 0 < n && 0 < slots && 0 < longest
    ensures LeaseHolds(n, slots, longest, lease) <==> Rounds(n - 1, slots, longest) + longest <= lease
  {
    hide Schedule, SafeUntil, Rounds;
    if Rounds(n - 1, slots, longest) + longest <= lease {
      forall starts, ends, k | Schedule(slots, longest, starts, ends) && |starts| == n && 0 <= k < n
        ensures k < |ends| && SafeUntil(lease, ends[k])
      {
        ScheduleShape(slots, longest, starts, ends);
        BatchEndsInTime(slots, longest, starts, ends, k);
        SafeUntilIff(lease, ends[k]);
      }
    } else {
      FullBatchIsASchedule(n, slots, longest);
      SafeUntilIff(lease, FullEnds(n, slots, longest)[n - 1]);
    }
  }

  lemma ScheduleShape(slots: nat, longest: int, starts: seq<int>, ends: seq<int>)
    requires Schedule(slots, longest, starts, ends)
    ensures |starts| == |ends|
  {
  }

  /** The shipped constants: ten jobs on four slots end within 105 seconds of a 300 second lease. */
  lemma ShippedLeaseHolds(n: nat)
    requires 0 < n <= BATCH
    ensures LeaseHolds(n, SLOTS, JOB_TIMEOUT + WRITE_TIMEOUT, STALE_LEASE)
    ensures Rounds(n - 1, SLOTS, JOB_TIMEOUT + WRITE_TIMEOUT) + JOB_TIMEOUT + WRITE_TIMEOUT <= 105 * SECOND
  {
    RoundsMonotone(n - 1, 9, SLOTS, JOB_TIMEOUT + WRITE_TIMEOUT);
    assert Rounds(1, 4, 35 * SECOND) == 0;
    assert Rounds(5, 4, 35 * SECOND) == 35 * SECOND;
    assert Rounds(9, 4, 35 * SECOND) == 70 * SECOND;
    LeaseHoldsIff(n, SLOTS, JOB_TIMEOUT + WRITE_TIMEOUT, STALE_LEASE);
  }

  /** So a reap by any worker leaves the claims of a live batch as they are. */
  lemma ReapSparesLiveClaims(q: Q.Queue, starts: seq<int>, ends: seq<int>, k: nat, id: string, claimed: int, now: int)
    requires Schedule(SLOTS, JOB_TIMEOUT + WRITE_TIMEOUT, starts, ends) && k < |starts| <= BATCH
    requires id in q.jobs && q.jobs[id].status == Q.Claimed && q.jobs[id].claimedAt == Some(claimed) && now <= claimed + ends[k]
    ensures Q.ReapRows(q, STALE_LEASE, now).jobs[id] == q.jobs[id]
  {
    ShippedLeaseHolds(|starts|);
    assert SafeUntil(STALE_LEASE, ends[k]);
  }
}

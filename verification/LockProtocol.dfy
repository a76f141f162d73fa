/** acquireScheduleLocks of internal/scheduling/repository.go run by any number of writers:
    each first materialises the rows of its dates and then locks them, both in ascending
    order, and keeps everything until its transaction ends. */
module LockProtocol {
  import opened Intervals
  import opened Zones
  import opened ScheduleLocks

  datatype Key = Key(staff: string, date: int)

  /** `at` counts the statements done: inserts, then row locks, then one more for the end. */
  datatype Writer = Writer(staff: string, dates: seq<int>, at: nat)

  /** A row inserted by a running transaction makes other inserters of the key wait. */
  datatype Row = Committed | InsertedBy(owner: nat)

  datatype State = State(writers: seq<Writer>, rows: map<Key, Row>, locks: map<Key, nat>)

  predicate Active(w: Writer) {
    w.at <= 2 * |w.dates|
  }

  /** The writer holds all its locks and works on the schedule. */
  predicate Inside(w: Writer) {
    w.at == 2 * |w.dates|
  }

  /** The key the writer's next statement is about. */
  function Target(w: Writer): Key
    requires w.at < 2 * |w.dates|
  {
    Key(w.staff, w.dates[if w.at < |w.dates| then w.at else w.at - |w.dates|])
  }

  // ---- steps ----

  datatype Action =
    | Arrive(staff: string, dates: seq<int>)
    | Advance(who: nat)
    | End(who: nat, commit: bool)

  /** Whom the writer's next statement has to wait for. */
  predicate WaitsFor(s: State, who: nat, holder: nat) {
    && who < |s.writers| && s.writers[who].at < 2 * |s.writers[who].dates| && who != holder
    && var key := Target(s.writers[who]);
       if s.writers[who].at < |s.writers[who].dates| then key in s.rows && s.rows[key] == InsertedBy(holder)
       else key in s.locks && s.locks[key] == holder
  }

  ghost predicate Blocked(s: State, who: nat) {
    exists holder :: WaitsFor(s, who, holder)
  }

  ghost predicate Enabled(s: State, a: Action) {
    match a
    case Arrive(_, dates) => Ascending(dates)
    case Advance(who) => who < |s.writers| && s.writers[who].at < 2 * |s.writers[who].dates| && !Blocked(s, who)
    case End(who, commit) => who < |s.writers| && Active(s.writers[who]) && (commit ==> Inside(s.writers[who]))
  }

  function Stepped(w: Writer): Writer {
    w.(at := w.at + 1)
  }

  function Ended(w: Writer): Writer {
    w.(at := 2 * |w.dates| + 1)
  }

  function Apply(s: State, a: Action): State
    requires a.Advance? ==> a.who < |s.writers| && s.writers[a.who].at < 2 * |s.writers[a.who].dates|
    requires a.End? ==> a.who < |s.writers|
  {
    match a
    case Arrive(staff, dates) => s.(writers := s.writers + [Writer(staff, dates, 0)])
    case Advance(who) =>
      var w := s.writers[who];
      var key := Target(w);
      var moved := s.(writers := s.writers[who := Stepped(w)]);
      if w.at < |w.dates|
      then if key in s.rows then moved else moved.(rows := s.rows[key := InsertedBy(who)])
      else moved.(locks := s.locks[key := who])
    case End(who, commit) =>
      State(s.writers[who := Ended(s.writers[who])], Released(s.rows, who, commit),
            map key | key in s.locks && s.locks[key] != who :: s.locks[key])
  }

  /** Commit publishes the writer's rows, rollback removes them. */
  function Released(rows: map<Key, Row>, who: nat, commit: bool): map<Key, Row> {
    map key | key in rows && (commit || rows[key] != InsertedBy(who)) ::
      if rows[key] == InsertedBy(who) then Committed else rows[key]
  }

  /** Ending gives back every lock of the writer and none of another's; its rows are there for all
      after a commit and gone after a rollback. */
  lemma EndLeavesNothing(s: State, who: nat, commit: bool)
    requires who < |s.writers|
    ensures var t := Apply(s, End(who, commit));
            && (forall key :: key in t.locks <==> key in s.locks && s.locks[key] != who)
            && (forall key :: key in t.locks ==> t.locks[key] == s.locks[key])
            && (forall key :: key in t.rows ==> t.rows[key] != InsertedBy(who))
            && (forall key :: key in s.rows && s.rows[key] == InsertedBy(who) ==> (key in t.rows <==> commit))
            && (forall key :: key in s.rows && s.rows[key] != InsertedBy(who) ==> key in t.rows && t.rows[key] == s.rows[key])
            && !Active(t.writers[who]) && forall i :: 0 <= i < |s.writers| && i != who ==> t.writers[i] == s.writers[i]
  {
  }

  ghost predicate Next(s: State, t: State) {
    exists a :: Enabled(s, a) && Apply(s, a) == t
  }

  ghost predicate IsRun(states: seq<State>) {
    && states != [] && states[0].writers == [] && states[0].locks == map[]
    && (forall key :: key in states[0].rows ==> states[0].rows[key] == Committed)
    && forall i :: 0 <= i < |states| - 1 ==> Next(states[i], states[i + 1])
  }

  // ---- what every step keeps ----

  /** Statement number `k` of the writer is done and was about `key`. */
  predicate DidInsert(w: Writer, key: Key, k: nat) {
    k < |w.dates| && k < w.at && key == Key(w.staff, w.dates[k])
  }

  predicate DidLock(w: Writer, key: Key, k: nat) {
    k < |w.dates| && |w.dates| + k < w.at && key == Key(w.staff, w.dates[k])
  }

  ghost predicate RowsHaveOwners(writers: seq<Writer>, rows: map<Key, Row>) {
    forall key :: key in rows && rows[key].InsertedBy? ==>
      rows[key].owner < |writers| && Active(writers[rows[key].owner])
      && exists k :: DidInsert(writers[rows[key].owner], key, k)
  }

  ghost predicate LocksHaveOwners(writers: seq<Writer>, locks: map<Key, nat>) {
    forall key :: key in locks ==>
      locks[key] < |writers| && Active(writers[locks[key]]) && exists k :: DidLock(writers[locks[key]], key, k)
  }

  ghost predicate InsertsHold(writers: seq<Writer>, rows: map<Key, Row>) {
    forall i, key, k {:trigger DidInsert(writers[i], key, k)} ::
      0 <= i < |writers| && Active(writers[i]) && DidInsert(writers[i], key, k) ==>
        key in rows && (rows[key] == Committed || rows[key] == InsertedBy(i))
  }

  ghost predicate LocksHold(writers: seq<Writer>, locks: map<Key, nat>) {
    forall i, key, k {:trigger DidLock(writers[i], key, k)} ::
      0 <= i < |writers| && Active(writers[i]) && DidLock(writers[i], key, k) ==>
        key in locks && locks[key] == i
  }

  ghost predicate InOrder(writers: seq<Writer>) {
    forall i :: 0 <= i < |writers| ==> Ascending(writers[i].dates)
  }

  ghost predicate Inv(s: State) {
    && InOrder(s.writers) && RowsHaveOwners(s.writers, s.rows) && LocksHaveOwners(s.writers, s.locks)
    && InsertsHold(s.writers, s.rows) && LocksHold(s.writers, s.locks)
  }

  lemma StepKeepsInv(s: State, t: State)
    requires Inv(s) && Next(s, t)
    ensures Inv(t)
  {
    hide InOrder, RowsHaveOwners, LocksHaveOwners, InsertsHold, LocksHold, Blocked, Ascending;
    var a :| Enabled(s, a) && Apply(s, a) == t;
    match a
    case Arrive(staff, dates) => ArriveKeeps(s, t, staff, dates);
    case Advance(who) => AdvanceKeeps(s, t, who);
    case End(who, commit) => EndKeeps(s, t, who, commit);
  }

  lemma ArriveKeeps(s: State, t: State, staff: string, dates: seq<int>)
    requires Inv(s) && Enabled(s, Arrive(staff, dates)) && t == Apply(s, Arrive(staff, dates))
    ensures Inv(t)
  {
    var w := Writer(staff, dates, 0);
    assert forall key, k :: !DidInsert(w, key, k) && !DidLock(w, key, k);
  }

  lemma DoneSoFar(w: Writer, key: Key, k: nat)
    requires w.at < 2 * |w.dates|
    ensures DidInsert(Stepped(w), key, k) <==>
            DidInsert(w, key, k) || (w.at < |w.dates| && k == w.at && key == Target(w))
    ensures DidLock(Stepped(w), key, k) <==>
            DidLock(w, key, k) || (|w.dates| <= w.at && k == w.at - |w.dates| && key == Target(w))
  {
  }

  lemma AdvanceKeeps(s: State, t: State, who: nat)
    requires Inv(s) && Enabled(s, Advance(who)) && t == Apply(s, Advance(who))
    ensures Inv(t)
  {
    var w := s.writers[who];
    hide RowsHaveOwners, LocksHaveOwners, InsertsHold, LocksHold, Blocked, DidInsert, DidLock;
    AdvanceRows(s, t, who);
    AdvanceLocks(s, t, who);
    AdvanceInserts(s, t, who);
    AdvanceHeld(s, t, who);
  }

  lemma AdvanceRows(s: State, t: State, who: nat)
    requires RowsHaveOwners(s.writers, s.rows) && Enabled(s, Advance(who)) && t == Apply(s, Advance(who))
    ensures RowsHaveOwners(t.writers, t.rows)
  {
    hide DidInsert, DidLock, Blocked;
    var w := s.writers[who];
    forall key | key in t.rows && t.rows[key].InsertedBy?
      ensures t.rows[key].owner < |t.writers| && Active(t.writers[t.rows[key].owner])
      ensures exists k :: DidInsert(t.writers[t.rows[key].owner], key, k)
    {
      if key in s.rows {
        var k :| DidInsert(s.writers[s.rows[key].owner], key, k);
        DoneSoFar(w, key, k);
        assert DidInsert(t.writers[t.rows[key].owner], key, k);
      } else {
        DoneSoFar(w, key, w.at);
        assert DidInsert(t.writers[t.rows[key].owner], key, w.at);
      }
    }
  }

  lemma AdvanceLocks(s: State, t: State, who: nat)
    requires LocksHaveOwners(s.writers, s.locks) && Enabled(s, Advance(who)) && t == Apply(s, Advance(who))
    ensures LocksHaveOwners(t.writers, t.locks)
  {
    hide DidInsert, DidLock, Blocked;
    var w := s.writers[who];
    forall key | key in t.locks
      ensures t.locks[key] < |t.writers| && Active(t.writers[t.locks[key]])
      ensures exists k :: DidLock(t.writers[t.locks[key]], key, k)
    {
      if |w.dates| <= w.at && key == Target(w) {
        DoneSoFar(w, key, w.at - |w.dates|);
        assert DidLock(t.writers[t.locks[key]], key, w.at - |w.dates|);
      } else {
        var k :| DidLock(s.writers[s.locks[key]], key, k);
        DoneSoFar(w, key, k);
        assert DidLock(t.writers[t.locks[key]], key, k);
      }
    }
  }

  lemma AdvanceInserts(s: State, t: State, who: nat)
    requires InsertsHold(s.writers, s.rows) && Enabled(s, Advance(who)) && t == Apply(s, Advance(who))
    ensures InsertsHold(t.writers, t.rows)
  {
    hide DidInsert, DidLock;
    var w := s.writers[who];
    forall i, key, k | 0 <= i < |t.writers| && Active(t.writers[i]) && DidInsert(t.writers[i], key, k)
      ensures key in t.rows && (t.rows[key] == Committed || t.rows[key] == InsertedBy(i))
    {
      DoneSoFar(w, key, k);
      if i == who && w.at < |w.dates| && key == Target(w) && key in s.rows {
        assert s.rows[key].InsertedBy? ==> !WaitsFor(s, who, s.rows[key].owner);
      } else if i != who {
        assert DidInsert(s.writers[i], key, k);
      }
    }
  }

  lemma AdvanceHeld(s: State, t: State, who: nat)
    requires LocksHold(s.writers, s.locks) && Enabled(s, Advance(who)) && t == Apply(s, Advance(who))
    ensures LocksHold(t.writers, t.locks)
  {
    hide DidInsert, DidLock;
    var w := s.writers[who];
    forall i, key, k | 0 <= i < |t.writers| && Active(t.writers[i]) && DidLock(t.writers[i], key, k)
      ensures key in t.locks && t.locks[key] == i
    {
      DoneSoFar(w, key, k);
      if i != who {
        assert DidLock(s.writers[i], key, k);
        assert !WaitsFor(s, who, i);
      }
    }
  }

  lemma EndKeeps(s: State, t: State, who: nat, commit: bool)
    requires Inv(s) && Enabled(s, End(who, commit)) && t == Apply(s, End(who, commit))
    ensures Inv(t)
  {
    hide DidInsert, DidLock;
    EndRows(s, t, who, commit);
    EndLocks(s, t, who, commit);
    forall i, key, k | 0 <= i < |t.writers| && Active(t.writers[i]) && DidInsert(t.writers[i], key, k)
      ensures key in t.rows && (t.rows[key] == Committed || t.rows[key] == InsertedBy(i))
    {
      assert DidInsert(s.writers[i], key, k);
    }
    forall i, key, k | 0 <= i < |t.writers| && Active(t.writers[i]) && DidLock(t.writers[i], key, k)
      ensures key in t.locks && t.locks[key] == i
    {
      assert DidLock(s.writers[i], key, k);
    }
  }

  lemma EndRows(s: State, t: State, who: nat, commit: bool)
    requires RowsHaveOwners(s.writers, s.rows) && Enabled(s, End(who, commit)) && t == Apply(s, End(who, commit))
    ensures RowsHaveOwners(t.writers, t.rows)
  {
    hide DidInsert, DidLock;
  }

  lemma EndLocks(s: State, t: State, who: nat, commit: bool)
    requires LocksHaveOwners(s.writers, s.locks) && Enabled(s, End(who, commit)) && t == Apply(s, End(who, commit))
    ensures LocksHaveOwners(t.writers, t.locks)
  {
    hide DidInsert, DidLock;
  }

  lemma {:induction false} RunKeepsInv(states: seq<State>)
    requires IsRun(states)
    ensures Inv(states[|states| - 1])
  {
    if |states| > 1 {
      var front := states[..|states| - 1];
      assert forall i | 0 <= i < |front| :: front[i] == states[i];
      RunKeepsInv(front);
      StepKeepsInv(states[|states| - 2], states[|states| - 1]);
    }
  }

  // ---- no deadlock ----

  /** How far a writer is: its phase, and the date it is about within the phase. */
  function Phase(w: Writer): nat {
    if w.at < |w.dates| then 0 else if w.at < 2 * |w.dates| then 1 else 2
  }

  predicate Behind(a: Writer, b: Writer) {
    || Phase(a) < Phase(b)
    || (Phase(a) == Phase(b) < 2 && Target(a).date < Target(b).date)
  }

  /** Waiting always looks up: the holder is further on in the one order all writers share. */
  lemma {:induction false} WaitingLooksUp(s: State, who: nat, holder: nat)
    requires Inv(s) && WaitsFor(s, who, holder)
    ensures who < |s.writers| && holder < |s.writers| && Active(s.writers[holder]) && Behind(s.writers[who], s.writers[holder])
    ensures s.writers[who].staff == s.writers[holder].staff
  {
    var w := s.writers[who];
    var key := Target(w);
    if w.at < |w.dates| {
      var k :| DidInsert(s.writers[holder], key, k);
      FurtherThanInsert(s.writers[holder], key, k, w);
    } else {
      var k :| DidLock(s.writers[holder], key, k);
      FurtherThanLock(s.writers[holder], key, k, w);
    }
  }

  lemma FurtherThanInsert(h: Writer, key: Key, k: nat, w: Writer)
    requires DidInsert(h, key, k) && Ascending(h.dates) && w.at < |w.dates| && key == Target(w)
    ensures Behind(w, h)
  {
    if h.at < |h.dates| {
      assert h.dates[k] < h.dates[h.at];
    }
  }

  lemma FurtherThanLock(h: Writer, key: Key, k: nat, w: Writer)
    requires DidLock(h, key, k) && Ascending(h.dates) && |w.dates| <= w.at < 2 * |w.dates| && key == Target(w)
    ensures Behind(w, h)
  {
    if h.at < 2 * |h.dates| {
      assert h.dates[k] < h.dates[h.at - |h.dates|];
    }
  }

  /** A chain of writers each waiting for the next. */
  ghost predicate WaitChain(s: State, chain: seq<nat>) {
    |chain| > 1 && forall i :: 0 <= i < |chain| - 1 ==> WaitsFor(s, chain[i], chain[i + 1])
  }

  lemma {:induction false} ChainGoesUp(s: State, chain: seq<nat>)
    requires Inv(s) && WaitChain(s, chain)
    ensures chain[0] < |s.writers| && chain[|chain| - 1] < |s.writers|
    ensures Behind(s.writers[chain[0]], s.writers[chain[|chain| - 1]])
  {
    hide Inv, Behind, WaitsFor;
    var n := |chain| - 1;
    assert WaitsFor(s, chain[n - 1], chain[n - 1 + 1]);
    WaitingLooksUp(s, chain[n - 1], chain[n]);
    if n > 1 {
      var front := chain[..n];
      assert forall i | 0 <= i < |front| :: front[i] == chain[i];
      ChainGoesUp(s, front);
      BehindIsTransitive(s.writers[chain[0]], s.writers[chain[n - 1]], s.writers[chain[n]]);
    }
  }

  lemma BehindIsTransitive(a: Writer, b: Writer, c: Writer)
    requires Behind(a, b) && Behind(b, c)
    ensures Behind(a, c)
  {
  }

  /** No writer ever waits, through others, for itself. */
  lemma {:induction false} NoDeadlock(states: seq<State>, chain: seq<nat>)
    requires IsRun(states) && WaitChain(states[|states| - 1], chain)
    ensures chain[0] != chain[|chain| - 1]
  {
    hide Inv, Next;
    var s := states[|states| - 1];
    RunKeepsInv(states);
    ChainGoesUp(s, chain);
    NeverBehindItself(s.writers[chain[0]]);
  }

  lemma NeverBehindItself(w: Writer)
    ensures !Behind(w, w)
  {
  }

  /** Among the first `n` writers, an unfinished one that is behind no unfinished one. */
  lemma {:induction false} Foremost(s: State, n: nat, some: nat) returns (m: nat)
    requires some < n <= |s.writers| && Active(s.writers[some])
    ensures m < n && Active(s.writers[m])
    ensures forall j :: 0 <= j < n && Active(s.writers[j]) ==> !Behind(s.writers[m], s.writers[j])
  {
    m := some;
    var k := 0;
    while k < n
      invariant k <= n && m < n && Active(s.writers[m])
      invariant forall j :: 0 <= j < k && Active(s.writers[j]) ==> !Behind(s.writers[m], s.writers[j])
    {
      if Active(s.writers[k]) && Behind(s.writers[m], s.writers[k]) {
        m := k;
      }
      k := k + 1;
    }
  }

  /** As long as a writer is unfinished, some unfinished writer can go on. */
  lemma {:induction false} SomeWriterCanProceed(states: seq<State>, some: nat) returns (m: nat)
    requires IsRun(states)
    requires var s := states[|states| - 1]; some < |s.writers| && Active(s.writers[some])
    ensures var s := states[|states| - 1];
            m < |s.writers| && Active(s.writers[m]) && !Blocked(s, m)
            && (Enabled(s, Advance(m)) || Enabled(s, End(m, true)))
  {
    hide Next, Inv, Behind;
    var s := states[|states| - 1];
    RunKeepsInv(states);
    m := Foremost(s, |s.writers|, some);
    forall holder | WaitsFor(s, m, holder)
      ensures false
    {
      WaitingLooksUp(s, m, holder);
    }
  }

  // ---- mutual exclusion ----

  /** Two writers that hold their locks for a common date of one staff member are one writer. */
  lemma {:induction false} OneWriterPerDate(states: seq<State>, i: nat, j: nat, date: int)
    requires IsRun(states)
    requires var s := states[|states| - 1];
             i < |s.writers| && j < |s.writers| && Inside(s.writers[i]) && Inside(s.writers[j])
             && s.writers[i].staff == s.writers[j].staff && date in s.writers[i].dates && date in s.writers[j].dates
    ensures i == j
  {
    hide Next;
    var s := states[|states| - 1];
    RunKeepsInv(states);
    var k :| 0 <= k < |s.writers[i].dates| && s.writers[i].dates[k] == date;
    var l :| 0 <= l < |s.writers[j].dates| && s.writers[j].dates[l] == date;
    var key := Key(s.writers[i].staff, date);
    assert DidLock(s.writers[i], key, k) && DidLock(s.writers[j], key, l);
  }

  /** The writer's dates are those its window touches in the zone it reads them in. */
  ghost predicate Reads(w: Writer, off: Offset, window: Interval) {
    forall d :: d in w.dates <==> Touched(off, window, d)
  }

  /** Two writers of one staff member, each with dates read in a zone of its own, never work
      on the schedule together if their date ranges meet. */
  lemma {:induction false} MeetingWritersExclude(states: seq<State>, home: Offset, asked: Offset, i: nat, j: nat, a: Interval, b: Interval)
    requires IsRun(states) && Proper(a) && Proper(b) && RegularAround(home, a) && RegularAround(asked, b)
    requires DatesMeet(home, a, asked, b)
    requires var s := states[|states| - 1];
             i < |s.writers| && j < |s.writers| && Inside(s.writers[i]) && Inside(s.writers[j])
             && s.writers[i].staff == s.writers[j].staff && Reads(s.writers[i], home, a) && Reads(s.writers[j], asked, b)
    ensures i == j
  {
    hide Next, Touched, Inside, DatesMeet, RegularAround;
    ShareADateIff(home, a, asked, b);
    var d :| Touched(home, a, d) && Touched(asked, b, d);
    OneWriterPerDate(states, i, j, d);
  }

  /** In one zone, writers whose occupied windows overlap never work on the schedule together. */
  lemma {:induction false} OverlappingWritersExclude(states: seq<State>, off: Offset, i: nat, j: nat, a: Interval, b: Interval)
    requires IsRun(states) && Proper(a) && Proper(b) && Overlap(a, b) && RegularAround(off, a) && RegularAround(off, b)
    requires var s := states[|states| - 1];
             i < |s.writers| && j < |s.writers| && Inside(s.writers[i]) && Inside(s.writers[j])
             && s.writers[i].staff == s.writers[j].staff && Reads(s.writers[i], off, a) && Reads(s.writers[j], off, b)
    ensures i == j
  {
    hide Next, Touched, Inside, DatesMeet, RegularAround, Reads;
    OverlapMeetsInOneZone(off, a, b);
    MeetingWritersExclude(states, off, off, i, j, a, b);
  }

  // ---- the condition is exact ----

  ghost predicate Disjoint(a: seq<int>, b: seq<int>) {
    forall d :: !(d in a && d in b)
  }

  /** Two writers without a common date never wait for each other. */
  lemma DisjointNeverWait(s: State, who: nat)
    requires Inv(s) && |s.writers| == 2 && who < 2 && Disjoint(s.writers[0].dates, s.writers[1].dates)
    ensures !Blocked(s, who)
  {
    hide InOrder, InsertsHold, LocksHold;
    forall holder | WaitsFor(s, who, holder)
      ensures false
    {
      var key := Target(s.writers[who]);
      assert key.date in s.writers[who].dates;
      HolderHasDate(s, who, holder);
    }
  }

  lemma HolderHasDate(s: State, who: nat, holder: nat)
    requires Inv(s) && WaitsFor(s, who, holder)
    ensures holder < |s.writers| && Target(s.writers[who]).date in s.writers[holder].dates
  {
    hide InOrder, InsertsHold, LocksHold;
    var w := s.writers[who];
    var key := Target(w);
    if w.at < |w.dates| {
      var k :| DidInsert(s.writers[holder], key, k);
    } else {
      var k :| DidLock(s.writers[holder], key, k);
    }
  }

  /** The run goes on until writer `who` is inside; the other stays where it is. */
  lemma {:induction false} GoInside(states: seq<State>, who: nat) returns (longer: seq<State>)
    requires IsRun(states)
    requires var s := states[|states| - 1];
             |s.writers| == 2 && who < 2 && Active(s.writers[who]) && Disjoint(s.writers[0].dates, s.writers[1].dates)
    ensures IsRun(longer)
    ensures var s, t := states[|states| - 1], longer[|longer| - 1];
            && |t.writers| == 2 && Inside(t.writers[who]) && t.writers[1 - who] == s.writers[1 - who]
            && t.writers[who] == s.writers[who].(at := t.writers[who].at)
    decreases var s := states[|states| - 1]; 2 * |s.writers[who].dates| - s.writers[who].at
  {
    hide Inv, Next;
    var s := states[|states| - 1];
    if Inside(s.writers[who]) {
      return states;
    }
    RunKeepsInv(states);
    DisjointNeverWait(s, who);
    var t := Apply(s, Advance(who));
    assert Enabled(s, Advance(who));
    OneStepMore(states, Advance(who), t);
    longer := GoInside(states + [t], who);
  }

  lemma OneStepMore(states: seq<State>, a: Action, t: State)
    requires IsRun(states) && Enabled(states[|states| - 1], a) && t == Apply(states[|states| - 1], a)
    ensures IsRun(states + [t])
  {
    hide Enabled, Apply;
    var all := states + [t];
    assert Next(states[|states| - 1], t);
    assert forall i | 0 <= i < |states| :: all[i] == states[i];
    hide Next;
    forall i | 0 <= i < |all| - 1
      ensures Next(all[i], all[i + 1])
    {
    }
  }

  /** Writers without a common date can both be inside, so nothing weaker than a shared
      date keeps two writers apart. */
  lemma {:induction false} DisjointWritersMeet(staff: string, a: seq<int>, b: seq<int>) returns (states: seq<State>)
    requires Ascending(a) && Ascending(b) && Disjoint(a, b)
    ensures IsRun(states)
    ensures var s := states[|states| - 1];
            |s.writers| == 2 && Inside(s.writers[0]) && Inside(s.writers[1])
            && s.writers[0].staff == staff == s.writers[1].staff && s.writers[0].dates == a && s.writers[1].dates == b
  {
    var s0 := State([], map[], map[]);
    var s1 := Apply(s0, Arrive(staff, a));
    var s2 := Apply(s1, Arrive(staff, b));
    OneStepMore([s0], Arrive(staff, a), s1);
    OneStepMore([s0] + [s1], Arrive(staff, b), s2);
    hide Next, IsRun;
    states := GoInside([s0] + [s1] + [s2], 0);
    states := GoInside(states, 1);
  }
}

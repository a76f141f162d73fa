/** The slot search over all eligible staff (FindSlots of internal/scheduling/repository.go):
    every staff member's answer is cut to the limit before the answers are merged. */
module SlotMerge {
  import opened Domain
  import opened Sorting
  import opened Zones
  import opened Availability
  import opened Engine
  import EngineTheorems

  // ---- lists per staff member ----

  function Concat(lists: seq<seq<Slot>>): seq<Slot> {
    if lists == [] then [] else Concat(lists[..|lists| - 1]) + lists[|lists| - 1]
  }

  lemma {:induction false} ConcatContents(lists: seq<seq<Slot>>, x: Slot)
    ensures x in Concat(lists) <==> exists i :: 0 <= i < |lists| && x in lists[i]
  {
    if lists != [] {
      var n := |lists| - 1;
      ConcatContents(lists[..n], x);
      if i :| 0 <= i < |lists| && x in lists[i] {
        assert i < n ==> lists[..n][i] == lists[i];
      }
      if i :| 0 <= i < |lists[..n]| && x in lists[..n][i] {
        assert lists[i] == lists[..n][i];
      }
    }
  }

  /** Each list is in order and belongs to one staff member, a different one each. */
  ghost predicate PerStaff(staff: seq<string>, lists: seq<seq<Slot>>) {
    && |staff| == |lists|
    && (forall i, j :: 0 <= i < j < |staff| ==> staff[i] != staff[j])
    && (forall i :: 0 <= i < |lists| ==> Increasing(SlotBefore, lists[i]))
    && (forall i, x :: 0 <= i < |lists| && x in lists[i] ==> x.staff == staff[i])
  }

  lemma DifferentStaff(x: Slot, y: Slot)
    requires x.staff != y.staff
    ensures Comparable(SlotBefore, x, y)
  {
    TextLessTotal(x.staff, y.staff);
  }

  lemma {:induction false} ConcatComparable(staff: seq<string>, lists: seq<seq<Slot>>)
    requires PerStaff(staff, lists)
    ensures AllComparable(SlotBefore, Concat(lists))
  {
    hide SlotBefore, TextLess;
    if lists != [] {
      var n := |lists| - 1;
      var front, last := Concat(lists[..n]), lists[n];
      assert PerStaff(staff[..n], lists[..n]);
      ConcatComparable(staff[..n], lists[..n]);
      forall x, y | x in front && y in last
        ensures Comparable(SlotBefore, x, y)
      {
        ConcatContents(lists[..n], x);
        var i :| 0 <= i < n && x in lists[..n][i];
        assert lists[..n][i] == lists[i] && staff[i] != staff[n];
        DifferentStaff(x, y);
      }
      ComparableJoin(front, last);
    }
  }

  lemma ComparableJoin(front: seq<Slot>, last: seq<Slot>)
    requires AllComparable(SlotBefore, front) && Increasing(SlotBefore, last)
    requires forall x, y :: x in front && y in last ==> Comparable(SlotBefore, x, y)
    ensures AllComparable(SlotBefore, front + last)
  {
    hide SlotBefore;
    var all := front + last;
    forall i, j | 0 <= i < j < |all|
      ensures Comparable(SlotBefore, all[i], all[j])
    {
      if i < |front| <= j {
        assert all[i] in front && all[j] in last;
      } else if |front| <= i {
        assert SlotBefore(last[i - |front|], last[j - |front|]);
      }
    }
  }

  // ---- cutting before merging ----

  /** The limit per staff member of a request without a limit. */
  const PER_STAFF := 1000

  function Cap(s: seq<Slot>, limit: nat): seq<Slot> {
    if |s| <= limit then s else s[..limit]
  }

  function CapAll(lists: seq<seq<Slot>>, limit: nat): seq<seq<Slot>> {
    seq(|lists|, i requires 0 <= i < |lists| => Cap(lists[i], limit))
  }

  function Merge(lists: seq<seq<Slot>>): seq<Slot> {
    Sort(SlotBefore, Concat(lists))
  }

  lemma MergeContents(staff: seq<string>, lists: seq<seq<Slot>>)
    requires PerStaff(staff, lists)
    ensures Increasing(SlotBefore, Merge(lists))
    ensures forall x :: x in Merge(lists) <==> x in Concat(lists)
    ensures |Merge(lists)| == |Concat(lists)|
  {
    hide SlotBefore;
    SlotBeforeIsOrder();
    ConcatComparable(staff, lists);
    SortIncreasing(SlotBefore, Concat(lists));
    SortIsSortedPermutation(SlotBefore, Concat(lists));
  }

  /** The m-th element of a sorted part has at least m elements before it in the whole. */
  lemma {:induction false} Position(part: seq<Slot>, whole: seq<Slot>, m: nat, i: nat)
    requires Increasing(SlotBefore, part) && Increasing(SlotBefore, whole)
    requires forall x :: x in part ==> x in whole
    requires m < |part| && i < |whole| && whole[i] == part[m]
    ensures m <= i
  {
    hide SlotBefore;
    if m != 0 {
      assert part[m - 1] in part;
      var k :| 0 <= k < |whole| && whole[k] == part[m - 1];
      Position(part, whole, m - 1, k);
      assert SlotBefore(part[m - 1], part[m]);
      OrderOfPositions(whole, k, i);
    }
  }

  lemma OrderOfPositions(whole: seq<Slot>, k: nat, i: nat)
    requires Increasing(SlotBefore, whole) && k < |whole| && i < |whole| && SlotBefore(whole[k], whole[i])
    ensures k < i
  {
    SlotBeforeIsOrder();
    hide SlotBefore;
  }

  lemma CappedPerStaff(staff: seq<string>, lists: seq<seq<Slot>>, limit: nat)
    requires PerStaff(staff, lists)
    ensures PerStaff(staff, CapAll(lists, limit))
    ensures forall x :: x in Concat(CapAll(lists, limit)) ==> x in Concat(lists)
  {
    hide SlotBefore;
    forall x | x in Concat(CapAll(lists, limit))
      ensures x in Concat(lists)
    {
      ConcatContents(CapAll(lists, limit), x);
      var i :| 0 <= i < |lists| && x in CapAll(lists, limit)[i];
      assert x in lists[i];
      ConcatContents(lists, x);
    }
  }

  /** A slot among the first `limit` of the merge survived its own list's cut. */
  lemma SurvivesTheCut(staff: seq<string>, lists: seq<seq<Slot>>, limit: nat, i: nat)
    requires PerStaff(staff, lists) && i < limit && i < |Merge(lists)|
    ensures Merge(lists)[i] in Concat(CapAll(lists, limit))
  {
    hide SlotBefore;
    var x := Merge(lists)[i];
    MergeContents(staff, lists);
    assert x in Merge(lists);
    hide Merge;
    ConcatContents(lists, x);
    var j :| 0 <= j < |lists| && x in lists[j];
    var m :| 0 <= m < |lists[j]| && lists[j][m] == x;
    forall y | y in lists[j]
      ensures y in Merge(lists)
    {
      ConcatContents(lists, y);
    }
    Position(lists[j], Merge(lists), m, i);
    assert x in CapAll(lists, limit)[j] by {
      assert Cap(lists[j], limit)[m] == x;
    }
    ConcatContents(CapAll(lists, limit), x);
  }

  /** Cutting each list to the limit first does not change the first `limit` slots of the merge. */
  lemma {:induction false} CutBeforeMerge(staff: seq<string>, lists: seq<seq<Slot>>, limit: nat)
    requires PerStaff(staff, lists)
    ensures Cap(Merge(CapAll(lists, limit)), limit) == Cap(Merge(lists), limit)
  {
    hide SlotBefore, Merge, PerStaff, CapAll, Cap, Increasing;
    var whole, cut := Merge(lists), Merge(CapAll(lists, limit));
    CappedPerStaff(staff, lists, limit);
    MergeContents(staff, lists);
    MergeContents(staff, CapAll(lists, limit));
    forall i | 0 <= i < |whole| && i < limit
      ensures whole[i] in cut
    {
      SurvivesTheCut(staff, lists, limit, i);
    }
    AgreeUpTo(whole, cut, limit);
  }

  lemma AgreeUpTo(whole: seq<Slot>, cut: seq<Slot>, limit: nat)
    requires Increasing(SlotBefore, whole) && Increasing(SlotBefore, cut)
    requires forall x :: x in cut ==> x in whole
    requires forall i :: 0 <= i < |whole| && i < limit ==> whole[i] in cut
    ensures Cap(cut, limit) == Cap(whole, limit)
  {
    hide SlotBefore, Increasing, Order;
    SlotBeforeIsOrder();
    IncreasingPrefix(SlotBefore, whole, cut, Min(limit, |whole|));
    if |whole| < limit {
      forall x | x in whole
        ensures x in cut
      {
        var i :| 0 <= i < |whole| && whole[i] == x;
      }
      IncreasingUnique(SlotBefore, whole, cut);
    }
  }

  lemma {:induction false} ConcatLength(lists: seq<seq<Slot>>, limit: nat)
    ensures |Concat(CapAll(lists, limit))| <= |Concat(lists)|
    ensures |Concat(CapAll(lists, limit))| == |Concat(lists)| <==>
            forall i :: 0 <= i < |lists| ==> |lists[i]| <= limit
    ensures (forall i :: 0 <= i < |lists| ==> |lists[i]| <= limit) ==> CapAll(lists, limit) == lists
  {
    if lists != [] {
      var n := |lists| - 1;
      ConcatLength(lists[..n], limit);
      assert CapAll(lists, limit)[..n] == CapAll(lists[..n], limit);
      assert forall i | 0 <= i < n :: lists[..n][i] == lists[i];
    }
  }

  /** Without a limit the merge is complete exactly when no staff member has more than 1000 slots. */
  lemma CompleteWithoutLimit(staff: seq<string>, lists: seq<seq<Slot>>)
    requires PerStaff(staff, lists)
    ensures Merge(CapAll(lists, PER_STAFF)) == Merge(lists) <==>
            forall i :: 0 <= i < |lists| ==> |lists[i]| <= PER_STAFF
  {
    hide SlotBefore, PerStaff, Merge, Concat, CapAll;
    ConcatLength(lists, PER_STAFF);
    CappedPerStaff(staff, lists, PER_STAFF);
    MergeContents(staff, lists);
    MergeContents(staff, CapAll(lists, PER_STAFF));
  }

  // ---- the repository's search ----

  /** An eligible staff member with the rules and busy intervals loaded for the window. */
  datatype Member = Member(id: string, off: Offset, rules: seq<Rule>, busy: seq<Busy>)

  datatype Request = Request(service: Service, from: int, to: int, interval: int, limit: int)

  datatype Outcome = Found(slots: seq<Slot>) | InvalidInput | NotFound

  function QueryFor(req: Request, m: Member, limit: int): Search {
    Search(req.service, m.id, req.from, req.to, m.rules, m.busy, req.interval, limit)
  }

  predicate RequestValid(req: Request) {
    && req.service.id != "" && req.from != ZERO_TIME && req.to != ZERO_TIME && req.from < req.to
    && 0 <= req.limit <= 1000
  }

  /** Distinct staff members, in whose zones a walk over the request's days makes headway. */
  ghost predicate Roster(req: Request, members: seq<Member>) {
    && (RequestValid(req) ==> forall i :: 0 <= i < |members| ==> GoesForward(members[i].off, req.from, req.to))
    && (forall i, j :: 0 <= i < j < |members| ==> members[i].id != members[j].id)
  }

  ghost predicate AllRegular(req: Request, members: seq<Member>) {
    forall i :: 0 <= i < |members| ==> RegularFor(req, members[i])
  }

  ghost predicate RegularFor(req: Request, m: Member) {
    RegularDays(m.off, DateOf(m.off, req.from), DateOf(m.off, req.to - 1))
  }

  predicate AllAnswerable(req: Request, members: seq<Member>, limit: int) {
    forall i :: 0 <= i < |members| ==> Answerable(QueryFor(req, members[i], limit))
  }

  /** The answers of the staff members to the request with the given limit each. */
  ghost predicate AreAnswers(req: Request, members: seq<Member>, limit: int, lists: seq<seq<Slot>>) {
    && |lists| == |members| && AllAnswerable(req, members, limit)
    && forall i :: 0 <= i < |members| ==> IsAnswer(members[i].off, QueryFor(req, members[i], limit), lists[i])
  }

  /** Lists as the engine finds them, in any zone. */
  ghost predicate AreFound(req: Request, members: seq<Member>, limit: int, lists: seq<seq<Slot>>) {
    && |lists| == |members| && AllAnswerable(req, members, limit)
    && forall i :: 0 <= i < |members| ==> IsFound(members[i].off, QueryFor(req, members[i], limit), lists[i])
  }

  /** Reached for the member in the request's window. */
  ghost predicate OfferedBy(req: Request, m: Member, x: Slot) {
    var q := QueryFor(req, m, 0);
    Answerable(q) && x == SlotAt(q, x.start) && Reached(m.off, q, x.start)
  }

  function Ids(members: seq<Member>): seq<string> {
    seq(|members|, i requires 0 <= i < |members| => members[i].id)
  }

  /** FindSlots of the repository: in any zone slots the engine reaches, in order; on regular
      dates, for a limit, the first slots of the complete merge. */
  method FindSlotsOfAll(req: Request, members: seq<Member>) returns (r: Outcome)
    requires Roster(req, members)
    ensures r.Found? <==> RequestValid(req) && members != [] && AllAnswerable(req, members, 0)
    ensures r.NotFound? <==> RequestValid(req) && members == []
    ensures !r.InvalidInput? ==>
              req.service.id != "" && req.from != ZERO_TIME && req.to != ZERO_TIME && req.from < req.to && 0 <= req.limit <= 1000
    ensures r.Found? && 0 < req.limit ==> |r.slots| <= req.limit
    ensures r.Found? ==> Increasing(SlotBefore, r.slots)
    ensures forall x :: r.Found? && x in r.slots ==> exists i :: 0 <= i < |members| && OfferedBy(req, members[i], x)
    ensures forall full :: r.Found? && AllRegular(req, members) && AreAnswers(req, members, 0, full) ==>
              r.slots == if req.limit > 0 then Cap(Merge(full), req.limit) else Merge(CapAll(full, PER_STAFF))
    ensures forall full :: r.Found? && AllRegular(req, members) && req.limit == 0 && AreAnswers(req, members, 0, full) ==>
              (r.slots == Merge(full) <==> forall i :: 0 <= i < |full| ==> |full[i]| <= PER_STAFF)
  {
    hide Merge, CapAll, Cap, IsAnswer, IsFound, Answerable, RegularFor, GoesForward, SlotBefore, OfferedBy;
    if !RequestValid(req) {
      return InvalidInput;
    }
    if members == [] {
      return NotFound;
    }
    ghost var regular := AllRegular(req, members);
    var perStaff := if req.limit == 0 then PER_STAFF else req.limit;
    var lists: seq<seq<Slot>> := [];
    for k := 0 to |members|
      invariant AreFound(req, members[..k], perStaff, lists)
      invariant regular ==> AreAnswers(req, members[..k], perStaff, lists)
    {
      var m := members[k];
      assert GoesForward(m.off, req.from, req.to);
      var found := Engine.FindSlots(m.off, QueryFor(req, m, perStaff));
      if found.None? {
        NotAllAnswerable(req, members, k, perStaff);
        return InvalidInput;
      }
      OneMoreFound(req, members, k, perStaff, lists, found.value);
      if regular {
        assert RegularFor(req, m);
        RegularQuery(req, m, perStaff);
        OneMoreAnswer(req, members, k, perStaff, lists, found.value);
      }
      lists := lists + [found.value];
    }
    assert members[..|members|] == members;
    LimitsAgree(req, members, perStaff);
    forall full | regular && AreAnswers(req, members, 0, full)
      ensures lists == CapAll(full, perStaff)
      ensures Cap(Merge(CapAll(full, perStaff)), perStaff) == Cap(Merge(full), perStaff)
      ensures Merge(CapAll(full, PER_STAFF)) == Merge(full) <==> forall i :: 0 <= i < |full| ==> |full[i]| <= PER_STAFF
    {
      CappedAnswers(req, members, perStaff, lists, full);
      AnswersPerStaff(req, members, full);
      CutBeforeMerge(Ids(members), full, perStaff);
      CompleteWithoutLimit(Ids(members), full);
    }
    var all := Merge(lists);
    FoundPerStaff(req, members, perStaff, lists);
    MergeContents(Ids(members), lists);
    if req.limit > 0 {
      all := Cap(all, req.limit);
    }
    CapIncreases(Merge(lists), req.limit);
    forall x | x in all
      ensures exists i :: 0 <= i < |members| && OfferedBy(req, members[i], x)
    {
      CapContents(Merge(lists), req.limit, x);
      MergedIsOffered(req, members, perStaff, lists, x);
    }
    return Found(all);
  }

  lemma RegularQuery(req: Request, m: Member, limit: int)
    requires RegularFor(req, m)
    ensures RegularWindow(m.off, QueryFor(req, m, limit))
  {
    hide RegularDays, DateOf;
  }

  lemma OneMoreFound(req: Request, members: seq<Member>, k: nat, limit: int, lists: seq<seq<Slot>>, found: seq<Slot>)
    requires k < |members| && AreFound(req, members[..k], limit, lists)
    requires Answerable(QueryFor(req, members[k], limit)) && IsFound(members[k].off, QueryFor(req, members[k], limit), found)
    ensures AreFound(req, members[..k + 1], limit, lists + [found])
  {
    hide Accepted, AllBusyValid, IsFound;
    forall i | 0 <= i < k + 1
      ensures Answerable(QueryFor(req, members[..k + 1][i], limit))
      ensures IsFound(members[..k + 1][i].off, QueryFor(req, members[..k + 1][i], limit), (lists + [found])[i])
    {
      assert i < k ==> members[..k + 1][i] == members[..k][i];
    }
  }

  lemma CapIncreases(s: seq<Slot>, limit: nat)
    requires Increasing(SlotBefore, s)
    ensures Increasing(SlotBefore, Cap(s, limit)) && |Cap(s, limit)| <= limit
  {
    hide SlotBefore;
  }

  lemma FoundPerStaff(req: Request, members: seq<Member>, limit: int, lists: seq<seq<Slot>>)
    requires Roster(req, members) && AreFound(req, members, limit, lists)
    ensures PerStaff(Ids(members), lists)
  {
    hide RulesValid, AllBusyValid, Reached, GoesForward, TextLess;
    forall i | 0 <= i < |members|
      ensures Increasing(SlotBefore, lists[i])
      ensures forall x :: x in lists[i] ==> x.staff == members[i].id
    {
      assert IsFound(members[i].off, QueryFor(req, members[i], limit), lists[i]);
    }
  }

  lemma CapContents(s: seq<Slot>, limit: nat, x: Slot)
    ensures x in Cap(s, limit) ==> x in s
  {
  }

  /** Every merged slot was found for one of the members. */
  lemma MergedIsOffered(req: Request, members: seq<Member>, limit: int, lists: seq<seq<Slot>>, x: Slot)
    requires AreFound(req, members, limit, lists) && 0 <= limit <= 1000 && x in Merge(lists)
    ensures exists i :: 0 <= i < |members| && OfferedBy(req, members[i], x)
  {
    hide IsFound, Concat, Answerable, OfferedBy, SlotBefore;
    SlotBeforeIsOrder();
    SortIsSortedPermutation(SlotBefore, Concat(lists));
    assert x in multiset(Merge(lists));
    ConcatContents(lists, x);
    var i :| 0 <= i < |lists| && x in lists[i];
    LimitsAgree(req, members, limit);
    FoundIsOffered(req, members[i], limit, lists[i], x);
  }

  lemma FoundIsOffered(req: Request, m: Member, limit: int, slots: seq<Slot>, x: Slot)
    requires Answerable(QueryFor(req, m, limit)) && Answerable(QueryFor(req, m, 0))
    requires IsFound(m.off, QueryFor(req, m, limit), slots) && x in slots
    ensures OfferedBy(req, m, x)
  {
    hide Reached, RulesValid, AllBusyValid;
    var q := QueryFor(req, m, limit);
    var i :| 0 <= i < |slots| && slots[i] == x;
    LimitIsNoMatter(m.off, q, x.start);
  }

  lemma LimitIsNoMatter(off: Offset, q: Search, s: int)
    requires Accepted(q) && Accepted(q.(limit := 0))
    ensures Reached(off, q, s) <==> Reached(off, q.(limit := 0), s)
  {
    hide Accepted, Free, WalksBy;
    EngineTheorems.FreeIgnores(off, q, q.(limit := 0), s);
  }

  lemma OneMoreAnswer(req: Request, members: seq<Member>, k: nat, limit: int, lists: seq<seq<Slot>>, found: seq<Slot>)
    requires k < |members| && AreAnswers(req, members[..k], limit, lists)
    requires Answerable(QueryFor(req, members[k], limit)) && IsAnswer(members[k].off, QueryFor(req, members[k], limit), found)
    ensures AreAnswers(req, members[..k + 1], limit, lists + [found])
  {
    hide Accepted, AllBusyValid, IsAnswer;
    forall i | 0 <= i < k + 1
      ensures Answerable(QueryFor(req, members[..k + 1][i], limit))
      ensures IsAnswer(members[..k + 1][i].off, QueryFor(req, members[..k + 1][i], limit), (lists + [found])[i])
    {
      assert i < k ==> members[..k + 1][i] == members[..k][i];
    }
  }

  lemma LimitsAgree(req: Request, members: seq<Member>, limit: int)
    requires 0 <= limit <= 1000
    ensures AllAnswerable(req, members, limit) <==> AllAnswerable(req, members, 0)
  {
    hide Answerable;
    forall i | 0 <= i < |members|
      ensures Answerable(QueryFor(req, members[i], limit)) <==> Answerable(QueryFor(req, members[i], 0))
    {
      LimitAccepted(QueryFor(req, members[i], limit));
    }
  }

  lemma LimitAccepted(q: Search)
    requires 0 <= q.limit <= 1000
    ensures Answerable(q) <==> Answerable(q.(limit := 0))
  {
  }

  lemma NotAllAnswerable(req: Request, members: seq<Member>, k: nat, limit: int)
    requires k < |members| && 0 <= limit <= 1000 && !Answerable(QueryFor(req, members[k], limit))
    ensures !AllAnswerable(req, members, 0)
  {
    hide Answerable;
    LimitsAgree(req, members, limit);
  }

  lemma CappedAnswers(req: Request, members: seq<Member>, limit: int, lists: seq<seq<Slot>>, full: seq<seq<Slot>>)
    requires 0 < limit && AreAnswers(req, members, limit, lists) && AreAnswers(req, members, 0, full)
    ensures lists == CapAll(full, limit)
  {
    hide IsAnswer, AllBusyValid, RulesValid;
    forall i | 0 <= i < |members|
      ensures lists[i] == Cap(full[i], limit)
    {
      var q := QueryFor(req, members[i], limit);
      assert q.(limit := 0) == QueryFor(req, members[i], 0);
      EngineTheorems.LimitKeepsTheFirst(members[i].off, q, lists[i], full[i]);
    }
  }

  lemma AnswersPerStaff(req: Request, members: seq<Member>, full: seq<seq<Slot>>)
    requires Roster(req, members) && AreAnswers(req, members, 0, full)
    ensures PerStaff(Ids(members), full)
  {
    hide IsAnswer, GoesForward, AllBusyValid, RulesValid;
    forall i | 0 <= i < |members|
      ensures Increasing(SlotBefore, full[i])
      ensures forall x :: x in full[i] ==> x.staff == members[i].id
    {
      EngineTheorems.UnlimitedAnswer(members[i].off, QueryFor(req, members[i], 0), full[i]);
      EarlierIsBefore(full[i]);
    }
  }

  lemma EarlierIsBefore(s: seq<Slot>)
    requires Increasing(EngineTheorems.Earlier, s)
    ensures Increasing(SlotBefore, s)
  {
    forall i, j | 0 <= i < j < |s|
      ensures SlotBefore(s[i], s[j])
    {
      assert EngineTheorems.Earlier(s[i], s[j]);
    }
  }
}

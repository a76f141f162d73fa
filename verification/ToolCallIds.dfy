/** normalizeToolCallIDs of internal/agent/runner.go: every tool call of a turn gets an id
    of its own. */
module ToolCallIds {
  import opened Decimals

  datatype Call = Call(id: string, name: string, args: string)

  const LONGEST_ID := 200

  function Base(iteration: nat, index: nat): string {
    "model-call-" + Print(iteration) + "-" + Print(index)
  }

  function Suffixed(base: string, suffix: nat): string {
    base + "-" + Print(suffix)
  }

  predicate Unusable(id: string, seen: set<string>) {
    id == "" || |id| > LONGEST_ID || id in seen
  }

  /** A call keeps everything but, where it has to change, its id. */
  predicate SameCall(a: Call, b: Call, seen: set<string>) {
    b == a.(id := b.id) && (!Unusable(a.id, seen) ==> b.id == a.id)
  }

  function IdsOf(calls: seq<Call>): set<string> {
    set i | 0 <= i < |calls| :: calls[i].id
  }

  ghost predicate DistinctIds(calls: seq<Call>) {
    forall i, j :: 0 <= i < j < |calls| ==> calls[i].id != calls[j].id
  }

  lemma SuffixedInjective(base: string, m: nat, n: nat)
    requires Suffixed(base, m) == Suffixed(base, n)
    ensures m == n
  {
    assert Suffixed(base, m)[|base| + 1..] == Print(m);
    assert Suffixed(base, n)[|base| + 1..] == Print(n);
    PrintInjective(m, n);
  }

  /** The suffix loop: it ends because every candidate is new and only finitely many are taken. */
  method FreshId(base: string, seen: set<string>) returns (id: string)
    ensures id !in seen && (base !in seen ==> id == base)
    ensures id == base || exists n :: n >= 2 && id == Suffixed(base, n)
  {
    id := base;
    var suffix := 2;
    ghost var tried: set<string> := {};
    while id in seen
      invariant suffix >= 2 && tried <= seen && (base !in seen ==> id == base)
      invariant id == base || (suffix > 2 && id == Suffixed(base, suffix - 1))
      invariant forall n :: suffix <= n ==> Suffixed(base, n) !in tried
      invariant id != base ==> id !in tried
      invariant id == base ==> suffix == 2 && base !in tried
      decreases |seen - tried|
    {
      ghost var before := seen - tried;
      tried := tried + {id};
      assert seen - tried < before;
      Shrinks(seen - tried, before);
      forall n | suffix + 1 <= n
        ensures Suffixed(base, n) !in tried
      {
        NewCandidate(base, suffix, n, id, tried - {id});
      }
      NewCandidate(base, suffix, suffix, id, tried - {id});
      id := Suffixed(base, suffix);
      suffix := suffix + 1;
    }
  }

  lemma Shrinks(a: set<string>, b: set<string>)
    requires a < b
    ensures |a| < |b|
  {
    assert b == a + (b - a);
    assert b - a != {};
  }

  lemma NewCandidate(base: string, suffix: nat, n: nat, id: string, tried: set<string>)
    requires suffix >= 2 && suffix <= n && Suffixed(base, n) !in tried
    requires id == base || id == Suffixed(base, suffix - 1)
    ensures Suffixed(base, n) != id && Suffixed(base, n) !in tried + {id}
  {
    assert |Suffixed(base, n)| > |base|;
    if Suffixed(base, n) == Suffixed(base, suffix - 1) {
      SuffixedInjective(base, n, suffix - 1);
    }
  }

  /** Call `i` has an id no earlier call has, its own where that was usable. */
  ghost predicate NormalAt(calls: seq<Call>, normal: seq<Call>, seen: set<string>, i: nat)
    requires |normal| <= |calls| && i < |normal|
  {
    normal[i].id !in seen + IdsOf(normal[..i]) && SameCall(calls[i], normal[i], seen + IdsOf(normal[..i]))
  }

  method NormalizeToolCallIds(calls: seq<Call>, iteration: nat, seen: set<string>) returns (normal: seq<Call>, used: set<string>)
    ensures |normal| == |calls| && forall i :: 0 <= i < |calls| ==> NormalAt(calls, normal, seen, i)
    ensures used == seen + IdsOf(normal)
    ensures forall i :: 0 <= i < |calls| && (normal[i].id != calls[i].id || calls[i].id == "" || 200 < |calls[i].id|) ==>
              GivenName(normal[i].id, iteration, i + 1)
  {
    hide NormalAt, IdsOf, GivenName;
    normal, used := [], seen;
    assert IdsOf([]) == {} by { NoIds(); }
    for k := 0 to |calls|
      invariant |normal| == k && used == seen + IdsOf(normal)
      invariant forall i :: 0 <= i < k ==> NormalAt(calls, normal, seen, i)
      invariant forall i :: 0 <= i < k && (normal[i].id != calls[i].id || calls[i].id == "" || 200 < |calls[i].id|) ==>
                  GivenName(normal[i].id, iteration, i + 1)
    {
      var candidate := calls[k].id;
      if Unusable(candidate, used) {
        candidate := FreshId(Base(iteration, k + 1), used);
        FreshIsGiven(candidate, iteration, k + 1);
      }
      Usable(candidate, used);
      var next := calls[k].(id := candidate);
      OneMoreCall(calls, normal, seen, next);
      normal, used := normal + [next], used + {candidate};
    }
  }

  /** An id made up for the call: its iteration and place, with a number where that was taken. */
  ghost predicate GivenName(id: string, iteration: nat, place: nat) {
    var name := "model-call-" + Print(iteration) + "-" + Print(place);
    id == name || exists n: nat :: 2 <= n && id == name + "-" + Print(n)
  }

  lemma FreshIsGiven(id: string, iteration: nat, place: nat)
    requires id == Base(iteration, place) || exists n :: n >= 2 && id == Suffixed(Base(iteration, place), n)
    ensures GivenName(id, iteration, place)
  {
    hide Print;
    if id != Base(iteration, place) {
      var n :| n >= 2 && id == Suffixed(Base(iteration, place), n);
      assert id == "model-call-" + Print(iteration) + "-" + Print(place) + "-" + Print(n);
    }
  }

  lemma NoIds()
    ensures IdsOf([]) == {}
  {
  }

  lemma Usable(id: string, seen: set<string>)
    ensures !Unusable(id, seen) ==> id !in seen
  {
  }

  lemma OneMoreCall(calls: seq<Call>, normal: seq<Call>, seen: set<string>, next: Call)
    requires |normal| < |calls| && forall i :: 0 <= i < |normal| ==> NormalAt(calls, normal, seen, i)
    requires next.id !in seen + IdsOf(normal) && SameCall(calls[|normal|], next, seen + IdsOf(normal))
    ensures forall i :: 0 <= i <= |normal| ==> NormalAt(calls, normal + [next], seen, i)
    ensures IdsOf(normal + [next]) == IdsOf(normal) + {next.id}
  {
    hide SameCall, IdsOf;
    IdsGrow(normal, next);
    forall i | 0 <= i <= |normal|
      ensures NormalAt(calls, normal + [next], seen, i)
    {
      assert (normal + [next])[..i] == normal[..i];
      assert normal[..|normal|] == normal;
      assert i < |normal| ==> NormalAt(calls, normal, seen, i);
    }
  }

  /** So the ids of the batch differ from each other and from all earlier ones. */
  lemma NormalIdsDiffer(calls: seq<Call>, normal: seq<Call>, seen: set<string>)
    requires |normal| == |calls| && forall i :: 0 <= i < |calls| ==> NormalAt(calls, normal, seen, i)
    ensures DistinctIds(normal) && forall i :: 0 <= i < |normal| ==> normal[i].id !in seen
  {
    forall i, j | 0 <= i < j < |normal|
      ensures normal[i].id != normal[j].id
    {
      assert NormalAt(calls, normal, seen, j);
      assert normal[..j][i] == normal[i];
      assert normal[i].id in IdsOf(normal[..j]);
    }
    forall i | 0 <= i < |normal|
      ensures normal[i].id !in seen
    {
      assert NormalAt(calls, normal, seen, i);
    }
  }

  lemma IdsGrow(calls: seq<Call>, next: Call)
    ensures IdsOf(calls + [next]) == IdsOf(calls) + {next.id}
  {
    var all := calls + [next];
    assert all[|calls|] == next;
    assert forall i | 0 <= i < |calls| :: all[i] == calls[i];
    forall x | x in IdsOf(calls)
      ensures x in IdsOf(all)
    {
      var i :| 0 <= i < |calls| && calls[i].id == x;
      assert all[i].id == x;
    }
  }
}

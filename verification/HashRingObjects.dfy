/** The consistent-hash ring as the program keeps it: an ordered map changed in place, and walks
    over it that collect servers with an early exit. */
module HashRingObjects {
  import opened Basics
  import opened RingValues
  import opened RingMembership
  import opened RingSearch

  class HashRing {
    var ring: Ring
    const virtualNodes: nat
    const replicas: nat
    const hashes: Hashes

    constructor (vnodes: nat, replicas: nat, hashes: Hashes)
      ensures ring == map[] && virtualNodes == vnodes && this.replicas == replicas && this.hashes == hashes
    {
      ring, virtualNodes, this.replicas, this.hashes := map[], vnodes, replicas, hashes;
    }

    method AddNode(n: Uuid)
      modifies this`ring
      ensures ring == RingMembership.AddNode(hashes, old(ring), n, virtualNodes)
    {
      for i := 0 to virtualNodes
        invariant ring == RingMembership.AddNode(hashes, old(ring), n, i)
      {
        ring := ring[hashes.vnode(n, i) := n];
      }
    }

    method RemoveNode(n: Uuid)
      modifies this`ring
      ensures ring == RingMembership.RemoveNode(hashes, old(ring), n, virtualNodes)
    {
      for i := 0 to virtualNodes
        invariant ring == RingMembership.RemoveNode(hashes, old(ring), n, i)
      {
        ring := ring - {hashes.vnode(n, i)};
      }
    }

    /** The first `replicas` distinct servers of one clockwise turn from the position. */
    method GetPreferenceListHash(hash: nat) returns (list: seq<Uuid>)
      ensures list == Preference(ring, hash, replicas)
      ensures Clockwise(ring, hash, replicas, list)
    {
      PreferenceClockwise(ring, hash, replicas);
      hide Sorted, Clockwise, Dedup, Rotation, CodeWalk;
      list := [];
      WalkIsRotation(ring, hash);
      if ring == map[] {
        PreferenceShape(ring, hash, replicas);
        return;
      }
      var walk := CodeWalk(ring, hash);
      var seen: set<Uuid> := {};
      EmptyWalk();
      for i := 0 to |walk|
        invariant list == Dedup(walk[..i]) && seen == Elements(list)
        invariant list == [] || |list| < replicas
      {
        DedupStep(walk, i);
        if walk[i] !in seen {
          list := list + [walk[i]];
          seen := seen + {walk[i]};
          if |list| >= replicas {
            DedupPrefix(walk, i + 1);
            return;
          }
        }
      }
      assert walk[..|walk|] == walk;
    }

    method GetPreferenceList(id: Uuid) returns (list: seq<Uuid>)
      ensures list == Preference(ring, hashes.list(id), replicas)
      ensures Clockwise(ring, hashes.list(id), replicas, list)
    {
      list := GetPreferenceListHash(hashes.list(id));
    }

    method GetCoordinator(id: Uuid) returns (node: Option<Uuid>)
      ensures node.None? <==> ring == map[]
      ensures node.Some? ==>
        var list := Preference(ring, hashes.list(id), replicas); list != [] && node.value == list[0]
      ensures node.Some? ==> FirstMet(ring, hashes.list(id), [], node.value)
    {
      hide Preference, Clockwise, FirstMet;
      TailIsRest(ring, hashes.list(id), replicas);
      var list := GetPreferenceList(id);
      PreferenceShape(ring, hashes.list(id), replicas);
      ValuesEmptyIff(ring);
      node := if list == [] then None else Some(list[0]);
    }

    /** The first other server after the smallest position of the node. */
    method NextNode(n: Uuid) returns (next: Option<Uuid>)
      ensures next == RingSearch.NextNode(ring, n)
      ensures next.Some? <==> n in ring.Values && ring.Values != {n}
      ensures next.Some? ==> Follows(ring, n, next.value)
    {
      NextNodeIs(ring, n);
      NextNodeDefined(ring, n);
      hide Follows, Sorted, CodeWalk;
      var positions := NodePositions(ring, n);
      if positions == {} {
        return None;
      }
      var start := Sorted(positions)[0];
      var walk := CodeWalk(ring, start + 1);
      for i := 0 to |walk|
        invariant FirstOther(walk, n) == FirstOther(walk[i..], n)
      {
        if walk[i] != n {
          return Some(walk[i]);
        }
      }
      assert walk[|walk|..] == [];
      next := None;
    }

    /** The search for a fallback, for as many steps as the caller waits. */
    method NextAvailable(start: Uuid, up: Uuid -> bool, budget: nat) returns (outcome: Outcome)
      ensures outcome == Search(NextIn(ring), up, start, start, budget)
      ensures forall n: Uuid ::
        outcome == Found(n) <==> exists k: nat | k < budget :: FirstAvailable(ring, up, start, n, k)
    {
      hide RingSearch.NextNode, FirstAvailable, Sorted, CodeWalk;
      forall n: Uuid
        ensures Search(NextIn(ring), up, start, start, budget) == Found(n)
          <==> exists k: nat | k < budget :: FirstAvailable(ring, up, start, n, k)
      {
        SearchIs(ring, up, start, budget, n);
      }
      var current := start;
      for step := 0 to budget
        invariant Search(NextIn(ring), up, start, start, budget)
               == Search(NextIn(ring), up, start, current, budget - step)
      {
        var next := NextNode(current);
        if next.None? {
          return Failed;
        }
        if up(next.value) {
          return Found(next.value);
        }
        if next.value == start {
          return Failed;
        }
        current := next.value;
      }
      outcome := Searching;
    }
  }

  lemma EmptyWalk()
    ensures Dedup([]) == []
  {}

  lemma DedupStep(walk: seq<Uuid>, i: nat)
    requires i < |walk|
    ensures Dedup(walk[..i + 1]) ==
      if walk[i] in Dedup(walk[..i]) then Dedup(walk[..i]) else Dedup(walk[..i]) + [walk[i]]
  {
    assert walk[..i + 1][..i] == walk[..i];
  }

  lemma DedupPrefix(walk: seq<Uuid>, i: nat)
    requires i <= |walk|
    ensures Dedup(walk[..i]) <= Dedup(walk)
  {
    assert walk == walk[..i] + walk[i..];
    DedupAppend(walk[..i], walk[i..]);
  }

  lemma ValuesEmptyIff(ring: Ring)
    ensures |ring.Values| == 0 <==> ring == map[]
  {
    if k: nat :| k in ring {
      assert ring[k] in ring.Values;
    }
  }
}

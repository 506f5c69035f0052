/** The search for a fallback server: `next_node` and the loop of `get_next_available_node`. */
module RingSearch {
  import opened Basics
  import opened RingValues
  import opened RingMembership

  // ---------- next_node ----------

  function NodePositions(ring: Ring, n: Uuid): set<nat> {
    set k | k in ring.Keys && ring[k] == n
  }

  /** The first element that differs from n. */
  function FirstOther(walk: seq<Uuid>, n: Uuid): Option<Uuid> {
    if walk == [] then None else if walk[0] != n then Some(walk[0]) else FirstOther(walk[1..], n)
  }

  function StartOf(ring: Ring, n: Uuid): nat
    requires NodePositions(ring, n) != {}
  {
    Sorted(NodePositions(ring, n))[0]
  }

  /** `next_node`: the first other server after the smallest position of n. */
  function NextNode(ring: Ring, n: Uuid): Option<Uuid> {
    if NodePositions(ring, n) == {} then None
    else FirstOther(CodeWalk(ring, StartOf(ring, n) + 1), n)
  }

  lemma {:induction false} FirstOtherIn(walk: seq<Uuid>, n: Uuid)
    ensures FirstOther(walk, n).Some? ==> FirstOther(walk, n).value in walk && FirstOther(walk, n).value != n
    ensures FirstOther(walk, n).None? <==> forall x <- walk :: x == n
  {
    if walk != [] {
      FirstOtherIn(walk[1..], n);
      assert walk == [walk[0]] + walk[1..];
    }
  }

  lemma CodeWalkServers(ring: Ring, h: nat)
    ensures forall m :: m in CodeWalk(ring, h) <==> m in ring.Values
  {
    WalkIsRotation(ring, h);
    DedupElements(CodeWalk(ring, h));
    DedupElements(Rotation(ring, h));
    RotationServers(ring, h);
    forall m ensures m in CodeWalk(ring, h) <==> m in ring.Values {
      assert m in Dedup(CodeWalk(ring, h)) <==> m in Dedup(Rotation(ring, h));
    }
  }

  lemma HasPosition(ring: Ring, n: Uuid)
    ensures n in ring.Values <==> NodePositions(ring, n) != {}
  {
    if n in ring.Values {
      var k: nat :| k in ring && ring[k] == n;
      assert k in NodePositions(ring, n);
    }
  }

  lemma FirstOtherOfServers(walk: seq<Uuid>, servers: set<Uuid>, n: Uuid)
    requires n in servers && forall m :: m in walk <==> m in servers
    ensures FirstOther(walk, n).Some? <==> servers != {n}
    ensures FirstOther(walk, n).Some? ==> FirstOther(walk, n).value in servers && FirstOther(walk, n).value != n
  {
    FirstOtherIn(walk, n);
    if servers != {n} {
      var m :| m in servers && m != n;
      assert m in walk;
    }
  }

  /** `next_node` answers exactly when the node is on the ring and not alone there, with
      another server of the ring. */
  lemma NextNodeDefined(ring: Ring, n: Uuid)
    ensures NextNode(ring, n).Some? <==> n in ring.Values && ring.Values != {n}
    ensures NextNode(ring, n).Some? ==> NextNode(ring, n).value in ring.Values && NextNode(ring, n).value != n
  {
    HasPosition(ring, n);
    if n in ring.Values {
      CodeWalkServers(ring, StartOf(ring, n) + 1);
      FirstOtherOfServers(CodeWalk(ring, StartOf(ring, n) + 1), ring.Values, n);
    }
  }

  // ---------- 128-bit hashes ----------

  const U128: nat := 0x1_0000_0000_0000_0000_0000_0000_0000_0000

  lemma {:induction false} FirstOtherAppend(walk: seq<Uuid>, rest: seq<Uuid>, n: Uuid)
    ensures FirstOther(walk + rest, n) == if FirstOther(walk, n).Some? then FirstOther(walk, n) else FirstOther(rest, n)
  {
    if walk == [] {
      assert walk + rest == rest;
    } else {
      assert (walk + rest)[1..] == walk[1..] + rest;
      FirstOtherAppend(walk[1..], rest, n);
    }
  }

  /** With 128-bit hashes the position after the smallest one overflows exactly if that is the
      last position of all; where the addition wraps around, the answer is the same. */
  lemma NextNodeWraps(ring: Ring, n: Uuid)
    requires (forall k <- ring :: k < U128) && NodePositions(ring, n) != {}
    ensures StartOf(ring, n) + 1 <= U128
    ensures NextNode(ring, n) == FirstOther(CodeWalk(ring, (StartOf(ring, n) + 1) % U128), n)
  {
    hide Sorted, FirstOther;
    var start := StartOf(ring, n);
    SortedAscends(NodePositions(ring, n));
    assert start in Sorted(NodePositions(ring, n));
    assert start in ring;
    if start + 1 == U128 {
      assert From(ring.Keys, U128) == {} && From(ring.Keys, 0) == ring.Keys;
      var all := Ids(ring, Sorted(ring.Keys));
      assert CodeWalk(ring, 0) == all + all;
      SortedNothing();
      assert CodeWalk(ring, U128) == all;
      FirstOtherAppend(all, all, n);
    }
  }

  lemma SortedNothing()
    ensures Sorted({}) == []
  {}

  /** m owns the first position clockwise from the smallest position of n that n does not own. */
  ghost predicate Follows(ring: Ring, n: Uuid, m: Uuid) {
    exists k <- ring :: ring[k] == n && (forall l <- ring | ring[l] == n :: k <= l) && FirstMet(ring, k, [n], m)
  }

  lemma {:induction false} FirstOtherAt(walk: seq<Uuid>, n: Uuid) returns (j: nat)
    requires FirstOther(walk, n).Some?
    ensures j < |walk| && walk[j] == FirstOther(walk, n).value != n && forall i | 0 <= i < j :: walk[i] == n
  {
    if walk[0] != n {
      j := 0;
    } else {
      var i := FirstOtherAt(walk[1..], n);
      j := i + 1;
      forall l | 0 <= l < j ensures walk[l] == n {
        assert l > 0 ==> walk[l] == walk[1..][l - 1];
      }
    }
  }

  /** The positions of the walk from after k, up to the first that n does not own. */
  lemma WalkMeets(ring: Ring, n: Uuid, k: nat, j: nat, l: nat)
    requires k in ring && ring[k] == n && l in ring && ring[l] != n
    requires var ks := Sorted(From(ring.Keys, k + 1)) + Sorted(ring.Keys);
      && (forall x <- ks :: x in ring) && j < |ks|
      && ring[ks[j]] != n && forall i | 0 <= i < j :: ring[ks[i]] == n
    ensures Meets(k, (Sorted(From(ring.Keys, k + 1)) + Sorted(ring.Keys))[j], l)
  {
    hide Sorted;
    var from, all := Sorted(From(ring.Keys, k + 1)), Sorted(ring.Keys);
    var ks := from + all;
    SortedAscends(From(ring.Keys, k + 1));
    SortedAscends(ring.Keys);
    var part := if l > k then from else all;
    assert l in part;
    var i :| 0 <= i < |part| && part[i] == l;
    assert ks[if l > k then i else |from| + i] == l;
    if j >= |from| {
      forall x | x in from ensures ring[x] == n {
        var y :| 0 <= y < |from| && from[y] == x;
        assert ks[y] == x;
      }
      assert ks[j] in all;
    } else {
      assert ks[j] in from;
    }
  }

  /** `next_node`, from the positions of the ring alone. */
  lemma NextNodeIs(ring: Ring, n: Uuid)
    ensures NextNode(ring, n).Some? ==> Follows(ring, n, NextNode(ring, n).value)
  {
    hide Sorted, FirstOther, StartOf, CodeWalk, FirstMet;
    if NextNode(ring, n).Some? {
      var k := StartOf(ring, n);
      StartIsSmallest(ring, n);
      FirstOtherMet(ring, n, k);
    }
  }

  lemma StartIsSmallest(ring: Ring, n: Uuid)
    requires NodePositions(ring, n) != {}
    ensures var k := StartOf(ring, n); k in ring && ring[k] == n && forall l <- ring | ring[l] == n :: k <= l
  {
    var k := StartOf(ring, n);
    SortedAscends(NodePositions(ring, n));
    assert k in Sorted(NodePositions(ring, n));
    forall l | l in ring && ring[l] == n ensures k <= l {
      assert l in Sorted(NodePositions(ring, n));
    }
  }

  lemma FirstOtherMet(ring: Ring, n: Uuid, k: nat)
    requires k in ring && ring[k] == n && FirstOther(CodeWalk(ring, k + 1), n).Some?
    ensures FirstMet(ring, k, [n], FirstOther(CodeWalk(ring, k + 1), n).value)
  {
    hide Sorted, FirstOther, Meets;
    var from, all := Sorted(From(ring.Keys, k + 1)), Sorted(ring.Keys);
    IdsAppend(ring, from, all);
    var j := FirstOtherAt(CodeWalk(ring, k + 1), n);
    var ks := from + all;
    assert CodeWalk(ring, k + 1) == Ids(ring, ks);
    forall l | l in ring && ring[l] !in [n] ensures Meets(k, ks[j], l) {
      WalkMeets(ring, n, k, j, l);
    }
    assert ks[j] in ks;
  }

  /** The walk starts at the smallest position at or after h. */
  lemma WalkHead(ring: Ring, h: nat, k: nat)
    requires k in ring && k >= h && forall l <- ring | l >= h :: k <= l
    ensures CodeWalk(ring, h) != [] && CodeWalk(ring, h)[0] == ring[k]
  {
    assert k in From(ring.Keys, h);
    SmallestFirst(From(ring.Keys, h), k);
    HeadOfConcat(Ids(ring, Sorted(From(ring.Keys, h))), Ids(ring, Sorted(ring.Keys)));
  }

  lemma HeadOfConcat(s: seq<Uuid>, t: seq<Uuid>)
    ensures s != [] ==> (s + t)[0] == s[0]
    ensures s == [] ==> s + t == t
  {}

  lemma SmallestFirst(s: set<nat>, k: nat)
    requires k in s && forall l <- s :: k <= l
    ensures Sorted(s) != [] && Sorted(s)[0] == k
  {
    SortedAscends(s);
    assert k in Sorted(s);
    var i :| 0 <= i < |Sorted(s)| && Sorted(s)[i] == k;
    assert Sorted(s)[0] in s;
  }

  lemma NextIsHead(ring: Ring, n: Uuid, k: nat)
    requires NodePositions(ring, n) != {} && StartOf(ring, n) == k
    requires var walk := CodeWalk(ring, k + 1); walk != [] && walk[0] != n
    ensures NextNode(ring, n) == Some(CodeWalk(ring, k + 1)[0])
  {
    hide Sorted, MaxOf;
  }

  // ---------- the search loop ----------

  datatype Outcome = Found(node: Uuid) | Failed | Searching

  type Next = Uuid -> Option<Uuid>

  /** The loop of `get_next_available_node` from `current`, cut off after `budget` turns;
      `up` is the availability test. */
  function Search(next: Next, up: Uuid -> bool, start: Uuid, current: Uuid, budget: nat): Outcome
    decreases budget
  {
    if budget == 0 then Searching else
      match next(current)
      case None => Failed
      case Some(n) =>
        if up(n) then Found(n)
        else if n == start then Failed
        else Search(next, up, start, n, budget - 1)
  }

  /** A trap: unavailable servers, not the start, that lead only to each other. */
  ghost predicate Trap(next: Next, up: Uuid -> bool, start: Uuid, trap: set<Uuid>) {
    forall n <- trap :: !up(n) && n != start && next(n).Some? && next(n).value in trap
  }

  ghost predicate LeadsInto(next: Next, start: Uuid, trap: set<Uuid>) {
    next(start).Some? && next(start).value in trap
  }

  lemma {:induction false} TrappedForever(next: Next, up: Uuid -> bool, start: Uuid, current: Uuid,
                                          trap: set<Uuid>, budget: nat)
    requires Trap(next, up, start, trap) && LeadsInto(next, current, trap)
    ensures Search(next, up, start, current, budget) == Searching
    decreases budget
  {
    if budget > 0 {
      TrappedForever(next, up, start, next(current).value, trap, budget - 1);
    }
  }

  /** The servers the search visits in its first `budget` turns. */
  function Visited(next: Next, up: Uuid -> bool, start: Uuid, current: Uuid, budget: nat): seq<Uuid>
    requires Search(next, up, start, current, budget) == Searching
    decreases budget
  {
    if budget == 0 then [] else
      [next(current).value] + Visited(next, up, start, next(current).value, budget - 1)
  }

  lemma {:induction false} VisitedFacts(next: Next, up: Uuid -> bool, start: Uuid, current: Uuid, budget: nat)
    requires Search(next, up, start, current, budget) == Searching
    ensures var v := Visited(next, up, start, current, budget);
      && |v| == budget
      && (forall i | 0 <= i < budget :: !up(v[i]) && v[i] != start)
      && (budget > 0 ==> next(current) == Some(v[0]))
      && (forall i | 0 < i < budget :: next(v[i - 1]) == Some(v[i]))
    decreases budget
  {
    if budget > 0 {
      VisitedFacts(next, up, start, next(current).value, budget - 1);
    }
  }

  lemma Pigeonhole(v: seq<Uuid>, holes: set<Uuid>) returns (i: nat, j: nat)
    requires |v| > |holes| && forall x <- v :: x in holes
    ensures i < j < |v| && v[i] == v[j]
  {
    if NoDuplicates(v) {
      CountElements(v);
      SubsetSize(Elements(v), holes);
      assert false;
    }
    i, j :| 0 <= i < j < |v| && v[i] == v[j];
  }

  lemma SubsetSize(a: set<Uuid>, b: set<Uuid>)
    requires a <= b
    ensures |a| <= |b|
  {
    assert b == a + (b - a);
  }

  /** If the search has not stopped after more turns than there are servers, it is in a
      trap. */
  lemma LongSearchTrapped(next: Next, up: Uuid -> bool, start: Uuid, servers: set<Uuid>) returns (trap: set<Uuid>)
    requires forall n :: next(n).Some? ==> next(n).value in servers
    requires Search(next, up, start, start, |servers| + 1) == Searching
    ensures Trap(next, up, start, trap) && LeadsInto(next, start, trap)
  {
    var v := Visited(next, up, start, start, |servers| + 1);
    VisitedFacts(next, up, start, start, |servers| + 1);
    forall x | x in v ensures x in servers {
      var i :| 0 <= i < |v| && v[i] == x;
      assert i > 0 ==> next(v[i - 1]) == Some(v[i]);
    }
    var i, j := Pigeonhole(v, servers);
    trap := set k | 0 <= k < j :: v[k];
    forall n | n in trap
      ensures !up(n) && n != start && next(n).Some? && next(n).value in trap
    {
      var k :| 0 <= k < j && n == v[k];
      assert next(v[(k + 1) - 1]) == Some(v[k + 1]);
      assert v[i] in trap;
    }
    assert v[0] in trap;
  }

  ghost predicate RunsForever(next: Next, up: Uuid -> bool, start: Uuid) {
    forall budget: nat :: Search(next, up, start, start, budget) == Searching
  }

  /** The loop runs forever exactly when the start leads into a trap; a search that is still
      running after more turns than there are servers never stops. */
  lemma SearchDivergesIff(ring: Ring, up: Uuid -> bool, start: Uuid)
    ensures RunsForever(NextIn(ring), up, start) <==>
      exists trap: set<Uuid> :: Trap(NextIn(ring), up, start, trap) && LeadsInto(NextIn(ring), start, trap)
    ensures Search(NextIn(ring), up, start, start, |ring.Values| + 1) == Searching ==>
      RunsForever(NextIn(ring), up, start)
  {
    hide NextNode;
    var next := NextIn(ring);
    forall n ensures next(n).Some? ==> next(n).value in ring.Values {
      NextNodeDefined(ring, n);
    }
    forall trap: set<Uuid>, budget: nat | Trap(next, up, start, trap) && LeadsInto(next, start, trap)
      ensures Search(next, up, start, start, budget) == Searching
    {
      TrappedForever(next, up, start, start, trap, budget);
    }
    if Search(next, up, start, start, |ring.Values| + 1) == Searching {
      var trap := LongSearchTrapped(next, up, start, ring.Values);
    }
  }

  function NextIn(ring: Ring): Next {
    n => NextNode(ring, n)
  }

  // ---------- what the search finds ----------

  /** k + 1 steps of `next_node`. */
  function NthNext(ring: Ring, s: Uuid, k: nat): Option<Uuid> {
    if k == 0 then NextNode(ring, s)
    else
      match NthNext(ring, s, k - 1)
      case None => None
      case Some(m) => NextNode(ring, m)
  }

  /** The first k steps from the start meet neither an available server nor the start. */
  ghost predicate NothingBefore(ring: Ring, up: Uuid -> bool, start: Uuid, k: nat) {
    forall j: nat | j < k ::
      NthNext(ring, start, j).Some? && !up(NthNext(ring, start, j).value) && NthNext(ring, start, j).value != start
  }

  /** n is available and is met at step k, before any other available server and before the start. */
  ghost predicate FirstAvailable(ring: Ring, up: Uuid -> bool, start: Uuid, n: Uuid, k: nat) {
    NothingBefore(ring, up, start, k) && NthNext(ring, start, k) == Some(n) && up(n)
  }

  lemma {:induction false} SearchFrom(ring: Ring, up: Uuid -> bool, start: Uuid, current: Uuid, k: nat, budget: nat,
                                      n: Uuid)
    requires NothingBefore(ring, up, start, k)
    requires if k == 0 then current == start else NthNext(ring, start, k - 1) == Some(current)
    ensures Search(NextIn(ring), up, start, current, budget) == Found(n)
      <==> exists i: nat | k <= i < k + budget :: FirstAvailable(ring, up, start, n, i)
    decreases budget
  {
    hide NextNode;
    if budget > 0 {
      var next := NextNode(ring, current);
      assert NthNext(ring, start, k) == next;
      if next.Some? && !up(next.value) && next.value != start {
        SearchFrom(ring, up, start, next.value, k + 1, budget - 1, n);
        assert !FirstAvailable(ring, up, start, n, k);
      } else {
        assert forall i: nat | i > k :: !NothingBefore(ring, up, start, i);
        assert Search(NextIn(ring), up, start, current, budget) == Found(n) <==> FirstAvailable(ring, up, start, n, k);
      }
    }
  }

  /** The search within a budget finds exactly the first available server met, if it is met within
      the budget and not after the start. */
  lemma SearchIs(ring: Ring, up: Uuid -> bool, start: Uuid, budget: nat, n: Uuid)
    ensures Search(NextIn(ring), up, start, start, budget) == Found(n)
      <==> exists i: nat | i < budget :: FirstAvailable(ring, up, start, n, i)
  {
    hide NextNode, Search, FirstAvailable;
    SearchFrom(ring, up, start, start, 0, budget, n);
  }

  // ---------- the search on a cycle ----------

  function FirstUp(s: seq<Uuid>, up: Uuid -> bool): Option<Uuid> {
    if s == [] then None else if up(s[0]) then Some(s[0]) else FirstUp(s[1..], up)
  }

  lemma {:induction false} FirstUpIn(s: seq<Uuid>, up: Uuid -> bool)
    ensures FirstUp(s, up).Some? ==> FirstUp(s, up).value in s && up(FirstUp(s, up).value)
    ensures FirstUp(s, up).None? <==> forall x <- s :: !up(x)
  {
    if s != [] {
      FirstUpIn(s[1..], up);
      assert s == [s[0]] + s[1..];
    }
  }

  ghost predicate IsCycle(next: Next, c: seq<Uuid>) {
    && NoDuplicates(c)
    && forall i | 0 <= i < |c| :: next(c[i]) == Some(c[if i + 1 < |c| then i + 1 else 0])
  }

  function OutcomeOf(found: Option<Uuid>): Outcome {
    match found case None => Failed case Some(n) => Found(n)
  }

  /** On a cycle the search tries the other servers in order and the start itself last. */
  lemma {:induction false} SearchOnCycle(next: Next, up: Uuid -> bool, c: seq<Uuid>, i: nat)
    requires IsCycle(next, c) && i < |c|
    ensures Search(next, up, c[0], c[i], |c| - i) == OutcomeOf(FirstUp(c[i + 1..] + [c[0]], up))
    decreases |c| - i
  {
    if i + 1 < |c| {
      SearchOnCycle(next, up, c, i + 1);
      assert (c[i + 1..] + [c[0]])[1..] == c[i + 2..] + [c[0]];
    } else {
      assert c[i + 1..] + [c[0]] == [c[0]];
      assert FirstUp([c[0]], up) == if up(c[0]) then Some(c[0]) else None;
    }
  }

  // ---------- with one virtual node per server the search is a full turn ----------

  ghost predicate OnePositionEach(ring: Ring) {
    forall k, l | k in ring && l in ring && ring[k] == ring[l] :: k == l
  }

  /** The servers in ring order. */
  function Circle(ring: Ring): seq<Uuid> {
    Ids(ring, Sorted(ring.Keys))
  }

  lemma CircleShape(ring: Ring)
    requires OnePositionEach(ring)
    ensures NoDuplicates(Circle(ring)) && |Circle(ring)| == |ring.Values| == |ring.Keys|
    ensures forall n :: n in Circle(ring) <==> n in ring.Values
  {
    hide Sorted, MaxOf;
    var ks := Sorted(ring.Keys);
    SortedAscends(ring.Keys);
    forall i, j | 0 <= i < j < |ks| ensures Circle(ring)[i] != Circle(ring)[j] {
      assert ks[i] in ring && ks[j] in ring && ks[i] < ks[j];
    }
    forall n ensures n in Circle(ring) <==> n in ring.Values {
      IdsElements(ring, ks, n);
      if n in ring.Values {
        var k: nat :| k in ring && ring[k] == n;
        assert k in ks;
      }
    }
    CountElements(Circle(ring));
    assert Elements(Circle(ring)) == ring.Values;
  }

  lemma SplitPoint(ks: seq<nat>, below: seq<nat>, from: seq<nat>, i: nat)
    requires ks == below + from && i < |ks|
    requires forall j | 0 <= j < |below| :: below[j] <= ks[i]
    requires forall j | 0 <= j < |from| :: from[j] > ks[i]
    requires forall a, b | 0 <= a < b < |ks| :: ks[a] < ks[b]
    ensures from == ks[i + 1..]
  {
    assert |below| <= i + 1 by {
      if |below| > 0 {
        var j := |below| - 1;
        assert ks[j] == below[j];
      }
    }
    assert |below| > i by {
      if |below| < |ks| {
        assert ks[|below|] == from[0];
      }
    }
  }

  /** The positions after the i-th are the rest of the ascending order. */
  lemma SortedAfter(s: set<nat>, i: nat)
    requires i < |s|
    ensures Sorted(From(s, Sorted(s)[i] + 1)) == Sorted(s)[i + 1..]
  {
    hide Sorted, MaxOf, Below, From;
    var ks, h := Sorted(s), Sorted(s)[i] + 1;
    SortedAscends(s);
    SortedSplits(s, h);
    SortedSides(s, h);
    SplitPoint(ks, Sorted(Below(s, h)), Sorted(From(s, h)), i);
  }

  lemma SortedMembers(s: set<nat>)
    ensures forall j | 0 <= j < |Sorted(s)| :: Sorted(s)[j] in s
  {
    hide Sorted;
    forall j | 0 <= j < |Sorted(s)| ensures Sorted(s)[j] in s {
      assert Sorted(s)[j] in Sorted(s);
    }
  }

  lemma SortedSides(s: set<nat>, h: nat)
    ensures forall j | 0 <= j < |Sorted(Below(s, h))| :: Sorted(Below(s, h))[j] < h
    ensures forall j | 0 <= j < |Sorted(From(s, h))| :: Sorted(From(s, h))[j] >= h
  {
    hide Sorted;
    SortedMembers(Below(s, h));
    SortedMembers(From(s, h));
  }

  lemma StartOfUnique(ring: Ring, k: nat)
    requires OnePositionEach(ring) && k in ring
    ensures NodePositions(ring, ring[k]) != {} && StartOf(ring, ring[k]) == k
  {
    var mine := NodePositions(ring, ring[k]);
    assert mine == {k};
    assert Sorted(mine)[0] in mine;
  }

  /** `next_node` is one step around the circle. */
  lemma NextOnCircle(ring: Ring, i: nat)
    requires OnePositionEach(ring) && 2 <= |ring.Values| && i < |Circle(ring)|
    ensures var c := Circle(ring); NextNode(ring, c[i]) == Some(c[if i + 1 < |c| then i + 1 else 0])
  {
    hide Sorted, MaxOf, OnePositionEach, NodePositions, StartOf, FirstOther;
    var c, ks := Circle(ring), Sorted(ring.Keys);
    CircleShape(ring);
    assert ks[i] in ks;
    StartOfUnique(ring, ks[i]);
    SortedAfter(ring.Keys, i);
    HeadOfConcat(Ids(ring, ks[i + 1..]), c);
    NextIsHead(ring, c[i], ks[i]);
  }

  /** The circle turned so that position s comes first. */
  lemma RotatedCycle(next: Next, c: seq<Uuid>, s: nat)
    requires IsCycle(next, c) && s < |c|
    ensures IsCycle(next, c[s..] + c[..s])
  {
    var d := c[s..] + c[..s];
    forall i | 0 <= i < |d| ensures next(d[i]) == Some(d[if i + 1 < |d| then i + 1 else 0]) {
      var k := if i < |c| - s then s + i else i - (|c| - s);
      assert d[i] == c[k];
    }
  }

  lemma CircleIsCycle(ring: Ring)
    requires OnePositionEach(ring) && 2 <= |ring.Values|
    ensures IsCycle(NextIn(ring), Circle(ring))
  {
    hide Sorted, MaxOf, NextNode, Circle;
    CircleShape(ring);
    var c := Circle(ring);
    forall i | 0 <= i < |c| ensures NextIn(ring)(c[i]) == Some(c[if i + 1 < |c| then i + 1 else 0]) {
      NextOnCircle(ring, i);
    }
  }

  /** The others in clockwise order, then the start. */
  function Others(c: seq<Uuid>, s: nat): seq<Uuid>
    requires s < |c|
  {
    c[s + 1..] + c[..s] + [c[s]]
  }

  lemma OthersElements(c: seq<Uuid>, s: nat)
    requires s < |c|
    ensures forall n :: n in Others(c, s) <==> n in c
    ensures (c[s..] + c[..s])[1..] + [c[s]] == Others(c, s)
  {
    assert c == c[..s] + [c[s]] + c[s + 1..];
  }

  /** With one virtual node per server and at least two servers, the search from a server of
      the ring stops within as many turns as there are servers: it tries the others in
      clockwise order and then the start, finds the first available one, and fails exactly
      when none is available. */
  lemma SingleVnodeSearch(ring: Ring, up: Uuid -> bool, s: nat)
    requires OnePositionEach(ring) && 2 <= |ring.Values| && s < |Circle(ring)|
    ensures var c := Circle(ring);
      var r := Search(NextIn(ring), up, c[s], c[s], |ring.Values|);
      && r == OutcomeOf(FirstUp(Others(c, s), up))
      && r != Searching
      && (r.Failed? <==> forall n <- ring.Values :: !up(n))
  {
    hide *;
    var c, next := Circle(ring), NextIn(ring);
    CircleShape(ring);
    CircleIsCycle(ring);
    TurnFromAnywhere(next, up, c, s);
    forall n ensures n in c <==> n in ring.Values {}
  }

  lemma TurnFromAnywhere(next: Next, up: Uuid -> bool, c: seq<Uuid>, s: nat)
    requires IsCycle(next, c) && s < |c|
    ensures var r := Search(next, up, c[s], c[s], |c|);
      r == OutcomeOf(FirstUp(Others(c, s), up)) && (r.Failed? <==> forall n <- c :: !up(n))
    ensures Search(next, up, c[s], c[s], |c|) != Searching
  {
    hide IsCycle, NoDuplicates, Search, FirstUp, Others;
    var d := c[s..] + c[..s];
    RotatedCycle(next, c, s);
    SearchOnCycle(next, up, d, 0);
    OthersElements(c, s);
    assert d[0 + 1..] + [d[0]] == Others(c, s);
    FirstUpIn(Others(c, s), up);
  }

  // ---------- with three virtual nodes it may never stop ----------

  /** Three servers a, b, s with three virtual nodes each, in the ring order
      a b a s b a b s s: from s the search reaches b, then alternates between a and b. */
  function ThreeVnodes(a: Uuid, b: Uuid, s: Uuid): Ring {
    map[0 := a, 1 := b, 2 := a, 3 := s, 4 := b, 5 := a, 6 := b, 7 := s, 8 := s]
  }

  /** A hash layout that builds it. */
  function ThreeHashes(a: Uuid, b: Uuid, s: Uuid): Hashes {
    Hashes((n: Uuid, i: nat) =>
             if n == a then (if i == 0 then 0 else if i == 1 then 2 else 5)
             else if n == b then (if i == 0 then 1 else if i == 1 then 4 else 6)
             else (if i == 0 then 3 else if i == 1 then 7 else 8),
           (id: Uuid) => 0)
  }

  lemma ThreeHashesDistinct(a: Uuid, b: Uuid, s: Uuid)
    requires a != b && b != s && a != s
    ensures NoCollisions(ThreeHashes(a, b, s), 3, {a, b, s})
  {}

  /** Every position of the ring is a virtual node of its server. */
  lemma ThreeOwner(a: Uuid, b: Uuid, s: Uuid, k: nat)
    requires a != b && b != s && a != s && k in ThreeVnodes(a, b, s)
    ensures var n := ThreeVnodes(a, b, s)[k]; n in {a, b, s} && IsVnode(ThreeHashes(a, b, s), 3, n, k)
  {
    var i := if k == 0 || k == 1 || k == 3 then 0 else if k == 2 || k == 4 || k == 7 then 1 else 2;
    assert ThreeHashes(a, b, s).vnode(ThreeVnodes(a, b, s)[k], i) == k;
  }

  /** Every virtual node of the three servers is on the ring. */
  lemma ThreeAt(a: Uuid, b: Uuid, s: Uuid, n: Uuid, i: nat)
    requires a != b && b != s && a != s && n in {a, b, s} && i < 3
    ensures var k := ThreeHashes(a, b, s).vnode(n, i); k in ThreeVnodes(a, b, s) && ThreeVnodes(a, b, s)[k] == n
  {}

  lemma ThreeVnodesRepresent(a: Uuid, b: Uuid, s: Uuid)
    requires a != b && b != s && a != s
    ensures NoCollisions(ThreeHashes(a, b, s), 3, {a, b, s})
    ensures Represents(ThreeHashes(a, b, s), 3, ThreeVnodes(a, b, s), {a, b, s})
  {
    hide NoCollisions, ThreeHashes, ThreeVnodes;
    var hs, ring := ThreeHashes(a, b, s), ThreeVnodes(a, b, s);
    ThreeHashesDistinct(a, b, s);
    forall k | k in ring ensures ring[k] in {a, b, s} && IsVnode(hs, 3, ring[k], k) {
      ThreeOwner(a, b, s, k);
    }
    forall n, i: nat | n in {a, b, s} && i < 3 ensures hs.vnode(n, i) in ring && ring[hs.vnode(n, i)] == n {
      ThreeAt(a, b, s, n, i);
    }
  }

  /** Three joins, with distinct hashes, build it. */
  lemma ThreeVnodesBuilt(a: Uuid, b: Uuid, s: Uuid)
    requires a != b && b != s && a != s
    ensures NoCollisions(ThreeHashes(a, b, s), 3, {a, b, s})
    ensures ApplyChanges(ThreeHashes(a, b, s), 3, map[], [Joins(a), Joins(b), Joins(s)]) == ThreeVnodes(a, b, s)
  {
    hide ThreeHashes, ThreeVnodes, ApplyChanges, NoCollisions;
    var hs, changes := ThreeHashes(a, b, s), [Joins(a), Joins(b), Joins(s)];
    ThreeVnodesRepresent(a, b, s);
    ThreeJoined(a, b, s);
    assert Represents(hs, 3, map[], {});
    ChangesRepresent(hs, 3, {a, b, s}, map[], {}, changes);
    RepresentsUnique(hs, 3, ApplyChanges(hs, 3, map[], changes), ThreeVnodes(a, b, s), {a, b, s});
  }

  lemma ThreeJoined(a: Uuid, b: Uuid, s: Uuid)
    ensures MembersAfter({}, [Joins(a), Joins(b), Joins(s)]) == {a, b, s}
  {
    var changes := [Joins(a), Joins(b), Joins(s)];
    assert changes[..2] == [Joins(a), Joins(b)] && changes[..2][..1] == [Joins(a)] && [Joins(a)][..0] == [];
    assert MembersAfter({}, [Joins(a)]) == {a};
    assert MembersAfter({}, [Joins(a), Joins(b)]) == {a, b} by {
      assert [Joins(a), Joins(b)][..1] == [Joins(a)];
    }
  }

  lemma NextFrom(ring: Ring, n: Uuid, k: nat, next: Uuid)
    requires k in ring && ring[k] == n && forall l <- ring | l < k :: ring[l] != n
    requires k + 1 in ring && ring[k + 1] == next != n
    ensures NextNode(ring, n) == Some(next)
  {
    assert k in NodePositions(ring, n);
    SmallestFirst(NodePositions(ring, n), k);
    WalkHead(ring, k + 1, k + 1);
    NextIsHead(ring, n, k);
  }

  lemma ThreeVnodesNext(a: Uuid, b: Uuid, s: Uuid)
    requires a != b && b != s && a != s
    ensures var ring := ThreeVnodes(a, b, s);
      NextNode(ring, a) == Some(b) && NextNode(ring, b) == Some(a) && NextNode(ring, s) == Some(b)
  {
    hide NextNode;
    var ring := ThreeVnodes(a, b, s);
    NextFrom(ring, a, 0, b);
    NextFrom(ring, b, 1, a);
    NextFrom(ring, s, 3, b);
  }

  /** With nothing available the search from s never stops: the start is skipped over. */
  lemma ThreeVnodesDiverge(a: Uuid, b: Uuid, s: Uuid, budget: nat)
    requires a != b && b != s && a != s
    ensures Search(NextIn(ThreeVnodes(a, b, s)), _ => false, s, s, budget) == Searching
  {
    hide NextNode, ThreeVnodes;
    ThreeVnodesNext(a, b, s);
    var next := NextIn(ThreeVnodes(a, b, s));
    assert next(a) == Some(b) && next(b) == Some(a) && next(s) == Some(b);
    var none := (n: Uuid) => false;
    assert Trap(next, none, s, {a, b});
    TrappedForever(next, none, s, s, {a, b}, budget);
    SearchExtensional(next, none, _ => false, s, s, budget);
  }

  lemma {:induction false} SearchExtensional(next: Next, up: Uuid -> bool, up': Uuid -> bool,
                                             start: Uuid, current: Uuid, budget: nat)
    requires forall n :: up(n) == up'(n)
    ensures Search(next, up, start, current, budget) == Search(next, up', start, current, budget)
    decreases budget
  {
    if budget > 0 && next(current).Some? {
      SearchExtensional(next, up, up', start, next(current).value, budget - 1);
    }
  }
}

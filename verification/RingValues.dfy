/** The consistent-hash ring as a value: positions on the circle mapped to servers, the
    clockwise walk from a position, and the preference list it yields. */
module RingValues {
  import opened Basics

  type Ring = map<nat, Uuid>

  // ---------- ascending order of positions ----------

  lemma MaxExists(s: set<nat>) returns (m: nat)
    requires s != {}
    ensures m in s && forall x <- s :: x <= m
    decreases |s|
  {
    m :| m in s;
    if s == {m} {
    } else {
      var r := MaxExists(s - {m});
      assert forall x <- s :: x == m || x in s - {m};
      if m < r { m := r; }
    }
  }

  function MaxOf(s: set<nat>): (m: nat)
    requires s != {}
    ensures m in s && forall x <- s :: x <= m
  {
    assert exists m :: m in s && forall x <- s :: x <= m by { var m := MaxExists(s); }
    var m :| m in s && forall x <- s :: x <= m;
    m
  }

  /** The iteration order of the ordered map. */
  function Sorted(s: set<nat>): (ks: seq<nat>)
    ensures forall k :: k in ks <==> k in s
    ensures |ks| == |s|
    decreases |s|
  {
    if s == {} then [] else Sorted(s - {MaxOf(s)}) + [MaxOf(s)]
  }

  lemma {:induction false} SortedAscends(s: set<nat>)
    ensures forall i, j | 0 <= i < j < |Sorted(s)| :: Sorted(s)[i] < Sorted(s)[j]
    decreases |s|
  {
    if s != {} {
      SortedAscends(s - {MaxOf(s)});
      forall i | 0 <= i < |s| - 1 ensures Sorted(s)[i] < MaxOf(s) {
        assert Sorted(s)[i] in Sorted(s - {MaxOf(s)});
      }
    }
  }

  lemma MaxUnique(s: set<nat>, m: nat)
    requires m in s && forall x <- s :: x <= m
    ensures MaxOf(s) == m
  {}

  function From(s: set<nat>, h: nat): set<nat> {
    set k | k in s && k >= h
  }

  function Below(s: set<nat>, h: nat): set<nat> {
    set k | k in s && k < h
  }

  lemma SortedSnoc(s: set<nat>, m: nat)
    requires m in s && forall x <- s :: x <= m
    ensures Sorted(s) == Sorted(s - {m}) + [m]
  {
    hide MaxOf;
    MaxUnique(s, m);
  }

  lemma {:induction false} SortedSplits(s: set<nat>, h: nat)
    ensures Sorted(s) == Sorted(Below(s, h)) + Sorted(From(s, h))
    decreases |s|
  {
    hide Sorted, MaxOf;
    if s == {} {
      assert Below(s, h) == s && From(s, h) == s;
      assert Sorted(s) == [];
    } else {
      var m := MaxOf(s);
      SortedSplits(s - {m}, h);
      SortedSnoc(s, m);
      if m >= h {
        assert Below(s - {m}, h) == Below(s, h);
        assert From(s - {m}, h) == From(s, h) - {m};
        SortedSnoc(From(s, h), m);
      } else {
        assert From(s, h) == {} && Below(s, h) == s;
        assert Sorted(From(s, h)) == [];
      }
    }
  }

  // ---------- sequences of servers ----------

  /** The first occurrence of each element, in order. */
  function Dedup(s: seq<Uuid>): seq<Uuid> {
    if s == [] then [] else
      var front, last := Dedup(s[..|s| - 1]), s[|s| - 1];
      if last in front then front else front + [last]
  }

  function Without(s: seq<Uuid>, gone: set<Uuid>): seq<Uuid> {
    if s == [] then [] else
      var front, last := Without(s[..|s| - 1], gone), s[|s| - 1];
      if last in gone then front else front + [last]
  }

  function First(s: seq<Uuid>, k: nat): seq<Uuid> {
    s[..Min(k, |s|)]
  }

  ghost predicate NoDuplicates(s: seq<Uuid>) {
    forall i, j | 0 <= i < j < |s| :: s[i] != s[j]
  }

  function Elements(s: seq<Uuid>): set<Uuid> {
    set x | x in s
  }

  lemma {:induction false} DedupElements(s: seq<Uuid>)
    ensures forall x :: x in Dedup(s) <==> x in s
    ensures NoDuplicates(Dedup(s))
  {
    if s != [] {
      var front := s[..|s| - 1];
      DedupElements(front);
      assert s == front + [s[|s| - 1]];
    }
  }

  lemma {:induction false} CountElements(s: seq<Uuid>)
    requires NoDuplicates(s)
    ensures |Elements(s)| == |s|
  {
    if s != [] {
      var front, last := s[..|s| - 1], s[|s| - 1];
      CountElements(front);
      assert last !in front;
      assert Elements(s) == Elements(front) + {last};
    }
  }

  lemma {:induction false} DedupAppend(s: seq<Uuid>, t: seq<Uuid>)
    ensures Dedup(s) <= Dedup(s + t)
    ensures (forall x <- t :: x in s) ==> Dedup(s + t) == Dedup(s)
    decreases |t|
  {
    if t == [] {
      assert s + t == s;
    } else {
      var front := t[..|t| - 1];
      assert (s + t)[..|s + t| - 1] == s + front;
      DedupAppend(s, front);
      DedupElements(s + front);
      assert forall x <- front :: x in t;
    }
  }

  lemma {:induction false} WithoutAppend(s: seq<Uuid>, t: seq<Uuid>, gone: set<Uuid>)
    ensures Without(s + t, gone) == Without(s, gone) + Without(t, gone)
    decreases |t|
  {
    if t == [] {
      assert s + t == s;
    } else {
      assert (s + t)[..|s + t| - 1] == s + t[..|t| - 1];
      WithoutAppend(s, t[..|t| - 1], gone);
    }
  }

  lemma {:induction false} WithoutElements(s: seq<Uuid>, gone: set<Uuid>)
    ensures forall x :: x in Without(s, gone) <==> x in s && x !in gone
    ensures (forall x <- s :: x !in gone) ==> Without(s, gone) == s
    ensures s == [] ==> Without(s, gone) == []
    ensures |Without(s, gone)| <= |s|
  {
    if s != [] {
      var front := s[..|s| - 1];
      WithoutElements(front, gone);
      assert s == front + [s[|s| - 1]];
    }
  }

  lemma WithoutSnoc(s: seq<Uuid>, x: Uuid, gone: set<Uuid>)
    ensures Without(s + [x], gone) == if x in gone then Without(s, gone) else Without(s, gone) + [x]
  {
    assert (s + [x])[..|s|] == s;
  }

  lemma DedupSnoc(s: seq<Uuid>, x: Uuid)
    ensures Dedup(s + [x]) == if x in s then Dedup(s) else Dedup(s) + [x]
  {
    DedupElements(s);
    assert (s + [x])[..|s|] == s;
  }

  lemma WithoutMember(s: seq<Uuid>, gone: set<Uuid>, x: Uuid)
    ensures x in Without(s, gone) <==> x in s && x !in gone
  {
    WithoutElements(s, gone);
  }

  lemma DedupWithoutSnoc(s: seq<Uuid>, x: Uuid, gone: set<Uuid>)
    requires Dedup(Without(s, gone)) == Without(Dedup(s), gone)
    ensures Dedup(Without(s + [x], gone)) == Without(Dedup(s + [x]), gone)
  {
    hide Dedup, Without;
    WithoutMember(s, gone, x);
    DedupSnoc(s, x);
    WithoutSnoc(s, x, gone);
    WithoutSnoc(Dedup(s), x, gone);
    DedupSnoc(Without(s, gone), x);
  }

  /** De-duplicating a walk and dropping servers from it commute. */
  lemma {:induction false} DedupWithout(s: seq<Uuid>, gone: set<Uuid>)
    ensures Dedup(Without(s, gone)) == Without(Dedup(s), gone)
  {
    if s != [] {
      var front, last := s[..|s| - 1], s[|s| - 1];
      assert s == front + [last];
      DedupWithout(front, gone);
      DedupWithoutSnoc(front, last, gone);
    }
  }

  /** Dropping one server from a duplicate-free list loses at most one place. */
  lemma {:induction false} WithoutOneLength(s: seq<Uuid>, n: Uuid)
    requires NoDuplicates(s)
    ensures |Without(s, {n})| == |s| - (if n in s then 1 else 0)
  {
    if s != [] {
      var front := s[..|s| - 1];
      WithoutOneLength(front, n);
      assert s == front + [s[|s| - 1]];
      if s[|s| - 1] == n {
        assert n !in front;
      }
    }
  }

  // ---------- the clockwise walk ----------

  function Ids(ring: Ring, ks: seq<nat>): (ids: seq<Uuid>)
    requires forall k <- ks :: k in ring
    ensures |ids| == |ks| && forall i | 0 <= i < |ks| :: ids[i] == ring[ks[i]]
  {
    if ks == [] then [] else Ids(ring, ks[..|ks| - 1]) + [ring[ks[|ks| - 1]]]
  }

  lemma {:induction false} IdsAppend(ring: Ring, ks: seq<nat>, ls: seq<nat>)
    requires forall k <- ks + ls :: k in ring
    ensures (forall k <- ks :: k in ring) && (forall k <- ls :: k in ring)
    ensures Ids(ring, ks + ls) == Ids(ring, ks) + Ids(ring, ls)
  {
    assert forall k <- ks :: k in ks + ls;
    assert forall k <- ls :: k in ks + ls;
  }

  /** What the program iterates over: the positions at or after h, then the whole ring. */
  function CodeWalk(ring: Ring, h: nat): seq<Uuid> {
    Ids(ring, Sorted(From(ring.Keys, h))) + Ids(ring, Sorted(ring.Keys))
  }

  /** One true clockwise turn starting at h. */
  function Rotation(ring: Ring, h: nat): seq<Uuid> {
    Ids(ring, Sorted(From(ring.Keys, h))) + Ids(ring, Sorted(Below(ring.Keys, h)))
  }

  /** The preference list of position h: the first `replicas` distinct servers clockwise
      (the program always takes at least one). */
  function Preference(ring: Ring, h: nat, replicas: nat): seq<Uuid> {
    First(Dedup(Rotation(ring, h)), Max(replicas, 1))
  }

  lemma WalkIsRotation(ring: Ring, h: nat)
    ensures Dedup(CodeWalk(ring, h)) == Dedup(Rotation(ring, h))
  {
    var from, below := Sorted(From(ring.Keys, h)), Sorted(Below(ring.Keys, h));
    SortedSplits(ring.Keys, h);
    IdsAppend(ring, below, from);
    TurnAndAgain(Ids(ring, from), Ids(ring, below));
  }

  lemma TurnAndAgain(from: seq<Uuid>, below: seq<Uuid>)
    ensures Dedup(from + (below + from)) == Dedup(from + below)
  {
    assert from + (below + from) == (from + below) + from;
    assert forall x <- from :: x in from + below;
    DedupAppend(from + below, from);
  }

  lemma {:induction false} IdsElements(ring: Ring, ks: seq<nat>, n: Uuid)
    requires forall k <- ks :: k in ring
    ensures n in Ids(ring, ks) <==> exists k <- ks :: ring[k] == n
  {
    var ids := Ids(ring, ks);
    if n in ids {
      var i :| 0 <= i < |ids| && ids[i] == n;
      assert ks[i] in ks && ring[ks[i]] == n;
    }
    if k :| k in ks && ring[k] == n {
      var i :| 0 <= i < |ks| && ks[i] == k;
      assert ids[i] == n;
    }
  }

  lemma RotationServers(ring: Ring, h: nat)
    ensures forall n :: n in Rotation(ring, h) <==> n in ring.Values
  {
    var from, below := Sorted(From(ring.Keys, h)), Sorted(Below(ring.Keys, h));
    forall n ensures n in Rotation(ring, h) <==> n in ring.Values {
      IdsElements(ring, from, n);
      IdsElements(ring, below, n);
      if n in ring.Values {
        var k: nat :| k in ring && ring[k] == n;
        assert k in (if k >= h then from else below);
      }
    }
  }

  /** The preference list is duplicate-free, drawn from the ring, and as long as the ring
      allows. */
  lemma PreferenceShape(ring: Ring, h: nat, replicas: nat)
    ensures NoDuplicates(Preference(ring, h, replicas))
    ensures |Preference(ring, h, replicas)| == Min(Max(replicas, 1), |ring.Values|)
    ensures forall n <- Preference(ring, h, replicas) :: n in ring.Values
  {
    hide Sorted, MaxOf, Dedup, Rotation;
    var turn := Dedup(Rotation(ring, h));
    RotationServers(ring, h);
    DedupElements(Rotation(ring, h));
    CountElements(turn);
    assert Elements(turn) == ring.Values;
  }

  // ---------- the clockwise order, from the positions alone ----------

  /** Going clockwise from h, position k is met no later than position l. */
  ghost predicate Meets(h: nat, k: nat, l: nat) {
    if k >= h then l >= h ==> k <= l else l < h && k <= l
  }

  /** n owns the first position clockwise from h whose owner is not among the others. */
  ghost predicate FirstMet(ring: Ring, h: nat, others: seq<Uuid>, n: Uuid) {
    exists k <- ring :: ring[k] == n && n !in others && forall l <- ring | ring[l] !in others :: Meets(h, k, l)
  }

  /** The list is what a clockwise turn from h yields: each member is the first owner met that is not
      earlier on the list, and the list is as long as `count` (at least one) and the ring
      allow. */
  ghost predicate Clockwise(ring: Ring, h: nat, count: nat, list: seq<Uuid>) {
    && |list| == Min(Max(count, 1), |ring.Values|)
    && forall i | 0 <= i < |list| :: FirstMet(ring, h, list[..i], list[i])
  }

  lemma {:induction false} DedupFirst(s: seq<Uuid>, i: nat) returns (j: nat)
    requires i < |Dedup(s)|
    ensures j < |s| && s[j] == Dedup(s)[i] && s[j] !in Dedup(s)[..i]
    ensures forall l | 0 <= l < j :: s[l] in Dedup(s)[..i]
  {
    var front := s[..|s| - 1];
    assert s == front + [s[|s| - 1]];
    DedupElements(front);
    if i < |Dedup(front)| {
      j := DedupFirst(front, i);
      assert Dedup(s)[..i] == Dedup(front)[..i];
    } else {
      j := |s| - 1;
      assert Dedup(s)[..i] == Dedup(front);
      assert forall l | 0 <= l < j :: s[l] == front[l];
    }
  }

  /** The positions of one turn, in the order they are met. */
  lemma TurnOrder(ks: set<nat>, h: nat, i: nat, j: nat)
    requires var turn := Sorted(From(ks, h)) + Sorted(Below(ks, h)); i <= j < |turn|
    ensures var turn := Sorted(From(ks, h)) + Sorted(Below(ks, h)); Meets(h, turn[i], turn[j])
  {
    hide Sorted;
    var from, below := Sorted(From(ks, h)), Sorted(Below(ks, h));
    SortedAscends(From(ks, h));
    SortedAscends(Below(ks, h));
    var turn := from + below;
    assert turn[i] in (if i < |from| then from else below) && turn[j] in (if j < |from| then from else below);
  }

  lemma RotationIds(ring: Ring, h: nat)
    ensures forall k <- Sorted(From(ring.Keys, h)) + Sorted(Below(ring.Keys, h)) :: k in ring
    ensures Rotation(ring, h) == Ids(ring, Sorted(From(ring.Keys, h)) + Sorted(Below(ring.Keys, h)))
    ensures forall k <- ring :: k in Sorted(From(ring.Keys, h)) + Sorted(Below(ring.Keys, h))
  {
    hide Sorted;
    IdsAppend(ring, Sorted(From(ring.Keys, h)), Sorted(Below(ring.Keys, h)));
    forall k | k in ring ensures k in Sorted(From(ring.Keys, h)) + Sorted(Below(ring.Keys, h)) {
      assert k in (if k >= h then Sorted(From(ring.Keys, h)) else Sorted(Below(ring.Keys, h)));
    }
  }

  /** The preference list of a position, from the positions of the ring alone. */
  lemma PreferenceClockwise(ring: Ring, h: nat, replicas: nat)
    ensures Clockwise(ring, h, replicas, Preference(ring, h, replicas))
  {
    hide Sorted, Dedup, Rotation, Meets;
    PreferenceShape(ring, h, replicas);
    var pref, ks := Preference(ring, h, replicas), Sorted(From(ring.Keys, h)) + Sorted(Below(ring.Keys, h));
    RotationIds(ring, h);
    forall i | 0 <= i < |pref| ensures FirstMet(ring, h, pref[..i], pref[i]) {
      var j := DedupFirst(Rotation(ring, h), i);
      assert pref[..i] == Dedup(Rotation(ring, h))[..i];
      forall l | l in ring && ring[l] !in pref[..i] ensures Meets(h, ks[j], l) {
        var m :| 0 <= m < |ks| && ks[m] == l;
        assert Rotation(ring, h)[m] == ring[l];
        TurnOrder(ring.Keys, h, j, m);
      }
      assert ks[j] in ks && ring[ks[j]] == pref[i];
    }
  }

  /** The list lacks exactly the first owner met: with it, it is what the turn yields. */
  ghost predicate RestClockwise(ring: Ring, h: nat, count: nat, rest: seq<Uuid>) {
    if ring == map[] then rest == []
    else forall c: Uuid | FirstMet(ring, h, [], c) :: Clockwise(ring, h, count, [c] + rest)
  }

  lemma TailIsRest(ring: Ring, h: nat, replicas: nat)
    ensures var pref := Preference(ring, h, replicas);
      && (pref == [] <==> ring == map[])
      && (pref != [] ==> FirstMet(ring, h, [], pref[0]))
      && RestClockwise(ring, h, replicas, if pref == [] then [] else pref[1..])
  {
    hide Preference, FirstMet;
    PreferenceShape(ring, h, replicas);
    PreferenceClockwise(ring, h, replicas);
    var pref := Preference(ring, h, replicas);
    if k: nat :| k in ring { assert ring[k] in ring.Values; }
    if pref != [] {
      assert pref == [pref[0]] + pref[1..] && pref[..0] == [];
      assert FirstMet(ring, h, pref[..0], pref[0]);
      forall c: Uuid | FirstMet(ring, h, [], c) ensures c == pref[0] { FirstMetUnique(ring, h, [], c, pref[0]); }
    }
  }

  /** There is only one such list. */
  lemma {:induction false} ClockwiseUnique(ring: Ring, h: nat, count: nat, x: seq<Uuid>, y: seq<Uuid>, i: nat)
    requires Clockwise(ring, h, count, x) && Clockwise(ring, h, count, y) && i <= |x|
    ensures x[..i] == y[..i]
  {
    hide FirstMet;
    if i > 0 {
      ClockwiseUnique(ring, h, count, x, y, i - 1);
      assert FirstMet(ring, h, x[..i - 1], x[i - 1]) && FirstMet(ring, h, y[..i - 1], y[i - 1]);
      FirstMetUnique(ring, h, x[..i - 1], x[i - 1], y[i - 1]);
      assert x[..i] == x[..i - 1] + [x[i - 1]] && y[..i] == y[..i - 1] + [y[i - 1]];
    }
  }

  lemma FirstMetUnique(ring: Ring, h: nat, others: seq<Uuid>, m: Uuid, n: Uuid)
    requires FirstMet(ring, h, others, m) && FirstMet(ring, h, others, n)
    ensures m == n
  {}

  // ---------- removing servers ----------

  function RemoveServers(ring: Ring, gone: set<Uuid>): Ring {
    map k | k in ring && ring[k] !in gone :: ring[k]
  }

  lemma IdsSnoc(ring: Ring, ks: seq<nat>, k: nat)
    requires k in ring && forall l <- ks :: l in ring
    ensures forall l <- ks + [k] :: l in ring
    ensures Ids(ring, ks + [k]) == Ids(ring, ks) + [ring[k]]
  {}

  lemma {:induction false} IdsWithout(ring: Ring, s: set<nat>, gone: set<Uuid>)
    requires s <= ring.Keys
    ensures forall k <- Sorted(s * RemoveServers(ring, gone).Keys) :: k in RemoveServers(ring, gone)
    ensures Ids(RemoveServers(ring, gone), Sorted(s * RemoveServers(ring, gone).Keys))
         == Without(Ids(ring, Sorted(s)), gone)
    decreases |s|
  {
    hide Sorted, MaxOf, Ids, Without;
    var ring' := RemoveServers(ring, gone);
    var kept := s * ring'.Keys;
    if s == {} {
      assert kept == {};
      WithoutElements(Ids(ring, Sorted(s)), gone);
    } else {
      var m := MaxOf(s);
      IdsWithout(ring, s - {m}, gone);
      SortedSnoc(s, m);
      IdsSnoc(ring, Sorted(s - {m}), m);
      WithoutSnoc(Ids(ring, Sorted(s - {m})), ring[m], gone);
      if ring[m] in gone {
        assert (s - {m}) * ring'.Keys == kept;
      } else {
        assert (s - {m}) * ring'.Keys == kept - {m};
        SortedSnoc(kept, m);
        IdsSnoc(ring', Sorted(kept - {m}), m);
      }
    }
  }

  lemma RotationWithout(ring: Ring, h: nat, gone: set<Uuid>)
    ensures Rotation(RemoveServers(ring, gone), h) == Without(Rotation(ring, h), gone)
  {
    var ring' := RemoveServers(ring, gone);
    assert From(ring.Keys, h) * ring'.Keys == From(ring'.Keys, h);
    assert Below(ring.Keys, h) * ring'.Keys == Below(ring'.Keys, h);
    IdsWithout(ring, From(ring.Keys, h), gone);
    IdsWithout(ring, Below(ring.Keys, h), gone);
    WithoutAppend(Ids(ring, Sorted(From(ring.Keys, h))), Ids(ring, Sorted(Below(ring.Keys, h))), gone);
  }

  /** The server that a removal may append to a preference list: the next one clockwise. */
  function Successor(ring: Ring, h: nat, replicas: nat): seq<Uuid> {
    var turn := Dedup(Rotation(ring, h));
    if Max(replicas, 1) < |turn| then [turn[Max(replicas, 1)]] else []
  }

  /** Removing a server leaves every list it was not in unchanged; from a list it was in, it
      is deleted, the others keep their order, and the next server clockwise, if there is
      one, is appended. */
  lemma MinimalDisruption(ring: Ring, h: nat, replicas: nat, n: Uuid)
    ensures var before, after := Preference(ring, h, replicas),
                                 Preference(RemoveServers(ring, {n}), h, replicas);
      after == if n in before then Without(before, {n}) + Successor(ring, h, replicas) else before
  {
    hide Sorted, MaxOf, Dedup, Rotation, Without;
    RotationWithout(ring, h, {n});
    DedupWithout(Rotation(ring, h), {n});
    DedupElements(Rotation(ring, h));
    FirstWithout(Dedup(Rotation(ring, h)), Max(replicas, 1), n);
  }

  lemma FirstOfConcat(s: seq<Uuid>, t: seq<Uuid>, k: nat)
    ensures |s| == k ==> First(s + t, k) == s
    ensures |s| + 1 == k && t != [] ==> First(s + t, k) == s + [t[0]]
  {}

  lemma WithoutSplit(turn: seq<Uuid>, k: nat, n: Uuid)
    requires NoDuplicates(turn) && k <= |turn|
    ensures n in turn[..k] ==> Without(turn, {n}) == Without(turn[..k], {n}) + turn[k..]
    ensures n !in turn[..k] ==> Without(turn, {n}) == turn[..k] + Without(turn[k..], {n})
  {
    assert turn == turn[..k] + turn[k..];
    WithoutAppend(turn[..k], turn[k..], {n});
    if n in turn[..k] {
      assert forall x <- turn[k..] :: x != n;
      WithoutElements(turn[k..], {n});
    } else {
      WithoutElements(turn[..k], {n});
    }
  }

  lemma FirstWithout(turn: seq<Uuid>, k: nat, n: Uuid)
    requires NoDuplicates(turn)
    ensures First(Without(turn, {n}), k) ==
      if n in First(turn, k)
      then Without(First(turn, k), {n}) + (if k < |turn| then [turn[k]] else [])
      else First(turn, k)
  {
    hide Without;
    if k >= |turn| {
      assert First(turn, k) == turn;
      WithoutOneLength(turn, n);
      WithoutElements(turn, {n});
    } else {
      var before, rest := turn[..k], turn[k..];
      WithoutSplit(turn, k, n);
      WithoutOneLength(before, n);
      if n in before {
        FirstOfConcat(Without(before, {n}), rest, k);
      } else {
        FirstOfConcat(before, Without(rest, {n}), k);
      }
    }
  }

  /** Adding a server is the converse of removing it. */
  lemma MinimalDisruptionOfAdding(ring: Ring, bigger: Ring, h: nat, replicas: nat, n: Uuid)
    requires RemoveServers(bigger, {n}) == ring
    ensures var before, after := Preference(ring, h, replicas), Preference(bigger, h, replicas);
      && (n !in after ==> after == before)
      && (n in after ==> Without(after, {n}) <= before && |before| <= |after|)
  {
    MinimalDisruption(bigger, h, replicas, n);
    PreferenceShape(bigger, h, replicas);
    WithoutOneLength(Preference(bigger, h, replicas), n);
  }

  lemma {:induction false} WithoutHead(s: seq<Uuid>, gone: set<Uuid>, k: nat)
    requires k <= |s| && exists x <- s[..k] :: x !in gone
    ensures Without(s, gone) != [] && Without(s, gone)[0] in s[..k] && Without(s, gone)[0] !in gone
  {
    assert s == s[..k] + s[k..];
    WithoutAppend(s[..k], s[k..], gone);
    WithoutElements(s[..k], gone);
    var x :| x in s[..k] && x !in gone;
    assert x in Without(s[..k], gone);
  }

  /** After any removals that spare a member of the preference list, the new coordinator is
      a spared member of that list. */
  lemma SurvivingCoordinator(ring: Ring, h: nat, replicas: nat, gone: set<Uuid>)
    requires exists n <- Preference(ring, h, replicas) :: n !in gone
    ensures var after := Preference(RemoveServers(ring, gone), h, replicas);
      after != [] && after[0] in Preference(ring, h, replicas) && after[0] !in gone
  {
    hide Sorted, MaxOf, Dedup, Rotation, Without;
    RotationWithout(ring, h, gone);
    DedupWithout(Rotation(ring, h), gone);
    WithoutHead(Dedup(Rotation(ring, h)), gone, |Preference(ring, h, replicas)|);
  }

  lemma WithoutPrefix(s: seq<Uuid>, gone: set<Uuid>, k: nat, n: Uuid)
    requires n in First(s, k) && n !in gone
    ensures n in First(Without(s, gone), k)
  {
    var head, tail := First(s, k), s[Min(k, |s|)..];
    assert s == head + tail;
    WithoutAppend(head, tail, gone);
    WithoutElements(head, gone);
    assert Without(head, gone) <= First(Without(s, gone), k);
  }

  /** A server that is spared by removals stays on every list it was on. */
  lemma SparedStay(ring: Ring, h: nat, replicas: nat, gone: set<Uuid>, n: Uuid)
    requires n in Preference(ring, h, replicas) && n !in gone
    ensures n in Preference(RemoveServers(ring, gone), h, replicas)
  {
    hide Sorted, MaxOf, Dedup, Rotation, Without;
    RotationWithout(ring, h, gone);
    DedupWithout(Rotation(ring, h), gone);
    WithoutPrefix(Dedup(Rotation(ring, h)), gone, Max(replicas, 1), n);
  }
}

/** Which servers a ring holds.  MD5 is an uninterpreted function here; that the virtual
    nodes of the servers in play do not collide is a hypothesis. */
module RingMembership {
  import opened Basics
  import opened RingValues

  /** The hash of the i-th virtual node of a server, and of a list id. */
  datatype Hashes = Hashes(vnode: (Uuid, nat) -> nat, list: Uuid -> nat)

  ghost predicate NoCollisions(hs: Hashes, vnodes: nat, servers: set<Uuid>) {
    forall s, t, i: nat, j: nat | s in servers && t in servers && i < vnodes && j < vnodes ::
      hs.vnode(s, i) == hs.vnode(t, j) ==> s == t && i == j
  }

  /** `add_node`: one insertion per virtual node. */
  function AddNode(hs: Hashes, ring: Ring, n: Uuid, vnodes: nat): Ring {
    if vnodes == 0 then ring
    else AddNode(hs, ring, n, vnodes - 1)[hs.vnode(n, vnodes - 1) := n]
  }

  /** `remove_node`: one removal per virtual node, whoever owns the position. */
  function RemoveNode(hs: Hashes, ring: Ring, n: Uuid, vnodes: nat): Ring {
    if vnodes == 0 then ring
    else RemoveNode(hs, ring, n, vnodes - 1) - {hs.vnode(n, vnodes - 1)}
  }

  /** Every virtual node of every server in the set is in the ring, and nothing else. */
  ghost predicate Represents(hs: Hashes, vnodes: nat, ring: Ring, servers: set<Uuid>) {
    && (forall k <- ring :: ring[k] in servers && IsVnode(hs, vnodes, ring[k], k))
    && (forall s, i: nat | s in servers && i < vnodes ::
          hs.vnode(s, i) in ring && ring[hs.vnode(s, i)] == s)
  }

  ghost predicate IsVnode(hs: Hashes, vnodes: nat, n: Uuid, k: nat) {
    exists i: nat | i < vnodes :: hs.vnode(n, i) == k
  }

  // ---------- effect of one change ----------

  lemma {:induction false} AddNodeAt(hs: Hashes, ring: Ring, n: Uuid, vnodes: nat)
    ensures forall k: nat :: k in AddNode(hs, ring, n, vnodes) <==> k in ring || IsVnode(hs, vnodes, n, k)
    ensures forall k <- AddNode(hs, ring, n, vnodes) ::
      AddNode(hs, ring, n, vnodes)[k] == if IsVnode(hs, vnodes, n, k) then n else ring[k]
  {
    if vnodes > 0 {
      AddNodeAt(hs, ring, n, vnodes - 1);
      forall k: nat
        ensures IsVnode(hs, vnodes, n, k) <==> IsVnode(hs, vnodes - 1, n, k) || k == hs.vnode(n, vnodes - 1)
      {
        VnodeStep(hs, vnodes, n, k);
      }
    }
  }

  lemma VnodeStep(hs: Hashes, vnodes: nat, n: Uuid, k: nat)
    requires vnodes > 0
    ensures IsVnode(hs, vnodes, n, k) <==> IsVnode(hs, vnodes - 1, n, k) || k == hs.vnode(n, vnodes - 1)
  {
    if IsVnode(hs, vnodes, n, k) {
      var i: nat :| i < vnodes && hs.vnode(n, i) == k;
      assert i < vnodes - 1 ==> IsVnode(hs, vnodes - 1, n, k);
    }
  }

  lemma {:induction false} RemoveNodeAt(hs: Hashes, ring: Ring, n: Uuid, vnodes: nat)
    ensures forall k: nat :: k in RemoveNode(hs, ring, n, vnodes) <==> k in ring && !IsVnode(hs, vnodes, n, k)
    ensures forall k <- RemoveNode(hs, ring, n, vnodes) :: RemoveNode(hs, ring, n, vnodes)[k] == ring[k]
  {
    if vnodes > 0 {
      RemoveNodeAt(hs, ring, n, vnodes - 1);
      forall k: nat
        ensures IsVnode(hs, vnodes, n, k) <==> IsVnode(hs, vnodes - 1, n, k) || k == hs.vnode(n, vnodes - 1)
      {
        VnodeStep(hs, vnodes, n, k);
      }
    }
  }

  lemma VnodeOwner(hs: Hashes, vnodes: nat, servers: set<Uuid>, s: Uuid, n: Uuid, k: nat)
    requires NoCollisions(hs, vnodes, servers) && s in servers && n in servers
    requires IsVnode(hs, vnodes, s, k) && IsVnode(hs, vnodes, n, k)
    ensures s == n
  {
    var i: nat :| i < vnodes && hs.vnode(s, i) == k;
    var j: nat :| j < vnodes && hs.vnode(n, j) == k;
  }

  lemma AddRepresents(hs: Hashes, vnodes: nat, ring: Ring, servers: set<Uuid>, n: Uuid)
    requires NoCollisions(hs, vnodes, servers + {n}) && Represents(hs, vnodes, ring, servers)
    ensures Represents(hs, vnodes, AddNode(hs, ring, n, vnodes), servers + {n})
  {
    var ring' := AddNode(hs, ring, n, vnodes);
    AddNodeAt(hs, ring, n, vnodes);
    forall s, i: nat | s in servers + {n} && i < vnodes
      ensures hs.vnode(s, i) in ring' && ring'[hs.vnode(s, i)] == s
    {
      var k := hs.vnode(s, i);
      assert IsVnode(hs, vnodes, s, k);
      if IsVnode(hs, vnodes, n, k) {
        VnodeOwner(hs, vnodes, servers + {n}, s, n, k);
      }
    }
  }

  lemma RemoveRepresents(hs: Hashes, vnodes: nat, ring: Ring, servers: set<Uuid>, n: Uuid)
    requires NoCollisions(hs, vnodes, servers + {n}) && Represents(hs, vnodes, ring, servers)
    ensures Represents(hs, vnodes, RemoveNode(hs, ring, n, vnodes), servers - {n})
    ensures RemoveNode(hs, ring, n, vnodes) == RemoveServers(ring, {n})
  {
    var ring' := RemoveNode(hs, ring, n, vnodes);
    RemoveNodeAt(hs, ring, n, vnodes);
    forall k: nat ensures k in ring' <==> k in ring && ring[k] != n {
      if k in ring && IsVnode(hs, vnodes, n, k) {
        VnodeOwner(hs, vnodes, servers + {n}, ring[k], n, k);
      }
    }
    forall s, i: nat | s in servers - {n} && i < vnodes
      ensures hs.vnode(s, i) in ring' && ring'[hs.vnode(s, i)] == s
    {
      assert hs.vnode(s, i) in ring && ring[hs.vnode(s, i)] == s;
    }
  }

  /** Removing a set of servers, as a value. */
  lemma RemoveServersRepresents(hs: Hashes, vnodes: nat, ring: Ring, servers: set<Uuid>, gone: set<Uuid>)
    requires Represents(hs, vnodes, ring, servers)
    ensures Represents(hs, vnodes, RemoveServers(ring, gone), servers - gone)
  {}

  // ---------- a ring is determined by its servers ----------

  lemma RepresentsUnique(hs: Hashes, vnodes: nat, r1: Ring, r2: Ring, servers: set<Uuid>)
    requires Represents(hs, vnodes, r1, servers) && Represents(hs, vnodes, r2, servers)
    ensures r1 == r2
  {
    RepresentsBelow(hs, vnodes, r1, r2, servers);
    RepresentsBelow(hs, vnodes, r2, r1, servers);
  }

  lemma RepresentsBelow(hs: Hashes, vnodes: nat, r1: Ring, r2: Ring, servers: set<Uuid>)
    requires Represents(hs, vnodes, r1, servers) && Represents(hs, vnodes, r2, servers)
    ensures forall k <- r1 :: k in r2 && r2[k] == r1[k]
  {
    forall k | k in r1 ensures k in r2 && r2[k] == r1[k] {
      assert IsVnode(hs, vnodes, r1[k], k);
      var i: nat :| i < vnodes && hs.vnode(r1[k], i) == k;
    }
  }

  /** The servers of a ring with at least one virtual node each. */
  lemma RepresentedServers(hs: Hashes, vnodes: nat, ring: Ring, servers: set<Uuid>)
    requires Represents(hs, vnodes, ring, servers) && vnodes > 0
    ensures ring.Values == servers
  {
    forall s | s in servers ensures s in ring.Values {
      assert hs.vnode(s, 0) in ring && ring[hs.vnode(s, 0)] == s;
    }
  }

  // ---------- sequences of joins and leaves ----------

  datatype Change = Joins(node: Uuid) | Leaves(node: Uuid)

  function ApplyChanges(hs: Hashes, vnodes: nat, ring: Ring, changes: seq<Change>): Ring {
    if changes == [] then ring else
      var before := ApplyChanges(hs, vnodes, ring, changes[..|changes| - 1]);
      match changes[|changes| - 1]
      case Joins(n) => AddNode(hs, before, n, vnodes)
      case Leaves(n) => RemoveNode(hs, before, n, vnodes)
  }

  function MembersAfter(servers: set<Uuid>, changes: seq<Change>): set<Uuid> {
    if changes == [] then servers else
      var before := MembersAfter(servers, changes[..|changes| - 1]);
      match changes[|changes| - 1]
      case Joins(n) => before + {n}
      case Leaves(n) => before - {n}
  }

  lemma {:induction false} ChangesRepresent(hs: Hashes, vnodes: nat, universe: set<Uuid>,
                                            ring: Ring, servers: set<Uuid>, changes: seq<Change>)
    requires NoCollisions(hs, vnodes, universe) && Represents(hs, vnodes, ring, servers)
    requires servers <= universe && forall c <- changes :: c.node in universe
    ensures MembersAfter(servers, changes) <= universe
    ensures Represents(hs, vnodes, ApplyChanges(hs, vnodes, ring, changes), MembersAfter(servers, changes))
  {
    if changes != [] {
      var front, last := changes[..|changes| - 1], changes[|changes| - 1];
      assert last in changes;
      ChangesRepresent(hs, vnodes, universe, ring, servers, front);
      var before, members := ApplyChanges(hs, vnodes, ring, front), MembersAfter(servers, front);
      match last {
        case Joins(n) => AddRepresents(hs, vnodes, before, members, n);
        case Leaves(n) => RemoveRepresents(hs, vnodes, before, members, n);
      }
    }
  }

  /** Any two histories of joins and leaves that end with the same servers end with the same
      ring, whatever their order and repetitions. */
  lemma RingDeterminedByServers(hs: Hashes, vnodes: nat, universe: set<Uuid>,
                                r1: Ring, s1: set<Uuid>, c1: seq<Change>,
                                r2: Ring, s2: set<Uuid>, c2: seq<Change>)
    requires NoCollisions(hs, vnodes, universe) && s1 <= universe && s2 <= universe
    requires Represents(hs, vnodes, r1, s1) && Represents(hs, vnodes, r2, s2)
    requires forall c <- c1 + c2 :: c.node in universe
    requires MembersAfter(s1, c1) == MembersAfter(s2, c2)
    ensures ApplyChanges(hs, vnodes, r1, c1) == ApplyChanges(hs, vnodes, r2, c2)
  {
    assert forall c <- c1 :: c in c1 + c2;
    assert forall c <- c2 :: c in c1 + c2;
    ChangesRepresent(hs, vnodes, universe, r1, s1, c1);
    ChangesRepresent(hs, vnodes, universe, r2, s2, c2);
    RepresentsUnique(hs, vnodes, ApplyChanges(hs, vnodes, r1, c1), ApplyChanges(hs, vnodes, r2, c2),
                     MembersAfter(s1, c1));
  }

  /** Adding a fresh server and removing it again is the identity; adding a server that is
      already there changes nothing. */
  lemma AddThenRemove(hs: Hashes, vnodes: nat, ring: Ring, servers: set<Uuid>, n: Uuid)
    requires NoCollisions(hs, vnodes, servers + {n}) && Represents(hs, vnodes, ring, servers)
    ensures n !in servers ==> RemoveNode(hs, AddNode(hs, ring, n, vnodes), n, vnodes) == ring
    ensures n in servers ==> AddNode(hs, ring, n, vnodes) == ring
  {
    AddRepresents(hs, vnodes, ring, servers, n);
    RemoveRepresents(hs, vnodes, AddNode(hs, ring, n, vnodes), servers + {n}, n);
    if n !in servers {
      assert servers + {n} - {n} == servers;
      RepresentsUnique(hs, vnodes, RemoveNode(hs, AddNode(hs, ring, n, vnodes), n, vnodes), ring, servers);
    } else {
      assert servers + {n} == servers;
      RepresentsUnique(hs, vnodes, AddNode(hs, ring, n, vnodes), ring, servers);
    }
  }

  // ---------- minimal disruption by the program's own operations ----------

  /** `remove_node` leaves every preference list the server was not on; on the others it deletes
      the server, keeps the order and appends at most the next server clockwise. */
  lemma RemovalDisruption(hs: Hashes, vnodes: nat, ring: Ring, servers: set<Uuid>, n: Uuid, h: nat, replicas: nat)
    requires NoCollisions(hs, vnodes, servers + {n}) && Represents(hs, vnodes, ring, servers)
    ensures var before, after := Preference(ring, h, replicas),
                                 Preference(RemoveNode(hs, ring, n, vnodes), h, replicas);
      after == if n in before then Without(before, {n}) + Successor(ring, h, replicas) else before
  {
    RemoveRepresents(hs, vnodes, ring, servers, n);
    MinimalDisruption(ring, h, replicas, n);
  }

  /** `add_node` of a new server: the dual. */
  lemma AdditionDisruption(hs: Hashes, vnodes: nat, ring: Ring, servers: set<Uuid>, n: Uuid, h: nat, replicas: nat)
    requires NoCollisions(hs, vnodes, servers + {n}) && Represents(hs, vnodes, ring, servers) && n !in servers
    ensures var before, after := Preference(ring, h, replicas),
                                 Preference(AddNode(hs, ring, n, vnodes), h, replicas);
      && (n !in after ==> after == before)
      && (n in after ==> Without(after, {n}) <= before && |before| <= |after|)
  {
    var bigger := AddNode(hs, ring, n, vnodes);
    AddRepresents(hs, vnodes, ring, servers, n);
    assert servers + {n} + {n} == servers + {n};
    RemoveRepresents(hs, vnodes, bigger, servers + {n}, n);
    AddThenRemove(hs, vnodes, ring, servers, n);
    MinimalDisruptionOfAdding(ring, bigger, h, replicas, n);
  }

  /** Any joins and leaves that end with some of the servers a ring began with amount to removing
      the others. */
  lemma ChangesRemove(hs: Hashes, vnodes: nat, universe: set<Uuid>, ring: Ring, servers: set<Uuid>,
                      changes: seq<Change>)
    requires NoCollisions(hs, vnodes, universe) && Represents(hs, vnodes, ring, servers)
    requires servers <= universe && forall c <- changes :: c.node in universe
    requires MembersAfter(servers, changes) <= servers
    ensures ApplyChanges(hs, vnodes, ring, changes) == RemoveServers(ring, servers - MembersAfter(servers, changes))
  {
    var left := MembersAfter(servers, changes);
    ChangesRepresent(hs, vnodes, universe, ring, servers, changes);
    RemoveServersRepresents(hs, vnodes, ring, servers, servers - left);
    assert servers - (servers - left) == left;
    RepresentsUnique(hs, vnodes, ApplyChanges(hs, vnodes, ring, changes), RemoveServers(ring, servers - left), left);
  }

  /** After any such changes that spare a member of a preference list, the new coordinator is a
      spared member, and every spared member is still on the list. */
  lemma SurvivorsAfterChanges(hs: Hashes, vnodes: nat, universe: set<Uuid>, ring: Ring, servers: set<Uuid>,
                              changes: seq<Change>, h: nat, replicas: nat, n: Uuid)
    requires NoCollisions(hs, vnodes, universe) && Represents(hs, vnodes, ring, servers)
    requires servers <= universe && forall c <- changes :: c.node in universe
    requires MembersAfter(servers, changes) <= servers
    requires n in Preference(ring, h, replicas) && n in MembersAfter(servers, changes)
    ensures var after := Preference(ApplyChanges(hs, vnodes, ring, changes), h, replicas);
      && n in after && after[0] in Preference(ring, h, replicas) && after[0] in MembersAfter(servers, changes)
  {
    hide Preference;
    var left := MembersAfter(servers, changes);
    ChangesRemove(hs, vnodes, universe, ring, servers, changes);
    SurvivingCoordinator(ring, h, replicas, servers - left);
    SparedStay(ring, h, replicas, servers - left, n);
    ChangesRepresent(hs, vnodes, universe, ring, servers, changes);
    PreferenceServers(hs, vnodes, ApplyChanges(hs, vnodes, ring, changes), left, h, replicas);
  }

  lemma PreferenceServers(hs: Hashes, vnodes: nat, ring: Ring, servers: set<Uuid>, h: nat, replicas: nat)
    requires Represents(hs, vnodes, ring, servers)
    ensures forall n <- Preference(ring, h, replicas) :: n in servers
  {
    PreferenceShape(ring, h, replicas);
    forall n | n in Preference(ring, h, replicas) ensures n in servers {
      var k: nat :| k in ring && ring[k] == n;
    }
  }

  /** Without the hypothesis it fails: when two virtual nodes collide, the later server takes
      the position over and its removal deletes it for both. */
  lemma CollisionLosesServer(hs: Hashes)
    requires hs.vnode(1, 0) == hs.vnode(2, 0)
    ensures var ring := AddNode(hs, map[], 1, 1);
      RemoveNode(hs, AddNode(hs, ring, 2, 1), 2, 1) == map[] != ring
  {
    var k := hs.vnode(1, 0);
    assert AddNode(hs, map[], 1, 1) == map[k := 1];
    assert AddNode(hs, map[k := 1], 2, 1) == map[k := 2];
  }

  // ---------- what a proxy and a peer compute ----------

  /** A proxy and a peer that know the same servers choose the same preference list, however
      each learned of them; its head is the coordinator and the rest its replicas. */
  lemma SameServersSameChoice(hs: Hashes, vnodes: nat, universe: set<Uuid>, replicas: nat, list: Uuid,
                              proxy: seq<Change>, peer: seq<Change>)
    requires NoCollisions(hs, vnodes, universe) && vnodes > 0
    requires forall c <- proxy + peer :: c.node in universe
    requires MembersAfter({}, proxy) == MembersAfter({}, peer) != {}
    ensures var p, q := Preference(ApplyChanges(hs, vnodes, map[], proxy), hs.list(list), replicas),
                        Preference(ApplyChanges(hs, vnodes, map[], peer), hs.list(list), replicas);
      && p == q != [] && p == [q[0]] + q[1..] && q[0] !in q[1..]
      && |q| == Min(Max(replicas, 1), |MembersAfter({}, peer)|)
  {
    assert Represents(hs, vnodes, map[], {});
    RingDeterminedByServers(hs, vnodes, universe, map[], {}, proxy, map[], {}, peer);
    assert forall c <- peer :: c in proxy + peer;
    ChangesRepresent(hs, vnodes, universe, map[], {}, peer);
    PreferenceOfServers(hs, vnodes, ApplyChanges(hs, vnodes, map[], peer), MembersAfter({}, peer),
                        hs.list(list), replicas);
  }

  lemma PreferenceOfServers(hs: Hashes, vnodes: nat, ring: Ring, servers: set<Uuid>, h: nat, replicas: nat)
    requires Represents(hs, vnodes, ring, servers) && vnodes > 0 && servers != {}
    ensures var q := Preference(ring, h, replicas);
      q != [] && q == [q[0]] + q[1..] && q[0] !in q[1..] && |q| == Min(Max(replicas, 1), |servers|)
  {
    RepresentedServers(hs, vnodes, ring, servers);
    PreferenceShape(ring, h, replicas);
    NonEmptySize(servers);
    HeadNotInTail(Preference(ring, h, replicas));
  }

  lemma NonEmptySize(servers: set<Uuid>)
    requires servers != {}
    ensures |servers| > 0
  {}

  lemma HeadNotInTail(s: seq<Uuid>)
    requires s != [] && NoDuplicates(s)
    ensures s == [s[0]] + s[1..] && s[0] !in s[1..]
  {}
}

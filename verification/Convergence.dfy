/** What the history invariant means for a user: convergence, unique stamps, single writers and
    conservation of quantities, in every reachable state. */
module Convergence {
  import opened Basics
  import opened CrdtValues
  import opened Quantity
  import opened History
  import opened Conservation
  import opened Protocol
  import opened Cluster
  import opened RequestTracking
  import opened ClusterHistory

  /** The list is stored by a client or a server, held by a waiting request or a handoff pass,
      or in flight. */
  ghost predicate InSystem(w: World, id: Uuid, list: ItemMap) {
    || (exists c <- w.clients :: id in w.clients[c] && w.clients[c][id] == list)
    || (exists s <- w.peers :: InPeer(w.peers[s], id, list))
    || (exists m <- w.net :: CarriesList(w.net[m].msg) && w.net[m].msg.id == id && w.net[m].msg.list == list)
  }

  ghost predicate InPeer(p: PeerState, id: Uuid, list: ItemMap) {
    || (id in p.rows && p.rows[id].list == list)
    || (exists r <- p.reqs :: p.reqs[r].id == id && InRequest(p.reqs[r], list))
    || (exists h <- p.handoffs :: h.id == id && h.list == list)
  }

  ghost predicate InRequest(r: Request, list: ItemMap) {
    r.list == list || (r.kind.Read? && r.kind.row == list) || list in r.q.lists
  }

  lemma InSystemGood(w: World, id: Uuid, list: ItemMap, good: Good)
    requires Everywhere(w, good) && InSystem(w, id, list)
    ensures (id, list) in good
  {
    if s :| s in w.peers && InPeer(w.peers[s], id, list) {
      InPeerGood(w.peers[s], id, list, good);
    } else if m :| m in w.net && CarriesList(w.net[m].msg) && w.net[m].msg.id == id && w.net[m].msg.list == list {
      NetMsgOk(w, m, good);
    }
  }

  lemma InPeerGood(p: PeerState, id: Uuid, list: ItemMap, good: Good)
    requires PeerOk(p, good) && InPeer(p, id, list)
    ensures (id, list) in good
  {
    if r :| r in p.reqs && p.reqs[r].id == id && InRequest(p.reqs[r], list) {
      assert RequestOk(p.reqs[r], good);
      if list in p.reqs[r].q.lists {
        var i :| 0 <= i < |p.reqs[r].q.lists| && p.reqs[r].q.lists[i] == list;
      }
    }
  }

  // ---------- every copy is explained ----------

  /** Every copy of an item in a reachable state is the effect of a prefix-closed set of the
      operations applied to it. */
  lemma CopiesExplained(cfg: Config, steps: seq<Step>, id: Uuid, list: ItemMap, name: string)
    requires InSystem(Exec(cfg, steps), id, list) && name in list
    ensures exists cut: Cut :: Shows(LogOf(Exec(cfg, steps).audit.hist, id, name), cut, list[name])
    ensures WellFormed(LogOf(Exec(cfg, steps).audit.hist, id, name))
  {
    hide Shows, WellFormed, Everywhere, Exec, InSystem;
    var w := Exec(cfg, steps);
    RunHistory(cfg, steps);
    InSystemGood(w, id, list, ExplainedLists(w.audit.hist));
    assert Explainable(LogOf(w.audit.hist, id, name), list[name]);
  }

  /** The register of every copy in a reachable state, hence the flag it shows, is that of the
      included operation with the lexicographically greatest (clock, actor). */
  lemma CopyShowsLatest(cfg: Config, steps: seq<Step>, id: Uuid, list: ItemMap, name: string)
    requires InSystem(Exec(cfg, steps), id, list) && name in list
    ensures var log, r := LogOf(Exec(cfg, steps).audit.hist, id, name), list[name].acquired;
      exists cut: Cut ::
        && Shows(log, cut, list[name])
        && (exists a: Uuid, i: nat :: i < At(cut, a) && i < |Ops(log, a)| && Ops(log, a)[i].reg == Some(r))
        && forall a: Uuid, i: nat | i < At(cut, a) && i < |Ops(log, a)| && Ops(log, a)[i].reg.Some? ::
             var other := Ops(log, a)[i].reg.value;
             other.clock < r.clock || (other.clock == r.clock && other.actor <= r.actor)
  {
    hide Shows, WellFormed, Exec, InSystem;
    CopiesExplained(cfg, steps, id, list, name);
    var log := LogOf(Exec(cfg, steps).audit.hist, id, name);
    var cut: Cut :| Shows(log, cut, list[name]);
    RegisterIsLatest(log, cut, list[name]);
  }

  /** Merging two copies gives the effect of the union of their operations, in either order;
      two copies of the same operations are the same item. */
  lemma Converges(cfg: Config, steps: seq<Step>, id: Uuid, name: string,
                  l1: ItemMap, c1: Cut, l2: ItemMap, c2: Cut)
    requires var w := Exec(cfg, steps);
      InSystem(w, id, l1) && InSystem(w, id, l2) && name in l1 && name in l2
    requires var log := LogOf(Exec(cfg, steps).audit.hist, id, name);
      Shows(log, c1, l1[name]) && Shows(log, c2, l2[name])
    ensures var log := LogOf(Exec(cfg, steps).audit.hist, id, name);
      && Shows(log, JoinCuts(c1, c2), MergeItem(l1[name], l2[name]))
      && MergeItem(l1[name], l2[name]) == MergeItem(l2[name], l1[name])
      && (c1 == c2 ==> l1[name] == l2[name])
  {
    hide Shows, WellFormed, InSystem, Exec, MergeItem;
    var log := LogOf(Exec(cfg, steps).audit.hist, id, name);
    CopiesExplained(cfg, steps, id, l1, name);
    MergeShowsUnion(log, c1, l1[name], c2, l2[name]);
    StampsUnique(log, c1, l1[name], c2, l2[name]);
    MergeItemCommutesIff(l1[name], l2[name]);
    if c1 == c2 {
      EffectUnique(log, c1, l1[name], l2[name]);
    }
  }

  /** Any two lists with the same id agree on every stamp, so merging them is commutative,
      associative and idempotent and gives their least upper bound. */
  lemma ReachableListsCoherent(cfg: Config, steps: seq<Step>, id: Uuid, l1: ItemMap, l2: ItemMap)
    requires InSystem(Exec(cfg, steps), id, l1) && InSystem(Exec(cfg, steps), id, l2)
    ensures Coherent(l1, l2)
    ensures MergeMap(l1, l2) == MergeMap(l2, l1)
    ensures MapLe(l1, MergeMap(l1, l2)) && MapLe(l2, MergeMap(l1, l2))
    ensures forall u | MapLe(l1, u) && MapLe(l2, u) :: MapLe(MergeMap(l1, l2), u)
  {
    hide InSystem, Exec, MergeMap, Everywhere, Explained;
    var w := Exec(cfg, steps);
    RunHistory(cfg, steps);
    InSystemGood(w, id, l1, ExplainedLists(w.audit.hist));
    InSystemGood(w, id, l2, ExplainedLists(w.audit.hist));
    ExplainedCoherent(w.audit.hist, id, l1, l2);
    MergeMapCommutesIff(l1, l2);
    MergeMapAbove(l1, l2);
    forall u | MapLe(l1, u) && MapLe(l2, u) ensures MapLe(MergeMap(l1, l2), u) {
      MergeMapLeast(l1, l2, u);
    }
  }

  lemma ExplainedCoherent(hist: Hist, id: Uuid, x: ItemMap, y: ItemMap)
    requires AllWellFormed(hist) && Explained(hist, id, x) && Explained(hist, id, y)
    ensures Coherent(x, y)
  {
    hide Shows, WellFormed;
    forall name | name in x.Keys * y.Keys ensures Agree(x[name].acquired, y[name].acquired) {
      assert Explainable(LogOf(hist, id, name), x[name]) && Explainable(LogOf(hist, id, name), y[name]);
      var c: Cut :| Shows(LogOf(hist, id, name), c, x[name]);
      var d: Cut :| Shows(LogOf(hist, id, name), d, y[name]);
      StampsUnique(LogOf(hist, id, name), c, x[name], d, y[name]);
    }
  }

  // ---------- single writers ----------

  /** No copy anywhere records more for an actor than the actor's own store does. */
  lemma OwnStoreIsLargest(cfg: Config, steps: seq<Step>, id: Uuid, list: ItemMap, name: string, a: Uuid)
    requires InSystem(Exec(cfg, steps), id, list) && name in list
    requires a in list[name].p || a in list[name].n
    ensures var own := ClientList(Exec(cfg, steps), a, id);
      && name in own
      && (a in list[name].p ==> a in own[name].p && list[name].p[a] <= own[name].p[a])
      && (a in list[name].n ==> a in own[name].n && list[name].n[a] <= own[name].n[a])
  {
    hide Shows, WellFormed, InSystem, Exec, Everywhere;
    var w := Exec(cfg, steps);
    var log := LogOf(w.audit.hist, id, name);
    CopiesExplained(cfg, steps, id, list, name);
    RunHistory(cfg, steps);
    var c: Cut :| Shows(log, c, list[name]);
    assert HoldsOwn(log, a, StoredItem(ClientList(w, a, id), name));
    if name in ClientList(w, a, id) {
      var own := ClientList(w, a, id)[name];
      var d: Cut :| Shows(log, d, own) && At(d, a) == |Ops(log, a)|;
      OwnEntriesLargest(log, c, list[name], d, own, a);
    } else {
      NoOpsNoEntries(log, c, list[name], a);
      assert false;
    }
  }

  lemma NoOpsNoEntries(log: Log, c: Cut, x: Item, a: Uuid)
    requires Shows(log, c, x) && Ops(log, a) == []
    ensures a !in x.p && a !in x.n
  {
    ShowsAt(log, c, x, a);
  }

  // ---------- conservation ----------

  /** The join of the local lists of a set of clients. */
  ghost function JoinStores(w: World, id: Uuid, cs: set<Uuid>): ItemMap
    decreases |cs|
  {
    if cs == {} then map[] else
      var c :| c in cs;
      MergeMap(JoinStores(w, id, cs - {c}), ClientList(w, c, id))
  }

  /** The cut of a join holds everything its clients did. */
  ghost predicate HoldsAllOf(log: Log, cs: set<Uuid>, item: Option<Item>) {
    match item
    case None => forall c <- cs :: Ops(log, c) == []
    case Some(x) => exists cut: Cut :: Shows(log, cut, x) && forall c <- cs :: At(cut, c) == |Ops(log, c)|
  }

  lemma JoinHolds(log: Log, cs: set<Uuid>, joined: Option<Item>, c: Uuid, own: Option<Item>)
    requires WellFormed(log) && HoldsAllOf(log, cs, joined) && HoldsOwn(log, c, own)
    ensures HoldsAllOf(log, cs + {c},
      if joined.None? then own else if own.None? then joined else Some(MergeItem(joined.value, own.value)))
  {
    hide Shows, MergeItem, WellFormed;
    if joined.Some? && own.Some? {
      var cut: Cut :| Shows(log, cut, joined.value) && forall a <- cs :: At(cut, a) == |Ops(log, a)|;
      var d: Cut :| Shows(log, d, own.value) && At(d, c) == |Ops(log, c)|;
      MergeShowsUnion(log, cut, joined.value, d, own.value);
      forall a | a in cs + {c} ensures At(JoinCuts(cut, d), a) == |Ops(log, a)| {
        CutBound(log, cut, joined.value, a);
        CutBound(log, d, own.value, a);
      }
    } else if joined.Some? {
      var cut: Cut :| Shows(log, cut, joined.value) && forall a <- cs :: At(cut, a) == |Ops(log, a)|;
      CutBound(log, cut, joined.value, c);
    } else if own.Some? {
      var d: Cut :| Shows(log, d, own.value) && At(d, c) == |Ops(log, c)|;
      forall a | a in cs ensures At(d, a) == |Ops(log, a)| {
        CutBound(log, d, own.value, a);
      }
    }
  }

  lemma {:induction false} JoinStoresHold(w: World, id: Uuid, name: string, cs: set<Uuid>)
    requires HistoryInv(w)
    ensures HoldsAllOf(LogOf(w.audit.hist, id, name), cs, StoredItem(JoinStores(w, id, cs), name))
    decreases |cs|
  {
    hide HoldsAllOf, HoldsOwn, Everywhere, WellFormed, MergeItem;
    var log := LogOf(w.audit.hist, id, name);
    if cs == {} {
      EmptyJoin(log);
    } else {
      var c :| c in cs && JoinStores(w, id, cs) == MergeMap(JoinStores(w, id, cs - {c}), ClientList(w, c, id));
      JoinStoresHold(w, id, name, cs - {c});
      assert HoldsOwn(log, c, StoredItem(ClientList(w, c, id), name));
      JoinHolds(log, cs - {c}, StoredItem(JoinStores(w, id, cs - {c}), name),
                c, StoredItem(ClientList(w, c, id), name));
      assert cs - {c} + {c} == cs;
      StoredMerge(JoinStores(w, id, cs - {c}), ClientList(w, c, id), name);
    }
  }

  lemma StoredMerge(x: ItemMap, y: ItemMap, name: string)
    ensures StoredItem(MergeMap(x, y), name) ==
      var a, b := StoredItem(x, name), StoredItem(y, name);
      if a.None? then b else if b.None? then a else Some(MergeItem(a.value, b.value))
  {}

  lemma EmptyJoin(log: Log)
    ensures HoldsAllOf(log, {}, None)
  {}

  /** The join of all client stores shows the sum of every delta in the item's history. */
  lemma JoinShowsHistory(w: World, id: Uuid, name: string)
    requires HistoryInv(w)
    ensures var joined := JoinStores(w, id, w.clients.Keys);
      LogTotal(LogOf(w.audit.hist, id, name)) ==
        if name in joined then Sum(joined[name].p) - Sum(joined[name].n) else 0
  {
    hide Everywhere, Shows, Sum, JoinStores, LogTotal, WellFormed;
    var log, joined := LogOf(w.audit.hist, id, name), JoinStores(w, id, w.clients.Keys);
    JoinStoresHold(w, id, name, w.clients.Keys);
    forall a: Uuid | a !in w.clients ensures Ops(log, a) == [] {
      assert HoldsOwn(log, a, StoredItem(ClientList(w, a, id), name));
    }
    if name in joined {
      var cut: Cut :| Shows(log, cut, joined[name]) && forall c <- w.clients.Keys :: At(cut, c) == |Ops(log, c)|;
      forall a | a in log ensures At(cut, a) == |log[a]| {
        CutBound(log, cut, joined[name], a);
      }
      CompleteTotal(log, cut, joined[name]);
    } else {
      forall a | a in log ensures log[a] == [] {
        assert Ops(log, a) == log[a];
      }
      NoOpsTotal(log);
    }
  }

  lemma NoOpsTotal(log: Log)
    requires forall a <- log :: log[a] == []
    ensures LogTotal(log) == 0
  {
    forall a: Uuid ensures Count(RaisedBy(log), a) == Count(map[], a) && Count(LoweredBy(log), a) == Count(map[], a) {}
    SumsEqual(RaisedBy(log), map[]);
    SumsEqual(LoweredBy(log), map[]);
  }

  /** The change of quantity a step applies to an item. */
  ghost function StepDelta(w: World, step: Step, id: Uuid, name: string): int {
    if Enabled(w, step) && step.Edit? && step.id == id && step.name == name
       && EditItem(StoredItem(ClientList(w, step.client, id), name), step.quantity, step.acquired, step.client).Some?
    then Delta(OpOf(StoredItem(ClientList(w, step.client, id), name), step.quantity, step.acquired, step.client))
    else 0
  }

  /** The sum of every change of quantity a run applies to an item, at any client. */
  ghost function RunDelta(cfg: Config, steps: seq<Step>, id: Uuid, name: string): int {
    if steps == [] then 0 else
      RunDelta(cfg, steps[..|steps| - 1], id, name)
      + StepDelta(Exec(cfg, steps[..|steps| - 1]), steps[|steps| - 1], id, name)
  }

  lemma StepTotal(cfg: Config, w: World, step: Step, id: Uuid, name: string)
    requires Enabled(w, step)
    ensures LogTotal(LogOf(Apply(cfg, w, step).audit.hist, id, name))
         == LogTotal(LogOf(w.audit.hist, id, name)) + StepDelta(w, step, id, name)
  {
    hide LogTotal, OpOf, EditItem, ApplyDeliver, ApplyFinish, Append, HintsOf;
    if step.Edit? {
      var Edit(c, i, n, q, acquired, dst) := step;
      var before := StoredItem(ClientList(w, c, i), n);
      if EditItem(before, q, acquired, c).Some? {
        AppendTotal(LogOf(w.audit.hist, i, n), c, OpOf(before, q, acquired, c));
      }
    } else if !step.ClientMerge? {
      StepKeepsClients(cfg, w, step);
    }
  }

  lemma {:induction false} RunTotal(cfg: Config, steps: seq<Step>, id: Uuid, name: string)
    ensures LogTotal(LogOf(Exec(cfg, steps).audit.hist, id, name)) == RunDelta(cfg, steps, id, name)
  {
    hide LogTotal, StepDelta, Apply;
    if steps == [] {
      EmptyTotal();
    } else {
      var w, step := Exec(cfg, steps[..|steps| - 1]), steps[|steps| - 1];
      RunTotal(cfg, steps[..|steps| - 1], id, name);
      if Enabled(w, step) {
        StepTotal(cfg, w, step, id, name);
      } else {
        NoDelta(w, step, id, name);
      }
    }
  }

  lemma NoDelta(w: World, step: Step, id: Uuid, name: string)
    requires !Enabled(w, step)
    ensures StepDelta(w, step, id, name) == 0
  {}

  /** Conservation: whatever was lost, reordered, duplicated or handed off on the way, the
      join of all client stores shows exactly the sum of every delta ever applied. */
  lemma QuantityConserved(cfg: Config, steps: seq<Step>, id: Uuid, name: string)
    ensures var joined := JoinStores(Exec(cfg, steps), id, Exec(cfg, steps).clients.Keys);
      RunDelta(cfg, steps, id, name) == if name in joined then Sum(joined[name].p) - Sum(joined[name].n) else 0
  {
    hide HistoryInv, Exec, RunDelta, LogTotal, JoinStores, Sum;
    RunHistory(cfg, steps);
    JoinShowsHistory(Exec(cfg, steps), id, name);
    RunTotal(cfg, steps, id, name);
  }
}

/** Rows only grow: with the merged-row policy every step except the deletion of a handed-off
    row leaves every row at or above its old value, and a write leaves the row at or above the
    list it brings.  With the literal policy this fails. */
module Growth {
  import opened Basics
  import opened CrdtValues
  import opened Quantity
  import opened History
  import opened RingMembership
  import opened Protocol
  import opened Cluster
  import opened RequestTracking
  import opened ClusterHistory
  import opened Convergence

  ghost predicate RowsBelow(r1: Rows, r2: Rows) {
    forall id <- r1 :: id in r2 && MapLe(r1[id].list, r2[id].list)
  }

  /** The server stores a state of the list at or above the given one. */
  ghost predicate Holds(w: World, s: Uuid, id: Uuid, list: ItemMap) {
    id in PeerOf(w, s).rows && MapLe(list, PeerOf(w, s).rows[id].list)
  }

  ghost predicate RowsGrow(w: World, w': World) {
    forall s: Uuid :: RowsBelow(PeerOf(w, s).rows, PeerOf(w', s).rows)
  }

  lemma RowsBelowReflexive(rows: Rows)
    ensures RowsBelow(rows, rows)
  {
    forall id | id in rows ensures MapLe(rows[id].list, rows[id].list) {
      MapLeReflexive(rows[id].list);
    }
  }

  lemma WriteRowGrows(rows: Rows, id: Uuid, list: ItemMap, hint: Option<Uuid>)
    ensures id in WriteRow(Merged, rows, id, list, hint)
    ensures RowsBelow(rows, WriteRow(Merged, rows, id, list, hint))
    ensures id in rows && Coherent(rows[id].list, list) ==> MapLe(list, WriteRow(Merged, rows, id, list, hint)[id].list)
    ensures id !in rows ==> MapLe(list, WriteRow(Merged, rows, id, list, hint)[id].list)
  {
    hide MapLe, MergeMap, Coherent;
    RowsBelowReflexive(rows);
    MapLeReflexive(list);
    if id in rows {
      MergeMapAbove(rows[id].list, list);
    }
  }

  // ---------- the literal policy ----------

  /** With the literal policy a write replaces the row: on coherent lists, such as all
      reachable ones, it grows exactly when merging the stored list into the incoming one
      would change nothing. */
  lemma LiteralWriteGrowsIff(rows: Rows, id: Uuid, list: ItemMap, hint: Option<Uuid>)
    requires id in rows ==> Coherent(list, rows[id].list)
    ensures RowsBelow(rows, WriteRow(Literal, rows, id, list, hint)) <==>
      (id in rows ==> MergeMap(list, rows[id].list) == list)
  {
    hide MapLe, MergeMap, Coherent;
    var rows' := WriteRow(Literal, rows, id, list, hint);
    forall i | i in rows && i != id ensures MapLe(rows[i].list, rows'[i].list) {
      MapLeReflexive(rows[i].list);
    }
    if id in rows {
      MergeMapAbove(list, rows[id].list);
      if MapLe(rows[id].list, list) {
        MergeMapAbsorbs(list, rows[id].list);
      }
    }
  }

  /** Two clients' lists written one after the other: the literal policy keeps only the second,
      the merged policy keeps both. */
  lemma LiteralLosesUpdates(hs: Hashes, server: Uuid, coordinator: Uuid, id: Uuid, x: Item, y: Item)
    ensures var first := Envelope(coordinator, server, 1, 0, ReplicateList(id, map["milk" := x], true));
      var second := Envelope(coordinator, server, 2, 0, ReplicateList(id, map["eggs" := y], true));
      var run := (policy: Policy) =>
        Handle(Config(policy, hs), server,
               Handle(Config(policy, hs), server, NO_PEER, first, [], 0).peer, second, [], 0).peer;
      && run(Literal).rows[id].list == map["eggs" := y]
      && run(Merged).rows[id].list == map["milk" := x, "eggs" := y]
      && !RowsBelow(Handle(Config(Literal, hs), server, NO_PEER, first, [], 0).peer.rows, run(Literal).rows)
  {
    assert "milk" != "eggs";
    assert MergeMap(map["milk" := x], map["eggs" := y]) == map["milk" := x, "eggs" := y];
    var rows := WriteRow(Literal, map[], id, map["milk" := x], None);
    assert "milk" in rows[id].list && "milk" !in WriteRow(Literal, rows, id, map["eggs" := y], None)[id].list;
  }

  /** A merge message, alone among the writes, grows the row even as the code is written: its
      handler merges before it writes. */
  lemma MergeListGrows(cfg: Config, me: Uuid, p: PeerState, e: Envelope, attempts: seq<Attempt>, req: nat)
    requires e.msg.MergeList? && (e.msg.id in p.rows ==> Coherent(p.rows[e.msg.id].list, e.msg.list))
    ensures var rows := Handle(cfg, me, p, e, attempts, req).peer.rows;
      RowsBelow(p.rows, rows) && e.msg.id in rows && MapLe(e.msg.list, rows[e.msg.id].list)
  {
    hide MapLe, MergeMap, Coherent;
    RowsBelowReflexive(p.rows);
    MapLeReflexive(e.msg.list);
    if e.msg.id in p.rows {
      var row := p.rows[e.msg.id].list;
      var merged := MergeMap(row, e.msg.list);
      MergeMapAbove(row, e.msg.list);
      MergeMapAssociative(row, row, e.msg.list);
      MergeMapIdempotent(row);
    }
  }

  // ---------- the merged policy: every step ----------

  lemma RowsGrowSetPeer(w: World, w': World, s: Uuid)
    requires forall t: Uuid :: t != s ==> PeerOf(w', t).rows == PeerOf(w, t).rows
    requires RowsBelow(PeerOf(w, s).rows, PeerOf(w', s).rows)
    ensures RowsGrow(w, w')
  {
    hide RowsBelow, PeerOf;
    forall t: Uuid ensures RowsBelow(PeerOf(w, t).rows, PeerOf(w', t).rows) {
      if t != s { RowsBelowReflexive(PeerOf(w, t).rows); }
    }
  }

  lemma HandleGrows(cfg: Config, me: Uuid, p: PeerState, e: Envelope, attempts: seq<Attempt>, req: nat)
    requires cfg.policy.Merged?
    ensures RowsBelow(p.rows, Handle(cfg, me, p, e, attempts, req).peer.rows)
  {
    hide RowsBelow, WriteRow, MergeMap, Replicas, SlotsOf;
    RowsBelowReflexive(p.rows);
    match e.msg {
      case ReplicateList(id, list, true) => WriteRowGrows(p.rows, id, list, None);
      case Handoff(id, list, original) => WriteRowGrows(p.rows, id, list, Some(original));
      case MergeList(id, list) =>
        WriteRowGrows(p.rows, id, if id in p.rows then MergeMap(p.rows[id].list, list) else list, None);
      case _ =>
    }
  }

  lemma FinishGrows(cfg: Config, me: Uuid, p: PeerState, req: nat, ok: bool)
    requires cfg.policy.Merged? && req in p.reqs && p.reqs[req].q.lists != []
    ensures RowsBelow(p.rows, Finish(cfg, me, p, req, ok).peer.rows)
  {
    hide RowsBelow, WriteRow, Answer;
    RowsBelowReflexive(p.rows);
    WriteRowGrows(p.rows, p.reqs[req].id, Answer(p.reqs[req]), None);
  }

  /** The server a step changes, if any. */
  ghost function ActingServer(w: World, step: Step): Option<Uuid>
    requires Enabled(w, step)
  {
    match step
    case Deliver(m, _) => Some(w.net[m].dst)
    case Complete(s, _) => Some(s)
    case GiveUp(s, _) => Some(s)
    case ScanHints(s) => Some(s)
    case SendHint(s, _) => Some(s)
    case DeleteHinted(s, _) => Some(s)
    case JoinRing(s, _) => Some(s)
    case LeaveRing(s, _) => Some(s)
    case _ => None
  }

  lemma OnlyActorChanges(cfg: Config, w: World, step: Step)
    requires Enabled(w, step)
    ensures forall t: Uuid :: ActingServer(w, step) != Some(t) ==> PeerOf(Apply(cfg, w, step), t) == PeerOf(w, t)
  {
    hide Handle, Finish, Batch, HintsOf, AddNode, RemoveNode, EditItem, OpOf, Fetched, RecordStart, RecordDelivery;
  }

  /** With the merged policy, outside the deletion of handed-off rows, every row of every server
      only grows: puts, replicas, merges, handoffs and read repairs, whatever lands between a
      read and its write-back. */
  lemma StepGrows(cfg: Config, w: World, step: Step)
    requires cfg.policy.Merged? && Enabled(w, step) && !step.DeleteHinted?
    ensures RowsGrow(w, Apply(cfg, w, step))
  {
    hide Handle, Finish, Batch, HintsOf, AddNode, RemoveNode, RowsBelow, RowsGrow, EditItem, OpOf,
         RecordStart, RecordDelivery;
    OnlyActorChanges(cfg, w, step);
    var s := if ActingServer(w, step).Some? then ActingServer(w, step).value else 0;
    RowsBelowReflexive(PeerOf(w, s).rows);
    match step {
      case Deliver(m, attempts) => HandleGrows(cfg, s, PeerOf(w, s), w.net[m], attempts, w.nextReq);
      case Complete(_, req) => FinishGrows(cfg, s, PeerOf(w, s), req, true);
      case GiveUp(_, req) => FinishGrows(cfg, s, PeerOf(w, s), req, false);
      case _ =>
    }
    RowsGrowSetPeer(w, Apply(cfg, w, step), s);
  }

  lemma HoldsAfter(w: World, w': World, s: Uuid, id: Uuid, list: ItemMap)
    requires RowsGrow(w, w') && Holds(w, s, id, list)
    ensures Holds(w', s, id, list)
  {
    hide MapLe;
    assert RowsBelow(PeerOf(w, s).rows, PeerOf(w', s).rows);
    MapLeTransitive(list, PeerOf(w, s).rows[id].list, PeerOf(w', s).rows[id].list);
  }

  /** Exactly one step makes a server stop holding a state: the deletion of its own row of that
      list by its handoff pass. */
  lemma HoldsAfterIff(cfg: Config, w: World, step: Step, s: Uuid, id: Uuid, list: ItemMap)
    requires cfg.policy.Merged? && Enabled(w, step) && Holds(w, s, id, list)
    ensures Holds(Apply(cfg, w, step), s, id, list) <==> step != DeleteHinted(s, id)
  {
    hide RowsGrow, MapLe;
    if step.DeleteHinted? {
      DeletesOneRow(cfg, w, step.server, step.id, s, id);
    } else {
      hide Apply;
      StepGrows(cfg, w, step);
      HoldsAfter(w, Apply(cfg, w, step), s, id, list);
    }
  }

  lemma DeletesOneRow(cfg: Config, w: World, t: Uuid, i: Uuid, s: Uuid, id: Uuid)
    requires Enabled(w, DeleteHinted(t, i)) && id in PeerOf(w, s).rows
    ensures var rows := PeerOf(Apply(cfg, w, DeleteHinted(t, i)), s).rows;
      if t == s && i == id then id !in rows else id in rows && rows[id] == PeerOf(w, s).rows[id]
  {}

  // ---------- what a step stores ----------

  /** A delivered write leaves the receiver's row at or above the delivered list. */
  lemma DeliverStores(cfg: Config, w: World, m: nat, attempts: seq<Attempt>)
    requires cfg.policy.Merged? && Tracked(w) && HistoryInv(w) && Enabled(w, Deliver(m, attempts))
    requires var msg := w.net[m].msg; msg.Handoff? || msg.MergeList? || (msg.ReplicateList? && msg.write)
    ensures Holds(Apply(cfg, w, Deliver(m, attempts)), w.net[m].dst, w.net[m].msg.id, w.net[m].msg.list)
  {
    hide MapLe, MergeMap, Batch, HistoryInv, Tracked, RecordDelivery, WriteRow;
    var e := w.net[m];
    var rows := PeerOf(w, e.dst).rows;
    var id, list := e.msg.id, e.msg.list;
    if id in rows {
      StoredCoherent(w, e.dst, m);
      MergeMapAbove(rows[id].list, list);
      MergeCoherent(rows[id].list, list);
    }
    var hint := if e.msg.Handoff? then Some(e.msg.original) else None;
    var incoming := if e.msg.MergeList? && id in rows then MergeMap(rows[id].list, list) else list;
    MapLeReflexive(list);
    WriteRowGrows(rows, id, incoming, hint);
    MapLeTransitive(list, incoming, WriteRow(Merged, rows, id, incoming, hint)[id].list);
  }

  /** A list is coherent with any merge it takes part in, if the parts are coherent. */
  lemma MergeCoherent(x: ItemMap, y: ItemMap)
    ensures Coherent(x, MergeMap(x, y)) || !Coherent(x, y)
  {}

  lemma StoredCoherent(w: World, s: Uuid, m: nat)
    requires HistoryInv(w) && m in w.net && CarriesList(w.net[m].msg) && w.net[m].msg.id in PeerOf(w, s).rows
    ensures Coherent(PeerOf(w, s).rows[w.net[m].msg.id].list, w.net[m].msg.list)
  {
    hide Explained, AllWellFormed, OwnComplete, Coherent;
    PeerIsOk(w, s, ExplainedLists(w.audit.hist));
    NetMsgOk(w, m, ExplainedLists(w.audit.hist));
    RowOk(PeerOf(w, s), w.net[m].msg.id, ExplainedLists(w.audit.hist));
    ExplainedCoherent(w.audit.hist, w.net[m].msg.id, PeerOf(w, s).rows[w.net[m].msg.id].list, w.net[m].msg.list);
  }

  /** Lists of one id held by one server are coherent with its row. */
  lemma GoodCoherent(w: World, id: Uuid, x: ItemMap, y: ItemMap)
    requires HistoryInv(w)
    requires (id, x) in ExplainedLists(w.audit.hist) && (id, y) in ExplainedLists(w.audit.hist)
    ensures Coherent(x, y)
  {
    hide Explained, AllWellFormed, OwnComplete, Coherent, Everywhere;
    ExplainedCoherent(w.audit.hist, id, x, y);
  }

  lemma AnswerOk(w: World, s: Uuid, req: nat)
    requires HistoryInv(w) && Waiting(w, s, req)
    ensures (PeerOf(w, s).reqs[req].id, Answer(PeerOf(w, s).reqs[req])) in ExplainedLists(w.audit.hist)
  {
    hide Explained, AllWellFormed, OwnComplete, MergeMap, FoldMerge;
    var r := PeerOf(w, s).reqs[req];
    ExplainedClosed(w.audit.hist);
    PeerIsOk(w, s, ExplainedLists(w.audit.hist));
    assert RequestOk(r, ExplainedLists(w.audit.hist));
    FoldOk(r.id, r.q.lists, ExplainedLists(w.audit.hist));
  }

  /** A completed request leaves the coordinator's row at or above its answer, whatever was
      written to it since the request started. */
  lemma CompleteStores(cfg: Config, w: World, s: Uuid, req: nat)
    requires cfg.policy.Merged? && HistoryInv(w) && Enabled(w, Complete(s, req))
    ensures Holds(Apply(cfg, w, Complete(s, req)), s, PeerOf(w, s).reqs[req].id, Answer(PeerOf(w, s).reqs[req]))
  {
    hide MapLe, MergeMap, Batch, HistoryInv, Answer, WriteRow, ExplainedLists;
    var p := PeerOf(w, s);
    var id, answer := p.reqs[req].id, Answer(p.reqs[req]);
    AnswerOk(w, s, req);
    if id in p.rows {
      RowExplained(w, s, id);
      GoodCoherent(w, id, p.rows[id].list, answer);
    }
    WriteRowGrows(p.rows, id, answer, None);
  }

  lemma RowExplained(w: World, s: Uuid, id: Uuid)
    requires HistoryInv(w) && id in PeerOf(w, s).rows
    ensures (id, PeerOf(w, s).rows[id].list) in ExplainedLists(w.audit.hist)
  {
    hide Explained, AllWellFormed, OwnComplete;
    PeerIsOk(w, s, ExplainedLists(w.audit.hist));
  }

  // ---------- the literal policy, in operations ----------

  /** Every item of the first list is in the second, with operations that include its own. */
  ghost predicate ListIncludes(hist: map<Cell, Log>, id: Uuid, x: ItemMap, y: ItemMap) {
    forall name <- x :: name in y && Includes(LogOf(hist, id, name), x[name], y[name])
  }

  lemma BelowIffListIncludes(hist: Hist, id: Uuid, x: ItemMap, y: ItemMap)
    requires AllWellFormed(hist) && Explained(hist, id, x) && Explained(hist, id, y)
    ensures MapLe(x, y) <==> ListIncludes(hist, id, x, y)
  {
    hide Shows, WellFormed, ItemLe, Includes;
    forall name | name in x && name in y
      ensures ItemLe(x[name], y[name]) <==> Includes(LogOf(hist, id, name), x[name], y[name])
    {
      var log := LogOf(hist, id, name);
      assert Explainable(log, x[name]) && Explainable(log, y[name]);
      var c: Cut :| Shows(log, c, x[name]);
      var d: Cut :| Shows(log, d, y[name]);
      BelowIffIncludes(log, c, x[name], d, y[name]);
    }
  }

  /** As the code is written, in every reachable state, a delivered replicate or handoff leaves
      every row of its server at or above its old value exactly when the incoming list includes
      every operation the row it replaces includes. */
  lemma LiteralDeliveryGrowsIff(cfg: Config, steps: seq<Step>, m: nat, attempts: seq<Attempt>)
    requires cfg.policy.Literal? && Enabled(Exec(cfg, steps), Deliver(m, attempts))
    requires var e := Exec(cfg, steps).net[m];
      (e.msg.Handoff? || (e.msg.ReplicateList? && e.msg.write)) && e.msg.id in PeerOf(Exec(cfg, steps), e.dst).rows
    ensures var w, w' := Exec(cfg, steps), Apply(cfg, Exec(cfg, steps), Deliver(m, attempts));
      var s, id := w.net[m].dst, w.net[m].msg.id;
      RowsBelow(PeerOf(w, s).rows, PeerOf(w', s).rows)
      <==> ListIncludes(w.audit.hist, id, PeerOf(w, s).rows[id].list, w.net[m].msg.list)
  {
    hide Exec, MapLe, MergeMap, Coherent, RowsBelow, WriteRow, Batch, RecordDelivery, Explained, AllWellFormed,
         OwnComplete, ListIncludes, Tracked;
    var w := Exec(cfg, steps);
    var e := w.net[m];
    var row, incoming := PeerOf(w, e.dst).rows[e.msg.id].list, e.msg.list;
    RunHistory(cfg, steps);
    RowExplained(w, e.dst, e.msg.id);
    NetMsgOk(w, m, ExplainedLists(w.audit.hist));
    BelowIffListIncludes(w.audit.hist, e.msg.id, row, incoming);
    GoodCoherent(w, e.msg.id, incoming, row);
    LiteralWriteGrowsIff(PeerOf(w, e.dst).rows, e.msg.id, incoming,
                         if e.msg.Handoff? then Some(e.msg.original) else None);
    MergeMapAbove(incoming, row);
    if MapLe(row, incoming) { MergeMapAbsorbs(incoming, row); }
  }

  // ---------- quorum reads ----------

  /** A successful quorum read of a stored list returns a state at or above the client's list,
      the row the coordinator first read, and every counted reply; there is one list per
      counted reply besides the client's own. */
  lemma QuorumReadAbove(cfg: Config, steps: seq<Step>, s: Uuid, req: nat)
    requires var w := Exec(cfg, steps); Enabled(w, Complete(s, req)) && PeerOf(w, s).reqs[req].kind.Read?
    ensures var r := PeerOf(Exec(cfg, steps), s).reqs[req];
      && MapLe(r.list, Answer(r)) && MapLe(r.kind.row, Answer(r))
      && (forall i | 0 <= i < |r.q.lists| :: MapLe(r.q.lists[i], Answer(r)))
      && r.q.lists[0] == r.list && |r.q.lists| == r.q.received + 1 && r.q.received >= READ_NODES
  {
    hide Exec, MapLe, MergeMap, FoldMerge, Explained, AllWellFormed, OwnComplete, Coherent, Everywhere;
    var w := Exec(cfg, steps);
    var r := PeerOf(w, s).reqs[req];
    RunHistory(cfg, steps);
    TrackedPeer(w, s);
    var good := ExplainedLists(w.audit.hist);
    PeerIsOk(w, s, good);
    assert RequestOk(r, good);
    ExplainedClosed(w.audit.hist);
    forall i, j | 0 <= i < |r.q.lists| && 0 <= j < |r.q.lists| ensures Coherent(r.q.lists[i], r.q.lists[j]) {
      GoodCoherent(w, r.id, r.q.lists[i], r.q.lists[j]);
    }
    FoldOk(r.id, r.q.lists, good);
    GoodCoherent(w, r.id, r.kind.row, FoldMerge(r.q.lists));
    MergeMapAbove(r.kind.row, FoldMerge(r.q.lists));
    forall i | 0 <= i < |r.q.lists| ensures MapLe(r.q.lists[i], Answer(r)) {
      FoldAbove(r.q.lists, i);
      MapLeTransitive(r.q.lists[i], FoldMerge(r.q.lists), Answer(r));
    }
  }

  /** The answer of a read depends only on which lists were counted, not on their order or on
      how often each was. */
  lemma QuorumReadOrderIndependent(cfg: Config, steps: seq<Step>, s: Uuid, req: nat, replies: seq<ItemMap>)
    requires var w := Exec(cfg, steps); Waiting(w, s, req) && replies != []
    requires forall l :: l in replies <==> l in PeerOf(Exec(cfg, steps), s).reqs[req].q.lists
    ensures var r := PeerOf(Exec(cfg, steps), s).reqs[req];
      Answer(r) == Answer(r.(q := r.q.(lists := replies)))
  {
    hide Exec, MapLe, MergeMap, FoldMerge, Explained, AllWellFormed, OwnComplete, Coherent, Everywhere;
    var w := Exec(cfg, steps);
    var r := PeerOf(w, s).reqs[req];
    RunHistory(cfg, steps);
    PeerIsOk(w, s, ExplainedLists(w.audit.hist));
    assert RequestOk(r, ExplainedLists(w.audit.hist));
    forall i, j | 0 <= i < |r.q.lists| && 0 <= j < |r.q.lists| ensures Coherent(r.q.lists[i], r.q.lists[j]) {
      GoodCoherent(w, r.id, r.q.lists[i], r.q.lists[j]);
    }
    FoldOrderIndependent(r.q.lists, replies);
  }
}

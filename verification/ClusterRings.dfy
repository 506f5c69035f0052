/** The rings of a run.  Under distinct virtual-node hashes, every ring a server has, and every ring
    a request was started on, is the ring of its servers, whatever joins and leaves led to it. */
module ClusterRings {
  import opened Basics
  import opened CrdtValues
  import opened Quantity
  import opened History
  import opened RingValues
  import opened RingMembership
  import opened Protocol
  import opened Cluster

  ghost predicate RingOk(hs: Hashes, universe: set<Uuid>, ring: Ring) {
    ring.Values <= universe && Represents(hs, VNODES, ring, ring.Values)
  }

  ghost predicate RingsOk(hs: Hashes, universe: set<Uuid>, w: World) {
    && (forall s: Uuid :: RingOk(hs, universe, PeerOf(w, s).ring))
    && (forall req <- w.audit.plans :: RingOk(hs, universe, w.audit.plans[req].ring))
  }

  /** Every server that a step puts on or takes off a ring is in the universe. */
  ghost predicate NodesWithin(steps: seq<Step>, universe: set<Uuid>) {
    forall step <- steps | step.JoinRing? || step.LeaveRing? :: step.node in universe
  }

  lemma RingAfterJoin(hs: Hashes, universe: set<Uuid>, ring: Ring, n: Uuid)
    requires NoCollisions(hs, VNODES, universe) && RingOk(hs, universe, ring) && n in universe
    ensures RingOk(hs, universe, AddNode(hs, ring, n, VNODES))
  {
    hide AddNode;
    CollisionsBelow(hs, ring.Values + {n}, universe);
    AddRepresents(hs, VNODES, ring, ring.Values, n);
    RepresentedServers(hs, VNODES, AddNode(hs, ring, n, VNODES), ring.Values + {n});
  }

  lemma RingAfterLeave(hs: Hashes, universe: set<Uuid>, ring: Ring, n: Uuid)
    requires NoCollisions(hs, VNODES, universe) && RingOk(hs, universe, ring) && n in universe
    ensures RingOk(hs, universe, RemoveNode(hs, ring, n, VNODES))
  {
    hide RemoveNode;
    CollisionsBelow(hs, ring.Values + {n}, universe);
    RemoveRepresents(hs, VNODES, ring, ring.Values, n);
    RepresentedServers(hs, VNODES, RemoveNode(hs, ring, n, VNODES), ring.Values - {n});
  }

  lemma CollisionsBelow(hs: Hashes, some: set<Uuid>, universe: set<Uuid>)
    requires some <= universe && NoCollisions(hs, VNODES, universe)
    ensures NoCollisions(hs, VNODES, some)
  {}

  lemma HandleKeepsRing(cfg: Config, me: Uuid, p: PeerState, e: Envelope, attempts: seq<Attempt>, req: nat)
    ensures Handle(cfg, me, p, e, attempts, req).peer.ring == p.ring
  {
    hide Replicas, SlotsOf, WriteRow, MergeMap;
  }

  /** A step changes a ring only by a join or a leave. */
  lemma RingOfStep(cfg: Config, w: World, step: Step, s: Uuid)
    requires Enabled(w, step)
    ensures var ring := PeerOf(w, s).ring;
      PeerOf(Apply(cfg, w, step), s).ring ==
        if step.JoinRing? && step.server == s then AddNode(cfg.hashes, ring, step.node, VNODES)
        else if step.LeaveRing? && step.server == s then RemoveNode(cfg.hashes, ring, step.node, VNODES)
        else ring
  {
    hide Handle, Batch, AddNode, RemoveNode, HintsOf, RecordStart, RecordDelivery, RecordFinish, RecordDeletion,
         WriteRow, Answer, EditItem, OpOf, Fetched;
    if step.Deliver? {
      var e := w.net[step.msg];
      HandleKeepsRing(cfg, e.dst, PeerOf(w, e.dst), e, step.attempts, w.nextReq);
    }
  }

  lemma StartRing(w: World, s: Uuid, r: Reaction, hs: Hashes, req: nat)
    requires req in RecordStart(w, s, r, hs).plans
    ensures var plan := RecordStart(w, s, r, hs).plans[req];
      (req in w.audit.plans && plan == w.audit.plans[req]) || plan.ring == PeerOf(w, s).ring
  {
    hide Replicas;
  }

  lemma DeliveryPlans(a: Audit, e: Envelope, rows: Rows)
    ensures RecordDelivery(a, e, rows).plans == a.plans
  {}

  lemma DeliveredPlanRing(cfg: Config, w: World, m: nat, attempts: seq<Attempt>, req: nat)
    requires m in w.net && req in ApplyDeliver(cfg, w, m, attempts).audit.plans
    ensures var plan := ApplyDeliver(cfg, w, m, attempts).audit.plans[req];
      (req in w.audit.plans && plan == w.audit.plans[req]) || plan.ring == PeerOf(w, w.net[m].dst).ring
  {
    hide Handle, Batch, RecordStart, RecordDelivery;
    var e, w1 := w.net[m], w.(net := w.net - {m});
    DeliveryPlans(w.audit, e, PeerOf(w, e.dst).rows);
    if FromClient(e.msg) {
      StartRing(w1, e.dst, Handle(cfg, e.dst, PeerOf(w, e.dst), e, attempts, w.nextReq), cfg.hashes, req);
    }
  }

  /** A new plan records its coordinator's ring. */
  lemma PlanRing(cfg: Config, w: World, step: Step, req: nat)
    requires Enabled(w, step) && req in Apply(cfg, w, step).audit.plans
    ensures (req in w.audit.plans && Apply(cfg, w, step).audit.plans[req] == w.audit.plans[req])
      || exists s: Uuid :: Apply(cfg, w, step).audit.plans[req].ring == PeerOf(w, s).ring
  {
    hide ApplyDeliver, Finish, Batch, AddNode, RemoveNode, HintsOf, EditItem, OpOf, Fetched, PeerOf;
    if step.Deliver? {
      DeliveredPlanRing(cfg, w, step.msg, step.attempts, req);
    }
  }

  lemma StepRings(cfg: Config, universe: set<Uuid>, w: World, step: Step)
    requires NoCollisions(cfg.hashes, VNODES, universe) && RingsOk(cfg.hashes, universe, w) && Enabled(w, step)
    requires step.JoinRing? || step.LeaveRing? ==> step.node in universe
    ensures RingsOk(cfg.hashes, universe, Apply(cfg, w, step))
  {
    hide Apply, RingOk, AddNode, RemoveNode, NoCollisions;
    var w' := Apply(cfg, w, step);
    forall s: Uuid ensures RingOk(cfg.hashes, universe, PeerOf(w', s).ring) {
      RingOfStep(cfg, w, step, s);
      if step.JoinRing? {
        RingAfterJoin(cfg.hashes, universe, PeerOf(w, s).ring, step.node);
      } else if step.LeaveRing? {
        RingAfterLeave(cfg.hashes, universe, PeerOf(w, s).ring, step.node);
      }
    }
    forall req | req in w'.audit.plans ensures RingOk(cfg.hashes, universe, w'.audit.plans[req].ring) {
      PlanRing(cfg, w, step, req);
    }
  }

  /** In every run whose servers' hashes are distinct. */
  lemma {:induction false} RunRings(cfg: Config, universe: set<Uuid>, steps: seq<Step>)
    requires NoCollisions(cfg.hashes, VNODES, universe) && NodesWithin(steps, universe)
    ensures RingsOk(cfg.hashes, universe, Exec(cfg, steps))
  {
    hide Apply, Enabled, NoCollisions;
    if steps == [] {
      EmptyRing(cfg.hashes, universe);
    } else {
      hide RingsOk;
      var front, last := steps[..|steps| - 1], steps[|steps| - 1];
      assert last in steps && forall step <- front :: step in steps;
      RunRings(cfg, universe, front);
      if Enabled(Exec(cfg, front), last) {
        StepRings(cfg, universe, Exec(cfg, front), last);
      }
    }
  }

  lemma EmptyRing(hs: Hashes, universe: set<Uuid>)
    ensures RingOk(hs, universe, map[])
  {
    var none: Ring := map[];
    assert none.Values == {};
  }

  /** Two rings of one universe, one with fewer servers: it is the other with servers removed. */
  lemma RingIsRest(hs: Hashes, universe: set<Uuid>, ring: Ring, smaller: Ring)
    requires RingOk(hs, universe, ring) && RingOk(hs, universe, smaller) && smaller.Values <= ring.Values
    ensures smaller == RemoveServers(ring, ring.Values - smaller.Values)
  {
    hide RemoveServers;
    var gone := ring.Values - smaller.Values;
    RemoveServersRepresents(hs, VNODES, ring, ring.Values, gone);
    assert ring.Values - gone == smaller.Values;
    RepresentsUnique(hs, VNODES, smaller, RemoveServers(ring, gone), smaller.Values);
  }
}

/** What a write acknowledgement proves.  Acknowledgements are counted, not their senders; for a
    write none of whose own messages the network duplicated, each replica slot is still counted
    at most once, so the write, once completed, was handled by the server of every slot.  The
    invariants hold of every run: what they say of a request lapses when a message of that
    request is duplicated. */
module WriteQuorum {
  import opened Basics
  import opened CrdtValues
  import opened Quantity
  import opened History
  import opened RingMembership
  import opened Protocol
  import opened Cluster
  import opened RequestTracking

  /** A planned write no message of which was duplicated. */
  predicate Watched(a: Audit, req: nat) {
    req in a.plans && req !in a.repeated
  }

  /** The record of the write of a plan's slot. */
  function SlotRec(plan: Plan, t: Tag): StoreRec
    requires t.slot < |plan.slots|
  {
    StoreRec(t, Server(plan.slots[t.slot]), plan.id, plan.list, StandsFor(plan.slots[t.slot]))
  }

  /** The replica a handoff stands in for. */
  function StandsFor(slot: Slot): Option<Uuid> {
    match slot case Sent(_) => None case Handed(r, _) => Some(r)
  }

  /** The replica named by a write message. */
  function Names(m: Msg): Option<Uuid> {
    if m.Handoff? then Some(m.original) else None
  }

  /** A message of a planned write serves one slot, not yet counted; an acknowledgement means
      the slot's server has handled the write. */
  ghost predicate MsgCounted(a: Audit, e: Envelope) {
    IsWriteTraffic(e.msg) && Watched(a, e.req) ==>
      var plan, t := a.plans[e.req], Tag(e.req, e.slot);
      && e.slot < |plan.slots| && t !in a.heard
      && (if e.msg.Ack? then e.dst == plan.coordinator && SlotRec(plan, t) in a.stored
          else e.src == plan.coordinator && e.dst == Server(plan.slots[e.slot])
               && e.msg.id == plan.id && e.msg.list == plan.list
               && Names(e.msg) == StandsFor(plan.slots[e.slot]))
  }

  function HeardSlots(heard: set<Tag>, req: nat): set<nat> {
    set t | t in heard && t.req == req :: t.slot
  }

  ghost predicate RequestCounted(a: Audit, req: nat, r: Request) {
    r.kind.Write? && req !in a.repeated ==> r.q.received == |HeardSlots(a.heard, req)|
  }

  /** The slots of a plan follow the replica order of the ring it was started on. */
  ghost predicate PlanOk(hs: Hashes, plan: Plan) {
    && plan.replicas == Replicas(hs, plan.ring, plan.id)
    && |plan.slots| <= |plan.replicas|
    && forall i | 0 <= i < |plan.slots| :: plan.slots[i].replica == plan.replicas[i]
  }

  ghost predicate HeardOk(a: Audit, nextReq: nat, t: Tag) {
    && t.req < nextReq
    && (Watched(a, t.req) ==> t.slot < |a.plans[t.req].slots| && SlotRec(a.plans[t.req], t) in a.stored)
  }

  /** An acknowledged write: every slot, and the coordinator, handled it. */
  ghost predicate AckedOk(a: Audit, req: nat) {
    && req in a.plans
    && (req !in a.repeated ==> HandledByAll(a, req))
  }

  ghost predicate HandledByAll(a: Audit, req: nat)
    requires req in a.plans
  {
    var plan := a.plans[req];
    && |plan.slots| == |plan.replicas| == REPLICAS - 1
    && (forall i | 0 <= i < |plan.slots| :: SlotRec(plan, Tag(req, i)) in a.stored)
    && OwnRec(plan, req) in a.stored
  }

  /** The record of the coordinator's own write. */
  function OwnRec(plan: Plan, req: nat): StoreRec {
    StoreRec(Tag(req, |plan.slots|), plan.coordinator, plan.id, plan.list, None)
  }

  ghost predicate OnePerSlot(w: World) {
    forall m1, m2 | m1 in w.net && m2 in w.net && m1 != m2
                 && IsWriteTraffic(w.net[m1].msg) && IsWriteTraffic(w.net[m2].msg)
                 && Watched(w.audit, w.net[m1].req) ::
      Tag(w.net[m1].req, w.net[m1].slot) != Tag(w.net[m2].req, w.net[m2].slot)
  }

  ghost predicate Counted(hs: Hashes, w: World) {
    && OnePerSlot(w)
    && (forall m <- w.net :: MsgCounted(w.audit, w.net[m]))
    && (forall s <- w.peers, req <- w.peers[s].reqs :: RequestCounted(w.audit, req, w.peers[s].reqs[req]))
    && (forall req <- w.audit.plans :: PlanOk(hs, w.audit.plans[req]))
    && (forall t <- w.audit.heard :: HeardOk(w.audit, w.nextReq, t))
    && (forall req <- w.audit.acked :: AckedOk(w.audit, req))
  }

  // ---------- small steps ----------

  /** Only additions to the records, nothing newly heard. */
  ghost predicate RecordsGrow(w: World, w': World) {
    && AuditGrows(w, w') && w'.audit.heard == w.audit.heard && w.audit.stored <= w'.audit.stored
    && w.audit.repeated <= w'.audit.repeated
  }

  lemma MsgStaysCounted(w: World, w': World, e: Envelope)
    requires RecordsGrow(w, w') && MsgCounted(w.audit, e) && e.req < w.nextReq
    ensures MsgCounted(w'.audit, e)
  {}

  lemma CountedRecords(hs: Hashes, w: World, w': World)
    requires Counted(hs, w) && Tracked(w) && RecordsGrow(w, w')
    requires w'.peers == w.peers
    requires w'.net.Keys <= w.net.Keys && forall m <- w'.net :: w'.net[m] == w.net[m]
    requires forall req <- w'.audit.plans :: PlanOk(hs, w'.audit.plans[req])
    requires forall req <- w'.audit.acked :: AckedOk(w'.audit, req)
    ensures Counted(hs, w')
  {
    hide MsgCounted, RequestTracked, PlanOk, AckedOk, Replicas;
    forall m | m in w'.net ensures MsgCounted(w'.audit, w'.net[m]) {
      MsgInNet(w, m);
      MsgStaysCounted(w, w', w.net[m]);
    }
    forall s, req | s in w'.peers && req in w'.peers[s].reqs
      ensures RequestCounted(w'.audit, req, w'.peers[s].reqs[req])
    {
      assert RequestCounted(w.audit, req, w.peers[s].reqs[req]);
    }
    forall t | t in w'.audit.heard ensures HeardOk(w'.audit, w'.nextReq, t) {
      assert HeardOk(w.audit, w.nextReq, t);
    }
    forall m1, m2 | m1 in w'.net && m2 in w'.net && m1 != m2
                 && IsWriteTraffic(w'.net[m1].msg) && IsWriteTraffic(w'.net[m2].msg)
                 && Watched(w'.audit, w'.net[m1].req)
      ensures Tag(w'.net[m1].req, w'.net[m1].slot) != Tag(w'.net[m2].req, w'.net[m2].slot)
    {
      MsgInNet(w, m1);
    }
  }

  lemma AckedStays(w: World, w': World, req: nat)
    requires RecordsGrow(w, w') && AckedOk(w.audit, req)
    ensures AckedOk(w'.audit, req)
  {}

  lemma CountedSetPeer(hs: Hashes, w: World, s: Uuid, p: PeerState)
    requires Counted(hs, w) && forall req <- p.reqs :: RequestCounted(w.audit, req, p.reqs[req])
    ensures Counted(hs, SetPeer(w, s, p))
  {
    hide MsgCounted, RequestCounted, PlanOk, AckedOk, HeardOk;
  }

  lemma CountedPeer(hs: Hashes, w: World, s: Uuid)
    requires Counted(hs, w)
    ensures forall req <- PeerOf(w, s).reqs :: RequestCounted(w.audit, req, PeerOf(w, s).reqs[req])
  {
    hide MsgCounted, RequestCounted, PlanOk, AckedOk, HeardOk;
  }

  /** Messages that serve no watched write. */
  lemma CountedPostOther(hs: Hashes, w: World, sends: seq<Envelope>)
    requires Counted(hs, w) && Tracked(w)
    requires forall i | 0 <= i < |sends| :: IsWriteTraffic(sends[i].msg) ==> !Watched(w.audit, sends[i].req)
    ensures Counted(hs, Post(w, sends))
  {
    hide RequestCounted, PlanOk, AckedOk, HeardOk, Batch, RequestTracked;
    var w' := Post(w, sends);
    forall m | m in w'.net ensures MsgCounted(w'.audit, w'.net[m]) {
      if m in w.net { MsgInNet(w, m); }
    }
    forall m1, m2 | m1 in w'.net && m2 in w'.net && m1 != m2
                 && IsWriteTraffic(w'.net[m1].msg) && IsWriteTraffic(w'.net[m2].msg)
                 && Watched(w'.audit, w'.net[m1].req)
      ensures Tag(w'.net[m1].req, w'.net[m1].slot) != Tag(w'.net[m2].req, w'.net[m2].slot)
    {
      if m1 in w.net { MsgInNet(w, m1); }
      if m2 in w.net { MsgInNet(w, m2); }
    }
  }

  /** Messages of distinct slots of a planned write whose slots nothing in flight serves. */
  lemma PostedMessages(w: World, sends: seq<Envelope>)
    ensures forall m <- Post(w, sends).net ::
      (m in w.net && Post(w, sends).net[m] == w.net[m])
      || (w.nextMsg <= m < w.nextMsg + |sends| && Post(w, sends).net[m] == sends[m - w.nextMsg])
  {}

  lemma PostedOnePerSlot(w: World, sends: seq<Envelope>)
    requires OnePerSlot(w)
    requires forall i, j | 0 <= i < j < |sends| ::
      Tag(sends[i].req, sends[i].slot) != Tag(sends[j].req, sends[j].slot)
    requires forall i, m | 0 <= i < |sends| && m in w.net && IsWriteTraffic(w.net[m].msg) ::
      Tag(w.net[m].req, w.net[m].slot) != Tag(sends[i].req, sends[i].slot)
    ensures OnePerSlot(Post(w, sends))
  {
    hide Batch, IsWriteTraffic;
    var w' := Post(w, sends);
    PostedMessages(w, sends);
    assert w'.audit == w.audit;
    hide Post;
    forall m1, m2 | m1 in w'.net && m2 in w'.net && m1 != m2
                 && IsWriteTraffic(w'.net[m1].msg) && IsWriteTraffic(w'.net[m2].msg)
                 && Watched(w'.audit, w'.net[m1].req)
      ensures Tag(w'.net[m1].req, w'.net[m1].slot) != Tag(w'.net[m2].req, w'.net[m2].slot)
    {
      if m1 in w.net && w'.net[m1] == w.net[m1] {
        if m2 in w.net && w'.net[m2] == w.net[m2] {
        } else {
          assert w'.net[m2] == sends[m2 - w.nextMsg];
        }
      } else if m2 in w.net && w'.net[m2] == w.net[m2] {
        assert w'.net[m1] == sends[m1 - w.nextMsg];
      } else {
        var i, j := m1 - w.nextMsg, m2 - w.nextMsg;
        assert w'.net[m1] == sends[i] && w'.net[m2] == sends[j];
        assert i < j || j < i;
      }
    }
  }

  lemma CountedPostSlots(hs: Hashes, w: World, sends: seq<Envelope>)
    requires Counted(hs, w) && Tracked(w)
    requires forall i | 0 <= i < |sends| :: MsgCounted(w.audit, sends[i]) && IsWriteTraffic(sends[i].msg)
    requires forall i, j | 0 <= i < j < |sends| ::
      Tag(sends[i].req, sends[i].slot) != Tag(sends[j].req, sends[j].slot)
    requires forall i, m | 0 <= i < |sends| && m in w.net && IsWriteTraffic(w.net[m].msg) ::
      Tag(w.net[m].req, w.net[m].slot) != Tag(sends[i].req, sends[i].slot)
    ensures Counted(hs, Post(w, sends))
  {
    hide RequestCounted, PlanOk, AckedOk, HeardOk, Batch, Tracked, MsgCounted, OnePerSlot;
    PostedMessages(w, sends);
    PostedOnePerSlot(w, sends);
  }

  // ---------- deliveries ----------

  /** A replica or a fallback handles the write of a slot and acknowledges it. */
  lemma WriteCounted(cfg: Config, w: World, m: nat, attempts: seq<Attempt>)
    requires Tracked(w) && Counted(cfg.hashes, w) && m in w.net
    requires IsWriteTraffic(w.net[m].msg) && !w.net[m].msg.Ack?
    ensures Counted(cfg.hashes, ApplyDeliver(cfg, w, m, attempts))
  {
    hide Handle, MsgCounted, RequestCounted, PlanOk, AckedOk, HeardOk, Batch, Tracked, OnePerSlot;
    var e := w.net[m];
    var r := Handle(cfg, e.dst, PeerOf(w, e.dst), e, attempts, w.nextReq);
    var w1 := w.(net := w.net - {m}, audit := RecordDelivery(w.audit, e, PeerOf(w, e.dst).rows));
    TrackedSame(w, w1);
    WriteReaction(cfg, e.dst, PeerOf(w, e.dst), e, attempts, w.nextReq);
    forall req | req in w1.audit.acked ensures AckedOk(w1.audit, req) { AckedStays(w, w1, req); }
    CountedRecords(cfg.hashes, w, w1);
    CountedPeer(cfg.hashes, w1, e.dst);
    CountedSetPeer(cfg.hashes, w1, e.dst, r.peer);
    var w2 := SetPeer(w1, e.dst, r.peer);
    LocalTracked(w1, e.dst, r.peer);
    AckCounted(w, m);
    OnlyServer(w, m);
    if Watched(w.audit, e.req) {
      CountedPostSlots(cfg.hashes, w2, r.sends);
    } else {
      CountedPostOther(cfg.hashes, w2, r.sends);
    }
  }

  /** A handled write is acknowledged to its sender and changes no request. */
  lemma WriteReaction(cfg: Config, me: Uuid, p: PeerState, e: Envelope, attempts: seq<Attempt>, req: nat)
    requires IsWriteTraffic(e.msg) && !e.msg.Ack?
    ensures var r := Handle(cfg, me, p, e, attempts, req);
      r.peer.reqs == p.reqs && r.sends == [Envelope(me, e.src, e.req, e.slot, Ack)]
  {
    hide WriteRow;
  }

  /** No other message in flight serves the slot of this one. */
  lemma OnlyServer(w: World, m: nat)
    requires OnePerSlot(w) && m in w.net && IsWriteTraffic(w.net[m].msg)
    ensures Watched(w.audit, w.net[m].req) ==>
      forall m2 | m2 in w.net && m2 != m && IsWriteTraffic(w.net[m2].msg) ::
        Tag(w.net[m2].req, w.net[m2].slot) != Tag(w.net[m].req, w.net[m].slot)
  {}

  lemma AckCounted(w: World, m: nat)
    requires m in w.net && MsgCounted(w.audit, w.net[m])
    requires IsWriteTraffic(w.net[m].msg) && !w.net[m].msg.Ack?
    ensures var e := w.net[m];
      MsgCounted(RecordDelivery(w.audit, e, PeerOf(w, e.dst).rows), Envelope(e.dst, e.src, e.req, e.slot, Ack))
  {}

  lemma HeardOnce(heard: set<Tag>, t: Tag, req: nat)
    requires t !in heard
    ensures |HeardSlots(heard + {t}, req)| == |HeardSlots(heard, req)| + (if t.req == req then 1 else 0)
  {
    if t.req == req {
      assert HeardSlots(heard + {t}, req) == HeardSlots(heard, req) + {t.slot};
      assert t.slot !in HeardSlots(heard, req) by {
        if u :| u in heard && u.req == req && u.slot == t.slot {
          assert u == t;
        }
      }
    } else {
      assert HeardSlots(heard + {t}, req) == HeardSlots(heard, req);
    }
  }

  /** Hearing an acknowledgement of a slot of a planned write. */
  lemma HearRecords(hs: Hashes, w: World, m: nat)
    requires Tracked(w) && Counted(hs, w) && m in w.net && w.net[m].msg.Ack? && Watched(w.audit, w.net[m].req)
    ensures var t := Tag(w.net[m].req, w.net[m].slot);
      var a := RecordDelivery(w.audit, w.net[m], PeerOf(w, w.net[m].dst).rows);
      && t !in w.audit.heard
      && (forall k <- w.net - {m} :: MsgCounted(a, w.net[k]))
      && (forall u <- a.heard :: HeardOk(a, w.nextReq, u))
      && (forall req <- a.acked :: AckedOk(a, req))
  {
    hide RequestCounted, PlanOk, RequestTracked;
    var e := w.net[m];
    var a := RecordDelivery(w.audit, e, PeerOf(w, e.dst).rows);
    assert MsgCounted(w.audit, e);
    MsgInNet(w, m);
    forall k | k in w.net - {m} ensures MsgCounted(a, w.net[k]) {
      assert MsgCounted(w.audit, w.net[k]);
    }
    forall req | req in a.acked ensures AckedOk(a, req) {
      assert AckedOk(w.audit, req);
    }
  }

  lemma HearRequest(w: World, hs: Hashes, m: nat, s: Uuid, req: nat)
    requires Tracked(w) && Counted(hs, w) && m in w.net && w.net[m].msg.Ack? && Watched(w.audit, w.net[m].req)
    requires req in PeerOf(w, s).reqs && Tag(w.net[m].req, w.net[m].slot) !in w.audit.heard
    ensures var e := w.net[m];
      var r := PeerOf(w, s).reqs[req];
      var r' := if req == e.req then r.(q := CountAck(r.q)) else r;
      RequestCounted(RecordDelivery(w.audit, e, PeerOf(w, e.dst).rows), req, r')
    ensures req == w.net[m].req ==> s == w.net[m].dst
  {
    hide PlanOk, HeardOk, AckedOk, HeardSlots;
    CountedPeer(hs, w, s);
    TrackedPeer(w, s);
    assert RequestTracked(w.audit, w.nextReq, s, req, PeerOf(w, s).reqs[req]);
    assert MsgCounted(w.audit, w.net[m]);
    HeardOnce(w.audit.heard, Tag(w.net[m].req, w.net[m].slot), req);
  }

  lemma AckDeliveryCounted(cfg: Config, w: World, m: nat, attempts: seq<Attempt>)
    requires Tracked(w) && Counted(cfg.hashes, w) && m in w.net && w.net[m].msg.Ack? && Watched(w.audit, w.net[m].req)
    ensures Counted(cfg.hashes, ApplyDeliver(cfg, w, m, attempts))
  {
    hide MsgCounted, RequestCounted, PlanOk, AckedOk, HeardOk, Batch, Tracked;
    var e := w.net[m];
    var w' := ApplyDeliver(cfg, w, m, attempts);
    HearRecords(cfg.hashes, w, m);
    assert w'.net == w.net - {m};
    forall s, req | s in w'.peers && req in w'.peers[s].reqs
      ensures RequestCounted(w'.audit, req, w'.peers[s].reqs[req])
    {
      HearRequest(w, cfg.hashes, m, s, req);
    }
    assert OnePerSlot(w') by { assert OnePerSlot(w); }
  }

  /** An acknowledgement of no watched write changes no count that matters. */
  lemma StrayAckCounted(cfg: Config, w: World, m: nat, attempts: seq<Attempt>)
    requires Tracked(w) && Counted(cfg.hashes, w) && m in w.net && w.net[m].msg.Ack? && !Watched(w.audit, w.net[m].req)
    ensures Counted(cfg.hashes, ApplyDeliver(cfg, w, m, attempts))
  {
    hide PlanOk, Batch, Counted, Tracked;
    var w' := ApplyDeliver(cfg, w, m, attempts);
    assert w'.net == w.net - {m};
    StrayHeard(cfg.hashes, w, w', m);
  }

  lemma StrayHeard(hs: Hashes, w: World, w': World, m: nat)
    requires Tracked(w) && Counted(hs, w) && m in w.net && w.net[m].msg.Ack? && !Watched(w.audit, w.net[m].req)
    requires w'.net == w.net - {m} && w'.nextReq == w.nextReq
    requires w'.audit == RecordDelivery(w.audit, w.net[m], PeerOf(w, w.net[m].dst).rows)
    requires forall s <- w'.peers :: w'.peers[s].reqs.Keys == PeerOf(w, s).reqs.Keys
    requires forall s <- w'.peers, req <- w'.peers[s].reqs :: StraySame(w, w', m, s, req)
    ensures Counted(hs, w')
  {
    hide PlanOk, Batch, HeardSlots, AckedOk;
    MsgInNet(w, m);
    forall s, req | s in w'.peers && req in w'.peers[s].reqs
      ensures RequestCounted(w'.audit, req, w'.peers[s].reqs[req])
    {
      assert StraySame(w, w', m, s, req);
      StrayRequest(hs, w, m, s, req, w'.peers[s].reqs[req]);
    }
    forall k | k in w'.net ensures MsgCounted(w'.audit, w'.net[k]) {
      assert MsgCounted(w.audit, w.net[k]);
    }
    forall t | t in w'.audit.heard ensures HeardOk(w'.audit, w'.nextReq, t) {
      assert t in w.audit.heard ==> HeardOk(w.audit, w.nextReq, t);
    }
    forall req | req in w'.audit.acked ensures AckedOk(w'.audit, req) {
      AckedStaysAt(w.audit, w'.audit, req);
    }
  }

  /** Only the request of the acknowledgement has changed, and not in kind. */
  ghost predicate StraySame(w: World, w': World, m: nat, s: Uuid, req: nat)
    requires m in w.net && s in w'.peers && req in w'.peers[s].reqs && req in PeerOf(w, s).reqs
  {
    var r, r' := PeerOf(w, s).reqs[req], w'.peers[s].reqs[req];
    r'.kind == r.kind && (req != w.net[m].req ==> r' == r)
  }

  lemma StrayRequest(hs: Hashes, w: World, m: nat, s: Uuid, req: nat, r': Request)
    requires Tracked(w) && Counted(hs, w) && m in w.net && w.net[m].msg.Ack? && !Watched(w.audit, w.net[m].req)
    requires req in PeerOf(w, s).reqs && r'.kind == PeerOf(w, s).reqs[req].kind
    requires req != w.net[m].req ==> r' == PeerOf(w, s).reqs[req]
    ensures RequestCounted(RecordDelivery(w.audit, w.net[m], PeerOf(w, w.net[m].dst).rows), req, r')
  {
    hide PlanOk, HeardSlots, AckedOk, MsgCounted, HeardOk;
    TrackedPeer(w, s);
    CountedPeer(hs, w, s);
    assert RequestTracked(w.audit, w.nextReq, s, req, PeerOf(w, s).reqs[req]);
    SlotsUnaffected(w.audit.heard, Tag(w.net[m].req, w.net[m].slot), req);
  }

  lemma AckedStaysAt(a: Audit, a': Audit, req: nat)
    requires AckedOk(a, req) && a.stored <= a'.stored && a'.plans == a.plans && a'.repeated == a.repeated
    ensures AckedOk(a', req)
  {}

  lemma SlotsUnaffected(heard: set<Tag>, t: Tag, req: nat)
    ensures t.req != req ==> HeardSlots(heard + {t}, req) == HeardSlots(heard, req)
  {}

  lemma ReadRecords(a: Audit, e: Envelope, rows: Rows)
    requires !IsWriteTraffic(e.msg)
    ensures SameRecords(a, RecordDelivery(a, e, rows))
  {}

  /** What read traffic does to the requests that wait for a write. */
  lemma ReadReaction(cfg: Config, w: World, m: nat)
    requires Tracked(w) && m in w.net && !FromClient(w.net[m].msg) && !IsWriteTraffic(w.net[m].msg)
    requires forall req <- PeerOf(w, w.net[m].dst).reqs ::
      RequestCounted(w.audit, req, PeerOf(w, w.net[m].dst).reqs[req])
    ensures var e := w.net[m];
      var r := Handle(cfg, e.dst, PeerOf(w, e.dst), e, [], w.nextReq);
      var a := RecordDelivery(w.audit, e, PeerOf(w, e.dst).rows);
      && (forall i | 0 <= i < |r.sends| :: !IsWriteTraffic(r.sends[i].msg))
      && (forall req <- r.peer.reqs :: RequestCounted(a, req, r.peer.reqs[req]))
  {
    hide WriteRow, MergeMap, HeardSlots;
    MsgInNet(w, m);
    TrackedPeer(w, w.net[m].dst);
  }

  /** Read traffic changes no count of a write. */
  lemma ReadTrafficCounted(cfg: Config, w: World, m: nat, attempts: seq<Attempt>)
    requires Tracked(w) && Counted(cfg.hashes, w) && m in w.net
    requires !FromClient(w.net[m].msg) && !IsWriteTraffic(w.net[m].msg)
    ensures Counted(cfg.hashes, ApplyDeliver(cfg, w, m, attempts))
  {
    hide MsgCounted, RequestTracked, RequestCounted, PlanOk, AckedOk, HeardOk, Batch, Handle, HeardSlots, OnePerSlot,
         RecordDelivery;
    var e := w.net[m];
    var r := Handle(cfg, e.dst, PeerOf(w, e.dst), e, attempts, w.nextReq);
    var w1 := w.(net := w.net - {m}, audit := RecordDelivery(w.audit, e, PeerOf(w, e.dst).rows));
    ReadRecords(w.audit, e, PeerOf(w, e.dst).rows);
    TrackedSame(w, w1);
    ClientStepCounted(cfg.hashes, w, w1);
    HandleTracked(cfg, w, m);
    HandleIgnoresAttempts(cfg, e.dst, PeerOf(w, e.dst), e, attempts, w.nextReq);
    CountedPeer(cfg.hashes, w, e.dst);
    ReadReaction(cfg, w, m);
    SameAudit(w, w1, e.dst, r);
    CountedSetPeer(cfg.hashes, w1, e.dst, r.peer);
    TrackedSetPeer(w1, e.dst, r.peer);
    CountedPostOther(cfg.hashes, SetPeer(w1, e.dst, r.peer), r.sends);
  }

  // ---------- starting a request ----------

  /** The plan a started write records, and the messages it sends for it. */
  ghost predicate PlansRight(hs: Hashes, s: Uuid, e: Envelope, plan: Plan, r: Reaction, req: nat)
    requires FromClient(e.msg)
  {
    && req in r.peer.reqs && r.peer.reqs[req].kind.Write? && r.peer.reqs[req].q.received == 0
    && PlanOk(hs, plan) && plan.coordinator == s && plan.id == e.msg.id && plan.list == e.msg.list
    && |r.sends| == |plan.slots|
    && forall i | 0 <= i < |r.sends| ::
         r.sends[i].slot == i && r.sends[i].dst == Server(plan.slots[i])
         && Names(r.sends[i].msg) == StandsFor(plan.slots[i])
  }

  lemma StartWriteShape(hs: Hashes, s: Uuid, p: PeerState, client: Uuid, id: Uuid, list: ItemMap,
                        attempts: seq<Attempt>, req: nat)
    ensures var r, slots := StartWrite(hs, s, p, client, id, list, attempts, req),
                            SlotsOf(Replicas(hs, p.ring, id), attempts);
      if Replicas(hs, p.ring, id) == [] then r == Reaction(p, [])
      else
        && r.peer == p.(reqs := p.reqs[req := Request(client, id, list, Write, slots, NewQuorum(WRITE_NODES, list))])
        && |r.sends| == |slots|
        && forall i | 0 <= i < |r.sends| ::
             r.sends[i].slot == i && r.sends[i].dst == Server(slots[i]) && Names(r.sends[i].msg) == StandsFor(slots[i])
  {
    hide Replicas, SlotsOf;
  }

  lemma StartPlan(cfg: Config, w: World, s: Uuid, e: Envelope, attempts: seq<Attempt>)
    requires FromClient(e.msg) && w.nextReq !in PeerOf(w, s).reqs && w.nextReq !in w.audit.plans
    ensures var r := Handle(cfg, s, PeerOf(w, s), e, attempts, w.nextReq);
      var a := RecordStart(w, s, r, cfg.hashes);
      && (w.nextReq in a.plans ==> PlansRight(cfg.hashes, s, e, a.plans[w.nextReq], r, w.nextReq))
      && (w.nextReq !in a.plans ==> forall i | 0 <= i < |r.sends| :: !IsWriteTraffic(r.sends[i].msg))
      && (w.nextReq in r.peer.reqs && r.peer.reqs[w.nextReq].kind.Write? ==> w.nextReq in a.plans)
  {
    hide Replicas, SlotsOf, StartWrite;
    var p := PeerOf(w, s);
    var replicas := Replicas(cfg.hashes, p.ring, e.msg.id);
    SlotsShape(replicas, attempts);
    StartWriteShape(cfg.hashes, s, p, e.src, e.msg.id, e.msg.list, attempts, w.nextReq);
  }

  lemma NothingHeardYet(hs: Hashes, w: World)
    requires Counted(hs, w)
    ensures HeardSlots(w.audit.heard, w.nextReq) == {}
    ensures forall i: nat :: Tag(w.nextReq, i) !in w.audit.heard
  {
    forall t | t in w.audit.heard ensures t.req < w.nextReq {
      assert HeardOk(w.audit, w.nextReq, t);
    }
  }

  /** Recording the start, before anything is sent. */
  lemma StartRecorded(cfg: Config, w: World, s: Uuid, e: Envelope, attempts: seq<Attempt>)
    requires Tracked(w) && Counted(cfg.hashes, w) && FromClient(e.msg)
    ensures var r := Handle(cfg, s, PeerOf(w, s), e, attempts, w.nextReq);
      var w2 := w.(nextReq := w.nextReq + 1, audit := RecordStart(w, s, r, cfg.hashes));
      Tracked(SetPeer(w2, s, r.peer)) && Counted(cfg.hashes, SetPeer(w2, s, r.peer))
  {
    hide Handle, MsgCounted, RequestCounted, PlanOk, AckedOk, HeardOk, Batch, Tracked, MsgTracked,
         RequestTracked, RecordStart, HeardSlots;
    StartTracked(cfg, w, s, e, attempts);
    FreshRequest(w, s);
    FreshPlan(w);
    var r := Handle(cfg, s, PeerOf(w, s), e, attempts, w.nextReq);
    var w2 := w.(nextReq := w.nextReq + 1, audit := RecordStart(w, s, r, cfg.hashes));
    StartPlan(cfg, w, s, e, attempts);
    StartShape(cfg, s, PeerOf(w, s), e, attempts, w.nextReq);
    RecordStartKeeps(cfg, w, s, r);
    forall req | req in w2.audit.acked ensures AckedOk(w2.audit, req) { AckedStays(w, w2, req); }
    CountedRecords(cfg.hashes, w, w2);
    NothingHeardYet(cfg.hashes, w);
    CountedPeer(cfg.hashes, w2, s);
    forall req | req in r.peer.reqs ensures RequestCounted(w2.audit, req, r.peer.reqs[req]) {
      if req == w.nextReq {
        NewRequestCounted(w2.audit, req, r.peer.reqs[req]);
      }
    }
    CountedSetPeer(cfg.hashes, w2, s, r.peer);
    TrackedSetPeer(w2, s, r.peer);
  }

  /** The messages of a started write serve distinct, unserved slots. */
  lemma StartSends(cfg: Config, w: World, s: Uuid, e: Envelope, attempts: seq<Attempt>)
    requires Tracked(w) && Counted(cfg.hashes, w) && FromClient(e.msg)
    ensures var r := Handle(cfg, s, PeerOf(w, s), e, attempts, w.nextReq);
      var w2 := w.(nextReq := w.nextReq + 1, audit := RecordStart(w, s, r, cfg.hashes));
      Counted(cfg.hashes, Post(SetPeer(w2, s, r.peer), r.sends))
  {
    hide Handle, MsgCounted, RequestCounted, PlanOk, AckedOk, HeardOk, Batch, Tracked, MsgTracked,
         RequestTracked, RecordStart, HeardSlots, Counted;
    StartRecorded(cfg, w, s, e, attempts);
    FreshRequest(w, s);
    FreshPlan(w);
    var r := Handle(cfg, s, PeerOf(w, s), e, attempts, w.nextReq);
    var w3 := SetPeer(w.(nextReq := w.nextReq + 1, audit := RecordStart(w, s, r, cfg.hashes)), s, r.peer);
    StartPlan(cfg, w, s, e, attempts);
    StartShape(cfg, s, PeerOf(w, s), e, attempts, w.nextReq);
    RecordStartKeeps(cfg, w, s, r);
    NothingHeardYet(cfg.hashes, w);
    if w.nextReq in w3.audit.plans {
      forall i | 0 <= i < |r.sends| ensures MsgCounted(w3.audit, r.sends[i]) {
        SendCounted(w3.audit, r.sends[i]);
      }
      forall i, k | 0 <= i < |r.sends| && k in w3.net && IsWriteTraffic(w3.net[k].msg)
        ensures Tag(w3.net[k].req, w3.net[k].slot) != Tag(r.sends[i].req, r.sends[i].slot)
      {
        ReqBound(w, k);
      }
      CountedPostSlots(cfg.hashes, w3, r.sends);
    } else {
      CountedPostOther(cfg.hashes, w3, r.sends);
    }
  }

  lemma StartCounted(cfg: Config, w: World, m: nat, attempts: seq<Attempt>)
    requires Tracked(w) && Counted(cfg.hashes, w) && m in w.net && FromClient(w.net[m].msg)
    ensures Counted(cfg.hashes, ApplyDeliver(cfg, w, m, attempts))
  {
    hide Handle, Counted, Batch, Tracked, RecordStart;
    var w1 := w.(net := w.net - {m});
    TrackedSame(w, w1);
    ClientStepCounted(cfg.hashes, w, w1);
    StartSends(cfg, w1, w.net[m].dst, w.net[m], attempts);
  }

  lemma ReqBound(w: World, m: nat)
    requires Tracked(w) && m in w.net
    ensures w.net[m].req < w.nextReq
  {}

  lemma SendCounted(a: Audit, e: Envelope)
    requires e.req in a.plans && IsWriteTraffic(e.msg) && !e.msg.Ack? && Tag(e.req, e.slot) !in a.heard
    requires var plan := a.plans[e.req];
      e.slot < |plan.slots| && e.src == plan.coordinator && e.dst == Server(plan.slots[e.slot])
      && e.msg.id == plan.id && e.msg.list == plan.list && Names(e.msg) == StandsFor(plan.slots[e.slot])
    ensures MsgCounted(a, e)
  {}

  lemma NewRequestCounted(a: Audit, req: nat, r: Request)
    requires HeardSlots(a.heard, req) == {} && (r.kind.Write? ==> r.q.received == 0)
    ensures RequestCounted(a, req, r)
  {}

  lemma FreshPlan(w: World)
    requires Tracked(w)
    ensures w.nextReq !in w.audit.plans && w.nextReq !in w.audit.readPlans
  {}

  lemma RecordStartKeeps(cfg: Config, w: World, s: Uuid, r: Reaction)
    ensures var a := RecordStart(w, s, r, cfg.hashes);
      && a.heard == w.audit.heard && a.stored == w.audit.stored && a.acked == w.audit.acked
      && a.repeated == w.audit.repeated
      && (forall req <- a.plans :: req == w.nextReq || (req in w.audit.plans && a.plans[req] == w.audit.plans[req]))
  {}

  // ---------- completing a request ----------

  lemma {:induction false} AllBelow(s: set<nat>, n: nat)
    requires forall i <- s :: i < n
    ensures |s| <= n
    ensures |s| == n ==> forall i: nat | i < n :: i in s
  {
    if n == 0 {
      assert s == {};
    } else {
      AllBelow(s - {n - 1}, n - 1);
      if n - 1 in s {
        assert |s - {n - 1}| == |s| - 1;
      } else {
        assert s - {n - 1} == s;
      }
    }
  }

  /** A fired write has heard every slot, and there were as many as replicas, on a ring with at
      least three servers. */
  lemma FiredHeardAll(hs: Hashes, w: World, s: Uuid, req: nat)
    requires Tracked(w) && Counted(hs, w) && req in PeerOf(w, s).reqs
    requires PeerOf(w, s).reqs[req].kind.Write? && PeerOf(w, s).reqs[req].q.fired && req !in w.audit.repeated
    ensures var plan := w.audit.plans[req];
      && req in w.audit.plans && |plan.slots| == |plan.replicas| == REPLICAS - 1
      && |plan.ring.Values| >= REPLICAS
      && forall i | 0 <= i < |plan.slots| ::
           Tag(req, i) in w.audit.heard && SlotRec(plan, Tag(req, i)) in w.audit.stored
  {
    hide MsgCounted, AckedOk, Replicas;
    var r := PeerOf(w, s).reqs[req];
    TrackedPeer(w, s);
    CountedPeer(hs, w, s);
    assert RequestTracked(w.audit, w.nextReq, s, req, r) && RequestCounted(w.audit, req, r);
    var plan := w.audit.plans[req];
    assert PlanOk(hs, plan);
    ReplicaCount(hs, plan.ring, plan.id);
    var slots := HeardSlots(w.audit.heard, req);
    forall i | i in slots ensures i < |plan.slots| {
      assert HeardOk(w.audit, w.nextReq, Tag(req, i));
    }
    AllBelow(slots, |plan.slots|);
    forall i | 0 <= i < |plan.slots| ensures Tag(req, i) in w.audit.heard {
      assert i in slots;
    }
    forall i | 0 <= i < |plan.slots| ensures SlotRec(plan, Tag(req, i)) in w.audit.stored {
      assert HeardOk(w.audit, w.nextReq, Tag(req, i));
    }
  }

  /** A write that completes was handled everywhere it had to be. */
  lemma FinishAcked(hs: Hashes, w: World, s: Uuid, req: nat, ok: bool)
    requires Tracked(w) && Counted(hs, w) && Waiting(w, s, req)
    requires ok ==> PeerOf(w, s).reqs[req].q.fired
    ensures var w' := w.(audit := RecordFinish(w.audit, s, req, PeerOf(w, s).reqs[req], ok));
      RecordsGrow(w, w') && forall a <- w'.audit.acked :: AckedOk(w'.audit, a)
  {
    hide MsgCounted, RequestCounted, PlanOk, HeardOk, OnePerSlot, Tracked;
    var w' := w.(audit := RecordFinish(w.audit, s, req, PeerOf(w, s).reqs[req], ok));
    TrackedPeer(w, s);
    assert RequestTracked(w.audit, w.nextReq, s, req, PeerOf(w, s).reqs[req]);
    SamePlans(w, w');
    forall a | a in w'.audit.acked ensures AckedOk(w'.audit, a) {
      if a in w.audit.acked {
        AckedStays(w, w', a);
      } else if req !in w.audit.repeated {
        FiredHeardAll(hs, w, s, req);
      }
    }
  }

  lemma SamePlans(w: World, w': World)
    requires w'.nextReq == w.nextReq && w'.audit.plans == w.audit.plans && w'.audit.readPlans == w.audit.readPlans
    ensures AuditGrows(w, w')
  {}

  /** Ending a request leaves the others waiting and answers only its client. */
  lemma FinishShape(cfg: Config, s: Uuid, p: PeerState, req: nat, ok: bool)
    requires req in p.reqs && p.reqs[req].q.lists != []
    ensures var reaction := Finish(cfg, s, p, req, ok);
      && reaction.peer.reqs == p.reqs - {req}
      && forall i | 0 <= i < |reaction.sends| :: !IsWriteTraffic(reaction.sends[i].msg)
  {
    hide WriteRow, Answer;
  }

  lemma FinishCounted(cfg: Config, w: World, s: Uuid, req: nat, ok: bool)
    requires Tracked(w) && Counted(cfg.hashes, w) && Waiting(w, s, req)
    requires ok ==> PeerOf(w, s).reqs[req].q.fired
    ensures Counted(cfg.hashes, ApplyFinish(cfg, w, s, req, ok))
  {
    hide MsgCounted, RequestCounted, RequestTracked, PlanOk, HeardOk, Batch, OnePerSlot, AckedOk, Finish, Answer;
    var reaction := Finish(cfg, s, PeerOf(w, s), req, ok);
    var w1 := w.(audit := RecordFinish(w.audit, s, req, PeerOf(w, s).reqs[req], ok));
    FinishAcked(cfg.hashes, w, s, req, ok);
    FinishShape(cfg, s, PeerOf(w, s), req, ok);
    CountedRecords(cfg.hashes, w, w1);
    TrackedSame(w, w1);
    TrackedPeer(w1, s);
    CountedPeer(cfg.hashes, w1, s);
    CountedSetPeer(cfg.hashes, w1, s, reaction.peer);
    TrackedSetPeer(w1, s, reaction.peer);
    CountedPostOther(cfg.hashes, SetPeer(w1, s, reaction.peer), reaction.sends);
  }

  // ---------- every step ----------

  lemma LocalCounted(hs: Hashes, w: World, s: Uuid, p: PeerState)
    requires Counted(hs, w) && p.reqs == PeerOf(w, s).reqs
    ensures Counted(hs, SetPeer(w, s, p))
  {
    hide Counted, RequestCounted;
    CountedPeer(hs, w, s);
    CountedSetPeer(hs, w, s, p);
  }

  /** Nothing started, heard or acknowledged. */
  ghost predicate SameRecords(a: Audit, a': Audit) {
    && a'.plans == a.plans && a'.readPlans == a.readPlans && a'.heard == a.heard && a'.acked == a.acked
    && a.stored <= a'.stored && a.repeated <= a'.repeated
  }

  lemma ClientStepCounted(hs: Hashes, w: World, w': World)
    requires Tracked(w) && Counted(hs, w) && w'.peers == w.peers && w'.nextReq == w.nextReq
    requires SameRecords(w.audit, w'.audit)
    requires w'.net.Keys <= w.net.Keys && forall m <- w'.net :: w'.net[m] == w.net[m]
    ensures Counted(hs, w')
  {
    hide MsgCounted, RequestCounted, HeardOk, PlanOk, AckedOk, Tracked;
    forall req | req in w'.audit.acked ensures AckedOk(w'.audit, req) { AckedStays(w, w', req); }
    CountedRecords(hs, w, w');
  }

  lemma EditCounted(hs: Hashes, w: World, c: Uuid, id: Uuid, name: string, q: nat, acquired: bool, dst: Uuid)
    requires Tracked(w) && Counted(hs, w)
    ensures Counted(hs, ApplyEdit(w, c, id, name, q, acquired, dst))
  {
    hide Counted, Tracked, Batch, EditItem, OpOf;
    var w' := ApplyEdit(w, c, id, name, q, acquired, dst);
    var w1 := w'.(net := w.net, nextMsg := w.nextMsg);
    ClientStepCounted(hs, w, w1);
    TrackedSame(w, w1);
    if EditItem(StoredItem(ClientList(w, c, id), name), q, acquired, c).Some? {
      CountedPostOther(hs, w1, [Envelope(c, dst, 0, 0, PutList(id, w'.clients[c][id]))]);
    }
  }

  lemma SendHintCounted(cfg: Config, w: World, s: Uuid, h: Hint)
    requires Tracked(w) && Counted(cfg.hashes, w) && Enabled(w, SendHint(s, h))
    ensures Counted(cfg.hashes, Apply(cfg, w, SendHint(s, h)))
  {
    hide Counted, Tracked, Batch;
    var p := PeerOf(w, s);
    var w1 := w.(nextReq := w.nextReq + 1);
    BumpCounted(cfg.hashes, w, w1);
    LocalCounted(cfg.hashes, w1, s, p.(handoffs := p.handoffs - {h}, deletes := p.deletes + {h.id}));
    LocalTracked(w1, s, p.(handoffs := p.handoffs - {h}, deletes := p.deletes + {h.id}));
    FreshPlan(w);
    CountedPostOther(cfg.hashes, SetPeer(w1, s, p.(handoffs := p.handoffs - {h}, deletes := p.deletes + {h.id})),
                     [Envelope(s, h.dest, w.nextReq, 0, ReplicateList(h.id, h.list, true))]);
  }

  lemma BumpCounted(hs: Hashes, w: World, w': World)
    requires Tracked(w) && Counted(hs, w) && w' == w.(nextReq := w.nextReq + 1)
    ensures Counted(hs, w') && Tracked(w')
  {
    hide MsgCounted, RequestCounted, PlanOk, AckedOk, RequestTracked;
    TrackedFresh(w, w');
    forall req | req in w'.audit.acked ensures AckedOk(w'.audit, req) { AckedStays(w, w', req); }
    CountedRecords(hs, w, w');
  }

  lemma PushCounted(hs: Hashes, w: World, e: Envelope)
    requires Tracked(w) && Counted(hs, w) && (e.req == 0 || !IsWriteTraffic(e.msg))
    ensures Counted(hs, Post(w, [e]))
  {
    hide Counted, Batch, MsgTracked, RequestTracked;
    CountedPostOther(hs, w, [e]);
  }

  lemma DeliverCounted(cfg: Config, w: World, m: nat, attempts: seq<Attempt>)
    requires Tracked(w) && Counted(cfg.hashes, w) && m in w.net
    ensures Counted(cfg.hashes, ApplyDeliver(cfg, w, m, attempts))
  {
    hide Counted, Tracked, ApplyDeliver;
    if FromClient(w.net[m].msg) {
      StartCounted(cfg, w, m, attempts);
    } else if !IsWriteTraffic(w.net[m].msg) {
      ReadTrafficCounted(cfg, w, m, attempts);
    } else if !w.net[m].msg.Ack? {
      WriteCounted(cfg, w, m, attempts);
    } else if Watched(w.audit, w.net[m].req) {
      AckDeliveryCounted(cfg, w, m, attempts);
    } else {
      StrayAckCounted(cfg, w, m, attempts);
    }
  }

  lemma StepCounted(cfg: Config, w: World, step: Step)
    requires Tracked(w) && Counted(cfg.hashes, w) && Enabled(w, step)
    ensures Counted(cfg.hashes, Apply(cfg, w, step))
  {
    hide ApplyDeliver, ApplyFinish, ApplyEdit, Tracked, Counted, Post, HintsOf, AddNode, RemoveNode, Fetched;
    match step {
      case Edit(c, id, name, q, acquired, dst) => EditCounted(cfg.hashes, w, c, id, name, q, acquired, dst);
      case Fetch(c, id, dst) => PushCounted(cfg.hashes, w, Envelope(c, dst, 0, 0, GetList(id, ClientList(w, c, id))));
      case ClientMerge(m) => ClientStepCounted(cfg.hashes, w, Apply(cfg, w, step));
      case Deliver(m, attempts) => DeliverCounted(cfg, w, m, attempts);
      case Complete(s, req) => FinishCounted(cfg, w, s, req, true);
      case GiveUp(s, req) => FinishCounted(cfg, w, s, req, false);
      case ScanHints(s) => LocalCounted(cfg.hashes, w, s, Apply(cfg, w, step).peers[s]);
      case SendHint(s, h) => SendHintCounted(cfg, w, s, h);
      case DeleteHinted(s, id) => DeleteCounted(cfg, w, s, id);
      case Push(s, id, dst) =>
        PushCounted(cfg.hashes, w, Envelope(s, dst, 0, 0, ReplicateList(id, PeerOf(w, s).rows[id].list, true)));
      case JoinRing(s, n) => LocalCounted(cfg.hashes, w, s, Apply(cfg, w, step).peers[s]);
      case LeaveRing(s, n) => LocalCounted(cfg.hashes, w, s, Apply(cfg, w, step).peers[s]);
      case Lose(m) => ClientStepCounted(cfg.hashes, w, Apply(cfg, w, step));
      case Duplicate(m) => DuplicateCounted(cfg, w, m);
    }
  }

  lemma DeleteCounted(cfg: Config, w: World, s: Uuid, id: Uuid)
    requires Tracked(w) && Counted(cfg.hashes, w) && Enabled(w, DeleteHinted(s, id))
    ensures Counted(cfg.hashes, Apply(cfg, w, DeleteHinted(s, id)))
  {
    hide Counted, Tracked;
    var w1 := w.(audit := RecordDeletion(w.audit, s, id));
    ClientStepCounted(cfg.hashes, w, w1);
    LocalCounted(cfg.hashes, w1, s, Apply(cfg, w, DeleteHinted(s, id)).peers[s]);
  }

  /** A duplicated message ends the claims about its own request only. */
  lemma DuplicateCounted(cfg: Config, w: World, m: nat)
    requires Tracked(w) && Counted(cfg.hashes, w) && m in w.net
    ensures Counted(cfg.hashes, Apply(cfg, w, Duplicate(m)))
  {
    hide Counted, Tracked, Batch;
    var w1 := w.(audit := w.audit.(repeated := w.audit.repeated + {w.net[m].req}));
    ClientStepCounted(cfg.hashes, w, w1);
    TrackedSame(w, w1);
    CountedPostOther(cfg.hashes, w1, [w.net[m]]);
  }

  lemma {:induction false} RunCounted(cfg: Config, steps: seq<Step>)
    ensures Tracked(Exec(cfg, steps)) && Counted(cfg.hashes, Exec(cfg, steps))
  {
    hide Apply, Enabled, Tracked;
    RunTracked(cfg, steps);
    if steps != [] {
      hide Counted;
      RunCounted(cfg, steps[..|steps| - 1]);
      var w := Exec(cfg, steps[..|steps| - 1]);
      if Enabled(w, steps[|steps| - 1]) {
        StepCounted(cfg, w, steps[|steps| - 1]);
      }
    }
  }

  // ---------- what an acknowledgement means ----------

  /** In every run, when a coordinator completes a write of which no message was duplicated, every
      replica of its preference list was answered for: the write was handled by that replica,
      or by a server given a handoff that names it; and the ring had at least three servers. */
  lemma CompletedWriteHandledByAll(cfg: Config, steps: seq<Step>, s: Uuid, req: nat)
    requires Enabled(Exec(cfg, steps), Complete(s, req)) && req !in Exec(cfg, steps).audit.repeated
    requires PeerOf(Exec(cfg, steps), s).reqs[req].kind.Write?
    ensures var w := Exec(cfg, steps);
      var r := PeerOf(w, s).reqs[req];
      && req in w.audit.plans
      && var plan := w.audit.plans[req];
         && plan.coordinator == s && plan.id == r.id && plan.list == r.list
         && |plan.ring.Values| >= REPLICAS
         && plan.replicas == Replicas(cfg.hashes, plan.ring, r.id) && |plan.slots| == |plan.replicas| == REPLICAS - 1
         && forall i | 0 <= i < |plan.replicas| ::
              && plan.slots[i].replica == plan.replicas[i]
              && StoreRec(Tag(req, i), Server(plan.slots[i]), r.id, r.list, StandsFor(plan.slots[i])) in w.audit.stored
  {
    hide Exec, Replicas, MsgCounted, HeardOk, AckedOk;
    RunCounted(cfg, steps);
    var w := Exec(cfg, steps);
    FiredHeardAll(cfg.hashes, w, s, req);
    TrackedPeer(w, s);
    assert RequestTracked(w.audit, w.nextReq, s, req, PeerOf(w, s).reqs[req]);
    assert PlanOk(cfg.hashes, w.audit.plans[req]);
  }
}

/** Request ids: which request every message and every waiting coordinator belongs to.  These
    invariants hold of every run, with or without loss and duplication. */
module RequestTracking {
  import opened Basics
  import opened CrdtValues
  import opened Quantity
  import opened History
  import opened RingMembership
  import opened Protocol
  import opened Cluster

  predicate IsWriteTraffic(m: Msg) {
    m.Ack? || m.Handoff? || (m.ReplicateList? && m.write)
  }

  predicate IsReadTraffic(m: Msg) {
    m.AckList? || (m.ReplicateList? && !m.write)
  }

  /** Read traffic carries the id of a read request and its list id; write traffic never
      carries the id of a read. */
  ghost predicate MsgTracked(a: Audit, nextReq: nat, e: Envelope) {
    && e.req < nextReq
    && (IsReadTraffic(e.msg) ==> e.req in a.readPlans && a.readPlans[e.req].id == e.msg.id)
    && (IsWriteTraffic(e.msg) ==> e.req !in a.readPlans)
  }

  /** A waiting request is the read or write recorded under its id. */
  ghost predicate RequestTracked(a: Audit, nextReq: nat, s: Uuid, req: nat, r: Request) {
    && 0 < req < nextReq && r.q.lists != []
    && (r.q.fired <==> r.q.received >= r.q.needed)
    && match r.kind
       case Read(_) =>
         && req in a.readPlans && a.readPlans[req].id == r.id && a.readPlans[req].coordinator == s && req !in a.plans
         && |r.q.lists| == r.q.received + 1 && r.q.lists[0] == r.list && r.q.needed == READ_NODES
       case Write =>
         && req in a.plans && req !in a.readPlans
         && a.plans[req].coordinator == s && a.plans[req].id == r.id && a.plans[req].list == r.list
         && a.plans[req].slots == r.slots
         && r.q.lists == [r.list] && r.q.needed == WRITE_NODES
  }

  ghost predicate Tracked(w: World) {
    && 0 < w.nextReq
    && w.audit.plans.Keys !! w.audit.readPlans.Keys
    && (forall req <- w.audit.plans :: 0 < req < w.nextReq)
    && (forall req <- w.audit.readPlans :: 0 < req < w.nextReq)
    && (forall m <- w.net :: m < w.nextMsg && MsgTracked(w.audit, w.nextReq, w.net[m]))
    && (forall s <- w.peers, req <- w.peers[s].reqs :: RequestTracked(w.audit, w.nextReq, s, req, w.peers[s].reqs[req]))
  }

  /** New ids are fresh and old records stay. */
  ghost predicate AuditGrows(w: World, w': World) {
    && w.nextReq <= w'.nextReq
    && w.audit.plans.Keys <= w'.audit.plans.Keys && (forall r <- w.audit.plans :: w'.audit.plans[r] == w.audit.plans[r])
    && w.audit.readPlans.Keys <= w'.audit.readPlans.Keys
    && (forall r <- w.audit.readPlans :: w'.audit.readPlans[r] == w.audit.readPlans[r])
    && (forall r <- w'.audit.plans :: r in w.audit.plans || w.nextReq <= r)
    && (forall r <- w'.audit.readPlans :: r in w.audit.readPlans || w.nextReq <= r)
  }

  lemma MsgStaysTracked(w: World, w': World, e: Envelope)
    requires AuditGrows(w, w') && MsgTracked(w.audit, w.nextReq, e)
    ensures MsgTracked(w'.audit, w'.nextReq, e)
  {}

  lemma RequestStaysTracked(w: World, w': World, s: Uuid, req: nat, r: Request)
    requires AuditGrows(w, w') && RequestTracked(w.audit, w.nextReq, s, req, r)
    ensures RequestTracked(w'.audit, w'.nextReq, s, req, r)
  {}

  lemma TrackedPost(w: World, sends: seq<Envelope>)
    requires Tracked(w) && forall i | 0 <= i < |sends| :: MsgTracked(w.audit, w.nextReq, sends[i])
    ensures Tracked(Post(w, sends))
  {
    hide Batch, MsgTracked, RequestTracked;
  }

  lemma TrackedSetPeer(w: World, s: Uuid, p: PeerState)
    requires Tracked(w) && forall req <- p.reqs :: RequestTracked(w.audit, w.nextReq, s, req, p.reqs[req])
    ensures Tracked(SetPeer(w, s, p))
  {
    hide MsgTracked, RequestTracked;
  }

  lemma TrackedPeer(w: World, s: Uuid)
    requires Tracked(w)
    ensures forall req <- PeerOf(w, s).reqs :: RequestTracked(w.audit, w.nextReq, s, req, PeerOf(w, s).reqs[req])
  {
    hide MsgTracked, RequestTracked;
  }

  /** Changing only the parts this invariant does not read, or removing a message. */
  lemma TrackedSame(w: World, w': World)
    requires Tracked(w) && w'.peers == w.peers && w'.nextMsg == w.nextMsg && w'.nextReq == w.nextReq
    requires w'.net.Keys <= w.net.Keys && forall m <- w'.net :: w'.net[m] == w.net[m]
    requires w'.audit.plans == w.audit.plans && w'.audit.readPlans == w.audit.readPlans
    ensures Tracked(w')
  {
    hide MsgTracked, RequestTracked;
    forall m | m in w'.net ensures MsgTracked(w'.audit, w'.nextReq, w'.net[m]) {
      assert AuditGrows(w, w');
      MsgStaysTracked(w, w', w.net[m]);
    }
    forall s, req | s in w'.peers && req in w'.peers[s].reqs
      ensures RequestTracked(w'.audit, w'.nextReq, s, req, w'.peers[s].reqs[req])
    {
      assert AuditGrows(w, w');
      RequestStaysTracked(w, w', s, req, w.peers[s].reqs[req]);
    }
  }

  /** Bumping the request counter and recording a fresh request. */
  lemma TrackedFresh(w: World, w': World)
    requires Tracked(w) && w'.peers == w.peers && w'.net == w.net && w'.nextMsg == w.nextMsg
    requires w'.nextReq == w.nextReq + 1 && AuditGrows(w, w')
    requires w'.audit.plans.Keys !! w'.audit.readPlans.Keys
    requires forall r <- w'.audit.plans :: r <= w.nextReq
    requires forall r <- w'.audit.readPlans :: r <= w.nextReq
    ensures Tracked(w')
  {
    hide MsgTracked, RequestTracked;
    forall m | m in w'.net ensures MsgTracked(w'.audit, w'.nextReq, w'.net[m]) {
      MsgStaysTracked(w, w', w.net[m]);
    }
    forall s, req | s in w'.peers && req in w'.peers[s].reqs
      ensures RequestTracked(w'.audit, w'.nextReq, s, req, w'.peers[s].reqs[req])
    {
      RequestStaysTracked(w, w', s, req, w.peers[s].reqs[req]);
    }
  }

  // ---------- steps ----------

  /** A peer's reaction to peer traffic answers under the same id. */
  lemma HandleTracked(cfg: Config, w: World, m: nat)
    requires Tracked(w) && m in w.net && !FromClient(w.net[m].msg)
    ensures var e := w.net[m];
      var r := Handle(cfg, e.dst, PeerOf(w, e.dst), e, [], w.nextReq);
      && (forall i | 0 <= i < |r.sends| :: MsgTracked(w.audit, w.nextReq, r.sends[i]))
      && (forall req <- r.peer.reqs :: RequestTracked(w.audit, w.nextReq, e.dst, req, r.peer.reqs[req]))
      && r == Handle(cfg, e.dst, PeerOf(w, e.dst), e, [], 0)
  {
    hide WriteRow, MergeMap;
    var e := w.net[m];
    TrackedPeer(w, e.dst);
    assert MsgTracked(w.audit, w.nextReq, e);
  }

  lemma HandleIgnoresAttempts(cfg: Config, me: Uuid, p: PeerState, e: Envelope, attempts: seq<Attempt>, req: nat)
    requires !FromClient(e.msg)
    ensures Handle(cfg, me, p, e, attempts, req) == Handle(cfg, me, p, e, [], req)
  {}

  /** What a coordinator's reaction to a client can be: nothing, or one new request under
      the fresh id and messages that carry it. */
  lemma StartShape(cfg: Config, s: Uuid, p: PeerState, e: Envelope, attempts: seq<Attempt>, req: nat)
    requires FromClient(e.msg)
    requires req !in p.reqs
    ensures var r := Handle(cfg, s, p, e, attempts, req);
      if req in r.peer.reqs then IsStart(s, p, e, req, r) else r == Reaction(p, [])
  {
    hide Replicas, SlotsOf;
  }

  predicate IsStart(s: Uuid, p: PeerState, e: Envelope, req: nat, r: Reaction)
    requires FromClient(e.msg) && req in r.peer.reqs
  {
    var q := r.peer.reqs[req];
    && r.peer == p.(reqs := p.reqs[req := q])
    && q.id == e.msg.id && q.list == e.msg.list && q.client == e.src
    && (q.kind.Read? ==> e.msg.id in p.rows && q.kind.row == p.rows[e.msg.id].list)
    && q.q.lists == [e.msg.list]
    && forall i | 0 <= i < |r.sends| ::
         && r.sends[i].req == req && r.sends[i].src == s && r.sends[i].slot == i
         && CarriesList(r.sends[i].msg) && r.sends[i].msg.id == e.msg.id && r.sends[i].msg.list == e.msg.list
         && (q.kind.Read? <==> IsReadTraffic(r.sends[i].msg))
         && (q.kind.Write? <==> IsWriteTraffic(r.sends[i].msg))
  }

  predicate CarriesList(m: Msg) {
    !m.Ack? && !m.ReplyNack?
  }

  lemma RecordFresh(cfg: Config, w: World, s: Uuid, r: Reaction)
    requires Tracked(w) && w.nextReq !in PeerOf(w, s).reqs
    ensures var w' := w.(nextReq := w.nextReq + 1, audit := RecordStart(w, s, r, cfg.hashes));
      Tracked(w') && AuditGrows(w, w')
  {
    hide Replicas, RequestTracked, MsgTracked;
    TrackedFresh(w, w.(nextReq := w.nextReq + 1, audit := RecordStart(w, s, r, cfg.hashes)));
  }

  lemma StartSendsTracked(cfg: Config, w: World, s: Uuid, e: Envelope, attempts: seq<Attempt>)
    requires Tracked(w) && FromClient(e.msg) && w.nextReq !in PeerOf(w, s).reqs
    ensures var r := Handle(cfg, s, PeerOf(w, s), e, attempts, w.nextReq);
      forall i | 0 <= i < |r.sends| :: MsgTracked(RecordStart(w, s, r, cfg.hashes), w.nextReq + 1, r.sends[i])
  {
    hide Handle, RequestTracked, Replicas;
    FreshRequest(w, s);
    StartShape(cfg, s, PeerOf(w, s), e, attempts, w.nextReq);
  }

  /** A coordinator's reaction to a client: at most one new request, under the fresh id. */
  lemma StartTracked(cfg: Config, w: World, s: Uuid, e: Envelope, attempts: seq<Attempt>)
    requires Tracked(w) && FromClient(e.msg)
    ensures var r := Handle(cfg, s, PeerOf(w, s), e, attempts, w.nextReq);
      var w' := w.(nextReq := w.nextReq + 1, audit := RecordStart(w, s, r, cfg.hashes));
      && Tracked(w') && AuditGrows(w, w')
      && (forall i | 0 <= i < |r.sends| :: MsgTracked(w'.audit, w'.nextReq, r.sends[i]))
      && (forall req <- r.peer.reqs :: RequestTracked(w'.audit, w'.nextReq, s, req, r.peer.reqs[req]))
  {
    hide Handle, RequestTracked, MsgTracked, RecordStart;
    var p := PeerOf(w, s);
    FreshRequest(w, s);
    var r := Handle(cfg, s, p, e, attempts, w.nextReq);
    var w' := w.(nextReq := w.nextReq + 1, audit := RecordStart(w, s, r, cfg.hashes));
    RecordFresh(cfg, w, s, r);
    StartSendsTracked(cfg, w, s, e, attempts);
    StartShape(cfg, s, p, e, attempts, w.nextReq);
    TrackedPeer(w, s);
    forall req | req in r.peer.reqs
      ensures RequestTracked(w'.audit, w'.nextReq, s, req, r.peer.reqs[req])
    {
      if req == w.nextReq {
        NewRequestTracked(cfg, w, s, e, attempts);
      } else {
        RequestStaysTracked(w, w', s, req, p.reqs[req]);
      }
    }
  }

  lemma FreshRequest(w: World, s: Uuid)
    requires Tracked(w)
    ensures w.nextReq !in PeerOf(w, s).reqs
  {
    if w.nextReq in PeerOf(w, s).reqs {
      BoundOf(w, s, w.nextReq);
    }
  }

  lemma BoundOf(w: World, s: Uuid, req: nat)
    requires Tracked(w) && req in PeerOf(w, s).reqs
    ensures req < w.nextReq
  {
    TrackedPeer(w, s);
  }

  lemma NewRequestTracked(cfg: Config, w: World, s: Uuid, e: Envelope, attempts: seq<Attempt>)
    requires Tracked(w) && FromClient(e.msg)
    requires w.nextReq !in PeerOf(w, s).reqs
    ensures var r := Handle(cfg, s, PeerOf(w, s), e, attempts, w.nextReq);
      w.nextReq in r.peer.reqs ==>
        RequestTracked(RecordStart(w, s, r, cfg.hashes), w.nextReq + 1, s, w.nextReq, r.peer.reqs[w.nextReq])
  {
    hide Replicas, SlotsOf;
  }

  lemma StartWorldTracked(cfg: Config, w: World, s: Uuid, e: Envelope, attempts: seq<Attempt>)
    requires Tracked(w) && FromClient(e.msg)
    ensures var w' := ApplyStart(cfg, w, s, Handle(cfg, s, PeerOf(w, s), e, attempts, w.nextReq));
      Tracked(w') && AuditGrows(w, w')
  {
    hide Handle, Tracked, MsgTracked, RequestTracked, Batch, RecordStart;
    StartTracked(cfg, w, s, e, attempts);
    var r := Handle(cfg, s, PeerOf(w, s), e, attempts, w.nextReq);
    var w2 := w.(nextReq := w.nextReq + 1, audit := RecordStart(w, s, r, cfg.hashes));
    TrackedSetPeer(w2, s, r.peer);
    TrackedPost(SetPeer(w2, s, r.peer), r.sends);
  }

  lemma DeliverStartTracked(cfg: Config, w: World, m: nat, attempts: seq<Attempt>)
    requires Tracked(w) && m in w.net && FromClient(w.net[m].msg)
    ensures Tracked(ApplyDeliver(cfg, w, m, attempts)) && AuditGrows(w, ApplyDeliver(cfg, w, m, attempts))
  {
    hide Handle, Tracked, ApplyStart;
    var w1 := w.(net := w.net - {m});
    TrackedSame(w, w1);
    StartWorldTracked(cfg, w1, w.net[m].dst, w.net[m], attempts);
  }

  lemma DeliveryKeepsPlans(a: Audit, e: Envelope, rows: Rows)
    ensures var a' := RecordDelivery(a, e, rows); a'.plans == a.plans && a'.readPlans == a.readPlans
  {}

  lemma DeliverPeerTracked(cfg: Config, w: World, m: nat, attempts: seq<Attempt>)
    requires Tracked(w) && m in w.net && !FromClient(w.net[m].msg)
    ensures Tracked(ApplyDeliver(cfg, w, m, attempts)) && AuditGrows(w, ApplyDeliver(cfg, w, m, attempts))
  {
    hide Handle, MsgTracked, RequestTracked, Batch, RecordDelivery;
    var e := w.net[m];
    HandleTracked(cfg, w, m);
    DeliveryKeepsPlans(w.audit, e, PeerOf(w, e.dst).rows);
    HandleIgnoresAttempts(cfg, e.dst, PeerOf(w, e.dst), e, attempts, w.nextReq);
    var r := Handle(cfg, e.dst, PeerOf(w, e.dst), e, attempts, w.nextReq);
    var w2 := ApplyDeliver(cfg, w, m, attempts).(peers := w.peers, net := w.net - {m}, nextMsg := w.nextMsg);
    TrackedSame(w, w2);
    SameAudit(w, w2, e.dst, r);
    TrackedSetPeer(w2, e.dst, r.peer);
    TrackedPost(SetPeer(w2, e.dst, r.peer), r.sends);
  }

  lemma DeliverTracked(cfg: Config, w: World, m: nat, attempts: seq<Attempt>)
    requires Tracked(w) && m in w.net
    ensures Tracked(ApplyDeliver(cfg, w, m, attempts)) && AuditGrows(w, ApplyDeliver(cfg, w, m, attempts))
  {
    hide *;
    if FromClient(w.net[m].msg) {
      DeliverStartTracked(cfg, w, m, attempts);
    } else {
      DeliverPeerTracked(cfg, w, m, attempts);
    }
  }

  /** Tracking reads only the plans and reads of the audit. */
  lemma SameAudit(w: World, w': World, s: Uuid, r: Reaction)
    requires w'.nextReq == w.nextReq
    requires w'.audit.plans == w.audit.plans && w'.audit.readPlans == w.audit.readPlans
    requires forall i | 0 <= i < |r.sends| :: MsgTracked(w.audit, w.nextReq, r.sends[i])
    requires forall req <- r.peer.reqs :: RequestTracked(w.audit, w.nextReq, s, req, r.peer.reqs[req])
    ensures forall i | 0 <= i < |r.sends| :: MsgTracked(w'.audit, w'.nextReq, r.sends[i])
    ensures forall req <- r.peer.reqs :: RequestTracked(w'.audit, w'.nextReq, s, req, r.peer.reqs[req])
  {}

  lemma FinishTracked(cfg: Config, w: World, s: Uuid, req: nat, ok: bool)
    requires Tracked(w) && Waiting(w, s, req)
    ensures Tracked(ApplyFinish(cfg, w, s, req, ok)) && AuditGrows(w, ApplyFinish(cfg, w, s, req, ok))
  {
    hide WriteRow, Answer, RequestTracked, Batch;
    var reaction := Finish(cfg, s, PeerOf(w, s), req, ok);
    var w2 := ApplyFinish(cfg, w, s, req, ok).(peers := w.peers, net := w.net, nextMsg := w.nextMsg);
    TrackedSame(w, w2);
    TrackedPeer(w2, s);
    TrackedSetPeer(w2, s, reaction.peer);
    TrackedPost(SetPeer(w2, s, reaction.peer), reaction.sends);
  }

  lemma LocalTracked(w: World, s: Uuid, p: PeerState)
    requires Tracked(w) && p.reqs == PeerOf(w, s).reqs
    ensures Tracked(SetPeer(w, s, p)) && AuditGrows(w, SetPeer(w, s, p))
  {
    hide MsgTracked, RequestTracked;
    TrackedPeer(w, s);
    TrackedSetPeer(w, s, p);
  }

  lemma SendTracked(w: World, e: Envelope)
    requires Tracked(w) && MsgTracked(w.audit, w.nextReq, e)
    ensures Tracked(Post(w, [e])) && AuditGrows(w, Post(w, [e]))
  {
    hide MsgTracked, RequestTracked, Batch;
    TrackedPost(w, [e]);
  }

  lemma EditTracked(w: World, c: Uuid, id: Uuid, name: string, q: nat, acquired: bool, dst: Uuid)
    requires Tracked(w)
    ensures Tracked(ApplyEdit(w, c, id, name, q, acquired, dst))
    ensures AuditGrows(w, ApplyEdit(w, c, id, name, q, acquired, dst))
  {
    hide MsgTracked, RequestTracked, Batch, EditItem, OpOf;
    var w' := ApplyEdit(w, c, id, name, q, acquired, dst);
    var w1 := w'.(net := w.net, nextMsg := w.nextMsg);
    TrackedSame(w, w1);
    if EditItem(StoredItem(ClientList(w, c, id), name), q, acquired, c).Some? {
      var e := Envelope(c, dst, 0, 0, PutList(id, w'.clients[c][id]));
      assert MsgTracked(w1.audit, w1.nextReq, e) by { PutTracked(w1, e); }
      SendTracked(w1, e);
    }
  }

  lemma PutTracked(w: World, e: Envelope)
    requires Tracked(w) && e.req == 0 && !IsReadTraffic(e.msg)
    ensures MsgTracked(w.audit, w.nextReq, e)
  {}

  lemma SendHintTracked(w: World, s: Uuid, h: Hint)
    requires Tracked(w)
    ensures var p := PeerOf(w, s);
      var w' := Post(SetPeer(w.(nextReq := w.nextReq + 1), s,
                             p.(handoffs := p.handoffs - {h}, deletes := p.deletes + {h.id})),
                     [Envelope(s, h.dest, w.nextReq, 0, ReplicateList(h.id, h.list, true))]);
      Tracked(w') && AuditGrows(w, w')
  {
    hide RequestTracked, Batch;
    var p := PeerOf(w, s);
    var w1 := w.(nextReq := w.nextReq + 1);
    TrackedFresh(w, w1);
    var w2 := SetPeer(w1, s, p.(handoffs := p.handoffs - {h}, deletes := p.deletes + {h.id}));
    LocalTracked(w1, s, w2.peers[s]);
    SendTracked(w2, Envelope(s, h.dest, w.nextReq, 0, ReplicateList(h.id, h.list, true)));
  }

  lemma StepTracked(cfg: Config, w: World, step: Step)
    requires Tracked(w) && Enabled(w, step)
    ensures Tracked(Apply(cfg, w, step)) && AuditGrows(w, Apply(cfg, w, step))
  {
    hide ApplyDeliver, ApplyFinish, ApplyEdit, Tracked, MsgTracked, RequestTracked, Post, HintsOf, AddNode,
         RemoveNode, Fetched;
    match step {
      case Edit(c, id, name, q, acquired, dst) => EditTracked(w, c, id, name, q, acquired, dst);
      case Fetch(c, id, dst) =>
        PutTracked(w, Envelope(c, dst, 0, 0, GetList(id, ClientList(w, c, id))));
        SendTracked(w, Envelope(c, dst, 0, 0, GetList(id, ClientList(w, c, id))));
      case ClientMerge(m) => TrackedSame(w, Apply(cfg, w, step));
      case Deliver(m, attempts) => DeliverTracked(cfg, w, m, attempts);
      case Complete(s, req) => FinishTracked(cfg, w, s, req, true);
      case GiveUp(s, req) => FinishTracked(cfg, w, s, req, false);
      case ScanHints(s) => LocalTracked(w, s, Apply(cfg, w, step).peers[s]);
      case SendHint(s, h) => SendHintTracked(w, s, h);
      case DeleteHinted(s, id) =>
        TrackedSame(w, w.(audit := RecordDeletion(w.audit, s, id)));
        LocalTracked(w.(audit := RecordDeletion(w.audit, s, id)), s, Apply(cfg, w, step).peers[s]);
      case Push(s, id, dst) =>
        PutTracked(w, Envelope(s, dst, 0, 0, ReplicateList(id, PeerOf(w, s).rows[id].list, true)));
        SendTracked(w, Envelope(s, dst, 0, 0, ReplicateList(id, PeerOf(w, s).rows[id].list, true)));
      case JoinRing(s, n) => LocalTracked(w, s, Apply(cfg, w, step).peers[s]);
      case LeaveRing(s, n) => LocalTracked(w, s, Apply(cfg, w, step).peers[s]);
      case Lose(m) => TrackedSame(w, Apply(cfg, w, step));
      case Duplicate(m) => DuplicateTracked(cfg, w, m);
    }
  }

  lemma DuplicateTracked(cfg: Config, w: World, m: nat)
    requires Tracked(w) && m in w.net
    ensures Tracked(Apply(cfg, w, Duplicate(m))) && AuditGrows(w, Apply(cfg, w, Duplicate(m)))
  {
    hide Tracked, MsgTracked, Batch;
    var w1 := w.(audit := w.audit.(repeated := w.audit.repeated + {w.net[m].req}));
    TrackedSame(w, w1);
    MsgInNet(w1, m);
    SendTracked(w1, w.net[m]);
  }

  lemma MsgInNet(w: World, m: nat)
    requires Tracked(w) && m in w.net
    ensures m < w.nextMsg && MsgTracked(w.audit, w.nextReq, w.net[m])
  {}

  /** In every reachable state every message and every waiting request belongs to the request
      recorded under its id. */
  lemma {:induction false} RunTracked(cfg: Config, steps: seq<Step>)
    ensures Tracked(Exec(cfg, steps))
  {
    if steps != [] {
      RunTracked(cfg, steps[..|steps| - 1]);
      var w := Exec(cfg, steps[..|steps| - 1]);
      if Enabled(w, steps[|steps| - 1]) {
        StepTracked(cfg, w, steps[|steps| - 1]);
      }
    }
  }
}

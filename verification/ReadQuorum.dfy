/** What a completed read proves.  Replies are counted like acknowledgements; for a read none of
    whose own messages the network duplicated, each replica's slot is counted at most once.  The
    quorum of a read is as large as its set of replicas, so a completed read has heard every one
    of them, and its answer contains what each of them held when it answered. */
module ReadQuorum {
  import opened Basics
  import opened CrdtValues
  import opened Quantity
  import opened History
  import opened RingMembership
  import opened Protocol
  import opened Cluster
  import opened RequestTracking
  import opened WriteQuorum

  /** A planned read no message of which was duplicated. */
  predicate WatchedRead(a: Audit, req: nat) {
    req in a.readPlans && req !in a.repeated
  }

  /** A message of a watched read serves one slot, not yet counted; a reply is what the slot's
      replica answered. */
  ghost predicate ReadMsgOk(a: Audit, e: Envelope) {
    IsReadTraffic(e.msg) && WatchedRead(a, e.req) ==>
      var plan, t := a.readPlans[e.req], Tag(e.req, e.slot);
      && e.slot < |plan.replicas| && t !in a.heardReads && e.msg.id == plan.id
      && (if e.msg.AckList?
          then e.dst == plan.coordinator && AnswerRec(t, plan.replicas[e.slot], plan.id, e.msg.list) in a.answered
          else e.src == plan.coordinator && e.dst == plan.replicas[e.slot])
  }

  /** The reply of a counted slot is among the collected lists. */
  ghost predicate Collected(a: Audit, plan: ReadPlan, t: Tag, lists: seq<ItemMap>) {
    t.slot < |plan.replicas|
    && exists rec <- a.answered ::
         rec.tag == t && rec.server == plan.replicas[t.slot] && rec.id == plan.id && rec.list in lists
  }

  ghost predicate ReadReqOk(a: Audit, req: nat, r: Request) {
    r.kind.Read? && WatchedRead(a, req) ==>
      && r.q.received == |HeardSlots(a.heardReads, req)|
      && forall t <- a.heardReads | t.req == req :: Collected(a, a.readPlans[req], t, r.q.lists)
  }

  ghost predicate ReadPlanOk(hs: Hashes, plan: ReadPlan) {
    plan.replicas == Replicas(hs, plan.ring, plan.id)
  }

  ghost predicate OneReplyPerSlot(w: World) {
    forall m1, m2 | m1 in w.net && m2 in w.net && m1 != m2
                 && IsReadTraffic(w.net[m1].msg) && IsReadTraffic(w.net[m2].msg)
                 && WatchedRead(w.audit, w.net[m1].req) ::
      Tag(w.net[m1].req, w.net[m1].slot) != Tag(w.net[m2].req, w.net[m2].slot)
  }

  ghost predicate RepliesCounted(hs: Hashes, w: World) {
    && OneReplyPerSlot(w)
    && (forall m <- w.net :: ReadMsgOk(w.audit, w.net[m]))
    && (forall s <- w.peers, req <- w.peers[s].reqs :: ReadReqOk(w.audit, req, w.peers[s].reqs[req]))
    && (forall req <- w.audit.readPlans :: ReadPlanOk(hs, w.audit.readPlans[req]))
    && (forall t <- w.audit.heardReads :: t.req < w.nextReq)
  }

  // ---------- small steps ----------

  /** Only additions to the records, no reply newly counted. */
  ghost predicate ReadsGrow(w: World, w': World) {
    && AuditGrows(w, w') && w'.audit.heardReads == w.audit.heardReads && w.audit.answered <= w'.audit.answered
    && w.audit.repeated <= w'.audit.repeated
  }

  lemma ReadMsgStays(w: World, w': World, e: Envelope)
    requires ReadsGrow(w, w') && ReadMsgOk(w.audit, e) && e.req < w.nextReq
    ensures ReadMsgOk(w'.audit, e)
  {}

  lemma ReadReqStays(w: World, w': World, req: nat, r: Request)
    requires ReadsGrow(w, w') && ReadReqOk(w.audit, req, r) && req < w.nextReq
    ensures ReadReqOk(w'.audit, req, r)
  {}

  lemma RepliesRecords(hs: Hashes, w: World, w': World)
    requires RepliesCounted(hs, w) && Tracked(w) && ReadsGrow(w, w') && w'.peers == w.peers
    requires w'.net.Keys <= w.net.Keys && forall m <- w'.net :: w'.net[m] == w.net[m]
    requires forall req <- w'.audit.readPlans :: ReadPlanOk(hs, w'.audit.readPlans[req])
    ensures RepliesCounted(hs, w')
  {
    hide ReadMsgOk, ReadReqOk, RequestTracked, MsgTracked, ReadPlanOk;
    forall m | m in w'.net ensures ReadMsgOk(w'.audit, w'.net[m]) {
      ReqBound(w, m);
      ReadMsgStays(w, w', w.net[m]);
    }
    forall s, req | s in w'.peers && req in w'.peers[s].reqs ensures ReadReqOk(w'.audit, req, w'.peers[s].reqs[req]) {
      BoundOf(w, s, req);
      ReadReqStays(w, w', req, w.peers[s].reqs[req]);
    }
    forall m1, m2 | m1 in w'.net && m2 in w'.net && m1 != m2
                 && IsReadTraffic(w'.net[m1].msg) && IsReadTraffic(w'.net[m2].msg)
                 && WatchedRead(w'.audit, w'.net[m1].req)
      ensures Tag(w'.net[m1].req, w'.net[m1].slot) != Tag(w'.net[m2].req, w'.net[m2].slot)
    {
      ReqBound(w, m1);
    }
  }

  lemma RepliesSetPeer(hs: Hashes, w: World, s: Uuid, p: PeerState)
    requires RepliesCounted(hs, w) && forall req <- p.reqs :: ReadReqOk(w.audit, req, p.reqs[req])
    ensures RepliesCounted(hs, SetPeer(w, s, p))
  {
    hide ReadMsgOk, ReadReqOk, ReadPlanOk;
  }

  lemma RepliesPeer(hs: Hashes, w: World, s: Uuid)
    requires RepliesCounted(hs, w)
    ensures forall req <- PeerOf(w, s).reqs :: ReadReqOk(w.audit, req, PeerOf(w, s).reqs[req])
  {
    hide ReadMsgOk, ReadReqOk, ReadPlanOk;
  }

  lemma PostedOneReply(w: World, sends: seq<Envelope>)
    requires OneReplyPerSlot(w)
    requires forall i, j | 0 <= i < j < |sends| && IsReadTraffic(sends[i].msg) && IsReadTraffic(sends[j].msg) ::
      Tag(sends[i].req, sends[i].slot) != Tag(sends[j].req, sends[j].slot)
    requires forall i, m | 0 <= i < |sends| && IsReadTraffic(sends[i].msg) && WatchedRead(w.audit, sends[i].req)
                        && m in w.net && IsReadTraffic(w.net[m].msg) ::
      Tag(w.net[m].req, w.net[m].slot) != Tag(sends[i].req, sends[i].slot)
    ensures OneReplyPerSlot(Post(w, sends))
  {
    hide Batch, IsReadTraffic;
    var w' := Post(w, sends);
    PostedMessages(w, sends);
    assert w'.audit == w.audit;
    hide Post;
    forall m1, m2 | m1 in w'.net && m2 in w'.net && m1 != m2
                 && IsReadTraffic(w'.net[m1].msg) && IsReadTraffic(w'.net[m2].msg)
                 && WatchedRead(w'.audit, w'.net[m1].req)
      ensures Tag(w'.net[m1].req, w'.net[m1].slot) != Tag(w'.net[m2].req, w'.net[m2].slot)
    {
      if m1 in w.net && w'.net[m1] == w.net[m1] {
        if m2 in w.net && w'.net[m2] == w.net[m2] {
        } else {
          assert w'.net[m2] == sends[m2 - w.nextMsg];
        }
      } else if m2 in w.net && w'.net[m2] == w.net[m2] {
        assert w'.net[m1] == sends[m1 - w.nextMsg];
      } else {
        var i, j := m1 - w.nextMsg, m2 - w.nextMsg;
        assert w'.net[m1] == sends[i] && w'.net[m2] == sends[j];
        assert i < j || j < i;
      }
    }
  }

  lemma RepliesPost(hs: Hashes, w: World, sends: seq<Envelope>)
    requires RepliesCounted(hs, w)
    requires forall i | 0 <= i < |sends| :: ReadMsgOk(w.audit, sends[i])
    requires forall i, j | 0 <= i < j < |sends| && IsReadTraffic(sends[i].msg) && IsReadTraffic(sends[j].msg) ::
      Tag(sends[i].req, sends[i].slot) != Tag(sends[j].req, sends[j].slot)
    requires forall i, m | 0 <= i < |sends| && IsReadTraffic(sends[i].msg) && WatchedRead(w.audit, sends[i].req)
                        && m in w.net && IsReadTraffic(w.net[m].msg) ::
      Tag(w.net[m].req, w.net[m].slot) != Tag(sends[i].req, sends[i].slot)
    ensures RepliesCounted(hs, Post(w, sends))
  {
    hide ReadMsgOk, ReadReqOk, ReadPlanOk, Batch, OneReplyPerSlot;
    PostedMessages(w, sends);
    PostedOneReply(w, sends);
  }

  /** Posting messages that serve no watched read. */
  lemma RepliesPostOther(hs: Hashes, w: World, e: Envelope)
    requires RepliesCounted(hs, w) && (IsReadTraffic(e.msg) ==> !WatchedRead(w.audit, e.req))
    ensures RepliesCounted(hs, Post(w, [e]))
  {
    hide RepliesCounted, Batch;
    RepliesPost(hs, w, [e]);
  }

  // ---------- deliveries ----------

  /** A replica answers with its row, or not at all. */
  lemma AnswerCounted(cfg: Config, w: World, m: nat, attempts: seq<Attempt>)
    requires Tracked(w) && RepliesCounted(cfg.hashes, w) && m in w.net
    requires w.net[m].msg.ReplicateList? && !w.net[m].msg.write
    ensures RepliesCounted(cfg.hashes, ApplyDeliver(cfg, w, m, attempts))
  {
    hide Handle, ReadMsgOk, ReadReqOk, ReadPlanOk, Batch, Tracked, OneReplyPerSlot, RecordDelivery;
    var e := w.net[m];
    var p := PeerOf(w, e.dst);
    var r := Handle(cfg, e.dst, p, e, attempts, w.nextReq);
    AnswerReaction(cfg, w.audit, p, e, attempts, w.nextReq);
    var w1 := w.(net := w.net - {m}, audit := RecordDelivery(w.audit, e, p.rows));
    SameGrowth(w, w1);
    RepliesRecords(cfg.hashes, w, w1);
    RepliesPeer(cfg.hashes, w1, e.dst);
    RepliesSetPeer(cfg.hashes, w1, e.dst, r.peer);
    ReadMsgAt(cfg.hashes, w, m);
    if e.msg.id in p.rows {
      ReplyOk(w.audit, e, p.rows);
      OnlyReply(w, m);
    }
    RepliesPost(cfg.hashes, SetPeer(w1, e.dst, r.peer), r.sends);
  }

  lemma SameGrowth(w: World, w': World)
    requires w'.nextReq == w.nextReq && w'.audit.plans == w.audit.plans && w'.audit.readPlans == w.audit.readPlans
    requires w'.audit.heardReads == w.audit.heardReads && w.audit.answered <= w'.audit.answered
    requires w.audit.repeated <= w'.audit.repeated
    ensures ReadsGrow(w, w')
  {}

  lemma AnswerReaction(cfg: Config, a: Audit, p: PeerState, e: Envelope, attempts: seq<Attempt>, req: nat)
    requires e.msg.ReplicateList? && !e.msg.write
    ensures var r, a' := Handle(cfg, e.dst, p, e, attempts, req), RecordDelivery(a, e, p.rows);
      && r.peer == p
      && r.sends == (if e.msg.id in p.rows
                     then [Envelope(e.dst, e.src, e.req, e.slot, AckList(e.msg.id, p.rows[e.msg.id].list))] else [])
      && a' == a.(answered := a'.answered) && a.answered <= a'.answered
  {}

  lemma ReadMsgAt(hs: Hashes, w: World, m: nat)
    requires RepliesCounted(hs, w) && m in w.net
    ensures ReadMsgOk(w.audit, w.net[m])
  {
    hide ReadMsgOk;
  }

  lemma ReplyOk(a: Audit, e: Envelope, rows: Rows)
    requires e.msg.ReplicateList? && !e.msg.write && ReadMsgOk(a, e) && e.msg.id in rows
    ensures ReadMsgOk(RecordDelivery(a, e, rows),
                      Envelope(e.dst, e.src, e.req, e.slot, AckList(e.msg.id, rows[e.msg.id].list)))
  {}

  /** No other message in flight serves the slot of this one. */
  lemma OnlyReply(w: World, m: nat)
    requires OneReplyPerSlot(w) && m in w.net && IsReadTraffic(w.net[m].msg)
    ensures WatchedRead(w.audit, w.net[m].req) ==>
      forall m2 | m2 in w.net && m2 != m && IsReadTraffic(w.net[m2].msg) ::
        Tag(w.net[m2].req, w.net[m2].slot) != Tag(w.net[m].req, w.net[m].slot)
  {}

  /** Counting one reply, at a request that waits for it. */
  lemma ReplyCounted(hs: Hashes, w: World, m: nat, s: Uuid, req: nat)
    requires Tracked(w) && RepliesCounted(hs, w) && m in w.net && w.net[m].msg.AckList?
    requires req in PeerOf(w, s).reqs && (req == w.net[m].req && WatchedRead(w.audit, req) ==> s == w.net[m].dst)
    ensures var e := w.net[m];
      var r := PeerOf(w, s).reqs[req];
      var r' := if req == e.req && s == e.dst then r.(q := CountList(r.q, e.msg.list)) else r;
      ReadReqOk(RecordDelivery(w.audit, e, PeerOf(w, e.dst).rows), req, r')
  {
    hide ReadPlanOk, HeardSlots, OneReplyPerSlot, Collected;
    var e := w.net[m];
    var r := PeerOf(w, s).reqs[req];
    var t := Tag(e.req, e.slot);
    RepliesPeer(hs, w, s);
    ReadMsgAt(hs, w, m);
    SlotsUnaffected(w.audit.heardReads, t, req);
    if r.kind.Read? && WatchedRead(w.audit, req) {
      var a, plan := RecordDelivery(w.audit, e, PeerOf(w, e.dst).rows), w.audit.readPlans[req];
      if req == e.req {
        HeardOnce(w.audit.heardReads, t, req);
        assert Collected(a, plan, t, r.q.lists + [e.msg.list]) by {
          CollectNow(a, plan, t, r.q.lists, e.msg.list);
        }
      }
      forall u | u in w.audit.heardReads && u.req == req
        ensures Collected(a, plan, u, r.q.lists) && Collected(a, plan, u, r.q.lists + [e.msg.list])
      {
        CollectMore(w.audit, a, plan, u, r.q.lists, e.msg.list);
      }
    }
  }

  lemma CollectNow(a: Audit, plan: ReadPlan, t: Tag, lists: seq<ItemMap>, list: ItemMap)
    requires t.slot < |plan.replicas| && AnswerRec(t, plan.replicas[t.slot], plan.id, list) in a.answered
    ensures Collected(a, plan, t, lists + [list])
  {
    assert list in lists + [list];
  }

  lemma CollectMore(a: Audit, a': Audit, plan: ReadPlan, t: Tag, lists: seq<ItemMap>, list: ItemMap)
    requires Collected(a, plan, t, lists) && a'.answered == a.answered
    ensures Collected(a', plan, t, lists) && Collected(a', plan, t, lists + [list])
  {}

  lemma ReplyDelivered(cfg: Config, w: World, m: nat, attempts: seq<Attempt>)
    requires Tracked(w) && RepliesCounted(cfg.hashes, w) && m in w.net && w.net[m].msg.AckList?
    ensures RepliesCounted(cfg.hashes, ApplyDeliver(cfg, w, m, attempts))
  {
    hide ReadMsgOk, ReadReqOk, ReadPlanOk, Batch, Tracked, CountList;
    var e := w.net[m];
    var w' := ApplyDeliver(cfg, w, m, attempts);
    assert w'.net == w.net - {m};
    OnlyReply(w, m);
    forall k | k in w'.net ensures ReadMsgOk(w'.audit, w'.net[k]) {
      OtherMsgOk(cfg.hashes, w, m, k);
    }
    forall s, req | s in w'.peers && req in w'.peers[s].reqs ensures ReadReqOk(w'.audit, req, w'.peers[s].reqs[req]) {
      if req == e.req && WatchedRead(w.audit, req) {
        OneCoordinator(cfg.hashes, w, m, s);
      }
      ReplyCounted(cfg.hashes, w, m, s, req);
    }
    forall t | t in w'.audit.heardReads ensures t.req < w'.nextReq {
      ReqBound(w, m);
    }
  }

  lemma OneCoordinator(hs: Hashes, w: World, m: nat, s: Uuid)
    requires Tracked(w) && RepliesCounted(hs, w) && m in w.net && w.net[m].msg.AckList?
    requires w.net[m].req in PeerOf(w, s).reqs && WatchedRead(w.audit, w.net[m].req)
    ensures s == w.net[m].dst
  {
    hide ReadReqOk, ReadPlanOk, OneReplyPerSlot;
    ReadMsgAt(hs, w, m);
    TrackedPeer(w, s);
    assert RequestTracked(w.audit, w.nextReq, s, w.net[m].req, PeerOf(w, s).reqs[w.net[m].req]);
  }

  lemma OtherMsgOk(hs: Hashes, w: World, m: nat, k: nat)
    requires RepliesCounted(hs, w) && m in w.net && k in w.net && k != m && w.net[m].msg.AckList?
    ensures ReadMsgOk(RecordDelivery(w.audit, w.net[m], PeerOf(w, w.net[m].dst).rows), w.net[k])
  {
    hide ReadReqOk, ReadPlanOk;
    ReadMsgAt(hs, w, k);
    OnlyReply(w, m);
  }

  /** Write traffic is no part of what is recorded of reads. */
  lemma WriteTrafficRecords(a: Audit, e: Envelope, rows: Rows)
    requires !FromClient(e.msg) && !IsReadTraffic(e.msg)
    ensures var a' := RecordDelivery(a, e, rows);
      && a'.readPlans == a.readPlans && a'.plans == a.plans && a'.heardReads == a.heardReads
      && a'.answered == a.answered && a'.repeated == a.repeated
  {}

  /** It answers no read, and changes at most the request it acknowledges. */
  lemma WriteTrafficRequests(cfg: Config, p: PeerState, e: Envelope, attempts: seq<Attempt>, req: nat)
    requires !FromClient(e.msg) && !IsReadTraffic(e.msg)
    ensures var r := Handle(cfg, e.dst, p, e, attempts, req);
      && (forall i | 0 <= i < |r.sends| :: !IsReadTraffic(r.sends[i].msg))
      && (forall k <- r.peer.reqs :: k in p.reqs && r.peer.reqs[k].kind == p.reqs[k].kind
                                  && ((k == e.req && e.msg.Ack?) || r.peer.reqs[k] == p.reqs[k]))
  {
    hide WriteRow, MergeMap, StartWrite, StartRead;
  }

  lemma SameReadRecords(a: Audit, a': Audit, k: nat, before: Request, after: Request)
    requires ReadReqOk(a, k, before) && a'.readPlans == a.readPlans && a'.heardReads == a.heardReads
    requires a'.answered == a.answered && a'.repeated == a.repeated
    requires after.kind.Write? || after == before
    ensures ReadReqOk(a', k, after)
  {
    hide HeardSlots;
  }

  /** Messages of writes, and merges, change no waiting read and send no read traffic. */
  lemma WriteTrafficReaction(cfg: Config, a: Audit, p: PeerState, e: Envelope, attempts: seq<Attempt>, req: nat)
    requires !FromClient(e.msg) && !IsReadTraffic(e.msg)
    requires forall k <- p.reqs :: ReadReqOk(a, k, p.reqs[k]) && (k == e.req && e.msg.Ack? ==> p.reqs[k].kind.Write?)
    ensures var r, a' := Handle(cfg, e.dst, p, e, attempts, req), RecordDelivery(a, e, p.rows);
      && (forall i | 0 <= i < |r.sends| :: !IsReadTraffic(r.sends[i].msg))
      && (forall k <- r.peer.reqs :: ReadReqOk(a', k, r.peer.reqs[k]))
      && a'.readPlans == a.readPlans && a'.plans == a.plans && a'.heardReads == a.heardReads
      && a'.answered == a.answered && a'.repeated == a.repeated
  {
    hide Handle, RecordDelivery, ReadReqOk;
    var r, a' := Handle(cfg, e.dst, p, e, attempts, req), RecordDelivery(a, e, p.rows);
    WriteTrafficRecords(a, e, p.rows);
    WriteTrafficRequests(cfg, p, e, attempts, req);
    forall k | k in r.peer.reqs ensures ReadReqOk(a', k, r.peer.reqs[k]) {
      SameReadRecords(a, a', k, p.reqs[k], r.peer.reqs[k]);
    }
  }

  lemma WriteTrafficKeeps(cfg: Config, w: World, m: nat, attempts: seq<Attempt>)
    requires Tracked(w) && RepliesCounted(cfg.hashes, w) && m in w.net
    requires !FromClient(w.net[m].msg) && !IsReadTraffic(w.net[m].msg)
    ensures RepliesCounted(cfg.hashes, ApplyDeliver(cfg, w, m, attempts))
  {
    hide Handle, ReadMsgOk, ReadReqOk, ReadPlanOk, Batch, Tracked, OneReplyPerSlot, RecordDelivery, RequestTracked;
    var e := w.net[m];
    var p := PeerOf(w, e.dst);
    var r := Handle(cfg, e.dst, p, e, attempts, w.nextReq);
    RepliesPeer(cfg.hashes, w, e.dst);
    AckedIsWrite(w, m);
    WriteTrafficReaction(cfg, w.audit, p, e, attempts, w.nextReq);
    var w1 := w.(net := w.net - {m}, audit := RecordDelivery(w.audit, e, p.rows));
    SameGrowth(w, w1);
    RepliesRecords(cfg.hashes, w, w1);
    RepliesSetPeer(cfg.hashes, w1, e.dst, r.peer);
    forall i | 0 <= i < |r.sends| ensures ReadMsgOk(w1.audit, r.sends[i]) { NotReadOk(w1.audit, r.sends[i]); }
    RepliesPost(cfg.hashes, SetPeer(w1, e.dst, r.peer), r.sends);
  }

  lemma NotReadOk(a: Audit, e: Envelope)
    requires !IsReadTraffic(e.msg)
    ensures ReadMsgOk(a, e)
  {}

  lemma AckedIsWrite(w: World, m: nat)
    requires Tracked(w) && m in w.net
    ensures var e := w.net[m];
      e.msg.Ack? && e.req in PeerOf(w, e.dst).reqs ==> PeerOf(w, e.dst).reqs[e.req].kind.Write?
  {
    MsgInNet(w, m);
    TrackedPeer(w, w.net[m].dst);
  }

  // ---------- starting a request ----------

  /** What the start of a read sends. */
  lemma StartReadShape(hs: Hashes, s: Uuid, p: PeerState, client: Uuid, id: Uuid, list: ItemMap, req: nat)
    requires id in p.rows
    ensures var r, replicas := StartRead(hs, s, p, client, id, list, req), Replicas(hs, p.ring, id);
      if replicas == [] then r == Reaction(p, [])
      else
        && r.peer == p.(reqs := p.reqs[req := Request(client, id, list, Read(p.rows[id].list), [],
                                                      NewQuorum(READ_NODES, list))])
        && |r.sends| == |replicas|
        && forall i | 0 <= i < |r.sends| :: r.sends[i].slot == i && r.sends[i].dst == replicas[i]
  {
    hide Replicas;
  }

  lemma StartWriteSends(hs: Hashes, s: Uuid, p: PeerState, client: Uuid, id: Uuid, list: ItemMap,
                        attempts: seq<Attempt>, req: nat)
    ensures var r := StartWrite(hs, s, p, client, id, list, attempts, req);
      && (forall i | 0 <= i < |r.sends| :: !IsReadTraffic(r.sends[i].msg))
      && (r.peer == p || (req in r.peer.reqs && r.peer.reqs[req].kind.Write? && r.peer.reqs[req].q.received == 0))
  {
    hide Replicas, SlotsOf;
  }

  /** What a started read records and sends. */
  lemma StartReadPlan(cfg: Config, w: World, s: Uuid, e: Envelope, attempts: seq<Attempt>)
    requires FromClient(e.msg) && w.nextReq !in PeerOf(w, s).reqs && w.nextReq !in w.audit.readPlans
    ensures var r := Handle(cfg, s, PeerOf(w, s), e, attempts, w.nextReq);
      var a := RecordStart(w, s, r, cfg.hashes);
      && (w.nextReq !in a.readPlans ==> forall i | 0 <= i < |r.sends| :: !IsReadTraffic(r.sends[i].msg))
      && (w.nextReq in a.readPlans ==>
            var plan := a.readPlans[w.nextReq];
            && ReadPlanOk(cfg.hashes, plan) && plan.coordinator == s && plan.id == e.msg.id
            && |r.sends| == |plan.replicas|
            && forall i | 0 <= i < |r.sends| :: r.sends[i].slot == i && r.sends[i].dst == plan.replicas[i])
      && (w.nextReq in r.peer.reqs ==> r.peer.reqs[w.nextReq].q.received == 0)
  {
    hide Replicas, StartWrite, StartRead;
    var p := PeerOf(w, s);
    if e.msg.GetList? && e.msg.id in p.rows {
      StartReadShape(cfg.hashes, s, p, e.src, e.msg.id, e.msg.list, w.nextReq);
    } else {
      StartWriteSends(cfg.hashes, s, p, e.src, e.msg.id, e.msg.list, attempts, w.nextReq);
    }
  }

  lemma ReadStartKeeps(cfg: Config, w: World, s: Uuid, r: Reaction)
    ensures var a := RecordStart(w, s, r, cfg.hashes);
      && a.heardReads == w.audit.heardReads && a.answered == w.audit.answered && a.repeated == w.audit.repeated
      && (forall req <- a.readPlans ::
            req == w.nextReq || (req in w.audit.readPlans && a.readPlans[req] == w.audit.readPlans[req]))
  {}

  lemma NoReplyYet(hs: Hashes, w: World)
    requires RepliesCounted(hs, w)
    ensures HeardSlots(w.audit.heardReads, w.nextReq) == {}
    ensures forall t <- w.audit.heardReads :: t.req != w.nextReq
  {
    hide ReadMsgOk, ReadReqOk, ReadPlanOk, OneReplyPerSlot;
  }

  lemma NewReadOk(a: Audit, req: nat, r: Request)
    requires HeardSlots(a.heardReads, req) == {} && r.q.received == 0 && forall t <- a.heardReads :: t.req != req
    ensures ReadReqOk(a, req, r)
  {}

  lemma NewSendOk(a: Audit, s: Uuid, e: Envelope)
    requires e.req in a.readPlans && a.readPlans[e.req].coordinator == s == e.src && !e.msg.AckList?
    requires CarriesList(e.msg) && e.msg.id == a.readPlans[e.req].id
    requires e.slot < |a.readPlans[e.req].replicas| && e.dst == a.readPlans[e.req].replicas[e.slot]
    requires forall t <- a.heardReads :: t.req != e.req
    ensures ReadMsgOk(a, e)
  {}

  lemma StartReplies(cfg: Config, w: World, s: Uuid, e: Envelope, attempts: seq<Attempt>)
    requires Tracked(w) && RepliesCounted(cfg.hashes, w) && FromClient(e.msg)
    ensures RepliesCounted(cfg.hashes, ApplyStart(cfg, w, s, Handle(cfg, s, PeerOf(w, s), e, attempts, w.nextReq)))
  {
    hide Handle, ReadMsgOk, ReadReqOk, ReadPlanOk, Batch, Tracked, MsgTracked, RequestTracked, RecordStart,
         HeardSlots, OneReplyPerSlot;
    var p := PeerOf(w, s);
    var r := Handle(cfg, s, p, e, attempts, w.nextReq);
    var w2 := w.(nextReq := w.nextReq + 1, audit := RecordStart(w, s, r, cfg.hashes));
    FreshRequest(w, s);
    FreshPlan(w);
    RecordFresh(cfg, w, s, r);
    StartShape(cfg, s, p, e, attempts, w.nextReq);
    StartReadPlan(cfg, w, s, e, attempts);
    ReadStartKeeps(cfg, w, s, r);
    RepliesRecords(cfg.hashes, w, w2);
    NoReplyYet(cfg.hashes, w);
    RepliesPeer(cfg.hashes, w2, s);
    forall req | req in r.peer.reqs ensures ReadReqOk(w2.audit, req, r.peer.reqs[req]) {
      if req == w.nextReq { NewReadOk(w2.audit, req, r.peer.reqs[req]); }
    }
    RepliesSetPeer(cfg.hashes, w2, s, r.peer);
    forall i | 0 <= i < |r.sends| ensures ReadMsgOk(w2.audit, r.sends[i]) {
      StartSendOk(cfg, w, s, e, attempts, i);
    }
    forall i, m | 0 <= i < |r.sends| && m in w2.net ensures w2.net[m].req != r.sends[i].req {
      ReqBound(w, m);
    }
    RepliesPost(cfg.hashes, SetPeer(w2, s, r.peer), r.sends);
  }

  lemma StartSendOk(cfg: Config, w: World, s: Uuid, e: Envelope, attempts: seq<Attempt>, i: nat)
    requires Tracked(w) && RepliesCounted(cfg.hashes, w) && FromClient(e.msg)
    requires i < |Handle(cfg, s, PeerOf(w, s), e, attempts, w.nextReq).sends|
    ensures var r := Handle(cfg, s, PeerOf(w, s), e, attempts, w.nextReq);
      ReadMsgOk(RecordStart(w, s, r, cfg.hashes), r.sends[i])
  {
    hide Handle, ReadMsgOk, ReadReqOk, ReadPlanOk, Tracked, MsgTracked, RequestTracked, RecordStart,
         HeardSlots, OneReplyPerSlot, RepliesCounted;
    var r := Handle(cfg, s, PeerOf(w, s), e, attempts, w.nextReq);
    var a := RecordStart(w, s, r, cfg.hashes);
    FreshRequest(w, s);
    FreshPlan(w);
    StartShape(cfg, s, PeerOf(w, s), e, attempts, w.nextReq);
    StartReadPlan(cfg, w, s, e, attempts);
    ReadStartKeeps(cfg, w, s, r);
    NoReplyYet(cfg.hashes, w);
    if w.nextReq in a.readPlans && !r.sends[i].msg.AckList? {
      NewSendOk(a, s, r.sends[i]);
    } else {
      StartSendsNoReply(cfg, s, PeerOf(w, s), e, attempts, w.nextReq, i);
      NotReadOk(a, r.sends[i]);
    }
  }

  lemma StartSendsNoReply(cfg: Config, s: Uuid, p: PeerState, e: Envelope, attempts: seq<Attempt>, req: nat, i: nat)
    requires FromClient(e.msg) && i < |Handle(cfg, s, p, e, attempts, req).sends|
    ensures !Handle(cfg, s, p, e, attempts, req).sends[i].msg.AckList?
  {
    hide Replicas, SlotsOf;
  }

  // ---------- every step ----------

  /** Nothing about reads is recorded but duplication. */
  ghost predicate SameReads(a: Audit, a': Audit) {
    && a'.plans == a.plans && a'.readPlans == a.readPlans && a'.heardReads == a.heardReads
    && a'.answered == a.answered && a.repeated <= a'.repeated
  }

  lemma QuietReplies(hs: Hashes, w: World, w': World)
    requires Tracked(w) && RepliesCounted(hs, w) && w'.peers == w.peers && w.nextReq <= w'.nextReq
    requires SameReads(w.audit, w'.audit)
    requires w'.net.Keys <= w.net.Keys && forall m <- w'.net :: w'.net[m] == w.net[m]
    ensures RepliesCounted(hs, w')
  {
    hide ReadMsgOk, ReadReqOk, ReadPlanOk, Tracked, OneReplyPerSlot;
    RepliesRecords(hs, w, w');
  }

  lemma LocalReplies(hs: Hashes, w: World, s: Uuid, p: PeerState)
    requires RepliesCounted(hs, w) && p.reqs.Keys <= PeerOf(w, s).reqs.Keys
    requires forall req <- p.reqs :: p.reqs[req] == PeerOf(w, s).reqs[req]
    ensures RepliesCounted(hs, SetPeer(w, s, p))
  {
    hide RepliesCounted, ReadReqOk;
    RepliesPeer(hs, w, s);
    RepliesSetPeer(hs, w, s, p);
  }

  lemma EditReplies(hs: Hashes, w: World, c: Uuid, id: Uuid, name: string, q: nat, acquired: bool, dst: Uuid)
    requires Tracked(w) && RepliesCounted(hs, w)
    ensures RepliesCounted(hs, ApplyEdit(w, c, id, name, q, acquired, dst))
  {
    hide RepliesCounted, Tracked, Batch, EditItem, OpOf;
    var w' := ApplyEdit(w, c, id, name, q, acquired, dst);
    var w1 := w'.(net := w.net, nextMsg := w.nextMsg);
    QuietReplies(hs, w, w1);
    if EditItem(StoredItem(ClientList(w, c, id), name), q, acquired, c).Some? {
      RepliesPostOther(hs, w1, Envelope(c, dst, 0, 0, PutList(id, w'.clients[c][id])));
    }
  }

  lemma SendHintReplies(cfg: Config, w: World, s: Uuid, h: Hint)
    requires Tracked(w) && RepliesCounted(cfg.hashes, w) && Enabled(w, SendHint(s, h))
    ensures RepliesCounted(cfg.hashes, Apply(cfg, w, SendHint(s, h)))
  {
    hide RepliesCounted, Tracked, Batch;
    var p := PeerOf(w, s);
    var p' := p.(handoffs := p.handoffs - {h}, deletes := p.deletes + {h.id});
    var w1 := w.(nextReq := w.nextReq + 1);
    QuietReplies(cfg.hashes, w, w1);
    LocalReplies(cfg.hashes, w1, s, p');
    RepliesPostOther(cfg.hashes, SetPeer(w1, s, p'),
                     Envelope(s, h.dest, w.nextReq, 0, ReplicateList(h.id, h.list, true)));
  }

  lemma FinishReplies(cfg: Config, w: World, s: Uuid, req: nat, ok: bool)
    requires Tracked(w) && RepliesCounted(cfg.hashes, w) && Waiting(w, s, req)
    ensures RepliesCounted(cfg.hashes, ApplyFinish(cfg, w, s, req, ok))
  {
    hide RepliesCounted, Tracked, Batch, Finish, Answer, ReadMsgOk;
    var reaction := Finish(cfg, s, PeerOf(w, s), req, ok);
    var w1 := w.(audit := RecordFinish(w.audit, s, req, PeerOf(w, s).reqs[req], ok));
    QuietReplies(cfg.hashes, w, w1);
    FinishSends(cfg, s, PeerOf(w, s), req, ok);
    LocalReplies(cfg.hashes, w1, s, reaction.peer);
    RepliesPostOther(cfg.hashes, SetPeer(w1, s, reaction.peer), reaction.sends[0]);
    assert reaction.sends == [reaction.sends[0]];
  }

  lemma FinishSends(cfg: Config, s: Uuid, p: PeerState, req: nat, ok: bool)
    requires req in p.reqs && p.reqs[req].q.lists != []
    ensures var r := Finish(cfg, s, p, req, ok);
      r.peer.reqs == p.reqs - {req} && |r.sends| == 1 && !IsReadTraffic(r.sends[0].msg)
  {
    hide WriteRow, Answer;
  }

  lemma DeliverReplies(cfg: Config, w: World, m: nat, attempts: seq<Attempt>)
    requires Tracked(w) && RepliesCounted(cfg.hashes, w) && m in w.net
    ensures RepliesCounted(cfg.hashes, ApplyDeliver(cfg, w, m, attempts))
  {
    hide RepliesCounted, Tracked, Handle, ApplyStart;
    if FromClient(w.net[m].msg) {
      var w1 := w.(net := w.net - {m});
      TrackedSame(w, w1);
      QuietReplies(cfg.hashes, w, w1);
      StartReplies(cfg, w1, w.net[m].dst, w.net[m], attempts);
    } else if !IsReadTraffic(w.net[m].msg) {
      WriteTrafficKeeps(cfg, w, m, attempts);
    } else if w.net[m].msg.AckList? {
      ReplyDelivered(cfg, w, m, attempts);
    } else {
      AnswerCounted(cfg, w, m, attempts);
    }
  }

  lemma StepReplies(cfg: Config, w: World, step: Step)
    requires Tracked(w) && RepliesCounted(cfg.hashes, w) && Enabled(w, step)
    ensures RepliesCounted(cfg.hashes, Apply(cfg, w, step))
  {
    hide ApplyDeliver, ApplyFinish, ApplyEdit, Tracked, RepliesCounted, Post, HintsOf, AddNode, RemoveNode, Fetched;
    match step {
      case Edit(c, id, name, q, acquired, dst) => EditReplies(cfg.hashes, w, c, id, name, q, acquired, dst);
      case Fetch(c, id, dst) =>
        RepliesPostOther(cfg.hashes, w, Envelope(c, dst, 0, 0, GetList(id, ClientList(w, c, id))));
      case ClientMerge(m) => QuietReplies(cfg.hashes, w, Apply(cfg, w, step));
      case Deliver(m, attempts) => DeliverReplies(cfg, w, m, attempts);
      case Complete(s, req) => FinishReplies(cfg, w, s, req, true);
      case GiveUp(s, req) => FinishReplies(cfg, w, s, req, false);
      case ScanHints(s) => LocalReplies(cfg.hashes, w, s, Apply(cfg, w, step).peers[s]);
      case SendHint(s, h) => SendHintReplies(cfg, w, s, h);
      case DeleteHinted(s, id) =>
        var w1 := w.(audit := RecordDeletion(w.audit, s, id));
        QuietReplies(cfg.hashes, w, w1);
        LocalReplies(cfg.hashes, w1, s, Apply(cfg, w, step).peers[s]);
      case Push(s, id, dst) =>
        RepliesPostOther(cfg.hashes, w, Envelope(s, dst, 0, 0, ReplicateList(id, PeerOf(w, s).rows[id].list, true)));
      case JoinRing(s, n) => LocalReplies(cfg.hashes, w, s, Apply(cfg, w, step).peers[s]);
      case LeaveRing(s, n) => LocalReplies(cfg.hashes, w, s, Apply(cfg, w, step).peers[s]);
      case Lose(m) => QuietReplies(cfg.hashes, w, Apply(cfg, w, step));
      case Duplicate(m) =>
        var w1 := w.(audit := w.audit.(repeated := w.audit.repeated + {w.net[m].req}));
        QuietReplies(cfg.hashes, w, w1);
        RepliesPostOther(cfg.hashes, w1, w.net[m]);
    }
  }

  lemma {:induction false} RunReplies(cfg: Config, steps: seq<Step>)
    ensures RepliesCounted(cfg.hashes, Exec(cfg, steps))
  {
    hide Apply, Enabled, Tracked;
    if steps != [] {
      hide RepliesCounted;
      RunTracked(cfg, steps[..|steps| - 1]);
      RunReplies(cfg, steps[..|steps| - 1]);
      var w := Exec(cfg, steps[..|steps| - 1]);
      if Enabled(w, steps[|steps| - 1]) {
        StepReplies(cfg, w, steps[|steps| - 1]);
      }
    }
  }

  // ---------- what a completed read has heard ----------

  /** In every run, when a read completes of which no message was duplicated, both of its replicas
      have answered with a list that is among those merged into the answer; and its ring had at
      least three servers. */
  lemma CompletedReadHeardAll(cfg: Config, steps: seq<Step>, s: Uuid, req: nat)
    requires Enabled(Exec(cfg, steps), Complete(s, req)) && req !in Exec(cfg, steps).audit.repeated
    requires PeerOf(Exec(cfg, steps), s).reqs[req].kind.Read?
    ensures var w := Exec(cfg, steps);
      var r := PeerOf(w, s).reqs[req];
      && req in w.audit.readPlans
      && var plan := w.audit.readPlans[req];
         && plan.coordinator == s && plan.id == r.id && |plan.ring.Values| >= REPLICAS
         && plan.replicas == Replicas(cfg.hashes, plan.ring, r.id) && |plan.replicas| == REPLICAS - 1
         && forall i | 0 <= i < |plan.replicas| :: Collected(w.audit, plan, Tag(req, i), r.q.lists)
  {
    hide Exec, Replicas, ReadMsgOk, OneReplyPerSlot, Collected;
    var w := Exec(cfg, steps);
    var r := PeerOf(w, s).reqs[req];
    RunReplies(cfg, steps);
    RunTracked(cfg, steps);
    TrackedPeer(w, s);
    RepliesPeer(cfg.hashes, w, s);
    assert RequestTracked(w.audit, w.nextReq, s, req, r);
    var plan := w.audit.readPlans[req];
    assert ReadPlanOk(cfg.hashes, plan);
    ReplicaCount(cfg.hashes, plan.ring, plan.id);
    HeardEverySlot(w.audit, plan, req, r.q.lists);
  }

  lemma HeardEverySlot(a: Audit, plan: ReadPlan, req: nat, lists: seq<ItemMap>)
    requires forall t <- a.heardReads | t.req == req :: Collected(a, plan, t, lists)
    requires |HeardSlots(a.heardReads, req)| >= READ_NODES && |plan.replicas| <= REPLICAS - 1
    ensures |plan.replicas| == REPLICAS - 1
    ensures forall i | 0 <= i < |plan.replicas| :: Collected(a, plan, Tag(req, i), lists)
  {
    var slots := HeardSlots(a.heardReads, req);
    forall i | i in slots ensures i < |plan.replicas| {
      assert Collected(a, plan, Tag(req, i), lists);
    }
    AllBelow(slots, |plan.replicas|);
    forall i | 0 <= i < |plan.replicas| ensures Collected(a, plan, Tag(req, i), lists) {
      assert i in slots;
    }
  }
}

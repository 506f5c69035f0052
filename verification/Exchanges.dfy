/** Messages and their answers, two or three steps at a time: what a write, a read and a returned
    handoff have done by the time they are answered. */
module Exchanges {
  import opened Basics
  import opened CrdtValues
  import opened RingValues
  import opened Protocol
  import opened Cluster
  import opened RequestTracking
  import opened ClusterHistory
  import opened Growth
  import opened HintedHandoff
  import opened Carried
  import ServerObjects

  // ---------- one delivery ----------

  /** The row a write leaves behind. */
  ghost predicate Wrote(policy: Policy, rows: Rows, rows': Rows, id: Uuid, list: ItemMap, hint: Option<Uuid>) {
    && id in rows' && rows' - {id} == rows - {id} && rows'[id].hint == hint
    && rows'[id].list == if policy.Merged? && id in rows then MergeMap(rows[id].list, list) else list
  }

  /** A server takes a write or a handoff and acknowledges it. */
  lemma WriteTaken(cfg: Config, w: World, m: nat)
    requires m in w.net && (w.net[m].msg.Handoff? || (w.net[m].msg.ReplicateList? && w.net[m].msg.write))
    ensures Enabled(w, Deliver(m, []))
    ensures var e, w' := w.net[m], Apply(cfg, w, Deliver(m, []));
      var p, p' := PeerOf(w, e.dst), PeerOf(w', e.dst);
      && Wrote(cfg.policy, p.rows, p'.rows, e.msg.id, e.msg.list,
               if e.msg.Handoff? then Some(e.msg.original) else None)
      && p' == p.(rows := p'.rows) && (forall n: Uuid | n != e.dst :: PeerOf(w', n) == PeerOf(w, n))
      && w'.net == (w.net - {m})[w.nextMsg := Envelope(e.dst, e.src, e.req, e.slot, Ack)]
      && w'.nextMsg == w.nextMsg + 1
  {
    hide Post, StartWrite, StartRead, MergeMap, RecordStart, RecordDelivery;
    var e := w.net[m];
    var r := Handle(cfg, e.dst, PeerOf(w, e.dst), e, [], w.nextReq);
    var audit := RecordDelivery(w.audit, e, PeerOf(w, e.dst).rows);
    PostedOne(SetPeer(w.(net := w.net - {m}, audit := audit), e.dst, r.peer),
              Envelope(e.dst, e.src, e.req, e.slot, Ack));
  }

  /** A server answers a read with its row; without a row it does not answer. */
  lemma ReadTaken(cfg: Config, w: World, m: nat)
    requires m in w.net && w.net[m].msg.ReplicateList? && !w.net[m].msg.write
    ensures Enabled(w, Deliver(m, []))
    ensures var e, w' := w.net[m], Apply(cfg, w, Deliver(m, []));
      var rows := PeerOf(w, e.dst).rows;
      && (forall n: Uuid :: PeerOf(w', n) == PeerOf(w, n))
      && (e.msg.id in rows ==>
            && w'.net == (w.net - {m})[w.nextMsg := Envelope(e.dst, e.src, e.req, e.slot,
                                                             AckList(e.msg.id, rows[e.msg.id].list))]
            && w'.nextMsg == w.nextMsg + 1)
      && (e.msg.id !in rows ==> w'.net == w.net - {m} && w'.nextMsg == w.nextMsg)
  {
    hide Post, StartWrite, StartRead, MergeMap, RecordStart, RecordDelivery;
    var e := w.net[m];
    var p := PeerOf(w, e.dst);
    var w1 := SetPeer(w.(net := w.net - {m}, audit := RecordDelivery(w.audit, e, p.rows)), e.dst, p);
    if e.msg.id in p.rows {
      PostedOne(w1, Envelope(e.dst, e.src, e.req, e.slot, AckList(e.msg.id, p.rows[e.msg.id].list)));
    } else {
      PostedNone(w1);
    }
  }

  lemma PostedNone(w: World)
    ensures Post(w, []) == w
  {
    assert w.net + map[] == w.net;
  }

  /** A coordinator counts an answer to a request it waits on. */
  lemma AnswerTaken(cfg: Config, w: World, m: nat)
    requires m in w.net && (w.net[m].msg.Ack? || w.net[m].msg.AckList?) && w.net[m].req in PeerOf(w, w.net[m].dst).reqs
    ensures Enabled(w, Deliver(m, []))
    ensures var e, w' := w.net[m], Apply(cfg, w, Deliver(m, []));
      var p, p' := PeerOf(w, e.dst), PeerOf(w', e.dst);
      var q := p.reqs[e.req].q;
      var q' := Quorum(q.needed, q.received + 1, q.fired || q.received + 1 >= q.needed,
                       if e.msg.Ack? then q.lists else q.lists + [e.msg.list]);
      && p' == p.(reqs := p.reqs[e.req := p.reqs[e.req].(q := q')])
      && (forall n: Uuid | n != e.dst :: PeerOf(w', n) == PeerOf(w, n))
      && w'.net == w.net - {m} && w'.nextMsg == w.nextMsg
  {
    hide Post, StartWrite, StartRead, MergeMap, RecordStart, RecordDelivery, WriteRow;
    var e := w.net[m];
    var r := Handle(cfg, e.dst, PeerOf(w, e.dst), e, [], w.nextReq);
    var audit := RecordDelivery(w.audit, e, PeerOf(w, e.dst).rows);
    PostedNone(SetPeer(w.(net := w.net - {m}, audit := audit), e.dst, r.peer));
  }

  // ---------- there and back ----------

  /** The request counts one more answer, and this list if there is one. */
  ghost predicate CountsAnswer(reqs: map<nat, Request>, reqs': map<nat, Request>, req: nat, list: Option<ItemMap>) {
    && req in reqs && req in reqs' && reqs' - {req} == reqs - {req}
    && var q, q' := reqs[req].q, reqs'[req].q;
       && reqs'[req] == reqs[req].(q := q') && q'.needed == q.needed && q'.received == q.received + 1
       && (q'.fired <==> q.fired || q.received + 1 >= q.needed)
       && q'.lists == if list.None? then q.lists else q.lists + [list.value]
  }

  /** A write or a handoff and its acknowledgement: the receiver has the list, marked with the hint of
      a handoff and of nothing else, and the coordinator has counted one more answer. */
  lemma WriteExchange(cfg: Config, w: World, m: nat)
    requires Tracked(w) && m in w.net
    requires w.net[m].msg.Handoff? || (w.net[m].msg.ReplicateList? && w.net[m].msg.write)
    requires w.net[m].src != w.net[m].dst && w.net[m].req in PeerOf(w, w.net[m].src).reqs
    ensures var e := w.net[m];
      var w' := ExecFrom(cfg, w, [Deliver(m, [])] + [Deliver(w.nextMsg, [])]);
      && Wrote(cfg.policy, PeerOf(w, e.dst).rows, PeerOf(w', e.dst).rows, e.msg.id, e.msg.list,
               if e.msg.Handoff? then Some(e.msg.original) else None)
      && CountsAnswer(PeerOf(w, e.src).reqs, PeerOf(w', e.src).reqs, e.req, None)
      && PeerOf(w', e.src).rows == PeerOf(w, e.src).rows && w'.net == w.net - {m}
  {
    hide Apply, Tracked, ExecFrom, Wrote, Enabled;
    var e := w.net[m];
    OldMessages(w);
    WriteTaken(cfg, w, m);
    var w1 := Apply(cfg, w, Deliver(m, []));
    AnswerTaken(cfg, w1, w.nextMsg);
    ExecCons(cfg, w, Deliver(m, []), [Deliver(w.nextMsg, [])]);
    ExecOne(cfg, w1, Deliver(w.nextMsg, []));
    assert w1.net - {w.nextMsg} == w.net - {m};
  }

  /** A read and its answer: the coordinator has counted one more answer and has the replica's row
      among its lists; nobody's rows have changed. */
  lemma ReadExchange(cfg: Config, w: World, m: nat)
    requires Tracked(w) && m in w.net && w.net[m].msg.ReplicateList? && !w.net[m].msg.write
    requires w.net[m].msg.id in PeerOf(w, w.net[m].dst).rows && w.net[m].req in PeerOf(w, w.net[m].src).reqs
    ensures var e := w.net[m];
      var w' := ExecFrom(cfg, w, [Deliver(m, [])] + [Deliver(w.nextMsg, [])]);
      && CountsAnswer(PeerOf(w, e.src).reqs, PeerOf(w', e.src).reqs, e.req,
                      Some(PeerOf(w, e.dst).rows[e.msg.id].list))
      && (forall n: Uuid :: PeerOf(w', n).rows == PeerOf(w, n).rows) && w'.net == w.net - {m}
  {
    hide Apply, Tracked, ExecFrom, Enabled;
    OldMessages(w);
    ReadTaken(cfg, w, m);
    var w1 := Apply(cfg, w, Deliver(m, []));
    AnswerTaken(cfg, w1, w.nextMsg);
    ExecCons(cfg, w, Deliver(m, []), [Deliver(w.nextMsg, [])]);
    ExecOne(cfg, w1, Deliver(w.nextMsg, []));
    assert w1.net - {w.nextMsg} == w.net - {m};
  }

  /** A handoff pass and its delivery: a row marked for another server is on that server, without a
      hint, and gone from its holder. */
  lemma HandoffComesHome(cfg: Config, w: World, s: Uuid, id: Uuid)
    requires Tracked(w) && PeerOf(w, s).deletes == {}
    requires id in PeerOf(w, s).rows && PeerOf(w, s).rows[id].hint.Some? && PeerOf(w, s).rows[id].hint != Some(s)
    ensures var row := PeerOf(w, s).rows[id];
      var h := Hint(row.hint.value, id, row.list);
      var pass := [ScanHints(s)] + ([SendHint(s, h)] + ([DeleteHinted(s, id)] + [Deliver(w.nextMsg, [])]));
      var w' := ExecFrom(cfg, w, pass);
      && id !in PeerOf(w', s).rows
      && Wrote(cfg.policy, PeerOf(w, h.dest).rows, PeerOf(w', h.dest).rows, id, row.list, None)
  {
    hide Apply, Tracked, ExecFrom, Wrote, HintsOf, Enabled;
    var row := PeerOf(w, s).rows[id];
    var h := Hint(row.hint.value, id, row.list);
    OldMessages(w);
    HintIsRow(PeerOf(w, s).rows, h);
    PassEnabled(w, s, h);
    ScanReadsHints(cfg, w, s);
    ScanChangesNothing(cfg, w, s);
    var w1 := Apply(cfg, w, ScanHints(s));
    PassEnabled(w1, s, h);
    SentCopy(cfg, w1, s, h);
    var w2 := Apply(cfg, w1, SendHint(s, h));
    PassEnabled(w2, s, h);
    RowDeleted(cfg, w2, s, id);
    var w3 := Apply(cfg, w2, DeleteHinted(s, id));
    WriteTaken(cfg, w3, w.nextMsg);
    ExecCons(cfg, w, ScanHints(s), [SendHint(s, h)] + ([DeleteHinted(s, id)] + [Deliver(w.nextMsg, [])]));
    ExecCons(cfg, w1, SendHint(s, h), [DeleteHinted(s, id)] + [Deliver(w.nextMsg, [])]);
    ExecCons(cfg, w2, DeleteHinted(s, id), [Deliver(w.nextMsg, [])]);
    ExecOne(cfg, w3, Deliver(w.nextMsg, []));
  }

  lemma PassEnabled(w: World, s: Uuid, h: Hint)
    ensures Enabled(w, ScanHints(s)) <==> PeerOf(w, s).deletes == {}
    ensures Enabled(w, SendHint(s, h)) <==> h in PeerOf(w, s).handoffs
    ensures Enabled(w, DeleteHinted(s, h.id)) <==> h.id in PeerOf(w, s).deletes
  {}

  lemma ScanChangesNothing(cfg: Config, w: World, s: Uuid)
    requires Enabled(w, ScanHints(s))
    ensures var w' := Apply(cfg, w, ScanHints(s));
      w'.net == w.net && w'.nextMsg == w.nextMsg && forall t: Uuid :: PeerOf(w', t).rows == PeerOf(w, t).rows
  {
    hide HintsOf;
  }

  // ---------- leaving ----------

  /** With merged rows, each message of a server that leaves, once delivered, leaves the row of the
      server it goes to at or above the row that was handed over. */
  lemma LeavingRowArrives(cfg: Config, w: World, ring: Ring, me: Uuid, rows: Rows, sends: set<Envelope>, m: nat)
    requires cfg.policy.Merged? && Tracked(w) && HistoryInv(w) && m in w.net && w.net[m] in sends
    requires ServerObjects.HandsOver(cfg.hashes, ring, me, rows, sends)
    ensures var e := w.net[m];
      && e.msg.ReplicateList? && e.msg.id in rows && FirstMet(ring, cfg.hashes.list(e.msg.id), [], e.dst)
      && Holds(Apply(cfg, w, Deliver(m, [])), e.dst, e.msg.id, rows[e.msg.id].list)
  {
    hide Tracked, HistoryInv, FirstMet, Apply;
    DeliverStores(cfg, w, m, []);
  }
}

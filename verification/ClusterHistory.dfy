/** Every copy of every item, anywhere in the system, is the effect of a prefix-closed set of
    client operations; and each client's own copy holds all of its own operations.  These hold
    for both row policies and survive loss, reordering and duplication of messages. */
module ClusterHistory {
  import opened Basics
  import opened CrdtValues
  import opened Quantity
  import opened History
  import opened RingMembership
  import opened Protocol
  import opened Cluster
  import opened RequestTracking

  // ---------- a property of every list in the system ----------

  type Good = iset<(Uuid, ItemMap)>

  ghost predicate Closed(good: Good) {
    && (forall id: Uuid :: (id, map[]) in good)
    && (forall id, x, y | (id, x) in good && (id, y) in good :: (id, MergeMap(x, y)) in good)
  }

  ghost predicate MsgOk(m: Msg, good: Good) {
    CarriesList(m) ==> (m.id, m.list) in good
  }

  ghost predicate RequestOk(r: Request, good: Good) {
    && (r.id, r.list) in good
    && (r.kind.Read? ==> (r.id, r.kind.row) in good)
    && (forall i | 0 <= i < |r.q.lists| :: (r.id, r.q.lists[i]) in good)
  }

  ghost predicate PeerOk(p: PeerState, good: Good) {
    && (forall id <- p.rows :: (id, p.rows[id].list) in good)
    && (forall r <- p.reqs :: RequestOk(p.reqs[r], good))
    && (forall h <- p.handoffs :: (h.id, h.list) in good)
  }

  /** Every list stored by a client or a server, held in a request, or in flight. */
  ghost predicate Everywhere(w: World, good: Good) {
    && (forall c <- w.clients, id <- w.clients[c] :: (id, w.clients[c][id]) in good)
    && (forall s <- w.peers :: PeerOk(w.peers[s], good))
    && (forall m <- w.net :: MsgOk(w.net[m].msg, good))
  }

  lemma EverywherePost(w: World, sends: seq<Envelope>, good: Good)
    requires Everywhere(w, good) && forall i | 0 <= i < |sends| :: MsgOk(sends[i].msg, good)
    ensures Everywhere(Post(w, sends), good)
  {
    hide Batch, MsgOk, PeerOk;
  }

  lemma EverywhereSetPeer(w: World, s: Uuid, p: PeerState, good: Good)
    requires Everywhere(w, good) && PeerOk(p, good)
    ensures Everywhere(SetPeer(w, s, p), good)
  {
    hide MsgOk, PeerOk;
  }

  lemma EverywhereSetList(w: World, c: Uuid, id: Uuid, list: ItemMap, good: Good)
    requires Everywhere(w, good) && (id, list) in good
    ensures Everywhere(SetClientList(w, c, id, list), good)
  {
    hide MsgOk, PeerOk;
  }

  lemma EverywhereSame(w: World, w': World, good: Good)
    requires Everywhere(w, good) && w'.peers == w.peers && w'.clients == w.clients
    requires w'.net.Keys <= w.net.Keys && forall m <- w'.net :: w'.net[m] == w.net[m]
    ensures Everywhere(w', good)
  {
    hide MsgOk, PeerOk;
  }

  lemma PeerIsOk(w: World, s: Uuid, good: Good)
    requires Everywhere(w, good)
    ensures PeerOk(PeerOf(w, s), good)
  {}

  lemma ListIsOk(w: World, c: Uuid, id: Uuid, good: Good)
    requires Everywhere(w, good) && Closed(good)
    ensures (id, ClientList(w, c, id)) in good
  {}

  // ---------- every step but an edit only copies and merges ----------

  lemma {:induction false} FoldOk(id: Uuid, lists: seq<ItemMap>, good: Good)
    requires Closed(good) && lists != [] && forall i | 0 <= i < |lists| :: (id, lists[i]) in good
    ensures (id, FoldMerge(lists)) in good
  {
    if |lists| > 1 {
      FoldOk(id, lists[..|lists| - 1], good);
    }
  }

  lemma WriteRowOk(policy: Policy, p: PeerState, id: Uuid, list: ItemMap, hint: Option<Uuid>, good: Good)
    requires Closed(good) && PeerOk(p, good) && (id, list) in good
    ensures PeerOk(p.(rows := WriteRow(policy, p.rows, id, list, hint)), good)
  {
    hide MergeMap, RequestOk;
  }

  lemma QuorumOk(p: PeerState, req: nat, q: Quorum, good: Good)
    requires PeerOk(p, good) && req in p.reqs
    requires forall i | 0 <= i < |q.lists| :: (p.reqs[req].id, q.lists[i]) in good
    ensures PeerOk(UpdateQuorum(p, req, q), good)
  {}

  lemma HandleOk(cfg: Config, w: World, m: nat, good: Good)
    requires Tracked(w) && m in w.net && !FromClient(w.net[m].msg)
    requires Closed(good) && Everywhere(w, good)
    ensures var e := w.net[m];
      var r := Handle(cfg, e.dst, PeerOf(w, e.dst), e, [], w.nextReq);
      PeerOk(r.peer, good) && forall i | 0 <= i < |r.sends| :: MsgOk(r.sends[i].msg, good)
  {
    hide WriteRow, MergeMap;
    var e := w.net[m];
    var p := PeerOf(w, e.dst);
    PeerIsOk(w, e.dst, good);
    assert MsgOk(e.msg, good);
    match e.msg {
      case ReplicateList(id, list, true) => WriteRowOk(cfg.policy, p, id, list, None, good);
      case Handoff(id, list, original) => WriteRowOk(cfg.policy, p, id, list, Some(original), good);
      case MergeList(id, list) =>
        WriteRowOk(cfg.policy, p, id, if id in p.rows then MergeMap(p.rows[id].list, list) else list, None, good);
      case Ack =>
        if e.req in p.reqs { QuorumOk(p, e.req, CountAck(p.reqs[e.req].q), good); }
      case AckList(id, list) =>
        if e.req in p.reqs {
          TrackedPeer(w, e.dst);
          MsgInNet(w, m);
          QuorumOk(p, e.req, CountList(p.reqs[e.req].q, list), good);
        }
      case _ =>
    }
  }

  lemma StartOk(cfg: Config, s: Uuid, p: PeerState, e: Envelope, attempts: seq<Attempt>, req: nat, good: Good)
    requires FromClient(e.msg) && req !in p.reqs && PeerOk(p, good) && MsgOk(e.msg, good)
    ensures var r := Handle(cfg, s, p, e, attempts, req);
      PeerOk(r.peer, good) && forall i | 0 <= i < |r.sends| :: MsgOk(r.sends[i].msg, good)
  {
    hide Handle;
    StartShape(cfg, s, p, e, attempts, req);
  }

  lemma DeliverOk(cfg: Config, w: World, m: nat, attempts: seq<Attempt>, good: Good)
    requires Tracked(w) && m in w.net && Closed(good) && Everywhere(w, good)
    ensures Everywhere(ApplyDeliver(cfg, w, m, attempts), good)
  {
    hide Handle, PeerOk, MsgOk, Batch, Closed, RecordStart, RecordDelivery, Tracked;
    var e := w.net[m];
    var r := Handle(cfg, e.dst, PeerOf(w, e.dst), e, attempts, w.nextReq);
    if FromClient(e.msg) {
      FreshRequest(w, e.dst);
      PeerIsOk(w, e.dst, good);
      StartOk(cfg, e.dst, PeerOf(w, e.dst), e, attempts, w.nextReq, good);
    } else {
      HandleOk(cfg, w, m, good);
      HandleIgnoresAttempts(cfg, e.dst, PeerOf(w, e.dst), e, attempts, w.nextReq);
    }
    var w2 := ApplyDeliver(cfg, w, m, attempts).(peers := w.peers, net := w.net - {m}, nextMsg := w.nextMsg);
    EverywhereSame(w, w2, good);
    EverywhereSetPeer(w2, e.dst, r.peer, good);
    EverywherePost(SetPeer(w2, e.dst, r.peer), r.sends, good);
  }

  lemma FinishReactionOk(cfg: Config, s: Uuid, p: PeerState, req: nat, ok: bool, good: Good)
    requires PeerOk(p, good) && Closed(good) && req in p.reqs && p.reqs[req].q.lists != []
    ensures var r := Finish(cfg, s, p, req, ok);
      PeerOk(r.peer, good) && forall i | 0 <= i < |r.sends| :: MsgOk(r.sends[i].msg, good)
  {
    hide WriteRow, MergeMap, FoldMerge;
    var r := p.reqs[req];
    assert RequestOk(r, good);
    FoldOk(r.id, r.q.lists, good);
    var p' := p.(reqs := p.reqs - {req});
    assert PeerOk(p', good);
    WriteRowOk(cfg.policy, p', r.id, Answer(r), None, good);
  }

  lemma FinishOk(cfg: Config, w: World, s: Uuid, req: nat, ok: bool, good: Good)
    requires Waiting(w, s, req) && Closed(good) && Everywhere(w, good)
    ensures Everywhere(ApplyFinish(cfg, w, s, req, ok), good)
  {
    hide Finish, PeerOk, MsgOk, Batch, Closed;
    var reaction := Finish(cfg, s, PeerOf(w, s), req, ok);
    PeerIsOk(w, s, good);
    FinishReactionOk(cfg, s, PeerOf(w, s), req, ok, good);
    var w2 := ApplyFinish(cfg, w, s, req, ok).(peers := w.peers, net := w.net, nextMsg := w.nextMsg);
    EverywhereSame(w, w2, good);
    EverywhereSetPeer(w2, s, reaction.peer, good);
    EverywherePost(SetPeer(w2, s, reaction.peer), reaction.sends, good);
  }

  lemma HintsOk(p: PeerState, good: Good)
    requires PeerOk(p, good)
    ensures PeerOk(p.(handoffs := HintsOf(p.rows)), good)
  {
    forall h | h in HintsOf(p.rows) ensures (h.id, h.list) in good {
      assert (h.id, p.rows[h.id].list) in good;
    }
  }

  lemma SmallerPeerOk(p: PeerState, p': PeerState, good: Good)
    requires PeerOk(p, good) && p'.reqs == p.reqs && p'.handoffs <= p.handoffs
    requires forall id <- p'.rows :: id in p.rows && p'.rows[id] == p.rows[id]
    ensures PeerOk(p', good)
  {
    hide RequestOk;
    forall id | id in p'.rows ensures (id, p'.rows[id].list) in good {
      assert (id, p.rows[id].list) in good;
    }
  }

  /** Whatever the step, if it is not an edit, every list it leaves behind was already there
      or is a merge of lists with the same id that were. */
  lemma StepCopiesAndMerges(cfg: Config, w: World, step: Step, good: Good)
    requires Tracked(w) && Enabled(w, step) && !step.Edit?
    requires Closed(good) && Everywhere(w, good)
    ensures Everywhere(Apply(cfg, w, step), good)
  {
    hide ApplyDeliver, ApplyFinish, Everywhere, PeerOk, Closed, Batch, HintsOf, AddNode, RemoveNode, MergeMap, Tracked;
    match step {
      case Fetch(c, id, dst) =>
        ListIsOk(w, c, id, good);
        EverywherePost(w, [Envelope(c, dst, 0, 0, GetList(id, ClientList(w, c, id)))], good);
      case ClientMerge(m) => ClientMergeOk(w, m, good);
      case Deliver(m, attempts) => DeliverOk(cfg, w, m, attempts, good);
      case Complete(s, req) => FinishOk(cfg, w, s, req, true, good);
      case GiveUp(s, req) => FinishOk(cfg, w, s, req, false, good);
      case ScanHints(s) =>
        PeerIsOk(w, s, good);
        HintsOk(PeerOf(w, s), good);
        EverywhereSetPeer(w, s, Apply(cfg, w, step).peers[s], good);
      case SendHint(s, h) => SendHintOk(cfg, w, s, h, good);
      case DeleteHinted(s, id) =>
        PeerIsOk(w, s, good);
        SmallerPeerOk(PeerOf(w, s), Apply(cfg, w, step).peers[s], good);
        EverywhereSame(w, w.(audit := RecordDeletion(w.audit, s, id)), good);
        EverywhereSetPeer(w.(audit := RecordDeletion(w.audit, s, id)), s, Apply(cfg, w, step).peers[s], good);
      case Push(s, id, dst) =>
        PeerIsOk(w, s, good);
        RowOk(PeerOf(w, s), id, good);
        EverywherePost(w, [Envelope(s, dst, 0, 0, ReplicateList(id, PeerOf(w, s).rows[id].list, true))], good);
      case JoinRing(s, n) =>
        PeerIsOk(w, s, good);
        SmallerPeerOk(PeerOf(w, s), Apply(cfg, w, step).peers[s], good);
        EverywhereSetPeer(w, s, Apply(cfg, w, step).peers[s], good);
      case LeaveRing(s, n) =>
        PeerIsOk(w, s, good);
        SmallerPeerOk(PeerOf(w, s), Apply(cfg, w, step).peers[s], good);
        EverywhereSetPeer(w, s, Apply(cfg, w, step).peers[s], good);
      case Lose(m) => EverywhereSame(w, Apply(cfg, w, step), good);
      case Duplicate(m) =>
        NetMsgOk(w, m, good);
        var w1 := w.(audit := w.audit.(repeated := w.audit.repeated + {w.net[m].req}));
        EverywhereSame(w, w1, good);
        EverywherePost(w1, [w.net[m]], good);
    }
  }

  lemma RowOk(p: PeerState, id: Uuid, good: Good)
    requires PeerOk(p, good) && id in p.rows
    ensures (id, p.rows[id].list) in good
  {}

  lemma NetMsgOk(w: World, m: nat, good: Good)
    requires Everywhere(w, good) && m in w.net
    ensures MsgOk(w.net[m].msg, good)
  {}

  lemma ClientMergeOk(w: World, m: nat, good: Good)
    requires m in w.net && w.net[m].msg.ReplyList? && Closed(good) && Everywhere(w, good)
    ensures var e := w.net[m];
      Everywhere(SetClientList(w.(net := w.net - {m}), e.dst, e.msg.id,
                               Fetched(ClientList(w, e.dst, e.msg.id), e.msg.list)), good)
  {
    hide PeerOk, MergeMap;
    var e := w.net[m];
    NetMsgOk(w, m, good);
    ListIsOk(w, e.dst, e.msg.id, good);
    EverywhereSame(w, w.(net := w.net - {m}), good);
    EverywhereSetList(w.(net := w.net - {m}), e.dst, e.msg.id,
                      Fetched(ClientList(w, e.dst, e.msg.id), e.msg.list), good);
  }

  lemma SendHintOk(cfg: Config, w: World, s: Uuid, h: Hint, good: Good)
    requires Enabled(w, SendHint(s, h)) && Everywhere(w, good)
    ensures Everywhere(Apply(cfg, w, SendHint(s, h)), good)
  {
    hide Batch;
    var p := PeerOf(w, s);
    var p' := p.(handoffs := p.handoffs - {h}, deletes := p.deletes + {h.id});
    PeerIsOk(w, s, good);
    SmallerPeerOk(p, p', good);
    var w1 := w.(nextReq := w.nextReq + 1);
    EverywhereSame(w, w1, good);
    EverywhereSetPeer(w1, s, p', good);
    EverywherePost(SetPeer(w1, s, p'), [Envelope(s, h.dest, w.nextReq, 0, ReplicateList(h.id, h.list, true))], good);
  }

  // ---------- the lists that history explains ----------

  type Hist = map<Cell, Log>

  ghost predicate Explainable(log: Log, x: Item) {
    exists cut: Cut :: Shows(log, cut, x)
  }

  ghost predicate Explained(hist: Hist, id: Uuid, list: ItemMap) {
    forall name <- list :: Explainable(LogOf(hist, id, name), list[name])
  }

  ghost function ExplainedLists(hist: Hist): Good {
    iset p: (Uuid, ItemMap) | Explained(hist, p.0, p.1)
  }

  ghost predicate AllWellFormed(hist: Hist) {
    forall id: Uuid, name: string :: WellFormed(LogOf(hist, id, name))
  }

  lemma ExplainedMerge(hist: Hist, id: Uuid, x: ItemMap, y: ItemMap)
    requires AllWellFormed(hist) && Explained(hist, id, x) && Explained(hist, id, y)
    ensures Explained(hist, id, MergeMap(x, y))
  {
    hide Shows, MergeItem, WellFormed;
    forall name | name in MergeMap(x, y) ensures Explainable(LogOf(hist, id, name), MergeMap(x, y)[name]) {
      if name in x && name in y {
        var c: Cut :| Shows(LogOf(hist, id, name), c, x[name]);
        var d: Cut :| Shows(LogOf(hist, id, name), d, y[name]);
        MergeShowsUnion(LogOf(hist, id, name), c, x[name], d, y[name]);
      }
    }
  }

  lemma ExplainedClosed(hist: Hist)
    requires AllWellFormed(hist)
    ensures Closed(ExplainedLists(hist))
  {
    hide Explained, AllWellFormed, MergeMap;
    forall id: Uuid ensures (id, map[]) in ExplainedLists(hist) {
      EmptyExplained(hist, id);
    }
    forall id, x, y | (id, x) in ExplainedLists(hist) && (id, y) in ExplainedLists(hist)
      ensures (id, MergeMap(x, y)) in ExplainedLists(hist)
    {
      ExplainedMerge(hist, id, x, y);
    }
  }

  lemma EmptyExplained(hist: Hist, id: Uuid)
    ensures Explained(hist, id, map[])
  {}

  // ---------- each client holds its own operations ----------

  /** A client's copy holds all its operations on the item; before it has a copy there are
      none. */
  ghost predicate HoldsOwn(log: Log, c: Uuid, item: Option<Item>) {
    match item
    case None => Ops(log, c) == []
    case Some(x) => exists cut: Cut :: Shows(log, cut, x) && At(cut, c) == |Ops(log, c)|
  }

  ghost predicate OwnComplete(w: World) {
    forall c: Uuid, id: Uuid, name: string ::
      HoldsOwn(LogOf(w.audit.hist, id, name), c, StoredItem(ClientList(w, c, id), name))
  }

  lemma HoldsOwnAfterMerge(log: Log, c: Uuid, mine: Option<Item>, theirs: Item)
    requires WellFormed(log) && HoldsOwn(log, c, mine) && Explainable(log, theirs)
    ensures HoldsOwn(log, c, Some(match mine case None => theirs case Some(x) => MergeItem(x, theirs)))
  {
    hide Shows, MergeItem, WellFormed;
    var d: Cut :| Shows(log, d, theirs);
    CutBound(log, d, theirs, c);
    match mine {
      case None =>
      case Some(x) =>
        var cut: Cut :| Shows(log, cut, x) && At(cut, c) == |Ops(log, c)|;
        MergeShowsUnion(log, cut, x, d, theirs);
    }
  }

  lemma CutBound(log: Log, cut: Cut, x: Item, a: Uuid)
    requires Shows(log, cut, x)
    ensures At(cut, a) <= |Ops(log, a)|
  {}

  ghost predicate HistoryInv(w: World) {
    && AllWellFormed(w.audit.hist)
    && Everywhere(w, ExplainedLists(w.audit.hist))
    && OwnComplete(w)
  }

  // ---------- an edit ----------

  /** The log of one cell changes, by one operation; copies of other cells are unaffected and
      copies of this one keep their meaning. */
  lemma ExplainedAfterAppend(hist: Hist, cell: Cell, me: Uuid, op: Op, id: Uuid, list: ItemMap)
    requires Explained(hist, id, list)
    ensures Explained(hist[cell := Append(LogOf(hist, cell.id, cell.name), me, op)], id, list)
  {
    hide Shows, Append;
    var hist' := hist[cell := Append(LogOf(hist, cell.id, cell.name), me, op)];
    forall name | name in list ensures Explainable(LogOf(hist', id, name), list[name]) {
      var cut: Cut :| Shows(LogOf(hist, id, name), cut, list[name]);
      if Cell(id, name) == cell {
        ShowsAfterAppend(LogOf(hist, id, name), cut, list[name], me, op);
      }
    }
  }

  lemma EverywhereLarger(w: World, good: Good, larger: Good)
    requires Everywhere(w, good) && good <= larger
    ensures Everywhere(w, larger)
  {}

  lemma OwnAfterAppend(log: Log, me: Uuid, op: Op, c: Uuid, item: Option<Item>)
    requires c != me && HoldsOwn(log, c, item)
    ensures HoldsOwn(Append(log, me, op), c, item)
  {
    if item.Some? {
      var cut: Cut :| Shows(log, cut, item.value) && At(cut, c) == |Ops(log, c)|;
      ShowsAfterAppend(log, cut, item.value, me, op);
    }
  }

  /** The editor's own copy after the edit holds its operations again, and stamps stay well
      formed. */
  lemma EditOwn(log: Log, before: Option<Item>, q: nat, acquired: bool, me: Uuid)
    requires WellFormed(log) && HoldsOwn(log, me, before) && EditItem(before, q, acquired, me).Some?
    ensures var log' := Append(log, me, OpOf(before, q, acquired, me));
      WellFormed(log') && HoldsOwn(log', me, EditItem(before, q, acquired, me))
  {
    hide Shows, EditItem, OpOf, WellFormed;
    match before {
      case None =>
        WellFormedAfterEdit(log, map[], before, q, acquired, me);
        CreateShows(log, q, acquired, me);
        AppendLength(log, me, OpOf(before, q, acquired, me));
        assert At(map[me := 1], me) == 1;
      case Some(x) =>
        var cut: Cut :| Shows(log, cut, x) && At(cut, me) == |Ops(log, me)|;
        WellFormedAfterEdit(log, cut, before, q, acquired, me);
        EditShows(log, cut, x, q, acquired, me);
        AppendLength(log, me, OpOf(before, q, acquired, me));
        assert At(cut[me := At(cut, me) + 1], me) == At(cut, me) + 1;
    }
  }

  lemma AppendLength(log: Log, me: Uuid, op: Op)
    ensures |Ops(Append(log, me, op), me)| == |Ops(log, me)| + 1
  {}

  lemma EditHistory(w: World, c: Uuid, id: Uuid, name: string, q: nat, acquired: bool, dst: Uuid)
    requires HistoryInv(w) && EditItem(StoredItem(ClientList(w, c, id), name), q, acquired, c).Some?
    ensures HistoryInv(ApplyEdit(w, c, id, name, q, acquired, dst))
  {
    hide EditItem, OpOf, Append, WellFormed, HoldsOwn, Explained, Everywhere, Batch;
    var list := ClientList(w, c, id);
    var before := StoredItem(list, name);
    var item := EditItem(before, q, acquired, c).value;
    var op := OpOf(before, q, acquired, c);
    var hist, log := w.audit.hist, LogOf(w.audit.hist, id, name);
    var hist' := hist[Cell(id, name) := Append(log, c, op)];
    var w' := ApplyEdit(w, c, id, name, q, acquired, dst);
    var list' := list[name := item];
    EditOwn(log, before, q, acquired, c);
    assert AllWellFormed(hist') by {
      forall i: Uuid, n: string ensures WellFormed(LogOf(hist', i, n)) {
        assert WellFormed(LogOf(hist, i, n));
      }
    }
    ListExplained(w, c, id);
    ExplainedAfterAppend(hist, Cell(id, name), c, op, id, list);
    ExplainedAfterSet(hist', id, list, name, item, c);
    ExplainedGrows(hist, Cell(id, name), c, op);
    EverywhereLarger(w, ExplainedLists(hist), ExplainedLists(hist'));
    var good := ExplainedLists(hist');
    var w1 := SetClientList(w, c, id, list').(audit := w.audit.(hist := hist'));
    EverywhereSetList(w, c, id, list', good);
    EverywhereSame(SetClientList(w, c, id, list'), w1, good);
    EverywherePost(w1, [Envelope(c, dst, 0, 0, PutList(id, list'))], good);
    EditKeepsOwn(w, c, id, name, q, acquired);
    forall c2: Uuid, i: Uuid, n: string
      ensures HoldsOwn(LogOf(w'.audit.hist, i, n), c2, StoredItem(ClientList(w', c2, i), n))
    {
      SameLists(SetClientList(w, c, id, list'), w', c2, i);
    }
  }

  lemma SameLists(w: World, w': World, c: Uuid, id: Uuid)
    requires w'.clients == w.clients
    ensures ClientList(w', c, id) == ClientList(w, c, id)
  {}

  /** After an edit every client still holds its own operations. */
  lemma EditKeepsOwn(w: World, c: Uuid, id: Uuid, name: string, q: nat, acquired: bool)
    requires HistoryInv(w) && EditItem(StoredItem(ClientList(w, c, id), name), q, acquired, c).Some?
    ensures var before := StoredItem(ClientList(w, c, id), name);
      var log' := Append(LogOf(w.audit.hist, id, name), c, OpOf(before, q, acquired, c));
      var hist' := w.audit.hist[Cell(id, name) := log'];
      var list' := ClientList(w, c, id)[name := EditItem(before, q, acquired, c).value];
      forall c2: Uuid, i: Uuid, n: string ::
        HoldsOwn(LogOf(hist', i, n), c2, StoredItem(ClientList(SetClientList(w, c, id, list'), c2, i), n))
  {
    hide EditItem, OpOf, Append, WellFormed, HoldsOwn, Explained, Everywhere;
    var before := StoredItem(ClientList(w, c, id), name);
    var op, log := OpOf(before, q, acquired, c), LogOf(w.audit.hist, id, name);
    var hist' := w.audit.hist[Cell(id, name) := Append(log, c, op)];
    var w' := SetClientList(w, c, id, ClientList(w, c, id)[name := EditItem(before, q, acquired, c).value]);
    EditOwn(log, before, q, acquired, c);
    forall c2: Uuid, i: Uuid, n: string
      ensures HoldsOwn(LogOf(hist', i, n), c2, StoredItem(ClientList(w', c2, i), n))
    {
      assert HoldsOwn(LogOf(w.audit.hist, i, n), c2, StoredItem(ClientList(w, c2, i), n));
      if i == id && n == name && c2 != c {
        OwnAfterAppend(log, c, op, c2, StoredItem(ClientList(w, c2, i), n));
      }
    }
  }

  lemma ListExplained(w: World, c: Uuid, id: Uuid)
    requires HistoryInv(w)
    ensures Explained(w.audit.hist, id, ClientList(w, c, id))
  {
    hide Explained, AllWellFormed, OwnComplete;
    ExplainedClosed(w.audit.hist);
    ListIsOk(w, c, id, ExplainedLists(w.audit.hist));
  }

  lemma ExplainedAfterSet(hist: Hist, id: Uuid, list: ItemMap, name: string, item: Item, c: Uuid)
    requires Explained(hist, id, list) && HoldsOwn(LogOf(hist, id, name), c, Some(item))
    ensures Explained(hist, id, list[name := item])
  {}

  lemma ExplainedGrows(hist: Hist, cell: Cell, me: Uuid, op: Op)
    ensures ExplainedLists(hist) <= ExplainedLists(hist[cell := Append(LogOf(hist, cell.id, cell.name), me, op)])
  {
    hide Explained, Append;
    forall p: (Uuid, ItemMap) | p in ExplainedLists(hist)
      ensures p in ExplainedLists(hist[cell := Append(LogOf(hist, cell.id, cell.name), me, op)])
    {
      ExplainedAfterAppend(hist, cell, me, op, p.0, p.1);
    }
  }

  // ---------- all steps ----------

  lemma OwnCompleteSame(w: World, w': World)
    requires OwnComplete(w) && w'.audit.hist == w.audit.hist
    requires forall c: Uuid, id: Uuid :: ClientList(w', c, id) == ClientList(w, c, id)
    ensures OwnComplete(w')
  {
    hide HoldsOwn;
    forall c: Uuid, id: Uuid, name: string
      ensures HoldsOwn(LogOf(w'.audit.hist, id, name), c, StoredItem(ClientList(w', c, id), name))
    {
      assert ClientList(w', c, id) == ClientList(w, c, id);
    }
  }

  lemma FetchedItem(local: ItemMap, answer: ItemMap, name: string)
    ensures StoredItem(Fetched(local, answer), name) ==
      if name !in answer then StoredItem(local, name)
      else if name !in local then Some(answer[name]) else Some(MergeItem(local[name], answer[name]))
  {
    FetchedIsMerge(local, answer);
  }

  /** Merging the answer twice over is merging it once. */
  lemma FetchedIsMerge(local: ItemMap, answer: ItemMap)
    ensures Fetched(local, answer) == MergeMap(local, answer)
  {
    MergeMapAssociative(local, local, answer);
    MergeMapIdempotent(local);
  }

  lemma ClientMergeOwn(w: World, m: nat)
    requires HistoryInv(w) && m in w.net && w.net[m].msg.ReplyList?
    ensures var e := w.net[m];
      OwnComplete(SetClientList(w.(net := w.net - {m}), e.dst, e.msg.id,
                                Fetched(ClientList(w, e.dst, e.msg.id), e.msg.list)))
  {
    hide HoldsOwn, Fetched, WellFormed, Explainable, MergeItem;
    var e := w.net[m];
    var w' := SetClientList(w.(net := w.net - {m}), e.dst, e.msg.id,
                            Fetched(ClientList(w, e.dst, e.msg.id), e.msg.list));
    NetMsgOk(w, m, ExplainedLists(w.audit.hist));
    forall c: Uuid, id: Uuid, name: string
      ensures HoldsOwn(LogOf(w'.audit.hist, id, name), c, StoredItem(ClientList(w', c, id), name))
    {
      var log := LogOf(w.audit.hist, id, name);
      assert HoldsOwn(log, c, StoredItem(ClientList(w, c, id), name));
      if c == e.dst && id == e.msg.id {
        FetchedItem(ClientList(w, c, id), e.msg.list, name);
        if name in e.msg.list {
          assert Explainable(log, e.msg.list[name]);
          HoldsOwnAfterMerge(log, c, StoredItem(ClientList(w, c, id), name), e.msg.list[name]);
        }
      }
    }
  }

  lemma DeliverKeepsClients(cfg: Config, w: World, m: nat, attempts: seq<Attempt>)
    requires m in w.net
    ensures var w' := ApplyDeliver(cfg, w, m, attempts); w'.clients == w.clients && w'.audit.hist == w.audit.hist
  {
    hide Handle, Batch, PeerOf, Replicas;
  }

  lemma FinishKeepsClients(cfg: Config, w: World, s: Uuid, req: nat, ok: bool)
    requires Waiting(w, s, req)
    ensures var w' := ApplyFinish(cfg, w, s, req, ok); w'.clients == w.clients && w'.audit.hist == w.audit.hist
  {
    hide Finish, Batch;
  }

  lemma StepKeepsClients(cfg: Config, w: World, step: Step)
    requires Enabled(w, step) && !step.Edit? && !step.ClientMerge?
    ensures Apply(cfg, w, step).clients == w.clients && Apply(cfg, w, step).audit.hist == w.audit.hist
  {
    hide ApplyDeliver, ApplyFinish, Batch, HintsOf, AddNode, RemoveNode;
    match step {
      case Deliver(m, attempts) => DeliverKeepsClients(cfg, w, m, attempts);
      case Complete(s, req) => FinishKeepsClients(cfg, w, s, req, true);
      case GiveUp(s, req) => FinishKeepsClients(cfg, w, s, req, false);
      case _ =>
    }
  }

  lemma StepHistory(cfg: Config, w: World, step: Step)
    requires Tracked(w) && HistoryInv(w) && Enabled(w, step)
    ensures HistoryInv(Apply(cfg, w, step))
  {
    hide Tracked, AllWellFormed, Explained, HoldsOwn, Everywhere, ApplyDeliver, ApplyFinish, OwnComplete,
         Fetched, EditItem, OpOf;
    if step.Edit? {
      var Edit(c, id, name, q, acquired, dst) := step;
      if EditItem(StoredItem(ClientList(w, c, id), name), q, acquired, c).Some? {
        EditHistory(w, c, id, name, q, acquired, dst);
      } else {
        PanickedEdit(w, c, id);
      }
    } else {
      ExplainedClosed(w.audit.hist);
      StepCopiesAndMerges(cfg, w, step, ExplainedLists(w.audit.hist));
      if step.ClientMerge? {
        ClientMergeOwn(w, step.msg);
      } else {
        StepKeepsClients(cfg, w, step);
        OwnCompleteSame(w, Apply(cfg, w, step));
      }
    }
  }

  lemma PanickedEdit(w: World, c: Uuid, id: Uuid)
    requires HistoryInv(w)
    ensures HistoryInv(SetClientList(w, c, id, ClientList(w, c, id)))
  {
    hide Everywhere, Explained, AllWellFormed;
    ExplainedClosed(w.audit.hist);
    ListIsOk(w, c, id, ExplainedLists(w.audit.hist));
    EverywhereSetList(w, c, id, ClientList(w, c, id), ExplainedLists(w.audit.hist));
    OwnCompleteSame(w, SetClientList(w, c, id, ClientList(w, c, id)));
  }

  lemma StartHistory()
    ensures HistoryInv(START)
  {}

  /** In every reachable state of clients, servers and messages: every copy of every item is
      the effect of a cut of the history, and every client holds its own operations. */
  lemma {:induction false} RunHistory(cfg: Config, steps: seq<Step>)
    ensures HistoryInv(Exec(cfg, steps)) && Tracked(Exec(cfg, steps))
  {
    hide HistoryInv, Tracked, Apply, Enabled;
    RunTracked(cfg, steps);
    if steps == [] {
      StartHistory();
    } else {
      RunHistory(cfg, steps[..|steps| - 1]);
      var w := Exec(cfg, steps[..|steps| - 1]);
      if Enabled(w, steps[|steps| - 1]) {
        StepHistory(cfg, w, steps[|steps| - 1]);
      }
    }
  }
}

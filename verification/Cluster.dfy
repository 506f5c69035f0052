/** The whole system as a transition system: clients with their local lists, servers, and a
    network that may lose, reorder and duplicate messages.  A run is a sequence of steps; every
    choice the program leaves open is a parameter of a step. */
module Cluster {
  import opened Basics
  import opened CrdtValues
  import opened Quantity
  import opened History
  import opened RingValues
  import opened RingMembership
  import opened Protocol

  /** One item of one list. */
  datatype Cell = Cell(id: Uuid, name: string)

  /** A write request as it was started. */
  datatype Plan = Plan(coordinator: Uuid, id: Uuid, list: ItemMap, slots: seq<Slot>, replicas: seq<Uuid>, ring: Ring)

  /** A quorum read as it was started. */
  datatype ReadPlan = ReadPlan(coordinator: Uuid, id: Uuid, replicas: seq<Uuid>, ring: Ring)

  datatype Tag = Tag(req: nat, slot: nat)

  /** A server handled the write for a slot (or, as coordinator, its own write); a handoff names
      the replica it stands in for. */
  datatype StoreRec = StoreRec(tag: Tag, server: Uuid, id: Uuid, list: ItemMap, standsFor: Option<Uuid>)

  /** A server answered a read with its row. */
  datatype AnswerRec = AnswerRec(tag: Tag, server: Uuid, id: Uuid, list: ItemMap)

  /** Bookkeeping that no program reads: the operations applied to each item; the writes and the
      reads started; the writes handled, and those of them whose row was deleted afterwards; the
      acknowledgements counted; the answers given to reads, and those counted; the requests
      acknowledged to a client; and the requests some message of which was duplicated. */
  datatype Audit = Audit(hist: map<Cell, Log>, plans: map<nat, Plan>, readPlans: map<nat, ReadPlan>,
                         stored: set<StoreRec>, lost: set<StoreRec>, heard: set<Tag>,
                         answered: set<AnswerRec>, heardReads: set<Tag>,
                         acked: set<nat>, repeated: set<nat>)

  datatype World = World(clients: map<Uuid, map<Uuid, ItemMap>>, peers: map<Uuid, PeerState>,
                         net: map<nat, Envelope>, nextMsg: nat, nextReq: nat, audit: Audit)

  const START := World(map[], map[], map[], 0, 1, Audit(map[], map[], map[], {}, {}, {}, {}, {}, {}, {}))

  datatype Step =
    | Edit(client: Uuid, id: Uuid, name: string, quantity: nat, acquired: bool, dst: Uuid)
    | Fetch(client: Uuid, id: Uuid, dst: Uuid)
    | ClientMerge(msg: nat)
    | Deliver(msg: nat, attempts: seq<Attempt>)
    | Complete(server: Uuid, req: nat)
    | GiveUp(server: Uuid, req: nat)
    | ScanHints(server: Uuid)
    | SendHint(server: Uuid, hint: Hint)
    | DeleteHinted(server: Uuid, id: Uuid)
    | Push(server: Uuid, id: Uuid, dst: Uuid)
    | JoinRing(server: Uuid, node: Uuid)
    | LeaveRing(server: Uuid, node: Uuid)
    | Lose(msg: nat)
    | Duplicate(msg: nat)

  function PeerOf(w: World, s: Uuid): PeerState {
    if s in w.peers then w.peers[s] else NO_PEER
  }

  function ListsOf(w: World, c: Uuid): map<Uuid, ItemMap> {
    if c in w.clients then w.clients[c] else map[]
  }

  function ClientList(w: World, c: Uuid, id: Uuid): ItemMap {
    if id in ListsOf(w, c) then ListsOf(w, c)[id] else map[]
  }

  function LogOf(hist: map<Cell, Log>, id: Uuid, name: string): Log {
    if Cell(id, name) in hist then hist[Cell(id, name)] else map[]
  }

  /** Consecutive message numbers for a batch of sends. */
  function Batch(first: nat, sends: seq<Envelope>): (batch: map<nat, Envelope>)
    ensures forall m :: m in batch <==> first <= m < first + |sends|
    ensures forall m <- batch :: batch[m] == sends[m - first]
  {
    if sends == [] then map[]
    else Batch(first, sends[..|sends| - 1])[first + |sends| - 1 := sends[|sends| - 1]]
  }

  function Post(w: World, sends: seq<Envelope>): World {
    w.(net := w.net + Batch(w.nextMsg, sends), nextMsg := w.nextMsg + |sends|)
  }

  lemma PostedOne(w: World, e: Envelope)
    ensures Post(w, [e]) == w.(net := w.net[w.nextMsg := e], nextMsg := w.nextMsg + 1)
  {
    assert Batch(w.nextMsg, [e]).Keys == {w.nextMsg};
    assert w.net + Batch(w.nextMsg, [e]) == w.net[w.nextMsg := e];
  }

  function SetPeer(w: World, s: Uuid, p: PeerState): World {
    w.(peers := w.peers[s := p])
  }

  function SetClientList(w: World, c: Uuid, id: Uuid, list: ItemMap): World {
    w.(clients := w.clients[c := ListsOf(w, c)[id := list]])
  }

  // ---------- clients ----------

  /** A storage request: edit the local list, then send it. A request that panics has only
      registered the list. */
  ghost function ApplyEdit(w: World, c: Uuid, id: Uuid, name: string, q: nat, acquired: bool, dst: Uuid): World {
    var list := ClientList(w, c, id);
    var before := StoredItem(list, name);
    match EditItem(before, q, acquired, c)
    case None => SetClientList(w, c, id, list)
    case Some(item) =>
      var log := Append(LogOf(w.audit.hist, id, name), c, OpOf(before, q, acquired, c));
      var w' := SetClientList(w, c, id, list[name := item]);
      Post(w'.(audit := w.audit.(hist := w.audit.hist[Cell(id, name) := log])),
           [Envelope(c, dst, 0, 0, PutList(id, list[name := item]))])
  }

  // ---------- one step ----------

  function RecordStart(w: World, s: Uuid, r: Reaction, hs: Hashes): Audit {
    if w.nextReq !in r.peer.reqs then w.audit
    else
      var request, ring := r.peer.reqs[w.nextReq], PeerOf(w, s).ring;
      if request.kind.Write? then
        w.audit.(plans := w.audit.plans[w.nextReq := Plan(s, request.id, request.list, request.slots,
                                                           Replicas(hs, ring, request.id), ring)])
      else
        w.audit.(readPlans := w.audit.readPlans[w.nextReq := ReadPlan(s, request.id,
                                                                       Replicas(hs, ring, request.id), ring)])
  }

  /** What handling a message of another server, with these rows, adds to the audit. */
  function RecordDelivery(a: Audit, e: Envelope, rows: Rows): Audit {
    match e.msg
    case ReplicateList(id, list, true) =>
      a.(stored := a.stored + {StoreRec(Tag(e.req, e.slot), e.dst, id, list, None)})
    case ReplicateList(id, _, false) =>
      if id in rows then a.(answered := a.answered + {AnswerRec(Tag(e.req, e.slot), e.dst, id, rows[id].list)})
      else a
    case Handoff(id, list, original) =>
      a.(stored := a.stored + {StoreRec(Tag(e.req, e.slot), e.dst, id, list, Some(original))})
    case Ack => a.(heard := a.heard + {Tag(e.req, e.slot)})
    case AckList(_, _) => a.(heardReads := a.heardReads + {Tag(e.req, e.slot)})
    case _ => a
  }

  /** What deleting the row of a list on a server adds to the audit. */
  function RecordDeletion(a: Audit, s: Uuid, id: Uuid): Audit {
    a.(lost := a.lost + set rec | rec in a.stored && rec.server == s && rec.id == id)
  }

  /** A server handles one message of the network. */
  function ApplyDeliver(cfg: Config, w: World, m: nat, attempts: seq<Attempt>): World
    requires m in w.net
  {
    var e := w.net[m];
    var w1 := w.(net := w.net - {m});
    var r := Handle(cfg, e.dst, PeerOf(w, e.dst), e, attempts, w.nextReq);
    if FromClient(e.msg) then ApplyStart(cfg, w1, e.dst, r)
    else Post(SetPeer(w1.(audit := RecordDelivery(w.audit, e, PeerOf(w, e.dst).rows)), e.dst, r.peer), r.sends)
  }

  /** A proxied request reaches its coordinator. */
  function ApplyStart(cfg: Config, w: World, s: Uuid, r: Reaction): World {
    Post(SetPeer(w.(nextReq := w.nextReq + 1, audit := RecordStart(w, s, r, cfg.hashes)), s, r.peer), r.sends)
  }

  /** What ending a request adds to the audit. */
  function RecordFinish(a: Audit, s: Uuid, req: nat, r: Request, ok: bool): Audit {
    if ok && r.kind.Write? then
      a.(acked := a.acked + {req}, stored := a.stored + {StoreRec(Tag(req, |r.slots|), s, r.id, r.list, None)})
    else a
  }

  /** A coordinator ends a request. */
  function ApplyFinish(cfg: Config, w: World, s: Uuid, req: nat, ok: bool): World
    requires req in PeerOf(w, s).reqs && PeerOf(w, s).reqs[req].q.lists != []
  {
    var reaction := Finish(cfg, s, PeerOf(w, s), req, ok);
    var audit := RecordFinish(w.audit, s, req, PeerOf(w, s).reqs[req], ok);
    Post(SetPeer(w.(audit := audit), s, reaction.peer), reaction.sends)
  }

  ghost predicate Enabled(w: World, step: Step) {
    match step
    case Edit(_, _, _, q, _, _) => q < U64
    case Fetch(_, _, _) => true
    case ClientMerge(m) => m in w.net && w.net[m].msg.ReplyList?
    case Deliver(m, _) => m in w.net && !w.net[m].msg.ReplyList? && !w.net[m].msg.ReplyNack?
    case Complete(s, req) => Waiting(w, s, req) && PeerOf(w, s).reqs[req].q.fired
    case GiveUp(s, req) => Waiting(w, s, req)
    case ScanHints(s) => PeerOf(w, s).deletes == {}
    case SendHint(s, h) => h in PeerOf(w, s).handoffs
    case DeleteHinted(s, id) => id in PeerOf(w, s).deletes
    case Push(s, id, _) => id in PeerOf(w, s).rows
    case JoinRing(_, _) => true
    case LeaveRing(_, _) => true
    case Lose(m) => m in w.net
    case Duplicate(m) => m in w.net
  }

  predicate Waiting(w: World, s: Uuid, req: nat) {
    req in PeerOf(w, s).reqs && PeerOf(w, s).reqs[req].q.lists != []
  }

  ghost function Apply(cfg: Config, w: World, step: Step): World
    requires Enabled(w, step)
  {
    match step
    case Edit(c, id, name, q, acquired, dst) => ApplyEdit(w, c, id, name, q, acquired, dst)
    case Fetch(c, id, dst) => Post(w, [Envelope(c, dst, 0, 0, GetList(id, ClientList(w, c, id)))])
    case ClientMerge(m) =>
      var e := w.net[m];
      SetClientList(w.(net := w.net - {m}), e.dst, e.msg.id,
                    Fetched(ClientList(w, e.dst, e.msg.id), e.msg.list))
    case Deliver(m, attempts) => ApplyDeliver(cfg, w, m, attempts)
    case Complete(s, req) => ApplyFinish(cfg, w, s, req, true)
    case GiveUp(s, req) => ApplyFinish(cfg, w, s, req, false)
    case ScanHints(s) => SetPeer(w, s, PeerOf(w, s).(handoffs := HintsOf(PeerOf(w, s).rows)))
    case SendHint(s, h) =>
      var p := PeerOf(w, s);
      Post(SetPeer(w.(nextReq := w.nextReq + 1), s,
                   p.(handoffs := p.handoffs - {h}, deletes := p.deletes + {h.id})),
           [Envelope(s, h.dest, w.nextReq, 0, ReplicateList(h.id, h.list, true))])
    case DeleteHinted(s, id) =>
      var p := PeerOf(w, s);
      SetPeer(w.(audit := RecordDeletion(w.audit, s, id)), s, p.(rows := p.rows - {id}, deletes := p.deletes - {id}))
    case Push(s, id, dst) =>
      Post(w, [Envelope(s, dst, 0, 0, ReplicateList(id, PeerOf(w, s).rows[id].list, true))])
    case JoinRing(s, n) =>
      SetPeer(w, s, PeerOf(w, s).(ring := AddNode(cfg.hashes, PeerOf(w, s).ring, n, VNODES)))
    case LeaveRing(s, n) =>
      SetPeer(w, s, PeerOf(w, s).(ring := RemoveNode(cfg.hashes, PeerOf(w, s).ring, n, VNODES)))
    case Lose(m) => w.(net := w.net - {m})
    case Duplicate(m) =>
      Post(w.(audit := w.audit.(repeated := w.audit.repeated + {w.net[m].req})), [w.net[m]])
  }

  /** A step that is not enabled does nothing. */
  ghost function Do(cfg: Config, w: World, step: Step): World {
    if Enabled(w, step) then Apply(cfg, w, step) else w
  }

  /** The state after a run from a given state. */
  ghost function ExecFrom(cfg: Config, w: World, steps: seq<Step>): World {
    if steps == [] then w else Do(cfg, ExecFrom(cfg, w, steps[..|steps| - 1]), steps[|steps| - 1])
  }

  /** The state after a run. */
  ghost function Exec(cfg: Config, steps: seq<Step>): World {
    if steps == [] then START else Do(cfg, Exec(cfg, steps[..|steps| - 1]), steps[|steps| - 1])
  }

  /** A run is continued from the state it has reached. */
  lemma {:induction false} ExecContinues(cfg: Config, first: seq<Step>, after: seq<Step>)
    ensures Exec(cfg, first + after) == ExecFrom(cfg, Exec(cfg, first), after)
    decreases |after|
  {
    hide Do;
    if after == [] {
      assert first + after == first;
    } else {
      assert (first + after)[..|first + after| - 1] == first + after[..|after| - 1];
      ExecContinues(cfg, first, after[..|after| - 1]);
    }
  }
}

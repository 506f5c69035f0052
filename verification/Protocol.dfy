/** What one server does: the state it keeps for the replication protocol and its reaction to
    each message, as functions.  ServerObjects refines them imperatively; Cluster runs many
    servers, clients and a network on them. */
module Protocol {
  import opened Basics
  import opened CrdtValues
  import opened RingValues
  import opened RingMembership
  import opened RingSearch

  const VNODES: nat := 3
  const REPLICAS: nat := 3
  const WRITE_NODES: nat := 2
  const READ_NODES: nat := 2

  /** What a server stores when a row already exists.  The program computes the merge of the
      stored and the incoming list and then writes the incoming one (`Literal`); its evident
      intent is to write the merge (`Merged`). */
  datatype Policy = Literal | Merged

  datatype Config = Config(policy: Policy, hashes: Hashes)

  // ---------- rows ----------

  datatype Row = Row(list: ItemMap, hint: Option<Uuid>)
  type Rows = map<Uuid, Row>

  function WriteRow(policy: Policy, rows: Rows, id: Uuid, list: ItemMap, hint: Option<Uuid>): Rows {
    rows[id := Row(if policy.Merged? && id in rows then MergeMap(rows[id].list, list) else list, hint)]
  }

  // ---------- messages ----------

  datatype Msg =
    | PutList(id: Uuid, list: ItemMap)
    | GetList(id: Uuid, list: ItemMap)
    | ReplyList(id: Uuid, list: ItemMap)
    | ReplyNack
    | ReplicateList(id: Uuid, list: ItemMap, write: bool)
    | Ack
    | AckList(id: Uuid, list: ItemMap)
    | Handoff(id: Uuid, list: ItemMap, original: Uuid)
    | MergeList(id: Uuid, list: ItemMap)

  predicate FromClient(m: Msg) {
    m.PutList? || m.GetList?
  }

  /** A message in flight.  `req` is the request id it carries; 0 is the empty id.  `slot` says
      which replica slot of the request it serves; no handler reads it. */
  datatype Envelope = Envelope(src: Uuid, dst: Uuid, req: nat, slot: nat, msg: Msg)

  // ---------- quorums ----------

  datatype Quorum = Quorum(needed: nat, received: nat, fired: bool, lists: seq<ItemMap>)

  function NewQuorum(needed: nat, list: ItemMap): Quorum {
    Quorum(needed, 0, false, [list])
  }

  function CountAck(q: Quorum): Quorum {
    q.(received := q.received + 1, fired := q.fired || q.received + 1 >= q.needed)
  }

  function CountList(q: Quorum, list: ItemMap): Quorum {
    CountAck(q).(lists := q.lists + [list])
  }

  // ---------- requests ----------

  /** What became of the message for one replica: sent to it, or handed to a fallback. */
  datatype Slot = Sent(replica: Uuid) | Handed(replica: Uuid, holder: Uuid)

  function Server(slot: Slot): Uuid {
    match slot case Sent(r) => r case Handed(_, h) => h
  }

  /** The result of trying to send to one replica: delivered to the transport, replaced by a
      fallback, or failed with no fallback left (the loop stops there). */
  datatype Attempt = Delivered | Fallback(node: Uuid) | NoFallback

  /** What happens to one send of a write: it reaches the transport, or it fails while the servers
      in `up` count as available. */
  datatype Fate = Reached | Unreached(up: Uuid -> bool)

  /** The outcome of a send: a failed one is handed to the server the search from the last replica
      finds.  A search that has not ended when the coordinator stops waiting sends nothing
      more, like one that fails. */
  function AttemptOf(ring: Ring, last: Uuid, fate: Fate, budget: nat): Attempt {
    match fate
    case Reached => Delivered
    case Unreached(up) =>
      match Search(NextIn(ring), up, last, last, budget)
      case Found(n) => Fallback(n)
      case _ => NoFallback
  }

  function AttemptsOf(ring: Ring, last: Uuid, fates: seq<Fate>, budget: nat): seq<Attempt> {
    if fates == [] then [] else [AttemptOf(ring, last, fates[0], budget)] + AttemptsOf(ring, last, fates[1..], budget)
  }

  datatype Kind = Write | Read(row: ItemMap)

  /** A request a coordinator is waiting on. */
  datatype Request = Request(client: Uuid, id: Uuid, list: ItemMap, kind: Kind, slots: seq<Slot>, q: Quorum)

  function SlotsOf(replicas: seq<Uuid>, attempts: seq<Attempt>): seq<Slot> {
    if replicas == [] then []
    else
      var attempt := if attempts == [] then Delivered else attempts[0];
      var rest := SlotsOf(replicas[1..], if attempts == [] then [] else attempts[1..]);
      match attempt
      case Delivered => [Sent(replicas[0])] + rest
      case Fallback(n) => [Handed(replicas[0], n)] + rest
      case NoFallback => []
  }

  // ---------- the server ----------

  /** An entry of a handoff pass: the list to return to its original node. */
  datatype Hint = Hint(dest: Uuid, id: Uuid, list: ItemMap)

  /** `handoffs` is what the current handoff pass has read and not yet sent; `deletes` the
      lists it has sent and not yet deleted. */
  datatype PeerState = PeerState(rows: Rows, ring: Ring, reqs: map<nat, Request>,
                                 handoffs: set<Hint>, deletes: set<Uuid>)

  const NO_PEER := PeerState(map[], map[], map[], {}, {})

  datatype Reaction = Reaction(peer: PeerState, sends: seq<Envelope>)

  function PreferenceList(hs: Hashes, ring: Ring, id: Uuid): seq<Uuid> {
    Preference(ring, hs.list(id), REPLICAS)
  }

  /** `get_replicas`: the preference list without its first entry, whoever that is. */
  function Replicas(hs: Hashes, ring: Ring, id: Uuid): seq<Uuid> {
    var p := PreferenceList(hs, ring, id);
    if p == [] then [] else p[1..]
  }

  function SlotMessage(me: Uuid, req: nat, slots: seq<Slot>, id: Uuid, list: ItemMap, i: nat): Envelope
    requires i < |slots|
  {
    Envelope(me, Server(slots[i]), req, i,
             match slots[i]
             case Sent(_) => ReplicateList(id, list, true)
             case Handed(r, _) => Handoff(id, list, r))
  }

  /** The start of a write: register the request, then send to each replica or its fallback. */
  function StartWrite(hs: Hashes, me: Uuid, p: PeerState, client: Uuid, id: Uuid, list: ItemMap,
                      attempts: seq<Attempt>, req: nat): Reaction {
    var replicas := Replicas(hs, p.ring, id);
    if replicas == [] then Reaction(p, []) else
      var slots := SlotsOf(replicas, attempts);
      Reaction(p.(reqs := p.reqs[req := Request(client, id, list, Write, slots, NewQuorum(WRITE_NODES, list))]),
               seq(|slots|, i requires 0 <= i < |slots| => SlotMessage(me, req, slots, id, list, i)))
  }

  /** The start of a quorum read of a stored row. */
  function StartRead(hs: Hashes, me: Uuid, p: PeerState, client: Uuid, id: Uuid, list: ItemMap, req: nat): Reaction
    requires id in p.rows
  {
    var replicas := Replicas(hs, p.ring, id);
    if replicas == [] then Reaction(p, []) else
      Reaction(p.(reqs := p.reqs[req := Request(client, id, list, Read(p.rows[id].list), [],
                                               NewQuorum(READ_NODES, list))]),
               seq(|replicas|, i requires 0 <= i < |replicas| =>
                 Envelope(me, replicas[i], req, i, ReplicateList(id, list, false))))
  }

  function UpdateQuorum(p: PeerState, req: nat, q: Quorum): PeerState
    requires req in p.reqs
  {
    p.(reqs := p.reqs[req := p.reqs[req].(q := q)])
  }

  /** The reaction to a message; `req` is a fresh request id and `attempts` the fate of the
      sends of a write started here. */
  function Handle(cfg: Config, me: Uuid, p: PeerState, e: Envelope, attempts: seq<Attempt>, req: nat): Reaction {
    match e.msg
    case PutList(id, list) => StartWrite(cfg.hashes, me, p, e.src, id, list, attempts, req)
    case GetList(id, list) =>
      if id in p.rows then StartRead(cfg.hashes, me, p, e.src, id, list, req)
      else StartWrite(cfg.hashes, me, p, e.src, id, list, attempts, req)
    case ReplicateList(id, list, true) =>
      Reaction(p.(rows := WriteRow(cfg.policy, p.rows, id, list, None)),
               [Envelope(me, e.src, e.req, e.slot, Ack)])
    case ReplicateList(id, _, false) =>
      Reaction(p, if id in p.rows then [Envelope(me, e.src, e.req, e.slot, AckList(id, p.rows[id].list))] else [])
    case Handoff(id, list, original) =>
      Reaction(p.(rows := WriteRow(cfg.policy, p.rows, id, list, Some(original))),
               [Envelope(me, e.src, e.req, e.slot, Ack)])
    case Ack =>
      Reaction(if e.req in p.reqs then UpdateQuorum(p, e.req, CountAck(p.reqs[e.req].q)) else p, [])
    case AckList(_, list) =>
      Reaction(if e.req in p.reqs then UpdateQuorum(p, e.req, CountList(p.reqs[e.req].q, list)) else p, [])
    case MergeList(id, list) =>
      Reaction(p.(rows := WriteRow(cfg.policy, p.rows, id,
                                   if id in p.rows then MergeMap(p.rows[id].list, list) else list, None)), [])
    case _ => Reaction(p, [])
  }

  /** What a completed request stores and answers. */
  function Answer(r: Request): ItemMap
    requires r.q.lists != []
  {
    match r.kind
    case Write => r.list
    case Read(row) => MergeMap(row, FoldMerge(r.q.lists))
  }

  /** The end of a request: on success store and acknowledge, otherwise send a nack. */
  function Finish(cfg: Config, me: Uuid, p: PeerState, req: nat, ok: bool): Reaction
    requires req in p.reqs && p.reqs[req].q.lists != []
  {
    var r := p.reqs[req];
    var p' := p.(reqs := p.reqs - {req});
    if ok then
      Reaction(p'.(rows := WriteRow(cfg.policy, p.rows, r.id, Answer(r), None)),
               [Envelope(me, r.client, 0, 0, ReplyList(r.id, Answer(r)))])
    else
      Reaction(p', [Envelope(me, r.client, 0, 0, ReplyNack)])
  }

  /** A request that timed out leaves every row as it was and answers its client with a nack; one
      that completed writes its answer, unhinted, to its own list's row only and sends it to
      its client. */
  lemma FinishIs(cfg: Config, me: Uuid, p: PeerState, req: nat, ok: bool)
    requires req in p.reqs && p.reqs[req].q.lists != []
    ensures var r, f := p.reqs[req], Finish(cfg, me, p, req, ok);
      && f.peer == p.(reqs := p.reqs - {req}, rows := f.peer.rows)
      && (!ok ==> f.peer.rows == p.rows && f.sends == [Envelope(me, r.client, 0, 0, ReplyNack)])
      && (ok ==>
            && r.id in f.peer.rows && f.peer.rows[r.id].hint == None && f.peer.rows - {r.id} == p.rows - {r.id}
            && f.sends == [Envelope(me, r.client, 0, 0, ReplyList(r.id, Answer(r)))]
            && (r.kind.Write? ==> Answer(r) == r.list))
  {
    hide MergeMap, FoldMerge;
  }

  // ---------- handoff pass ----------

  function HintsOf(rows: Rows): set<Hint> {
    set id | id in rows && rows[id].hint.Some? :: Hint(rows[id].hint.value, id, rows[id].list)
  }

  // ---------- facts about slots ----------

  lemma {:induction false} SlotsShape(replicas: seq<Uuid>, attempts: seq<Attempt>)
    ensures |SlotsOf(replicas, attempts)| <= |replicas|
    ensures forall i | 0 <= i < |SlotsOf(replicas, attempts)| :: SlotsOf(replicas, attempts)[i].replica == replicas[i]
  {
    if replicas != [] {
      SlotsShape(replicas[1..], if attempts == [] then [] else attempts[1..]);
    }
  }

  /** A write has at most REPLICAS - 1 slots, and a full set of them only on a ring with at
      least REPLICAS servers. */
  lemma ReplicaCount(hs: Hashes, ring: Ring, id: Uuid)
    ensures |Replicas(hs, ring, id)| <= REPLICAS - 1
    ensures |Replicas(hs, ring, id)| == REPLICAS - 1 <==> |ring.Values| >= REPLICAS
  {
    PreferenceShape(ring, hs.list(id), REPLICAS);
  }
}

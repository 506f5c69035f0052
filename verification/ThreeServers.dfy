/** Small runs on a ring of three servers, step by step: the ring and its preference list, the
    steps of one write as a coordinator sees them, and a first write that all three servers
    handle and acknowledge. */
module ThreeServers {
  import opened Basics
  import opened CrdtValues
  import opened Quantity
  import opened History
  import opened RingValues
  import opened RingMembership
  import opened RingSearch
  import opened Protocol
  import opened Cluster
  import opened FallbackSearch

  // ---------- the ring ----------

  const HASHES := Hashes((n: Uuid, i: nat) => if n == 0 then 9 + i else 3 * i + n - 1, (id: Uuid) => 0)
  const MERGED := Config(Merged, HASHES)

  /** Servers 1, 2 and 3, each with three positions, in turn. */
  function Three(): Ring {
    map[0 := 1, 1 := 2, 2 := 3, 3 := 1, 4 := 2, 5 := 3, 6 := 1, 7 := 2, 8 := 3]
  }

  lemma ThreePositions(ring: Ring, n: Uuid)
    requires n > 0
    ensures AddNode(HASHES, ring, n, 3) == ring[n - 1 := n][n + 2 := n][n + 5 := n]
  {
    assert AddNode(HASHES, ring, n, 1) == ring[n - 1 := n];
    assert AddNode(HASHES, ring, n, 2) == ring[n - 1 := n][n + 2 := n];
  }

  lemma ThreeBuilt()
    ensures AddNode(HASHES, AddNode(HASHES, AddNode(HASHES, map[], 1, 3), 2, 3), 3, 3) == Three()
  {
    hide AddNode;
    ThreePositions(map[], 1);
    ThreePositions(AddNode(HASHES, map[], 1, 3), 2);
    ThreePositions(AddNode(HASHES, AddNode(HASHES, map[], 1, 3), 2, 3), 3);
  }

  lemma PreferenceHead(ring: Ring, k: nat)
    requires k in ring && forall l <- ring :: k <= l
    ensures Preference(ring, 0, 3) != [] && Preference(ring, 0, 3)[0] == ring[k]
  {
    hide Sorted, Dedup, Rotation, CodeWalk;
    WalkHead(ring, 0, k);
    var walk := CodeWalk(ring, 0);
    assert walk == [walk[0]] + walk[1..];
    WalkIsRotation(ring, 0);
    DedupAppend([walk[0]], walk[1..]);
    EmptyDedup();
    DedupSnoc([], walk[0]);
    assert [] + [walk[0]] == [walk[0]];
  }

  lemma EmptyDedup()
    ensures Dedup([]) == []
  {}

  lemma ThreeValues()
    ensures Three().Values == {1, 2, 3}
  {
    assert Three()[0] == 1 && Three()[1] == 2 && Three()[2] == 3;
  }

  lemma ThreeDistinct(p: seq<Uuid>)
    requires |p| == 3 && NoDuplicates(p) && p[0] == 1 && (forall n <- p :: n in {1, 2, 3})
    requires Without(p, {1}) != [] && Without(p, {1})[0] == 2
    ensures p == [1, 2, 3]
  {
    assert p == [p[0]] + [p[1]] + [p[2]];
    WithoutElements([], {1});
    WithoutSnoc([], p[0], {1});
    WithoutSnoc([p[0]], p[1], {1});
    WithoutSnoc([p[0]] + [p[1]], p[2], {1});
    assert [] + [p[0]] == [p[0]];
    assert p[1] in p && p[2] in p;
  }

  lemma NextOfThree()
    ensures NextNode(Three(), 3) == Some(1)
  {
    hide NextNode;
    NextFrom(Three(), 3, 2, 1);
  }

  /** The preference list of every list is 1, 2, 3, and the node after 3 is 1. */
  lemma Layout()
    ensures Preference(Three(), 0, 3) == [1, 2, 3]
    ensures Search(NextIn(Three()), n => true, 3, 3, 1) == Found(1)
  {
    hide Sorted, Dedup, Rotation, CodeWalk, NextNode, Preference, Without;
    ThreeValues();
    PreferenceShape(Three(), 0, 3);
    PreferenceHead(Three(), 0);
    MinimalDisruption(Three(), 0, 3, 1);
    var rest := RemoveServers(Three(), {1});
    PreferenceHead(rest, 1);
    var p := Preference(Three(), 0, 3);
    assert |Three().Values| == 3;
    assert Successor(Three(), 0, 3) == [] by { NoSuccessor(Three()); }
    assert p[0] in p;
    ThreeDistinct(p);
    NextOfThree();
  }

  lemma NoSuccessor(ring: Ring)
    requires |ring.Values| == 3
    ensures Successor(ring, 0, 3) == []
  {
    hide Sorted, Dedup, Rotation;
    var turn := Dedup(Rotation(ring, 0));
    DedupElements(Rotation(ring, 0));
    RotationServers(ring, 0);
    CountElements(turn);
    assert Elements(turn) == ring.Values;
  }

  lemma ThreeReplicas(id: Uuid)
    ensures PreferenceList(HASHES, Three(), id) == [1, 2, 3] && Replicas(HASHES, Three(), id) == [2, 3]
  {
    hide Preference;
    Layout();
  }

  // ---------- the steps of a write, one at a time ----------

  /** What a run relies on: the coordinator c with its ring, and the counters. */
  ghost predicate Coordinates(w: World, c: Uuid, ring: Ring, msg: nat, req: nat) {
    PeerOf(w, c).ring == ring && w.nextMsg == msg && w.nextReq == req
  }

  /** No server but s has changed, and no client. */
  ghost predicate Alone(w: World, w': World, s: Uuid) {
    w'.clients == w.clients && forall n: Uuid | n != s :: PeerOf(w', n) == PeerOf(w, n)
  }

  lemma TwoMessages(w: World, e: Envelope, f: Envelope)
    ensures Batch(w.nextMsg, [e, f]) == map[w.nextMsg := e, w.nextMsg + 1 := f]
  {
    assert Batch(w.nextMsg, [e, f]).Keys == {w.nextMsg, w.nextMsg + 1};
  }

  /** A client adds an item to list 0 and sends the list to c. */
  lemma Requested(cfg: Config, w: World, c: Uuid, ring: Ring, client: Uuid, name: string, msg: nat, req: nat)
    requires Coordinates(w, c, ring, msg, req) && ClientList(w, client, 0) == map[]
    ensures Enabled(w, Edit(client, 0, name, 1, false, c))
    ensures var w' := Apply(cfg, w, Edit(client, 0, name, 1, false, c));
      && Coordinates(w', c, ring, msg + 1, req) && w'.peers == w.peers
      && w'.net == w.net[msg := Envelope(client, c, 0, 0, PutList(0, map[name := NewItem(1, false, client)]))]
      && w'.audit == w.audit.(hist := w'.audit.hist)
      && forall d: Uuid | d != client :: ClientList(w', d, 0) == ClientList(w, d, 0)
  {
    hide NewItem, OpOf, Post, Append, EditItem;
    FirstEdit(client);
    var list := map[name := NewItem(1, false, client)];
    assert ClientList(w, client, 0)[name := NewItem(1, false, client)] == list;
    var log := Append(LogOf(w.audit.hist, 0, name), client, OpOf(None, 1, false, client));
    var audit := w.audit.(hist := w.audit.hist[Cell(0, name) := log]);
    PostedOne(SetClientList(w, client, 0, list).(audit := audit), Envelope(client, c, 0, 0, PutList(0, list)));
  }

  lemma FirstEdit(client: Uuid)
    ensures EditItem(None, 1, false, client) == Some(NewItem(1, false, client))
  {}

  /** A put, or a get that the coordinator treats as one. */
  predicate Puts(p: PeerState, e: Envelope) {
    e.msg.PutList? || (e.msg.GetList? && e.msg.id !in p.rows)
  }

  /** The request of a client's message as a write. */
  function WriteRequest(e: Envelope, slots: seq<Slot>): Request
    requires FromClient(e.msg)
  {
    Request(e.src, e.msg.id, e.msg.list, Write, slots, NewQuorum(WRITE_NODES, e.msg.list))
  }

  lemma StartReaction(cfg: Config, c: Uuid, p: PeerState, e: Envelope, attempts: seq<Attempt>, slots: seq<Slot>,
                      req: nat)
    requires Puts(p, e) && Replicas(cfg.hashes, p.ring, e.msg.id) == [2, 3]
    requires SlotsOf([2, 3], attempts) == slots && |slots| == 2
    ensures var r := Handle(cfg, c, p, e, attempts, req);
      && r.peer == p.(reqs := p.reqs[req := WriteRequest(e, slots)])
      && r.sends == [SlotMessage(c, req, slots, e.msg.id, e.msg.list, 0),
                     SlotMessage(c, req, slots, e.msg.id, e.msg.list, 1)]
  {
    hide Replicas, SlotsOf, SlotMessage, NewQuorum;
  }

  /** Starting a request, on its parts. */
  lemma PostedStart(w: World, s: Uuid, p: PeerState, a: Audit, e: Envelope, f: Envelope)
    ensures var w' := Post(SetPeer(w.(nextReq := w.nextReq + 1, audit := a), s, p), [e, f]);
      && w'.nextMsg == w.nextMsg + 2 && w'.nextReq == w.nextReq + 1 && Alone(w, w', s)
      && PeerOf(w', s) == p && w'.audit == a && w'.net == w.net[w.nextMsg := e][w.nextMsg + 1 := f]
  {
    hide Batch;
    TwoMessages(w, e, f);
  }

  /** The effect of starting a write. */
  ghost predicate AfterStart(w: World, w': World, c: Uuid, ring: Ring, m: nat, slots: seq<Slot>)
    requires m in w.net && FromClient(w.net[m].msg) && |slots| == 2
  {
    var e, msg, req := w.net[m], w.nextMsg, w.nextReq;
    && Coordinates(w', c, ring, msg + 2, req + 1) && Alone(w, w', c)
    && PeerOf(w', c) == PeerOf(w, c).(reqs := PeerOf(w, c).reqs[req := WriteRequest(e, slots)])
    && w'.net == (w.net - {m})[msg := SlotMessage(c, req, slots, 0, e.msg.list, 0)]
                              [msg + 1 := SlotMessage(c, req, slots, 0, e.msg.list, 1)]
    && w'.audit == w.audit.(plans := w.audit.plans[req := Plan(c, 0, e.msg.list, slots, [2, 3], ring)])
  }

  /** The coordinator starts the write. */
  lemma Started(cfg: Config, w: World, c: Uuid, ring: Ring, m: nat, attempts: seq<Attempt>, slots: seq<Slot>)
    requires PeerOf(w, c).ring == ring && m in w.net && w.net[m].dst == c
    requires Puts(PeerOf(w, c), w.net[m]) && w.net[m].msg.id == 0
    requires Replicas(cfg.hashes, ring, 0) == [2, 3] && SlotsOf([2, 3], attempts) == slots && |slots| == 2
    ensures Enabled(w, Deliver(m, attempts))
    ensures AfterStart(w, Apply(cfg, w, Deliver(m, attempts)), c, ring, m, slots)
  {
    hide Handle, Replicas, SlotsOf, Batch, SlotMessage, NewQuorum, RecordStart, Apply, Post, SetPeer;
    var e := w.net[m];
    var w1 := w.(net := w.net - {m});
    StartedIs(cfg, w, m, attempts);
    StartReaction(cfg, c, PeerOf(w, c), e, attempts, slots, w.nextReq);
    var r := Handle(cfg, c, PeerOf(w, c), e, attempts, w.nextReq);
    PlanRecorded(cfg, w1, c, r, WriteRequest(e, slots));
    PostedStart(w1, c, r.peer, RecordStart(w1, c, r, cfg.hashes), r.sends[0], r.sends[1]);
  }

  lemma StartedIs(cfg: Config, w: World, m: nat, attempts: seq<Attempt>)
    requires m in w.net && FromClient(w.net[m].msg)
    ensures var e, w1 := w.net[m], w.(net := w.net - {m});
      var r := Handle(cfg, e.dst, PeerOf(w, e.dst), e, attempts, w.nextReq);
      && Enabled(w, Deliver(m, attempts))
      && Apply(cfg, w, Deliver(m, attempts)) ==
           Post(SetPeer(w1.(nextReq := w.nextReq + 1, audit := RecordStart(w1, e.dst, r, cfg.hashes)), e.dst, r.peer),
                r.sends)
  {
    hide Handle, Batch, RecordStart;
  }

  lemma PlanRecorded(cfg: Config, w: World, c: Uuid, r: Reaction, q: Request)
    requires w.nextReq in r.peer.reqs && r.peer.reqs[w.nextReq] == q && q.kind.Write?
    ensures RecordStart(w, c, r, cfg.hashes) ==
      w.audit.(plans := w.audit.plans[w.nextReq :=
        Plan(c, q.id, q.list, q.slots, Replicas(cfg.hashes, PeerOf(w, c).ring, q.id), PeerOf(w, c).ring)])
  {
    hide Replicas;
  }

  /** A server other than the coordinator handles a replicate and acknowledges it. */
  lemma Replicated(cfg: Config, w: World, c: Uuid, ring: Ring, m: nat, msg: nat, req: nat)
    requires Coordinates(w, c, ring, msg, req) && m in w.net
    requires w.net[m].msg.ReplicateList? && w.net[m].msg.write && w.net[m].dst != c
    ensures Enabled(w, Deliver(m, []))
    ensures var e, w' := w.net[m], Apply(cfg, w, Deliver(m, []));
      && Coordinates(w', c, ring, msg + 1, req) && Alone(w, w', e.dst)
      && w'.net == (w.net - {m})[msg := Envelope(e.dst, e.src, e.req, e.slot, Ack)]
      && w'.audit == w.audit.(stored := w'.audit.stored)
  {
    hide WriteRow, Post, StartWrite, StartRead, MergeMap, RecordStart;
    var e := w.net[m];
    var r := Handle(cfg, e.dst, PeerOf(w, e.dst), e, [], w.nextReq);
    var audit := RecordDelivery(w.audit, e, PeerOf(w, e.dst).rows);
    PostedOne(SetPeer(w.(net := w.net - {m}, audit := audit), e.dst, r.peer),
              Envelope(e.dst, e.src, e.req, e.slot, Ack));
  }

  /** The coordinator handles a handoff it sent itself. */
  lemma HandedToItself(cfg: Config, w: World, c: Uuid, ring: Ring, m: nat, msg: nat, req: nat)
    requires Coordinates(w, c, ring, msg, req) && m in w.net && w.net[m].msg.Handoff? && w.net[m].dst == c
    ensures Enabled(w, Deliver(m, []))
    ensures var e, w' := w.net[m], Apply(cfg, w, Deliver(m, []));
      && Coordinates(w', c, ring, msg + 1, req) && Alone(w, w', c)
      && PeerOf(w', c) == PeerOf(w, c).(rows := PeerOf(w', c).rows)
      && w'.net == (w.net - {m})[msg := Envelope(e.dst, e.src, e.req, e.slot, Ack)]
      && w'.audit == w.audit.(stored := w'.audit.stored)
  {
    hide WriteRow, Post, StartWrite, StartRead, MergeMap, RecordStart;
    var e := w.net[m];
    var r := Handle(cfg, e.dst, PeerOf(w, e.dst), e, [], w.nextReq);
    var audit := RecordDelivery(w.audit, e, PeerOf(w, e.dst).rows);
    PostedOne(SetPeer(w.(net := w.net - {m}, audit := audit), e.dst, r.peer),
              Envelope(e.dst, e.src, e.req, e.slot, Ack));
  }

  lemma Acknowledged(cfg: Config, w: World, c: Uuid, ring: Ring, m: nat, msg: nat, req: nat)
    requires Coordinates(w, c, ring, msg, req) && m in w.net && w.net[m].msg.Ack? && w.net[m].dst == c
    requires w.net[m].req in PeerOf(w, c).reqs
    ensures Enabled(w, Deliver(m, []))
    ensures var e, w' := w.net[m], Apply(cfg, w, Deliver(m, []));
      var r := PeerOf(w, c).reqs[e.req];
      && Coordinates(w', c, ring, msg, req) && Alone(w, w', c) && w'.net == w.net - {m}
      && PeerOf(w', c) == PeerOf(w, c).(reqs := PeerOf(w, c).reqs[e.req := r.(q := CountAck(r.q))])
      && w'.audit == w.audit.(heard := w'.audit.heard)
  {
    hide WriteRow;
  }

  /** The coordinator completes the write: its row loses whatever hint it had. */
  lemma Completed(cfg: Config, w: World, c: Uuid, ring: Ring, done: nat, msg: nat, req: nat)
    requires Coordinates(w, c, ring, msg, req) && done in PeerOf(w, c).reqs
    requires var r := PeerOf(w, c).reqs[done]; r.q.fired && r.q.lists != [] && r.kind.Write?
    ensures Enabled(w, Complete(c, done))
    ensures var r, w' := PeerOf(w, c).reqs[done], Apply(cfg, w, Complete(c, done));
      && Coordinates(w', c, ring, msg + 1, req) && Alone(w, w', c)
      && PeerOf(w', c) == PeerOf(w, c).(reqs := PeerOf(w, c).reqs - {done},
                                        rows := WriteRow(cfg.policy, PeerOf(w, c).rows, r.id, r.list, None))
      && w'.net == w.net[msg := Envelope(c, r.client, 0, 0, ReplyList(r.id, r.list))]
      && w'.audit == w.audit.(acked := w.audit.acked + {done}, stored := w'.audit.stored)
  {
    hide WriteRow, Post;
    var r := PeerOf(w, c).reqs[done];
    var audit := RecordFinish(w.audit, c, done, r, true);
    PostedOne(SetPeer(w.(audit := audit), c, Finish(cfg, c, PeerOf(w, c), done, true).peer),
              Envelope(c, r.client, 0, 0, ReplyList(r.id, r.list)));
  }

  // ---------- runs with steady searches ----------

  /** The run so far ends in w, and its fallbacks came from the search. */
  ghost predicate Reaches(steps: seq<Step>, w: World) {
    Exec(MERGED, steps) == w && SteadyRun(MERGED, steps)
  }

  /** A step that starts no request. */
  lemma Then(steps: seq<Step>, w: World, step: Step) returns (longer: seq<Step>)
    requires Reaches(steps, w) && Enabled(w, step)
    requires step.Deliver? && step.msg in w.net ==> !FromClient(w.net[step.msg].msg)
    ensures longer == steps + [step] && Reaches(longer, Apply(MERGED, w, step))
  {
    hide Apply, Enabled, SteadyRun;
    longer := steps + [step];
    assert longer[..|steps|] == steps;
    SteadySnoc(MERGED, steps, step);
  }

  /** The coordinator starts a write, with these fates of its sends. */
  lemma ThenStart(steps: seq<Step>, w: World, m: nat, fates: seq<Fate>, attempts: seq<Attempt>)
    returns (longer: seq<Step>)
    requires Reaches(steps, w) && m in w.net && Enabled(w, Deliver(m, attempts)) && FromClient(w.net[m].msg)
    requires PeerOf(w, w.net[m].dst).ring == Three() && AttemptsOf(Three(), 3, fates, 1) == attempts
    ensures longer == steps + [Deliver(m, attempts)] && Reaches(longer, Apply(MERGED, w, Deliver(m, attempts)))
  {
    hide Apply, Enabled, SteadyRun, Replicas, AttemptsOf, Three;
    ThreeReplicas(w.net[m].msg.id);
    longer := steps + [Deliver(m, attempts)];
    assert longer[..|steps|] == steps;
    var replicas: seq<Uuid> := [2, 3];
    assert replicas[|replicas| - 1] == 3;
    assert Steady(MERGED, w, Deliver(m, attempts));
    SteadySnoc(MERGED, steps, Deliver(m, attempts));
  }

  lemma Starts(steps: seq<Step>, w: World, c: Uuid, m: nat, fates: seq<Fate>, attempts: seq<Attempt>,
               slots: seq<Slot>)
    returns (longer: seq<Step>, w': World)
    requires Reaches(steps, w) && PeerOf(w, c).ring == Three() && m in w.net && w.net[m].dst == c
    requires Puts(PeerOf(w, c), w.net[m]) && w.net[m].msg.id == 0
    requires AttemptsOf(Three(), 3, fates, 1) == attempts && SlotsOf([2, 3], attempts) == slots && |slots| == 2
    ensures longer == steps + [Deliver(m, attempts)] && Reaches(longer, w') && AfterStart(w, w', c, Three(), m, slots)
  {
    hide Apply, Enabled, Three, Reaches, AttemptsOf, SlotsOf, Replicas, AfterStart;
    ThreeReplicas(0);
    Started(MERGED, w, c, Three(), m, attempts, slots);
    longer := ThenStart(steps, w, m, fates, attempts);
    w' := Apply(MERGED, w, Deliver(m, attempts));
  }

  /** The outcomes of the sends of a write when the first n fail and everyone counts as
      available. */
  lemma FailedSends()
    ensures var failed := Unreached((n: Uuid) => true);
      && AttemptsOf(Three(), 3, [], 1) == []
      && AttemptsOf(Three(), 3, [failed], 1) == [Fallback(1)]
      && AttemptsOf(Three(), 3, [failed, failed], 1) == [Fallback(1), Fallback(1)]
    ensures SlotsOf([2, 3], []) == [Sent(2), Sent(3)]
    ensures SlotsOf([2, 3], [Fallback(1)]) == [Handed(2, 1), Sent(3)]
    ensures SlotsOf([2, 3], [Fallback(1), Fallback(1)]) == [Handed(2, 1), Handed(3, 1)]
  {
    hide NextNode, Three;
    Searches();
    SlotsOfThree();
  }

  lemma Searches()
    ensures var failed := Unreached((n: Uuid) => true);
      && AttemptsOf(Three(), 3, [], 1) == []
      && AttemptsOf(Three(), 3, [failed], 1) == [Fallback(1)]
      && AttemptsOf(Three(), 3, [failed, failed], 1) == [Fallback(1), Fallback(1)]
  {
    hide NextNode, Three;
    NextOfThree();
    var failed := Unreached((n: Uuid) => true);
    assert AttemptOf(Three(), 3, failed, 1) == Fallback(1);
    assert [failed][1..] == [] && [failed, failed][1..] == [failed];
    assert AttemptsOf(Three(), 3, [failed], 1) == [Fallback(1)];
  }

  lemma SlotsOfThree()
    ensures SlotsOf([2, 3], []) == [Sent(2), Sent(3)]
    ensures SlotsOf([2, 3], [Fallback(1)]) == [Handed(2, 1), Sent(3)]
    ensures SlotsOf([2, 3], [Fallback(1), Fallback(1)]) == [Handed(2, 1), Handed(3, 1)]
  {
    var replicas: seq<Uuid> := [2, 3];
    var last: seq<Uuid> := [3];
    assert replicas[1..] == last && last[1..] == [];
    assert SlotsOf([], []) == [];
    assert SlotsOf(last, []) == [Sent(3)];
    var one: seq<Attempt> := [Fallback(1)];
    var two: seq<Attempt> := [Fallback(1), Fallback(1)];
    assert one[1..] == [] && two[1..] == one;
    assert SlotsOf(last, one) == [Handed(3, 1)];
    assert SlotsOf(replicas, one) == [Handed(2, 1)] + [Sent(3)];
    assert SlotsOf(replicas, two) == [Handed(2, 1)] + [Handed(3, 1)];
  }

  /** A server puts the three on its ring. */
  lemma JoinThree(steps: seq<Step>, w: World, c: Uuid) returns (longer: seq<Step>, w': World)
    requires Reaches(steps, w) && PeerOf(w, c).ring == map[]
    ensures Reaches(longer, w') && Alone(w, w', c) && PeerOf(w', c) == PeerOf(w, c).(ring := Three())
    ensures w'.net == w.net && w'.nextMsg == w.nextMsg && w'.nextReq == w.nextReq && w'.audit == w.audit
  {
    hide AddNode, Three, Exec, SteadyRun;
    ThreeBuilt();
    longer := Then(steps, w, JoinRing(c, 1));
    w' := Apply(MERGED, w, JoinRing(c, 1));
    longer := Then(longer, w', JoinRing(c, 2));
    w' := Apply(MERGED, w', JoinRing(c, 2));
    longer := Then(longer, w', JoinRing(c, 3));
    w' := Apply(MERGED, w', JoinRing(c, 3));
  }

  lemma Begin() returns (steps: seq<Step>, w: World)
    ensures Reaches(steps, w) && Coordinates(w, 1, Three(), 0, 1) && w.net == map[] && w.clients == map[]
    ensures w.audit == START.audit && PeerOf(w, 1) == NO_PEER.(ring := Three())
    ensures forall n: Uuid | n != 1 :: PeerOf(w, n) == NO_PEER
  {
    hide Three;
    assert Reaches([], START);
    steps, w := JoinThree([], START, 1);
  }
}

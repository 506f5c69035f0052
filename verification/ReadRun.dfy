/** A run in which a read completes: a second client fetches the list that a first client's
    acknowledged write left on three servers, and ends up with it. */
module ReadRun {
  import opened Basics
  import opened CrdtValues
  import opened Protocol
  import opened Cluster
  import opened FallbackSearch
  import opened Growth
  import opened Exchanges
  import opened ReadYourWrites
  import opened ThreeServers
  import opened LostWrite

  /** The request of client 8 as a read. */
  function ReadRequest(row: ItemMap): Request {
    Request(8, 0, map[], Read(row), [], NewQuorum(READ_NODES, map[]))
  }

  lemma FetchPosted(w: World)
    ensures Enabled(w, Fetch(8, 0, 1))
    ensures Apply(MERGED, w, Fetch(8, 0, 1)) ==
      w.(net := w.net[w.nextMsg := Envelope(8, 1, 0, 0, GetList(0, ClientList(w, 8, 0)))], nextMsg := w.nextMsg + 1)
  {
    hide Post;
    PostedOne(w, Envelope(8, 1, 0, 0, GetList(0, ClientList(w, 8, 0))));
  }

  lemma ReadReaction(cfg: Config, p: PeerState, e: Envelope, req: nat)
    requires e.msg == GetList(0, map[]) && e.src == 8 && 0 in p.rows && Replicas(cfg.hashes, p.ring, 0) == [2, 3]
    ensures var r := Handle(cfg, 1, p, e, [], req);
      && r.peer == p.(reqs := p.reqs[req := ReadRequest(p.rows[0].list)])
      && r.sends == [Envelope(1, 2, req, 0, ReplicateList(0, map[], false)),
                     Envelope(1, 3, req, 1, ReplicateList(0, map[], false))]
  {
    hide Replicas;
  }

  /** What asking both replicas does. */
  ghost predicate Asked(w: World, w': World, m: nat)
    requires 0 in PeerOf(w, 1).rows
  {
    && PeerOf(w', 1).reqs == PeerOf(w, 1).reqs[w.nextReq := ReadRequest(PeerOf(w, 1).rows[0].list)]
    && (forall n: Uuid :: PeerOf(w', n).rows == PeerOf(w, n).rows) && w'.nextMsg == w.nextMsg + 2
    && w'.net == (w.net - {m})[w.nextMsg := Envelope(1, 2, w.nextReq, 0, ReplicateList(0, map[], false))]
                              [w.nextMsg + 1 := Envelope(1, 3, w.nextReq, 1, ReplicateList(0, map[], false))]
  }

  /** The coordinator, which has a row, asks both replicas. */
  lemma AsksBoth(cfg: Config, w: World, m: nat)
    requires 0 in PeerOf(w, 1).rows && Replicas(cfg.hashes, PeerOf(w, 1).ring, 0) == [2, 3]
    requires m in w.net && w.net[m] == Envelope(8, 1, 0, 0, GetList(0, map[]))
    ensures Enabled(w, Deliver(m, [])) && Asked(w, Apply(cfg, w, Deliver(m, [])), m)
  {
    hide Handle, Replicas, Batch, RecordStart, Apply, Post, SetPeer, ReadRequest;
    var w1 := w.(net := w.net - {m});
    StartedIs(cfg, w, m, []);
    ReadReaction(cfg, PeerOf(w, 1), w.net[m], w.nextReq);
    var r := Handle(cfg, 1, PeerOf(w, 1), w.net[m], [], w.nextReq);
    PostedStart(w1, 1, r.peer, RecordStart(w1, 1, r, cfg.hashes), r.sends[0], r.sends[1]);
  }

  /** The state in which the get is about to be delivered. */
  lemma GetPending() returns (steps: seq<Step>, w: World)
    ensures Reaches(steps, w) && PeerOf(w, 1).ring == Three() && w.nextMsg == 7 && w.nextReq == 2
    ensures w.net.Keys == {5, 6} && w.net[6] == Envelope(8, 1, 0, 0, GetList(0, map[]))
    ensures forall n: Uuid | n in {1, 2, 3} :: Holds(w, n, 0, MILK)
  {
    hide Apply, Enabled, Three, Reaches, Holds, Planned, Idle;
    ghost var w0: World;
    steps, w0 := FirstAcknowledged();
    FirstHeld(steps, w0, [Sent(2), Sent(3)], 0);
    FirstHeld(steps, w0, [Sent(2), Sent(3)], 1);
    FirstHeld(steps, w0, [Sent(2), Sent(3)], 2);
    IdleClient(w0, {1, 2, 3});
    FetchPosted(w0);
    steps := Then(steps, w0, Fetch(8, 0, 1));
    w := Apply(MERGED, w0, Fetch(8, 0, 1));
    forall n: Uuid | n in {1, 2, 3} ensures Holds(w, n, 0, MILK) { SamePeersHold(w0, w, n); }
  }

  lemma SamePeersHold(w: World, w': World, n: Uuid)
    requires w'.peers == w.peers && Holds(w, n, 0, MILK)
    ensures Holds(w', n, 0, MILK)
  {}

  /** Both replicas answer. */
  lemma BothAnswer(steps: seq<Step>, w: World) returns (longer: seq<Step>, w': World)
    requires Reaches(steps, w) && w.nextMsg == 9 && w.net.Keys == {5, 7, 8}
    requires w.net[7] == Envelope(1, 2, 2, 0, ReplicateList(0, map[], false))
    requires w.net[8] == Envelope(1, 3, 2, 1, ReplicateList(0, map[], false))
    requires 0 in PeerOf(w, 2).rows && 0 in PeerOf(w, 3).rows
    ensures longer == steps + [Deliver(7, [])] + [Deliver(8, [])] && Reaches(longer, w')
    ensures w'.net.Keys == {5, 9, 10} && PeerOf(w', 1) == PeerOf(w, 1)
    ensures w'.net[9].msg.AckList? && w'.net[9].dst == 1 && w'.net[9].req == 2
    ensures w'.net[10].msg.AckList? && w'.net[10].dst == 1 && w'.net[10].req == 2
  {
    hide Apply, Enabled, Reaches;
    ReadTaken(MERGED, w, 7);
    longer := Then(steps, w, Deliver(7, []));
    var w1 := Apply(MERGED, w, Deliver(7, []));
    ReadTaken(MERGED, w1, 8);
    longer := Then(longer, w1, Deliver(8, []));
    w' := Apply(MERGED, w1, Deliver(8, []));
  }

  /** The coordinator has heard both. */
  lemma BothCounted(steps: seq<Step>, w: World, row: ItemMap) returns (longer: seq<Step>, w': World)
    requires Reaches(steps, w) && w.net.Keys == {5, 9, 10} && 2 in PeerOf(w, 1).reqs
    requires PeerOf(w, 1).reqs[2] == ReadRequest(row)
    requires w.net[9].msg.AckList? && w.net[9].dst == 1 && w.net[9].req == 2
    requires w.net[10].msg.AckList? && w.net[10].dst == 1 && w.net[10].req == 2
    ensures longer == steps + [Deliver(9, [])] + [Deliver(10, [])] && Reaches(longer, w')
    ensures Enabled(w', Complete(1, 2)) && PeerOf(w', 1).reqs[2].kind.Read?
  {
    hide Apply, Reaches;
    AnswerTaken(MERGED, w, 9);
    longer := Then(steps, w, Deliver(9, []));
    var w1 := Apply(MERGED, w, Deliver(9, []));
    AnswerTaken(MERGED, w1, 10);
    longer := Then(longer, w1, Deliver(10, []));
    w' := Apply(MERGED, w1, Deliver(10, []));
  }

  /** The get is delivered and both replicas are asked. */
  lemma GetAsked() returns (before: seq<Step>, w: World, steps: seq<Step>, w1: World)
    ensures Reaches(before, w) && steps == before + [Deliver(6, [])] && Reaches(steps, w1)
    ensures Enabled(w, Deliver(6, [])) && 6 in w.net && w.net[6] == Envelope(8, 1, 0, 0, GetList(0, map[]))
    ensures w.nextReq == 2 && 0 in PeerOf(w, 1).rows && forall n: Uuid | n in {1, 2, 3} :: Holds(w, n, 0, MILK)
    ensures w1.nextMsg == 9 && w1.net.Keys == {5, 7, 8} && 0 in PeerOf(w1, 2).rows && 0 in PeerOf(w1, 3).rows
    ensures w1.net[7] == Envelope(1, 2, 2, 0, ReplicateList(0, map[], false))
    ensures w1.net[8] == Envelope(1, 3, 2, 1, ReplicateList(0, map[], false))
    ensures 2 in PeerOf(w1, 1).reqs && PeerOf(w1, 1).reqs[2] == ReadRequest(PeerOf(w, 1).rows[0].list)
  {
    hide Reaches, Three, Holds, Apply, Asked, ReadRequest, AttemptsOf, SlotsOf, Replicas, Enabled;
    before, w := GetPending();
    RowHeld(w, 1);
    RowHeld(w, 2);
    RowHeld(w, 3);
    ThreeReplicas(0);
    AsksBoth(MERGED, w, 6);
    FailedSends();
    steps := ThenStart(before, w, 6, [], []);
    w1 := Apply(MERGED, w, Deliver(6, []));
    AskedBoth(w, w1);
  }

  /** The get is asked, answered and counted. */
  lemma ReadRuns() returns (before: seq<Step>, after: seq<Step>)
    ensures SteadyRun(MERGED, before + [Deliver(6, [])] + after) && GetCompletes(MERGED, before, 6, [], after)
    ensures var w := Exec(MERGED, before);
      && w.net[6] == Envelope(8, 1, 0, 0, GetList(0, map[])) && Holds(w, 1, 0, MILK)
      && (forall n: Uuid | n in {2, 3} :: Holds(w, n, 0, MILK))
  {
    hide Exec, SteadyRun, Holds, Apply, ReadRequest, Enabled;
    ghost var w: World, steps: seq<Step>, w1: World, w2: World, w3: World;
    before, w, steps, w1 := GetAsked();
    steps, w2 := BothAnswer(steps, w1);
    steps, w3 := BothCounted(steps, w2, PeerOf(w, 1).rows[0].list);
    after := [Deliver(7, [])] + [Deliver(8, [])] + [Deliver(9, [])] + [Deliver(10, [])];
    assert steps == before + [Deliver(6, [])] + after;
  }

  lemma AskedBoth(w: World, w': World)
    requires 0 in PeerOf(w, 1).rows && 0 in PeerOf(w, 2).rows && 0 in PeerOf(w, 3).rows && Asked(w, w', 6)
    requires w.nextMsg == 7 && w.nextReq == 2 && w.net.Keys == {5, 6}
    ensures w'.nextMsg == 9 && w'.net.Keys == {5, 7, 8} && 0 in PeerOf(w', 2).rows && 0 in PeerOf(w', 3).rows
    ensures w'.net[7] == Envelope(1, 2, 2, 0, ReplicateList(0, map[], false))
    ensures w'.net[8] == Envelope(1, 3, 2, 1, ReplicateList(0, map[], false))
    ensures 2 in PeerOf(w', 1).reqs && PeerOf(w', 1).reqs[2] == ReadRequest(PeerOf(w, 1).rows[0].list)
  {
    hide ReadRequest;
  }

  /** A get, delivered after `before`, completes with the acknowledged write, and once its client has
      merged the answer the client's list has the write too. */
  ghost predicate Fetches(before: seq<Step>, m: nat, after: seq<Step>) {
    && SteadyRun(MERGED, before + [Deliver(m, [])] + after) && GetCompletes(MERGED, before, m, [], after)
    && var w, w2 := Exec(MERGED, before), Exec(MERGED, before + [Deliver(m, [])] + after);
       && MapLe(MILK, GetReply(MERGED, before, m, [], after))
       && var w3 := Apply(MERGED, w2, Complete(w.net[m].dst, w.nextReq));
          Enabled(w3, ClientMerge(w2.nextMsg))
          && MapLe(MILK, ClientList(Apply(MERGED, w3, ClientMerge(w2.nextMsg)), w.net[m].src, 0))
  }

  /** Some run has an acknowledged write and then a read, by another client, that completes with it. */
  lemma ReadCompletes()
    ensures exists before, m: nat, after :: Fetches(before, m, after)
  {
    hide Exec, SteadyRun, Holds, Apply, GetReply, MapLe;
    var before, after := ReadRuns();
    var w, w2 := Exec(MERGED, before), Exec(MERGED, before + [Deliver(6, [])] + after);
    ReadSeesRow(MERGED, before, 6, [], after, MILK);
    AnswerReachesClient(MERGED, before, 6, [], after);
    var w3 := Apply(MERGED, w2, Complete(1, w.nextReq));
    MapLeTransitive(MILK, GetReply(MERGED, before, 6, [], after),
                    ClientList(Apply(MERGED, w3, ClientMerge(w2.nextMsg)), 8, 0));
    assert Fetches(before, 6, after);
  }

  lemma RowHeld(w: World, n: Uuid)
    requires Holds(w, n, 0, MILK)
    ensures 0 in PeerOf(w, n).rows
  {}
}

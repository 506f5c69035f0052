/** Membership by gossip, as a transition system: servers with their membership tables and rings,
    and a network that may lose, reorder and duplicate messages.

    A server is created knowing itself, joins (or is the seed) and then starts to listen.  A
    gossip send reads the table and picks its peer in one step; a send that fails is a lost
    message. */
module Gossip {
  import opened Basics
  import opened RingValues
  import opened RingMembership

  type Address = string
  type Table = map<Uuid, Address>

  datatype Phase = New | Joined | Started

  /** `away` is bookkeeping that no program reads: the server has taken itself off its ring and has
      received no gossip since. */
  datatype Server = Server(addr: Address, table: Table, ring: Ring, phase: Phase, away: bool)

  datatype News = Hello(uuid: Uuid, addr: Address) | Gossip(table: Table)

  datatype Packet = Packet(dst: Uuid, news: News)

  datatype Cloud = Cloud(servers: map<Uuid, Server>, net: map<nat, Packet>, next: nat)

  const EMPTY := Cloud(map[], map[], 0)

  datatype Move =
    | Create(uuid: Uuid, addr: Address)
    | SendHello(server: Uuid, seed: Uuid)
    | FinishJoin(server: Uuid, msg: nat)
    | StartListening(server: Uuid)
    | SendGossip(server: Uuid, peer: Uuid)
    | ReceiveGossip(msg: nat, order: seq<Uuid>)
    | ReceiveHello(msg: nat, peer: Uuid)
    | Leave(server: Uuid)
    | Drop(msg: nat)
    | Copy(msg: nat)

  /** A table after a gossip: the entries it already has are kept. */
  function KeepFirst(mine: Table, incoming: Table): Table {
    incoming + mine
  }

  /** `add_nodes`: one ring insertion a server, in the iteration order of the message's table. */
  function AddNodes(hs: Hashes, ring: Ring, nodes: seq<Uuid>, vnodes: nat): Ring {
    if nodes == [] then ring
    else AddNode(hs, AddNodes(hs, ring, nodes[..|nodes| - 1], vnodes), nodes[|nodes| - 1], vnodes)
  }

  function SendPackets(w: Cloud, packets: seq<Packet>): Cloud
    decreases |packets|
  {
    if packets == [] then w
    else
      var w' := SendPackets(w, packets[..|packets| - 1]);
      w'.(net := w'.net[w'.next := packets[|packets| - 1]], next := w'.next + 1)
  }

  function SetServer(w: Cloud, s: Uuid, v: Server): Cloud {
    w.(servers := w.servers[s := v])
  }

  /** A random gossip: nothing if the pick is the sender itself. */
  function GossipTo(s: Uuid, table: Table, peer: Uuid): seq<Packet> {
    if peer == s then [] else [Packet(peer, Gossip(table))]
  }

  predicate Possible(w: Cloud, move: Move) {
    match move
    case Create(u, _) => u !in w.servers
    case SendHello(s, _) => s in w.servers && w.servers[s].phase.New?
    case FinishJoin(s, m) =>
      && s in w.servers && w.servers[s].phase.New?
      && m in w.net && w.net[m].dst == s && w.net[m].news.Gossip?
    case StartListening(s) => s in w.servers
    case SendGossip(s, p) => s in w.servers && w.servers[s].phase.Started? && p in w.servers[s].table
    case ReceiveGossip(m, order) =>
      && m in w.net && w.net[m].news.Gossip?
      && w.net[m].dst in w.servers && w.servers[w.net[m].dst].phase.Started?
      && Elements(order) == w.net[m].news.table.Keys
    case ReceiveHello(m, p) =>
      && m in w.net && w.net[m].news.Hello?
      && w.net[m].dst in w.servers && w.servers[w.net[m].dst].phase.Started?
      && p in w.servers[w.net[m].dst].table[w.net[m].news.uuid := w.net[m].news.addr]
    case Leave(s) => s in w.servers && w.servers[s].phase.Started?
    case Drop(m) => m in w.net
    case Copy(m) => m in w.net
  }

  function Make(hs: Hashes, vnodes: nat, w: Cloud, move: Move): Cloud
    requires Possible(w, move)
  {
    match move
    case Create(u, addr) => SetServer(w, u, Server(addr, map[u := addr], AddNode(hs, map[], u, vnodes), New, false))
    case SendHello(s, seed) => SendPackets(w, [Packet(seed, Hello(s, w.servers[s].addr))])
    case FinishJoin(s, m) =>
      SetServer(w.(net := w.net - {m}), s, w.servers[s].(table := w.net[m].news.table, phase := Joined))
    case StartListening(s) => SetServer(w, s, w.servers[s].(phase := Started))
    case SendGossip(s, p) => SendPackets(w, GossipTo(s, w.servers[s].table, p))
    case ReceiveGossip(m, order) =>
      var s, table := w.net[m].dst, w.net[m].news.table;
      var v := w.servers[s];
      SetServer(w.(net := w.net - {m}), s,
                v.(table := KeepFirst(v.table, table), ring := AddNodes(hs, v.ring, order, vnodes), away := false))
    case ReceiveHello(m, p) =>
      var s, hello := w.net[m].dst, w.net[m].news;
      var v := w.servers[s].(table := w.servers[s].table[hello.uuid := hello.addr]);
      SendPackets(SetServer(w.(net := w.net - {m}), s, v),
                  [Packet(hello.uuid, Gossip(v.table))] + GossipTo(s, v.table, p))
    case Leave(s) =>
      SetServer(w, s, w.servers[s].(ring := RemoveNode(hs, w.servers[s].ring, s, vnodes), away := true))
    case Drop(m) => w.(net := w.net - {m})
    case Copy(m) => SendPackets(w, [w.net[m]])
  }

  function Try(hs: Hashes, vnodes: nat, w: Cloud, move: Move): Cloud {
    if Possible(w, move) then Make(hs, vnodes, w, move) else w
  }

  function Play(hs: Hashes, vnodes: nat, moves: seq<Move>): Cloud {
    if moves == [] then EMPTY else Try(hs, vnodes, Play(hs, vnodes, moves[..|moves| - 1]), moves[|moves| - 1])
  }

  // ---------- safety ----------

  /** The true map from servers to the addresses they are bound to. */
  function Truth(w: Cloud): Table {
    map s | s in w.servers :: w.servers[s].addr
  }

  ghost predicate SubTable(t: Table, u: Table) {
    t.Keys <= u.Keys && forall s <- t :: t[s] == u[s]
  }

  ghost predicate ServerOk(hs: Hashes, vnodes: nat, truth: Table, s: Uuid, v: Server) {
    && s in v.table && SubTable(v.table, truth)
    && v.ring.Values <= v.table.Keys
    && (v.phase.New? ==> v.table == map[s := v.addr])
    && (NoCollisions(hs, vnodes, truth.Keys) && vnodes > 0 ==>
          (s in v.ring.Values <==> !v.away) && Represents(hs, vnodes, v.ring, v.ring.Values))
  }

  ghost predicate PacketOk(truth: Table, p: Packet) {
    match p.news
    case Hello(u, addr) => u in truth && truth[u] == addr
    case Gossip(table) => SubTable(table, truth) && p.dst in table
  }

  /** Every table, held or in flight, is a part of the true map; a table sent to a server
      contains it; every ring is the ring of a set of servers its owner knows, itself among
      them unless it has left. */
  ghost predicate Safe(hs: Hashes, vnodes: nat, w: Cloud) {
    && (forall s <- w.servers :: ServerOk(hs, vnodes, Truth(w), s, w.servers[s]))
    && (forall m <- w.net :: m < w.next && PacketOk(Truth(w), w.net[m]))
  }

  /** No server is forgotten by a table, and no address changes. */
  ghost predicate Grows(w: Cloud, w': Cloud) {
    forall s <- w.servers ::
      && s in w'.servers && w'.servers[s].addr == w.servers[s].addr
      && SubTable(w.servers[s].table, w'.servers[s].table)
  }

  lemma NoCollisionsBelow(hs: Hashes, vnodes: nat, t: set<Uuid>, u: set<Uuid>)
    requires t <= u && NoCollisions(hs, vnodes, u)
    ensures NoCollisions(hs, vnodes, t)
  {}

  lemma ServerStaysOk(hs: Hashes, vnodes: nat, truth: Table, truth': Table, s: Uuid, v: Server)
    requires ServerOk(hs, vnodes, truth, s, v) && SubTable(truth, truth')
    ensures ServerOk(hs, vnodes, truth', s, v)
  {
    hide NoCollisions, Represents;
    if NoCollisions(hs, vnodes, truth'.Keys) { NoCollisionsBelow(hs, vnodes, truth.Keys, truth'.Keys); }
  }

  lemma PacketStaysOk(truth: Table, truth': Table, p: Packet)
    requires PacketOk(truth, p) && SubTable(truth, truth')
    ensures PacketOk(truth', p)
  {}

  lemma TruthAfterSet(w: Cloud, s: Uuid, v: Server)
    requires s in w.servers ==> v.addr == w.servers[s].addr
    ensures Truth(SetServer(w, s, v)) == Truth(w)[s := v.addr]
    ensures SubTable(Truth(w), Truth(SetServer(w, s, v)))
  {}

  lemma SafeSetServer(hs: Hashes, vnodes: nat, w: Cloud, s: Uuid, v: Server)
    requires Safe(hs, vnodes, w) && (s in w.servers ==> v.addr == w.servers[s].addr)
    requires ServerOk(hs, vnodes, Truth(w)[s := v.addr], s, v)
    ensures Safe(hs, vnodes, SetServer(w, s, v))
  {
    hide ServerOk, PacketOk, Truth, SubTable;
    var w' := SetServer(w, s, v);
    TruthAfterSet(w, s, v);
    forall t | t in w'.servers ensures ServerOk(hs, vnodes, Truth(w'), t, w'.servers[t]) {
      if t != s { ServerStaysOk(hs, vnodes, Truth(w), Truth(w'), t, w.servers[t]); }
    }
    forall m | m in w'.net ensures PacketOk(Truth(w'), w'.net[m]) {
      PacketStaysOk(Truth(w), Truth(w'), w.net[m]);
    }
  }

  lemma {:induction false} SafeSend(hs: Hashes, vnodes: nat, w: Cloud, packets: seq<Packet>)
    requires Safe(hs, vnodes, w) && forall p <- packets :: PacketOk(Truth(w), p)
    ensures Safe(hs, vnodes, SendPackets(w, packets)) && SendPackets(w, packets).servers == w.servers
    decreases |packets|
  {
    hide ServerOk, PacketOk, Truth;
    if packets != [] {
      var front, last := packets[..|packets| - 1], packets[|packets| - 1];
      assert last in packets && forall p <- front :: p in packets;
      SafeSend(hs, vnodes, w, front);
      SameTruth(w, SendPackets(w, front));
      SameTruth(w, SendPackets(w, packets));
    }
  }

  lemma SameTruth(w: Cloud, w': Cloud)
    requires w'.servers == w.servers
    ensures Truth(w') == Truth(w)
  {}

  lemma SafeTake(hs: Hashes, vnodes: nat, w: Cloud, m: nat)
    requires Safe(hs, vnodes, w)
    ensures Safe(hs, vnodes, w.(net := w.net - {m})) && Truth(w.(net := w.net - {m})) == Truth(w)
  {
    hide ServerOk, PacketOk;
  }

  // ---------- rings ----------

  lemma RingGainsNode(hs: Hashes, vnodes: nat, ring: Ring, n: Uuid)
    ensures AddNode(hs, ring, n, vnodes).Values <= ring.Values + {n}
  {
    AddNodeAt(hs, ring, n, vnodes);
    var ring' := AddNode(hs, ring, n, vnodes);
    forall s | s in ring'.Values ensures s in ring.Values + {n} {
      var k: nat :| k in ring' && ring'[k] == s;
    }
  }

  lemma {:induction false} RingGainsNodes(hs: Hashes, vnodes: nat, ring: Ring, nodes: seq<Uuid>, servers: set<Uuid>)
    requires ring.Values <= servers && forall n <- nodes :: n in servers
    ensures AddNodes(hs, ring, nodes, vnodes).Values <= servers
    decreases |nodes|
  {
    if nodes != [] {
      var front, last := nodes[..|nodes| - 1], nodes[|nodes| - 1];
      assert last in nodes && forall n <- front :: n in nodes;
      RingGainsNodes(hs, vnodes, ring, front, servers);
      RingGainsNode(hs, vnodes, AddNodes(hs, ring, front, vnodes), last);
    }
  }

  /** Under distinct hashes the ring after a gossip is the ring of the old and the new servers,
      in whatever order they were added. */
  lemma {:induction false} GossipedRing(hs: Hashes, vnodes: nat, universe: set<Uuid>, ring: Ring, nodes: seq<Uuid>)
    requires NoCollisions(hs, vnodes, universe) && ring.Values + Elements(nodes) <= universe
    requires Represents(hs, vnodes, ring, ring.Values)
    ensures Represents(hs, vnodes, AddNodes(hs, ring, nodes, vnodes), ring.Values + Elements(nodes))
    decreases |nodes|
  {
    hide NoCollisions, Represents, AddNode;
    if nodes == [] {
      assert ring.Values + Elements(nodes) == ring.Values;
    } else {
      var front, last := nodes[..|nodes| - 1], nodes[|nodes| - 1];
      assert nodes == front + [last];
      assert Elements(nodes) == Elements(front) + {last};
      GossipedRing(hs, vnodes, universe, ring, front);
      assert ring.Values + Elements(front) + {last} == ring.Values + Elements(nodes);
      NoCollisionsBelow(hs, vnodes, ring.Values + Elements(front) + {last}, universe);
      AddRepresents(hs, vnodes, AddNodes(hs, ring, front, vnodes), ring.Values + Elements(front), last);
    }
  }

  lemma {:induction false} RingLosesNode(hs: Hashes, vnodes: nat, ring: Ring, n: Uuid)
    ensures RemoveNode(hs, ring, n, vnodes).Values <= ring.Values
  {
    if vnodes > 0 {
      RingLosesNode(hs, vnodes - 1, ring, n);
    }
  }

  /** Under distinct hashes exactly the server removed is gone. */
  lemma RingWithout(hs: Hashes, vnodes: nat, universe: set<Uuid>, ring: Ring, n: Uuid)
    requires NoCollisions(hs, vnodes, universe) && ring.Values + {n} <= universe && vnodes > 0
    requires Represents(hs, vnodes, ring, ring.Values)
    ensures RemoveNode(hs, ring, n, vnodes).Values == ring.Values - {n}
    ensures Represents(hs, vnodes, RemoveNode(hs, ring, n, vnodes), ring.Values - {n})
  {
    hide NoCollisions, Represents, RemoveNode;
    NoCollisionsBelow(hs, vnodes, ring.Values + {n}, universe);
    RemoveRepresents(hs, vnodes, ring, ring.Values, n);
    RepresentedServers(hs, vnodes, RemoveNode(hs, ring, n, vnodes), ring.Values - {n});
  }

  // ---------- moves ----------

  lemma CreateOk(hs: Hashes, vnodes: nat, truth: Table, u: Uuid, addr: Address)
    ensures ServerOk(hs, vnodes, truth[u := addr], u,
                     Server(addr, map[u := addr], AddNode(hs, map[], u, vnodes), New, false)) || (u in truth)
  {
    hide NoCollisions, Represents, AddNode;
    var ring := AddNode(hs, map[], u, vnodes);
    RingGainsNode(hs, vnodes, map[], u);
    if NoCollisions(hs, vnodes, truth[u := addr].Keys) && vnodes > 0 {
      FirstRing(hs, vnodes, u, truth[u := addr].Keys);
    }
  }

  lemma FirstRing(hs: Hashes, vnodes: nat, u: Uuid, universe: set<Uuid>)
    requires NoCollisions(hs, vnodes, universe) && vnodes > 0 && u in universe
    ensures var ring := AddNode(hs, map[], u, vnodes); ring.Values == {u} && Represents(hs, vnodes, ring, {u})
  {
    assert Represents(hs, vnodes, map[], {});
    assert {} + {u} == {u};
    NoCollisionsBelow(hs, vnodes, {u}, universe);
    AddRepresents(hs, vnodes, map[], {}, u);
    RepresentedServers(hs, vnodes, AddNode(hs, map[], u, vnodes), {u});
  }

  lemma GossipOk(hs: Hashes, vnodes: nat, truth: Table, s: Uuid, v: Server, table: Table, order: seq<Uuid>)
    requires ServerOk(hs, vnodes, truth, s, v) && SubTable(table, truth) && Elements(order) == table.Keys
    requires v.phase.Started? && s in table
    ensures ServerOk(hs, vnodes, truth, s, v.(table := KeepFirst(v.table, table),
                                              ring := AddNodes(hs, v.ring, order, vnodes), away := false))
  {
    hide NoCollisions, Represents;
    RingGainsNodes(hs, vnodes, v.ring, order, KeepFirst(v.table, table).Keys);
    if NoCollisions(hs, vnodes, truth.Keys) && vnodes > 0 {
      GossipedRing(hs, vnodes, truth.Keys, v.ring, order);
      RepresentedServers(hs, vnodes, AddNodes(hs, v.ring, order, vnodes), v.ring.Values + Elements(order));
    }
  }

  lemma LeaveOk(hs: Hashes, vnodes: nat, truth: Table, s: Uuid, v: Server)
    requires ServerOk(hs, vnodes, truth, s, v) && v.phase.Started?
    ensures ServerOk(hs, vnodes, truth, s, v.(ring := RemoveNode(hs, v.ring, s, vnodes), away := true))
  {
    hide NoCollisions, Represents, RemoveNode;
    RingLosesNode(hs, vnodes, v.ring, s);
    if NoCollisions(hs, vnodes, truth.Keys) && vnodes > 0 {
      RingWithout(hs, vnodes, truth.Keys, v.ring, s);
    }
  }

  lemma HelloOk(hs: Hashes, vnodes: nat, truth: Table, s: Uuid, v: Server, u: Uuid)
    requires ServerOk(hs, vnodes, truth, s, v) && v.phase.Started? && u in truth
    ensures ServerOk(hs, vnodes, truth, s, v.(table := v.table[u := truth[u]]))
  {
    hide NoCollisions, Represents;
  }

  /** A known server takes a message and updates itself. */
  lemma UpdateSafe(hs: Hashes, vnodes: nat, w: Cloud, m: nat, s: Uuid, v: Server)
    requires Safe(hs, vnodes, w) && s in w.servers && v.addr == w.servers[s].addr
    requires ServerOk(hs, vnodes, Truth(w), s, v) && SubTable(w.servers[s].table, v.table)
    ensures Safe(hs, vnodes, SetServer(w.(net := w.net - {m}), s, v))
    ensures Truth(SetServer(w.(net := w.net - {m}), s, v)) == Truth(w)
    ensures Grows(w, SetServer(w.(net := w.net - {m}), s, v))
  {
    hide ServerOk;
    SafeTake(hs, vnodes, w, m);
    assert Truth(w)[s := v.addr] == Truth(w);
    SafeSetServer(hs, vnodes, w.(net := w.net - {m}), s, v);
  }

  lemma Known(hs: Hashes, vnodes: nat, w: Cloud, s: Uuid)
    requires Safe(hs, vnodes, w) && s in w.servers
    ensures ServerOk(hs, vnodes, Truth(w), s, w.servers[s])
  {}

  lemma Received(hs: Hashes, vnodes: nat, w: Cloud, m: nat)
    requires Safe(hs, vnodes, w) && m in w.net
    ensures PacketOk(Truth(w), w.net[m])
  {}

  lemma JoinOk(hs: Hashes, vnodes: nat, truth: Table, s: Uuid, v: Server, table: Table)
    requires ServerOk(hs, vnodes, truth, s, v) && v.phase.New? && SubTable(table, truth) && s in table
    ensures ServerOk(hs, vnodes, truth, s, v.(table := table, phase := Joined)) && SubTable(v.table, table)
  {
    hide NoCollisions, Represents;
  }

  lemma KeepFirstGrows(hs: Hashes, vnodes: nat, truth: Table, s: Uuid, v: Server, u: Uuid, table: Table)
    requires ServerOk(hs, vnodes, truth, s, v) && u in truth
    ensures SubTable(v.table, KeepFirst(v.table, table)) && SubTable(v.table, v.table[u := truth[u]])
  {
    hide NoCollisions, Represents;
  }

  lemma HelloSafe(hs: Hashes, vnodes: nat, w: Cloud, m: nat, p: Uuid)
    requires Safe(hs, vnodes, w) && Possible(w, ReceiveHello(m, p))
    ensures Safe(hs, vnodes, Make(hs, vnodes, w, ReceiveHello(m, p)))
    ensures Grows(w, Make(hs, vnodes, w, ReceiveHello(m, p)))
  {
    hide Safe, ServerOk, PacketOk, Truth, Grows, SendPackets, SubTable;
    var s, hello := w.net[m].dst, w.net[m].news;
    var v := w.servers[s].(table := w.servers[s].table[hello.uuid := hello.addr]);
    var w1 := SetServer(w.(net := w.net - {m}), s, v);
    var sends := [Packet(hello.uuid, Gossip(v.table))] + GossipTo(s, v.table, p);
    assert Make(hs, vnodes, w, ReceiveHello(m, p)) == SendPackets(w1, sends);
    Known(hs, vnodes, w, s);
    Received(hs, vnodes, w, m);
    HelloTrue(w, m);
    HelloOk(hs, vnodes, Truth(w), s, w.servers[s], hello.uuid);
    KeepFirstGrows(hs, vnodes, Truth(w), s, w.servers[s], hello.uuid, map[]);
    UpdateSafe(hs, vnodes, w, m, s, v);
    HelloAnswers(hs, vnodes, Truth(w), s, v, hello.uuid, p);
    SafeSend(hs, vnodes, w1, sends);
    GrowsSame(w, w1, SendPackets(w1, sends));
  }

  lemma HelloTrue(w: Cloud, m: nat)
    requires m in w.net && w.net[m].news.Hello? && PacketOk(Truth(w), w.net[m])
    ensures w.net[m].news.uuid in Truth(w) && Truth(w)[w.net[m].news.uuid] == w.net[m].news.addr
  {}

  lemma HelloAnswers(hs: Hashes, vnodes: nat, truth: Table, s: Uuid, v: Server, u: Uuid, p: Uuid)
    requires ServerOk(hs, vnodes, truth, s, v) && u in v.table && p in v.table
    ensures forall q <- [Packet(u, Gossip(v.table))] + GossipTo(s, v.table, p) :: PacketOk(truth, q)
  {
    hide NoCollisions, Represents;
  }

  lemma GrowsSame(w: Cloud, w': Cloud, w'': Cloud)
    requires Grows(w, w') && w''.servers == w'.servers
    ensures Grows(w, w'')
  {}

  /** Every move keeps the tables true, loses no server from any table, and changes no address. */
  lemma MoveSafe(hs: Hashes, vnodes: nat, w: Cloud, move: Move)
    requires Safe(hs, vnodes, w) && Possible(w, move)
    ensures Safe(hs, vnodes, Make(hs, vnodes, w, move)) && Grows(w, Make(hs, vnodes, w, move))
  {
    hide Safe, ServerOk, AddNode, AddNodes, SendPackets, PacketOk, Truth, KeepFirst;
    match move {
      case ReceiveGossip(m, order) =>
        var s := w.net[m].dst;
        Known(hs, vnodes, w, s);
        Received(hs, vnodes, w, m);
        GossipIsTrue(Truth(w), w.net[m]);
        GossipOk(hs, vnodes, Truth(w), s, w.servers[s], w.net[m].news.table, order);
        KeepFirstGrows(hs, vnodes, Truth(w), s, w.servers[s], s, w.net[m].news.table);
        UpdateSafe(hs, vnodes, w, m, s, Make(hs, vnodes, w, move).servers[s]);
      case FinishJoin(s, m) =>
        Known(hs, vnodes, w, s);
        Received(hs, vnodes, w, m);
        GossipIsTrue(Truth(w), w.net[m]);
        JoinOk(hs, vnodes, Truth(w), s, w.servers[s], w.net[m].news.table);
        UpdateSafe(hs, vnodes, w, m, s, Make(hs, vnodes, w, move).servers[s]);
      case ReceiveHello(m, p) => HelloSafe(hs, vnodes, w, m, p);
      case _ => OtherMoveSafe(hs, vnodes, w, move);
    }
  }

  lemma GossipIsTrue(truth: Table, p: Packet)
    requires PacketOk(truth, p) && p.news.Gossip?
    ensures SubTable(p.news.table, truth) && p.dst in p.news.table
    ensures p.dst in truth
  {}

  lemma OtherMoveSafe(hs: Hashes, vnodes: nat, w: Cloud, move: Move)
    requires Safe(hs, vnodes, w) && Possible(w, move)
    requires !move.ReceiveGossip? && !move.ReceiveHello? && !move.FinishJoin?
    ensures Safe(hs, vnodes, Make(hs, vnodes, w, move)) && Grows(w, Make(hs, vnodes, w, move))
  {
    hide Safe, ServerOk, AddNode, AddNodes, SendPackets, PacketOk, Truth;
    match move {
      case Create(u, addr) =>
        TruthServers(w);
        CreateOk(hs, vnodes, Truth(w), u, addr);
        SafeSetServer(hs, vnodes, w, u, Make(hs, vnodes, w, move).servers[u]);
      case StartListening(s) => StartSafe(hs, vnodes, w, s);
      case Leave(s) => LeaveSafe(hs, vnodes, w, s);
      case SendHello(s, seed) =>
        TruthServers(w);
        HelloPacketOk(Truth(w), seed, s);
        SafeSend(hs, vnodes, w, [Packet(seed, Hello(s, w.servers[s].addr))]);
      case SendGossip(s, p) =>
        Known(hs, vnodes, w, s);
        GossipPacketsOk(hs, vnodes, Truth(w), s, w.servers[s], p);
        SafeSend(hs, vnodes, w, GossipTo(s, w.servers[s].table, p));
      case Drop(m) => SafeTake(hs, vnodes, w, m);
      case Copy(m) =>
        Received(hs, vnodes, w, m);
        SafeSend(hs, vnodes, w, [w.net[m]]);
    }
  }

  lemma TruthServers(w: Cloud)
    ensures Truth(w).Keys == w.servers.Keys && forall s <- w.servers :: Truth(w)[s] == w.servers[s].addr
  {}

  lemma HelloPacketOk(truth: Table, seed: Uuid, s: Uuid)
    requires s in truth
    ensures forall p <- [Packet(seed, Hello(s, truth[s]))] :: PacketOk(truth, p)
  {}

  lemma GossipPacketsOk(hs: Hashes, vnodes: nat, truth: Table, s: Uuid, v: Server, p: Uuid)
    requires ServerOk(hs, vnodes, truth, s, v) && p in v.table
    ensures forall q <- GossipTo(s, v.table, p) :: PacketOk(truth, q)
  {
    hide NoCollisions, Represents;
  }

  lemma StartSafe(hs: Hashes, vnodes: nat, w: Cloud, s: Uuid)
    requires Safe(hs, vnodes, w) && s in w.servers
    ensures Safe(hs, vnodes, SetServer(w, s, w.servers[s].(phase := Started)))
  {
    hide Safe, ServerOk;
    assert Truth(w)[s := w.servers[s].addr] == Truth(w);
    Known(hs, vnodes, w, s);
    StartedOk(hs, vnodes, Truth(w), s, w.servers[s]);
    SafeSetServer(hs, vnodes, w, s, w.servers[s].(phase := Started));
  }

  lemma LeaveSafe(hs: Hashes, vnodes: nat, w: Cloud, s: Uuid)
    requires Safe(hs, vnodes, w) && Possible(w, Leave(s))
    ensures Safe(hs, vnodes, Make(hs, vnodes, w, Leave(s)))
  {
    hide Safe, ServerOk, RemoveNode;
    assert Truth(w)[s := w.servers[s].addr] == Truth(w);
    Known(hs, vnodes, w, s);
    LeaveOk(hs, vnodes, Truth(w), s, w.servers[s]);
    SafeSetServer(hs, vnodes, w, s, Make(hs, vnodes, w, Leave(s)).servers[s]);
  }

  lemma StartedOk(hs: Hashes, vnodes: nat, truth: Table, s: Uuid, v: Server)
    requires ServerOk(hs, vnodes, truth, s, v)
    ensures ServerOk(hs, vnodes, truth, s, v.(phase := Started))
  {
    hide NoCollisions, Represents;
  }

  // ---------- runs ----------

  lemma {:induction false} RunSafe(hs: Hashes, vnodes: nat, moves: seq<Move>)
    ensures Safe(hs, vnodes, Play(hs, vnodes, moves))
  {
    hide Make, Possible, ServerOk, PacketOk;
    if moves != [] {
      var front := moves[..|moves| - 1];
      RunSafe(hs, vnodes, front);
      if Possible(Play(hs, vnodes, front), moves[|moves| - 1]) {
        MoveSafe(hs, vnodes, Play(hs, vnodes, front), moves[|moves| - 1]);
      }
    }
  }

  /** What a server knows after some moves it still knows after more. */
  lemma {:induction false} RunGrows(hs: Hashes, vnodes: nat, moves: seq<Move>, i: nat)
    requires i <= |moves|
    ensures Grows(Play(hs, vnodes, moves[..i]), Play(hs, vnodes, moves))
    decreases |moves|
  {
    hide Make, Possible, Safe;
    if i == |moves| {
      assert moves[..i] == moves;
    } else {
      var front := moves[..|moves| - 1];
      assert front[..i] == moves[..i];
      RunGrows(hs, vnodes, front, i);
      RunSafe(hs, vnodes, front);
      if Possible(Play(hs, vnodes, front), moves[|moves| - 1]) {
        MoveSafe(hs, vnodes, Play(hs, vnodes, front), moves[|moves| - 1]);
      }
    }
  }

  /** A gossip puts every server it names on the receiver's ring, and no other; the receiver is
      always among them, so a server that has left is back. */
  lemma GossipReachesRing(hs: Hashes, vnodes: nat, moves: seq<Move>, m: nat, order: seq<Uuid>)
    requires var w := Play(hs, vnodes, moves);
      Possible(w, ReceiveGossip(m, order)) && NoCollisions(hs, vnodes, w.servers.Keys) && vnodes > 0
    ensures var w := Play(hs, vnodes, moves);
      var s := w.net[m].dst;
      && Make(hs, vnodes, w, ReceiveGossip(m, order)).servers[s].ring.Values
           == w.servers[s].ring.Values + w.net[m].news.table.Keys
      && s in w.net[m].news.table
  {
    hide Play, NoCollisions, Represents, AddNodes, Safe, ServerOk, Truth;
    var w := Play(hs, vnodes, moves);
    var s := w.net[m].dst;
    RunSafe(hs, vnodes, moves);
    TruthServers(w);
    Known(hs, vnodes, w, s);
    Received(hs, vnodes, w, m);
    GossipIsTrue(Truth(w), w.net[m]);
    RingIsKnown(hs, vnodes, Truth(w), s, w.servers[s]);
    GossipedRing(hs, vnodes, Truth(w).Keys, w.servers[s].ring, order);
    RepresentedServers(hs, vnodes, AddNodes(hs, w.servers[s].ring, order, vnodes),
                       w.servers[s].ring.Values + Elements(order));
  }

  lemma RingIsKnown(hs: Hashes, vnodes: nat, truth: Table, s: Uuid, v: Server)
    requires ServerOk(hs, vnodes, truth, s, v) && NoCollisions(hs, vnodes, truth.Keys) && vnodes > 0
    ensures v.ring.Values <= truth.Keys && Represents(hs, vnodes, v.ring, v.ring.Values)
    ensures v.ring.Values <= v.table.Keys && SubTable(v.table, truth) && (s in v.ring.Values <==> !v.away)
  {
    hide NoCollisions, Represents;
  }

  /** A table held by a server or carried by a message. */
  ghost predicate Circulates(w: Cloud, t: Table) {
    || (exists s <- w.servers :: w.servers[s].table == t)
    || (exists m <- w.net :: w.net[m].news.Gossip? && w.net[m].news.table == t)
  }

  /** Keeping the first address is right: it commutes exactly when the two tables agree, and
      all tables in circulation agree. */
  lemma KeepFirstCommutesIff(t: Table, u: Table)
    ensures KeepFirst(t, u) == KeepFirst(u, t) <==> forall s <- t.Keys * u.Keys :: t[s] == u[s]
  {
    if KeepFirst(t, u) == KeepFirst(u, t) {
      forall s | s in t.Keys * u.Keys ensures t[s] == u[s] {
        assert KeepFirst(t, u)[s] == t[s] && KeepFirst(u, t)[s] == u[s];
      }
    }
  }

  lemma GossipCommutes(hs: Hashes, vnodes: nat, moves: seq<Move>, t: Table, u: Table)
    requires Circulates(Play(hs, vnodes, moves), t) && Circulates(Play(hs, vnodes, moves), u)
    ensures SubTable(t, Truth(Play(hs, vnodes, moves)))
    ensures KeepFirst(t, u) == KeepFirst(u, t)
  {
    hide Play;
    var w := Play(hs, vnodes, moves);
    RunSafe(hs, vnodes, moves);
    InTruth(hs, vnodes, w, t);
    InTruth(hs, vnodes, w, u);
    KeepFirstCommutesIff(t, u);
  }

  lemma InTruth(hs: Hashes, vnodes: nat, w: Cloud, t: Table)
    requires Safe(hs, vnodes, w) && Circulates(w, t)
    ensures SubTable(t, Truth(w))
  {
    if s :| s in w.servers && w.servers[s].table == t {
      assert ServerOk(hs, vnodes, Truth(w), s, w.servers[s]);
    } else {
      var m :| m in w.net && w.net[m].news.Gossip? && w.net[m].news.table == t;
      assert PacketOk(Truth(w), w.net[m]);
    }
  }

  /** Servers that have put the same servers on their rings choose the same preference list for
      every list, however gossip reached them; each is on its own ring exactly if it has not left
      or has received gossip since, and can reach every server it chooses, because its table
      has its address. */
  lemma SameMembersSameChoice(hs: Hashes, vnodes: nat, moves: seq<Move>, s: Uuid, t: Uuid, list: Uuid, replicas: nat)
    requires var w := Play(hs, vnodes, moves);
      && s in w.servers && t in w.servers && NoCollisions(hs, vnodes, w.servers.Keys) && vnodes > 0
      && w.servers[s].ring.Values == w.servers[t].ring.Values
    ensures var w := Play(hs, vnodes, moves);
      var choice := Preference(w.servers[s].ring, hs.list(list), replicas);
      && choice == Preference(w.servers[t].ring, hs.list(list), replicas)
      && (s in w.servers[s].ring.Values <==> !w.servers[s].away)
      && (choice == [] <==> w.servers[s].ring.Values == {})
      && forall n <- choice :: n in w.servers && n in w.servers[s].table && w.servers[s].table[n] == w.servers[n].addr
  {
    hide Play, Preference, NoCollisions, Represents, Safe, ServerOk, Truth;
    var w := Play(hs, vnodes, moves);
    RunSafe(hs, vnodes, moves);
    TruthServers(w);
    Known(hs, vnodes, w, s);
    Known(hs, vnodes, w, t);
    RingIsKnown(hs, vnodes, Truth(w), s, w.servers[s]);
    RingIsKnown(hs, vnodes, Truth(w), t, w.servers[t]);
    RepresentsUnique(hs, vnodes, w.servers[s].ring, w.servers[t].ring, w.servers[s].ring.Values);
    PreferenceShape(w.servers[s].ring, hs.list(list), replicas);
    if w.servers[s].ring.Values != {} { NonEmptySize(w.servers[s].ring.Values); }
  }

  // ---------- leaving ----------

  /** The servers on a server's ring after a move, when hashes are distinct. */
  function RingServersAfter(w: Cloud, move: Move, t: Uuid): set<Uuid>
    requires Possible(w, move) && t in w.servers
  {
    var before := w.servers[t].ring.Values;
    match move
    case Leave(s) => if s == t then before - {t} else before
    case ReceiveGossip(m, _) => if w.net[m].dst == t then before + w.net[m].news.table.Keys else before
    case _ => before
  }

  lemma RingAfter(hs: Hashes, vnodes: nat, w: Cloud, move: Move, t: Uuid)
    requires Safe(hs, vnodes, w) && Possible(w, move) && t in w.servers
    requires NoCollisions(hs, vnodes, w.servers.Keys) && vnodes > 0
    ensures var w' := Make(hs, vnodes, w, move);
      t in w'.servers && w'.servers[t].ring.Values == RingServersAfter(w, move, t)
  {
    hide Safe, NoCollisions, Represents, AddNodes, RemoveNode, ServerOk, Truth, SendPackets, AddNode;
    TruthServers(w);
    Known(hs, vnodes, w, t);
    RingIsKnown(hs, vnodes, Truth(w), t, w.servers[t]);
    match move {
      case Leave(s) =>
        if s == t { RingWithout(hs, vnodes, Truth(w).Keys, w.servers[t].ring, t); }
      case ReceiveGossip(m, order) =>
        if w.net[m].dst == t {
          Received(hs, vnodes, w, m);
          GossipIsTrue(Truth(w), w.net[m]);
          GossipedRing(hs, vnodes, Truth(w).Keys, w.servers[t].ring, order);
          RepresentedServers(hs, vnodes, AddNodes(hs, w.servers[t].ring, order, vnodes),
                             w.servers[t].ring.Values + Elements(order));
        }
      case _ => SendsKeepServers(hs, vnodes, w, move, t);
    }
  }

  lemma {:induction false} SendPacketsServers(w: Cloud, packets: seq<Packet>)
    ensures SendPackets(w, packets).servers == w.servers
    decreases |packets|
  {
    if packets != [] { SendPacketsServers(w, packets[..|packets| - 1]); }
  }

  lemma SendsKeepServers(hs: Hashes, vnodes: nat, w: Cloud, move: Move, t: Uuid)
    requires Possible(w, move) && t in w.servers && !move.Leave? && !move.ReceiveGossip?
    ensures t in Make(hs, vnodes, w, move).servers
    ensures Make(hs, vnodes, w, move).servers[t].ring == w.servers[t].ring
  {
    hide SendPackets, AddNode, AddNodes, RemoveNode;
    match move {
      case SendHello(s, seed) => SendPacketsServers(w, [Packet(seed, Hello(s, w.servers[s].addr))]);
      case SendGossip(s, p) => SendPacketsServers(w, GossipTo(s, w.servers[s].table, p));
      case ReceiveHello(m, p) =>
        var s, hello := w.net[m].dst, w.net[m].news;
        var v := w.servers[s].(table := w.servers[s].table[hello.uuid := hello.addr]);
        SendPacketsServers(SetServer(w.(net := w.net - {m}), s, v),
                           [Packet(hello.uuid, Gossip(v.table))] + GossipTo(s, v.table, p));
      case Copy(m) => SendPacketsServers(w, [w.net[m]]);
      case _ =>
    }
  }

  /** A ring loses a server in one way only: the server takes itself off its own ring.  In every run,
      whoever is on another server's ring stays there, whether it has left or not. */
  lemma {:induction false} NobodyLeavesOthers(hs: Hashes, vnodes: nat, moves: seq<Move>, i: nat, t: Uuid, n: Uuid)
    requires i <= |moves| && vnodes > 0 && NoCollisions(hs, vnodes, Play(hs, vnodes, moves).servers.Keys)
    requires var w := Play(hs, vnodes, moves[..i]); t in w.servers && n in w.servers[t].ring.Values
    requires n != t || forall k | i <= k < |moves| :: moves[k] != Leave(t)
    ensures var w := Play(hs, vnodes, moves); t in w.servers && n in w.servers[t].ring.Values
    decreases |moves|
  {
    hide Make, Possible, Safe, NoCollisions, ServerOk, Grows;
    if i == |moves| {
      assert moves[..i] == moves;
    } else {
      var front, last := moves[..|moves| - 1], moves[|moves| - 1];
      assert front[..i] == moves[..i];
      RunSafe(hs, vnodes, front);
      var w := Play(hs, vnodes, front);
      ServersStay(hs, vnodes, w, last);
      NoCollisionsBelow(hs, vnodes, w.servers.Keys, Play(hs, vnodes, moves).servers.Keys);
      NobodyLeavesOthers(hs, vnodes, front, i, t, n);
      if Possible(w, last) { RingAfter(hs, vnodes, w, last, t); }
    }
  }

  lemma ServersStay(hs: Hashes, vnodes: nat, w: Cloud, move: Move)
    requires Safe(hs, vnodes, w)
    ensures w.servers.Keys <= Try(hs, vnodes, w, move).servers.Keys
  {
    hide Make, Safe, SubTable;
    if Possible(w, move) { MoveSafe(hs, vnodes, w, move); }
  }

  // ---------- what is sent, and what arrives ----------

  lemma OnePacket(w: Cloud, p: Packet)
    ensures SendPackets(w, [p]) == w.(net := w.net[w.next := p], next := w.next + 1)
  {
    assert [p][..0] == [];
  }

  lemma TwoPackets(w: Cloud, p: Packet, q: Packet)
    ensures SendPackets(w, [p, q]) == w.(net := w.net[w.next := p][w.next + 1 := q], next := w.next + 2)
  {
    OnePacket(w, p);
    SendOneMore(w, [p], q);
    assert [p] + [q] == [p, q];
  }

  lemma SendOneMore(w: Cloud, front: seq<Packet>, last: Packet)
    ensures var w' := SendPackets(w, front);
      SendPackets(w, front + [last]) == w'.(net := w'.net[w'.next := last], next := w'.next + 1)
  {
    assert (front + [last])[..|front|] == front;
  }

  /** Sending gossip puts one new message on its way to the pick, with exactly the sender's table;
      a pick of the sender itself sends nothing. */
  lemma GossipSent(hs: Hashes, vnodes: nat, w: Cloud, s: Uuid, p: Uuid)
    requires Possible(w, SendGossip(s, p))
    ensures Make(hs, vnodes, w, SendGossip(s, p)) ==
      if p == s then w else w.(net := w.net[w.next := Packet(p, Gossip(w.servers[s].table))], next := w.next + 1)
  {
    hide SendPackets;
    if p == s {
      assert SendPackets(w, []) == w by { NoPackets(w); }
    } else {
      OnePacket(w, Packet(p, Gossip(w.servers[s].table)));
    }
  }

  lemma NoPackets(w: Cloud)
    ensures SendPackets(w, []) == w
  {}

  /** A newcomer announces itself, with its own address, to the seed. */
  lemma HelloSent(hs: Hashes, vnodes: nat, w: Cloud, s: Uuid, seed: Uuid)
    requires Possible(w, SendHello(s, seed))
    ensures Make(hs, vnodes, w, SendHello(s, seed)) ==
      w.(net := w.net[w.next := Packet(seed, Hello(s, w.servers[s].addr))], next := w.next + 1)
  {
    OnePacket(w, Packet(seed, Hello(s, w.servers[s].addr)));
  }

  /** A hello puts the newcomer's address in the receiver's table and nothing else in any; that table
      is then on its way to the newcomer and, if that is not the receiver itself, to the pick. */
  lemma HelloReceived(hs: Hashes, vnodes: nat, w: Cloud, m: nat, p: Uuid)
    requires Possible(w, ReceiveHello(m, p))
    ensures var s, hello, w' := w.net[m].dst, w.net[m].news, Make(hs, vnodes, w, ReceiveHello(m, p));
      var table := w.servers[s].table[hello.uuid := hello.addr];
      && w'.servers == w.servers[s := w.servers[s].(table := table)]
      && w'.net == (if p == s then (w.net - {m})[w.next := Packet(hello.uuid, Gossip(table))]
                    else (w.net - {m})[w.next := Packet(hello.uuid, Gossip(table))]
                                      [w.next + 1 := Packet(p, Gossip(table))])
      && w'.next == w.next + (if p == s then 1 else 2)
  {
    hide SendPackets;
    var s, hello := w.net[m].dst, w.net[m].news;
    var v := w.servers[s].(table := w.servers[s].table[hello.uuid := hello.addr]);
    var w1 := SetServer(w.(net := w.net - {m}), s, v);
    if p == s {
      OnePacket(w1, Packet(hello.uuid, Gossip(v.table)));
      assert [Packet(hello.uuid, Gossip(v.table))] + [] == [Packet(hello.uuid, Gossip(v.table))];
    } else {
      TwoPackets(w1, Packet(hello.uuid, Gossip(v.table)), Packet(p, Gossip(v.table)));
      assert [Packet(hello.uuid, Gossip(v.table))] + [Packet(p, Gossip(v.table))]
          == [Packet(hello.uuid, Gossip(v.table)), Packet(p, Gossip(v.table))];
    }
  }

  /** Received gossip: the receiver keeps every address it has, and takes every other from the
      message. */
  lemma GossipTaken(hs: Hashes, vnodes: nat, w: Cloud, m: nat, order: seq<Uuid>)
    requires Possible(w, ReceiveGossip(m, order))
    ensures var s, news := w.net[m].dst, w.net[m].news.table;
      var w' := Make(hs, vnodes, w, ReceiveGossip(m, order));
      var before, after := w.servers[s].table, w'.servers[s].table;
      && after.Keys == before.Keys + news.Keys
      && (forall u <- after :: after[u] == if u in before then before[u] else news[u])
      && s in w'.servers && w'.net == w.net - {m} && w'.servers - {s} == w.servers - {s}
  {
    hide AddNodes;
  }

  /** In every run, gossip that is sent and received leaves the receiver with every entry the sender
      had and every entry it had itself, and with all those servers on its ring. */
  lemma GossipSpreads(hs: Hashes, vnodes: nat, moves: seq<Move>, s: Uuid, p: Uuid, order: seq<Uuid>)
    requires var w := Play(hs, vnodes, moves);
      && Possible(w, SendGossip(s, p)) && p != s && p in w.servers && w.servers[p].phase.Started?
      && Elements(order) == w.servers[s].table.Keys && NoCollisions(hs, vnodes, w.servers.Keys) && vnodes > 0
    ensures var w := Play(hs, vnodes, moves);
      var w' := Play(hs, vnodes, moves + [SendGossip(s, p)] + [ReceiveGossip(w.next, order)]);
      && p in w'.servers
      && SubTable(w.servers[s].table, w'.servers[p].table) && SubTable(w.servers[p].table, w'.servers[p].table)
      && w.servers[s].table.Keys + w.servers[p].ring.Values <= w'.servers[p].ring.Values
  {
    hide Make, NoCollisions, Safe, ServerOk, Truth;
    var w := Play(hs, vnodes, moves);
    var sent := moves + [SendGossip(s, p)];
    assert sent[..|moves|] == moves;
    GossipSent(hs, vnodes, w, s, p);
    var w1 := Play(hs, vnodes, sent);
    assert w1 == Make(hs, vnodes, w, SendGossip(s, p));
    var receive := ReceiveGossip(w.next, order);
    assert (sent + [receive])[..|sent|] == sent;
    assert Possible(w1, receive);
    assert Play(hs, vnodes, sent + [receive]) == Make(hs, vnodes, w1, receive);
    GossipReachesRing(hs, vnodes, sent, w.next, order);
    RunSafe(hs, vnodes, moves);
    Known(hs, vnodes, w, s);
    Known(hs, vnodes, w, p);
    TablesAgree(hs, vnodes, Truth(w), s, w.servers[s], p, w.servers[p]);
    GossipTaken(hs, vnodes, w1, w.next, order);
    TakenContains(w.servers[p].table, w.servers[s].table, Make(hs, vnodes, w1, receive).servers[p].table);
  }

  lemma TakenContains(mine: Table, news: Table, after: Table)
    requires after.Keys == mine.Keys + news.Keys && forall n | n in mine && n in news :: mine[n] == news[n]
    requires forall u <- after :: after[u] == if u in mine then mine[u] else news[u]
    ensures SubTable(mine, after) && SubTable(news, after)
  {}

  lemma TablesAgree(hs: Hashes, vnodes: nat, truth: Table, s: Uuid, v: Server, t: Uuid, u: Server)
    requires ServerOk(hs, vnodes, truth, s, v) && ServerOk(hs, vnodes, truth, t, u)
    ensures forall n | n in v.table && n in u.table :: v.table[n] == u.table[n]
  {
    hide NoCollisions, Represents;
  }

  /** In every run, a newcomer that says hello to a started server and takes the answer ends up with
      that server's table and itself, and the server knows the newcomer. */
  lemma JoinCompletes(hs: Hashes, vnodes: nat, moves: seq<Move>, s: Uuid, seed: Uuid, pick: Uuid)
    requires var w := Play(hs, vnodes, moves);
      && Possible(w, SendHello(s, seed)) && seed != s && seed in w.servers && w.servers[seed].phase.Started?
      && (pick == s || pick in w.servers[seed].table)
    ensures var w := Play(hs, vnodes, moves);
      var joined := moves + [SendHello(s, seed)] + [ReceiveHello(w.next, pick)] + [FinishJoin(s, w.next + 1)];
      var w' := Play(hs, vnodes, joined);
      var table := w.servers[seed].table[s := w.servers[s].addr];
      && s in w'.servers && seed in w'.servers
      && w'.servers[s].table == table && w'.servers[s].phase.Joined? && w'.servers[seed].table == table
  {
    hide Make, Safe;
    var w := Play(hs, vnodes, moves);
    var said := moves + [SendHello(s, seed)];
    assert said[..|moves|] == moves;
    HelloSent(hs, vnodes, w, s, seed);
    var w1 := Play(hs, vnodes, said);
    assert w1 == Make(hs, vnodes, w, SendHello(s, seed));
    var heard := said + [ReceiveHello(w.next, pick)];
    assert heard[..|said|] == said;
    HelloReceived(hs, vnodes, w1, w.next, pick);
    var w2 := Play(hs, vnodes, heard);
    assert w2 == Make(hs, vnodes, w1, ReceiveHello(w.next, pick));
    assert (heard + [FinishJoin(s, w.next + 1)])[..|heard|] == heard;
    Joins(hs, vnodes, w2, s, w.next + 1);
  }

  lemma Joins(hs: Hashes, vnodes: nat, w: Cloud, s: Uuid, m: nat)
    requires Possible(w, FinishJoin(s, m))
    ensures Make(hs, vnodes, w, FinishJoin(s, m)).servers
         == w.servers[s := w.servers[s].(table := w.net[m].news.table, phase := Joined)]
  {}
}

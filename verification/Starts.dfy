/** What starting a request does, from the ring, the list's position on it and the fates of the
    sends: who is sent what, and what the coordinator then waits for. */
module Starts {
  import opened Basics
  import opened CrdtValues
  import opened RingValues
  import opened RingMembership
  import opened Protocol
  import opened FallbackSearch

  /** One message a slot: a write to the replica, or a handoff to the holder that names the replica. */
  ghost predicate WriteMessages(me: Uuid, req: nat, slots: seq<Slot>, id: Uuid, list: ItemMap, sends: seq<Envelope>) {
    |sends| == |slots| && forall i | 0 <= i < |sends| ::
      sends[i] == if slots[i].Sent? then Envelope(me, slots[i].replica, req, i, ReplicateList(id, list, true))
                  else Envelope(me, slots[i].holder, req, i, Handoff(id, list, slots[i].replica))
  }

  /** One read a replica. */
  ghost predicate ReadMessages(me: Uuid, req: nat, replicas: seq<Uuid>, id: Uuid, list: ItemMap, sends: seq<Envelope>) {
    |sends| == |replicas| && forall i | 0 <= i < |sends| ::
      sends[i] == Envelope(me, replicas[i], req, i, ReplicateList(id, list, false))
  }

  /** A put with these replicas: nothing without any; otherwise each is written to or stood in for,
      and two acknowledgements are awaited. */
  ghost predicate PutWith(me: Uuid, p: PeerState, e: Envelope, replicas: seq<Uuid>, fates: seq<Fate>, budget: nat,
                          req: nat, slots: seq<Slot>, r: Reaction)
    requires FromClient(e.msg)
  {
    if replicas == [] then r == Reaction(p, [])
    else
      && SlotsFollow(p.ring, replicas[|replicas| - 1], replicas, fates, budget, slots)
      && WriteMessages(me, req, slots, e.msg.id, e.msg.list, r.sends)
      && r.peer == p.(reqs := p.reqs[req := Request(e.src, e.msg.id, e.msg.list, Write, slots,
                                                    Quorum(2, 0, false, [e.msg.list]))])
  }

  /** A put: its replicas are what a clockwise turn from the list's position yields after the first. */
  ghost predicate PutStarted(hs: Hashes, me: Uuid, p: PeerState, e: Envelope, fates: seq<Fate>, budget: nat,
                             req: nat, r: Reaction)
    requires FromClient(e.msg)
  {
    exists replicas: seq<Uuid>, slots: seq<Slot> ::
      && RestClockwise(p.ring, hs.list(e.msg.id), 3, replicas)
      && PutWith(me, p, e, replicas, fates, budget, req, slots, r)
  }

  /** A quorum read of a stored list: every such replica is asked, and two answers are awaited. */
  ghost predicate ReadStarted(hs: Hashes, me: Uuid, p: PeerState, e: Envelope, req: nat, r: Reaction)
    requires FromClient(e.msg) && e.msg.id in p.rows
  {
    exists replicas: seq<Uuid> ::
      && RestClockwise(p.ring, hs.list(e.msg.id), 3, replicas)
      && (replicas == [] ==> r == Reaction(p, []))
      && (replicas != [] ==>
            && ReadMessages(me, req, replicas, e.msg.id, e.msg.list, r.sends)
            && r.peer == p.(reqs := p.reqs[req := Request(e.src, e.msg.id, e.msg.list, Read(p.rows[e.msg.id].list), [],
                                                          Quorum(2, 0, false, [e.msg.list]))]))
  }

  /** `get_replicas`, from the positions of the ring alone. */
  lemma ReplicasClockwise(hs: Hashes, ring: Ring, id: Uuid)
    ensures RestClockwise(ring, hs.list(id), 3, Replicas(hs, ring, id))
  {
    hide Preference, RestClockwise;
    TailIsRest(ring, hs.list(id), 3);
  }

  lemma SlotMessagesAre(me: Uuid, req: nat, slots: seq<Slot>, id: Uuid, list: ItemMap, sends: seq<Envelope>)
    requires |sends| == |slots| && forall i | 0 <= i < |sends| :: sends[i] == SlotMessage(me, req, slots, id, list, i)
    ensures WriteMessages(me, req, slots, id, list, sends)
  {}

  /** The start of a put. */
  lemma PutStarts(hs: Hashes, me: Uuid, p: PeerState, e: Envelope, fates: seq<Fate>, budget: nat, req: nat)
    requires FromClient(e.msg)
    ensures var replicas := Replicas(hs, p.ring, e.msg.id);
      var attempts := if replicas == [] then [] else AttemptsOf(p.ring, replicas[|replicas| - 1], fates, budget);
      PutStarted(hs, me, p, e, fates, budget, req,
                 StartWrite(hs, me, p, e.src, e.msg.id, e.msg.list, attempts, req))
  {
    hide Replicas, SlotsOf, AttemptsOf, SlotsFollow, SlotMessage, WriteMessages, RestClockwise;
    var replicas := Replicas(hs, p.ring, e.msg.id);
    ReplicasClockwise(hs, p.ring, e.msg.id);
    var attempts := if replicas == [] then [] else AttemptsOf(p.ring, replicas[|replicas| - 1], fates, budget);
    var r := StartWrite(hs, me, p, e.src, e.msg.id, e.msg.list, attempts, req);
    if replicas == [] {
      assert PutWith(me, p, e, replicas, fates, budget, req, [], r);
    } else {
      var last := replicas[|replicas| - 1];
      var slots := SlotsOf(replicas, AttemptsOf(p.ring, last, fates, budget));
      SlotsAre(p.ring, last, replicas, fates, budget);
      SlotMessagesAre(me, req, slots, e.msg.id, e.msg.list, r.sends);
      assert PutWith(me, p, e, replicas, fates, budget, req, slots, r);
    }
  }

  /** The start of a quorum read. */
  lemma ReadStarts(hs: Hashes, me: Uuid, p: PeerState, e: Envelope, req: nat)
    requires FromClient(e.msg) && e.msg.id in p.rows
    ensures ReadStarted(hs, me, p, e, req, StartRead(hs, me, p, e.src, e.msg.id, e.msg.list, req))
  {
    hide Replicas, RestClockwise;
    ReplicasClockwise(hs, p.ring, e.msg.id);
  }
}

/** A server: its rows, its ring, its membership table and the requests it is waiting on, all
    changed in place by its handlers.  The handlers refine the functions of Protocol and
    Gossip, so every theorem about runs of those holds of these objects. */
module ServerObjects {
  import opened Basics
  import opened CrdtValues
  import opened CrdtObjects
  import opened RingValues
  import opened RingMembership
  import opened RingSearch
  import opened HashRingObjects
  import opened Protocol
  import opened FallbackSearch
  import opened Starts
  import Gossip

  /** Reads two lists from their serialised form and merges the second into the first. */
  method MergedLists(list: ItemMap, other: ItemMap) returns (merged: ItemMap)
    ensures merged == MergeMap(list, other)
  {
    var mine := new AWORMap.Read(list);
    var theirs := new AWORMap.Read(other);
    mine.Merge(theirs);
    merged := mine.items;
  }

  // ---------- rows ----------

  class ServerStorage {
    const policy: Policy
    var rows: Rows

    constructor (policy: Policy)
      ensures this.policy == policy && rows == map[]
    {
      this.policy, rows := policy, map[];
    }

    method GetShoppingList(id: Uuid) returns (list: Option<ItemMap>)
      ensures list == if id in rows then Some(rows[id].list) else None
    {
      list := if id in rows then Some(rows[id].list) else None;
    }

    /** Both writes: the incoming list is serialised first, then merged into the stored one, then
        one of the two is written: with the literal policy, the first. */
    method Write(id: Uuid, list: ItemMap, hint: Option<Uuid>)
      modifies this`rows
      ensures rows == WriteRow(policy, old(rows), id, list, hint)
    {
      var data := list;
      var stored := GetShoppingList(id);
      var merged := list;
      if stored.Some? {
        merged := MergedLists(stored.value, list);
      }
      rows := rows[id := Row(if policy.Merged? then merged else data, hint)];
    }

    method WriteShoppingList(id: Uuid, list: ItemMap)
      modifies this`rows
      ensures rows == WriteRow(policy, old(rows), id, list, None)
      ensures id in rows && rows[id].hint == None && rows - {id} == old(rows) - {id}
      ensures rows[id].list == if policy.Merged? && id in old(rows) then MergeMap(old(rows)[id].list, list) else list
    {
      Write(id, list, None);
    }

    method WriteShoppingListHandoff(id: Uuid, list: ItemMap, original: Uuid)
      modifies this`rows
      ensures rows == WriteRow(policy, old(rows), id, list, Some(original))
      ensures id in rows && rows[id].hint == Some(original) && rows - {id} == old(rows) - {id}
      ensures rows[id].list == if policy.Merged? && id in old(rows) then MergeMap(old(rows)[id].list, list) else list
    {
      Write(id, list, Some(original));
    }

    method GetHintedHandoffs() returns (hints: set<Hint>)
      ensures hints == HintsOf(rows)
      ensures forall h :: h in hints <==> h.id in rows && rows[h.id] == Row(h.list, Some(h.dest))
    {
      hints := {};
      var todo := rows.Keys;
      while todo != {}
        invariant todo <= rows.Keys
        invariant hints == set id | id in rows && id !in todo && rows[id].hint.Some? ::
                             Hint(rows[id].hint.value, id, rows[id].list)
        decreases |todo|
      {
        var id: Uuid :| id in todo;
        if rows[id].hint.Some? {
          hints := hints + {Hint(rows[id].hint.value, id, rows[id].list)};
        }
        todo := todo - {id};
      }
    }

    method DeleteShoppingList(id: Uuid)
      modifies this`rows
      ensures rows == old(rows) - {id}
    {
      rows := rows - {id};
    }
  }

  // ---------- quorums ----------

  class QuorumState {
    const needed: nat
    var received: nat
    var responder: bool
    var lists: seq<ItemMap>

    constructor (needed: nat, list: ItemMap)
      ensures Value() == NewQuorum(needed, list)
    {
      this.needed, received, responder, lists := needed, 0, true, [list];
    }

    function Value(): Quorum
      reads this
    {
      Quorum(needed, received, !responder, lists)
    }

    predicate IsQuorumReached()
      reads this
    {
      received >= needed
    }

    method AddList(list: ItemMap)
      modifies this`received, this`lists
      ensures received == old(received) + 1 && lists == old(lists) + [list]
    {
      received := received + 1;
      lists := lists + [list];
    }

    method IncrementReceived()
      modifies this`received
      ensures received == old(received) + 1
    {
      received := received + 1;
    }

    /** Takes the responder, if it is still there and enough answers have come. */
    method Respond() returns (sent: bool)
      modifies this`responder
      ensures sent <==> IsQuorumReached() && old(responder)
      ensures responder == (old(responder) && !IsQuorumReached())
    {
      sent := false;
      if IsQuorumReached() {
        if responder {
          responder := false;
          sent := true;
        }
      }
    }

    /** An `Ack` or an `AckList` handler, once it has found its request. */
    method Receive(list: Option<ItemMap>)
      modifies this
      ensures Value() == if list.None? then CountAck(old(Value())) else CountList(old(Value()), list.value)
      ensures received == old(received) + 1
      ensures lists == if list.None? then old(lists) else old(lists) + [list.value]
      ensures responder <==> old(responder) && received < needed
    {
      if list.Some? {
        AddList(list.value);
      } else {
        IncrementReceived();
      }
      var _ := Respond();
    }

    /** The merge of all collected lists, starting from the first. */
    method MergeLists() returns (merged: Option<ItemMap>)
      ensures merged == if lists == [] then None else Some(FoldMerge(lists))
    {
      if lists == [] {
        return None;
      }
      var result := new AWORMap.Read(lists[0]);
      for i := 1 to |lists|
        invariant fresh(result) && result.items == FoldMerge(lists[..i])
      {
        var next := new AWORMap.Read(lists[i]);
        result.Merge(next);
        assert lists[..i + 1][..i] == lists[..i];
      }
      assert lists[..|lists|] == lists;
      merged := Some(result.items);
    }
  }

  /** The answers a coordinator counts for one request, in order of arrival. */
  datatype Event = GotAck | GotList(list: ItemMap)

  function CountEvent(q: Quorum, event: Event): Quorum {
    match event
    case GotAck => CountAck(q)
    case GotList(list) => CountList(q, list)
  }

  function AfterEvents(q: Quorum, events: seq<Event>): Quorum {
    if events == [] then q else CountEvent(AfterEvents(q, events[..|events| - 1]), events[|events| - 1])
  }

  /** The answers at which the responder is sent to. */
  function Firings(q: Quorum, events: seq<Event>): seq<nat> {
    if events == [] then [] else
      var front := events[..|events| - 1];
      Firings(q, front) +
        (if !AfterEvents(q, front).fired && AfterEvents(q, events).fired then [|events|] else [])
  }

  /** The lists among the answers, in order. */
  function ListsIn(events: seq<Event>): seq<ItemMap> {
    if events == [] then [] else
      var last := events[|events| - 1];
      ListsIn(events[..|events| - 1]) + if last.GotList? then [last.list] else []
  }

  /** The responder fires exactly once, at the first answer that makes received >= needed, and
      not at all before; everything received is counted, and lists are kept in order. */
  lemma {:induction false} FiresOnce(needed: nat, list: ItemMap, events: seq<Event>)
    ensures var q := AfterEvents(NewQuorum(needed, list), events);
      && q.received == |events| && q.needed == needed && q.lists == [list] + ListsIn(events)
      && (q.fired <==> |events| >= Max(needed, 1))
      && Firings(NewQuorum(needed, list), events) == if |events| >= Max(needed, 1) then [Max(needed, 1)] else []
  {
    if events != [] {
      FiresOnce(needed, list, events[..|events| - 1]);
    }
  }

  // ---------- a task waiting for its quorum ----------

  /** What the suspended handler of a request still knows. */
  datatype Task = Task(client: Uuid, id: Uuid, list: ItemMap, kind: Kind, slots: seq<Slot>)

  function RequestOf(t: Task, q: Quorum): Request {
    Request(t.client, t.id, t.list, t.kind, t.slots, q)
  }

  // ---------- the server ----------

  class Peer {
    const uuid: Uuid
    const hashes: Hashes
    const storage: ServerStorage
    const hashring: HashRing
    var membership: Gossip.Table
    var inFlight: map<nat, QuorumState>
    var tasks: map<nat, Task>
    var handoffs: set<Hint>
    var deletes: set<Uuid>

    ghost predicate Valid()
      reads this`inFlight, this`tasks
    {
      && hashring.hashes == hashes && hashring.virtualNodes == VNODES && hashring.replicas == REPLICAS
      && tasks.Keys == inFlight.Keys
      && (forall r <- inFlight, s <- inFlight | r != s :: inFlight[r] != inFlight[s])
    }

    function Quorums(): set<QuorumState>
      reads this`inFlight
    {
      set r | r in inFlight :: inFlight[r]
    }

    ghost function Requests(): (requests: map<nat, Request>)
      requires Valid()
      reads this`inFlight, this`tasks, Quorums()
      ensures requests.Keys == inFlight.Keys
    {
      map r | r in inFlight :: RequestOf(tasks[r], inFlight[r].Value())
    }

    /** The state Protocol speaks of. */
    ghost function State(): PeerState
      requires Valid()
      reads this, storage, hashring, Quorums()
    {
      PeerState(storage.rows, hashring.ring, Requests(), handoffs, deletes)
    }

    function Config(): Protocol.Config {
      Protocol.Config(storage.policy, hashes)
    }

    constructor (uuid: Uuid, addr: Gossip.Address, policy: Policy, hashes: Hashes)
      ensures Valid() && fresh(storage) && fresh(hashring)
      ensures this.uuid == uuid && Config() == Protocol.Config(policy, hashes)
      ensures State() == NO_PEER.(ring := AddNode(hashes, map[], uuid, VNODES))
      ensures membership == map[uuid := addr]
    {
      this.uuid, this.hashes := uuid, hashes;
      storage := new ServerStorage(policy);
      hashring := new HashRing(VNODES, REPLICAS, hashes);
      membership, inFlight, tasks, handoffs, deletes := map[uuid := addr], map[], map[], {}, {};
      new;
      hashring.AddNode(uuid);
    }

    /** The preference list without its first entry. */
    method GetReplicas(id: Uuid) returns (replicas: seq<Uuid>)
      requires Valid()
      ensures replicas == Replicas(hashes, hashring.ring, id)
      ensures RestClockwise(hashring.ring, hashes.list(id), 3, replicas)
    {
      ReplicasClockwise(hashes, hashring.ring, id);
      hide RestClockwise;
      var list := hashring.GetPreferenceList(id);
      replicas := if list == [] then [] else list[1..];
    }

    /** Registers a request that waits for its quorum. */
    method Register(req: nat, task: Task, needed: nat)
      requires Valid() && req !in inFlight
      modifies this`inFlight, this`tasks
      ensures Valid() && fresh(Quorums() - old(Quorums()))
      ensures State() == old(State()).(reqs := old(State()).reqs[req := RequestOf(task, NewQuorum(needed, task.list))])
    {
      ghost var before, others := Requests(), Quorums();
      var quorum := new QuorumState(needed, task.list);
      assert Requests() == before && quorum !in others;
      Insert(req, task, quorum);
    }

    method Insert(req: nat, task: Task, quorum: QuorumState)
      requires Valid() && req !in inFlight && quorum !in Quorums()
      modifies this`inFlight, this`tasks
      ensures Valid() && Quorums() <= old(Quorums()) + {quorum}
      ensures State() == old(State()).(reqs := old(State()).reqs[req := RequestOf(task, quorum.Value())])
    {
      ghost var before := Requests();
      assert forall r <- inFlight :: inFlight[r] != quorum by {
        forall r | r in inFlight ensures inFlight[r] in Quorums() {}
      }
      inFlight := inFlight[req := quorum];
      tasks := tasks[req := task];
      assert Requests() == before[req := RequestOf(task, quorum.Value())];
    }

    /** The sends of a write: to every replica, handing off what cannot be sent to the server the
        search from the last replica finds; the loop stops when the search finds none. */
    method SendAll(replicas: seq<Uuid>, id: Uuid, list: ItemMap, fates: seq<Fate>, budget: nat, req: nat)
      returns (slots: seq<Slot>, sends: seq<Envelope>)
      requires replicas != []
      ensures slots == SlotsOf(replicas, AttemptsOf(hashring.ring, replicas[|replicas| - 1], fates, budget))
      ensures SlotSends(uuid, req, slots, id, list, sends)
    {
      hide SlotsOf, DropAttempts, AttemptsOf, AttemptOf, SlotSends, Valid, NextNode, Preference;
      slots, sends := [], [];
      NoSends(uuid, req, id, list);
      var last := replicas[|replicas| - 1];
      ghost var attempts := AttemptsOf(hashring.ring, last, fates, budget);
      ghost var all := SlotsOf(replicas, attempts);
      FirstStep(replicas, attempts);
      for i := 0 to |replicas|
        invariant |sends| == |slots| && all == slots + SlotsOf(replicas[i..], DropAttempts(attempts, i))
        invariant SlotSends(uuid, req, slots, id, list, sends)
      {
        ghost var slots0, sends0 := slots, sends;
        SlotsStep(replicas, attempts, i);
        AttemptAt(hashring.ring, last, fates, budget, i);
        var attempt := Delivered;
        if i < |fates| {
          attempt := TrySend(fates[i], last, budget);
        }
        match attempt {
          case Delivered =>
            slots := slots + [Sent(replicas[i])];
            sends := sends + [Envelope(uuid, replicas[i], req, |sends|, ReplicateList(id, list, true))];
            assert slots[..|slots| - 1] == slots0 && sends[..|sends| - 1] == sends0;
            OneMoreSend(uuid, req, slots, id, list, sends);
          case Fallback(next) =>
            slots := slots + [Handed(replicas[i], next)];
            sends := sends + [Envelope(uuid, next, req, |sends|, Handoff(id, list, replicas[i]))];
            assert slots[..|slots| - 1] == slots0 && sends[..|sends| - 1] == sends0;
            OneMoreSend(uuid, req, slots, id, list, sends);
          case NoFallback =>
            return;
        }
      }
      LastStep(replicas, attempts);
    }

    /** What the sends leave behind: each replica is written to or, if that fails, stood in for by
        the first available server met from the last replica. */
    method SendReplicate(replicas: seq<Uuid>, id: Uuid, list: ItemMap, fates: seq<Fate>, budget: nat, req: nat)
      returns (slots: seq<Slot>, sends: seq<Envelope>)
      requires replicas != []
      ensures slots == SlotsOf(replicas, AttemptsOf(hashring.ring, replicas[|replicas| - 1], fates, budget))
      ensures SlotSends(uuid, req, slots, id, list, sends)
      ensures SlotsFollow(hashring.ring, replicas[|replicas| - 1], replicas, fates, budget, slots)
      ensures WriteMessages(uuid, req, slots, id, list, sends)
    {
      hide SlotsOf, AttemptsOf, SlotSends, SlotsFollow, WriteMessages;
      slots, sends := SendAll(replicas, id, list, fates, budget, req);
      SlotsAre(hashring.ring, replicas[|replicas| - 1], replicas, fates, budget);
      SlotSendsAre(uuid, req, slots, id, list, sends);
    }

    /** One send, and the search for a fallback if it fails. */
    method TrySend(fate: Fate, last: Uuid, budget: nat) returns (attempt: Attempt)
      ensures attempt == AttemptOf(hashring.ring, last, fate, budget)
      ensures SendOutcome(hashring.ring, last, fate, budget, attempt)
    {
      AttemptIs(hashring.ring, last, fate, budget);
      hide NextNode, SendOutcome;
      attempt := Delivered;
      if fate.Unreached? {
        var outcome := hashring.NextAvailable(last, fate.up, budget);
        attempt := if outcome.Found? then Fallback(outcome.node) else NoFallback;
      }
    }

    /** A put from the proxy. */
    method HandleIncomingPut(client: Uuid, id: Uuid, list: ItemMap, fates: seq<Fate>, budget: nat, req: nat)
      returns (sends: seq<Envelope>)
      requires Valid() && req !in inFlight
      modifies this`inFlight, this`tasks
      ensures Valid() && fresh(Quorums() - old(Quorums()))
      ensures Reaction(State(), sends) == StartWrite(hashes, uuid, old(State()), client, id, list,
                                                     PutAttempts(hashes, old(hashring.ring), id, fates, budget), req)
      ensures PutStarted(hashes, uuid, old(State()), Envelope(client, uuid, 0, 0, PutList(id, list)), fates, budget,
                         req, Reaction(State(), sends))
    {
      hide Valid, StartWrite, PutAttempts, PutStarted;
      ghost var before := State();
      sends := StartPut(client, id, list, fates, budget, req);
      PutStarts(hashes, uuid, before, Envelope(client, uuid, 0, 0, PutList(id, list)), fates, budget, req);
      AttemptsOfPut(hashes, before.ring, id, fates, budget);
    }

    method StartPut(client: Uuid, id: Uuid, list: ItemMap, fates: seq<Fate>, budget: nat, req: nat)
      returns (sends: seq<Envelope>)
      requires Valid() && req !in inFlight
      modifies this`inFlight, this`tasks
      ensures Valid() && fresh(Quorums() - old(Quorums()))
      ensures Reaction(State(), sends) == StartWrite(hashes, uuid, old(State()), client, id, list,
                                                     PutAttempts(hashes, old(hashring.ring), id, fates, budget), req)
    {
      hide Preference, Valid, SlotsOf, AttemptsOf, Requests, SlotMessage, SlotsFollow, WriteMessages, RestClockwise;
      sends := [];
      var replicas := GetReplicas(id);
      if replicas == [] {
        return;
      }
      var slots: seq<Slot>;
      slots, sends := SendReplicate(replicas, id, list, fates, budget, req);
      Register(req, Task(client, id, list, Write, slots), WRITE_NODES);
    }

    /** A get from the proxy: a quorum read of a stored list, a put of an unknown one. */
    method HandleGet(client: Uuid, id: Uuid, list: ItemMap, fates: seq<Fate>, budget: nat, req: nat)
      returns (sends: seq<Envelope>)
      requires Valid() && req !in inFlight
      modifies this`inFlight, this`tasks
      ensures Valid() && fresh(Quorums() - old(Quorums()))
      ensures Reaction(State(), sends) ==
        if id in old(State()).rows then StartRead(hashes, uuid, old(State()), client, id, list, req)
        else StartWrite(hashes, uuid, old(State()), client, id, list,
                        PutAttempts(hashes, old(hashring.ring), id, fates, budget), req)
      ensures var e := Envelope(client, uuid, 0, 0, GetList(id, list));
        if id in old(State()).rows then ReadStarted(hashes, uuid, old(State()), e, req, Reaction(State(), sends))
        else PutStarted(hashes, uuid, old(State()), e, fates, budget, req, Reaction(State(), sends))
    {
      hide Valid, StartWrite, StartRead, PutAttempts, PutStarted, ReadStarted;
      ghost var before := State();
      sends := StartGet(client, id, list, fates, budget, req);
      StartsGet(hashes, uuid, before, Envelope(client, uuid, 0, 0, GetList(id, list)), fates, budget, req);
    }

    method StartGet(client: Uuid, id: Uuid, list: ItemMap, fates: seq<Fate>, budget: nat, req: nat)
      returns (sends: seq<Envelope>)
      requires Valid() && req !in inFlight
      modifies this`inFlight, this`tasks
      ensures Valid() && fresh(Quorums() - old(Quorums()))
      ensures Reaction(State(), sends) ==
        if id in old(State()).rows then StartRead(hashes, uuid, old(State()), client, id, list, req)
        else StartWrite(hashes, uuid, old(State()), client, id, list,
                        PutAttempts(hashes, old(hashring.ring), id, fates, budget), req)
    {
      hide Preference, Replicas, StartWrite, PutAttempts, Valid, Requests, RestClockwise, PutStarted;
      var stored := storage.GetShoppingList(id);
      if stored.None? {
        sends := HandleIncomingPut(client, id, list, fates, budget, req);
        return;
      }
      sends := [];
      var replicas := GetReplicas(id);
      if replicas == [] {
        return;
      }
      Register(req, Task(client, id, list, Read(stored.value), []), READ_NODES);
      for i := 0 to |replicas|
        invariant |sends| == i
        invariant forall k | 0 <= k < i ::
          sends[k] == Envelope(uuid, replicas[k], req, k, ReplicateList(id, list, false))
      {
        sends := sends + [Envelope(uuid, replicas[i], req, i, ReplicateList(id, list, false))];
      }
    }

    /** Counts an answer for a request that is still waiting. */
    method CountAnswer(req: nat, list: Option<ItemMap>)
      requires Valid()
      modifies Quorums()
      ensures Valid()
      ensures State() ==
        if req !in old(State()).reqs then old(State())
        else UpdateQuorum(old(State()), req,
               if list.None? then CountAck(old(State()).reqs[req].q)
               else CountList(old(State()).reqs[req].q, list.value))
    {
      if req in inFlight {
        ghost var before := Requests();
        var quorum := inFlight[req];
        assert quorum in Quorums();
        quorum.Receive(list);
        forall r | r in inFlight && r != req ensures RequestOf(tasks[r], inFlight[r].Value()) == before[r] {
          assert inFlight[r] != quorum;
        }
        assert Requests() == before[req := before[req].(q := quorum.Value())];
      }
    }

    method HandleMergeList(id: Uuid, list: ItemMap)
      requires Valid()
      modifies storage`rows
      ensures Valid()
      ensures var rows := old(State()).rows;
        State() == old(State()).(rows :=
          WriteRow(storage.policy, rows, id, if id in rows then MergeMap(rows[id].list, list) else list, None))
    {
      hide WriteRow, MergeMap, Valid, Requests;
      assert forall q <- Quorums() :: allocated(q);
      var stored := storage.GetShoppingList(id);
      if stored.Some? {
        var existing := MergedLists(stored.value, list);
        storage.WriteShoppingList(id, existing);
      } else {
        storage.WriteShoppingList(id, list);
      }
    }

    /** A message from the proxy or from another server. */
    method HandleIncoming(e: Envelope, fates: seq<Fate>, budget: nat, req: nat) returns (sends: seq<Envelope>)
      requires Valid() && req !in inFlight
      modifies this`inFlight, this`tasks, storage`rows, Quorums()
      ensures Valid() && fresh(Quorums() - old(Quorums()))
      ensures Reaction(State(), sends) == 
        Handle(Config(), uuid, old(State()), e, MessageAttempts(hashes, old(hashring.ring), e.msg, fates, budget), req)
    {
      hide StartWrite, StartRead, PutAttempts, WriteRow, MergeMap, Valid, Requests, CountAck, CountList;
      sends := [];
      match e.msg {
        case PutList(id, list) =>
          sends := HandleIncomingPut(e.src, id, list, fates, budget, req);
        case GetList(id, list) =>
          sends := HandleGet(e.src, id, list, fates, budget, req);
        case ReplicateList(id, list, write) =>
          if write {
            storage.WriteShoppingList(id, list);
            sends := [Envelope(uuid, e.src, e.req, e.slot, Ack)];
          } else {
            var stored := storage.GetShoppingList(id);
            if stored.Some? {
              sends := [Envelope(uuid, e.src, e.req, e.slot, AckList(id, stored.value))];
            }
          }
        case Handoff(id, list, original) =>
          storage.WriteShoppingListHandoff(id, list, original);
          sends := [Envelope(uuid, e.src, e.req, e.slot, Ack)];
        case Ack =>
          CountAnswer(e.req, None);
        case AckList(_, list) =>
          CountAnswer(e.req, Some(list));
        case MergeList(id, list) =>
          HandleMergeList(id, list);
        case _ =>
      }
    }

    /** Takes a request out of the table. */
    method Unregister(req: nat) returns (task: Task, quorum: QuorumState)
      requires Valid() && req in inFlight
      modifies this`inFlight, this`tasks
      ensures Valid() && Quorums() <= old(Quorums())
      ensures old(Requests())[req] == RequestOf(task, quorum.Value())
      ensures State() == old(State()).(reqs := old(State()).reqs - {req})
    {
      ghost var before := Requests();
      task, quorum := tasks[req], inFlight[req];
      inFlight := inFlight - {req};
      tasks := tasks - {req};
      assert Requests() == before - {req};
    }

    /** What a completed request stores and answers. */
    method ReadAnswer(task: Task, quorum: QuorumState) returns (answer: ItemMap)
      requires quorum.lists != []
      ensures answer == Answer(RequestOf(task, quorum.Value()))
    {
      hide FoldMerge, MergeMap;
      answer := task.list;
      if task.kind.Read? {
        var collected := quorum.MergeLists();
        answer := MergedLists(task.kind.row, collected.value);
      }
    }

    method EndRequest(req: nat, ok: bool) returns (sends: seq<Envelope>)
      requires Valid() && req in Requests() && Requests()[req].q.lists != []
      modifies this`inFlight, this`tasks, storage`rows
      ensures Valid() && Quorums() <= old(Quorums())
      ensures Reaction(State(), sends) == Finish(Config(), uuid, old(State()), req, ok)
    {
      hide FoldMerge, MergeMap, WriteRow, Valid, Requests, Answer;
      var task, quorum := Unregister(req);
      if ok {
        var answer := ReadAnswer(task, quorum);
        storage.WriteShoppingList(task.id, answer);
        sends := [Envelope(uuid, task.client, 0, 0, ReplyList(task.id, answer))];
      } else {
        sends := [Envelope(uuid, task.client, 0, 0, ReplyNack)];
      }
    }

    /** The end of a request: its quorum was reached, and the answer is stored and sent; or the
        coordinator gave up, nothing is stored and a nack is sent. */
    method FinishRequest(req: nat, ok: bool) returns (sends: seq<Envelope>)
      requires Valid() && req in Requests() && Requests()[req].q.lists != []
      modifies this`inFlight, this`tasks, storage`rows
      ensures Valid() && Quorums() <= old(Quorums())
      ensures Reaction(State(), sends) == Finish(Config(), uuid, old(State()), req, ok)
      ensures var r := old(State()).reqs[req];
        && (!ok ==> State().rows == old(State()).rows && sends == [Envelope(uuid, r.client, 0, 0, ReplyNack)])
        && (ok ==> sends == [Envelope(uuid, r.client, 0, 0, ReplyList(r.id, Answer(r)))])
    {
      hide Finish, Answer, Valid, Requests;
      ghost var before := State();
      sends := EndRequest(req, ok);
      FinishIs(Config(), uuid, before, req, ok);
    }

    // ---------- handoff pass ----------

    method ScanHints()
      requires Valid()
      modifies this`handoffs
      ensures Valid() && State() == old(State()).(handoffs := HintsOf(old(State()).rows))
    {
      hide Valid, HintsOf, Requests;
      assert forall q <- Quorums() :: allocated(q);
      handoffs := storage.GetHintedHandoffs();
    }

    method SendHint(h: Hint, req: nat) returns (sent: Envelope)
      requires Valid() && h in handoffs
      modifies this`handoffs, this`deletes
      ensures Valid() && State() == old(State()).(handoffs := old(handoffs) - {h}, deletes := old(deletes) + {h.id})
      ensures sent == Envelope(uuid, h.dest, req, 0, ReplicateList(h.id, h.list, true))
    {
      hide Valid;
      sent := Envelope(uuid, h.dest, req, 0, ReplicateList(h.id, h.list, true));
      handoffs := handoffs - {h};
      deletes := deletes + {h.id};
    }

    method DeleteHinted(id: Uuid)
      requires Valid() && id in deletes
      modifies this`deletes, storage`rows
      ensures Valid() && State() == old(State()).(rows := old(State()).rows - {id}, deletes := old(deletes) - {id})
    {
      hide Valid, Requests;
      assert forall q <- Quorums() :: allocated(q);
      storage.DeleteShoppingList(id);
      deletes := deletes - {id};
    }

    // ---------- leaving ----------

    /** Takes this server off its own ring and hands each of its rows to the first server met
        clockwise from the list's position among the others, if there is one. */
    method Leave() returns (sends: set<Envelope>)
      requires Valid()
      modifies hashring`ring
      ensures Valid() && hashring.ring == RemoveNode(hashes, old(hashring.ring), uuid, VNODES)
      ensures HandsOver(hashes, hashring.ring, uuid, storage.rows, sends)
    {
      hide RemoveNode, HandsOver, Preference;
      sends := SendFarewells();
      FarewellsHandOver(hashes, hashring.ring, uuid, storage.rows, sends);
    }

    method SendFarewells() returns (sends: set<Envelope>)
      requires Valid()
      modifies hashring`ring
      ensures Valid() && hashring.ring == RemoveNode(hashes, old(hashring.ring), uuid, VNODES)
      ensures sends == set id | id in storage.rows && PreferenceList(hashes, hashring.ring, id) != [] ::
                         Farewell(uuid, PreferenceList(hashes, hashring.ring, id)[0], id, storage.rows[id].list)
    {
      hide Preference, RemoveNode;
      hashring.RemoveNode(uuid);
      sends := {};
      var todo := storage.rows.Keys;
      while todo != {}
        invariant todo <= storage.rows.Keys
        invariant sends == set id | id in storage.rows && id !in todo
                               && PreferenceList(hashes, hashring.ring, id) != [] ::
                             Farewell(uuid, PreferenceList(hashes, hashring.ring, id)[0], id, storage.rows[id].list)
        modifies {}
        decreases |todo|
      {
        var id: Uuid :| id in todo;
        var list := hashring.GetPreferenceListHash(hashes.list(id));
        if list != [] {
          sends := sends + {Farewell(uuid, list[0], id, storage.rows[id].list)};
        }
        todo := todo - {id};
      }
    }

    // ---------- membership ----------

    method AddNodes(nodes: seq<Uuid>)
      requires Valid()
      modifies hashring`ring
      ensures Valid() && hashring.ring == Gossip.AddNodes(hashes, old(hashring.ring), nodes, VNODES)
    {
      assert nodes[..0] == [];
      for i := 0 to |nodes|
        invariant Valid() && hashring.ring == Gossip.AddNodes(hashes, old(hashring.ring), nodes[..i], VNODES)
      {
        hashring.AddNode(nodes[i]);
        assert nodes[..i + 1][..i] == nodes[..i];
      }
      assert nodes[..|nodes|] == nodes;
    }

    /** A gossiped table: every server goes on the ring, unknown ones into the table. */
    method HandleGossip(table: Gossip.Table, order: seq<Uuid>)
      requires Valid() && Elements(order) == table.Keys
      modifies this`membership, hashring`ring
      ensures Valid() && membership == Gossip.KeepFirst(old(membership), table)
      ensures hashring.ring == Gossip.AddNodes(hashes, old(hashring.ring), order, VNODES)
      ensures membership.Keys == old(membership).Keys + table.Keys
      ensures forall u <- membership :: membership[u] == if u in old(membership) then old(membership)[u] else table[u]
    {
      hide Gossip.AddNodes, Valid;
      AddNodes(order);
      var entries := set u | u in table && u !in membership;
      ghost var before, ring := membership, hashring.ring;
      while entries != {}
        invariant entries <= table.Keys - before.Keys && Valid()
        invariant hashring.ring == ring
        invariant membership == before + (table - before.Keys - entries)
        decreases |entries|
      {
        var u: Uuid :| u in entries;
        membership := membership[u := table[u]];
        entries := entries - {u};
      }
      assert membership == Gossip.KeepFirst(before, table);
    }

    method HandleHello(newcomer: Uuid, addr: Gossip.Address, pick: Uuid) returns (sends: seq<Gossip.Packet>)
      requires Valid() && pick in membership[newcomer := addr]
      modifies this`membership
      ensures Valid() && membership == old(membership)[newcomer := addr]
      ensures sends == [Gossip.Packet(newcomer, Gossip.Gossip(membership))] + Gossip.GossipTo(uuid, membership, pick)
      ensures sends == [Gossip.Packet(newcomer, Gossip.Gossip(membership))]
                     + if pick == uuid then [] else [Gossip.Packet(pick, Gossip.Gossip(membership))]
    {
      membership := membership[newcomer := addr];
      sends := [Gossip.Packet(newcomer, Gossip.Gossip(membership))];
      if pick != uuid {
        sends := sends + [Gossip.Packet(pick, Gossip.Gossip(membership))];
      }
    }
  }

  function DropAttempts(attempts: seq<Attempt>, i: nat): seq<Attempt> {
    if i <= |attempts| then attempts[i..] else []
  }

  /** Every row goes, as a write under no request id, to the first server met clockwise from its list's
      position, and nothing else is sent. */
  ghost predicate HandsOver(hs: Hashes, ring: Ring, me: Uuid, rows: Rows, sends: set<Envelope>) {
    && (forall e <- sends :: e.msg.ReplicateList? && e.msg.id in rows
          && FirstMet(ring, hs.list(e.msg.id), [], e.dst)
          && e == Envelope(me, e.dst, 0, 0, ReplicateList(e.msg.id, rows[e.msg.id].list, true)))
    && (ring != map[] ==> forall id <- rows :: exists e <- sends :: e.msg.ReplicateList? && e.msg.id == id)
  }

  lemma FarewellsHandOver(hs: Hashes, ring: Ring, me: Uuid, rows: Rows, sends: set<Envelope>)
    requires sends == set id | id in rows && PreferenceList(hs, ring, id) != [] ::
                       Farewell(me, PreferenceList(hs, ring, id)[0], id, rows[id].list)
    ensures HandsOver(hs, ring, me, rows, sends)
  {
    hide Preference, FirstMet;
    forall id: Uuid
      ensures PreferenceList(hs, ring, id) == [] <==> ring == map[]
      ensures PreferenceList(hs, ring, id) != [] ==> FirstMet(ring, hs.list(id), [], PreferenceList(hs, ring, id)[0])
    {
      TailIsRest(ring, hs.list(id), REPLICAS);
    }
    if ring != map[] {
      forall id | id in rows ensures exists e <- sends :: e.msg.ReplicateList? && e.msg.id == id {
        assert Farewell(me, PreferenceList(hs, ring, id)[0], id, rows[id].list) in sends;
      }
    }
  }

  /** A row sent by a server that leaves, under no request id. */
  function Farewell(me: Uuid, dst: Uuid, id: Uuid, list: ItemMap): Envelope {
    Envelope(me, dst, 0, 0, ReplicateList(id, list, true))
  }

  /** A leaving server hands each row it coordinated or replicated to a server that is on the
      list's preference list already, if it shares that list with any. */
  lemma LeaveKeepsToTheList(hs: Hashes, ring: Ring, servers: set<Uuid>, me: Uuid, id: Uuid)
    requires NoCollisions(hs, VNODES, servers + {me}) && Represents(hs, VNODES, ring, servers)
    ensures var pref := PreferenceList(hs, ring, id);
      var after := PreferenceList(hs, RemoveNode(hs, ring, me, VNODES), id);
      (exists n <- pref :: n != me) ==> after != [] && after[0] in pref && after[0] != me
  {
    hide Preference, AddNode, RemoveNode;
    RemoveRepresents(hs, VNODES, ring, servers, me);
    if exists n <- PreferenceList(hs, ring, id) :: n != me {
      SurvivingCoordinator(ring, hs.list(id), REPLICAS, {me});
    }
  }

  /** The outcomes of the sends of a put. */
  function PutAttempts(hs: Hashes, ring: Ring, id: Uuid, fates: seq<Fate>, budget: nat): seq<Attempt> {
    var replicas := Replicas(hs, ring, id);
    if replicas == [] then [] else AttemptsOf(ring, replicas[|replicas| - 1], fates, budget)
  }

  /** Only requests of clients start writes. */
  function MessageAttempts(hs: Hashes, ring: Ring, m: Msg, fates: seq<Fate>, budget: nat): seq<Attempt> {
    if m.PutList? || m.GetList? then PutAttempts(hs, ring, m.id, fates, budget) else []
  }

  lemma {:induction false} AttemptAt(ring: Ring, last: Uuid, fates: seq<Fate>, budget: nat, i: nat)
    ensures var attempts := AttemptsOf(ring, last, fates, budget);
      |attempts| == |fates| && (i < |fates| ==> attempts[i] == AttemptOf(ring, last, fates[i], budget))
  {
    if fates != [] {
      AttemptAt(ring, last, fates[1..], budget, if i > 0 then i - 1 else 0);
    }
  }

  lemma AttemptsOfPut(hs: Hashes, ring: Ring, id: Uuid, fates: seq<Fate>, budget: nat)
    ensures var replicas := Replicas(hs, ring, id);
      PutAttempts(hs, ring, id, fates, budget)
        == if replicas == [] then [] else AttemptsOf(ring, replicas[|replicas| - 1], fates, budget)
  {}

  lemma SlotSendsAre(me: Uuid, req: nat, slots: seq<Slot>, id: Uuid, list: ItemMap, sends: seq<Envelope>)
    requires SlotSends(me, req, slots, id, list, sends)
    ensures WriteMessages(me, req, slots, id, list, sends)
  {}

  lemma StartsGet(hs: Hashes, me: Uuid, p: PeerState, e: Envelope, fates: seq<Fate>, budget: nat, req: nat)
    requires FromClient(e.msg)
    ensures e.msg.id in p.rows ==>
      ReadStarted(hs, me, p, e, req, StartRead(hs, me, p, e.src, e.msg.id, e.msg.list, req))
    ensures PutStarted(hs, me, p, e, fates, budget, req,
                       StartWrite(hs, me, p, e.src, e.msg.id, e.msg.list,
                                  PutAttempts(hs, p.ring, e.msg.id, fates, budget), req))
  {
    hide StartWrite, StartRead, PutStarted, ReadStarted, Replicas;
    PutStarts(hs, me, p, e, fates, budget, req);
    if e.msg.id in p.rows { ReadStarts(hs, me, p, e, req); }
  }

  /** One message for each slot. */
  ghost predicate SlotSends(me: Uuid, req: nat, slots: seq<Slot>, id: Uuid, list: ItemMap, sends: seq<Envelope>) {
    |sends| == |slots| && forall k | 0 <= k < |sends| :: sends[k] == SlotMessage(me, req, slots, id, list, k)
  }

  lemma NoSends(me: Uuid, req: nat, id: Uuid, list: ItemMap)
    ensures SlotSends(me, req, [], id, list, [])
  {}

  lemma OneMoreSend(me: Uuid, req: nat, slots: seq<Slot>, id: Uuid, list: ItemMap, sends: seq<Envelope>)
    requires slots != [] && sends != []
    requires SlotSends(me, req, slots[..|slots| - 1], id, list, sends[..|sends| - 1])
    requires |sends| == |slots| && sends[|sends| - 1] == SlotMessage(me, req, slots, id, list, |slots| - 1)
    ensures SlotSends(me, req, slots, id, list, sends)
  {
    var before := slots[..|slots| - 1];
    forall k | 0 <= k < |before| ensures sends[k] == SlotMessage(me, req, slots, id, list, k) {
      assert sends[k] == sends[..|sends| - 1][k] && before[k] == slots[k];
    }
  }

  lemma FirstStep(replicas: seq<Uuid>, attempts: seq<Attempt>)
    ensures SlotsOf(replicas[0..], DropAttempts(attempts, 0)) == SlotsOf(replicas, attempts)
  {
    assert replicas[0..] == replicas && attempts[0..] == attempts;
  }

  lemma LastStep(replicas: seq<Uuid>, attempts: seq<Attempt>)
    ensures SlotsOf(replicas[|replicas|..], DropAttempts(attempts, |replicas|)) == []
  {}

  /** One iteration of the sending loop, on values. */
  lemma SlotsStep(replicas: seq<Uuid>, attempts: seq<Attempt>, i: nat)
    requires i < |replicas|
    ensures SlotsOf(replicas[i..], DropAttempts(attempts, i)) ==
      match (if i < |attempts| then attempts[i] else Delivered)
      case Delivered => [Sent(replicas[i])] + SlotsOf(replicas[i + 1..], DropAttempts(attempts, i + 1))
      case Fallback(n) => [Handed(replicas[i], n)] + SlotsOf(replicas[i + 1..], DropAttempts(attempts, i + 1))
      case NoFallback => []
  {
    var rest := DropAttempts(attempts, i);
    assert replicas[i..][1..] == replicas[i + 1..];
    assert (if rest == [] then [] else rest[1..]) == DropAttempts(attempts, i + 1);
  }
}

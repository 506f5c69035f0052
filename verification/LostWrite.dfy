/** Concrete runs in which an acknowledged write is not where a user would look for it: one loses
    it from its coordinator, one hides it from a get, and one leaves it on a single server.  No
    message is repeated in any of them, and every fallback is the one the search finds. */
module LostWrite {
  import opened Basics
  import opened CrdtValues
  import opened Quantity
  import opened RingValues
  import opened Protocol
  import opened Cluster
  import opened FallbackSearch
  import opened Growth
  import opened WriteQuorum
  import opened HintedHandoff
  import opened Durability
  import opened ThreeServers

  // ---------- a first write, acknowledged by its three servers ----------

  const MILK := map["milk" := NewItem(1, false, 7)]
  const PUT := Envelope(7, 1, 0, 0, PutList(0, MILK))

  /** The plan of the first write. */
  function FirstPlan(ring: Ring, slots: seq<Slot>): Plan {
    Plan(1, 0, MILK, slots, [2, 3], ring)
  }

  /** The first write is planned, and nothing was repeated or deleted. */
  ghost predicate Planned(a: Audit, ring: Ring, slots: seq<Slot>) {
    1 in a.plans && a.plans[1] == FirstPlan(ring, slots) && a.repeated == {} && a.lost == {}
  }

  /** Servers outside the set have done nothing, and client 8 knows nothing. */
  ghost predicate Idle(w: World, active: set<Uuid>) {
    (forall n: Uuid | n !in active :: PeerOf(w, n) == NO_PEER) && ClientList(w, 8, 0) == map[]
  }

  lemma IdleClient(w: World, active: set<Uuid>)
    requires Idle(w, active)
    ensures ClientList(w, 8, 0) == map[]
  {}

  lemma StaysIdle(w: World, w': World, s: Uuid, active: set<Uuid>)
    requires Idle(w, active) && Alone(w, w', s) && s in active
    ensures Idle(w', active)
  {}

  /** Client 7 has sent its first list to server 1. */
  lemma FirstSent() returns (steps: seq<Step>, w: World)
    ensures Reaches(steps, w) && Coordinates(w, 1, Three(), 1, 1) && Idle(w, {1}) && w.net == map[0 := PUT]
    ensures PeerOf(w, 1) == NO_PEER.(ring := Three())
    ensures w.audit.plans == map[] && w.audit.repeated == {} && w.audit.lost == {}
  {
    hide Apply, NewItem, Enabled, Three, Reaches;
    ghost var w0: World;
    steps, w0 := Begin();
    assert ClientList(w0, 7, 0) == map[] && ClientList(w0, 8, 0) == map[];
    Requested(MERGED, w0, 1, Three(), 7, "milk", 0, 1);
    steps := Then(steps, w0, Edit(7, 0, "milk", 1, false, 1));
    w := Apply(MERGED, w0, Edit(7, 0, "milk", 1, false, 1));
    assert forall n: Uuid :: PeerOf(w, n) == PeerOf(w0, n);
  }

  /** The coordinator has started the first write. */
  lemma FirstStarted(fates: seq<Fate>, attempts: seq<Attempt>, slots: seq<Slot>) returns (steps: seq<Step>, w: World)
    requires AttemptsOf(Three(), 3, fates, 1) == attempts && SlotsOf([2, 3], attempts) == slots && |slots| == 2
    ensures Reaches(steps, w) && Coordinates(w, 1, Three(), 3, 2) && Planned(w.audit, Three(), slots) && Idle(w, {1})
    ensures PeerOf(w, 1) == NO_PEER.(ring := Three(), reqs := map[1 := WriteRequest(PUT, slots)])
    ensures w.net == map[1 := SlotMessage(1, 1, slots, 0, MILK, 0), 2 := SlotMessage(1, 1, slots, 0, MILK, 1)]
  {
    hide Exec, Three, Reaches, AttemptsOf, SlotsOf, SlotMessage, WriteRequest, Idle, Alone;
    ghost var w1: World;
    steps, w1 := FirstSent();
    steps, w := Starts(steps, w1, 1, 0, fates, attempts, slots);
    StaysIdle(w1, w, 1, {1});
  }

  /** Both answers to the first write have arrived: the coordinator completes it. */
  lemma FirstCompleted(steps: seq<Step>, w: World, slots: seq<Slot>, active: set<Uuid>, m: nat, n: nat)
    returns (longer: seq<Step>, w': World)
    requires Reaches(steps, w) && Coordinates(w, 1, Three(), 5, 2) && Planned(w.audit, Three(), slots)
    requires Idle(w, active) && 1 in active && m != n && {m, n} == w.net.Keys
    requires PeerOf(w, 1).reqs == map[1 := WriteRequest(PUT, slots)]
    requires forall k <- w.net :: w.net[k].msg.Ack? && w.net[k].dst == 1 && w.net[k].req == 1
    ensures Reaches(longer, w') && Coordinates(w', 1, Three(), 6, 2)
    ensures Planned(w'.audit, Three(), slots) && Idle(w', active)
    ensures 1 in w'.audit.acked && w'.net == map[5 := Envelope(1, 7, 0, 0, ReplyList(0, MILK))]
    ensures PeerOf(w', 1) == PeerOf(w, 1).(reqs := map[], rows := WriteRow(Merged, PeerOf(w, 1).rows, 0, MILK, None))
    ensures forall s: Uuid | s != 1 :: PeerOf(w', s) == PeerOf(w, s)
  {
    hide Apply, NewItem, Enabled, Three, Reaches, WriteRow;
    Acknowledged(MERGED, w, 1, Three(), m, 5, 2);
    longer := Then(steps, w, Deliver(m, []));
    ghost var w1 := Apply(MERGED, w, Deliver(m, []));
    StaysIdle(w, w1, 1, active);
    assert w1.net.Keys == {n};
    Acknowledged(MERGED, w1, 1, Three(), n, 5, 2);
    longer := Then(longer, w1, Deliver(n, []));
    ghost var w2 := Apply(MERGED, w1, Deliver(n, []));
    StaysIdle(w1, w2, 1, active);
    assert w2.net == map[];
    Completed(MERGED, w2, 1, Three(), 1, 5, 2);
    longer := Then(longer, w2, Complete(1, 1));
    w' := Apply(MERGED, w2, Complete(1, 1));
    StaysIdle(w2, w', 1, active);
    assert PeerOf(w2, 1).reqs - {1} == map[];
  }

  /** The first write is acknowledged by all three servers. */
  lemma FirstAcknowledged() returns (steps: seq<Step>, w: World)
    ensures Reaches(steps, w) && Coordinates(w, 1, Three(), 6, 2) && Planned(w.audit, Three(), [Sent(2), Sent(3)])
    ensures Idle(w, {1, 2, 3}) && 1 in w.audit.acked && w.net.Keys == {5}
  {
    hide Apply, NewItem, Enabled, Three, Reaches, AttemptsOf, SlotsOf, NewQuorum, WriteRow;
    FailedSends();
    steps, w := FirstStarted([], [], [Sent(2), Sent(3)]);
    assert w.net == map[1 := Envelope(1, 2, 1, 0, ReplicateList(0, MILK, true)),
                        2 := Envelope(1, 3, 1, 1, ReplicateList(0, MILK, true))];
    Replicated(MERGED, w, 1, Three(), 1, 3, 2);
    steps := Then(steps, w, Deliver(1, []));
    ghost var w1 := Apply(MERGED, w, Deliver(1, []));
    Replicated(MERGED, w1, 1, Three(), 2, 4, 2);
    steps := Then(steps, w1, Deliver(2, []));
    w := Apply(MERGED, w1, Deliver(2, []));
    assert w.net == map[3 := Envelope(2, 1, 1, 0, Ack), 4 := Envelope(3, 1, 1, 1, Ack)];
    steps, w := FirstCompleted(steps, w, [Sent(2), Sent(3)], {1, 2, 3}, 3, 4);
  }

  /** All its servers hold it. */
  lemma FirstHeld(steps: seq<Step>, w: World, slots: seq<Slot>, i: nat)
    requires Reaches(steps, w) && Planned(w.audit, Three(), slots) && 1 in w.audit.acked && i <= |slots|
    ensures Holds(w, RecordAt(FirstPlan(Three(), slots), 1, i).server, 0, MILK)
  {
    hide Exec, Holds, PlanOk, Three;
    AcknowledgedWriteHeld(MERGED, steps, 1);
  }

  // ---------- lost from its coordinator ----------

  /** In w the write is acknowledged, with no handoff, by the coordinator of its list, which holds
      it; in w' that server no longer holds it. */
  ghost predicate Loses(w: World, w': World, req: nat) {
    && req in w.audit.acked && req !in w.audit.repeated && req in w.audit.plans
    && Direct(HASHES, w.audit.plans[req])
    && var plan := w.audit.plans[req];
       Holds(w, plan.coordinator, plan.id, plan.list) && !Holds(w', plan.coordinator, plan.id, plan.list)
  }

  /** A second put, whose first send fails, is handed over to the coordinator itself. */
  lemma SecondHandedOver() returns (steps: seq<Step>, w: World)
    ensures Reaches(steps, w) && Planned(w.audit, Three(), [Sent(2), Sent(3)]) && 1 in w.audit.acked
    ensures 7 in w.net && w.net[7].dst == 1 && w.net[7].msg.Handoff? && w.net[7].msg.id == 0
  {
    hide Apply, NewItem, Enabled, Three, Reaches, AttemptsOf, SlotsOf, WriteRequest, Alone, Idle;
    ghost var w0: World;
    steps, w0 := FirstAcknowledged();
    assert ClientList(w0, 8, 0) == map[] by { IdleClient(w0, {1, 2, 3}); }
    Requested(MERGED, w0, 1, Three(), 8, "eggs", 6, 2);
    steps := Then(steps, w0, Edit(8, 0, "eggs", 1, false, 1));
    ghost var w1 := Apply(MERGED, w0, Edit(8, 0, "eggs", 1, false, 1));
    FailedSends();
    steps, w := Starts(steps, w1, 1, 6, [Unreached((n: Uuid) => true)], [Fallback(1)], [Handed(2, 1), Sent(3)]);
  }

  lemma LossFollows(w: World, w': World)
    requires Planned(w.audit, Three(), [Sent(2), Sent(3)]) && 1 in w.audit.acked
    requires Holds(w, 1, 0, MILK) && !Holds(w', 1, 0, MILK)
    ensures Loses(w, w', 1)
  {
    hide Holds, Preference, Three;
    ThreeReplicas(0);
  }

  /** Some run loses an acknowledged write from its coordinator. */
  lemma AcknowledgedWriteLost()
    ensures exists steps, rest, req: nat ::
      SteadyRun(MERGED, steps + rest) && Loses(Exec(MERGED, steps), Exec(MERGED, steps + rest), req)
  {
    hide Exec, Three, SteadyRun, Loses, Holds, Planned, Enabled, OwnPass;
    var steps, w := SecondHandedOver();
    FirstHeld(steps, w, [Sent(2), Sent(3)], 0);
    HandoffEnabled(w, 7);
    HandoffCanLoseHeld(MERGED, steps, 7, MILK);
    var pass :| OwnPass(pass, 1) && !Holds(Exec(MERGED, steps + ([Deliver(7, [])] + pass)), 1, 0, MILK);
    var rest := [Deliver(7, [])] + pass;
    var longer := Then(steps, w, Deliver(7, []));
    PassDeliversNothing(pass, 1);
    SteadyAppend(MERGED, longer, pass);
    assert longer + pass == steps + rest;
    LossFollows(w, Exec(MERGED, steps + rest));
    assert SteadyRun(MERGED, steps + rest) && Loses(Exec(MERGED, steps), Exec(MERGED, steps + rest), 1);
  }

  lemma HandoffEnabled(w: World, m: nat)
    requires m in w.net && w.net[m].msg.Handoff?
    ensures Enabled(w, Deliver(m, []))
  {}

  lemma PassDeliversNothing(pass: seq<Step>, s: Uuid)
    requires OwnPass(pass, s)
    ensures forall step <- pass :: !step.Deliver?
  {}

  // ---------- hidden from a get ----------

  /** In w the write is acknowledged and both replicas of the server that is about to get message m,
      a get of the list, hold it; in w2 the get is answered without it. */
  ghost predicate Misses(w: World, w2: World, write: nat, m: nat) {
    && write in w.audit.acked && w2.audit.repeated == {} && write in w.audit.plans
    && m in w.net && w.net[m].msg.GetList? && w.net[m].msg.id == w.audit.plans[write].id
    && var plan, s := w.audit.plans[write], w.net[m].dst;
       var replicas := Replicas(HASHES, PeerOf(w, s).ring, plan.id);
       && |replicas| == REPLICAS - 1 && (forall n <- replicas :: Holds(w, n, plan.id, plan.list))
       && Waiting(w2, s, w.nextReq) && PeerOf(w2, s).reqs[w.nextReq].q.fired
       && !MapLe(plan.list, Answer(PeerOf(w2, s).reqs[w.nextReq]))
  }

  /** Client 8 asks server 9, which has the three servers on its ring and no row. */
  lemma GetSent() returns (steps: seq<Step>, w: World)
    ensures Reaches(steps, w) && Coordinates(w, 9, Three(), 7, 2) && Planned(w.audit, Three(), [Sent(2), Sent(3)])
    ensures 1 in w.audit.acked && PeerOf(w, 9) == NO_PEER.(ring := Three())
    ensures w.net.Keys == {5, 6} && w.net[6] == Envelope(8, 9, 0, 0, GetList(0, map[]))
  {
    hide Apply, NewItem, Enabled, Three, Reaches, Post;
    steps, w := FirstAcknowledged();
    steps, w := JoinThree(steps, w, 9);
    assert ClientList(w, 8, 0) == map[];
    assert Enabled(w, Fetch(8, 0, 9)) by { FetchEnabled(w); }
    steps := Then(steps, w, Fetch(8, 0, 9));
    FetchSends(w);
    w := Apply(MERGED, w, Fetch(8, 0, 9));
  }

  lemma FetchEnabled(w: World)
    ensures Enabled(w, Fetch(8, 0, 9))
  {}

  lemma FetchSends(w: World)
    ensures Apply(MERGED, w, Fetch(8, 0, 9)) ==
      w.(net := w.net[w.nextMsg := Envelope(8, 9, 0, 0, GetList(0, ClientList(w, 8, 0)))], nextMsg := w.nextMsg + 1)
  {
    hide Post;
    PostedOne(w, Envelope(8, 9, 0, 0, GetList(0, ClientList(w, 8, 0))));
  }

  /** Server 9 has started a put of client 8's empty list. */
  lemma GetStarted(steps: seq<Step>, w: World) returns (longer: seq<Step>, w1: World)
    requires Reaches(steps, w) && Coordinates(w, 9, Three(), 7, 2) && w.audit.repeated == {}
    requires PeerOf(w, 9) == NO_PEER.(ring := Three())
    requires w.net.Keys == {5, 6} && w.net[6] == Envelope(8, 9, 0, 0, GetList(0, map[]))
    ensures longer == steps + [Deliver(6, [])] && Reaches(longer, w1) && Coordinates(w1, 9, Three(), 9, 3)
    ensures w1.audit.repeated == {} && w1.net.Keys == {5, 7, 8}
    ensures w1.net[7] == Envelope(9, 2, 2, 0, ReplicateList(0, map[], true))
    ensures w1.net[8] == Envelope(9, 3, 2, 1, ReplicateList(0, map[], true))
    ensures PeerOf(w1, 9).reqs == map[2 := WriteRequest(w.net[6], [Sent(2), Sent(3)])]
  {
    hide Three, Reaches, AttemptsOf, SlotsOf, WriteRequest, Alone;
    FailedSends();
    longer, w1 := Starts(steps, w, 9, 6, [], [], [Sent(2), Sent(3)]);
  }

  /** Both replicas, and then server 9, handle what was sent. */
  lemma GetHandled(steps: seq<Step>, w: World) returns (longer: seq<Step>, w2: World)
    requires Reaches(steps, w) && Coordinates(w, 9, Three(), 9, 3) && w.audit.repeated == {} && w.net.Keys == {5, 7, 8}
    requires w.net[7] == Envelope(9, 2, 2, 0, ReplicateList(0, map[], true))
    requires w.net[8] == Envelope(9, 3, 2, 1, ReplicateList(0, map[], true))
    ensures longer == steps + [Deliver(7, [])] + [Deliver(8, [])]
    ensures Reaches(longer, w2) && Coordinates(w2, 9, Three(), 11, 3) && PeerOf(w2, 9) == PeerOf(w, 9)
    ensures w2.audit.repeated == {} && w2.net.Keys == {5, 9, 10}
    ensures w2.net[9] == Envelope(2, 9, 2, 0, Ack) && w2.net[10] == Envelope(3, 9, 2, 1, Ack)
  {
    hide Apply, Enabled, Three, Reaches;
    Replicated(MERGED, w, 9, Three(), 7, 9, 3);
    longer := Then(steps, w, Deliver(7, []));
    var w1 := Apply(MERGED, w, Deliver(7, []));
    Replicated(MERGED, w1, 9, Three(), 8, 10, 3);
    longer := Then(longer, w1, Deliver(8, []));
    w2 := Apply(MERGED, w1, Deliver(8, []));
  }

  lemma GetAnswered(steps: seq<Step>, w: World, slots: seq<Slot>) returns (longer: seq<Step>, w2: World)
    requires Reaches(steps, w) && Coordinates(w, 9, Three(), 11, 3) && w.audit.repeated == {}
    requires w.net.Keys == {5, 9, 10}
    requires w.net[9] == Envelope(2, 9, 2, 0, Ack) && w.net[10] == Envelope(3, 9, 2, 1, Ack)
    requires PeerOf(w, 9).reqs == map[2 := WriteRequest(Envelope(8, 9, 0, 0, GetList(0, map[])), slots)]
    ensures longer == steps + [Deliver(9, [])] + [Deliver(10, [])] && Reaches(longer, w2)
    ensures w2.audit.repeated == {} && 2 in PeerOf(w2, 9).reqs
    ensures var r := PeerOf(w2, 9).reqs[2]; r.kind.Write? && r.list == map[] && r.q.fired && r.q.lists != []
  {
    hide Apply, Enabled, Three, Reaches;
    Acknowledged(MERGED, w, 9, Three(), 9, 11, 3);
    longer := Then(steps, w, Deliver(9, []));
    var w1 := Apply(MERGED, w, Deliver(9, []));
    Acknowledged(MERGED, w1, 9, Three(), 10, 11, 3);
    longer := Then(longer, w1, Deliver(10, []));
    w2 := Apply(MERGED, w1, Deliver(10, []));
  }

  lemma MissFollows(w: World, w2: World)
    requires Coordinates(w, 9, Three(), 7, 2) && Planned(w.audit, Three(), [Sent(2), Sent(3)]) && 1 in w.audit.acked
    requires 6 in w.net && w.net[6] == Envelope(8, 9, 0, 0, GetList(0, map[]))
    requires Holds(w, 2, 0, MILK) && Holds(w, 3, 0, MILK)
    requires w2.audit.repeated == {} && 2 in PeerOf(w2, 9).reqs
    requires var r := PeerOf(w2, 9).reqs[2]; r.kind.Write? && r.list == map[] && r.q.fired && r.q.lists != []
    ensures Misses(w, w2, 1, 6)
  {
    hide Holds, Replicas, Three, MapLe, MergeMap, FoldMerge;
    ThreeReplicas(0);
    NotBelowNothing();
  }

  /** In some run a get is answered without an acknowledged write that both replicas hold, because
      its coordinator has no row of the list. */
  lemma GetMissesAcknowledgedWrite()
    ensures exists before, m: nat, after, write: nat ::
      && SteadyRun(MERGED, before + [Deliver(m, [])] + after)
      && Misses(Exec(MERGED, before), Exec(MERGED, before + [Deliver(m, [])] + after), write, m)
  {
    hide Exec, Three, SteadyRun, Misses, Holds, Planned, WriteRequest;
    var before, w := GetSent();
    FirstHeld(before, w, [Sent(2), Sent(3)], 1);
    FirstHeld(before, w, [Sent(2), Sent(3)], 2);
    assert w.audit.repeated == {} by { PlannedFresh(w.audit, Three(), [Sent(2), Sent(3)]); }
    var steps, w1 := GetStarted(before, w);
    steps, w1 := GetHandled(steps, w1);
    ghost var w2: World;
    steps, w2 := GetAnswered(steps, w1, [Sent(2), Sent(3)]);
    var after := [Deliver(7, [])] + [Deliver(8, [])] + [Deliver(9, [])] + [Deliver(10, [])];
    assert steps == before + [Deliver(6, [])] + after;
    MissFollows(w, w2);
    assert SteadyRun(MERGED, before + [Deliver(6, [])] + after)
        && Misses(Exec(MERGED, before), Exec(MERGED, before + [Deliver(6, [])] + after), 1, 6);
  }

  lemma PlannedFresh(a: Audit, ring: Ring, slots: seq<Slot>)
    requires Planned(a, ring, slots)
    ensures a.repeated == {}
  {}

  lemma NotBelowNothing()
    ensures !MapLe(MILK, map[])
  {
    assert "milk" in MILK;
  }

  // ---------- on one server only ----------

  /** The write is acknowledged, and one server holds it and nobody else does; no message and no
      handoff pass of that server takes it anywhere. */
  ghost predicate OnOneServer(w: World, req: nat, s: Uuid) {
    && req in w.audit.acked && req !in w.audit.repeated && req in w.audit.plans
    && var plan := w.audit.plans[req];
       && plan.coordinator == s && |plan.slots| == REPLICAS - 1
       && (forall slot <- plan.slots :: slot.Handed? && slot.holder == s)
       && Holds(w, s, plan.id, plan.list) && Clean(PeerOf(w, s), plan.id)
       && (forall n: Uuid | n != s :: !Holds(w, n, plan.id, plan.list))
       && (forall m <- w.net :: w.net[m].msg.ReplyList?)
  }

  /** Both handoffs have come back to the coordinator and been handled. */
  lemma BothComeBack() returns (steps: seq<Step>, w: World)
    ensures Reaches(steps, w) && Coordinates(w, 1, Three(), 5, 2) && Idle(w, {1})
    ensures Planned(w.audit, Three(), [Handed(2, 1), Handed(3, 1)])
    ensures w.net == map[3 := Envelope(1, 1, 1, 0, Ack), 4 := Envelope(1, 1, 1, 1, Ack)]
    ensures PeerOf(w, 1) == NO_PEER.(ring := Three(), rows := PeerOf(w, 1).rows,
                                     reqs := map[1 := WriteRequest(PUT, [Handed(2, 1), Handed(3, 1)])])
  {
    hide Apply, Enabled, Three, AttemptsOf, SlotsOf, WriteRequest, Reaches, Idle, Alone;
    FailedSends();
    var failed := Unreached((n: Uuid) => true);
    ghost var w0: World;
    steps, w0 := FirstStarted([failed, failed], [Fallback(1), Fallback(1)], [Handed(2, 1), Handed(3, 1)]);
    assert w0.net == map[1 := Envelope(1, 1, 1, 0, Handoff(0, MILK, 2)),
                         2 := Envelope(1, 1, 1, 1, Handoff(0, MILK, 3))];
    HandedToItself(MERGED, w0, 1, Three(), 1, 3, 2);
    steps := Then(steps, w0, Deliver(1, []));
    var w1 := Apply(MERGED, w0, Deliver(1, []));
    StaysIdle(w0, w1, 1, {1});
    HandedToItself(MERGED, w1, 1, Three(), 2, 4, 2);
    steps := Then(steps, w1, Deliver(2, []));
    w := Apply(MERGED, w1, Deliver(2, []));
    StaysIdle(w1, w, 1, {1});
  }

  lemma OneFollows(w: World)
    requires Planned(w.audit, Three(), [Handed(2, 1), Handed(3, 1)]) && 1 in w.audit.acked && Idle(w, {1})
    requires Holds(w, 1, 0, MILK) && PeerOf(w, 1).handoffs == {} && PeerOf(w, 1).deletes == {}
    requires 0 in PeerOf(w, 1).rows && PeerOf(w, 1).rows[0].hint.None?
    requires forall m <- w.net :: w.net[m].msg.ReplyList?
    ensures OnOneServer(w, 1, 1)
  {
    hide MapLe, Three;
  }

  /** The least number of servers a write can sit on is met: both sends fail while everyone counts
      as available, both handoffs go back to the coordinator, and completing the write clears
      the hint they left. */
  lemma OneServerWrite()
    ensures exists steps, req: nat, s: Uuid :: SteadyRun(MERGED, steps) && OnOneServer(Exec(MERGED, steps), req, s)
  {
    hide Apply, Enabled, Three, WriteRequest, WriteRow, Exec, SteadyRun, MapLe, Planned, Idle, OnOneServer, Holds;
    var slots := [Handed(2, 1), Handed(3, 1)];
    var steps, w := BothComeBack();
    var longer, w' := FirstCompleted(steps, w, slots, {1}, 3, 4);
    FirstHeld(longer, w', slots, 0);
    CompletedRow(PeerOf(w, 1).rows, MILK);
    OneFollows(w');
    assert SteadyRun(MERGED, longer) && OnOneServer(Exec(MERGED, longer), 1, 1);
  }

  lemma CompletedRow(rows: Rows, list: ItemMap)
    ensures var after := WriteRow(Merged, rows, 0, list, None); 0 in after && after[0].hint.None?
  {
    hide MergeMap;
  }
}

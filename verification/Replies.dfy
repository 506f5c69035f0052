/** What clients are told.  An acknowledgement comes from a completed request and carries its
    result; a request the coordinator gave up on is answered with a nack and never counts as
    acknowledged. */
module Replies {
  import opened Basics
  import opened CrdtValues
  import opened Quantity
  import opened History
  import opened RingMembership
  import opened Protocol
  import opened Cluster
  import opened RequestTracking
  import opened Growth

  // ---------- one step ----------

  /** What a step that ends a request tells the client. */
  ghost predicate EndsWith(w: World, step: Step, e: Envelope)
    requires Enabled(w, step)
  {
    match step
    case Complete(s, req) =>
      var r := PeerOf(w, s).reqs[req]; e == Envelope(s, r.client, 0, 0, ReplyList(r.id, Answer(r)))
    case GiveUp(s, req) => e == Envelope(s, PeerOf(w, s).reqs[req].client, 0, 0, ReplyNack)
    case _ => false
  }

  predicate ToClient(m: Msg) {
    m.ReplyList? || m.ReplyNack?
  }

  lemma HandleTellsNobody(cfg: Config, me: Uuid, p: PeerState, e: Envelope, attempts: seq<Attempt>, req: nat)
    ensures forall i | 0 <= i < |Handle(cfg, me, p, e, attempts, req).sends| ::
      !ToClient(Handle(cfg, me, p, e, attempts, req).sends[i].msg)
  {
    hide Replicas, SlotsOf, WriteRow, MergeMap;
  }

  lemma PostedFrom(w: World, sends: seq<Envelope>, m: nat)
    requires m in Post(w, sends).net
    ensures (m in w.net && Post(w, sends).net[m] == w.net[m])
      || exists i | 0 <= i < |sends| :: Post(w, sends).net[m] == sends[i]
  {
    if m in Batch(w.nextMsg, sends) { assert Post(w, sends).net[m] == sends[m - w.nextMsg]; }
  }

  /** A message to a client was there before, or copies one that was, or ends a request. */
  lemma NewReply(cfg: Config, w: World, step: Step, m: nat)
    requires Enabled(w, step) && m in Apply(cfg, w, step).net && ToClient(Apply(cfg, w, step).net[m].msg)
    ensures (exists k <- w.net :: w.net[k] == Apply(cfg, w, step).net[m])
      || EndsWith(w, step, Apply(cfg, w, step).net[m])
  {
    match step {
      case Deliver(k, attempts) => DeliverTellsNobody(cfg, w, k, attempts, m);
      case Complete(s, req) => FinishTells(cfg, w, s, req, true, m);
      case GiveUp(s, req) => FinishTells(cfg, w, s, req, false, m);
      case Edit(_, _, _, _, _, _) => EditTellsNobody(cfg, w, step, m);
      case _ => OtherTellsNobody(cfg, w, step, m);
    }
  }

  lemma DeliverTellsNobody(cfg: Config, w: World, k: nat, attempts: seq<Attempt>, m: nat)
    requires Enabled(w, Deliver(k, attempts)) && m in Apply(cfg, w, Deliver(k, attempts)).net
    requires ToClient(Apply(cfg, w, Deliver(k, attempts)).net[m].msg)
    ensures exists j <- w.net :: w.net[j] == Apply(cfg, w, Deliver(k, attempts)).net[m]
  {
    hide Handle, Batch, RecordStart, RecordDelivery, Post;
    var e, w' := w.net[k], Apply(cfg, w, Deliver(k, attempts));
    var r := Handle(cfg, e.dst, PeerOf(w, e.dst), e, attempts, w.nextReq);
    HandleTellsNobody(cfg, e.dst, PeerOf(w, e.dst), e, attempts, w.nextReq);
    var w1 := w.(net := w.net - {k});
    var w2 := if FromClient(e.msg)
      then SetPeer(w1.(nextReq := w1.nextReq + 1, audit := RecordStart(w1, e.dst, r, cfg.hashes)), e.dst, r.peer)
      else SetPeer(w1.(audit := RecordDelivery(w.audit, e, PeerOf(w, e.dst).rows)), e.dst, r.peer);
    assert w' == Post(w2, r.sends);
    PostedFrom(w2, r.sends, m);
  }

  lemma FinishTells(cfg: Config, w: World, s: Uuid, req: nat, ok: bool, m: nat)
    requires Waiting(w, s, req) && m in ApplyFinish(cfg, w, s, req, ok).net
    ensures var w' := ApplyFinish(cfg, w, s, req, ok);
      || (exists k <- w.net :: w.net[k] == w'.net[m])
      || w'.net[m] == (var r := PeerOf(w, s).reqs[req];
                       if ok then Envelope(s, r.client, 0, 0, ReplyList(r.id, Answer(r)))
                       else Envelope(s, r.client, 0, 0, ReplyNack))
  {
    hide Finish, Post, Answer;
    var f := Finish(cfg, s, PeerOf(w, s), req, ok);
    FinishIs(cfg, s, PeerOf(w, s), req, ok);
    PostedFrom(SetPeer(w.(audit := RecordFinish(w.audit, s, req, PeerOf(w, s).reqs[req], ok)), s, f.peer), f.sends, m);
  }

  lemma EditTellsNobody(cfg: Config, w: World, step: Step, m: nat)
    requires Enabled(w, step) && step.Edit?
    requires m in Apply(cfg, w, step).net && ToClient(Apply(cfg, w, step).net[m].msg)
    ensures exists k <- w.net :: w.net[k] == Apply(cfg, w, step).net[m]
  {
    hide EditItem, OpOf, Append, LogOf;
  }

  lemma OtherTellsNobody(cfg: Config, w: World, step: Step, m: nat)
    requires Enabled(w, step) && !step.Deliver? && !step.Complete? && !step.GiveUp? && !step.Edit?
    requires m in Apply(cfg, w, step).net && ToClient(Apply(cfg, w, step).net[m].msg)
    ensures exists k <- w.net :: w.net[k] == Apply(cfg, w, step).net[m]
  {
    hide HintsOf, AddNode, RemoveNode, Fetched;
  }

  // ---------- over runs ----------

  /** The i-th step of the run ended a request and told the client this. */
  ghost predicate ToldAt(cfg: Config, steps: seq<Step>, i: nat, e: Envelope) {
    i < |steps| && Enabled(Exec(cfg, steps[..i]), steps[i]) && EndsWith(Exec(cfg, steps[..i]), steps[i], e)
  }

  lemma ToldEarlier(cfg: Config, front: seq<Step>, last: Step, i: nat, e: Envelope)
    requires ToldAt(cfg, front, i, e)
    ensures ToldAt(cfg, front + [last], i, e)
  {
    hide Exec, EndsWith;
    assert (front + [last])[..i] == front[..i];
  }

  /** Every message to a client is what some step that ended a request told it. */
  lemma {:induction false} RepliesEndRequests(cfg: Config, steps: seq<Step>, m: nat) returns (i: nat)
    requires m in Exec(cfg, steps).net && ToClient(Exec(cfg, steps).net[m].msg)
    ensures ToldAt(cfg, steps, i, Exec(cfg, steps).net[m])
    decreases |steps|
  {
    hide Apply, Enabled, EndsWith, ToldAt;
    var front, last := steps[..|steps| - 1], steps[|steps| - 1];
    assert front + [last] == steps;
    var w := Exec(cfg, front);
    if Enabled(w, last) {
      NewReply(cfg, w, last, m);
      if k :| k in w.net && w.net[k] == Exec(cfg, steps).net[m] {
        i := RepliesEndRequests(cfg, front, k);
        ToldEarlier(cfg, front, last, i, w.net[k]);
      } else {
        i := |front|;
        ToldNow(cfg, front, last, Exec(cfg, steps).net[m]);
      }
    } else {
      i := RepliesEndRequests(cfg, front, m);
      ToldEarlier(cfg, front, last, i, w.net[m]);
    }
  }

  lemma ToldNow(cfg: Config, front: seq<Step>, last: Step, e: Envelope)
    requires Enabled(Exec(cfg, front), last) && EndsWith(Exec(cfg, front), last, e)
    ensures ToldAt(cfg, front + [last], |front|, e)
  {
    hide Exec, EndsWith, Enabled;
    assert (front + [last])[..|front|] == front;
  }

  /** A put's acknowledgement: of the list it was started with, after two answers; the request is
      recorded as acknowledged. */
  ghost predicate PutResult(w: World, end: World, s: Uuid, req: nat, e: Envelope) {
    req in PeerOf(w, s).reqs &&
    var r := PeerOf(w, s).reqs[req];
    && r.kind.Write? && r.q.received >= 2 && e == Envelope(s, r.client, 0, 0, ReplyList(r.id, r.list))
    && req in end.audit.acked && req in end.audit.plans
    && end.audit.plans[req].id == r.id && end.audit.plans[req].list == r.list && end.audit.plans[req].coordinator == s
  }

  /** A read's answer: the least list at or above the client's, the coordinator's row and every
      counted reply, after two of them. */
  ghost predicate ReadResult(w: World, s: Uuid, req: nat, e: Envelope) {
    req in PeerOf(w, s).reqs &&
    var r := PeerOf(w, s).reqs[req];
    && r.kind.Read? && r.q.received >= 2 && |r.q.lists| == r.q.received + 1
    && e.src == s && e.dst == r.client && e.msg.ReplyList? && e.msg.id == r.id
    && LeastAbove([r.list, r.kind.row] + r.q.lists, e.msg.list)
  }

  ghost predicate LeastAbove(lists: seq<ItemMap>, u: ItemMap) {
    && (forall x <- lists :: MapLe(x, u))
    && forall v: ItemMap | (forall x <- lists :: MapLe(x, v)) :: MapLe(u, v)
  }

  /** The merged answer of a read is the least list at or above everything it collected. */
  lemma ReadAnswerLeast(cfg: Config, steps: seq<Step>, s: Uuid, req: nat)
    requires Enabled(Exec(cfg, steps), Complete(s, req)) && PeerOf(Exec(cfg, steps), s).reqs[req].kind.Read?
    ensures var r := PeerOf(Exec(cfg, steps), s).reqs[req];
      LeastAbove([r.list, r.kind.row] + r.q.lists, Answer(r))
  {
    hide Exec, MapLe, MergeMap, FoldMerge;
    var r := PeerOf(Exec(cfg, steps), s).reqs[req];
    QuorumReadAbove(cfg, steps, s, req);
    var lists := [r.list, r.kind.row] + r.q.lists;
    forall x | x in lists ensures MapLe(x, Answer(r)) {
      if x in r.q.lists { var i :| 0 <= i < |r.q.lists| && r.q.lists[i] == x; }
    }
    forall v: ItemMap | forall x <- lists :: MapLe(x, v) ensures MapLe(Answer(r), v) {
      forall i | 0 <= i < |r.q.lists| ensures MapLe(r.q.lists[i], v) { assert r.q.lists[i] in lists; }
      FoldLeast(r.q.lists, v);
      assert r.kind.row in lists;
      MergeMapLeast(r.kind.row, FoldMerge(r.q.lists), v);
    }
  }

  /** In every run, a list sent to a client is the result of a request that completed: of a put, the
      list it was started with, or of a read, the merged answer. */
  lemma ListsComeFromCompletion(cfg: Config, steps: seq<Step>, m: nat)
    requires m in Exec(cfg, steps).net && Exec(cfg, steps).net[m].msg.ReplyList?
    ensures exists i: nat, s: Uuid, req: nat ::
      && i < |steps| && steps[i] == Complete(s, req)
      && (PutResult(Exec(cfg, steps[..i]), Exec(cfg, steps), s, req, Exec(cfg, steps).net[m])
          || ReadResult(Exec(cfg, steps[..i]), s, req, Exec(cfg, steps).net[m]))
  {
    hide Exec, Apply, LeastAbove, MapLe;
    var i := RepliesEndRequests(cfg, steps, m);
    var s, req := steps[i].server, steps[i].req;
    CompletionResult(cfg, steps, i);
  }

  /** The requests acknowledged after a step. */
  lemma AckedAfter(cfg: Config, w: World, step: Step)
    requires Enabled(w, step)
    ensures Apply(cfg, w, step).audit.acked == w.audit.acked
      + if step.Complete? && PeerOf(w, step.server).reqs[step.req].kind.Write? then {step.req} else {}
  {
    hide Handle, Finish, Batch, HintsOf, AddNode, RemoveNode, EditItem, OpOf, Fetched, RecordStart, RecordDelivery;
    if step.Deliver? {
      var e := w.net[step.msg];
      var w1 := w.(net := w.net - {step.msg});
      StartAcksNothing(w1, e.dst, Handle(cfg, e.dst, PeerOf(w, e.dst), e, step.attempts, w.nextReq), cfg.hashes);
      DeliveryAcksNothing(w.audit, e, PeerOf(w, e.dst).rows);
    }
  }

  lemma StartAcksNothing(w: World, s: Uuid, r: Reaction, hs: Hashes)
    ensures RecordStart(w, s, r, hs).acked == w.audit.acked
  {
    hide Replicas, PeerOf;
  }

  lemma DeliveryAcksNothing(a: Audit, e: Envelope, rows: Rows)
    ensures RecordDelivery(a, e, rows).acked == a.acked
  {}

  /** In every run exactly the writes that completed count as acknowledged; one the coordinator gave
      up on does not. */
  lemma {:induction false} AckedIffCompleted(cfg: Config, steps: seq<Step>, req: nat)
    ensures req in Exec(cfg, steps).audit.acked <==>
      exists i: nat, s: Uuid :: i < |steps| && CompletesPut(cfg, steps, i, s, req)
  {
    hide Apply, CompletesPut, Enabled, PutEnds;
    if steps != [] {
      var front, last := steps[..|steps| - 1], steps[|steps| - 1];
      assert steps == front + [last];
      AckedIffCompleted(cfg, front, req);
      var w := Exec(cfg, front);
      AckedStep(cfg, w, last, req);
      forall i: nat, s: Uuid | i < |front|
        ensures CompletesPut(cfg, front, i, s, req) <==> CompletesPut(cfg, steps, i, s, req)
      {
        SamePut(cfg, front, last, i, s, req);
      }
      forall s: Uuid ensures CompletesPut(cfg, steps, |front|, s, req) <==> PutEnds(w, last, s, req) {
        LastPut(cfg, front, last, s, req);
      }
      if s: Uuid :| PutEnds(w, last, s, req) {
        assert CompletesPut(cfg, steps, |front|, s, req);
      } else if i: nat, s: Uuid :| i < |front| && CompletesPut(cfg, front, i, s, req) {
        assert CompletesPut(cfg, steps, i, s, req);
      }
    }
  }

  lemma AckedStep(cfg: Config, w: World, step: Step, req: nat)
    ensures req in Do(cfg, w, step).audit.acked <==> req in w.audit.acked || exists s: Uuid :: PutEnds(w, step, s, req)
  {
    hide Apply;
    if Enabled(w, step) {
      AckedAfter(cfg, w, step);
      if step.Complete? {
        assert PutEnds(w, step, step.server, step.req) <==> PeerOf(w, step.server).reqs[step.req].kind.Write?;
      }
    }
  }

  ghost predicate PutEnds(w: World, step: Step, s: Uuid, req: nat) {
    step == Complete(s, req) && Enabled(w, step) && PeerOf(w, s).reqs[req].kind.Write?
  }

  ghost predicate CompletesPut(cfg: Config, steps: seq<Step>, i: nat, s: Uuid, req: nat)
    requires i < |steps|
  {
    PutEnds(Exec(cfg, steps[..i]), steps[i], s, req)
  }

  lemma SamePut(cfg: Config, front: seq<Step>, last: Step, i: nat, s: Uuid, req: nat)
    requires i < |front|
    ensures CompletesPut(cfg, front, i, s, req) <==> CompletesPut(cfg, front + [last], i, s, req)
  {
    hide Exec, PutEnds;
    assert (front + [last])[..i] == front[..i];
  }

  lemma LastPut(cfg: Config, front: seq<Step>, last: Step, s: Uuid, req: nat)
    ensures CompletesPut(cfg, front + [last], |front|, s, req) <==> PutEnds(Exec(cfg, front), last, s, req)
  {
    hide Exec, PutEnds;
    assert (front + [last])[..|front|] == front;
  }

  lemma {:induction false} PlanKept(cfg: Config, first: seq<Step>, after: seq<Step>, req: nat)
    requires req in Exec(cfg, first).audit.plans
    ensures req in Exec(cfg, first + after).audit.plans
    ensures Exec(cfg, first + after).audit.plans[req] == Exec(cfg, first).audit.plans[req]
    decreases |after|
  {
    hide Apply, Enabled, Tracked;
    if after == [] {
      assert first + after == first;
    } else {
      var front, last := after[..|after| - 1], after[|after| - 1];
      PlanKept(cfg, first, front, req);
      assert first + after == (first + front) + [last];
      RunTracked(cfg, first + front);
      if Enabled(Exec(cfg, first + front), last) {
        StepTracked(cfg, Exec(cfg, first + front), last);
      }
    }
  }

  lemma PutRecorded(cfg: Config, steps: seq<Step>, i: nat)
    requires i < |steps| && steps[i].Complete? && Enabled(Exec(cfg, steps[..i]), steps[i])
    requires PeerOf(Exec(cfg, steps[..i]), steps[i].server).reqs[steps[i].req].kind.Write?
    ensures steps[i].req in Exec(cfg, steps).audit.acked && steps[i].req in Exec(cfg, steps).audit.plans
    ensures var w, s, req := Exec(cfg, steps[..i]), steps[i].server, steps[i].req;
      var plan := Exec(cfg, steps).audit.plans[req];
      plan.id == PeerOf(w, s).reqs[req].id && plan.list == PeerOf(w, s).reqs[req].list && plan.coordinator == s
  {
    hide Exec;
    var w, s, req := Exec(cfg, steps[..i]), steps[i].server, steps[i].req;
    AckedIffCompleted(cfg, steps, req);
    assert CompletesPut(cfg, steps, i, s, req);
    RunTracked(cfg, steps[..i]);
    TrackedPeer(w, s);
    assert steps[..i] + steps[i..] == steps;
    PlanKept(cfg, steps[..i], steps[i..], req);
  }

  lemma CompletionResult(cfg: Config, steps: seq<Step>, i: nat)
    requires i < |steps| && steps[i].Complete? && Enabled(Exec(cfg, steps[..i]), steps[i])
    ensures var w, s, req := Exec(cfg, steps[..i]), steps[i].server, steps[i].req;
      var r := PeerOf(w, s).reqs[req];
      var e := Envelope(s, r.client, 0, 0, ReplyList(r.id, Answer(r)));
      PutResult(w, Exec(cfg, steps), s, req, e) || ReadResult(w, s, req, e)
  {
    hide Exec, Apply, LeastAbove, MapLe;
    var w, s, req := Exec(cfg, steps[..i]), steps[i].server, steps[i].req;
    var r := PeerOf(w, s).reqs[req];
    RunTracked(cfg, steps[..i]);
    TrackedPeer(w, s);
    if r.kind.Read? {
      QuorumReadAbove(cfg, steps[..i], s, req);
      ReadAnswerLeast(cfg, steps[..i], s, req);
    } else {
      PutRecorded(cfg, steps, i);
    }
  }
}

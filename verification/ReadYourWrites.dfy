/** Reads see acknowledged writes.  A quorum read merges the row its coordinator held when it
    started and, if none of its messages was duplicated, what both its replicas held when they
    answered.  So a read that starts after a write was acknowledged contains the write as soon
    as one of the servers that handled it, and has not deleted its row since, is the read's
    coordinator or one of its replicas, whatever happens in between. */
module ReadYourWrites {
  import opened Basics
  import opened CrdtValues
  import opened Quantity
  import opened History
  import opened RingValues
  import opened RingMembership
  import opened Protocol
  import opened Cluster
  import opened ClusterRings
  import opened RequestTracking
  import opened ClusterHistory
  import opened Growth
  import opened WriteQuorum
  import opened ReadQuorum
  import opened Durability

  // ---------- a request in progress ----------

  /** The request, if it is still waiting, is the given one but for its quorum. */
  ghost predicate Kept(p: PeerState, req: nat, r: Request) {
    req in p.reqs ==> p.reqs[req].(q := r.q) == r
  }

  /** Handling a message changes no waiting request but its quorum. */
  lemma HandleKeepsRequest(cfg: Config, me: Uuid, p: PeerState, e: Envelope, attempts: seq<Attempt>,
                           newReq: nat, req: nat)
    requires newReq !in p.reqs && req != newReq
    ensures var p' := Handle(cfg, me, p, e, attempts, newReq).peer;
      req in p'.reqs ==> req in p.reqs && p'.reqs[req].(q := p.reqs[req].q) == p.reqs[req]
  {
    hide Replicas, SlotsOf, WriteRow, MergeMap;
  }

  lemma StepKeepsRequest(cfg: Config, w: World, step: Step, s: Uuid, req: nat, r: Request)
    requires Tracked(w) && Enabled(w, step) && req < w.nextReq && Kept(PeerOf(w, s), req, r)
    ensures Kept(PeerOf(Apply(cfg, w, step), s), req, r)
  {
    hide Apply, Tracked;
    OnlyActorChanges(cfg, w, step);
    if ActingServer(w, step) == Some(s) {
      FreshRequest(w, s);
      ActorKeepsRequest(cfg, w, step, s, req, r);
    }
  }

  lemma ActorKeepsRequest(cfg: Config, w: World, step: Step, s: Uuid, req: nat, r: Request)
    requires Enabled(w, step) && ActingServer(w, step) == Some(s) && req < w.nextReq && w.nextReq !in PeerOf(w, s).reqs
    requires Kept(PeerOf(w, s), req, r)
    ensures Kept(PeerOf(Apply(cfg, w, step), s), req, r)
  {
    hide Handle, Batch, AddNode, RemoveNode, HintsOf, RecordStart, RecordDelivery, RecordFinish, WriteRow, Answer;
    if step.Deliver? {
      HandleKeepsRequest(cfg, s, PeerOf(w, s), w.net[step.msg], step.attempts, w.nextReq, req);
    }
  }

  lemma {:induction false} RunKeepsRequest(cfg: Config, first: seq<Step>, after: seq<Step>, s: Uuid, req: nat,
                                           r: Request)
    requires req < Exec(cfg, first).nextReq && Kept(PeerOf(Exec(cfg, first), s), req, r)
    ensures req < Exec(cfg, first + after).nextReq && Kept(PeerOf(Exec(cfg, first + after), s), req, r)
    decreases |after|
  {
    hide Apply, Enabled, Kept, Tracked;
    if after == [] {
      assert first + after == first;
    } else {
      var front, last := after[..|after| - 1], after[|after| - 1];
      RunKeepsRequest(cfg, first, front, s, req, r);
      assert first + after == (first + front) + [last];
      var w := Exec(cfg, first + front);
      RunTracked(cfg, first + front);
      if Enabled(w, last) {
        StepKeepsRequest(cfg, w, last, s, req, r);
        StepTracked(cfg, w, last);
      }
    }
  }

  /** A get is read by quorum exactly if the coordinator has a row of the list. */
  lemma GetKind(cfg: Config, me: Uuid, p: PeerState, e: Envelope, attempts: seq<Attempt>, req: nat)
    requires e.msg.GetList? && req !in p.reqs && req in Handle(cfg, me, p, e, attempts, req).peer.reqs
    ensures Handle(cfg, me, p, e, attempts, req).peer.reqs[req].kind.Read? <==> e.msg.id in p.rows
  {
    hide Replicas, SlotsOf;
  }

  /** What a get starts, if it starts anything. */
  lemma GetStarts(cfg: Config, w: World, m: nat, attempts: seq<Attempt>)
    requires Tracked(w) && Enabled(w, Deliver(m, attempts)) && w.net[m].msg.GetList?
    ensures var e, w' := w.net[m], Apply(cfg, w, Deliver(m, attempts));
      && w.nextReq < w'.nextReq
      && (w.nextReq in PeerOf(w', e.dst).reqs ==>
            var r := PeerOf(w', e.dst).reqs[w.nextReq];
            && r.client == e.src && r.id == e.msg.id && r.list == e.msg.list
            && (r.kind.Read? <==> r.id in PeerOf(w, e.dst).rows)
            && (r.kind.Read? ==> r.kind.row == PeerOf(w, e.dst).rows[r.id].list))
  {
    hide Handle, Batch, RecordStart, Tracked;
    var e := w.net[m];
    FreshRequest(w, e.dst);
    StartShape(cfg, e.dst, PeerOf(w, e.dst), e, attempts, w.nextReq);
    if w.nextReq in Handle(cfg, e.dst, PeerOf(w, e.dst), e, attempts, w.nextReq).peer.reqs {
      GetKind(cfg, e.dst, PeerOf(w, e.dst), e, attempts, w.nextReq);
    }
  }

  /** The request a get started, when it can complete later in the run. */
  lemma GetInProgress(cfg: Config, before: seq<Step>, m: nat, attempts: seq<Attempt>, after: seq<Step>)
    requires Enabled(Exec(cfg, before), Deliver(m, attempts)) && Exec(cfg, before).net[m].msg.GetList?
    requires var w := Exec(cfg, before);
      w.nextReq in PeerOf(Exec(cfg, before + [Deliver(m, attempts)] + after), w.net[m].dst).reqs
    ensures var w := Exec(cfg, before);
      var e := w.net[m];
      var r := PeerOf(Exec(cfg, before + [Deliver(m, attempts)] + after), e.dst).reqs[w.nextReq];
      && r.client == e.src && r.id == e.msg.id && r.list == e.msg.list
      && (r.kind.Read? <==> r.id in PeerOf(w, e.dst).rows)
      && (r.kind.Read? ==> r.kind.row == PeerOf(w, e.dst).rows[r.id].list)
  {
    hide Apply, Tracked;
    var w, step := Exec(cfg, before), Deliver(m, attempts);
    var s := w.net[m].dst;
    RunTracked(cfg, before);
    GetStarts(cfg, w, m, attempts);
    assert (before + [step])[..|before|] == before;
    var w1 := Exec(cfg, before + [step]);
    assert w1 == Apply(cfg, w, step);
    if w.nextReq in PeerOf(w1, s).reqs {
      RunKeepsRequest(cfg, before + [step], after, s, w.nextReq, PeerOf(w1, s).reqs[w.nextReq]);
    } else {
      RunStaysAbsent(cfg, before + [step], after, s, w.nextReq);
    }
  }

  lemma RunStaysAbsent(cfg: Config, first: seq<Step>, after: seq<Step>, s: Uuid, req: nat)
    requires req < Exec(cfg, first).nextReq && req !in PeerOf(Exec(cfg, first), s).reqs
    ensures req !in PeerOf(Exec(cfg, first + after), s).reqs
  {
    hide Exec;
    var x := Request(0, 0, map[], Write, [], NewQuorum(0, map[]));
    var y := x.(client := 1);
    RunKeepsRequest(cfg, first, after, s, req, x);
    RunKeepsRequest(cfg, first, after, s, req, y);
  }

  // ---------- what replicas answer ----------

  ghost predicate AnswersOld(w: World) {
    forall ans <- w.audit.answered :: ans.tag.req < w.nextReq
  }

  /** A replica answers a read with its row. */
  ghost predicate NewAnswer(w: World, e: Envelope, ans: AnswerRec) {
    && e.msg.ReplicateList? && !e.msg.write
    && ans.tag == Tag(e.req, e.slot) && ans.server == e.dst && ans.id == e.msg.id
    && ans.id in PeerOf(w, e.dst).rows && ans.list == PeerOf(w, e.dst).rows[ans.id].list
  }

  lemma AnswersRecorded(w: World, e: Envelope, ans: AnswerRec)
    requires ans in RecordDelivery(w.audit, e, PeerOf(w, e.dst).rows).answered
    ensures ans in w.audit.answered || NewAnswer(w, e, ans)
  {
    hide PeerOf;
  }

  lemma StartAnswersNothing(w: World, s: Uuid, r: Reaction, hs: Hashes)
    ensures RecordStart(w, s, r, hs).answered == w.audit.answered
  {
    hide Replicas, PeerOf;
  }

  lemma DeliverAnswers(cfg: Config, w: World, m: nat, attempts: seq<Attempt>, ans: AnswerRec)
    requires m in w.net && ans in ApplyDeliver(cfg, w, m, attempts).audit.answered
    ensures ans in w.audit.answered || NewAnswer(w, w.net[m], ans)
  {
    hide Handle, Batch, RecordStart, RecordDelivery, NewAnswer, PeerOf;
    var e, w1 := w.net[m], w.(net := w.net - {m});
    if FromClient(e.msg) {
      StartAnswersNothing(w1, e.dst, Handle(cfg, e.dst, PeerOf(w, e.dst), e, attempts, w.nextReq), cfg.hashes);
    } else {
      AnswersRecorded(w, e, ans);
    }
  }

  lemma NewAnswers(cfg: Config, w: World, step: Step, ans: AnswerRec)
    requires Enabled(w, step) && ans in Apply(cfg, w, step).audit.answered
    ensures ans in w.audit.answered || (step.Deliver? && NewAnswer(w, w.net[step.msg], ans))
  {
    hide ApplyDeliver, Finish, Batch, HintsOf, AddNode, RemoveNode, EditItem, OpOf, Fetched, NewAnswer;
    if step.Deliver? {
      DeliverAnswers(cfg, w, step.msg, step.attempts, ans);
    }
  }

  lemma {:induction false} RunAnswersOld(cfg: Config, steps: seq<Step>)
    ensures AnswersOld(Exec(cfg, steps))
  {
    hide Apply, Tracked;
    if steps != [] {
      RunAnswersOld(cfg, steps[..|steps| - 1]);
      RunTracked(cfg, steps[..|steps| - 1]);
      var w, step := Exec(cfg, steps[..|steps| - 1]), steps[|steps| - 1];
      if Enabled(w, step) {
        StepTracked(cfg, w, step);
        forall ans | ans in Apply(cfg, w, step).audit.answered ensures ans.tag.req < Apply(cfg, w, step).nextReq {
          NewAnswers(cfg, w, step, ans);
          if ans !in w.audit.answered { ReqBound(w, step.msg); }
        }
      }
    }
  }

  /** As long as the server has not deleted the row, its answers to the request contain what it
      handled before. */
  ghost predicate AnswersAbove(a: Audit, req: nat, rec: StoreRec) {
    rec !in a.lost ==>
      forall ans <- a.answered | ans.tag.req == req && ans.server == rec.server && ans.id == rec.id ::
        MapLe(rec.list, ans.list)
  }

  lemma StepAnswersAbove(cfg: Config, w: World, step: Step, req: nat, rec: StoreRec)
    requires Enabled(w, step) && StoredStays(w) && rec in w.audit.stored && AnswersAbove(w.audit, req, rec)
    ensures rec in Apply(cfg, w, step).audit.stored && AnswersAbove(Apply(cfg, w, step).audit, req, rec)
  {
    hide Apply, MapLe, RecordDeletion;
    var w' := Apply(cfg, w, step);
    LostRecords(cfg, w, step);
    if rec !in w'.audit.lost {
      assert rec !in w.audit.lost by { DeletionAdds(w.audit, step); }
      forall ans | ans in w'.audit.answered && ans.tag.req == req && ans.server == rec.server && ans.id == rec.id
        ensures MapLe(rec.list, ans.list)
      {
        NewAnswers(cfg, w, step, ans);
        assert Holds(w, rec.server, rec.id, rec.list);
      }
    }
  }

  lemma DeletionAdds(a: Audit, step: Step)
    ensures step.DeleteHinted? ==> a.lost <= RecordDeletion(a, step.server, step.id).lost
  {}

  lemma {:induction false} RunAnswersAbove(cfg: Config, first: seq<Step>, after: seq<Step>, req: nat, rec: StoreRec)
    requires cfg.policy.Merged?
    requires rec in Exec(cfg, first).audit.stored && AnswersAbove(Exec(cfg, first).audit, req, rec)
    ensures rec in Exec(cfg, first + after).audit.stored && AnswersAbove(Exec(cfg, first + after).audit, req, rec)
    decreases |after|
  {
    hide Apply, Enabled, AnswersAbove, StoredStays;
    if after == [] {
      assert first + after == first;
    } else {
      var front, last := after[..|after| - 1], after[|after| - 1];
      RunAnswersAbove(cfg, first, front, req, rec);
      assert first + after == (first + front) + [last];
      RunKeepsStored(cfg, first + front);
      if Enabled(Exec(cfg, first + front), last) {
        StepAnswersAbove(cfg, Exec(cfg, first + front), last, req, rec);
      }
    }
  }

  // ---------- reads see writes ----------

  /** After `before` the get m is delivered, and after the whole run it can complete. */
  ghost predicate GetCompletes(cfg: Config, before: seq<Step>, m: nat, attempts: seq<Attempt>, after: seq<Step>) {
    var w := Exec(cfg, before);
    && Enabled(w, Deliver(m, attempts)) && w.net[m].msg.GetList?
    && Enabled(Exec(cfg, before + [Deliver(m, attempts)] + after), Complete(w.net[m].dst, w.nextReq))
  }

  /** What the coordinator then answers. */
  ghost function GetReply(cfg: Config, before: seq<Step>, m: nat, attempts: seq<Attempt>, after: seq<Step>): ItemMap
    requires GetCompletes(cfg, before, m, attempts, after)
  {
    var w := Exec(cfg, before);
    Answer(PeerOf(Exec(cfg, before + [Deliver(m, attempts)] + after), w.net[m].dst).reqs[w.nextReq])
  }

  /** A quorum read returns everything its coordinator's row held when it started. */
  lemma ReadSeesRow(cfg: Config, before: seq<Step>, m: nat, attempts: seq<Attempt>, after: seq<Step>, list: ItemMap)
    requires GetCompletes(cfg, before, m, attempts, after)
    requires var e := Exec(cfg, before).net[m]; Holds(Exec(cfg, before), e.dst, e.msg.id, list)
    ensures MapLe(list, GetReply(cfg, before, m, attempts, after))
  {
    hide Exec, MapLe, Answer;
    var s, req := Exec(cfg, before).net[m].dst, Exec(cfg, before).nextReq;
    var steps := before + [Deliver(m, attempts)] + after;
    var r := PeerOf(Exec(cfg, steps), s).reqs[req];
    GetInProgress(cfg, before, m, attempts, after);
    QuorumReadAbove(cfg, steps, s, req);
    MapLeTransitive(list, r.kind.row, Answer(r));
  }

  /** A get whose coordinator has a row, and none of whose messages was duplicated, returns
      everything that one of its replicas had handled when it started, if the replica did not
      delete its row. */
  lemma ReadSeesReplica(cfg: Config, before: seq<Step>, m: nat, attempts: seq<Attempt>, after: seq<Step>, rec: StoreRec)
    requires cfg.policy.Merged? && GetCompletes(cfg, before, m, attempts, after)
    requires rec in Exec(cfg, before).audit.stored && rec.id == Exec(cfg, before).net[m].msg.id
    requires var p := PeerOf(Exec(cfg, before), Exec(cfg, before).net[m].dst);
      rec.id in p.rows && rec.server in Replicas(cfg.hashes, p.ring, rec.id)
    requires var a := Exec(cfg, before + [Deliver(m, attempts)] + after).audit;
      Exec(cfg, before).nextReq !in a.repeated && rec !in a.lost
    ensures MapLe(rec.list, GetReply(cfg, before, m, attempts, after))
  {
    hide Exec, MapLe, Answer, Replicas;
    var w := Exec(cfg, before);
    var s, req := w.net[m].dst, w.nextReq;
    var steps := before + [Deliver(m, attempts)] + after;
    var w2 := Exec(cfg, steps);
    var r := PeerOf(w2, s).reqs[req];
    RunAnswersOld(cfg, before);
    assert before + ([Deliver(m, attempts)] + after) == steps;
    RunAnswersAbove(cfg, before, [Deliver(m, attempts)] + after, req, rec);
    GetInProgress(cfg, before, m, attempts, after);
    ReadPlanOfGet(cfg, before, m, attempts, after);
    CompletedReadHeardAll(cfg, steps, s, req);
    var plan := w2.audit.readPlans[req];
    var i :| 0 <= i < |plan.replicas| && plan.replicas[i] == rec.server;
    assert Collected(w2.audit, plan, Tag(req, i), r.q.lists);
    var ans :| ans in w2.audit.answered && ans.tag == Tag(req, i) && ans.server == rec.server && ans.id == plan.id
               && ans.list in r.q.lists;
    CountedInAnswer(cfg, steps, s, req, ans.list);
    MapLeTransitive(rec.list, ans.list, Answer(r));
  }

  lemma CountedInAnswer(cfg: Config, steps: seq<Step>, s: Uuid, req: nat, reply: ItemMap)
    requires Enabled(Exec(cfg, steps), Complete(s, req)) && PeerOf(Exec(cfg, steps), s).reqs[req].kind.Read?
    requires reply in PeerOf(Exec(cfg, steps), s).reqs[req].q.lists
    ensures MapLe(reply, Answer(PeerOf(Exec(cfg, steps), s).reqs[req]))
  {
    hide Exec, MapLe, Answer;
    QuorumReadAbove(cfg, steps, s, req);
    var lists := PeerOf(Exec(cfg, steps), s).reqs[req].q.lists;
    var i :| 0 <= i < |lists| && lists[i] == reply;
  }

  /** The get, started in w and complete in w2, takes in the server of the record: it is the
      coordinator and had the row when the get arrived, or the coordinator had some row of the
      list and it is one of the replicas and still has its row, if no message of the get was
      duplicated. */
  ghost predicate TakesIn(hs: Hashes, w: World, w2: World, e: Envelope, rec: StoreRec) {
    || (rec.server == e.dst && rec !in w.audit.lost)
    || (rec.id in PeerOf(w, e.dst).rows && rec.server in Replicas(hs, PeerOf(w, e.dst).ring, rec.id)
        && w.nextReq !in w2.audit.repeated && rec !in w2.audit.lost)
  }

  /** A coordinator without a row of the list treats a get as a put, and answers with the
      client's own list, whatever its replicas hold. */
  lemma GetWithoutRow(cfg: Config, before: seq<Step>, m: nat, attempts: seq<Attempt>, after: seq<Step>)
    requires GetCompletes(cfg, before, m, attempts, after)
    requires var e := Exec(cfg, before).net[m]; e.msg.id !in PeerOf(Exec(cfg, before), e.dst).rows
    ensures GetReply(cfg, before, m, attempts, after) == Exec(cfg, before).net[m].msg.list
  {
    hide Exec;
    GetInProgress(cfg, before, m, attempts, after);
  }

  /** A get that starts after a write was acknowledged contains the write if it takes in one of the
      three servers that had to handle the write; if its coordinator has no row of the list,
      it contains the write exactly if the client's own list did. */
  lemma ReadSeesAcknowledgedWrite(cfg: Config, before: seq<Step>, write: nat, m: nat, attempts: seq<Attempt>,
                                  after: seq<Step>, i: nat)
    requires cfg.policy.Merged?
    requires write in Exec(cfg, before).audit.acked && write !in Exec(cfg, before).audit.repeated
    requires GetCompletes(cfg, before, m, attempts, after)
    ensures write in Exec(cfg, before).audit.plans
    ensures var w, w2 := Exec(cfg, before), Exec(cfg, before + [Deliver(m, attempts)] + after);
      var plan, e := w.audit.plans[write], w.net[m];
      && |plan.slots| == REPLICAS - 1
      && (e.msg.id !in PeerOf(w, e.dst).rows ==>
            (MapLe(plan.list, GetReply(cfg, before, m, attempts, after)) <==> MapLe(plan.list, e.msg.list)))
      && (i < REPLICAS && e.msg.id == plan.id && TakesIn(cfg.hashes, w, w2, e, RecordAt(plan, write, i)) ==>
            MapLe(plan.list, GetReply(cfg, before, m, attempts, after)))
  {
    hide Exec, Holds, MapLe, Answer, Replicas, PlanOk;
    var w, w2 := Exec(cfg, before), Exec(cfg, before + [Deliver(m, attempts)] + after);
    var e := w.net[m];
    AcknowledgedWriteHeld(cfg, before, write);
    var plan := w.audit.plans[write];
    if e.msg.id !in PeerOf(w, e.dst).rows {
      GetWithoutRow(cfg, before, m, attempts, after);
    }
    if i < REPLICAS && e.msg.id == plan.id && TakesIn(cfg.hashes, w, w2, e, RecordAt(plan, write, i)) {
      var rec := RecordAt(plan, write, i);
      if rec.server == e.dst && rec !in w.audit.lost {
        ReadSeesRow(cfg, before, m, attempts, after, plan.list);
      } else {
        ReadSeesReplica(cfg, before, m, attempts, after, rec);
      }
    }
  }

  lemma StepKeepsLost(cfg: Config, w: World, step: Step)
    requires Enabled(w, step)
    ensures w.audit.lost <= Apply(cfg, w, step).audit.lost
  {
    hide Apply, RecordDeletion;
    LostRecords(cfg, w, step);
    DeletionAdds(w.audit, step);
  }

  lemma {:induction false} LostStays(cfg: Config, first: seq<Step>, after: seq<Step>, rec: StoreRec)
    requires rec !in Exec(cfg, first + after).audit.lost
    ensures rec !in Exec(cfg, first).audit.lost
    decreases |after|
  {
    hide Apply, Enabled;
    if after == [] {
      assert first + after == first;
    } else {
      var front, last := after[..|after| - 1], after[|after| - 1];
      assert first + after == (first + front) + [last];
      if Enabled(Exec(cfg, first + front), last) { StepKeepsLost(cfg, Exec(cfg, first + front), last); }
      LostStays(cfg, first, front, rec);
    }
  }

  // ---------- the plan of a read ----------

  /** A read's replicas are those of its coordinator's ring when it started. */
  lemma ReadPlanOfGet(cfg: Config, before: seq<Step>, m: nat, attempts: seq<Attempt>, after: seq<Step>)
    requires Enabled(Exec(cfg, before), Deliver(m, attempts)) && Exec(cfg, before).net[m].msg.GetList?
    requires var e := Exec(cfg, before).net[m]; e.msg.id in PeerOf(Exec(cfg, before), e.dst).rows
    requires var s, req := Exec(cfg, before).net[m].dst, Exec(cfg, before).nextReq;
      req in PeerOf(Exec(cfg, before + [Deliver(m, attempts)] + after), s).reqs
    ensures var w, w2 := Exec(cfg, before), Exec(cfg, before + [Deliver(m, attempts)] + after);
      && w.nextReq in w2.audit.readPlans
      && w2.audit.readPlans[w.nextReq].replicas
           == Replicas(cfg.hashes, PeerOf(w, w.net[m].dst).ring, w.net[m].msg.id)
  {
    hide Apply, Replicas, Tracked;
    var w, step := Exec(cfg, before), Deliver(m, attempts);
    assert (before + [step])[..|before|] == before;
    var w1 := Exec(cfg, before + [step]);
    assert w1 == Apply(cfg, w, step);
    RunTracked(cfg, before);
    GetStarts(cfg, w, m, attempts);
    var s := w.net[m].dst;
    if w.nextReq in PeerOf(w1, s).reqs {
      RunKeepsRequest(cfg, before + [step], after, s, w.nextReq, PeerOf(w1, s).reqs[w.nextReq]);
      GetPlans(cfg, w, m, attempts);
      PlansStay(cfg, before + [step], after, w.nextReq);
    } else {
      RunStaysAbsent(cfg, before + [step], after, s, w.nextReq);
    }
  }

  lemma GetPlans(cfg: Config, w: World, m: nat, attempts: seq<Attempt>)
    requires Tracked(w) && Enabled(w, Deliver(m, attempts)) && w.net[m].msg.GetList?
    requires var s := w.net[m].dst;
      var p := PeerOf(Apply(cfg, w, Deliver(m, attempts)), s);
      w.nextReq in p.reqs && p.reqs[w.nextReq].kind.Read?
    ensures var w' := Apply(cfg, w, Deliver(m, attempts));
      && w.nextReq in w'.audit.readPlans
      && w'.audit.readPlans[w.nextReq].replicas == Replicas(cfg.hashes, PeerOf(w, w.net[m].dst).ring, w.net[m].msg.id)
  {
    hide Handle, Replicas, Batch, Tracked;
    FreshRequest(w, w.net[m].dst);
    StartShape(cfg, w.net[m].dst, PeerOf(w, w.net[m].dst), w.net[m], attempts, w.nextReq);
  }

  lemma {:induction false} PlansStay(cfg: Config, first: seq<Step>, after: seq<Step>, req: nat)
    requires req in Exec(cfg, first).audit.readPlans
    ensures req in Exec(cfg, first + after).audit.readPlans
    ensures Exec(cfg, first + after).audit.readPlans[req] == Exec(cfg, first).audit.readPlans[req]
    decreases |after|
  {
    hide Apply, Enabled, Tracked;
    if after == [] {
      assert first + after == first;
    } else {
      var front, last := after[..|after| - 1], after[|after| - 1];
      PlansStay(cfg, first, front, req);
      assert first + after == (first + front) + [last];
      RunTracked(cfg, first + front);
      if Enabled(Exec(cfg, first + front), last) {
        StepTracked(cfg, Exec(cfg, first + front), last);
      }
    }
  }

  // ---------- after removals ----------

  /** The get e reaches, in w, a coordinator that is first in its own list and whose ring has only
      servers of the write's ring; n is on the write's list and on that ring, still has its row
      in w2, and is the coordinator unless the coordinator has a row of the list itself. */
  ghost predicate Reached(hs: Hashes, w: World, w2: World, write: nat, e: Envelope, n: Uuid)
    requires write in w.audit.plans && e.msg.GetList?
  {
    var plan, p := w.audit.plans[write], PeerOf(w, e.dst);
    var pref, pref' := PreferenceList(hs, plan.ring, plan.id), PreferenceList(hs, p.ring, plan.id);
    && e.msg.id == plan.id && Direct(hs, plan) && p.ring.Values <= plan.ring.Values
    && pref' != [] && pref'[0] == e.dst && n in pref && n in p.ring.Values
    && (n == e.dst || plan.id in p.rows)
    && forall rec <- w2.audit.lost | rec.tag.req == write :: rec.server != n
  }

  /** Whatever joins and leaves led to the read's ring: one server on both the write's list and the read's
      ring that still has its row is enough for the get to contain the write, if that server
      is the coordinator or the coordinator has a row of the list. */
  lemma ReadAfterRemovals(cfg: Config, universe: set<Uuid>, before: seq<Step>, write: nat, m: nat,
                          attempts: seq<Attempt>, after: seq<Step>, n: Uuid)
    requires NoCollisions(cfg.hashes, VNODES, universe) && NodesWithin(before, universe)
    requires cfg.policy.Merged?
    requires write in Exec(cfg, before).audit.acked && write !in Exec(cfg, before).audit.repeated
    requires GetCompletes(cfg, before, m, attempts, after)
    requires Exec(cfg, before).nextReq !in Exec(cfg, before + [Deliver(m, attempts)] + after).audit.repeated
    ensures write in Exec(cfg, before).audit.plans
    ensures var w, w2 := Exec(cfg, before), Exec(cfg, before + [Deliver(m, attempts)] + after);
      Reached(cfg.hashes, w, w2, write, w.net[m], n) ==>
        MapLe(w.audit.plans[write].list, GetReply(cfg, before, m, attempts, after))
  {
    hide Exec, Preference, MapLe, Answer, RemoveServers, Direct, PlanOk, RingOk;
    var w, w2 := Exec(cfg, before), Exec(cfg, before + [Deliver(m, attempts)] + after);
    var e := w.net[m];
    AcknowledgedWriteHeld(cfg, before, write);
    RunRings(cfg, universe, before);
    var plan, ring := w.audit.plans[write], PeerOf(w, e.dst).ring;
    var pref, pref' := PreferenceList(cfg.hashes, plan.ring, plan.id), PreferenceList(cfg.hashes, ring, plan.id);
    if Reached(cfg.hashes, w, w2, write, e, n) {
      RecordServers(cfg.hashes, plan, write);
      var i :| 0 <= i < |pref| && pref[i] == n;
      RingIsRest(cfg.hashes, universe, plan.ring, ring);
      SparedStay(plan.ring, cfg.hashes.list(plan.id), REPLICAS, plan.ring.Values - ring.Values, n);
      HeadOrTail(pref', n);
      assert before + ([Deliver(m, attempts)] + after) == before + [Deliver(m, attempts)] + after;
      LostStays(cfg, before, [Deliver(m, attempts)] + after, RecordAt(plan, write, i));
      ReadSeesAcknowledgedWrite(cfg, before, write, m, attempts, after, i);
    }
  }

  lemma HeadOrTail(s: seq<Uuid>, n: Uuid)
    requires n in s
    ensures n == s[0] || n in s[1..]
  {
    assert s == [s[0]] + s[1..];
  }

  // ---------- back to the client ----------

  /** A completed request answers its own client, and once the client has merged the answer its
      list contains it. */
  lemma AnswerMerged(cfg: Config, steps: seq<Step>, s: Uuid, req: nat)
    requires Enabled(Exec(cfg, steps), Complete(s, req))
    ensures var w := Exec(cfg, steps);
      var r, w' := PeerOf(w, s).reqs[req], Apply(cfg, w, Complete(s, req));
      && Enabled(w', ClientMerge(w.nextMsg))
      && w'.net[w.nextMsg] == Envelope(s, r.client, 0, 0, ReplyList(r.id, Answer(r)))
      && MapLe(Answer(r), ClientList(Apply(cfg, w', ClientMerge(w.nextMsg)), r.client, r.id))
      && MapLe(ClientList(w, r.client, r.id), ClientList(Apply(cfg, w', ClientMerge(w.nextMsg)), r.client, r.id))
  {
    hide Exec, MapLe, MergeMap, Answer, Apply, Fetched;
    var w := Exec(cfg, steps);
    var r, w' := PeerOf(w, s).reqs[req], Apply(cfg, w, Complete(s, req));
    var local, answer := ClientList(w, r.client, r.id), Answer(r);
    FinishReplies(cfg, w, s, req);
    ClientMerges(cfg, w', w.nextMsg);
    RunHistory(cfg, steps);
    AnswerOk(w, s, req);
    LocalOk(w, r.client, r.id);
    GoodCoherent(w, r.id, local, answer);
    MergeMapAbove(local, answer);
    FetchedIsMerge(local, answer);
  }

  lemma FinishReplies(cfg: Config, w: World, s: Uuid, req: nat)
    requires Enabled(w, Complete(s, req))
    ensures var r, w' := PeerOf(w, s).reqs[req], Apply(cfg, w, Complete(s, req));
      && w.nextMsg in w'.net && w'.clients == w.clients
      && w'.net[w.nextMsg] == Envelope(s, r.client, 0, 0, ReplyList(r.id, Answer(r)))
  {
    hide WriteRow, Answer;
    var r := PeerOf(w, s).reqs[req];
    assert w.nextMsg in Batch(w.nextMsg, [Envelope(s, r.client, 0, 0, ReplyList(r.id, Answer(r)))]);
  }

  lemma ClientMerges(cfg: Config, w: World, m: nat)
    requires m in w.net && w.net[m].msg.ReplyList?
    ensures Enabled(w, ClientMerge(m))
    ensures var e := w.net[m];
      ClientList(Apply(cfg, w, ClientMerge(m)), e.dst, e.msg.id)
        == Fetched(ClientList(w, e.dst, e.msg.id), e.msg.list)
  {
    hide Fetched;
  }

  lemma LocalOk(w: World, c: Uuid, id: Uuid)
    requires HistoryInv(w)
    ensures (id, ClientList(w, c, id)) in ExplainedLists(w.audit.hist)
  {
    hide Explained, AllWellFormed, OwnComplete;
    ExplainedClosed(w.audit.hist);
    ListIsOk(w, c, id, ExplainedLists(w.audit.hist));
  }

  /** A get that completes answers the client that sent it, for the list it asked for; once the
      client has merged the answer, its list contains the answer and what it had before. */
  lemma AnswerReachesClient(cfg: Config, before: seq<Step>, m: nat, attempts: seq<Attempt>, after: seq<Step>)
    requires GetCompletes(cfg, before, m, attempts, after)
    ensures var e, req := Exec(cfg, before).net[m], Exec(cfg, before).nextReq;
      var w := Exec(cfg, before + [Deliver(m, attempts)] + after);
      var w', answer := Apply(cfg, w, Complete(e.dst, req)), GetReply(cfg, before, m, attempts, after);
      && Enabled(w', ClientMerge(w.nextMsg))
      && w'.net[w.nextMsg] == Envelope(e.dst, e.src, 0, 0, ReplyList(e.msg.id, answer))
      && MapLe(answer, ClientList(Apply(cfg, w', ClientMerge(w.nextMsg)), e.src, e.msg.id))
      && MapLe(ClientList(w, e.src, e.msg.id), ClientList(Apply(cfg, w', ClientMerge(w.nextMsg)), e.src, e.msg.id))
  {
    hide Exec, MapLe, Answer, Apply;
    GetInProgress(cfg, before, m, attempts, after);
    AnswerMerged(cfg, before + [Deliver(m, attempts)] + after, Exec(cfg, before).net[m].dst, Exec(cfg, before).nextReq);
  }
}

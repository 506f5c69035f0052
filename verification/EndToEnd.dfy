/** From user to user.  A storage request sends the client's whole list; once its put has been
    acknowledged, a read of the list by anyone that takes in one of the servers that had to
    handle it leaves the reader's list at or above everything the writer had. */
module EndToEnd {
  import opened Basics
  import opened CrdtValues
  import opened Quantity
  import opened History
  import opened RingMembership
  import opened Protocol
  import opened Cluster
  import opened RequestTracking
  import opened Growth
  import opened WriteQuorum
  import opened Durability
  import opened ReadYourWrites

  /** A storage request that succeeds sends the client's whole list, the edit included. */
  lemma EditIsSent(cfg: Config, w: World, c: Uuid, id: Uuid, name: string, q: nat, acquired: bool, dst: Uuid)
    requires q < U64 && EditItem(StoredItem(ClientList(w, c, id), name), q, acquired, c).Some?
    ensures var w' := Apply(cfg, w, Edit(c, id, name, q, acquired, dst));
      && w.nextMsg in w'.net && w.nextMsg < w'.nextMsg
      && w'.net[w.nextMsg] == Envelope(c, dst, 0, 0, PutList(id, ClientList(w', c, id)))
      && name in ClientList(w', c, id)
      && Some(ClientList(w', c, id)[name]) == EditItem(StoredItem(ClientList(w, c, id), name), q, acquired, c)
      && forall k | k != name :: StoredItem(ClientList(w', c, id), k) == StoredItem(ClientList(w, c, id), k)
  {
    hide EditItem, OpOf, Append;
    var item := EditItem(StoredItem(ClientList(w, c, id), name), q, acquired, c).value;
    var sent := Envelope(c, dst, 0, 0, PutList(id, ClientList(w, c, id)[name := item]));
    assert w.nextMsg in Batch(w.nextMsg, [sent]);
  }

  // ---------- from the message to the plan ----------

  /** A message still in flight is the one that was sent. */
  lemma StepKeepsMessage(cfg: Config, w: World, step: Step, m: nat)
    requires Enabled(w, step) && m < w.nextMsg
    ensures var w' := Apply(cfg, w, step);
      w.nextMsg <= w'.nextMsg && (m in w'.net ==> m in w.net && w'.net[m] == w.net[m])
  {
    hide Handle, Finish, HintsOf, AddNode, RemoveNode, EditItem, OpOf, Fetched, RecordStart, RecordDelivery;
  }

  lemma {:induction false} RunKeepsMessage(cfg: Config, first: seq<Step>, after: seq<Step>, m: nat)
    requires m < Exec(cfg, first).nextMsg
    ensures m < Exec(cfg, first + after).nextMsg
    ensures m in Exec(cfg, first + after).net ==>
      m in Exec(cfg, first).net && Exec(cfg, first + after).net[m] == Exec(cfg, first).net[m]
    decreases |after|
  {
    hide Apply, Enabled;
    if after == [] {
      assert first + after == first;
    } else {
      var front, last := after[..|after| - 1], after[|after| - 1];
      RunKeepsMessage(cfg, first, front, m);
      assert first + after == (first + front) + [last];
      if Enabled(Exec(cfg, first + front), last) {
        StepKeepsMessage(cfg, Exec(cfg, first + front), last, m);
      }
    }
  }

  /** No write is planned under an id given out before. */
  lemma {:induction false} PlansAreOld(cfg: Config, first: seq<Step>, after: seq<Step>, req: nat)
    requires req < Exec(cfg, first).nextReq
    ensures req < Exec(cfg, first + after).nextReq
    ensures req in Exec(cfg, first + after).audit.plans ==>
      && req in Exec(cfg, first).audit.plans
      && Exec(cfg, first + after).audit.plans[req] == Exec(cfg, first).audit.plans[req]
    decreases |after|
  {
    hide Apply, Enabled, Tracked;
    if after == [] {
      assert first + after == first;
    } else {
      var front, last := after[..|after| - 1], after[|after| - 1];
      PlansAreOld(cfg, first, front, req);
      assert first + after == (first + front) + [last];
      RunTracked(cfg, first + front);
      if Enabled(Exec(cfg, first + front), last) {
        StepTracked(cfg, Exec(cfg, first + front), last);
      }
    }
  }

  /** A write started by a put writes what the put carries. */
  lemma PutPlans(cfg: Config, w: World, m: nat, attempts: seq<Attempt>)
    requires Tracked(w) && Enabled(w, Deliver(m, attempts)) && w.net[m].msg.PutList?
    ensures var a := Apply(cfg, w, Deliver(m, attempts)).audit;
      && Apply(cfg, w, Deliver(m, attempts)).nextReq == w.nextReq + 1
      && (w.nextReq in a.plans ==>
            a.plans[w.nextReq].id == w.net[m].msg.id && a.plans[w.nextReq].list == w.net[m].msg.list)
  {
    hide Handle, Replicas, Batch, Tracked;
    FreshRequest(w, w.net[m].dst);
    NoFuturePlan(w);
    StartShape(cfg, w.net[m].dst, PeerOf(w, w.net[m].dst), w.net[m], attempts, w.nextReq);
  }

  lemma NoFuturePlan(w: World)
    requires Tracked(w)
    ensures w.nextReq !in w.audit.plans
  {}

  // ---------- from one client to another ----------

  /** The storage request succeeds in the state w. */
  ghost predicate Succeeds(w: World, edit: Step) {
    && edit.Edit? && Enabled(w, edit)
    && var before := StoredItem(ClientList(w, edit.client, edit.id), edit.name);
       EditItem(before, edit.quantity, edit.acquired, edit.client).Some?
  }

  /** The storage request `edit` succeeds after `first`; its put is delivered, after `sent`, as
      the write `req`; and `req` has been acknowledged, with no message of it duplicated, after
      `before`. */
  ghost predicate EditAcked(cfg: Config, first: seq<Step>, edit: Step, sent: seq<Step>, attempts: seq<Attempt>,
                            before: seq<Step>, req: nat)
  {
    var put := Deliver(Exec(cfg, first).nextMsg, attempts);
    && Succeeds(Exec(cfg, first), edit)
    && first + [edit] <= sent && Enabled(Exec(cfg, sent), put) && req == Exec(cfg, sent).nextReq
    && sent + [put] <= before && req in Exec(cfg, before).audit.acked && req !in Exec(cfg, before).audit.repeated
  }

  /** The acknowledged write is of the client's whole list, the edit included. */
  lemma AckedEditIsPlanned(cfg: Config, first: seq<Step>, edit: Step, sent: seq<Step>, attempts: seq<Attempt>,
                           before: seq<Step>, req: nat)
    requires EditAcked(cfg, first, edit, sent, attempts, before, req)
    ensures edit.Edit? && req in Exec(cfg, before).audit.acked && req !in Exec(cfg, before).audit.repeated
    ensures req in Exec(cfg, before).audit.plans
    ensures var plan := Exec(cfg, before).audit.plans[req];
      plan.id == edit.id && plan.list == ClientList(Exec(cfg, first + [edit]), edit.client, edit.id)
  {
    hide Apply, Tracked, EditItem, PlanOk, Holds;
    var w := Exec(cfg, first);
    var put := Deliver(w.nextMsg, attempts);
    assert (first + [edit])[..|first|] == first;
    EditIsSent(cfg, w, edit.client, edit.id, edit.name, edit.quantity, edit.acquired, edit.dst);
    assert first + [edit] + sent[|first| + 1..] == sent;
    RunKeepsMessage(cfg, first + [edit], sent[|first| + 1..], w.nextMsg);
    assert (sent + [put])[..|sent|] == sent;
    RunTracked(cfg, sent);
    PutPlans(cfg, Exec(cfg, sent), w.nextMsg, attempts);
    assert sent + [put] + before[|sent| + 1..] == before;
    PlansAreOld(cfg, sent + [put], before[|sent| + 1..], req);
    AcknowledgedWriteHeld(cfg, before, req);
  }

  /** Another user's read, started after the acknowledgement and taking in one of the three
      servers that had to handle the write, leaves the reader's list at or above the writer's
      list as the edit left it: every item of it, with every operation it included. */
  lemma ReaderSeesEdit(cfg: Config, first: seq<Step>, edit: Step, sent: seq<Step>, put: seq<Attempt>,
                       before: seq<Step>, write: nat, m: nat, attempts: seq<Attempt>, after: seq<Step>, i: nat)
    requires cfg.policy.Merged? && EditAcked(cfg, first, edit, sent, put, before, write)
    requires GetCompletes(cfg, before, m, attempts, after) && Exec(cfg, before).net[m].msg.id == edit.id
    ensures write in Exec(cfg, before).audit.plans
    ensures var w, w2 := Exec(cfg, before), Exec(cfg, before + [Deliver(m, attempts)] + after);
      var plan, e := w.audit.plans[write], w.net[m];
      var w3 := Apply(cfg, w2, Complete(e.dst, w.nextReq));
      && |plan.slots| == REPLICAS - 1
      && Enabled(w3, ClientMerge(w2.nextMsg))
      && (i < REPLICAS && TakesIn(cfg.hashes, w, w2, e, RecordAt(plan, write, i)) ==>
            MapLe(ClientList(Exec(cfg, first + [edit]), edit.client, edit.id),
                  ClientList(Apply(cfg, w3, ClientMerge(w2.nextMsg)), e.src, edit.id)))
  {
    hide Exec, EditAcked, TakesIn, MapLe, Answer, Apply;
    var w, w2 := Exec(cfg, before), Exec(cfg, before + [Deliver(m, attempts)] + after);
    var e := w.net[m];
    AckedEditIsPlanned(cfg, first, edit, sent, put, before, write);
    ReadSeesAcknowledgedWrite(cfg, before, write, m, attempts, after, i);
    AnswerReachesClient(cfg, before, m, attempts, after);
    if i < REPLICAS && TakesIn(cfg.hashes, w, w2, e, RecordAt(w.audit.plans[write], write, i)) {
      var w4 := Apply(cfg, Apply(cfg, w2, Complete(e.dst, w.nextReq)), ClientMerge(w2.nextMsg));
      MapLeTransitive(w.audit.plans[write].list, GetReply(cfg, before, m, attempts, after),
                      ClientList(w4, e.src, edit.id));
    }
  }
}

/** What a handoff pass may lose.  A state of a list is alive while some row holds it or some
    message on its way to a row carries it.  A pass sends the row as it read it and deletes it
    later as it is then, so what reached the row in between goes with it. */
module Carried {
  import opened Basics
  import opened CrdtValues
  import opened Quantity
  import opened History
  import opened RingMembership
  import opened Protocol
  import opened Cluster
  import opened RequestTracking
  import opened ClusterHistory
  import opened Growth
  import opened HintedHandoff

  /** The message, once delivered, stores the state. */
  ghost predicate Carries(e: Envelope, id: Uuid, list: ItemMap) {
    WritesRow(e.msg) && e.msg.id == id && MapLe(list, e.msg.list)
  }

  ghost predicate InFlight(w: World, id: Uuid, list: ItemMap) {
    exists m <- w.net :: Carries(w.net[m], id, list)
  }

  ghost predicate Alive(w: World, id: Uuid, list: ItemMap) {
    (exists s: Uuid :: Holds(w, s, id, list)) || InFlight(w, id, list)
  }

  // ---------- the exact step law ----------

  /** Nobody but the server holds the state, and no message carries it. */
  ghost predicate OnlyIn(w: World, s: Uuid, id: Uuid, list: ItemMap) {
    (forall t: Uuid | t != s :: !Holds(w, t, id, list)) && !InFlight(w, id, list)
  }

  /** Nobody holds the state, and no message but m carries it. */
  ghost predicate OnlyOn(w: World, m: nat, id: Uuid, list: ItemMap) {
    && (forall s: Uuid :: !Holds(w, s, id, list))
    && (forall k <- w.net | k != m :: !Carries(w.net[k], id, list))
  }

  lemma DeliveredCarrier(cfg: Config, w: World, m: nat, attempts: seq<Attempt>, id: Uuid, list: ItemMap)
    requires cfg.policy.Merged? && Tracked(w) && HistoryInv(w) && Enabled(w, Deliver(m, attempts))
    requires Carries(w.net[m], id, list)
    ensures Holds(Apply(cfg, w, Deliver(m, attempts)), w.net[m].dst, id, list)
  {
    hide Apply, Tracked, HistoryInv, MapLe;
    DeliverStores(cfg, w, m, attempts);
    var w' := Apply(cfg, w, Deliver(m, attempts));
    MapLeTransitive(list, w.net[m].msg.list, PeerOf(w', w.net[m].dst).rows[id].list);
  }

  /** A carrier that is not lost is still there or has been delivered. */
  lemma CarrierStays(cfg: Config, w: World, step: Step, m: nat, id: Uuid, list: ItemMap)
    requires cfg.policy.Merged? && Tracked(w) && HistoryInv(w) && Enabled(w, step)
    requires m in w.net && Carries(w.net[m], id, list) && step != Lose(m)
    ensures var w' := Apply(cfg, w, step);
      || (m in w'.net && w'.net[m] == w.net[m])
      || Holds(w', w.net[m].dst, id, list)
  {
    hide Apply, Tracked, HistoryInv, MapLe, Holds;
    if step.Deliver? && step.msg == m {
      DeliveredCarrier(cfg, w, m, step.attempts, id, list);
    } else {
      MessageStays(cfg, w, step, m);
    }
  }

  lemma RowDeleted(cfg: Config, w: World, s: Uuid, id: Uuid)
    requires Enabled(w, DeleteHinted(s, id))
    ensures var w' := Apply(cfg, w, DeleteHinted(s, id));
      && w'.net == w.net && id !in PeerOf(w', s).rows
      && (forall t: Uuid | t != s :: PeerOf(w', t) == PeerOf(w, t))
  {}

  lemma DropsLast(cfg: Config, w: World, step: Step, id: Uuid, list: ItemMap)
    requires Enabled(w, step)
    requires (step.DeleteHinted? && step.id == id && OnlyIn(w, step.server, id, list))
             || (step.Lose? && OnlyOn(w, step.msg, id, list))
    ensures !Alive(Apply(cfg, w, step), id, list)
  {
    hide MapLe, Apply;
    var w' := Apply(cfg, w, step);
    if step.DeleteHinted? {
      RowDeleted(cfg, w, step.server, id);
      forall t: Uuid ensures !Holds(w', t, id, list) {
        assert t != step.server ==> !Holds(w, t, id, list);
      }
    } else {
      MessageLost(cfg, w, step.msg);
      forall t: Uuid ensures !Holds(w', t, id, list) {
        assert !Holds(w, t, id, list);
      }
    }
  }

  lemma MessageLost(cfg: Config, w: World, m: nat)
    requires Enabled(w, Lose(m))
    ensures var w' := Apply(cfg, w, Lose(m));
      w'.net == w.net - {m} && forall t: Uuid :: PeerOf(w', t) == PeerOf(w, t)
  {}

  /** With merged rows a state that is alive dies in exactly two ways: a server deletes the only row
      that holds it while no message carries it, or the network loses the only message that
      carries it while no row holds it. */
  lemma AliveAfterIff(cfg: Config, w: World, step: Step, id: Uuid, list: ItemMap)
    requires cfg.policy.Merged? && Tracked(w) && HistoryInv(w) && Enabled(w, step) && Alive(w, id, list)
    ensures !Alive(Apply(cfg, w, step), id, list) <==>
      || (step.DeleteHinted? && step.id == id && OnlyIn(w, step.server, id, list))
      || (step.Lose? && OnlyOn(w, step.msg, id, list))
  {
    hide Apply, Tracked, HistoryInv, Holds, Carries;
    if (step.DeleteHinted? && step.id == id && OnlyIn(w, step.server, id, list))
       || (step.Lose? && OnlyOn(w, step.msg, id, list)) {
      DropsLast(cfg, w, step, id, list);
    } else if s: Uuid :| Holds(w, s, id, list) && step != DeleteHinted(s, id) {
      HoldsAfterIff(cfg, w, step, s, id, list);
    } else {
      var m :| m in w.net && Carries(w.net[m], id, list) && step != Lose(m);
      CarrierStays(cfg, w, step, m, id, list);
    }
  }

  // ---------- what survives a pass ----------

  /** Another row holds the state, or a message to another server carries it. */
  ghost predicate Elsewhere(w: World, s: Uuid, id: Uuid, list: ItemMap) {
    || (exists t: Uuid :: t != s && Holds(w, t, id, list))
    || (exists m <- w.net :: w.net[m].dst != s && Carries(w.net[m], id, list))
  }

  /** The server holds the state; its pass, if it has read the row, has read the state with it and
      will send it to another server; and once it may delete the row, the state has left. */
  ghost predicate Secured(w: World, s: Uuid, id: Uuid, list: ItemMap) {
    var p := PeerOf(w, s);
    && Holds(w, s, id, list)
    && (forall h <- p.handoffs | h.id == id :: MapLe(list, h.list) && h.dest != s)
    && (id in p.deletes ==> Elsewhere(w, s, id, list))
  }

  /** What the claim excludes: the loss of a message that carries the state, the deletion of another
      server's row of the list, and a pass that reads a hint naming its own server. */
  ghost predicate Careful(w: World, step: Step, s: Uuid, id: Uuid, list: ItemMap) {
    match step
    case Lose(m) => m in w.net ==> !Carries(w.net[m], id, list)
    case DeleteHinted(t, i) => t == s || i != id
    case ScanHints(t) => t == s && id in PeerOf(w, s).rows ==> PeerOf(w, s).rows[id].hint != Some(s)
    case _ => true
  }

  lemma ElsewhereStays(cfg: Config, w: World, step: Step, s: Uuid, id: Uuid, list: ItemMap)
    requires cfg.policy.Merged? && Tracked(w) && HistoryInv(w) && Enabled(w, step)
    requires Careful(w, step, s, id, list) && Elsewhere(w, s, id, list)
    ensures Elsewhere(Apply(cfg, w, step), s, id, list)
  {
    hide Apply, Tracked, HistoryInv, Holds, Carries;
    if t: Uuid :| t != s && Holds(w, t, id, list) {
      HoldsAfterIff(cfg, w, step, t, id, list);
    } else {
      var m :| m in w.net && w.net[m].dst != s && Carries(w.net[m], id, list);
      CarrierStays(cfg, w, step, m, id, list);
    }
  }

  lemma SentElsewhere(cfg: Config, w: World, s: Uuid, h: Hint, list: ItemMap)
    requires Enabled(w, SendHint(s, h)) && MapLe(list, h.list) && h.dest != s
    ensures Elsewhere(Apply(cfg, w, SendHint(s, h)), s, h.id, list)
  {
    hide MapLe;
    var w' := Apply(cfg, w, SendHint(s, h));
    var sent := Envelope(s, h.dest, w.nextReq, 0, ReplicateList(h.id, h.list, true));
    assert w.nextMsg in Batch(w.nextMsg, [sent]);
    assert w'.net[w.nextMsg] == sent && Carries(sent, h.id, list);
  }

  lemma ScanSecures(p: PeerState, s: Uuid, id: Uuid, list: ItemMap)
    requires id in p.rows && MapLe(list, p.rows[id].list) && p.rows[id].hint != Some(s)
    ensures forall h <- HintsOf(p.rows) | h.id == id :: MapLe(list, h.list) && h.dest != s
  {
    hide MapLe;
    forall h | h in HintsOf(p.rows) && h.id == id ensures MapLe(list, h.list) && h.dest != s {
      HintIsRow(p.rows, h);
    }
  }

  lemma SecuredStays(cfg: Config, w: World, step: Step, s: Uuid, id: Uuid, list: ItemMap)
    requires cfg.policy.Merged? && Tracked(w) && HistoryInv(w) && Enabled(w, step)
    requires Careful(w, step, s, id, list) && Secured(w, s, id, list) && !Elsewhere(w, s, id, list)
    requires !(step.SendHint? && step.server == s && step.hint.id == id)
    ensures Secured(Apply(cfg, w, step), s, id, list)
  {
    hide Apply, Tracked, HistoryInv, MapLe, Elsewhere, HintsOf;
    var p := PeerOf(w, s);
    HoldsAfterIff(cfg, w, step, s, id, list);
    if step.SendHint? || step.ScanHints? || step.DeleteHinted? {
      if step.ScanHints? && step.server == s { ScanSecures(p, s, id, list); }
      PassStepOnServer(cfg, w, step, s);
    } else {
      StepOnServer(cfg, w, step, s);
    }
  }

  /** What a step of a pass does to the entries of a server. */
  lemma PassStepOnServer(cfg: Config, w: World, step: Step, s: Uuid)
    requires Enabled(w, step) && (step.SendHint? || step.ScanHints? || step.DeleteHinted?)
    ensures var p, p' := PeerOf(w, s), PeerOf(Apply(cfg, w, step), s);
      && p'.handoffs <= (if step == ScanHints(s) then HintsOf(p.rows) else p.handoffs)
      && p'.deletes <= p.deletes + (if step.SendHint? && step.server == s then {step.hint.id} else {})
  {
    hide HintsOf, Batch;
  }

  lemma StepConservesHeld(cfg: Config, w: World, step: Step, s: Uuid, id: Uuid, list: ItemMap)
    requires cfg.policy.Merged? && Tracked(w) && HistoryInv(w) && Enabled(w, step)
    requires Careful(w, step, s, id, list) && (Secured(w, s, id, list) || Elsewhere(w, s, id, list))
    ensures Secured(Apply(cfg, w, step), s, id, list) || Elsewhere(Apply(cfg, w, step), s, id, list)
  {
    hide Apply, Tracked, HistoryInv, MapLe, Elsewhere, Holds, Careful;
    if Elsewhere(w, s, id, list) {
      ElsewhereStays(cfg, w, step, s, id, list);
    } else if step.SendHint? && step.server == s && step.hint.id == id {
      SentElsewhere(cfg, w, s, step.hint, list);
    } else {
      SecuredStays(cfg, w, step, s, id, list);
    }
  }

  ghost predicate CarefulRun(cfg: Config, first: seq<Step>, after: seq<Step>, s: Uuid, id: Uuid, list: ItemMap) {
    forall i | 0 <= i < |after| :: Careful(Exec(cfg, first + after[..i]), after[i], s, id, list)
  }

  lemma CarefulPrefix(cfg: Config, first: seq<Step>, front: seq<Step>, last: Step, s: Uuid, id: Uuid, list: ItemMap)
    requires CarefulRun(cfg, first, front + [last], s, id, list)
    ensures CarefulRun(cfg, first, front, s, id, list) && Careful(Exec(cfg, first + front), last, s, id, list)
  {
    hide Exec, Careful;
    var after := front + [last];
    assert after[..|front|] == front;
    forall i | 0 <= i < |front| ensures Careful(Exec(cfg, first + front[..i]), front[i], s, id, list) {
      assert after[..i] == front[..i];
    }
  }

  /** Whatever else the row held before and whatever is written to it meanwhile: a state that no pass
      has yet read without stays in the row or has gone elsewhere, over any run that loses no
      message that carries it, deletes no other server's row of the list, and reads no hint
      that names the server itself. */
  lemma {:induction false} HeldStateConserved(cfg: Config, first: seq<Step>, after: seq<Step>,
                                              s: Uuid, id: Uuid, list: ItemMap)
    requires cfg.policy.Merged? && CarefulRun(cfg, first, after, s, id, list)
    requires Secured(Exec(cfg, first), s, id, list) || Elsewhere(Exec(cfg, first), s, id, list)
    ensures Secured(Exec(cfg, first + after), s, id, list) || Elsewhere(Exec(cfg, first + after), s, id, list)
    decreases |after|
  {
    hide Apply, Enabled, Secured, Elsewhere, Tracked, HistoryInv, Careful, CarefulRun;
    if after == [] {
      assert first + after == first;
    } else {
      var front, last := after[..|after| - 1], after[|after| - 1];
      assert after == front + [last];
      CarefulPrefix(cfg, first, front, last, s, id, list);
      HeldStateConserved(cfg, first, front, s, id, list);
      assert first + after == (first + front) + [last];
      RunHistory(cfg, first + front);
      if Enabled(Exec(cfg, first + front), last) {
        StepConservesHeld(cfg, Exec(cfg, first + front), last, s, id, list);
      }
    }
  }

  // ---------- a write between the reading and the deletion ----------

  /** The answer of a server to a delivered write: an acknowledgement, or nothing. */
  lemma WriteAnswers(cfg: Config, me: Uuid, p: PeerState, e: Envelope, req: nat)
    requires WritesRow(e.msg)
    ensures var sends := Handle(cfg, me, p, e, [], req).sends;
      sends == [] || (|sends| == 1 && sends[0].msg.Ack?)
  {
    hide MergeMap, WriteRow, StartWrite, StartRead;
  }

  lemma DeliveredWrite(cfg: Config, w: World, m: nat)
    requires m in w.net && WritesRow(w.net[m].msg) && forall k <- w.net :: k < w.nextMsg
    ensures Enabled(w, Deliver(m, []))
    ensures var e, w' := w.net[m], Apply(cfg, w, Deliver(m, []));
      && w'.net.Keys <= w.net.Keys - {m} + {w.nextMsg} && w.net.Keys - {m} <= w'.net.Keys
      && (forall k <- w'.net | k != w.nextMsg :: w'.net[k] == w.net[k])
      && (w.nextMsg in w'.net ==> w'.net[w.nextMsg].msg.Ack?)
      && (forall t: Uuid | t != e.dst :: PeerOf(w', t) == PeerOf(w, t))
      && SameRest(PeerOf(w, e.dst), PeerOf(w', e.dst)) && w.nextMsg <= w'.nextMsg
  {
    hide Handle, Batch, RecordDelivery;
    var e := w.net[m];
    WriteAnswers(cfg, e.dst, PeerOf(w, e.dst), e, w.nextReq);
    HandleKeepsPass(cfg, e.dst, PeerOf(w, e.dst), e, [], w.nextReq);
  }

  lemma SentCopy(cfg: Config, w: World, s: Uuid, h: Hint)
    requires Enabled(w, SendHint(s, h))
    ensures var w' := Apply(cfg, w, SendHint(s, h));
      && w'.net == w.net[w.nextMsg := Envelope(s, h.dest, w.nextReq, 0, ReplicateList(h.id, h.list, true))]
      && (forall t: Uuid | t != s :: PeerOf(w', t) == PeerOf(w, t)) && h.id in PeerOf(w', s).deletes
  {
    var sent := Envelope(s, h.dest, w.nextReq, 0, ReplicateList(h.id, h.list, true));
    assert Batch(w.nextMsg, [sent]).Keys == {w.nextMsg};
    assert w.net + Batch(w.nextMsg, [sent]) == w.net[w.nextMsg := sent];
  }

  /** A pass has read the row; a write is delivered; then the pass sends its copy and deletes the
      row.  Exactly those states survive that the copy includes, or that another row held or
      another message carried before. */
  lemma LateWriteSurvivesIff(cfg: Config, w: World, s: Uuid, h: Hint, m: nat, list: ItemMap)
    requires Tracked(w) && h in PeerOf(w, s).handoffs
    requires m in w.net && w.net[m].dst == s && WritesRow(w.net[m].msg) && w.net[m].msg.id == h.id
    ensures var w' := ExecFrom(cfg, w, [Deliver(m, [])] + ([SendHint(s, h)] + [DeleteHinted(s, h.id)]));
      Alive(w', h.id, list) <==>
        || MapLe(list, h.list)
        || (exists t: Uuid :: t != s && Holds(w, t, h.id, list))
        || (exists k <- w.net :: k != m && Carries(w.net[k], h.id, list))
  {
    hide Apply, MapLe, Tracked, ExecFrom;
    var w1 := Apply(cfg, w, Deliver(m, []));
    OldMessages(w);
    DeliveredWrite(cfg, w, m);
    var w2 := Apply(cfg, w1, SendHint(s, h));
    SentCopy(cfg, w1, s, h);
    var w3 := Apply(cfg, w2, DeleteHinted(s, h.id));
    RowDeleted(cfg, w2, s, h.id);
    ExecCons(cfg, w, Deliver(m, []), [SendHint(s, h)] + [DeleteHinted(s, h.id)]);
    ExecCons(cfg, w1, SendHint(s, h), [DeleteHinted(s, h.id)]);
    ExecOne(cfg, w2, DeleteHinted(s, h.id));
    Survivors(w, w1, w3, s, h, m, list, w1.nextReq);
  }

  lemma OldMessages(w: World)
    requires Tracked(w)
    ensures forall k <- w.net :: k < w.nextMsg
  {}

  lemma Survivors(w: World, w1: World, w3: World, s: Uuid, h: Hint, m: nat, list: ItemMap, req: nat)
    requires m in w.net && w1.nextMsg >= w.nextMsg && forall k <- w.net :: k < w.nextMsg
    requires w1.net.Keys <= w.net.Keys - {m} + {w.nextMsg} && w.net.Keys - {m} <= w1.net.Keys
    requires forall k <- w1.net | k != w.nextMsg :: w1.net[k] == w.net[k]
    requires w.nextMsg in w1.net ==> w1.net[w.nextMsg].msg.Ack?
    requires w3.net == w1.net[w1.nextMsg := Envelope(s, h.dest, req, 0, ReplicateList(h.id, h.list, true))]
    requires h.id !in PeerOf(w3, s).rows && forall t: Uuid | t != s :: PeerOf(w3, t) == PeerOf(w, t)
    ensures Alive(w3, h.id, list) <==>
      || MapLe(list, h.list)
      || (exists t: Uuid :: t != s && Holds(w, t, h.id, list))
      || (exists k <- w.net :: k != m && Carries(w.net[k], h.id, list))
  {
    hide MapLe;
    assert w1.nextMsg in w3.net && (Carries(w3.net[w1.nextMsg], h.id, list) <==> MapLe(list, h.list));
    forall t: Uuid | t != s ensures Holds(w3, t, h.id, list) <==> Holds(w, t, h.id, list) {}
    if k :| k in w.net && k != m && Carries(w.net[k], h.id, list) {
      assert k in w3.net && w3.net[k] == w.net[k];
    }
    if k :| k in w3.net && Carries(w3.net[k], h.id, list) {
      assert k == w1.nextMsg || (k in w.net && k != m && w3.net[k] == w.net[k]);
    }
  }
}

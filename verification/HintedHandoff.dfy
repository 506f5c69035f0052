/** Conservation of a handed-off write: from the moment a holder keeps it under a hint until the
    original node has it, the state is always in the holder's row, in an in-flight replicate
    message, or in the original node's row. */
module HintedHandoff {
  import opened Basics
  import opened CrdtValues
  import opened Quantity
  import opened History
  import opened RingMembership
  import opened Protocol
  import opened Cluster
  import opened RequestTracking
  import opened ClusterHistory
  import opened Growth

  /** A replicate message on its way to `original` carries the state. */
  ghost predicate OnItsWay(w: World, original: Uuid, id: Uuid, list: ItemMap) {
    exists m <- w.net :: IsReturn(w.net[m], original, id, list)
  }

  ghost predicate IsReturn(e: Envelope, original: Uuid, id: Uuid, list: ItemMap) {
    e.dst == original && e.msg.ReplicateList? && e.msg.write && e.msg.id == id && MapLe(list, e.msg.list)
  }

  ghost predicate Returned(w: World, original: Uuid, id: Uuid, list: ItemMap) {
    OnItsWay(w, original, id, list) || Holds(w, original, id, list)
  }

  /** The holder still keeps the row under its hint, and its handoff pass, if it has read the
      row, has read this state; once it may delete the row, the state has left. */
  ghost predicate Kept(w: World, holder: Uuid, original: Uuid, id: Uuid, list: ItemMap) {
    var p := PeerOf(w, holder);
    && id in p.rows && p.rows[id] == Row(list, Some(original))
    && (forall h <- p.handoffs | h.id == id :: h == Hint(original, id, list))
    && (id in p.deletes ==> Returned(w, original, id, list))
  }

  ghost predicate Conserved(w: World, holder: Uuid, original: Uuid, id: Uuid, list: ItemMap) {
    Kept(w, holder, original, id, list) || Returned(w, original, id, list)
  }

  predicate WritesRow(m: Msg) {
    m.Handoff? || m.MergeList? || (m.ReplicateList? && m.write)
  }

  /** The steps the claim excludes: loss of a message that carries the state home, deletion of
      the original node's row and, until the state has left the holder, other writes of the
      list there. */
  ghost predicate Undisturbed(w: World, step: Step, holder: Uuid, original: Uuid, id: Uuid, list: ItemMap) {
    match step
    case Lose(m) => m in w.net ==> !IsReturn(w.net[m], original, id, list)
    case DeleteHinted(s, i) => !(s == original && i == id)
    case Deliver(m, _) =>
      Returned(w, original, id, list)
      || (m in w.net && w.net[m].dst == holder && WritesRow(w.net[m].msg) ==> w.net[m].msg.id != id)
    case Complete(s, req) =>
      Returned(w, original, id, list) || (s == holder && req in PeerOf(w, s).reqs ==> PeerOf(w, s).reqs[req].id != id)
    case _ => true
  }

  /** Messages leave the network only by being delivered, merged by a client, or lost. */
  lemma MessageStays(cfg: Config, w: World, step: Step, m: nat)
    requires Tracked(w) && Enabled(w, step) && m in w.net
    requires step.Deliver? || step.ClientMerge? || step.Lose? ==> step.msg != m
    ensures m in Apply(cfg, w, step).net && Apply(cfg, w, step).net[m] == w.net[m]
  {
    hide Handle, Finish, Batch, HintsOf, AddNode, RemoveNode, EditItem, OpOf, Fetched, RecordStart,
         RecordDelivery, MsgTracked, RequestTracked;
  }

  /** A state on its way or arrived stays so: delivery stores it, and rows grow. */
  lemma ReturnedStays(cfg: Config, w: World, step: Step, holder: Uuid, original: Uuid, id: Uuid, list: ItemMap)
    requires cfg.policy.Merged? && Tracked(w) && HistoryInv(w) && Enabled(w, step)
    requires Undisturbed(w, step, holder, original, id, list) && Returned(w, original, id, list)
    ensures Returned(Apply(cfg, w, step), original, id, list)
  {
    hide Apply, Tracked, HistoryInv, MapLe, RowsGrow;
    var w' := Apply(cfg, w, step);
    if Holds(w, original, id, list) {
      HoldsAfterIff(cfg, w, step, original, id, list);
    } else {
      var m :| m in w.net && IsReturn(w.net[m], original, id, list);
      if step.Deliver? && step.msg == m {
        DeliverStores(cfg, w, m, step.attempts);
        MapLeTransitive(list, w.net[m].msg.list, PeerOf(w', original).rows[id].list);
      } else {
        MessageStays(cfg, w, step, m);
      }
    }
  }

  // ---------- the handoff pass ----------

  /** A pass has read stored rows, one entry a list, and has not yet sent what it may still
      send; what it may delete is stored. */
  ghost predicate PassOk(p: PeerState) {
    && (forall h <- p.handoffs :: h.id in p.rows && h.id !in p.deletes)
    && (forall h <- p.handoffs, g <- p.handoffs :: h.id == g.id ==> h == g)
    && p.deletes <= p.rows.Keys
  }

  ghost predicate PassesOk(w: World) {
    forall s: Uuid :: PassOk(PeerOf(w, s))
  }

  predicate SameRest(p: PeerState, p': PeerState) {
    p'.handoffs == p.handoffs && p'.deletes == p.deletes
  }

  lemma HandleKeepsPass(cfg: Config, me: Uuid, p: PeerState, e: Envelope, attempts: seq<Attempt>, req: nat)
    ensures var p' := Handle(cfg, me, p, e, attempts, req).peer;
      && SameRest(p, p') && p.rows.Keys <= p'.rows.Keys
      && forall i | i in p.rows && (WritesRow(e.msg) ==> e.msg.id != i) :: p'.rows[i] == p.rows[i]
  {
    hide MergeMap, Replicas, SlotsOf;
  }

  lemma FinishKeepsPass(cfg: Config, me: Uuid, p: PeerState, req: nat, ok: bool)
    requires req in p.reqs && p.reqs[req].q.lists != []
    ensures var p' := Finish(cfg, me, p, req, ok).peer;
      && SameRest(p, p') && p.rows.Keys <= p'.rows.Keys
      && forall i | i in p.rows && (ok ==> p.reqs[req].id != i) :: p'.rows[i] == p.rows[i]
  {
    hide MergeMap, Answer;
  }

  /** The row of list i survives the step unchanged. */
  ghost predicate Spared(w: World, step: Step, s: Uuid, i: Uuid)
    requires Enabled(w, step)
  {
    match step
    case Deliver(m, _) => w.net[m].dst == s && WritesRow(w.net[m].msg) ==> w.net[m].msg.id != i
    case Complete(t, req) => t == s ==> PeerOf(w, s).reqs[req].id != i
    case _ => true
  }

  ghost predicate RowsStay(w: World, step: Step, s: Uuid, p: PeerState, p': PeerState)
    requires Enabled(w, step)
  {
    && SameRest(p, p') && p.rows.Keys <= p'.rows.Keys
    && forall i | i in p.rows && Spared(w, step, s, i) :: p'.rows[i] == p.rows[i]
  }

  /** What a step may do to the pass and the rows of a server. */
  lemma StepOnServer(cfg: Config, w: World, step: Step, s: Uuid)
    requires Enabled(w, step) && !step.DeleteHinted? && !step.SendHint? && !step.ScanHints?
    ensures RowsStay(w, step, s, PeerOf(w, s), PeerOf(Apply(cfg, w, step), s))
  {
    hide Apply;
    OnlyActorChanges(cfg, w, step);
    if ActingServer(w, step) == Some(s) {
      StepOnActor(cfg, w, step, s);
    }
  }

  lemma StepOnActor(cfg: Config, w: World, step: Step, s: Uuid)
    requires Enabled(w, step) && ActingServer(w, step) == Some(s)
    requires !step.DeleteHinted? && !step.SendHint? && !step.ScanHints?
    ensures RowsStay(w, step, s, PeerOf(w, s), PeerOf(Apply(cfg, w, step), s))
  {
    hide Handle, Finish, Batch, AddNode, RemoveNode, RecordStart, RecordDelivery, RecordFinish, WritesRow;
    match step {
      case Deliver(m, attempts) => HandleKeepsPass(cfg, s, PeerOf(w, s), w.net[m], attempts, w.nextReq);
      case Complete(_, req) => FinishKeepsPass(cfg, s, PeerOf(w, s), req, true);
      case GiveUp(_, req) => FinishKeepsPass(cfg, s, PeerOf(w, s), req, false);
      case _ =>
    }
  }

  lemma HintIsRow(rows: Rows, h: Hint)
    ensures h in HintsOf(rows) <==> h.id in rows && rows[h.id] == Row(h.list, Some(h.dest))
  {}

  lemma ScanPassOk(p: PeerState)
    requires p.deletes == {}
    ensures PassOk(p.(handoffs := HintsOf(p.rows)))
  {
    forall h | h in HintsOf(p.rows) ensures h.id in p.rows && p.rows[h.id] == Row(h.list, Some(h.dest)) {
      HintIsRow(p.rows, h);
    }
  }

  lemma StepKeepsPasses(cfg: Config, w: World, step: Step)
    requires PassesOk(w) && Enabled(w, step)
    ensures PassesOk(Apply(cfg, w, step))
  {
    hide Apply, HintsOf, AddNode, RemoveNode;
    forall s: Uuid ensures PassOk(PeerOf(Apply(cfg, w, step), s)) {
      assert PassOk(PeerOf(w, s));
      if step.DeleteHinted? || step.SendHint? || step.ScanHints? {
        PassStep(cfg, w, step, s);
      } else {
        StepOnServer(cfg, w, step, s);
      }
    }
  }

  lemma PassStep(cfg: Config, w: World, step: Step, s: Uuid)
    requires PassOk(PeerOf(w, s)) && Enabled(w, step)
    requires step.DeleteHinted? || step.SendHint? || step.ScanHints?
    ensures PassOk(PeerOf(Apply(cfg, w, step), s))
  {
    hide HintsOf, Batch;
    if step.ScanHints? {
      ScanPassOk(PeerOf(w, step.server));
    }
  }

  lemma {:induction false} RunKeepsPasses(cfg: Config, steps: seq<Step>)
    ensures PassesOk(Exec(cfg, steps))
  {
    hide Apply, Enabled;
    if steps != [] {
      RunKeepsPasses(cfg, steps[..|steps| - 1]);
      if Enabled(Exec(cfg, steps[..|steps| - 1]), steps[|steps| - 1]) {
        StepKeepsPasses(cfg, Exec(cfg, steps[..|steps| - 1]), steps[|steps| - 1]);
      }
    }
  }

  // ---------- conservation ----------

  lemma SendReturns(cfg: Config, w: World, s: Uuid, h: Hint)
    requires Enabled(w, SendHint(s, h))
    ensures OnItsWay(Apply(cfg, w, SendHint(s, h)), h.dest, h.id, h.list)
  {
    hide MapLe;
    MapLeReflexive(h.list);
    var w' := Apply(cfg, w, SendHint(s, h));
    var sent := Envelope(s, h.dest, w.nextReq, 0, ReplicateList(h.id, h.list, true));
    assert w.nextMsg in Batch(w.nextMsg, [sent]);
    assert w'.net[w.nextMsg] == sent;
  }

  lemma StepConserves(cfg: Config, w: World, step: Step, holder: Uuid, original: Uuid, id: Uuid, list: ItemMap)
    requires cfg.policy.Merged? && Tracked(w) && HistoryInv(w) && Enabled(w, step)
    requires Undisturbed(w, step, holder, original, id, list) && Conserved(w, holder, original, id, list)
    ensures Conserved(Apply(cfg, w, step), holder, original, id, list)
  {
    hide Apply, Tracked, HistoryInv, MapLe, Returned, HintsOf;
    if Returned(w, original, id, list) {
      ReturnedStays(cfg, w, step, holder, original, id, list);
    } else if step.SendHint? && step.server == holder && step.hint.id == id {
      SendReturns(cfg, w, holder, step.hint);
      ReturnedIntro(Apply(cfg, w, step), original, id, list);
    } else if step.SendHint? || step.ScanHints? || step.DeleteHinted? {
      KeptByPass(cfg, w, step, holder, original, id, list);
    } else {
      StepOnServer(cfg, w, step, holder);
    }
  }

  lemma ReturnedIntro(w: World, original: Uuid, id: Uuid, list: ItemMap)
    requires OnItsWay(w, original, id, list)
    ensures Returned(w, original, id, list)
  {}

  lemma KeptByPass(cfg: Config, w: World, step: Step, holder: Uuid, original: Uuid, id: Uuid, list: ItemMap)
    requires Enabled(w, step) && Kept(w, holder, original, id, list) && !Returned(w, original, id, list)
    requires step.SendHint? || step.ScanHints? || step.DeleteHinted?
    requires step.SendHint? && step.server == holder ==> step.hint.id != id
    ensures Kept(Apply(cfg, w, step), holder, original, id, list)
  {
    hide MapLe, HintsOf, Returned, Batch;
    if step.ScanHints? && step.server == holder {
      forall h | h in HintsOf(PeerOf(w, holder).rows) && h.id == id ensures h == Hint(original, id, list) {
        HintIsRow(PeerOf(w, holder).rows, h);
      }
    }
  }

  // ---------- over a run ----------

  ghost predicate UndisturbedRun(cfg: Config, first: seq<Step>, after: seq<Step>,
                                 holder: Uuid, original: Uuid, id: Uuid, list: ItemMap) {
    forall i | 0 <= i < |after| :: Undisturbed(Exec(cfg, first + after[..i]), after[i], holder, original, id, list)
  }

  lemma UndisturbedPrefix(cfg: Config, first: seq<Step>, front: seq<Step>, last: Step,
                          holder: Uuid, original: Uuid, id: Uuid, list: ItemMap)
    requires UndisturbedRun(cfg, first, front + [last], holder, original, id, list)
    ensures UndisturbedRun(cfg, first, front, holder, original, id, list)
    ensures Undisturbed(Exec(cfg, first + front), last, holder, original, id, list)
  {
    hide Exec, Undisturbed;
    var after := front + [last];
    assert after[..|front|] == front;
    forall i | 0 <= i < |front|
      ensures Undisturbed(Exec(cfg, first + front[..i]), front[i], holder, original, id, list)
    {
      assert after[..i] == front[..i];
    }
  }

  lemma {:induction false} RunConserves(cfg: Config, first: seq<Step>, after: seq<Step>,
                                        holder: Uuid, original: Uuid, id: Uuid, list: ItemMap)
    requires cfg.policy.Merged? && Conserved(Exec(cfg, first), holder, original, id, list)
    requires UndisturbedRun(cfg, first, after, holder, original, id, list)
    ensures Conserved(Exec(cfg, first + after), holder, original, id, list)
    decreases |after|
  {
    hide Apply, Enabled, Conserved, Tracked, HistoryInv, Undisturbed, UndisturbedRun, MapLe;
    if after == [] {
      assert first + after == first;
    } else {
      var front, last := after[..|after| - 1], after[|after| - 1];
      assert after == front + [last];
      UndisturbedPrefix(cfg, first, front, last, holder, original, id, list);
      RunConserves(cfg, first, front, holder, original, id, list);
      assert first + after == (first + front) + [last];
      RunHistory(cfg, first + front);
      var w := Exec(cfg, first + front);
      if Enabled(w, last) {
        StepConserves(cfg, w, last, holder, original, id, list);
      }
    }
  }

  lemma HandoffIsKept(cfg: Config, w: World, m: nat, attempts: seq<Attempt>)
    requires PassesOk(w) && Enabled(w, Deliver(m, attempts)) && w.net[m].msg.Handoff?
    requires w.net[m].msg.id !in PeerOf(w, w.net[m].dst).rows
    ensures var e := w.net[m];
      Kept(Apply(cfg, w, Deliver(m, attempts)), e.dst, e.msg.original, e.msg.id, e.msg.list)
  {
    hide Returned, MergeMap, Batch, RecordDelivery, MapLe;
    assert PassOk(PeerOf(w, w.net[m].dst));
  }

  /** From the delivery of a handoff to a server without a row of the list, over any
      continuation that neither loses the message that carries it home, nor writes the list to
      the holder before that, nor deletes the original node's row: the state is in the
      holder's row under its hint, on its way to the original node, or in its row. */
  lemma HandedOffStateConserved(cfg: Config, before: seq<Step>, m: nat, attempts: seq<Attempt>, after: seq<Step>)
    requires cfg.policy.Merged? && Enabled(Exec(cfg, before), Deliver(m, attempts))
    requires Exec(cfg, before).net[m].msg.Handoff?
    requires var e := Exec(cfg, before).net[m]; e.msg.id !in PeerOf(Exec(cfg, before), e.dst).rows
    requires var e := Exec(cfg, before).net[m];
      UndisturbedRun(cfg, before + [Deliver(m, attempts)], after, e.dst, e.msg.original, e.msg.id, e.msg.list)
    ensures var e := Exec(cfg, before).net[m];
      Conserved(Exec(cfg, before + [Deliver(m, attempts)] + after), e.dst, e.msg.original, e.msg.id, e.msg.list)
  {
    hide Apply, Kept, Tracked, HistoryInv, UndisturbedRun;
    var w, step := Exec(cfg, before), Deliver(m, attempts);
    var e := w.net[m];
    RunKeepsPasses(cfg, before);
    HandoffIsKept(cfg, w, m, attempts);
    assert (before + [step])[..|before|] == before;
    assert Exec(cfg, before + [step]) == Apply(cfg, w, step);
    RunConserves(cfg, before + [step], after, e.dst, e.msg.original, e.msg.id, e.msg.list);
  }

  // ---------- what a handoff pass may delete ----------

  /** No row, pass entry or pending deletion of the server could make it delete its row of the
      list. */
  ghost predicate Clean(p: PeerState, id: Uuid) {
    && (id in p.rows ==> p.rows[id].hint.None?)
    && (forall h <- p.handoffs :: h.id != id)
    && id !in p.deletes
  }

  /** The step hands the list to the server. */
  ghost predicate HandsOver(w: World, step: Step, s: Uuid, id: Uuid)
    requires Enabled(w, step)
  {
    step.Deliver? && w.net[step.msg].dst == s && w.net[step.msg].msg.Handoff? && w.net[step.msg].msg.id == id
  }

  lemma HandleKeepsClean(cfg: Config, me: Uuid, p: PeerState, e: Envelope, attempts: seq<Attempt>, req: nat, id: Uuid)
    requires Clean(p, id) && !(e.msg.Handoff? && e.msg.id == id)
    ensures Clean(Handle(cfg, me, p, e, attempts, req).peer, id)
  {
    hide MergeMap, Replicas, SlotsOf;
  }

  lemma FinishKeepsClean(cfg: Config, me: Uuid, p: PeerState, req: nat, ok: bool, id: Uuid)
    requires req in p.reqs && p.reqs[req].q.lists != [] && Clean(p, id)
    ensures Clean(Finish(cfg, me, p, req, ok).peer, id)
  {
    hide MergeMap, Answer;
  }

  /** A clean row can only be marked for deletion by a handoff of its list, and until then its
      deletion is not possible. */
  lemma StepKeepsClean(cfg: Config, w: World, step: Step, s: Uuid, id: Uuid)
    requires Enabled(w, step) && Clean(PeerOf(w, s), id) && !HandsOver(w, step, s, id)
    ensures Clean(PeerOf(Apply(cfg, w, step), s), id) && step != DeleteHinted(s, id)
  {
    hide Apply, Clean;
    OnlyActorChanges(cfg, w, step);
    if ActingServer(w, step) == Some(s) {
      ActorKeepsClean(cfg, w, step, s, id);
    }
    assert id !in PeerOf(w, s).deletes by { CleanDeletes(PeerOf(w, s), id); }
  }

  lemma CleanDeletes(p: PeerState, id: Uuid)
    requires Clean(p, id)
    ensures id !in p.deletes
  {}

  lemma ActorKeepsClean(cfg: Config, w: World, step: Step, s: Uuid, id: Uuid)
    requires Enabled(w, step) && Clean(PeerOf(w, s), id) && !HandsOver(w, step, s, id)
    requires ActingServer(w, step) == Some(s)
    ensures Clean(PeerOf(Apply(cfg, w, step), s), id)
  {
    hide Handle, Finish, Batch, AddNode, RemoveNode, RecordStart, RecordDelivery, RecordFinish, HintsOf;
    match step {
      case Deliver(m, attempts) => HandleKeepsClean(cfg, s, PeerOf(w, s), w.net[m], attempts, w.nextReq, id);
      case Complete(_, req) => FinishKeepsClean(cfg, s, PeerOf(w, s), req, true, id);
      case GiveUp(_, req) => FinishKeepsClean(cfg, s, PeerOf(w, s), req, false, id);
      case ScanHints(_) => ScanKeepsClean(PeerOf(w, s), id);
      case _ =>
    }
  }

  lemma ScanKeepsClean(p: PeerState, id: Uuid)
    requires Clean(p, id)
    ensures Clean(p.(handoffs := HintsOf(p.rows)), id)
  {
    forall h | h in HintsOf(p.rows) ensures h.id != id { HintIsRow(p.rows, h); }
  }

  // ---------- exactly when a pass can lose a row ----------

  /** Steps of the handoff pass of one server. */
  ghost predicate OwnPass(pass: seq<Step>, s: Uuid) {
    forall step <- pass ::
      (step.ScanHints? || step.SendHint? || step.DeleteHinted?) && step.server == s
  }

  lemma {:induction false} PassKeepsClean(cfg: Config, w: World, pass: seq<Step>, s: Uuid, id: Uuid, list: ItemMap)
    requires cfg.policy.Merged? && Holds(w, s, id, list) && Clean(PeerOf(w, s), id) && OwnPass(pass, s)
    ensures Holds(ExecFrom(cfg, w, pass), s, id, list) && Clean(PeerOf(ExecFrom(cfg, w, pass), s), id)
  {
    hide Apply, Clean, Holds;
    if pass != [] {
      var front, last := pass[..|pass| - 1], pass[|pass| - 1];
      assert last in pass;
      PassKeepsClean(cfg, w, front, s, id, list);
      var w1 := ExecFrom(cfg, w, front);
      if Enabled(w1, last) {
        StepKeepsClean(cfg, w1, last, s, id);
        HoldsAfterIff(cfg, w1, last, s, id, list);
      }
    }
  }

  lemma DeleteFrees(cfg: Config, w: World, s: Uuid, i: Uuid)
    requires Enabled(w, DeleteHinted(s, i))
    ensures var p, p' := PeerOf(w, s), PeerOf(Apply(cfg, w, DeleteHinted(s, i)), s);
      p'.deletes == p.deletes - {i} && p'.rows == p.rows - {i} && p'.handoffs == p.handoffs
  {}

  lemma SendReadiesDelete(cfg: Config, w: World, s: Uuid, h: Hint)
    requires Enabled(w, SendHint(s, h))
    ensures var p, p' := PeerOf(w, s), PeerOf(Apply(cfg, w, SendHint(s, h)), s);
      p'.deletes == p.deletes + {h.id} && p'.rows == p.rows
  {
    hide Batch;
  }

  lemma ScanReadsHints(cfg: Config, w: World, s: Uuid)
    requires Enabled(w, ScanHints(s))
    ensures var p, p' := PeerOf(w, s), PeerOf(Apply(cfg, w, ScanHints(s)), s);
      p'.handoffs == HintsOf(p.rows) && p'.rows == p.rows && p'.deletes == p.deletes
  {
    hide HintsOf;
  }

  lemma ExecOne(cfg: Config, w: World, step: Step)
    ensures ExecFrom(cfg, w, [step]) == Do(cfg, w, step)
  {
    hide Do;
    assert [step][..0] == [];
  }

  /** Prefixing a step to a pass. */
  lemma {:induction false} ExecCons(cfg: Config, w: World, step: Step, rest: seq<Step>)
    ensures ExecFrom(cfg, w, [step] + rest) == ExecFrom(cfg, Do(cfg, w, step), rest)
  {
    hide Do;
    if rest == [] {
      assert [step] + rest == [step];
      ExecOne(cfg, w, step);
    } else {
      var front := rest[..|rest| - 1];
      assert ([step] + rest)[..|rest|] == [step] + front;
      ExecCons(cfg, w, step, front);
    }
  }

  /** A pass of a server whose row is not clean that ends with the row deleted: finish the
      deletions in progress, read the hints, send the row, delete it. */
  lemma PassThatLoses(cfg: Config, w: World, s: Uuid, id: Uuid) returns (pass: seq<Step>)
    requires PassesOk(w) && !Clean(PeerOf(w, s), id)
    ensures OwnPass(pass, s) && id !in PeerOf(ExecFrom(cfg, w, pass), s).rows
    decreases |PeerOf(w, s).deletes|
  {
    hide Apply, HintsOf;
    var p := PeerOf(w, s);
    assert PassOk(p);
    if id in p.deletes {
      pass := [DeleteHinted(s, id)];
      DeleteFrees(cfg, w, s, id);
      ExecOne(cfg, w, pass[0]);
    } else if h :| h in p.handoffs && h.id == id {
      pass := [SendHint(s, h)] + [DeleteHinted(s, id)];
      var w1 := Apply(cfg, w, SendHint(s, h));
      SendReadiesDelete(cfg, w, s, h);
      ExecCons(cfg, w, pass[0], [DeleteHinted(s, id)]);
      ExecOne(cfg, w1, DeleteHinted(s, id));
      DeleteFrees(cfg, w1, s, id);
    } else if i: Uuid :| i in p.deletes {
      var w1 := Apply(cfg, w, DeleteHinted(s, i));
      DeleteFrees(cfg, w, s, i);
      StepKeepsPasses(cfg, w, DeleteHinted(s, i));
      var rest := PassThatLoses(cfg, w1, s, id);
      pass := [DeleteHinted(s, i)] + rest;
      ExecCons(cfg, w, DeleteHinted(s, i), rest);
    } else {
      pass := ScanThatLoses(cfg, w, s, id);
    }
  }

  lemma ScanThatLoses(cfg: Config, w: World, s: Uuid, id: Uuid) returns (pass: seq<Step>)
    requires PeerOf(w, s).deletes == {} && id in PeerOf(w, s).rows && PeerOf(w, s).rows[id].hint.Some?
    ensures OwnPass(pass, s) && id !in PeerOf(ExecFrom(cfg, w, pass), s).rows
  {
    hide Apply, HintsOf;
    var p := PeerOf(w, s);
    var h := Hint(p.rows[id].hint.value, id, p.rows[id].list);
    HintIsRow(p.rows, h);
    pass := [ScanHints(s)] + ([SendHint(s, h)] + [DeleteHinted(s, id)]);
    var w1 := Apply(cfg, w, ScanHints(s));
    ScanReadsHints(cfg, w, s);
    var w2 := Apply(cfg, w1, SendHint(s, h));
    SendReadiesDelete(cfg, w1, s, h);
    DeleteFrees(cfg, w2, s, id);
    ExecCons(cfg, w, ScanHints(s), [SendHint(s, h)] + [DeleteHinted(s, id)]);
    ExecCons(cfg, w1, SendHint(s, h), [DeleteHinted(s, id)]);
    ExecOne(cfg, w2, DeleteHinted(s, id));
  }

  /** A server that holds a state keeps it through every handoff pass of its own exactly when
      its row carries no hint and no pass has read or is about to delete it. */
  lemma PassesKeepIff(cfg: Config, w: World, s: Uuid, id: Uuid, list: ItemMap)
    requires cfg.policy.Merged? && PassesOk(w) && Holds(w, s, id, list)
    ensures (forall pass | OwnPass(pass, s) :: Holds(ExecFrom(cfg, w, pass), s, id, list)) <==> Clean(PeerOf(w, s), id)
  {
    hide OwnPass, Clean, ExecFrom, PassesOk;
    if Clean(PeerOf(w, s), id) {
      forall pass | OwnPass(pass, s) ensures Holds(ExecFrom(cfg, w, pass), s, id, list) {
        PassKeepsClean(cfg, w, pass, s, id, list);
      }
    } else {
      var pass := PassThatLoses(cfg, w, s, id);
      assert !Holds(ExecFrom(cfg, w, pass), s, id, list);
    }
  }
}

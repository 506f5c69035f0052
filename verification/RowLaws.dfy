/** What one step does to one row, and what that means for the states the row holds, with either
    policy.  As the code is written a row is overwritten by replicates, handoffs, completed puts
    and the write-back of completed reads; a state outlives such a step exactly when the list
    written includes it. */
module RowLaws {
  import opened Basics
  import opened CrdtValues
  import opened RingMembership
  import opened Protocol
  import opened Cluster
  import opened RequestTracking
  import opened ClusterHistory
  import opened Growth
  import opened WriteQuorum
  import opened Durability

  // ---------- one row ----------

  /** The list the step writes to the row of the list on the server, if it writes it. */
  ghost function Written(w: World, step: Step, s: Uuid, id: Uuid): Option<ItemMap>
    requires Enabled(w, step)
  {
    match step
    case Deliver(m, _) =>
      var e, rows := w.net[m], PeerOf(w, s).rows;
      if e.dst != s || !CarriesList(e.msg) || e.msg.id != id then None
      else
        (match e.msg
         case ReplicateList(_, list, true) => Some(list)
         case Handoff(_, list, _) => Some(list)
         case MergeList(_, list) => Some(if id in rows then MergeMap(rows[id].list, list) else list)
         case _ => None)
    case Complete(t, req) =>
      if t == s && PeerOf(w, s).reqs[req].id == id then Some(Answer(PeerOf(w, s).reqs[req])) else None
    case _ => None
  }

  /** What is in the row after the step. */
  ghost function RowListAfter(policy: Policy, w: World, step: Step, s: Uuid, id: Uuid): Option<ItemMap>
    requires Enabled(w, step)
  {
    var rows := PeerOf(w, s).rows;
    var before := if id in rows then Some(rows[id].list) else None;
    if step == DeleteHinted(s, id) then None
    else
      match Written(w, step, s, id)
      case None => before
      case Some(list) => Some(if policy.Merged? && id in rows then MergeMap(rows[id].list, list) else list)
  }

  ghost function RowList(w: World, s: Uuid, id: Uuid): Option<ItemMap> {
    var rows := PeerOf(w, s).rows;
    if id in rows then Some(rows[id].list) else None
  }

  lemma HandleRow(cfg: Config, w: World, m: nat, attempts: seq<Attempt>, id: Uuid)
    requires Enabled(w, Deliver(m, attempts))
    ensures var e := w.net[m];
      var rows := Handle(cfg, e.dst, PeerOf(w, e.dst), e, attempts, w.nextReq).peer.rows;
      (if id in rows then Some(rows[id].list) else None)
        == RowListAfter(cfg.policy, w, Deliver(m, attempts), e.dst, id)
  {
    hide MergeMap, StartWrite, StartRead;
    var e := w.net[m];
    if FromClient(e.msg) {
      StartKeepsRows(cfg, e.dst, PeerOf(w, e.dst), e, attempts, w.nextReq);
    }
  }

  lemma StartKeepsRows(cfg: Config, me: Uuid, p: PeerState, e: Envelope, attempts: seq<Attempt>, req: nat)
    requires FromClient(e.msg)
    ensures Handle(cfg, me, p, e, attempts, req).peer.rows == p.rows
  {
    hide Replicas, SlotsOf, NewQuorum;
  }

  lemma FinishRow(cfg: Config, w: World, s: Uuid, req: nat, id: Uuid)
    requires Enabled(w, Complete(s, req))
    ensures var rows := Finish(cfg, s, PeerOf(w, s), req, true).peer.rows;
      (if id in rows then Some(rows[id].list) else None) == RowListAfter(cfg.policy, w, Complete(s, req), s, id)
  {
    hide MergeMap, Answer;
  }

  /** Every row after every step. */
  lemma RowAfter(cfg: Config, w: World, step: Step, s: Uuid, id: Uuid)
    requires Enabled(w, step)
    ensures RowList(Apply(cfg, w, step), s, id) == RowListAfter(cfg.policy, w, step, s, id)
  {
    hide Apply, MergeMap, Answer;
    OnlyActorChanges(cfg, w, step);
    if ActingServer(w, step) == Some(s) {
      ActorRow(cfg, w, step, s, id);
    }
  }

  lemma ActorRow(cfg: Config, w: World, step: Step, s: Uuid, id: Uuid)
    requires Enabled(w, step) && ActingServer(w, step) == Some(s)
    ensures RowList(Apply(cfg, w, step), s, id) == RowListAfter(cfg.policy, w, step, s, id)
  {
    hide Handle, Finish, Batch, AddNode, RemoveNode, HintsOf, RecordStart, RecordDelivery, RecordFinish, MergeMap,
         Answer, RowListAfter;
    match step {
      case Deliver(m, attempts) => HandleRow(cfg, w, m, attempts, id);
      case Complete(_, req) => FinishRow(cfg, w, s, req, id);
      case GiveUp(_, req) => OtherRow(cfg, w, step, s, id);
      case _ => OtherRow(cfg, w, step, s, id);
    }
  }

  lemma OtherRow(cfg: Config, w: World, step: Step, s: Uuid, id: Uuid)
    requires Enabled(w, step) && ActingServer(w, step) == Some(s) && !step.Deliver? && !step.Complete?
    ensures RowList(Apply(cfg, w, step), s, id) == RowListAfter(cfg.policy, w, step, s, id)
  {
    hide Batch, AddNode, RemoveNode, HintsOf, MergeMap, Answer;
  }

  // ---------- one step ----------

  /** The step takes nothing of the state from the server's row. */
  ghost predicate Spares(policy: Policy, w: World, step: Step, s: Uuid, id: Uuid, list: ItemMap)
    requires Enabled(w, step)
  {
    && step != DeleteHinted(s, id)
    && (policy.Literal? && Written(w, step, s, id).Some? ==> MapLe(list, Written(w, step, s, id).value))
  }

  /** With either policy, a server goes on holding a state exactly when the step neither deletes
      its row nor, as the code is written, writes a list to it that does not include the state. */
  lemma HoldsAfterSparedIff(cfg: Config, w: World, step: Step, s: Uuid, id: Uuid, list: ItemMap)
    requires Enabled(w, step) && Holds(w, s, id, list)
    ensures Holds(Apply(cfg, w, step), s, id, list) <==> Spares(cfg.policy, w, step, s, id, list)
  {
    hide Apply, MapLe, MergeMap, Written;
    RowAfter(cfg, w, step, s, id);
    if cfg.policy.Merged? {
      HoldsAfterIff(cfg, w, step, s, id, list);
    } else {
      assert RowList(w, s, id) == Some(PeerOf(w, s).rows[id].list);
      assert RowList(Apply(cfg, w, step), s, id).Some? && MapLe(list, RowList(Apply(cfg, w, step), s, id).value)
        <==> Holds(Apply(cfg, w, step), s, id, list);
    }
  }

  /** What a step writes is the effect of operations of the list. */
  lemma WrittenExplained(cfg: Config, w: World, step: Step, s: Uuid, id: Uuid)
    requires HistoryInv(w) && Enabled(w, step) && Written(w, step, s, id).Some?
    ensures (id, Written(w, step, s, id).value) in ExplainedLists(w.audit.hist)
  {
    hide Explained, AllWellFormed, OwnComplete, MergeMap, Answer, Everywhere;
    match step {
      case Deliver(m, _) =>
        NetMsgOk(w, m, ExplainedLists(w.audit.hist));
        ExplainedClosed(w.audit.hist);
        if id in PeerOf(w, s).rows { RowExplained(w, s, id); }
      case Complete(_, req) => AnswerOk(w, s, req);
    }
  }

  /** The step leaves the row on the server, and whatever it writes there includes every operation
      the row includes. */
  ghost predicate WriteIncludes(w: World, step: Step, s: Uuid, id: Uuid)
    requires Enabled(w, step) && id in PeerOf(w, s).rows
  {
    && step != DeleteHinted(s, id)
    && (Written(w, step, s, id).Some? ==>
          ListIncludes(w.audit.hist, id, PeerOf(w, s).rows[id].list, Written(w, step, s, id).value))
  }

  lemma LiteralRowGrowsIff(cfg: Config, w: World, step: Step, s: Uuid, id: Uuid)
    requires cfg.policy.Literal? && HistoryInv(w) && Enabled(w, step) && id in PeerOf(w, s).rows
    ensures Holds(Apply(cfg, w, step), s, id, PeerOf(w, s).rows[id].list) <==> WriteIncludes(w, step, s, id)
  {
    hide Apply, MapLe, Written, Explained, AllWellFormed, OwnComplete, Everywhere, ListIncludes;
    var row := PeerOf(w, s).rows[id].list;
    MapLeReflexive(row);
    HoldsAfterSparedIff(cfg, w, step, s, id, row);
    if Written(w, step, s, id).Some? {
      RowExplained(w, s, id);
      WrittenExplained(cfg, w, step, s, id);
      BelowIffListIncludes(w.audit.hist, id, row, Written(w, step, s, id).value);
    }
  }

  /** As the code is written, in every reachable state, a step leaves every row of every server at
      or above its old value exactly when it deletes no row and writes no list that lacks an
      operation of the row it replaces. */
  lemma LiteralStepGrowsIff(cfg: Config, steps: seq<Step>, step: Step)
    requires cfg.policy.Literal? && Enabled(Exec(cfg, steps), step)
    ensures var w := Exec(cfg, steps);
      RowsGrow(w, Apply(cfg, w, step)) <==>
        forall s: Uuid, id: Uuid | id in PeerOf(w, s).rows :: WriteIncludes(w, step, s, id)
  {
    hide Exec, Apply, WriteIncludes, HistoryInv, MapLe;
    var w := Exec(cfg, steps);
    RunHistory(cfg, steps);
    forall s: Uuid, id: Uuid | id in PeerOf(w, s).rows
      ensures Holds(Apply(cfg, w, step), s, id, PeerOf(w, s).rows[id].list) <==> WriteIncludes(w, step, s, id)
    {
      LiteralRowGrowsIff(cfg, w, step, s, id);
    }
    GrowIsHold(w, Apply(cfg, w, step));
  }

  lemma GrowIsHold(w: World, w': World)
    ensures RowsGrow(w, w') <==>
      forall s: Uuid, id: Uuid | id in PeerOf(w, s).rows :: Holds(w', s, id, PeerOf(w, s).rows[id].list)
  {
    hide MapLe, PeerOf;
    if forall s: Uuid, id: Uuid | id in PeerOf(w, s).rows :: Holds(w', s, id, PeerOf(w, s).rows[id].list) {
      forall s: Uuid ensures RowsBelow(PeerOf(w, s).rows, PeerOf(w', s).rows) {
        forall id | id in PeerOf(w, s).rows
          ensures id in PeerOf(w', s).rows && MapLe(PeerOf(w, s).rows[id].list, PeerOf(w', s).rows[id].list)
        {
          assert Holds(w', s, id, PeerOf(w, s).rows[id].list);
        }
      }
    }
    if RowsGrow(w, w') {
      forall s: Uuid, id: Uuid | id in PeerOf(w, s).rows ensures Holds(w', s, id, PeerOf(w, s).rows[id].list) {
        assert RowsBelow(PeerOf(w, s).rows, PeerOf(w', s).rows);
      }
    }
  }

  /** In particular a completed put or read writes back its answer, and drops whatever reached
      the row meanwhile and is not in the answer. */
  lemma LiteralCompletionGrowsIff(cfg: Config, steps: seq<Step>, s: Uuid, req: nat)
    requires cfg.policy.Literal? && Enabled(Exec(cfg, steps), Complete(s, req))
    requires PeerOf(Exec(cfg, steps), s).reqs[req].id in PeerOf(Exec(cfg, steps), s).rows
    ensures var w := Exec(cfg, steps);
      var p, p' := PeerOf(w, s), PeerOf(Apply(cfg, w, Complete(s, req)), s);
      var id := p.reqs[req].id;
      && id in p'.rows
      && (MapLe(p.rows[id].list, p'.rows[id].list)
          <==> ListIncludes(w.audit.hist, id, p.rows[id].list, Answer(p.reqs[req])))
  {
    hide Exec, MapLe, Answer, HistoryInv, ListIncludes, Apply;
    var w := Exec(cfg, steps);
    RunHistory(cfg, steps);
    var id := PeerOf(w, s).reqs[req].id;
    LiteralRowGrowsIff(cfg, w, Complete(s, req), s, id);
    RowAfter(cfg, w, Complete(s, req), s, id);
  }

  // ---------- over a run ----------

  /** The handled writes that a later step of the run took from the row. */
  ghost function Dropped(cfg: Config, steps: seq<Step>): iset<StoreRec> {
    if steps == [] then iset{}
    else
      var w, step := Exec(cfg, steps[..|steps| - 1]), steps[|steps| - 1];
      Dropped(cfg, steps[..|steps| - 1])
      + if Enabled(w, step)
        then iset rec | rec in w.audit.stored && !Spares(cfg.policy, w, step, rec.server, rec.id, rec.list)
        else iset{}
  }

  /** With either policy, every write a server handled is in its row unless a later step of the run
      took it from there. */
  lemma {:induction false} RunKeepsUndropped(cfg: Config, steps: seq<Step>)
    ensures forall rec <- Exec(cfg, steps).audit.stored | rec !in Dropped(cfg, steps) ::
      Holds(Exec(cfg, steps), rec.server, rec.id, rec.list)
  {
    hide Apply, Enabled, HistoryInv, Holds, Spares, Tracked;
    if steps != [] {
      var front, step := steps[..|steps| - 1], steps[|steps| - 1];
      RunKeepsUndropped(cfg, front);
      var w := Exec(cfg, front);
      if Enabled(w, step) {
        RunHistory(cfg, front);
        forall rec | rec in Exec(cfg, steps).audit.stored && rec !in Dropped(cfg, steps)
          ensures Holds(Exec(cfg, steps), rec.server, rec.id, rec.list)
        {
          StepKeepsUndropped(cfg, w, step, rec);
        }
      }
    }
  }

  lemma StepKeepsUndropped(cfg: Config, w: World, step: Step, rec: StoreRec)
    requires Tracked(w) && HistoryInv(w) && Enabled(w, step) && rec in Apply(cfg, w, step).audit.stored
    requires rec in w.audit.stored ==>
      Holds(w, rec.server, rec.id, rec.list) && Spares(cfg.policy, w, step, rec.server, rec.id, rec.list)
    ensures Holds(Apply(cfg, w, step), rec.server, rec.id, rec.list)
  {
    hide Apply, HistoryInv, Spares, Tracked, MapLe, MergeMap;
    if rec in w.audit.stored {
      HoldsAfterSparedIff(cfg, w, step, rec.server, rec.id, rec.list);
    } else {
      NewRecords(cfg, w, step, rec);
      MapLeReflexive(rec.list);
      if cfg.policy.Merged? {
        if step.Deliver? { DeliverStores(cfg, w, step.msg, step.attempts); }
        else { CompleteStores(cfg, w, step.server, step.req); }
      } else {
        RowAfter(cfg, w, step, rec.server, rec.id);
      }
    }
  }

  /** With merged rows the writes dropped are those whose row was deleted. */
  lemma {:induction false} MergedDropsLost(cfg: Config, steps: seq<Step>)
    requires cfg.policy.Merged?
    ensures forall rec :: rec in Dropped(cfg, steps) <==> rec in Exec(cfg, steps).audit.lost
  {
    hide Apply, Enabled, Written;
    if steps != [] {
      MergedDropsLost(cfg, steps[..|steps| - 1]);
      var w, step := Exec(cfg, steps[..|steps| - 1]), steps[|steps| - 1];
      if Enabled(w, step) {
        LostRecords(cfg, w, step);
      }
    }
  }

  /** So, with either policy, each of the three servers that had to handle an acknowledged write
      holds it unless a later step took it from the row. */
  lemma AcknowledgedUndropped(cfg: Config, steps: seq<Step>, req: nat, i: nat)
    requires req in Exec(cfg, steps).audit.acked && req !in Exec(cfg, steps).audit.repeated && i < REPLICAS
    ensures var w := Exec(cfg, steps);
      && req in w.audit.plans && |w.audit.plans[req].slots| == REPLICAS - 1
      && var rec := RecordAt(w.audit.plans[req], req, i);
         && rec in w.audit.stored
         && (rec !in Dropped(cfg, steps) ==> Holds(w, rec.server, rec.id, rec.list))
  {
    hide Exec, Dropped, Holds, PlanOk;
    AcknowledgedWriteHeld(cfg, steps, req);
    RunKeepsUndropped(cfg, steps);
  }
}

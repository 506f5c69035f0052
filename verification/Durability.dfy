/** What an acknowledged write is worth.  With merged rows, a server that handled a write holds it
    until it deletes its own row of that list, and it deletes that row only in a handoff pass,
    after a handoff of that list was delivered to it.  So a write acknowledged without handoffs
    stays on every server of its preference list that was never handed the list, and whoever
    becomes coordinator after any removals that spare one of them has it; a handoff to a server
    of the preference list can lose it. */
module Durability {
  import opened Basics
  import opened CrdtValues
  import opened Quantity
  import opened History
  import opened RingValues
  import opened RingMembership
  import opened Protocol
  import opened Cluster
  import opened ClusterRings
  import opened RequestTracking
  import opened ClusterHistory
  import opened Growth
  import opened WriteQuorum
  import opened HintedHandoff

  /** Every write a server handled, and whose row it has not deleted since, is in its row. */
  ghost predicate StoredStays(w: World) {
    forall rec <- w.audit.stored | rec !in w.audit.lost :: Holds(w, rec.server, rec.id, rec.list)
  }

  /** A handled write message. */
  ghost predicate NewByDelivery(e: Envelope, rec: StoreRec) {
    && (e.msg.Handoff? || (e.msg.ReplicateList? && e.msg.write))
    && rec.server == e.dst && rec.id == e.msg.id && rec.list == e.msg.list
  }

  /** A completed write at its coordinator. */
  ghost predicate NewByCompletion(s: Uuid, r: Request, rec: StoreRec) {
    r.kind.Write? && rec.server == s && rec.id == r.id && rec.list == r.list
  }

  lemma DeliveryRecords(a: Audit, e: Envelope, rows: Rows, rec: StoreRec)
    ensures rec in RecordDelivery(a, e, rows).stored ==> rec in a.stored || NewByDelivery(e, rec)
    ensures a.stored <= RecordDelivery(a, e, rows).stored && RecordDelivery(a, e, rows).lost == a.lost
  {}

  lemma StartRecordsNothing(w: World, s: Uuid, r: Reaction, hs: Hashes)
    ensures var a := RecordStart(w, s, r, hs); a.stored == w.audit.stored && a.lost == w.audit.lost
  {
    hide Replicas;
  }

  lemma DeliverRecords(cfg: Config, w: World, m: nat, attempts: seq<Attempt>, rec: StoreRec)
    requires m in w.net
    ensures var a := ApplyDeliver(cfg, w, m, attempts).audit;
      && (rec in a.stored ==> rec in w.audit.stored || NewByDelivery(w.net[m], rec))
      && w.audit.stored <= a.stored && a.lost == w.audit.lost
  {
    hide Handle, Batch, PeerOf, RecordStart, RecordDelivery, NewByDelivery;
    var e, w1 := w.net[m], w.(net := w.net - {m});
    StartRecordsNothing(w1, e.dst, Handle(cfg, e.dst, PeerOf(w, e.dst), e, attempts, w.nextReq), cfg.hashes);
    DeliveryRecords(w.audit, e, PeerOf(w, e.dst).rows, rec);
  }

  lemma FinishRecords(cfg: Config, w: World, s: Uuid, req: nat, ok: bool, rec: StoreRec)
    requires Waiting(w, s, req)
    ensures var a := ApplyFinish(cfg, w, s, req, ok).audit;
      && (rec in a.stored ==> rec in w.audit.stored || (ok && NewByCompletion(s, PeerOf(w, s).reqs[req], rec)))
      && w.audit.stored <= a.stored && a.lost == w.audit.lost
  {
    hide Finish, Batch;
  }

  /** The records a step adds. */
  lemma NewRecords(cfg: Config, w: World, step: Step, rec: StoreRec)
    requires Enabled(w, step) && rec in Apply(cfg, w, step).audit.stored
    ensures rec in w.audit.stored
      || (step.Deliver? && NewByDelivery(w.net[step.msg], rec))
      || (step.Complete? && NewByCompletion(step.server, PeerOf(w, step.server).reqs[step.req], rec))
  {
    hide ApplyDeliver, ApplyFinish, Batch, HintsOf, AddNode, RemoveNode, EditItem, OpOf, Fetched,
         NewByDelivery, NewByCompletion;
    match step {
      case Deliver(m, attempts) => DeliverRecords(cfg, w, m, attempts, rec);
      case Complete(s, req) => FinishRecords(cfg, w, s, req, true, rec);
      case GiveUp(s, req) => FinishRecords(cfg, w, s, req, false, rec);
      case _ =>
    }
  }

  /** Only the deletion of a row loses records, and it loses all of that row; no record is
      dropped. */
  lemma LostRecords(cfg: Config, w: World, step: Step)
    requires Enabled(w, step)
    ensures Apply(cfg, w, step).audit.lost ==
      if step.DeleteHinted? then RecordDeletion(w.audit, step.server, step.id).lost else w.audit.lost
    ensures w.audit.stored <= Apply(cfg, w, step).audit.stored
  {
    hide ApplyDeliver, ApplyFinish, Batch, HintsOf, AddNode, RemoveNode, EditItem, OpOf, Fetched;
    var any := StoreRec(Tag(0, 0), 0, 0, map[], None);
    match step {
      case Deliver(m, attempts) => DeliverRecords(cfg, w, m, attempts, any);
      case Complete(s, req) => FinishRecords(cfg, w, s, req, true, any);
      case GiveUp(s, req) => FinishRecords(cfg, w, s, req, false, any);
      case _ =>
    }
  }

  lemma StepKeepsStored(cfg: Config, w: World, step: Step)
    requires cfg.policy.Merged? && Tracked(w) && HistoryInv(w) && StoredStays(w) && Enabled(w, step)
    ensures StoredStays(Apply(cfg, w, step))
  {
    hide Tracked, HistoryInv, Holds, Apply, FoldMerge, MergeMap;
    var w' := Apply(cfg, w, step);
    LostRecords(cfg, w, step);
    forall rec | rec in w'.audit.stored && rec !in w'.audit.lost ensures Holds(w', rec.server, rec.id, rec.list) {
      NewRecords(cfg, w, step, rec);
      if rec in w.audit.stored {
        HoldsAfterIff(cfg, w, step, rec.server, rec.id, rec.list);
      } else if step.Deliver? {
        DeliverStores(cfg, w, step.msg, step.attempts);
      } else {
        CompleteStores(cfg, w, step.server, step.req);
      }
    }
  }

  /** In every run. */
  lemma {:induction false} RunKeepsStored(cfg: Config, steps: seq<Step>)
    requires cfg.policy.Merged?
    ensures StoredStays(Exec(cfg, steps))
  {
    hide Apply, Enabled, Tracked, HistoryInv, Holds;
    if steps != [] {
      hide StoredStays;
      RunKeepsStored(cfg, steps[..|steps| - 1]);
      RunHistory(cfg, steps[..|steps| - 1]);
      var w := Exec(cfg, steps[..|steps| - 1]);
      if Enabled(w, steps[|steps| - 1]) {
        StepKeepsStored(cfg, w, steps[|steps| - 1]);
      }
    }
  }

  // ---------- only a handoff of the list can lose it ----------

  /** A handoff of the list was delivered to the server. */
  ghost predicate HandedTo(a: Audit, s: Uuid, id: Uuid) {
    exists rec <- a.stored :: rec.server == s && rec.id == id && rec.standsFor.Some?
  }

  ghost predicate OnlyHandedAtRisk(w: World) {
    && (forall s: Uuid, id: Uuid :: Clean(PeerOf(w, s), id) || HandedTo(w.audit, s, id))
    && (forall rec <- w.audit.lost :: HandedTo(w.audit, rec.server, rec.id))
  }

  lemma HandedStays(a: Audit, a': Audit, s: Uuid, id: Uuid)
    requires HandedTo(a, s, id) && a.stored <= a'.stored
    ensures HandedTo(a', s, id)
  {}

  lemma HandOverRecorded(cfg: Config, w: World, step: Step, s: Uuid, id: Uuid)
    requires Enabled(w, step) && HandsOver(w, step, s, id)
    ensures HandedTo(Apply(cfg, w, step).audit, s, id)
  {
    hide Handle, Batch;
    var e := w.net[step.msg];
    var rec := StoreRec(Tag(e.req, e.slot), e.dst, id, e.msg.list, Some(e.msg.original));
    assert rec in Apply(cfg, w, step).audit.stored;
  }

  lemma StepRisksOnlyHanded(cfg: Config, w: World, step: Step)
    requires Enabled(w, step) && OnlyHandedAtRisk(w)
    ensures OnlyHandedAtRisk(Apply(cfg, w, step))
  {
    hide Apply, Clean, HandedTo, HandsOver;
    var w' := Apply(cfg, w, step);
    LostRecords(cfg, w, step);
    forall s: Uuid, id: Uuid ensures Clean(PeerOf(w', s), id) || HandedTo(w'.audit, s, id) {
      if HandsOver(w, step, s, id) {
        HandOverRecorded(cfg, w, step, s, id);
      } else if Clean(PeerOf(w, s), id) {
        StepKeepsClean(cfg, w, step, s, id);
      } else {
        HandedStays(w.audit, w'.audit, s, id);
      }
    }
    forall rec | rec in w'.audit.lost ensures HandedTo(w'.audit, rec.server, rec.id) {
      if rec !in w.audit.lost {
        assert !Clean(PeerOf(w, rec.server), rec.id) by { DeletableNotClean(w, rec.server, rec.id); }
      }
      HandedStays(w.audit, w'.audit, rec.server, rec.id);
    }
  }

  lemma DeletableNotClean(w: World, s: Uuid, id: Uuid)
    requires Enabled(w, DeleteHinted(s, id))
    ensures !Clean(PeerOf(w, s), id)
  {}

  /** In every run, with either policy, only a server that was handed a list deletes its row of
      that list. */
  lemma {:induction false} RunRisksOnlyHanded(cfg: Config, steps: seq<Step>)
    ensures OnlyHandedAtRisk(Exec(cfg, steps))
  {
    hide Apply, Enabled, HandedTo;
    if steps != [] {
      hide OnlyHandedAtRisk;
      RunRisksOnlyHanded(cfg, steps[..|steps| - 1]);
      var w := Exec(cfg, steps[..|steps| - 1]);
      if Enabled(w, steps[|steps| - 1]) {
        StepRisksOnlyHanded(cfg, w, steps[|steps| - 1]);
      }
    }
  }

  // ---------- acknowledged writes ----------

  /** The record of the write at the i-th server that had to handle it: the coordinator, then
      the servers of the slots. */
  function RecordAt(plan: Plan, req: nat, i: nat): StoreRec
    requires i <= |plan.slots|
  {
    if i == 0 then OwnRec(plan, req) else SlotRec(plan, Tag(req, i - 1))
  }

  /** In every run, an acknowledged write no message of which was duplicated was handled by its
      coordinator and by the servers of two slots, and each of them holds it unless it has
      deleted its row of the list since. */
  lemma AcknowledgedWriteHeld(cfg: Config, steps: seq<Step>, req: nat)
    requires req in Exec(cfg, steps).audit.acked && req !in Exec(cfg, steps).audit.repeated
    ensures var w := Exec(cfg, steps);
      && req in w.audit.plans
      && var plan := w.audit.plans[req];
         && |plan.slots| == REPLICAS - 1 && PlanOk(cfg.hashes, plan)
         && forall i | 0 <= i <= |plan.slots| ::
              && RecordAt(plan, req, i) in w.audit.stored
              && (cfg.policy.Merged? && RecordAt(plan, req, i) !in w.audit.lost ==>
                    Holds(w, RecordAt(plan, req, i).server, plan.id, plan.list))
  {
    hide Exec, MsgCounted, HeardOk, RequestCounted, Holds, Tracked, PlanOk;
    var w := Exec(cfg, steps);
    RunCounted(cfg, steps);
    if cfg.policy.Merged? {
      RunKeepsStored(cfg, steps);
    }
    assert AckedOk(w.audit, req);
    var plan := w.audit.plans[req];
    forall i | 0 <= i <= |plan.slots|
      ensures RecordAt(plan, req, i) in w.audit.stored
      ensures cfg.policy.Merged? && RecordAt(plan, req, i) !in w.audit.lost ==>
        Holds(w, RecordAt(plan, req, i).server, plan.id, plan.list)
    {
      if i > 0 {
        assert SlotRec(plan, Tag(req, i - 1)) in w.audit.stored;
      }
    }
  }

  /** The write was handed to no fallback. */
  ghost predicate NoHandoff(plan: Plan) {
    forall i | 0 <= i < |plan.slots| :: plan.slots[i].Sent?
  }

  /** The write was handed to no fallback, by a coordinator first in its own preference list. */
  ghost predicate Direct(hs: Hashes, plan: Plan) {
    var pref := PreferenceList(hs, plan.ring, plan.id);
    NoHandoff(plan) && pref != [] && pref[0] == plan.coordinator
  }

  /** No deleted row of a server outside the set held the write. */
  ghost predicate Intact(a: Audit, req: nat, gone: set<Uuid>) {
    forall rec <- a.lost | rec.tag.req == req :: rec.server in gone
  }

  lemma RecordServers(hs: Hashes, plan: Plan, req: nat)
    requires PlanOk(hs, plan) && Direct(hs, plan) && |plan.slots| == REPLICAS - 1
    ensures var pref := PreferenceList(hs, plan.ring, plan.id);
      |pref| == REPLICAS && forall i | 0 <= i < |pref| :: RecordAt(plan, req, i).server == pref[i]
  {
    hide Preference;
    PreferenceShape(plan.ring, hs.list(plan.id), REPLICAS);
    var pref := PreferenceList(hs, plan.ring, plan.id);
    forall i | 0 < i < |pref| ensures RecordAt(plan, req, i).server == pref[i] {
      assert plan.slots[i - 1].replica == plan.replicas[i - 1] == pref[i];
    }
  }

  /** Acknowledged with no handoff by a coordinator first in its own list: every server of the
      preference list that is not in the set holds the write, if none of them has deleted it. */
  lemma AcknowledgedEverywhere(cfg: Config, steps: seq<Step>, req: nat, gone: set<Uuid>)
    requires cfg.policy.Merged? && req in Exec(cfg, steps).audit.acked && req !in Exec(cfg, steps).audit.repeated
    requires Intact(Exec(cfg, steps).audit, req, gone)
    ensures req in Exec(cfg, steps).audit.plans
    ensures var plan := Exec(cfg, steps).audit.plans[req];
      var pref := PreferenceList(cfg.hashes, plan.ring, plan.id);
      Direct(cfg.hashes, plan) ==>
        |pref| == REPLICAS
        && forall i | 0 <= i < |pref| && pref[i] !in gone :: Holds(Exec(cfg, steps), pref[i], plan.id, plan.list)
  {
    hide Exec, Preference, Holds, PlanOk, Direct;
    AcknowledgedWriteHeld(cfg, steps, req);
    var w := Exec(cfg, steps);
    var plan := w.audit.plans[req];
    var pref := PreferenceList(cfg.hashes, plan.ring, plan.id);
    if Direct(cfg.hashes, plan) {
      RecordServers(cfg.hashes, plan, req);
      forall i | 0 <= i < |pref| && pref[i] !in gone ensures Holds(w, pref[i], plan.id, plan.list) {
        assert RecordAt(plan, req, i).tag.req == req;
      }
    }
  }

  /** The condition in terms of deliveries: no server of the preference list outside the set was
      ever handed the list. */
  ghost predicate NeverHanded(hs: Hashes, a: Audit, plan: Plan, gone: set<Uuid>) {
    forall n <- PreferenceList(hs, plan.ring, plan.id) | n !in gone :: !HandedTo(a, n, plan.id)
  }

  lemma NeverHandedHeld(cfg: Config, steps: seq<Step>, req: nat, gone: set<Uuid>)
    requires cfg.policy.Merged? && req in Exec(cfg, steps).audit.acked && req !in Exec(cfg, steps).audit.repeated
    ensures req in Exec(cfg, steps).audit.plans
    ensures var plan := Exec(cfg, steps).audit.plans[req];
      var pref := PreferenceList(cfg.hashes, plan.ring, plan.id);
      Direct(cfg.hashes, plan) && NeverHanded(cfg.hashes, Exec(cfg, steps).audit, plan, gone) ==>
        |pref| == REPLICAS
        && forall i | 0 <= i < |pref| && pref[i] !in gone ::
             && Holds(Exec(cfg, steps), pref[i], plan.id, plan.list)
             && Clean(PeerOf(Exec(cfg, steps), pref[i]), plan.id)
  {
    hide Exec, Preference, Holds, PlanOk, Direct, HandedTo, Clean;
    AcknowledgedWriteHeld(cfg, steps, req);
    RunRisksOnlyHanded(cfg, steps);
    var w := Exec(cfg, steps);
    var plan := w.audit.plans[req];
    var pref := PreferenceList(cfg.hashes, plan.ring, plan.id);
    if Direct(cfg.hashes, plan) && NeverHanded(cfg.hashes, w.audit, plan, gone) {
      RecordServers(cfg.hashes, plan, req);
      forall i | 0 <= i < |pref| && pref[i] !in gone
        ensures Holds(w, pref[i], plan.id, plan.list) && Clean(PeerOf(w, pref[i]), plan.id)
      {
        assert pref[i] in pref;
        assert RecordAt(plan, req, i) !in w.audit.lost;
      }
    }
  }

  /** After removing any set of servers that leaves one of the preference list, the new
      coordinator is one of those left and, unless one of those left was handed the list, its
      row contains the write. */
  lemma AcknowledgedWriteSurvives(cfg: Config, steps: seq<Step>, req: nat, gone: set<Uuid>)
    requires cfg.policy.Merged? && req in Exec(cfg, steps).audit.acked && req !in Exec(cfg, steps).audit.repeated
    ensures req in Exec(cfg, steps).audit.plans
    ensures var a := Exec(cfg, steps).audit;
      var plan := a.plans[req];
      var pref := PreferenceList(cfg.hashes, plan.ring, plan.id);
      var after := PreferenceList(cfg.hashes, RemoveServers(plan.ring, gone), plan.id);
      Direct(cfg.hashes, plan) && (exists n <- pref :: n !in gone) ==>
        && after != [] && after[0] in pref && after[0] !in gone
        && (Intact(a, req, gone) || NeverHanded(cfg.hashes, a, plan, gone) ==>
              Holds(Exec(cfg, steps), after[0], plan.id, plan.list))
  {
    hide Exec, Preference, Holds, RemoveServers, Direct, Intact, NeverHanded, PlanOk;
    AcknowledgedWriteHeld(cfg, steps, req);
    NeverHandedHeld(cfg, steps, req, gone);
    var plan := Exec(cfg, steps).audit.plans[req];
    if Intact(Exec(cfg, steps).audit, req, gone) {
      AcknowledgedEverywhere(cfg, steps, req, gone);
    }
    if Direct(cfg.hashes, plan) && exists n <- PreferenceList(cfg.hashes, plan.ring, plan.id) :: n !in gone {
      SurvivingCoordinator(plan.ring, cfg.hashes.list(plan.id), REPLICAS, gone);
    }
  }

  /** The same of the program's own operations: with distinct hashes, after any joins and leaves
      that end with some of the servers the write's ring had, one of them on its preference
      list. */
  lemma AcknowledgedSurvivesChanges(cfg: Config, universe: set<Uuid>, steps: seq<Step>, req: nat,
                                    changes: seq<Change>, n: Uuid)
    requires NoCollisions(cfg.hashes, VNODES, universe) && NodesWithin(steps, universe)
    requires forall c <- changes :: c.node in universe
    requires cfg.policy.Merged? && req in Exec(cfg, steps).audit.acked && req !in Exec(cfg, steps).audit.repeated
    ensures req in Exec(cfg, steps).audit.plans
    ensures var a := Exec(cfg, steps).audit;
      var plan := a.plans[req];
      var left := MembersAfter(plan.ring.Values, changes);
      var pref := PreferenceList(cfg.hashes, plan.ring, plan.id);
      var after := PreferenceList(cfg.hashes, ApplyChanges(cfg.hashes, VNODES, plan.ring, changes), plan.id);
      var gone := plan.ring.Values - left;
      Direct(cfg.hashes, plan) && left <= plan.ring.Values && n in pref && n in left ==>
        && after != [] && after[0] in pref && after[0] in left && n in after
        && (Intact(a, req, gone) || NeverHanded(cfg.hashes, a, plan, gone) ==>
              Holds(Exec(cfg, steps), after[0], plan.id, plan.list))
  {
    hide Exec, Preference, Holds, RemoveServers, Direct, Intact, NeverHanded, Represents, NoCollisions;
    RunRings(cfg, universe, steps);
    var a := Exec(cfg, steps).audit;
    if req in a.plans {
      var plan := a.plans[req];
      assert RingOk(cfg.hashes, universe, plan.ring);
      var left := MembersAfter(plan.ring.Values, changes);
      if left <= plan.ring.Values && n in PreferenceList(cfg.hashes, plan.ring, plan.id) && n in left {
        ChangesRemove(cfg.hashes, VNODES, universe, plan.ring, plan.ring.Values, changes);
        SurvivorsAfterChanges(cfg.hashes, VNODES, universe, plan.ring, plan.ring.Values, changes,
                              cfg.hashes.list(plan.id), REPLICAS, n);
      }
    }
    var members := if req in a.plans then a.plans[req].ring.Values else {};
    var gone := members - MembersAfter(members, changes);
    AcknowledgedWriteSurvives(cfg, steps, req, gone);
  }

  // ---------- the condition is exact ----------

  /** In every run, a held state outlives every handoff pass of its server exactly when the row is
      clean there, as it is on a server never handed the list. */
  lemma HeldKeptIff(cfg: Config, steps: seq<Step>, n: Uuid, id: Uuid, list: ItemMap)
    requires cfg.policy.Merged? && Holds(Exec(cfg, steps), n, id, list)
    ensures (forall pass | OwnPass(pass, n) :: Holds(Exec(cfg, steps + pass), n, id, list))
      <==> Clean(PeerOf(Exec(cfg, steps), n), id)
    ensures !HandedTo(Exec(cfg, steps).audit, n, id) ==> Clean(PeerOf(Exec(cfg, steps), n), id)
  {
    hide Exec, ExecFrom, Holds, Clean, OwnPass, HandedTo;
    var w := Exec(cfg, steps);
    RunKeepsPasses(cfg, steps);
    RunRisksOnlyHanded(cfg, steps);
    PassesKeepIff(cfg, w, n, id, list);
    forall pass: seq<Step> ensures Exec(cfg, steps + pass) == ExecFrom(cfg, w, pass) {
      ExecContinues(cfg, steps, pass);
    }
  }

  /** Each of the three servers that had to handle an acknowledged write, and has not deleted its
      row since, has it, and keeps it through every handoff pass of its own exactly when the
      row is clean there. */
  lemma AcknowledgedKeptIff(cfg: Config, steps: seq<Step>, req: nat, i: nat)
    requires cfg.policy.Merged? && req in Exec(cfg, steps).audit.acked && req !in Exec(cfg, steps).audit.repeated
    ensures req in Exec(cfg, steps).audit.plans && |Exec(cfg, steps).audit.plans[req].slots| == REPLICAS - 1
    ensures var w := Exec(cfg, steps);
      var plan := w.audit.plans[req];
      i < REPLICAS && RecordAt(plan, req, i) !in w.audit.lost ==>
        var n := RecordAt(plan, req, i).server;
        && Holds(w, n, plan.id, plan.list)
        && ((forall pass | OwnPass(pass, n) :: Holds(Exec(cfg, steps + pass), n, plan.id, plan.list))
            <==> Clean(PeerOf(w, n), plan.id))
        && (!HandedTo(w.audit, n, plan.id) ==> Clean(PeerOf(w, n), plan.id))
  {
    hide Exec, Holds, Clean, OwnPass, HandedTo, PlanOk;
    AcknowledgedWriteHeld(cfg, steps, req);
    var plan := Exec(cfg, steps).audit.plans[req];
    if i < REPLICAS && RecordAt(plan, req, i) !in Exec(cfg, steps).audit.lost {
      HeldKeptIff(cfg, steps, RecordAt(plan, req, i).server, plan.id, plan.list);
    }
  }

  /** A delivered handoff marks the row, so from there some pass deletes it. */
  lemma HandoffLosesRow(cfg: Config, w: World, m: nat) returns (pass: seq<Step>)
    requires PassesOk(w) && Enabled(w, Deliver(m, [])) && w.net[m].msg.Handoff?
    ensures var s, id := w.net[m].dst, w.net[m].msg.id;
      OwnPass(pass, s) && id !in PeerOf(ExecFrom(cfg, w, [Deliver(m, [])] + pass), s).rows
  {
    hide Apply, OwnPass, PassesOk;
    var w1 := Apply(cfg, w, Deliver(m, []));
    StepKeepsPasses(cfg, w, Deliver(m, []));
    HandoffMarks(cfg, w, m);
    pass := PassThatLoses(cfg, w1, w.net[m].dst, w.net[m].msg.id);
    ExecCons(cfg, w, Deliver(m, []), pass);
  }

  lemma HandoffMarks(cfg: Config, w: World, m: nat)
    requires Enabled(w, Deliver(m, [])) && w.net[m].msg.Handoff?
    ensures !Clean(PeerOf(Apply(cfg, w, Deliver(m, [])), w.net[m].dst), w.net[m].msg.id)
  {
    hide MergeMap, Batch, RecordDelivery;
  }

  /** Whenever a handoff of a list is on its way to a server that holds a state of it, the server
      can lose that state: the handoff is delivered and then a pass of its own deletes the
      row. */
  lemma HandoffCanLoseHeld(cfg: Config, steps: seq<Step>, m: nat, list: ItemMap)
    requires Enabled(Exec(cfg, steps), Deliver(m, [])) && Exec(cfg, steps).net[m].msg.Handoff?
    requires var e := Exec(cfg, steps).net[m]; Holds(Exec(cfg, steps), e.dst, e.msg.id, list)
    ensures var e := Exec(cfg, steps).net[m];
      exists pass :: OwnPass(pass, e.dst)
        && !Holds(Exec(cfg, steps + ([Deliver(m, [])] + pass)), e.dst, e.msg.id, list)
  {
    hide Exec, ExecFrom, OwnPass;
    var w := Exec(cfg, steps);
    RunKeepsPasses(cfg, steps);
    var pass := HandoffLosesRow(cfg, w, m);
    ExecContinues(cfg, steps, [Deliver(m, [])] + pass);
    assert !Holds(Exec(cfg, steps + ([Deliver(m, [])] + pass)), w.net[m].dst, w.net[m].msg.id, list);
  }
}

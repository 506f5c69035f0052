/** Where handed-off writes go.  When a send of a write fails, the coordinator searches the ring
    from the last replica for an available server; this module ties the outcome of each send to
    that search and counts the servers a completed write sits on.  The search starts from the
    same server for every replica and skips nobody, so two handoffs of one write can go to one
    server, to a replica of the write, or back to the coordinator. */
module Fallbacks {
  import opened Basics
  import opened CrdtValues
  import opened Quantity
  import opened History
  import opened RingValues
  import opened RingMembership
  import opened RingSearch
  import opened Protocol
  import opened Cluster
  import opened FallbackSearch
  import opened ClusterRings
  import opened RequestTracking
  import opened Growth
  import opened WriteQuorum
  import opened Durability

  // ---------- over runs ----------

  ghost predicate HoldersFound(plan: Plan) {
    plan.replicas != [] &&
    forall slot <- plan.slots | slot.Handed? :: After(plan.ring, plan.replicas[|plan.replicas| - 1], slot.holder)
  }

  lemma {:induction false} SlotsFound(ring: Ring, last: Uuid, replicas: seq<Uuid>, attempts: seq<Attempt>)
    requires FoundAfterLast(ring, last, attempts)
    ensures forall slot <- SlotsOf(replicas, attempts) | slot.Handed? :: After(ring, last, slot.holder)
  {
    if replicas != [] && attempts != [] {
      assert forall a <- attempts[1..] :: a in attempts;
      SlotsFound(ring, last, replicas[1..], attempts[1..]);
      assert attempts[0] in attempts;
    } else if replicas != [] {
      SlotsFound(ring, last, replicas[1..], []);
    }
  }

  lemma StartedPlan(cfg: Config, w: World, s: Uuid, e: Envelope, attempts: seq<Attempt>)
    requires FromClient(e.msg) && w.nextReq !in PeerOf(w, s).reqs && w.nextReq !in w.audit.plans
    ensures var a := RecordStart(w, s, Handle(cfg, s, PeerOf(w, s), e, attempts, w.nextReq), cfg.hashes);
      w.nextReq in a.plans ==>
        var plan := a.plans[w.nextReq];
        && plan.ring == PeerOf(w, s).ring && plan.replicas == Replicas(cfg.hashes, plan.ring, e.msg.id) != []
        && plan.slots == SlotsOf(plan.replicas, attempts)
  {
    hide Replicas, SlotsOf, StartWrite;
    StartWriteShape(cfg.hashes, s, PeerOf(w, s), e.src, e.msg.id, e.msg.list, attempts, w.nextReq);
  }

  lemma DeliveredPlan(cfg: Config, w: World, m: nat, attempts: seq<Attempt>, req: nat)
    requires Tracked(w) && Enabled(w, Deliver(m, attempts)) && req in Apply(cfg, w, Deliver(m, attempts)).audit.plans
    ensures var e, plan := w.net[m], Apply(cfg, w, Deliver(m, attempts)).audit.plans[req];
      (req in w.audit.plans && plan == w.audit.plans[req])
      || (FromClient(e.msg) && plan.ring == PeerOf(w, e.dst).ring
          && plan.replicas == Replicas(cfg.hashes, plan.ring, e.msg.id) != []
          && plan.slots == SlotsOf(plan.replicas, attempts))
  {
    hide Handle, Replicas, SlotsOf, Batch, Tracked, RecordStart, RecordDelivery;
    var e, w1 := w.net[m], w.(net := w.net - {m});
    assert PeerOf(w1, e.dst) == PeerOf(w, e.dst);
    FreshRequest(w, e.dst);
    FreshPlan(w);
    DeliveryPlans(w.audit, e, PeerOf(w, e.dst).rows);
    if FromClient(e.msg) {
      StartedPlan(cfg, w1, e.dst, e, attempts);
      RecordStartKeeps(cfg, w1, e.dst, Handle(cfg, e.dst, PeerOf(w, e.dst), e, attempts, w.nextReq));
    }
  }

  lemma OtherPlans(cfg: Config, w: World, step: Step, req: nat)
    requires Enabled(w, step) && !step.Deliver? && req in Apply(cfg, w, step).audit.plans
    ensures req in w.audit.plans && Apply(cfg, w, step).audit.plans[req] == w.audit.plans[req]
  {
    hide Finish, Batch, HintsOf, AddNode, RemoveNode, EditItem, OpOf, Fetched;
  }

  lemma {:induction false} RunHoldersFound(cfg: Config, steps: seq<Step>)
    requires SearchedRun(cfg, steps)
    ensures forall req <- Exec(cfg, steps).audit.plans :: HoldersFound(Exec(cfg, steps).audit.plans[req])
  {
    hide Apply, Enabled, Tracked, Replicas, HoldersFound;
    if steps != [] {
      var front, step := steps[..|steps| - 1], steps[|steps| - 1];
      assert front + [step] == steps;
      SearchedPrefix(cfg, front, step);
      RunHoldersFound(cfg, front);
      var w := Exec(cfg, front);
      RunTracked(cfg, front);
      if Enabled(w, step) {
        forall req | req in Apply(cfg, w, step).audit.plans ensures HoldersFound(Apply(cfg, w, step).audit.plans[req]) {
          StepHoldersFound(cfg, w, step, req);
        }
      }
    }
  }

  lemma StepHoldersFound(cfg: Config, w: World, step: Step, req: nat)
    requires Tracked(w) && Enabled(w, step) && Searched(cfg, w, step) && req in Apply(cfg, w, step).audit.plans
    requires forall k <- w.audit.plans :: HoldersFound(w.audit.plans[k])
    ensures HoldersFound(Apply(cfg, w, step).audit.plans[req])
  {
    hide Apply, Tracked, Replicas;
    if step.Deliver? {
      DeliveredPlan(cfg, w, step.msg, step.attempts, req);
      var e, plan := w.net[step.msg], Apply(cfg, w, step).audit.plans[req];
      if !(req in w.audit.plans && plan == w.audit.plans[req]) {
        SlotsFound(plan.ring, plan.replicas[|plan.replicas| - 1], plan.replicas, step.attempts);
      }
    } else {
      OtherPlans(cfg, w, step, req);
    }
  }

  // ---------- how many servers hold a completed write ----------

  /** The servers that had to handle the write. */
  function Handlers(plan: Plan): set<Uuid> {
    {plan.coordinator} + set slot | slot in plan.slots :: Server(slot)
  }

  function HandedSlots(plan: Plan): set<nat> {
    set i | 0 <= i < |plan.slots| && plan.slots[i].Handed?
  }

  /** Each handoff may cost one distinct server, and no more. */
  lemma HandlersAtLeast(hs: Hashes, plan: Plan)
    requires PlanOk(hs, plan) && |plan.slots| == REPLICAS - 1
    requires var pref := PreferenceList(hs, plan.ring, plan.id); pref != [] && pref[0] == plan.coordinator
    ensures |Handlers(plan)| + |HandedSlots(plan)| >= REPLICAS
  {
    hide Preference;
    var pref := PreferenceList(hs, plan.ring, plan.id);
    PreferenceShape(plan.ring, hs.list(plan.id), REPLICAS);
    var sent := set i | 0 <= i < |plan.slots| && plan.slots[i].Sent? :: pref[i + 1];
    forall n | n in sent ensures n in Handlers(plan) && n != plan.coordinator {
      var i :| 0 <= i < |plan.slots| && plan.slots[i].Sent? && n == pref[i + 1];
      assert plan.slots[i] in plan.slots && Server(plan.slots[i]) == plan.replicas[i] == pref[i + 1];
    }
    SubsetSize(sent + {plan.coordinator}, Handlers(plan));
    TwoSlots(plan, pref, sent);
  }

  lemma TwoSlots(plan: Plan, pref: seq<Uuid>, sent: set<Uuid>)
    requires |plan.slots| == 2 && |pref| == 3 && pref[1] != pref[2]
    requires sent == set i | 0 <= i < |plan.slots| && plan.slots[i].Sent? :: pref[i + 1]
    ensures |sent| + |HandedSlots(plan)| == 2
  {
    var one, two := plan.slots[0].Sent?, plan.slots[1].Sent?;
    forall n ensures n in sent <==> (one && n == pref[1]) || (two && n == pref[2]) {
      if one && n == pref[1] { assert plan.slots[0].Sent? && n == pref[0 + 1]; }
      if two && n == pref[2] { assert plan.slots[1].Sent? && n == pref[1 + 1]; }
    }
    TwoChoices(sent, pref[1], one, pref[2], two);
    TwoChoices(HandedSlots(plan), 0, !one, 1, !two);
  }

  lemma TwoChoices(s: set<nat>, x: nat, hasX: bool, y: nat, hasY: bool)
    requires x != y && forall n :: n in s <==> (hasX && n == x) || (hasY && n == y)
    ensures |s| == (if hasX then 1 else 0) + (if hasY then 1 else 0)
  {
    assert s == (if hasX then {x} else {}) + (if hasY then {y} else {});
  }

  /** In a run whose fallbacks come from the search, an acknowledged write whose coordinator is first
      in its own list was handled by at least as many distinct servers as there are slots
      without a handoff, and one more, all of them on the coordinator's ring; on a ring of
      three servers handoffs reach no further server. */
  lemma AcknowledgedWriteSpread(cfg: Config, steps: seq<Step>, req: nat)
    requires SearchedRun(cfg, steps)
    requires req in Exec(cfg, steps).audit.acked && req !in Exec(cfg, steps).audit.repeated
    ensures req in Exec(cfg, steps).audit.plans
    ensures var w := Exec(cfg, steps);
      var plan := w.audit.plans[req];
      var pref := PreferenceList(cfg.hashes, plan.ring, plan.id);
      pref != [] && pref[0] == plan.coordinator ==>
        && |Handlers(plan)| + |HandedSlots(plan)| >= REPLICAS
        && Handlers(plan) <= plan.ring.Values
        && (forall n <- Handlers(plan) :: exists rec <- w.audit.stored :: rec.tag.req == req && rec.server == n)
  {
    hide Exec, Preference, Holds, PlanOk, After, SearchedRun;
    var w := Exec(cfg, steps);
    AcknowledgedWriteHeld(cfg, steps, req);
    RunHoldersFound(cfg, steps);
    var plan := w.audit.plans[req];
    var pref := PreferenceList(cfg.hashes, plan.ring, plan.id);
    if pref != [] && pref[0] == plan.coordinator {
      HandlersAtLeast(cfg.hashes, plan);
      HandlersOnRing(cfg.hashes, plan);
      forall n | n in Handlers(plan) ensures exists rec <- w.audit.stored :: rec.tag.req == req && rec.server == n {
        var i := HandlerIndex(plan, req, n);
        assert RecordAt(plan, req, i) in w.audit.stored;
      }
    }
  }

  lemma HandlerIndex(plan: Plan, req: nat, n: Uuid) returns (i: nat)
    requires n in Handlers(plan)
    ensures i <= |plan.slots| && RecordAt(plan, req, i).server == n
  {
    if n == plan.coordinator {
      i := 0;
    } else {
      var slot :| slot in plan.slots && Server(slot) == n;
      var j :| 0 <= j < |plan.slots| && plan.slots[j] == slot;
      i := j + 1;
    }
  }

  lemma HandlersOnRing(hs: Hashes, plan: Plan)
    requires PlanOk(hs, plan) && HoldersFound(plan)
    requires var pref := PreferenceList(hs, plan.ring, plan.id); pref != [] && pref[0] == plan.coordinator
    ensures Handlers(plan) <= plan.ring.Values
  {
    hide Preference, After;
    var pref := PreferenceList(hs, plan.ring, plan.id);
    PreferenceShape(plan.ring, hs.list(plan.id), REPLICAS);
    assert pref[0] in pref;
    forall i | 0 <= i < |plan.slots| ensures Server(plan.slots[i]) in plan.ring.Values {
      assert plan.slots[i] in plan.slots;
      if plan.slots[i].Handed? {
        AfterOnRing(plan.ring, plan.replicas[|plan.replicas| - 1], plan.slots[i].holder);
      } else {
        assert pref[i + 1] in pref;
      }
    }
  }
}

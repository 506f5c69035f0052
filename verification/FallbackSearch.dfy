/** The search for a fallback, tied to the writes of a run: which servers it can find, and which
    attempts a run can have if its fallbacks come from it. */
module FallbackSearch {
  import opened Basics
  import opened RingSearch
  import opened RingValues
  import opened Protocol
  import opened Cluster

  // ---------- the servers a search can find ----------

  /** n is some number of `next_node` steps after s. */
  ghost predicate After(ring: Ring, s: Uuid, n: Uuid) {
    exists k: nat :: NthNext(ring, s, k) == Some(n)
  }

  /** A fallback is an available server of the ring, found after the last replica. */
  lemma SearchFinds(ring: Ring, up: Uuid -> bool, last: Uuid, budget: nat)
    requires Search(NextIn(ring), up, last, last, budget).Found?
    ensures var n := Search(NextIn(ring), up, last, last, budget).node; up(n) && After(ring, last, n)
  {
    hide Search, NthNext;
    SearchIs(ring, up, last, budget, Search(NextIn(ring), up, last, last, budget).node);
  }

  lemma AfterOnRing(ring: Ring, s: Uuid, n: Uuid)
    requires After(ring, s, n)
    ensures n in ring.Values
  {
    hide NextNode;
    var k: nat :| NthNext(ring, s, k) == Some(n);
    NextNodeDefined(ring, if k == 0 then s else NthNext(ring, s, k - 1).value);
  }

  // ---------- what becomes of each send ----------

  /** A send that reaches the transport is delivered; one that fails is handed to the first available
      server met from the last replica, if one is met within the budget and not after the
      last replica itself, and to nobody otherwise. */
  ghost predicate SendOutcome(ring: Ring, last: Uuid, fate: Fate, budget: nat, attempt: Attempt) {
    match fate
    case Reached => attempt == Delivered
    case Unreached(up) =>
      || (attempt.Fallback? && exists k: nat | k < budget :: FirstAvailable(ring, up, last, attempt.node, k))
      || (attempt.NoFallback? && forall n: Uuid, k: nat | k < budget :: !FirstAvailable(ring, up, last, n, k))
  }

  lemma AttemptIs(ring: Ring, last: Uuid, fate: Fate, budget: nat)
    ensures SendOutcome(ring, last, fate, budget, AttemptOf(ring, last, fate, budget))
  {
    hide Search, FirstAvailable;
    if fate.Unreached? {
      var found := Search(NextIn(ring), fate.up, last, last, budget);
      if found.Found? {
        SearchIs(ring, fate.up, last, budget, found.node);
      } else {
        forall n: Uuid, k: nat | k < budget ensures !FirstAvailable(ring, fate.up, last, n, k) {
          SearchIs(ring, fate.up, last, budget, n);
        }
      }
    }
  }

  lemma {:induction false} AttemptsAre(ring: Ring, last: Uuid, fates: seq<Fate>, budget: nat, i: nat)
    requires i < |fates|
    ensures |AttemptsOf(ring, last, fates, budget)| == |fates|
    ensures SendOutcome(ring, last, fates[i], budget, AttemptsOf(ring, last, fates, budget)[i])
  {
    hide AttemptOf, SendOutcome;
    AttemptIs(ring, last, fates[0], budget);
    if |fates| > 1 {
      AttemptsAre(ring, last, fates[1..], budget, if i > 0 then i - 1 else 0);
    }
  }

  /** Sends beyond those listed reach the transport. */
  function FateAt(fates: seq<Fate>, i: nat): Fate {
    if i < |fates| then fates[i] else Reached
  }

  ghost predicate SlotOutcome(ring: Ring, last: Uuid, replica: Uuid, fate: Fate, budget: nat, slot: Slot) {
    && slot.replica == replica
    && (slot.Sent? <==> fate.Reached?)
    && (slot.Handed? ==> exists k: nat | k < budget :: FirstAvailable(ring, fate.up, last, slot.holder, k))
  }

  ghost predicate NoneFound(ring: Ring, last: Uuid, fate: Fate, budget: nat) {
    fate.Unreached? && forall n: Uuid, k: nat | k < budget :: !FirstAvailable(ring, fate.up, last, n, k)
  }

  /** What the sends of a write leave behind: a slot for each replica in order, sent to it or handed
      to an available server, up to the first failed send for which no server was found. */
  ghost predicate SlotsFollow(ring: Ring, last: Uuid, replicas: seq<Uuid>, fates: seq<Fate>, budget: nat,
                              slots: seq<Slot>)
  {
    && |slots| <= |replicas|
    && (forall i | 0 <= i < |slots| :: SlotOutcome(ring, last, replicas[i], FateAt(fates, i), budget, slots[i]))
    && (|slots| < |replicas| ==> NoneFound(ring, last, FateAt(fates, |slots|), budget))
  }

  function Rest(fates: seq<Fate>): seq<Fate> {
    if fates == [] then [] else fates[1..]
  }

  lemma ConsFollows(ring: Ring, last: Uuid, replicas: seq<Uuid>, fates: seq<Fate>, budget: nat,
                    slot: Slot, tail: seq<Slot>)
    requires replicas != [] && SlotOutcome(ring, last, replicas[0], FateAt(fates, 0), budget, slot)
    requires SlotsFollow(ring, last, replicas[1..], Rest(fates), budget, tail)
    ensures SlotsFollow(ring, last, replicas, fates, budget, [slot] + tail)
  {
    hide SlotOutcome, NoneFound;
    var slots := [slot] + tail;
    forall i | 0 <= i < |slots| ensures SlotOutcome(ring, last, replicas[i], FateAt(fates, i), budget, slots[i]) {
      if i > 0 { assert FateAt(fates, i) == FateAt(Rest(fates), i - 1); }
    }
    assert FateAt(fates, |slots|) == FateAt(Rest(fates), |tail|);
  }

  lemma {:induction false} SlotsAre(ring: Ring, last: Uuid, replicas: seq<Uuid>, fates: seq<Fate>, budget: nat)
    ensures SlotsFollow(ring, last, replicas, fates, budget, SlotsOf(replicas, AttemptsOf(ring, last, fates, budget)))
  {
    if replicas != [] {
      hide AttemptOf, SlotOutcome, NoneFound, SendOutcome, SlotsFollow;
      SlotsAre(ring, last, replicas[1..], Rest(fates), budget);
      FirstSlot(ring, last, replicas[0], FateAt(fates, 0), budget);
      var tail := SlotsOf(replicas[1..], AttemptsOf(ring, last, Rest(fates), budget));
      SlotsUnfold(ring, last, replicas, fates, budget);
      match AttemptOf(ring, last, FateAt(fates, 0), budget) {
        case Delivered => ConsFollows(ring, last, replicas, fates, budget, Sent(replicas[0]), tail);
        case Fallback(n) => ConsFollows(ring, last, replicas, fates, budget, Handed(replicas[0], n), tail);
        case NoFallback => NothingFollows(ring, last, replicas, fates, budget);
      }
    }
  }

  lemma NothingFollows(ring: Ring, last: Uuid, replicas: seq<Uuid>, fates: seq<Fate>, budget: nat)
    requires NoneFound(ring, last, FateAt(fates, 0), budget)
    ensures SlotsFollow(ring, last, replicas, fates, budget, [])
  {}

  lemma SlotsUnfold(ring: Ring, last: Uuid, replicas: seq<Uuid>, fates: seq<Fate>, budget: nat)
    requires replicas != []
    ensures SlotsOf(replicas, AttemptsOf(ring, last, fates, budget)) ==
      (var tail := SlotsOf(replicas[1..], AttemptsOf(ring, last, Rest(fates), budget));
       match AttemptOf(ring, last, FateAt(fates, 0), budget)
       case Delivered => [Sent(replicas[0])] + tail
       case Fallback(n) => [Handed(replicas[0], n)] + tail
       case NoFallback => [])
  {
    hide Search;
    if fates != [] {
      assert AttemptsOf(ring, last, fates, budget)[1..] == AttemptsOf(ring, last, Rest(fates), budget);
    }
  }

  lemma FirstSlot(ring: Ring, last: Uuid, replica: Uuid, fate: Fate, budget: nat)
    ensures match AttemptOf(ring, last, fate, budget)
      case Delivered => SlotOutcome(ring, last, replica, fate, budget, Sent(replica))
      case Fallback(n) => SlotOutcome(ring, last, replica, fate, budget, Handed(replica, n))
      case NoFallback => NoneFound(ring, last, fate, budget)
  {
    hide AttemptOf, FirstAvailable;
    AttemptIs(ring, last, fate, budget);
  }

  /** Every fallback among the fates of the sends was found after the last replica. */
  ghost predicate FoundAfterLast(ring: Ring, last: Uuid, attempts: seq<Attempt>) {
    forall a <- attempts | a.Fallback? :: After(ring, last, a.node)
  }

  lemma {:induction false} AttemptsFound(ring: Ring, last: Uuid, fates: seq<Fate>, budget: nat)
    ensures FoundAfterLast(ring, last, AttemptsOf(ring, last, fates, budget))
  {
    if fates != [] {
      AttemptsFound(ring, last, fates[1..], budget);
      if AttemptOf(ring, last, fates[0], budget).Fallback? {
        SearchFinds(ring, fates[0].up, last, budget);
      }
    }
  }

  // ---------- over runs ----------

  /** The step decides the fallbacks of a started write as the program does: by the search. */
  ghost predicate Searched(cfg: Config, w: World, step: Step) {
    step.Deliver? && step.msg in w.net && FromClient(w.net[step.msg].msg) ==>
      var e := w.net[step.msg];
      var replicas := Replicas(cfg.hashes, PeerOf(w, e.dst).ring, e.msg.id);
      replicas != [] ==> FoundAfterLast(PeerOf(w, e.dst).ring, replicas[|replicas| - 1], step.attempts)
  }

  ghost predicate SearchedRun(cfg: Config, steps: seq<Step>) {
    forall i | 0 <= i < |steps| :: Searched(cfg, Exec(cfg, steps[..i]), steps[i])
  }

  lemma {:induction false} SearchedPrefix(cfg: Config, steps: seq<Step>, step: Step)
    requires SearchedRun(cfg, steps + [step])
    ensures SearchedRun(cfg, steps) && Searched(cfg, Exec(cfg, steps), step)
  {
    hide Searched, Exec;
    var longer := steps + [step];
    assert longer[..|steps|] == steps;
    forall i | 0 <= i < |steps| ensures Searched(cfg, Exec(cfg, steps[..i]), steps[i]) {
      assert longer[..i] == steps[..i];
    }
  }

  // ---------- availability that does not change during a search ----------

  /** A stricter form, for examples: the attempts are computed from what happens to each send, with
      an availability that stays the same during one search. */
  ghost predicate Steady(cfg: Config, w: World, step: Step) {
    step.Deliver? && step.msg in w.net && FromClient(w.net[step.msg].msg) ==>
      var e := w.net[step.msg];
      var ring := PeerOf(w, e.dst).ring;
      var replicas := Replicas(cfg.hashes, ring, e.msg.id);
      replicas != [] ==> Computed(ring, replicas[|replicas| - 1], step.attempts)
  }

  ghost predicate Computed(ring: Ring, last: Uuid, attempts: seq<Attempt>) {
    exists fates: seq<Fate>, budget: nat :: attempts == AttemptsOf(ring, last, fates, budget)
  }

  ghost predicate SteadyRun(cfg: Config, steps: seq<Step>) {
    forall i | 0 <= i < |steps| :: Steady(cfg, Exec(cfg, steps[..i]), steps[i])
  }

  lemma SteadyIsSearched(cfg: Config, steps: seq<Step>)
    requires SteadyRun(cfg, steps)
    ensures SearchedRun(cfg, steps)
  {
    hide Exec, Replicas, AttemptsOf, FoundAfterLast;
    forall i | 0 <= i < |steps| ensures Searched(cfg, Exec(cfg, steps[..i]), steps[i]) {
      SteadyStepIsSearched(cfg, Exec(cfg, steps[..i]), steps[i]);
    }
  }

  lemma SteadyStepIsSearched(cfg: Config, w: World, step: Step)
    requires Steady(cfg, w, step)
    ensures Searched(cfg, w, step)
  {
    hide Replicas, AttemptsOf, FoundAfterLast;
    if step.Deliver? && step.msg in w.net && FromClient(w.net[step.msg].msg) {
      var e := w.net[step.msg];
      var ring := PeerOf(w, e.dst).ring;
      var replicas := Replicas(cfg.hashes, ring, e.msg.id);
      if replicas != [] {
        var last := replicas[|replicas| - 1];
        var fates: seq<Fate>, budget: nat :| step.attempts == AttemptsOf(ring, last, fates, budget);
        AttemptsFound(ring, last, fates, budget);
      }
    }
  }

  lemma SteadySnoc(cfg: Config, steps: seq<Step>, step: Step)
    requires SteadyRun(cfg, steps) && Steady(cfg, Exec(cfg, steps), step)
    ensures SteadyRun(cfg, steps + [step])
  {
    hide Steady, Exec;
    var longer := steps + [step];
    forall i | 0 <= i < |longer| ensures Steady(cfg, Exec(cfg, longer[..i]), longer[i]) {
      assert longer[..i] == steps[..i];
    }
    assert steps[..|steps|] == steps;
  }

  /** Steps that deliver nothing choose no fallback. */
  lemma {:induction false} SteadyAppend(cfg: Config, steps: seq<Step>, rest: seq<Step>)
    requires SteadyRun(cfg, steps) && forall step <- rest :: !step.Deliver?
    ensures SteadyRun(cfg, steps + rest)
    decreases |rest|
  {
    hide Exec, SteadyRun;
    if rest == [] {
      assert steps + rest == steps;
    } else {
      var front, last := rest[..|rest| - 1], rest[|rest| - 1];
      SteadyAppend(cfg, steps, front);
      SteadySnoc(cfg, steps + front, last);
      assert (steps + front) + [last] == steps + rest;
    }
  }
}

/** Quantities against history: the counters of a copy that holds every operation add up to
    the sum of every delta ever applied. */
module Conservation {
  import opened Basics
  import opened CrdtValues
  import opened Quantity
  import opened History

  function Amount(d: Option<nat>): nat {
    if d.Some? then d.value else 0
  }

  function Raised(ops: seq<Op>): nat {
    if ops == [] then 0 else
      Raised(ops[..|ops| - 1]) + Amount(ops[|ops| - 1].dp)
  }

  function Lowered(ops: seq<Op>): nat {
    if ops == [] then 0 else
      Lowered(ops[..|ops| - 1]) + Amount(ops[|ops| - 1].dn)
  }

  function RaisedBy(log: Log): Counts {
    map a | a in log :: Raised(log[a])
  }

  function LoweredBy(log: Log): Counts {
    map a | a in log :: Lowered(log[a])
  }

  /** The sum of the deltas of every operation in the log. */
  ghost function LogTotal(log: Log): int {
    Sum(RaisedBy(log)) - Sum(LoweredBy(log))
  }

  lemma AppendRaises(log: Log, me: Uuid, op: Op)
    ensures RaisedBy(Append(log, me, op)) == RaisedBy(log)[me := Raised(Ops(log, me)) + Amount(op.dp)]
    ensures LoweredBy(Append(log, me, op)) == LoweredBy(log)[me := Lowered(Ops(log, me)) + Amount(op.dn)]
  {
    assert (Ops(log, me) + [op])[..|Ops(log, me)|] == Ops(log, me);
  }

  lemma AppendTotal(log: Log, me: Uuid, op: Op)
    ensures LogTotal(Append(log, me, op)) == LogTotal(log) + Delta(op)
  {
    hide Sum, RaisedBy, LoweredBy;
    AppendRaises(log, me, op);
    SumUpdate(RaisedBy(log), me, Raised(Ops(log, me)) + Amount(op.dp));
    SumUpdate(LoweredBy(log), me, Lowered(Ops(log, me)) + Amount(op.dn));
    CountRaised(log, me);
  }

  lemma CountRaised(log: Log, a: Uuid)
    ensures Count(RaisedBy(log), a) == Raised(Ops(log, a))
    ensures Count(LoweredBy(log), a) == Lowered(Ops(log, a))
  {}

  lemma EmptyTotal()
    ensures LogTotal(map[]) == 0
  {
    assert RaisedBy(map[]) == map[] && LoweredBy(map[]) == map[];
  }

  lemma {:induction false} PartTotals(ops: seq<Op>)
    ensures Raised(ops) == Amount(PartOf(ops).p) && Lowered(ops) == Amount(PartOf(ops).n)
  {
    if ops != [] {
      PartTotals(ops[..|ops| - 1]);
    }
  }

  lemma SumWithout(x: Counts, a: Uuid)
    ensures Sum(x) == Count(x, a) + Sum(x - {a})
  {
    hide Sum;
    if a in x {
      SumRemove(x, a);
    } else {
      assert x - {a} == x;
    }
  }

  ghost predicate SameCounts(x: Counts, y: Counts) {
    forall a: Uuid :: Count(x, a) == Count(y, a)
  }

  lemma SameCountsWithout(x: Counts, y: Counts, a: Uuid)
    requires SameCounts(x, y)
    ensures Count(x, a) == Count(y, a) && SameCounts(x - {a}, y - {a})
  {
    forall b: Uuid ensures Count(x - {a}, b) == Count(y - {a}, b) {
      assert Count(x, b) == Count(y, b);
    }
  }

  /** Sums depend on the entries only, not on which zero entries are present. */
  lemma {:induction false} SumsEqual(x: Counts, y: Counts)
    requires SameCounts(x, y)
    ensures Sum(x) == Sum(y)
    decreases x.Keys + y.Keys
  {
    if x == map[] && y == map[] {
    } else {
      var a :| a in x || a in y;
      SumWithout(x, a);
      SumWithout(y, a);
      SameCountsWithout(x, y, a);
      SumsEqual(x - {a}, y - {a});
    }
  }

  ghost predicate Complete(log: Log, cut: Cut) {
    forall a <- log :: At(cut, a) == |log[a]|
  }

  /** A copy that holds every operation shows the sum of every delta. */
  lemma CompleteTotal(log: Log, cut: Cut, x: Item)
    requires Shows(log, cut, x) && Complete(log, cut)
    ensures Sum(x.p) - Sum(x.n) == LogTotal(log)
  {
    hide Sum, Raised, Lowered;
    forall a: Uuid
      ensures Count(x.p, a) == Count(RaisedBy(log), a) && Count(x.n, a) == Count(LoweredBy(log), a)
    {
      ShowsAt(log, cut, x, a);
      assert a in log ==> log[a][..|log[a]|] == log[a];
      PartTotals(Ops(log, a)[..At(cut, a)]);
    }
    SumsEqual(x.p, RaisedBy(log));
    SumsEqual(x.n, LoweredBy(log));
  }

  /** No copy holds more of an actor than the actor's own complete copy. */
  lemma OwnEntriesLargest(log: Log, c: Cut, x: Item, d: Cut, own: Item, a: Uuid)
    requires WellFormed(log) && Shows(log, c, x) && Shows(log, d, own) && At(d, a) == |Ops(log, a)|
    ensures a in x.p ==> a in own.p && x.p[a] <= own.p[a]
    ensures a in x.n ==> a in own.n && x.n[a] <= own.n[a]
  {
    ShowsAt(log, c, x, a);
    ShowsAt(log, d, own, a);
    PartGrows(log, a, At(c, a), At(d, a));
  }
}

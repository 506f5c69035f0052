/** The ghost history of one item: what every client did to it, and what it means for a
    copy of the item to be the effect of some of those operations.

    A `Cut` takes a prefix of each actor's operations.  `Shows(log, cut, x)` says that `x` is
    the effect of exactly the operations in the cut.  Merging two copies is the effect of
    the union of their cuts, and two copies with the same cut are equal. */
module History {
  import opened Basics
  import opened CrdtValues
  import opened Quantity

  /** One edit: what it adds to the editor's own two counter entries (`None`: the entry is
      not touched) and the register it writes, if any. */
  datatype Op = Op(dp: Option<nat>, dn: Option<nat>, reg: Option<Reg>)

  /** The operations of each actor on one item, oldest first. */
  type Log = map<Uuid, seq<Op>>

  /** How many of each actor's operations are included. */
  type Cut = map<Uuid, nat>

  /** What one actor's operations contribute to the item. */
  datatype Part = Part(p: Option<nat>, n: Option<nat>, reg: Option<Reg>)

  function Ops(log: Log, a: Uuid): seq<Op> {
    if a in log then log[a] else []
  }

  function At(cut: Cut, a: Uuid): nat {
    if a in cut then cut[a] else 0
  }

  function Plus(x: Option<nat>, d: Option<nat>): Option<nat> {
    if d.None? then x else if x.None? then d else Some(x.value + d.value)
  }

  function PartOf(ops: seq<Op>): Part {
    if ops == [] then Part(None, None, None) else
      var part, op := PartOf(ops[..|ops| - 1]), ops[|ops| - 1];
      Part(Plus(part.p, op.dp), Plus(part.n, op.dn), if op.reg.Some? then op.reg else part.reg)
  }

  ghost predicate IsCut(log: Log, cut: Cut) {
    forall a <- cut :: cut[a] <= |Ops(log, a)|
  }

  function PartAt(log: Log, cut: Cut, a: Uuid): Part
    requires At(cut, a) <= |Ops(log, a)|
  {
    PartOf(Ops(log, a)[..At(cut, a)])
  }

  function Entry(c: Counts, a: Uuid): Option<nat> {
    if a in c then Some(c[a]) else None
  }

  /** `x` is the effect of the operations in `cut`. */
  ghost predicate Shows(log: Log, cut: Cut, x: Item) {
    && IsCut(log, cut)
    && (forall a: Uuid :: Entry(x.p, a) == PartAt(log, cut, a).p)
    && (forall a: Uuid :: Entry(x.n, a) == PartAt(log, cut, a).n)
    && (exists a: Uuid :: PartAt(log, cut, a).reg == Some(x.acquired))
    && (forall a: Uuid :: NotAbove(PartAt(log, cut, a).reg, x.acquired))
  }

  ghost predicate NotAbove(r: Option<Reg>, bound: Reg) {
    r.Some? ==> RegLe(r.value, bound)
  }

  /** Each actor stamps its own registers, with rising clocks. */
  ghost predicate WellStamped(ops: seq<Op>, a: Uuid) {
    forall i | 0 <= i < |ops| && ops[i].reg.Some? ::
      && ops[i].reg.value.actor == a
      && forall j | 0 <= j < i && ops[j].reg.Some? :: ops[j].reg.value.clock < ops[i].reg.value.clock
  }

  ghost predicate WellFormed(log: Log) {
    forall a <- log :: WellStamped(log[a], a)
  }

  // ---------- one actor ----------

  /** The register of a prefix is the one written last. */
  lemma {:induction false} LastRegister(ops: seq<Op>) returns (i: nat)
    requires PartOf(ops).reg.Some?
    ensures i < |ops| && ops[i].reg == PartOf(ops).reg
    ensures forall j | i < j < |ops| :: ops[j].reg.None?
  {
    if ops[|ops| - 1].reg.Some? {
      i := |ops| - 1;
    } else {
      i := LastRegister(ops[..|ops| - 1]);
    }
  }

  lemma {:induction false} NoRegister(ops: seq<Op>, i: nat)
    requires i < |ops| && ops[i].reg.Some?
    ensures PartOf(ops).reg.Some?
  {
    if i < |ops| - 1 {
      NoRegister(ops[..|ops| - 1], i);
    }
  }

  ghost predicate PartLe(x: Part, y: Part) {
    && (x.p.Some? ==> y.p.Some? && x.p.value <= y.p.value)
    && (x.n.Some? ==> y.n.Some? && x.n.value <= y.n.value)
    && (x.reg.Some? ==> y.reg.Some? && RegLe(x.reg.value, y.reg.value))
  }

  lemma {:induction false} PartMonotone(ops: seq<Op>, a: Uuid, i: nat)
    requires WellStamped(ops, a) && i <= |ops|
    ensures PartLe(PartOf(ops[..i]), PartOf(ops))
    decreases |ops|
  {
    if i == |ops| {
      assert ops[..i] == ops;
    } else {
      var front := ops[..|ops| - 1];
      assert front[..i] == ops[..i];
      PartMonotone(front, a, i);
      if PartOf(front).reg.Some? {
        var j := LastRegister(front);
      }
    }
  }

  lemma PartGrows(log: Log, a: Uuid, i: nat, j: nat)
    requires WellFormed(log) && i <= j <= |Ops(log, a)|
    ensures PartLe(PartOf(Ops(log, a)[..i]), PartOf(Ops(log, a)[..j]))
  {
    var ops := Ops(log, a)[..j];
    assert ops[..i] == Ops(log, a)[..i];
    PartMonotone(ops, a, i);
  }

  // ---------- stamps are unique ----------

  /** The operation that wrote a copy's register. */
  lemma RegisterOrigin(log: Log, c: Cut, x: Item) returns (a: Uuid, i: nat)
    requires WellFormed(log) && Shows(log, c, x)
    ensures i < |Ops(log, a)| && Ops(log, a)[i].reg == Some(x.acquired) && x.acquired.actor == a
    ensures PartAt(log, c, a).reg == Some(x.acquired)
  {
    a :| PartAt(log, c, a).reg == Some(x.acquired);
    i := LastRegister(Ops(log, a)[..At(c, a)]);
  }

  lemma StampDeterminesRegister(ops: seq<Op>, a: Uuid, i: nat, j: nat)
    requires WellStamped(ops, a) && i < |ops| && j < |ops|
    requires ops[i].reg.Some? && ops[j].reg.Some?
    requires ops[i].reg.value.clock == ops[j].reg.value.clock
    ensures i == j
  {}

  /** Registers of two copies of one item that carry the same stamp are the same register. */
  lemma StampsUnique(log: Log, c: Cut, x: Item, d: Cut, y: Item)
    requires WellFormed(log) && Shows(log, c, x) && Shows(log, d, y)
    ensures Agree(x.acquired, y.acquired)
  {
    var a, i := RegisterOrigin(log, c, x);
    var b, j := RegisterOrigin(log, d, y);
    if a == b && x.acquired.clock == y.acquired.clock {
      StampDeterminesRegister(Ops(log, a), a, i, j);
    }
  }

  lemma RegisterNotAbove(log: Log, cut: Cut, x: Item, a: Uuid, i: nat)
    requires WellFormed(log) && Shows(log, cut, x)
    requires i < At(cut, a) && i < |Ops(log, a)| && Ops(log, a)[i].reg.Some?
    ensures var r := Ops(log, a)[i].reg.value;
      r.clock < x.acquired.clock || (r.clock == x.acquired.clock && r.actor <= x.acquired.actor)
  {
    ShowsAt(log, cut, x, a);
    hide PartOf, Shows;
    var ops := Ops(log, a)[..At(cut, a)];
    NoRegister(ops, i);
    var last := LastRegister(ops);
    assert ops[i] == Ops(log, a)[i] && ops[last] == Ops(log, a)[last];
  }

  /** The register of a copy is that of the included operation with the lexicographically greatest
      (clock, actor). */
  lemma RegisterIsLatest(log: Log, cut: Cut, x: Item)
    requires WellFormed(log) && Shows(log, cut, x)
    ensures exists a: Uuid, i: nat :: i < At(cut, a) && i < |Ops(log, a)| && Ops(log, a)[i].reg == Some(x.acquired)
    ensures forall a: Uuid, i: nat | i < At(cut, a) && i < |Ops(log, a)| && Ops(log, a)[i].reg.Some? ::
      var r := Ops(log, a)[i].reg.value;
      r.clock < x.acquired.clock || (r.clock == x.acquired.clock && r.actor <= x.acquired.actor)
  {
    forall a: Uuid, i: nat | i < At(cut, a) && i < |Ops(log, a)| && Ops(log, a)[i].reg.Some?
      ensures var r := Ops(log, a)[i].reg.value;
        r.clock < x.acquired.clock || (r.clock == x.acquired.clock && r.actor <= x.acquired.actor)
    {
      RegisterNotAbove(log, cut, x, a, i);
    }
    var b: Uuid :| PartAt(log, cut, b).reg == Some(x.acquired);
    var j := LastRegister(Ops(log, b)[..At(cut, b)]);
    assert Ops(log, b)[j].reg == Some(x.acquired);
  }

  // ---------- the effect of a cut ----------

  /** A cut has one effect. */
  lemma EffectUnique(log: Log, c: Cut, x: Item, y: Item)
    requires Shows(log, c, x) && Shows(log, c, y)
    ensures x == y
  {
    hide PartOf;
    assert x.p == y.p by {
      forall a: Uuid ensures Entry(x.p, a) == Entry(y.p, a) {}
      EntriesEqual(x.p, y.p);
    }
    assert x.n == y.n by {
      forall a: Uuid ensures Entry(x.n, a) == Entry(y.n, a) {}
      EntriesEqual(x.n, y.n);
    }
    var a: Uuid :| PartAt(log, c, a).reg == Some(x.acquired);
    var b: Uuid :| PartAt(log, c, b).reg == Some(y.acquired);
    assert NotAbove(PartAt(log, c, a).reg, y.acquired);
    assert NotAbove(PartAt(log, c, b).reg, x.acquired);
  }

  lemma EntriesEqual(x: Counts, y: Counts)
    requires forall a: Uuid :: Entry(x, a) == Entry(y, a)
    ensures x == y
  {
    forall a: Uuid ensures (a in x <==> a in y) && (a in x ==> x[a] == y[a]) {
      assert Entry(x, a) == Entry(y, a);
    }
  }

  // ---------- the union of two cuts ----------

  function JoinCuts(c: Cut, d: Cut): Cut {
    map a | a in c.Keys + d.Keys :: Max(At(c, a), At(d, a))
  }

  lemma JoinPart(log: Log, c: Cut, d: Cut, a: Uuid)
    requires WellFormed(log) && IsCut(log, c) && IsCut(log, d)
    ensures At(JoinCuts(c, d), a) == Max(At(c, a), At(d, a)) <= |Ops(log, a)|
    ensures PartLe(PartAt(log, c, a), PartAt(log, JoinCuts(c, d), a))
    ensures PartLe(PartAt(log, d, a), PartAt(log, JoinCuts(c, d), a))
    ensures PartAt(log, JoinCuts(c, d), a) in {PartAt(log, c, a), PartAt(log, d, a)}
  {
    var k := Max(At(c, a), At(d, a));
    PartGrows(log, a, At(c, a), k);
    PartGrows(log, a, At(d, a), k);
  }

  /** A register bounded below and above by `r` is `r`. */
  lemma JoinRegister(log: Log, c: Cut, d: Cut, a: Uuid, r: Reg)
    requires WellFormed(log) && IsCut(log, c) && IsCut(log, d)
    requires PartAt(log, c, a).reg == Some(r) || PartAt(log, d, a).reg == Some(r)
    requires NotAbove(PartAt(log, c, a).reg, r) && NotAbove(PartAt(log, d, a).reg, r)
    ensures At(JoinCuts(c, d), a) <= |Ops(log, a)|
    ensures PartAt(log, JoinCuts(c, d), a).reg == Some(r)
  {
    JoinPart(log, c, d, a);
  }

  lemma MergeEntries(x: Counts, y: Counts, a: Uuid)
    ensures Entry(MergeCounts(x, y), a) ==
      if a in x && a in y then Some(Max(x[a], y[a])) else if a in x then Some(x[a]) else Entry(y, a)
  {}

  /** The union of two cuts, for one actor. */
  lemma MergeShowsAt(log: Log, c: Cut, x: Item, d: Cut, y: Item, a: Uuid)
    requires WellFormed(log) && IsCut(log, c) && IsCut(log, d) && Agree(x.acquired, y.acquired)
    requires Entry(x.p, a) == PartAt(log, c, a).p && Entry(y.p, a) == PartAt(log, d, a).p
    requires Entry(x.n, a) == PartAt(log, c, a).n && Entry(y.n, a) == PartAt(log, d, a).n
    requires NotAbove(PartAt(log, c, a).reg, x.acquired)
    requires NotAbove(PartAt(log, d, a).reg, y.acquired)
    ensures At(JoinCuts(c, d), a) <= |Ops(log, a)|
    ensures var part, z := PartAt(log, JoinCuts(c, d), a), MergeItem(x, y);
      && Entry(z.p, a) == part.p && Entry(z.n, a) == part.n && NotAbove(part.reg, z.acquired)
      && NotAbove(PartAt(log, c, a).reg, z.acquired) && NotAbove(PartAt(log, d, a).reg, z.acquired)
  {
    JoinPart(log, c, d, a);
    MergeEntries(x.p, y.p, a);
    MergeEntries(x.n, y.n, a);
  }

  /** Merging two copies is the effect of the union of their operations. */
  lemma MergeShowsUnion(log: Log, c: Cut, x: Item, d: Cut, y: Item)
    requires WellFormed(log) && Shows(log, c, x) && Shows(log, d, y)
    ensures Shows(log, JoinCuts(c, d), MergeItem(x, y))
  {
    hide PartOf, MergeCounts;
    var e, z := JoinCuts(c, d), MergeItem(x, y);
    StampsUnique(log, c, x, d, y);
    forall a: Uuid
      ensures At(e, a) <= |Ops(log, a)|
      ensures Entry(z.p, a) == PartAt(log, e, a).p && Entry(z.n, a) == PartAt(log, e, a).n
      ensures NotAbove(PartAt(log, e, a).reg, z.acquired)
      ensures NotAbove(PartAt(log, c, a).reg, z.acquired)
      ensures NotAbove(PartAt(log, d, a).reg, z.acquired)
    {
      ShowsAt(log, c, x, a);
      ShowsAt(log, d, y, a);
      MergeShowsAt(log, c, x, d, y, a);
    }
    var a, _ := RegisterOrigin(log, c, x);
    var b, _ := RegisterOrigin(log, d, y);
    JoinRegister(log, c, d, if z.acquired == x.acquired then a else b, z.acquired);
    ShowsIntro(log, e, z, if z.acquired == x.acquired then a else b);
  }

  /** The definition of `Shows`, for one actor. */
  lemma ShowsAt(log: Log, cut: Cut, x: Item, a: Uuid)
    requires Shows(log, cut, x)
    ensures At(cut, a) <= |Ops(log, a)|
    ensures Entry(x.p, a) == PartAt(log, cut, a).p && Entry(x.n, a) == PartAt(log, cut, a).n
    ensures NotAbove(PartAt(log, cut, a).reg, x.acquired)
  {}

  lemma ShowsIntro(log: Log, cut: Cut, x: Item, writer: Uuid)
    requires forall a: Uuid ::
      && At(cut, a) <= |Ops(log, a)|
      && Entry(x.p, a) == PartAt(log, cut, a).p && Entry(x.n, a) == PartAt(log, cut, a).n
      && NotAbove(PartAt(log, cut, a).reg, x.acquired)
    requires PartAt(log, cut, writer).reg == Some(x.acquired)
    ensures Shows(log, cut, x)
  {
    forall a | a in cut ensures cut[a] <= |Ops(log, a)| {
      assert At(cut, a) <= |Ops(log, a)|;
    }
  }

  // ---------- order is inclusion of operations ----------

  ghost predicate CutLe(c: Cut, d: Cut) {
    forall a: Uuid :: At(c, a) <= At(d, a)
  }

  /** Some operations explain the two copies such that the second includes those of the first. */
  ghost predicate Includes(log: Log, x: Item, y: Item) {
    exists c: Cut, d: Cut :: Shows(log, c, x) && Shows(log, d, y) && CutLe(c, d)
  }

  lemma LargerCutEntries(log: Log, c: Cut, x: Item, d: Cut, y: Item, a: Uuid)
    requires WellFormed(log) && Shows(log, c, x) && Shows(log, d, y) && CutLe(c, d)
    ensures a in x.p ==> a in y.p && x.p[a] <= y.p[a]
    ensures a in x.n ==> a in y.n && x.n[a] <= y.n[a]
  {
    hide PartOf;
    ShowsAt(log, c, x, a);
    ShowsAt(log, d, y, a);
    PartGrows(log, a, At(c, a), At(d, a));
  }

  lemma LargerCutAbove(log: Log, c: Cut, x: Item, d: Cut, y: Item)
    requires WellFormed(log) && Shows(log, c, x) && Shows(log, d, y) && CutLe(c, d)
    ensures ItemLe(x, y)
  {
    hide PartOf, Shows;
    forall a: Uuid
      ensures a in x.p ==> a in y.p && x.p[a] <= y.p[a]
      ensures a in x.n ==> a in y.n && x.n[a] <= y.n[a]
    {
      LargerCutEntries(log, c, x, d, y, a);
    }
    var a, _ := RegisterOrigin(log, c, x);
    ShowsAt(log, d, y, a);
    CutBoundAt(log, c, x, a);
    PartGrows(log, a, At(c, a), At(d, a));
  }

  lemma CutBoundAt(log: Log, cut: Cut, x: Item, a: Uuid)
    requires Shows(log, cut, x)
    ensures At(cut, a) <= |Ops(log, a)|
  {}

  /** One copy is below another exactly when some operations that explain the second include
      operations that explain the first. */
  lemma BelowIffIncludes(log: Log, c: Cut, x: Item, d: Cut, y: Item)
    requires WellFormed(log) && Shows(log, c, x) && Shows(log, d, y)
    ensures ItemLe(x, y) <==> Includes(log, x, y)
  {
    hide Shows, MergeItem;
    if ItemLe(x, y) {
      MergeShowsUnion(log, c, x, d, y);
      StampsUnique(log, c, x, d, y);
      ItemMergeAbove(x, y);
      ItemLeReflexive(y);
      ItemMergeLeast(x, y, y);
      ItemLeAntisymmetric(MergeItem(x, y), y);
      assert CutLe(c, JoinCuts(c, d));
    } else if Includes(log, x, y) {
      var c', d' :| Shows(log, c', x) && Shows(log, d', y) && CutLe(c', d');
      LargerCutAbove(log, c', x, d', y);
      assert false;
    }
  }

  lemma ItemLeReflexive(x: Item)
    ensures ItemLe(x, x)
  {}

  // ---------- edits extend the log ----------

  function Append(log: Log, me: Uuid, op: Op): Log {
    log[me := Ops(log, me) + [op]]
  }

  /** What a storage request adds to the history. */
  ghost function OpOf(before: Option<Item>, q: nat, acquired: bool, me: Uuid): Op
    requires EditItem(before, q, acquired, me).Some?
  {
    match before
    case None => Op(Some(q), Some(0), Some(Reg(AcquiredVal(acquired), 0, me)))
    case Some(x) =>
      var delta := AsI64(q) - Total(x).value;
      Op(if delta > 0 then Some(delta) else None,
         if delta < 0 then Some(-delta) else None,
         if AcquiredVal(acquired) == x.acquired.val then None
         else Some(Reg(AcquiredVal(acquired), x.acquired.clock + 1, me)))
  }

  /** The change of quantity an operation makes. */
  function Delta(op: Op): int {
    (if op.dp.Some? then op.dp.value else 0) - (if op.dn.Some? then op.dn.value else 0)
  }

  /** An operation changes the quantity by the difference between what is requested and what was
      shown, modulo 2^64. */
  lemma OpDelta(before: Option<Item>, q: nat, acquired: bool, me: Uuid)
    requires q < 0x1_0000_0000_0000_0000 && EditItem(before, q, acquired, me).Some?
    ensures before.None? ==> Delta(OpOf(before, q, acquired, me)) == q
    ensures before.Some? ==>
      && Show(before.value).Some?
      && (Delta(OpOf(before, q, acquired, me)) - (q - Show(before.value).value.0)) % 0x1_0000_0000_0000_0000 == 0
  {
    hide Sum;
  }

  lemma PartOfAppend(log: Log, me: Uuid, op: Op, a: Uuid, k: nat)
    requires k <= |Ops(log, a)|
    ensures k <= |Ops(Append(log, me, op), a)|
    ensures PartOf(Ops(Append(log, me, op), a)[..k]) == PartOf(Ops(log, a)[..k])
  {
    assert Ops(Append(log, me, op), a)[..k] == Ops(log, a)[..k];
  }

  /** Old copies keep their meaning. */
  lemma ShowsAfterAppend(log: Log, cut: Cut, x: Item, me: Uuid, op: Op)
    requires Shows(log, cut, x)
    ensures Shows(Append(log, me, op), cut, x)
  {
    var log' := Append(log, me, op);
    forall a: Uuid
      ensures At(cut, a) <= |Ops(log', a)| && PartAt(log', cut, a) == PartAt(log, cut, a)
    {
      PartOfAppend(log, me, op, a, At(cut, a));
    }
    var a: Uuid :| PartAt(log, cut, a).reg == Some(x.acquired);
    assert PartAt(log', cut, a).reg == Some(x.acquired);
  }

  /** An edit keeps stamps well formed, provided the editor's copy holds all its own
      operations. */
  lemma WellFormedAfterEdit(log: Log, cut: Cut, before: Option<Item>, q: nat, acquired: bool, me: Uuid)
    requires WellFormed(log) && EditItem(before, q, acquired, me).Some?
    requires match before
      case None => Ops(log, me) == []
      case Some(x) => Shows(log, cut, x) && At(cut, me) == |Ops(log, me)|
    ensures WellFormed(Append(log, me, OpOf(before, q, acquired, me)))
  {
    hide Sum, PartOf;
    var op := OpOf(before, q, acquired, me);
    var ops := Ops(log, me);
    assert WellStamped(ops, me);
    if before.Some? && op.reg.Some? {
      var x := before.value;
      forall j | 0 <= j < |ops| && ops[j].reg.Some?
        ensures ops[j].reg.value.clock < op.reg.value.clock
      {
        assert ops[..|ops|] == ops;
        NoRegister(ops, j);
        var i := LastRegister(ops);
        assert NotAbove(PartAt(log, cut, me).reg, x.acquired);
      }
    }
    assert WellStamped(ops + [op], me);
  }

  lemma PartOfSnoc(ops: seq<Op>, op: Op)
    ensures PartOf(ops + [op]) ==
      Part(Plus(PartOf(ops).p, op.dp), Plus(PartOf(ops).n, op.dn),
           if op.reg.Some? then op.reg else PartOf(ops).reg)
  {
    assert (ops + [op])[..|ops|] == ops;
  }

  lemma EditedEntries(x: Item, q: nat, acquired: bool, me: Uuid)
    requires EditedCopy(x, q, acquired, me).Some? && EditItem(Some(x), q, acquired, me).Some?
    ensures var op, y := OpOf(Some(x), q, acquired, me), EditedCopy(x, q, acquired, me).value;
      && Entry(y.p, me) == Plus(Entry(x.p, me), op.dp) && Entry(y.n, me) == Plus(Entry(x.n, me), op.dn)
      && RegLe(x.acquired, y.acquired)
      && y.acquired == if op.reg.Some? then op.reg.value else x.acquired
  {
    hide Sum, Total, AsI64, MergeItem;
  }

  /** The edit of the editor's own part. */
  lemma EditShowsOwn(log: Log, cut: Cut, x: Item, q: nat, acquired: bool, me: Uuid)
    requires EditedCopy(x, q, acquired, me).Some? && EditItem(Some(x), q, acquired, me).Some?
    requires At(cut, me) == |Ops(log, me)|
    requires Entry(x.p, me) == PartAt(log, cut, me).p && Entry(x.n, me) == PartAt(log, cut, me).n
    requires NotAbove(PartAt(log, cut, me).reg, x.acquired)
    ensures
      var op, y := OpOf(Some(x), q, acquired, me), EditedCopy(x, q, acquired, me).value;
      var part := PartOf(Ops(Append(log, me, op), me)[..At(cut, me) + 1]);
      && Entry(y.p, me) == part.p && Entry(y.n, me) == part.n && NotAbove(part.reg, y.acquired)
      && (op.reg.Some? ==> part.reg == Some(y.acquired))
      && (op.reg.None? ==> part.reg == PartAt(log, cut, me).reg && y.acquired == x.acquired)
  {
    hide Sum, PartOf, EditedCopy, OpOf, EditItem, Entry;
    var op := OpOf(Some(x), q, acquired, me);
    var ops := Ops(log, me);
    assert Ops(Append(log, me, op), me)[..At(cut, me) + 1] == ops + [op];
    assert ops[..At(cut, me)] == ops;
    PartOfSnoc(ops, op);
    EditedEntries(x, q, acquired, me);
  }

  lemma EditKeepsOthers(x: Item, q: nat, acquired: bool, me: Uuid, a: Uuid)
    requires EditedCopy(x, q, acquired, me).Some? && a != me
    ensures var y := EditedCopy(x, q, acquired, me).value;
      Entry(y.p, a) == Entry(x.p, a) && Entry(y.n, a) == Entry(x.n, a)
  {}

  /** The edited item is the effect of the old cut and the new operation. */
  lemma EditShows(log: Log, cut: Cut, x: Item, q: nat, acquired: bool, me: Uuid)
    requires EditItem(Some(x), q, acquired, me).Some?
    requires Shows(log, cut, x) && At(cut, me) == |Ops(log, me)|
    ensures Shows(Append(log, me, OpOf(Some(x), q, acquired, me)), cut[me := At(cut, me) + 1],
                  EditItem(Some(x), q, acquired, me).value)
  {
    hide Sum, EditedCopy, PartOf, OpOf;
    hide Sum;
    var op, y := OpOf(Some(x), q, acquired, me), EditItem(Some(x), q, acquired, me).value;
    var log', cut' := Append(log, me, op), cut[me := At(cut, me) + 1];
    MergeWithEditedCopy(x, q, acquired, me);
    forall a: Uuid
      ensures At(cut', a) <= |Ops(log', a)|
      ensures Entry(y.p, a) == PartAt(log', cut', a).p && Entry(y.n, a) == PartAt(log', cut', a).n
      ensures NotAbove(PartAt(log', cut', a).reg, y.acquired)
    {
      ShowsAt(log, cut, x, a);
      if a == me {
        EditShowsOwn(log, cut, x, q, acquired, me);
      } else {
        PartOfAppend(log, me, op, a, At(cut, a));
        EditKeepsOthers(x, q, acquired, me, a);
      }
    }
    var w: Uuid :| PartAt(log, cut, w).reg == Some(x.acquired);
    var writer := if op.reg.Some? then me else w;
    EditShowsOwn(log, cut, x, q, acquired, me);
    PartOfAppend(log, me, op, w, At(cut, w));
    ShowsIntro(log', cut', y, writer);
  }

  lemma CreateShows(log: Log, q: nat, acquired: bool, me: Uuid)
    requires Ops(log, me) == []
    ensures Shows(Append(log, me, OpOf(None, q, acquired, me)), map[me := 1],
                  EditItem(None, q, acquired, me).value)
  {
    var op, y := OpOf(None, q, acquired, me), EditItem(None, q, acquired, me).value;
    var log', cut: Cut := Append(log, me, op), map[me := 1];
    assert Ops(log', me)[..1] == [op];
    assert PartOf([op]) == Part(op.dp, op.dn, op.reg) by { assert [op][..0] == []; }
    forall a: Uuid
      ensures Entry(y.p, a) == PartAt(log', cut, a).p && Entry(y.n, a) == PartAt(log', cut, a).n
      ensures NotAbove(PartAt(log', cut, a).reg, y.acquired)
    {
      if a != me { assert Ops(log', a)[..0] == []; }
    }
    assert PartAt(log', cut, me).reg == Some(y.acquired);
  }
}

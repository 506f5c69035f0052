/** The replicated values of a shopping list and their merges, as mathematical values.

    A G-counter is the map of its per-actor entries; the `actor_id` that the program keeps
    beside the map is local to the object holding it (see CrdtObjects) and is not part of
    the replicated state. */
module CrdtValues {
  import opened Basics

  type Counts = map<Uuid, nat>

  /** The last-writer-wins register. */
  datatype Reg = Reg(val: nat, clock: nat, actor: Uuid)

  /** An item: the two counters of its PN-counter and its register. */
  datatype Item = Item(p: Counts, n: Counts, acquired: Reg)

  type ItemMap = map<string, Item>

  // ---------- merges ----------

  function Count(c: Counts, a: Uuid): nat {
    if a in c then c[a] else 0
  }

  function MergeCounts(x: Counts, y: Counts): Counts {
    map a | a in x.Keys + y.Keys :: Max(Count(x, a), Count(y, a))
  }

  predicate ShouldUpdate(r: Reg, clock: nat, actor: Uuid) {
    if clock > r.clock then true else if clock < r.clock then false else actor > r.actor
  }

  function MergeReg(x: Reg, y: Reg): Reg {
    if ShouldUpdate(x, y.clock, y.actor) then y else x
  }

  function MergeItem(x: Item, y: Item): Item {
    Item(MergeCounts(x.p, y.p), MergeCounts(x.n, y.n), MergeReg(x.acquired, y.acquired))
  }

  function MergeMap(x: ItemMap, y: ItemMap): ItemMap {
    map k | k in x.Keys + y.Keys ::
      if k !in y then x[k] else if k !in x then y[k] else MergeItem(x[k], y[k])
  }

  /** Folds a non-empty sequence of lists from the left, as a quorum read does. */
  function FoldMerge(lists: seq<ItemMap>): ItemMap
    requires lists != []
  {
    if |lists| == 1 then lists[0]
    else MergeMap(FoldMerge(lists[..|lists| - 1]), lists[|lists| - 1])
  }

  /** What a client writes back after fetching: `fetch_list` merges the answer into the list
      it sent, `retrieve_list` merges that into the local list. */
  function Fetched(local: ItemMap, answer: ItemMap): ItemMap {
    MergeMap(local, MergeMap(local, answer))
  }

  function StoredItem(list: ItemMap, name: string): Option<Item> {
    if name in list then Some(list[name]) else None
  }

  // ---------- the order the merges are meant to be the join of ----------

  ghost predicate CountsLe(x: Counts, y: Counts) {
    x.Keys <= y.Keys && forall a <- x :: x[a] <= y[a]
  }

  ghost predicate RegLe(x: Reg, y: Reg) {
    x == y || ShouldUpdate(x, y.clock, y.actor)
  }

  ghost predicate ItemLe(x: Item, y: Item) {
    CountsLe(x.p, y.p) && CountsLe(x.n, y.n) && RegLe(x.acquired, y.acquired)
  }

  ghost predicate MapLe(x: ItemMap, y: ItemMap) {
    x.Keys <= y.Keys && forall k <- x :: ItemLe(x[k], y[k])
  }

  /** Registers with the same stamp carry the same value. */
  ghost predicate Agree(x: Reg, y: Reg) {
    x.clock == y.clock && x.actor == y.actor ==> x.val == y.val
  }

  ghost predicate Coherent(x: ItemMap, y: ItemMap) {
    forall k <- x.Keys * y.Keys :: Agree(x[k].acquired, y[k].acquired)
  }

  ghost predicate PairwiseCoherent(lists: seq<ItemMap>) {
    forall i, j | 0 <= i < |lists| && 0 <= j < |lists| :: Coherent(lists[i], lists[j])
  }

  // ---------- the order is a partial order ----------

  lemma MapLeReflexive(x: ItemMap)
    ensures MapLe(x, x)
  {}

  lemma ItemLeTransitive(x: Item, y: Item, z: Item)
    requires ItemLe(x, y) && ItemLe(y, z)
    ensures ItemLe(x, z)
  {}

  lemma MapLeTransitive(x: ItemMap, y: ItemMap, z: ItemMap)
    requires MapLe(x, y) && MapLe(y, z)
    ensures MapLe(x, z)
  {
    forall k | k in x ensures ItemLe(x[k], z[k]) {
      ItemLeTransitive(x[k], y[k], z[k]);
    }
  }

  lemma ItemLeAntisymmetric(x: Item, y: Item)
    requires ItemLe(x, y) && ItemLe(y, x)
    ensures x == y
  {
    assert x.p == y.p;
    assert x.n == y.n;
  }

  lemma MapLeAntisymmetric(x: ItemMap, y: ItemMap)
    requires MapLe(x, y) && MapLe(y, x)
    ensures x == y
  {
    forall k | k in x ensures x[k] == y[k] {
      ItemLeAntisymmetric(x[k], y[k]);
    }
  }

  /** The merged register is the one with the lexicographically greatest (clock, actor); on equal
      stamps the receiver is kept. */
  lemma MergeRegLatest(x: Reg, y: Reg)
    ensures y.clock > x.clock || (y.clock == x.clock && y.actor > x.actor) ==> MergeReg(x, y) == y
    ensures y.clock < x.clock || (y.clock == x.clock && y.actor <= x.actor) ==> MergeReg(x, y) == x
    ensures Agree(x, y) ==>
      (MergeReg(x, y) == y && x != y <==> y.clock > x.clock || (y.clock == x.clock && y.actor > x.actor))
  {}

  // ---------- what holds of every merge ----------

  lemma ItemMergeAbove(x: Item, y: Item)
    ensures ItemLe(x, MergeItem(x, y))
    ensures ItemLe(y, MergeItem(x, y)) <==> Agree(x.acquired, y.acquired)
  {}

  lemma ItemMergeLeast(x: Item, y: Item, u: Item)
    requires ItemLe(x, u) && ItemLe(y, u)
    ensures ItemLe(MergeItem(x, y), u)
  {}

  /** A merge never loses the receiver's state, and it contains the argument's state exactly
      when the two sides give equal stamps equal values. */
  lemma MergeMapAbove(x: ItemMap, y: ItemMap)
    ensures MapLe(x, MergeMap(x, y))
    ensures MapLe(y, MergeMap(x, y)) <==> Coherent(x, y)
  {
    var m := MergeMap(x, y);
    forall k | k in x.Keys * y.Keys
      ensures ItemLe(x[k], m[k]) && (ItemLe(y[k], m[k]) <==> Agree(x[k].acquired, y[k].acquired))
    {
      ItemMergeAbove(x[k], y[k]);
    }
    if MapLe(y, m) {
      forall k | k in x.Keys * y.Keys ensures Agree(x[k].acquired, y[k].acquired) {
        assert ItemLe(y[k], m[k]);
      }
    }
  }

  lemma MergeMapLeast(x: ItemMap, y: ItemMap, u: ItemMap)
    requires MapLe(x, u) && MapLe(y, u)
    ensures MapLe(MergeMap(x, y), u)
  {
    forall k | k in x.Keys + y.Keys ensures ItemLe(MergeMap(x, y)[k], u[k]) {
      if k in x && k in y {
        ItemMergeLeast(x[k], y[k], u[k]);
      }
    }
  }

  /** Merging an older state into a newer one changes nothing. */
  lemma MergeMapAbsorbs(x: ItemMap, y: ItemMap)
    requires MapLe(y, x)
    ensures MergeMap(x, y) == x
  {
    MergeMapAbove(x, y);
    MapLeReflexive(x);
    MergeMapLeast(x, y, x);
    MapLeAntisymmetric(MergeMap(x, y), x);
  }

  lemma MergeMapIdempotent(x: ItemMap)
    ensures MergeMap(x, x) == x
  {
    MapLeReflexive(x);
    MergeMapAbsorbs(x, x);
  }

  lemma CountOfMerge(x: Counts, y: Counts, a: Uuid)
    ensures Count(MergeCounts(x, y), a) == Max(Count(x, a), Count(y, a))
  {}

  lemma CountsEqual(x: Counts, y: Counts)
    requires x.Keys == y.Keys && forall a <- x :: Count(x, a) == Count(y, a)
    ensures x == y
  {
    assert forall a <- x :: Count(x, a) == x[a] && Count(y, a) == y[a];
  }

  lemma MergeCountsAssociative(x: Counts, y: Counts, z: Counts)
    ensures MergeCounts(MergeCounts(x, y), z) == MergeCounts(x, MergeCounts(y, z))
  {
    var xy, yz := MergeCounts(x, y), MergeCounts(y, z);
    var l, r := MergeCounts(xy, z), MergeCounts(x, yz);
    assert l.Keys == r.Keys;
    forall a | a in l ensures Count(l, a) == Count(r, a) {
      CountOfMerge(x, y, a);
      CountOfMerge(y, z, a);
      CountOfMerge(xy, z, a);
      CountOfMerge(x, yz, a);
    }
    CountsEqual(l, r);
  }

  lemma MergeItemAssociative(x: Item, y: Item, z: Item)
    ensures MergeItem(MergeItem(x, y), z) == MergeItem(x, MergeItem(y, z))
  {
    MergeCountsAssociative(x.p, y.p, z.p);
    MergeCountsAssociative(x.n, y.n, z.n);
    assert MergeReg(MergeReg(x.acquired, y.acquired), z.acquired)
        == MergeReg(x.acquired, MergeReg(y.acquired, z.acquired));
  }

  /** Associativity needs no hypothesis: ties keep the leftmost register on both sides. */
  lemma MergeMapAssociative(x: ItemMap, y: ItemMap, z: ItemMap)
    ensures MergeMap(MergeMap(x, y), z) == MergeMap(x, MergeMap(y, z))
  {
    var l, r := MergeMap(MergeMap(x, y), z), MergeMap(x, MergeMap(y, z));
    assert l.Keys == r.Keys;
    forall k | k in l.Keys ensures l[k] == r[k] {
      if k in x && k in y && k in z {
        MergeItemAssociative(x[k], y[k], z[k]);
      }
    }
  }

  // ---------- commutativity, exactly ----------

  lemma MergeItemCommutesIff(x: Item, y: Item)
    ensures MergeItem(x, y) == MergeItem(y, x) <==> Agree(x.acquired, y.acquired)
  {
    assert MergeCounts(x.p, y.p) == MergeCounts(y.p, x.p);
    assert MergeCounts(x.n, y.n) == MergeCounts(y.n, x.n);
  }

  /** Merging commutes exactly on coherent lists; the tie-break of the register compares
      stamps only, so it cannot commute on two values with one stamp. */
  lemma MergeMapCommutesIff(x: ItemMap, y: ItemMap)
    ensures MergeMap(x, y) == MergeMap(y, x) <==> Coherent(x, y)
  {
    var xy, yx := MergeMap(x, y), MergeMap(y, x);
    forall k | k in x.Keys * y.Keys
      ensures xy[k] == yx[k] <==> Agree(x[k].acquired, y[k].acquired)
    {
      MergeItemCommutesIff(x[k], y[k]);
    }
    if Coherent(x, y) {
      assert xy.Keys == yx.Keys;
    } else {
      var k :| k in x.Keys * y.Keys && !Agree(x[k].acquired, y[k].acquired);
      assert xy[k] != yx[k];
    }
  }

  /** One stamp, two values: each side keeps its own. */
  lemma MergeDoesNotCommute()
    ensures exists x: ItemMap, y: ItemMap :: MergeMap(x, y) != MergeMap(y, x)
  {
    var x: ItemMap := map["milk" := Item(map[], map[], Reg(0, 1, 7))];
    var y: ItemMap := map["milk" := Item(map[], map[], Reg(1, 1, 7))];
    assert "milk" in x.Keys * y.Keys && !Agree(x["milk"].acquired, y["milk"].acquired);
    MergeMapCommutesIff(x, y);
  }

  // ---------- folds: any order, any repetition ----------

  /** Every register of a fold is the register of one of the folded lists. */
  lemma {:induction false} FoldRegisterOrigin(lists: seq<ItemMap>, k: string) returns (i: nat)
    requires lists != [] && k in FoldMerge(lists)
    ensures i < |lists| && k in lists[i]
    ensures lists[i][k].acquired == FoldMerge(lists)[k].acquired
  {
    var last := |lists| - 1;
    if last == 0 {
      i := 0;
    } else {
      var front := FoldMerge(lists[..last]);
      if k in front && (k !in lists[last] ||
                        MergeReg(front[k].acquired, lists[last][k].acquired) == front[k].acquired) {
        i := FoldRegisterOrigin(lists[..last], k);
      } else {
        i := last;
      }
    }
  }

  lemma FoldCoherentWith(lists: seq<ItemMap>, y: ItemMap)
    requires lists != [] && forall i | 0 <= i < |lists| :: Coherent(lists[i], y)
    ensures Coherent(FoldMerge(lists), y)
  {
    forall k | k in FoldMerge(lists).Keys * y.Keys
      ensures Agree(FoldMerge(lists)[k].acquired, y[k].acquired)
    {
      var i := FoldRegisterOrigin(lists, k);
      assert k in lists[i].Keys * y.Keys;
    }
  }

  /** The fold of pairwise coherent lists is an upper bound of all of them. */
  lemma {:induction false} FoldAbove(lists: seq<ItemMap>, i: nat)
    requires i < |lists| && PairwiseCoherent(lists)
    ensures MapLe(lists[i], FoldMerge(lists))
  {
    var last := |lists| - 1;
    if last == 0 {
      MapLeReflexive(lists[0]);
    } else {
      var front := lists[..last];
      forall j | 0 <= j < |front| ensures Coherent(front[j], lists[last]) {
        assert front[j] == lists[j];
      }
      FoldCoherentWith(front, lists[last]);
      MergeMapAbove(FoldMerge(front), lists[last]);
      if i < last {
        FoldAbove(front, i);
        assert front[i] == lists[i];
        MapLeTransitive(lists[i], FoldMerge(front), FoldMerge(lists));
      }
    }
  }

  lemma {:induction false} FoldLeast(lists: seq<ItemMap>, u: ItemMap)
    requires lists != [] && forall i | 0 <= i < |lists| :: MapLe(lists[i], u)
    ensures MapLe(FoldMerge(lists), u)
  {
    var last := |lists| - 1;
    if last > 0 {
      FoldLeast(lists[..last], u);
      MergeMapLeast(FoldMerge(lists[..last]), lists[last], u);
    }
  }

  /** The merge of a set of replies does not depend on their order or on repetitions. */
  lemma FoldOrderIndependent(xs: seq<ItemMap>, ys: seq<ItemMap>)
    requires xs != [] && ys != [] && PairwiseCoherent(xs)
    requires forall l :: l in xs <==> l in ys
    ensures FoldMerge(xs) == FoldMerge(ys)
  {
    forall i, j | 0 <= i < |ys| && 0 <= j < |ys| ensures Coherent(ys[i], ys[j]) {
      assert ys[i] in xs && ys[j] in xs;
      var a :| 0 <= a < |xs| && xs[a] == ys[i];
      var b :| 0 <= b < |xs| && xs[b] == ys[j];
      assert Coherent(xs[a], xs[b]);
    }
    FoldBelow(xs, ys);
    FoldBelow(ys, xs);
    MapLeAntisymmetric(FoldMerge(xs), FoldMerge(ys));
  }

  lemma FoldBelow(xs: seq<ItemMap>, ys: seq<ItemMap>)
    requires xs != [] && ys != [] && PairwiseCoherent(ys)
    requires forall i | 0 <= i < |xs| :: xs[i] in ys
    ensures MapLe(FoldMerge(xs), FoldMerge(ys))
  {
    forall i | 0 <= i < |xs| ensures MapLe(xs[i], FoldMerge(ys)) {
      var j :| 0 <= j < |ys| && ys[j] == xs[i];
      FoldAbove(ys, j);
    }
    FoldLeast(xs, FoldMerge(ys));
  }
}

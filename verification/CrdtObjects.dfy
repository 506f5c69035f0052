/** The replicated objects that the program mutates in place.  Each method is specified by the
    value functions of CrdtValues and Quantity. */
module CrdtObjects {
  import opened Basics
  import opened CrdtValues
  import opened Quantity

  /** A grow-only counter; `actorId` is the entry that local increments go to. */
  class GCounter {
    var counter: Counts
    var actorId: Uuid

    constructor (actor: Uuid)
      ensures counter == map[] && actorId == actor
    {
      counter, actorId := map[], actor;
    }

    constructor WithCount(actor: Uuid, count: nat)
      ensures counter == map[actor := count] && actorId == actor
    {
      counter, actorId := map[actor := count], actor;
    }

    constructor Read(entries: Counts, actor: Uuid)
      ensures counter == entries && actorId == actor
    {
      counter, actorId := entries, actor;
    }

    /** False if the addition overflows, which ends the program. */
    method IncBy(k: nat) returns (ok: bool)
      modifies this`counter
      ensures ok <==> Quantity.IncBy(old(counter), actorId, k).Some?
      ensures counter == if ok then Quantity.IncBy(old(counter), actorId, k).value else old(counter)
      ensures var entry := if actorId in old(counter) then old(counter)[actorId] else 0;
        && (ok <==> entry + k < 0x1_0000_0000_0000_0000)
        && counter == if ok then old(counter)[actorId := entry + k] else old(counter)
    {
      var entry := Count(counter, actorId);
      ok := entry + k < U64;
      if ok {
        counter := counter[actorId := entry + k];
      }
    }

    method Inc() returns (ok: bool)
      modifies this`counter
      ensures ok <==> Quantity.IncBy(old(counter), actorId, 1).Some?
      ensures counter == if ok then Quantity.IncBy(old(counter), actorId, 1).value else old(counter)
      ensures var entry := if actorId in old(counter) then old(counter)[actorId] else 0;
        && (ok <==> entry + 1 < 0x1_0000_0000_0000_0000)
        && counter == if ok then old(counter)[actorId := entry + 1] else old(counter)
    {
      ok := IncBy(1);
    }

    /** The sum of all entries, or `None` on overflow. */
    method ValueTotal() returns (total: Option<nat>)
      ensures total == if Sum(counter) < U64 then Some(Sum(counter)) else None
    {
      hide Sum;
      var todo: Counts, sum := counter, 0;
      while todo != map[]
        invariant sum < U64 && Sum(counter) == sum + Sum(todo)
        decreases |todo|
      {
        var a :| a in todo;
        SumRemove(todo, a);
        if sum + todo[a] >= U64 {
          return None;
        }
        sum := sum + todo[a];
        todo := todo - {a};
      }
      NoEntries();
      total := Some(sum);
    }

    /** Keeps the receiver's `actorId`. */
    method Merge(other: GCounter)
      modifies this`counter
      ensures counter == MergeCounts(old(counter), old(other.counter))
      ensures forall a: Uuid :: Count(counter, a) == Max(Count(old(counter), a), Count(old(other.counter), a))
    {
      var todo := other.counter.Keys;
      var theirs := other.counter;
      ghost var mine := counter;
      assert MergeCounts(mine, theirs - todo) == mine by { assert theirs - todo == map[]; }
      while todo != {}
        invariant todo <= theirs.Keys
        invariant counter == MergeCounts(mine, theirs - todo)
        decreases |todo|
      {
        var a: Uuid :| a in todo;
        MergeOneEntry(mine, theirs, todo, a);
        counter := counter[a := Max(theirs[a], Count(counter, a))];
        todo := todo - {a};
      }
      assert theirs - todo == theirs;
    }
  }

  lemma NoEntries()
    ensures Sum(map[]) == 0
  {}

  /** One iteration of the counter's merge loop, on values. */
  lemma MergeOneEntry(mine: Counts, theirs: Counts, todo: set<Uuid>, a: Uuid)
    requires a in todo && todo <= theirs.Keys
    ensures var now := MergeCounts(mine, theirs - todo);
      now[a := Max(theirs[a], Count(now, a))] == MergeCounts(mine, theirs - (todo - {a}))
  {
    var now, next := MergeCounts(mine, theirs - todo), MergeCounts(mine, theirs - (todo - {a}));
    forall b: Uuid | b != a ensures Count(theirs - todo, b) == Count(theirs - (todo - {a}), b) {}
    assert (theirs - (todo - {a})).Keys == (theirs - todo).Keys + {a};
    CountOfMerge(mine, theirs - todo, a);
  }

  class LWWReg {
    var val: nat
    var clock: nat
    var actor: Uuid

    constructor (r: Reg)
      ensures Value() == r
    {
      val, clock, actor := r.val, r.clock, r.actor;
    }

    function Value(): Reg
      reads this
    {
      Reg(val, clock, actor)
    }

    method Set(r: Reg)
      modifies this
      ensures Value() == r
    {
      val, clock, actor := r.val, r.clock, r.actor;
    }

    /** Takes the new value only with a later stamp. */
    method Update(v: nat, c: nat, a: Uuid)
      modifies this
      ensures Value() == MergeReg(old(Value()), Reg(v, c, a))
      ensures Value() ==
        if c > old(clock) || (c == old(clock) && a > old(actor)) then Reg(v, c, a) else old(Value())
    {
      if ShouldUpdate(Value(), c, a) {
        val, clock, actor := v, c, a;
      }
    }

    method Merge(other: LWWReg)
      modifies this
      ensures Value() == MergeReg(old(Value()), old(other.Value()))
      ensures Value() ==
        if old(other.clock) > old(clock) || (old(other.clock) == old(clock) && old(other.actor) > old(actor))
        then old(other.Value()) else old(Value())
    {
      if ShouldUpdate(Value(), other.clock, other.actor) {
        val, clock, actor := other.val, other.clock, other.actor;
      }
    }
  }

  class PNCounter {
    const p: GCounter
    const n: GCounter

    constructor (p: GCounter, n: GCounter)
      ensures this.p == p && this.n == n
    {
      this.p, this.n := p, n;
    }

    constructor WithCount(actor: Uuid, amount: nat)
      ensures fresh(p) && fresh(n) && p != n
      ensures p.counter == map[actor := amount] && n.counter == map[actor := 0]
      ensures p.actorId == actor && n.actorId == actor
    {
      p := new GCounter.WithCount(actor, amount);
      n := new GCounter.WithCount(actor, 0);
    }

    method IncBy(k: nat) returns (ok: bool)
      modifies p`counter
      ensures ok <==> Quantity.IncBy(old(p.counter), p.actorId, k).Some?
      ensures p.counter == if ok then Quantity.IncBy(old(p.counter), p.actorId, k).value else old(p.counter)
    {
      ok := p.IncBy(k);
    }

    method DecBy(k: nat) returns (ok: bool)
      modifies n`counter
      ensures ok <==> Quantity.IncBy(old(n.counter), n.actorId, k).Some?
      ensures n.counter == if ok then Quantity.IncBy(old(n.counter), n.actorId, k).value else old(n.counter)
    {
      ok := n.IncBy(k);
    }

    /** The difference of the two sums as 64-bit signed numbers; `None` on overflow. */
    method ValueTotal() returns (total: Option<int>)
      ensures total == Total(Item(p.counter, n.counter, Reg(0, 0, 0)))
    {
      total := None;
      var up := p.ValueTotal();
      if up.Some? {
        var down := n.ValueTotal();
        if down.Some? && FitsI64(AsI64(up.value) - AsI64(down.value)) {
          total := Some(AsI64(up.value) - AsI64(down.value));
        }
      }
    }

    method Merge(other: PNCounter)
      requires p != n && {p, n} !! {other.p, other.n}
      modifies p`counter, n`counter
      ensures p.counter == MergeCounts(old(p.counter), other.p.counter)
      ensures n.counter == MergeCounts(old(n.counter), other.n.counter)
    {
      p.Merge(other.p);
      n.Merge(other.n);
    }
  }

  /** An item object owns its counters and its register. */
  class ItemObject {
    const amount: PNCounter
    const acquired: LWWReg

    predicate Owned() {
      amount.p != amount.n
    }

    function Footprint(): set<object> {
      {this, amount, amount.p, amount.n, acquired}
    }

    function Value(): Item
      reads amount.p, amount.n, acquired
    {
      Item(amount.p.counter, amount.n.counter, acquired.Value())
    }

    constructor (amount: PNCounter, acquired: LWWReg)
      ensures this.amount == amount && this.acquired == acquired
    {
      this.amount, this.acquired := amount, acquired;
    }

    constructor Read(x: Item)
      ensures Owned() && fresh(Footprint()) && Value() == x
    {
      var p := new GCounter.Read(x.p, 0);
      var n := new GCounter.Read(x.n, 0);
      amount := new PNCounter(p, n);
      acquired := new LWWReg(x.acquired);
    }

    constructor Create(q: nat, acq: bool, me: Uuid)
      ensures Owned() && fresh(Footprint()) && Value() == NewItem(q, acq, me)
      ensures Value() == Item(map[me := q], map[me := 0], Reg(if acq then 1 else 0, 0, me))
    {
      amount := new PNCounter.WithCount(me, q);
      acquired := new LWWReg(Reg(AcquiredVal(acq), 0, me));
    }

    method Clone() returns (copy: ItemObject)
      ensures copy.Owned() && fresh(copy.Footprint()) && copy.Value() == Value()
      ensures copy.amount.p.actorId == amount.p.actorId && copy.amount.n.actorId == amount.n.actorId
    {
      var p := new GCounter.Read(amount.p.counter, amount.p.actorId);
      var n := new GCounter.Read(amount.n.counter, amount.n.actorId);
      var both := new PNCounter(p, n);
      var reg := new LWWReg(acquired.Value());
      copy := new ItemObject(both, reg);
    }

    method Merge(other: ItemObject)
      requires Owned() && Footprint() !! other.Footprint()
      modifies amount.p`counter, amount.n`counter, acquired
      ensures Value() == MergeItem(old(Value()), other.Value())
    {
      amount.Merge(other.amount);
      acquired.Merge(other.acquired);
    }
  }

  /** The map from names to items.  It owns its items, so they are values in the map; an item
      borrowed for an update is an object until it is put back. */
  class AWORMap {
    var items: ItemMap

    constructor ()
      ensures items == map[]
    {
      items := map[];
    }

    constructor Read(entries: ItemMap)
      ensures items == entries
    {
      items := entries;
    }

    /** Inserts an item, or merges it into the one of that name. */
    method Insert(name: string, item: ItemObject)
      modifies this
      ensures items == MergeMap(old(items), map[name := old(item.Value())])
    {
      if name in items {
        var mine := new ItemObject.Read(items[name]);
        mine.Merge(item);
        items := items[name := mine.Value()];
      } else {
        items := items[name := item.Value()];
      }
    }

    /** Merges another map into this one, copying the items it lacks. */
    method Merge(other: AWORMap)
      requires this != other
      modifies this
      ensures items == MergeMap(old(items), other.items)
    {
      hide MergeMap, MergeItem;
      var todo := other.items.Keys;
      ghost var before := items;
      assert other.items - todo == map[];
      MergeNothing(before);
      while todo != {}
        invariant todo <= other.items.Keys
        invariant items == MergeMap(before, other.items - todo)
        decreases |todo|
      {
        var k :| k in todo;
        var theirs := new ItemObject.Read(other.items[k]);
        MergeOneMore(before, other.items, todo, k);
        if k in items {
          var mine := new ItemObject.Read(items[k]);
          mine.Merge(theirs);
          items := items[k := mine.Value()];
        } else {
          items := items[k := theirs.Value()];
        }
        todo := todo - {k};
      }
      assert other.items - todo == other.items;
    }
  }

  lemma MergeNothing(mine: ItemMap)
    ensures MergeMap(mine, map[]) == mine
  {}

  /** One iteration of the map's merge loop, on values. */
  lemma MergeOneMore(mine: ItemMap, theirs: ItemMap, todo: set<string>, k: string)
    requires k in todo && todo <= theirs.Keys
    ensures var now := MergeMap(mine, theirs - todo);
      now[k := if k in now then MergeItem(now[k], theirs[k]) else theirs[k]] == MergeMap(mine, theirs - (todo - {k}))
  {
    hide MergeItem;
    assert (theirs - (todo - {k})).Keys == (theirs - todo).Keys + {k};
  }
}

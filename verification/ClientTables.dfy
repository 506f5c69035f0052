/** The client's linked tables as values: items by generated id, counter entries by (counter id,
    actor), and the lists they stand for. */
module ClientTables {
  import opened Basics
  import opened CrdtValues
  import opened Quantity

  /** A row of `awormap_items`; its key is the generated item id. */
  datatype ItemRow = ItemRow(list: Uuid, name: string, acquired: Reg, pId: nat, nId: nat)

  type ItemTable = map<nat, ItemRow>

  /** `gcounter_actor_values`, keyed by (counter id, actor). */
  type ActorValues = map<(nat, Uuid), nat>

  // ---------- counters ----------

  function CounterAt(values: ActorValues, c: nat): Counts {
    map a | a in (set k | k in values && k.0 == c :: k.1) :: values[(c, a)]
  }

  /** The rows that hold one counter. */
  function CounterRows(c: nat, counts: Counts): ActorValues {
    map k | k in (set a | a in counts :: (c, a)) :: counts[k.1]
  }

  lemma EntryAt(values: ActorValues, c: nat, a: Uuid)
    ensures a in CounterAt(values, c) <==> (c, a) in values
    ensures a in CounterAt(values, c) ==> CounterAt(values, c)[a] == values[(c, a)]
  {
    if (c, a) in values {
      assert (c, a) in values && (c, a).0 == c && (c, a).1 == a;
    }
  }

  lemma RowAt(c: nat, counts: Counts, k: (nat, Uuid))
    ensures k in CounterRows(c, counts) <==> k.0 == c && k.1 in counts
    ensures k in CounterRows(c, counts) ==> CounterRows(c, counts)[k] == counts[k.1]
  {}

  /** Writing a counter's rows overlays that counter and no other. */
  lemma CounterAfterWrite(values: ActorValues, c: nat, counts: Counts, d: nat)
    ensures CounterAt(values + CounterRows(c, counts), d) ==
      if d == c then CounterAt(values, c) + counts else CounterAt(values, d)
  {
    var values' := values + CounterRows(c, counts);
    forall a: Uuid
      ensures a in CounterAt(values', d) <==> a in CounterAt(values, d) || (d == c && a in counts)
      ensures a in CounterAt(values', d) ==>
        CounterAt(values', d)[a] == if d == c && a in counts then counts[a] else CounterAt(values, d)[a]
    {
      EntryAt(values, d, a);
      EntryAt(values', d, a);
      RowAt(c, counts, (d, a));
    }
  }

  /** One row of the upsert loop. */
  lemma WriteOneRow(values: ActorValues, c: nat, counts: Counts, todo: set<Uuid>, a: Uuid)
    requires a in todo && todo <= counts.Keys
    ensures (values + CounterRows(c, counts - todo))[(c, a) := counts[a]]
         == values + CounterRows(c, counts - (todo - {a}))
  {
    var l, r := (values + CounterRows(c, counts - todo))[(c, a) := counts[a]],
                values + CounterRows(c, counts - (todo - {a}));
    forall k: (nat, Uuid) ensures (k in l <==> k in r) && (k in l ==> l[k] == r[k]) {
      RowAt(c, counts - todo, k);
      RowAt(c, counts - (todo - {a}), k);
    }
  }

  lemma NoRows(values: ActorValues, c: nat)
    ensures values + CounterRows(c, map[]) == values
  {
    assert CounterRows(c, map[]) == map[];
  }

  /** The signed column holds entries below 2^63; a larger one that is forced in by a cast cannot
      be read back. */
  predicate CountsFit(c: Counts) {
    forall a <- c :: c[a] < I63
  }

  predicate ItemFits(x: Item) {
    CountsFit(x.p) && CountsFit(x.n)
  }

  predicate ListFits(list: ItemMap) {
    forall k <- list :: ItemFits(list[k])
  }

  // ---------- items ----------

  function ItemOf(row: ItemRow, values: ActorValues): Item {
    Item(CounterAt(values, row.pId), CounterAt(values, row.nId), row.acquired)
  }

  predicate Matches(row: ItemRow, list: Uuid, name: string) {
    row.list == list && row.name == name
  }

  /** Primary and foreign keys hold, (list, name) is unique, and no counter is used twice. */
  ghost predicate Linked(items: ItemTable, values: ActorValues, nextItem: nat, nextCounter: nat) {
    && (forall i <- items :: i < nextItem && RowLinked(items[i], nextCounter))
    && (forall i <- items, j <- items | i != j :: Apart(items[i], items[j]))
    && (forall k <- values :: k.0 < nextCounter)
  }

  ghost predicate RowLinked(row: ItemRow, nextCounter: nat) {
    row.pId < nextCounter && row.nId < nextCounter && row.pId != row.nId
  }

  /** Two rows: different items, four different counters. */
  ghost predicate Apart(r: ItemRow, s: ItemRow) {
    && !Matches(r, s.list, s.name)
    && r.pId != s.pId && r.pId != s.nId && r.nId != s.pId && r.nId != s.nId
  }

  function RowsOf(items: ItemTable, list: Uuid): set<nat> {
    set i | i in items && items[i].list == list
  }

  function NamesOf(items: ItemTable, list: Uuid): set<string> {
    set i | i in RowsOf(items, list) :: items[i].name
  }

  ghost predicate HasRow(items: ItemTable, list: Uuid, name: string) {
    exists i <- items :: Matches(items[i], list, name)
  }

  ghost function RowId(items: ItemTable, list: Uuid, name: string): (i: nat)
    requires HasRow(items, list, name)
    ensures i in items && Matches(items[i], list, name)
  {
    var i :| i in items && Matches(items[i], list, name);
    i
  }

  /** The list the tables stand for. */
  ghost function ListAt(items: ItemTable, values: ActorValues, list: Uuid): ItemMap {
    map name | name in NamesOf(items, list) ::
      (assert HasRow(items, list, name) by { NameHasRow(items, list, name); }
       ItemOf(items[RowId(items, list, name)], values))
  }

  lemma NameHasRow(items: ItemTable, list: Uuid, name: string)
    ensures name in NamesOf(items, list) <==> HasRow(items, list, name)
  {
    if HasRow(items, list, name) {
      var i :| i in items && Matches(items[i], list, name);
      assert i in RowsOf(items, list) && items[i].name == name;
    }
    if name in NamesOf(items, list) {
      var i :| i in RowsOf(items, list) && items[i].name == name;
      assert Matches(items[i], list, name);
    }
  }

  lemma ListHas(items: ItemTable, values: ActorValues, list: Uuid, name: string)
    ensures name in ListAt(items, values, list) <==> HasRow(items, list, name)
  {
    NameHasRow(items, list, name);
  }

  lemma ListItem(items: ItemTable, values: ActorValues, nextItem: nat, nextCounter: nat, i: nat)
    requires Linked(items, values, nextItem, nextCounter) && i in items
    ensures items[i].name in ListAt(items, values, items[i].list)
    ensures ListAt(items, values, items[i].list)[items[i].name] == ItemOf(items[i], values)
  {
    var list, name := items[i].list, items[i].name;
    ListHas(items, values, list, name);
    assert Matches(items[i], list, name);
    var j := RowId(items, list, name);
    assert j != i ==> Apart(items[i], items[j]);
  }

  /** A list is its rows, one item each. */
  lemma ListFromRows(items: ItemTable, values: ActorValues, nextItem: nat, nextCounter: nat, list: Uuid,
                     read: ItemMap, origin: map<string, nat>)
    requires Linked(items, values, nextItem, nextCounter) && read.Keys == origin.Keys
    requires forall name <- origin ::
      && origin[name] in items && Matches(items[origin[name]], list, name)
      && read[name] == ItemOf(items[origin[name]], values)
    requires forall i <- RowsOf(items, list) :: items[i].name in origin
    ensures read == ListAt(items, values, list)
  {
    hide CounterAt, Linked;
    forall name: string ensures name in read <==> name in ListAt(items, values, list) {
      ListHas(items, values, list, name);
      if HasRow(items, list, name) {
        assert RowId(items, list, name) in RowsOf(items, list);
      }
    }
    forall name | name in read ensures read[name] == ListAt(items, values, list)[name] {
      ListItem(items, values, nextItem, nextCounter, origin[name]);
    }
  }

  // ---------- writing one item ----------

  /** A stored item after a newer copy is written over it: entries the copy lacks stay. */
  function OverlayItem(before: Item, x: Item): Item {
    Item(before.p + x.p, before.n + x.n, x.acquired)
  }

  function ValuesAfter(values: ActorValues, row: ItemRow, x: Item): ActorValues {
    values + CounterRows(row.pId, x.p) + CounterRows(row.nId, x.n)
  }

  lemma ItemAfterWrite(values: ActorValues, row: ItemRow, x: Item)
    requires row.pId != row.nId
    ensures ItemOf(row.(acquired := x.acquired), ValuesAfter(values, row, x)) == OverlayItem(ItemOf(row, values), x)
  {
    hide CounterAt, CounterRows;
    forall c | c == row.pId || c == row.nId
      ensures CounterAt(ValuesAfter(values, row, x), c) ==
        if c == row.pId then CounterAt(values, c) + x.p else CounterAt(values, c) + x.n
    {
      CounterAfterWrite(values, row.pId, x.p, c);
      CounterAfterWrite(values + CounterRows(row.pId, x.p), row.nId, x.n, c);
    }
  }

  lemma OtherAfterWrite(values: ActorValues, row: ItemRow, x: Item, other: ItemRow)
    requires other.pId != row.pId && other.pId != row.nId && other.nId != row.pId && other.nId != row.nId
    ensures ItemOf(other, ValuesAfter(values, row, x)) == ItemOf(other, values)
  {
    hide CounterAt, CounterRows;
    forall c | c == other.pId || c == other.nId
      ensures CounterAt(ValuesAfter(values, row, x), c) == CounterAt(values, c)
    {
      CounterAfterWrite(values, row.pId, x.p, c);
      CounterAfterWrite(values + CounterRows(row.pId, x.p), row.nId, x.n, c);
    }
  }

  /** Writing an item over row i: the tables stay linked, the item is the overlay, everything
      else is unchanged. */
  lemma AfterOverwrite(items: ItemTable, values: ActorValues, nextItem: nat, nextCounter: nat, i: nat, x: Item)
    requires Linked(items, values, nextItem, nextCounter) && i in items
    ensures var row := items[i];
      var items', values' := items[i := row.(acquired := x.acquired)], ValuesAfter(values, row, x);
      && Linked(items', values', nextItem, nextCounter)
      && forall list: Uuid :: ListAt(items', values', list) ==
           if list == row.list then ListAt(items, values, list)[row.name := OverlayItem(ItemOf(row, values), x)]
           else ListAt(items, values, list)
  {
    hide CounterAt, CounterRows, ListAt, NamesOf, HasRow, ItemOf, ValuesAfter;
    var row := items[i];
    var items', values' := items[i := row.(acquired := x.acquired)], ValuesAfter(values, row, x);
    OverwriteLinked(items, values, nextItem, nextCounter, i, x);
    forall list: Uuid
      ensures ListAt(items', values', list) ==
           if list == row.list then ListAt(items, values, list)[row.name := OverlayItem(ItemOf(row, values), x)]
           else ListAt(items, values, list)
    {
      forall name: string ensures name in ListAt(items', values', list) <==> name in ListAt(items, values, list) {
        ListHas(items, values, list, name);
        ListHas(items', values', list, name);
        SameNames(items, i, row.(acquired := x.acquired), list, name);
      }
      ListItem(items, values, nextItem, nextCounter, i);
      ListItem(items', values', nextItem, nextCounter, i);
      ItemAfterWrite(values, row, x);
      forall name | name in ListAt(items, values, list) && !(list == row.list && name == row.name)
        ensures ListAt(items', values', list)[name] == ListAt(items, values, list)[name]
      {
        OtherItem(items, values, nextItem, items', nextItem, nextCounter, i, row, x, list, name);
      }
    }
  }

  lemma SameNames(items: ItemTable, i: nat, row: ItemRow, list: Uuid, name: string)
    requires i in items && row.list == items[i].list && row.name == items[i].name
    ensures HasRow(items[i := row], list, name) <==> HasRow(items, list, name)
  {
    if HasRow(items, list, name) {
      var j := RowId(items, list, name);
      assert Matches(items[i := row][j], list, name);
    }
    if HasRow(items[i := row], list, name) {
      var j := RowId(items[i := row], list, name);
      assert Matches(items[j], list, name);
    }
  }

  lemma OverwriteLinked(items: ItemTable, values: ActorValues, nextItem: nat, nextCounter: nat, i: nat, x: Item)
    requires Linked(items, values, nextItem, nextCounter) && i in items
    ensures Linked(items[i := items[i].(acquired := x.acquired)],
                   ValuesAfter(values, items[i], x), nextItem, nextCounter)
  {
    var items' := items[i := items[i].(acquired := x.acquired)];
    forall j, k | j in items' && k in items' && j != k ensures Apart(items'[j], items'[k]) {
      assert Apart(items[j], items[k]);
    }
    assert RowLinked(items[i], nextCounter);
  }

  /** An item in another row than the written row i. */
  lemma OtherItem(items: ItemTable, values: ActorValues, nextItem: nat, items': ItemTable, nextItem': nat,
                  nextCounter: nat, i: nat, row: ItemRow, x: Item, list: Uuid, name: string)
    requires Linked(items, values, nextItem, nextCounter)
    requires Linked(items', ValuesAfter(values, row, x), nextItem', nextCounter)
    requires i in items' && items'[i].pId == row.pId && items'[i].nId == row.nId
    requires forall j <- items :: j in items' && (j != i ==> items'[j] == items[j])
    requires i in items ==> items[i].list == items'[i].list && items[i].name == items'[i].name
    requires name in ListAt(items, values, list) && !Matches(items'[i], list, name)
    ensures name in ListAt(items', ValuesAfter(values, row, x), list)
    ensures ListAt(items', ValuesAfter(values, row, x), list)[name] == ListAt(items, values, list)[name]
  {
    hide CounterAt, CounterRows, ListAt, NamesOf, ItemOf, ValuesAfter;
    ListHas(items, values, list, name);
    var j := RowId(items, list, name);
    assert j != i;
    ListItem(items, values, nextItem, nextCounter, j);
    ListItem(items', ValuesAfter(values, row, x), nextItem', nextCounter, j);
    assert Apart(items'[j], items'[i]);
    OtherAfterWrite(values, row, x, items[j]);
  }

  /** Inserting an item under two new counters: it is stored exactly. */
  lemma AfterInsert(items: ItemTable, values: ActorValues, nextItem: nat, nextCounter: nat,
                    list: Uuid, name: string, x: Item)
    requires Linked(items, values, nextItem, nextCounter) && !HasRow(items, list, name)
    ensures var row := ItemRow(list, name, x.acquired, nextCounter, nextCounter + 1);
      var items', values' := items[nextItem := row], ValuesAfter(values, row, x);
      && Linked(items', values', nextItem + 1, nextCounter + 2)
      && forall l: Uuid :: ListAt(items', values', l) ==
           if l == list then ListAt(items, values, l)[name := x] else ListAt(items, values, l)
  {
    hide CounterAt, CounterRows, ListAt, NamesOf, HasRow, ItemOf, ValuesAfter;
    var row := ItemRow(list, name, x.acquired, nextCounter, nextCounter + 1);
    var items', values' := items[nextItem := row], ValuesAfter(values, row, x);
    InsertLinked(items, values, nextItem, nextCounter, list, name, x);
    StillLinked(items, values, nextItem, nextCounter);
    forall l: Uuid
      ensures ListAt(items', values', l) ==
        if l == list then ListAt(items, values, l)[name := x] else ListAt(items, values, l)
    {
      forall k: string
        ensures k in ListAt(items', values', l) <==> k in ListAt(items, values, l) || (l == list && k == name)
      {
        ListHas(items, values, l, k);
        ListHas(items', values', l, k);
        NamesAfterInsert(items, nextItem, row, l, k);
      }
      ListItem(items', values', nextItem + 1, nextCounter + 2, nextItem);
      ItemAfterWrite(values, row, x);
      FreshItem(values, row, x, nextCounter);
      forall k | k in ListAt(items, values, l) && !(l == list && k == name)
        ensures ListAt(items', values', l)[k] == ListAt(items, values, l)[k]
      {
        OtherItem(items, values, nextItem, items', nextItem + 1, nextCounter + 2, nextItem, row, x, l, k);
      }
    }
  }

  lemma StillLinked(items: ItemTable, values: ActorValues, nextItem: nat, nextCounter: nat)
    requires Linked(items, values, nextItem, nextCounter)
    ensures Linked(items, values, nextItem, nextCounter + 2) && nextItem !in items
  {}

  lemma NamesAfterInsert(items: ItemTable, i: nat, row: ItemRow, list: Uuid, name: string)
    requires i !in items
    ensures HasRow(items[i := row], list, name) <==> HasRow(items, list, name) || Matches(row, list, name)
  {
    if HasRow(items, list, name) {
      var j := RowId(items, list, name);
      assert Matches(items[i := row][j], list, name);
    }
    if HasRow(items[i := row], list, name) {
      var j := RowId(items[i := row], list, name);
      assert j != i ==> Matches(items[j], list, name);
    }
    assert items[i := row][i] == row;
  }

  lemma InsertLinked(items: ItemTable, values: ActorValues, nextItem: nat, nextCounter: nat,
                     list: Uuid, name: string, x: Item)
    requires Linked(items, values, nextItem, nextCounter) && !HasRow(items, list, name)
    ensures var row := ItemRow(list, name, x.acquired, nextCounter, nextCounter + 1);
      Linked(items[nextItem := row], ValuesAfter(values, row, x), nextItem + 1, nextCounter + 2)
  {
    var row := ItemRow(list, name, x.acquired, nextCounter, nextCounter + 1);
    forall j | j in items ensures Apart(items[j], row) && Apart(row, items[j]) {
      assert RowLinked(items[j], nextCounter) && !Matches(items[j], list, name);
    }
  }

  lemma FreshItem(values: ActorValues, row: ItemRow, x: Item, nextCounter: nat)
    requires forall k <- values :: k.0 < nextCounter
    requires row.pId >= nextCounter && row.nId >= nextCounter && row.acquired == x.acquired
    ensures OverlayItem(ItemOf(row, values), x) == x
  {
    forall c | c == row.pId || c == row.nId ensures CounterAt(values, c) == map[] {
      forall a: Uuid ensures a !in CounterAt(values, c) { EntryAt(values, c, a); }
    }
  }

  // ---------- writing a whole list ----------

  function Overlay(before: ItemMap, list: ItemMap): ItemMap {
    map k | k in before.Keys + list.Keys ::
      if k !in list then before[k] else if k !in before then list[k] else OverlayItem(before[k], list[k])
  }

  /** Writing a list over a stored one leaves exactly that list precisely when it has every item
      and every counter entry that was stored. */
  lemma OverlayExactIff(before: ItemMap, list: ItemMap)
    ensures Overlay(before, list) == list <==>
      before.Keys <= list.Keys
      && forall k <- before :: before[k].p.Keys <= list[k].p.Keys && before[k].n.Keys <= list[k].n.Keys
  {
    if before.Keys <= list.Keys
       && forall k <- before :: before[k].p.Keys <= list[k].p.Keys && before[k].n.Keys <= list[k].n.Keys {
      forall k | k in list ensures Overlay(before, list)[k] == list[k] {
        if k in before {
          assert before[k].p + list[k].p == list[k].p;
          assert before[k].n + list[k].n == list[k].n;
        }
      }
    }
  }

  /** In particular for a list at or above the stored one, such as any merge with it. */
  lemma OverlayAbove(before: ItemMap, list: ItemMap)
    requires MapLe(before, list)
    ensures Overlay(before, list) == list
  {
    forall k | k in before ensures before[k].p.Keys <= list[k].p.Keys && before[k].n.Keys <= list[k].n.Keys {
      assert ItemLe(before[k], list[k]);
    }
    OverlayExactIff(before, list);
  }

  /** One item of the write loop. */
  lemma OverlayOneMore(before: ItemMap, list: ItemMap, todo: set<string>, k: string)
    requires k in todo && todo <= list.Keys
    ensures var now := Overlay(before, list - todo);
      now[k := if k in now then OverlayItem(now[k], list[k]) else list[k]] == Overlay(before, list - (todo - {k}))
  {
    assert (list - (todo - {k})).Keys == (list - todo).Keys + {k};
  }
}

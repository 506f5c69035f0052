/** The client: its tables, updated in place row by row, and the operations the user interface
    calls.  Every operation is specified on the lists the tables stand for. */
module ClientObjects {
  import opened Basics
  import opened CrdtValues
  import opened Quantity
  import opened CrdtObjects
  import opened ClientTables

  /** What the user interface shows of a list; `None` if a total overflows. */
  ghost function ShowList(list: ItemMap): Option<map<string, (int, bool)>> {
    if exists k <- list :: Show(list[k]).None? then None
    else Some(map k | k in list :: Show(list[k]).value)
  }

  /** How a storage request ends: applied; cut short by an overflow, which ends the program; or
      refused with an error by the database. */
  datatype Outcome = Applied | Panicked | Refused

  /** A row as `read_item` returns it, with its generated id. */
  datatype StoredItemRow = StoredItemRow(itemId: nat, row: ItemRow)

  class ClientStorage {
    const clientId: Uuid
    var localLists: seq<Uuid>
    var items: ItemTable
    var actorValues: ActorValues
    var nextItem: nat
    var nextCounter: nat

    ghost predicate Valid()
      reads this
    {
      Linked(items, actorValues, nextItem, nextCounter)
      && forall i, j | 0 <= i < j < |localLists| :: localLists[i] != localLists[j]
    }

    ghost function List(list: Uuid): ItemMap
      reads this
    {
      ListAt(items, actorValues, list)
    }

    constructor (client: Uuid)
      ensures Valid() && clientId == client && localLists == [] && forall list: Uuid :: List(list) == map[]
    {
      clientId, localLists, items, actorValues, nextItem, nextCounter := client, [], map[], map[], 0, 0;
    }

    // ---------- reading ----------

    /** A counter read back counts for this client, whoever wrote its entries; an entry that does
        not fit the column is an error. */
    method ReadGCounter(id: nat) returns (g: Option<GCounter>)
      ensures g.Some? <==> CountsFit(CounterAt(actorValues, id))
      ensures g.Some? ==>
        fresh(g.value) && g.value.counter == CounterAt(actorValues, id) && g.value.actorId == clientId
    {
      g := None;
      var counter: Counts := map[];
      var todo := set k | k in actorValues && k.0 == id;
      ghost var rows := todo;
      while todo != {}
        invariant todo <= rows
        invariant forall a :: a in counter <==> (id, a) in rows - todo
        invariant forall a <- counter :: counter[a] == actorValues[(id, a)] < I63
        decreases |todo|
      {
        var k :| k in todo;
        if actorValues[k] >= I63 {
          EntryAt(actorValues, id, k.1);
          return;
        }
        counter := counter[k.1 := actorValues[k]];
        todo := todo - {k};
      }
      forall a: Uuid ensures a in counter <==> a in CounterAt(actorValues, id) {
        EntryAt(actorValues, id, a);
      }
      assert counter == CounterAt(actorValues, id);
      var read := new GCounter.Read(counter, clientId);
      g := Some(read);
    }

    method ReadItem(name: string, list: Uuid) returns (found: Option<StoredItemRow>)
      ensures found.Some? <==> HasRow(items, list, name)
      ensures found.Some? ==>
        var i := found.value.itemId;
        i in items && found.value.row == items[i] && Matches(items[i], list, name)
    {
      if i: nat :| i in items && Matches(items[i], list, name) {
        found := Some(StoredItemRow(i, items[i]));
      } else {
        found := None;
      }
    }

    method BuildItem(row: ItemRow) returns (item: Option<ItemObject>)
      ensures item.Some? <==> ItemFits(ItemOf(row, actorValues))
      ensures item.Some? ==>
        && fresh(item.value.Footprint()) && item.value.Owned() && item.value.Value() == ItemOf(row, actorValues)
        && item.value.amount.p.actorId == clientId && item.value.amount.n.actorId == clientId
    {
      hide CounterAt, CountsFit;
      item := None;
      var p := ReadGCounter(row.pId);
      if p.Some? {
        var n := ReadGCounter(row.nId);
        if n.Some? {
          var amount := new PNCounter(p.value, n.value);
          var acquired := new LWWReg(row.acquired);
          var built := new ItemObject(amount, acquired);
          item := Some(built);
        }
      }
    }

    method ReadShoppingList(list: Uuid) returns (awormap: Option<AWORMap>)
      requires Valid()
      ensures awormap.Some? <==> ListFits(List(list))
      ensures awormap.Some? ==> fresh(awormap.value) && awormap.value.items == List(list)
    {
      hide Linked, ListAt, ItemOf, MergeMap, CounterAt, ItemFits;
      awormap := None;
      var read := new AWORMap();
      var todo := RowsOf(items, list);
      ghost var origin: map<string, nat> := map[];
      while todo != {}
        invariant fresh(read) && todo <= RowsOf(items, list)
        invariant origin.Keys == read.items.Keys
        invariant forall name <- origin ::
          && origin[name] in RowsOf(items, list) - todo && items[origin[name]].name == name
          && read.items[name] == ItemOf(items[origin[name]], actorValues) && ItemFits(read.items[name])
        invariant forall i | i in RowsOf(items, list) - todo :: items[i].name in origin
        decreases |todo|
      {
        var i :| i in todo;
        var item := BuildItem(items[i]);
        if item.None? {
          ListItem(items, actorValues, nextItem, nextCounter, i);
          return;
        }
        ghost var name := items[i].name;
        if name in origin { SameRow(items, actorValues, nextItem, nextCounter, i, origin[name]); }
        MergeFresh(read.items, name, item.value.Value());
        read.Insert(items[i].name, item.value);
        origin := origin[name := i];
        todo := todo - {i};
      }
      ListFromRows(items, actorValues, nextItem, nextCounter, list, read.items, origin);
      awormap := Some(read);
    }

    // ---------- writing ----------

    method EnsureList(list: Uuid)
      requires Valid()
      modifies this`localLists
      ensures Valid()
      ensures localLists == if list in old(localLists) then old(localLists) else old(localLists) + [list]
    {
      if list !in localLists {
        localLists := localLists + [list];
      }
    }

    /** One row for each entry of a counter, replacing the rows of the same actors.  An entry that
        does not fit is cast, or else it is an error and the transaction is abandoned. */
    method UpsertCounter(id: nat, counts: Counts, cast: bool) returns (ok: bool)
      modifies this`actorValues
      ensures ok <==> cast || CountsFit(counts)
      ensures ok ==> actorValues == old(actorValues) + CounterRows(id, counts)
    {
      hide CounterRows;
      ok := true;
      var todo := counts.Keys;
      ghost var before := actorValues;
      assert counts - todo == map[];
      NoRows(before, id);
      while todo != {}
        invariant todo <= counts.Keys
        invariant cast || forall a | a in counts && a !in todo :: counts[a] < I63
        invariant actorValues == before + CounterRows(id, counts - todo)
        decreases |todo|
      {
        var a: Uuid :| a in todo;
        if !cast && counts[a] >= I63 {
          return false;
        }
        WriteOneRow(before, id, counts, todo, a);
        actorValues := actorValues[(id, a) := counts[a]];
        todo := todo - {a};
      }
      assert counts - todo == counts;
    }

    method OverwriteItem(item: ItemObject, itemId: nat, pId: nat, nId: nat)
      requires Valid() && itemId in items && items[itemId].pId == pId && items[itemId].nId == nId
      modifies this`items, this`actorValues
      ensures Valid()
      ensures var row := old(items[itemId]);
        forall list: Uuid :: List(list) ==
          if list == row.list then old(List(list))[row.name := OverlayItem(ItemOf(row, old(actorValues)), item.Value())]
          else old(List(list))
    {
      hide Linked, ListAt, ItemOf, CounterRows, OverlayItem;
      AfterOverwrite(items, actorValues, nextItem, nextCounter, itemId, item.Value());
      items := items[itemId := items[itemId].(acquired := item.acquired.Value())];
      var _ := UpsertCounter(pId, item.amount.p.counter, true);
      var _ := UpsertCounter(nId, item.amount.n.counter, true);
    }

    method NewCounter() returns (id: nat)
      modifies this`nextCounter
      ensures id == old(nextCounter) && nextCounter == id + 1
    {
      id := nextCounter;
      nextCounter := nextCounter + 1;
    }

    /** Inserts an item, or changes nothing if an entry does not fit the column. */
    method WriteItem(list: Uuid, item: ItemObject, name: string) returns (ok: bool)
      requires Valid() && !HasRow(items, list, name)
      modifies this`items, this`actorValues, this`nextItem, this`nextCounter
      ensures Valid() && (ok <==> ItemFits(item.Value()))
      ensures forall l: Uuid :: List(l) == if ok && l == list then old(List(l))[name := item.Value()] else old(List(l))
    {
      hide Linked, ListAt, HasRow, CounterRows, CountsFit;
      AfterInsert(items, actorValues, nextItem, nextCounter, list, name, item.Value());
      var oldValues, oldCounter := actorValues, nextCounter;
      var pId := NewCounter();
      var nId := NewCounter();
      ok := UpsertCounter(pId, item.amount.p.counter, false);
      if ok {
        ok := UpsertCounter(nId, item.amount.n.counter, false);
      }
      if ok {
        items := items[nextItem := ItemRow(list, name, item.acquired.Value(), pId, nId)];
        nextItem := nextItem + 1;
      } else {
        actorValues, nextCounter := oldValues, oldCounter;
      }
    }

    /** One item of a list: over its row if it has one, as a new row otherwise. */
    method WriteOneItem(list: Uuid, item: ItemObject, name: string) returns (ok: bool)
      requires Valid()
      modifies this`items, this`actorValues, this`nextItem, this`nextCounter
      ensures ok <==> ItemFits(item.Value())
      ensures ok ==> Valid() && List(list) == Overlay(old(List(list)), map[name := item.Value()])
      ensures ok ==> forall l: Uuid | l != list :: List(l) == old(List(l))
    {
      hide Linked, ListAt, HasRow, ItemOf, CounterRows, CountsFit, OverlayItem;
      ListHas(items, actorValues, list, name);
      var row := ReadItem(name, list);
      if row.Some? {
        var i := row.value.itemId;
        ListItem(items, actorValues, nextItem, nextCounter, i);
        AfterOverwrite(items, actorValues, nextItem, nextCounter, i, item.Value());
        OverlayOne(List(list), name, item.Value());
        ok := UpsertCounter(items[i].pId, item.amount.p.counter, false);
        if ok {
          ok := UpsertCounter(items[i].nId, item.amount.n.counter, false);
          items := items[i := items[i].(acquired := item.acquired.Value())];
        }
      } else {
        OverlayOne(List(list), name, item.Value());
        ok := WriteItem(list, item, name);
      }
    }

    /** The loop over the items of a list, inside its transaction. */
    method WriteItems(list: Uuid, awormap: AWORMap) returns (ok: bool)
      requires Valid()
      modifies this`items, this`actorValues, this`nextItem, this`nextCounter
      ensures ok <==> ListFits(awormap.items)
      ensures ok ==> Valid() && List(list) == Overlay(old(List(list)), awormap.items)
      ensures ok ==> forall l: Uuid | l != list :: List(l) == old(List(l))
    {
      hide Linked, ListAt, Overlay, ItemFits;
      var todo := awormap.items.Keys;
      ghost var before := List(list);
      assert awormap.items - todo == map[];
      OverlayNothing(before);
      ok := true;
      while todo != {}
        invariant Valid() && List(list) == Overlay(before, awormap.items - todo)
        invariant forall l: Uuid | l != list :: List(l) == old(List(l))
        invariant todo <= awormap.items.Keys
        invariant forall k | k in awormap.items && k !in todo :: ItemFits(awormap.items[k])
        decreases |todo|
      {
        var name :| name in todo;
        OverlayTwice(before, awormap.items, todo, name);
        var item := new ItemObject.Read(awormap.items[name]);
        ok := WriteOneItem(list, item, name);
        if !ok {
          return;
        }
        todo := todo - {name};
      }
      assert awormap.items - todo == awormap.items;
    }

    /** Writes every item of a list, over its stored row if it has one; if an entry of the list
        does not fit, nothing is written.  What is left is exactly the list written whenever it
        is at or above the stored one. */
    method WriteShoppingList(list: Uuid, awormap: AWORMap) returns (ok: bool)
      requires Valid()
      modifies this`items, this`actorValues, this`nextItem, this`nextCounter
      ensures Valid() && (ok <==> ListFits(awormap.items))
      ensures List(list) == if ok then Overlay(old(List(list)), awormap.items) else old(List(list))
      ensures forall l: Uuid | l != list :: List(l) == old(List(l))
      ensures ok && MapLe(old(List(list)), awormap.items) ==> List(list) == awormap.items
    {
      hide Linked, ListAt, Overlay, MapLe, ListFits;
      var saved, savedItem, savedCounter, savedItems := actorValues, nextItem, nextCounter, items;
      ghost var before := List(list);
      ok := WriteItems(list, awormap);
      if !ok {
        actorValues, nextItem, nextCounter, items := saved, savedItem, savedCounter, savedItems;
      } else if MapLe(before, awormap.items) {
        OverlayAbove(before, awormap.items);
      }
    }

    // ---------- a storage request ----------

    /** Raises or lowers an item of this client by a signed amount. */
    method Adjust(item: ItemObject, delta: int) returns (ok: bool)
      requires item.Owned() && item.amount.p.actorId == clientId && item.amount.n.actorId == clientId
      modifies item.amount.p`counter, item.amount.n`counter
      ensures ok <==> AddDelta(old(item.Value()), delta, clientId).Some?
      ensures ok ==> item.Value() == AddDelta(old(item.Value()), delta, clientId).value
    {
      ok := true;
      if delta > 0 {
        ok := item.amount.IncBy(delta);
      } else if delta < 0 {
        if FitsI64(-delta) {
          ok := item.amount.DecBy(-delta);
        } else {
          ok := false;
        }
      }
    }

    /** Changes the quantity of a copy of the stored item and, if it differs, its flag. */
    method Edited(stored: ItemObject, q: nat, acq: bool) returns (updated: Option<ItemObject>)
      requires stored.Owned() && stored.amount.p.actorId == clientId && stored.amount.n.actorId == clientId
      ensures updated.Some? <==> EditedCopy(stored.Value(), q, acq, clientId).Some?
      ensures updated.Some? ==>
        && updated.value.Owned() && fresh(updated.value.Footprint())
        && updated.value.Value() == EditedCopy(stored.Value(), q, acq, clientId).value
    {
      hide Sum, AddDelta;
      updated := None;
      var current := stored.amount.ValueTotal();
      if current.None? || !FitsI64(AsI64(q) - current.value) {
        return;
      }
      var copy := stored.Clone();
      var ok := Adjust(copy, AsI64(q) - current.value);
      var flag := AcquiredVal(acq);
      if ok && flag != stored.acquired.val {
        if stored.acquired.clock + 1 < U32 {
          copy.acquired.Set(Reg(flag, stored.acquired.clock + 1, clientId));
        } else {
          ok := false;
        }
      }
      if ok {
        updated := Some(copy);
      }
    }

    /** "Set the quantity to q": the item becomes its edit, everything else is unchanged.  An
        overflow, a stored item that cannot be read, or a new quantity that does not fit the
        column leave every item as it was. */
    method HandleItemStorageRequest(name: string, q: nat, acq: bool, list: Uuid) returns (outcome: Outcome)
      requires Valid()
      modifies this
      ensures Valid()
      ensures localLists == if list in old(localLists) then old(localLists) else old(localLists) + [list]
      ensures outcome == RequestOutcome(StoredItem(old(List(list)), name), q, acq, clientId)
      ensures List(list) == AfterRequest(old(List(list)), name, q, acq, clientId)
      ensures forall l: Uuid | l != list :: List(l) == old(List(l))
    {
      hide Linked, ListAt, HasRow, ItemOf, OverlayItem, EditedCopy, MergeItem, ItemLe, NewItem, ItemFits;
      EnsureList(list);
      outcome := Applied;
      var found := ReadItem(name, list);
      ListHas(items, actorValues, list, name);
      if found.Some? {
        var i := found.value.itemId;
        ListItem(items, actorValues, nextItem, nextCounter, i);
        var built := BuildItem(found.value.row);
        if built.None? {
          return Refused;
        }
        var stored := built.value;
        var updated := Edited(stored, q, acq);
        if updated.None? {
          return Panicked;
        }
        ghost var x := stored.Value();
        stored.Merge(updated.value);
        ItemMergeAbove(x, updated.value.Value());
        OverwriteExact(x, stored.Value());
        OverwriteItem(stored, i, found.value.row.pId, found.value.row.nId);
      } else {
        var item := new ItemObject.Create(q, acq, clientId);
        NewItemFits(q, acq, clientId);
        var ok := WriteItem(list, item, name);
        if !ok {
          outcome := Refused;
        }
      }
    }
  }

  /** How a request on a stored item, or for a new one, ends. */
  ghost function RequestOutcome(stored: Option<Item>, q: nat, acq: bool, me: Uuid): Outcome {
    if stored.Some? && !ItemFits(stored.value) then Refused
    else if EditItem(stored, q, acq, me).None? then Panicked
    else if stored.None? && q >= I63 then Refused
    else Applied
  }

  ghost function AfterRequest(before: ItemMap, name: string, q: nat, acq: bool, me: Uuid): ItemMap {
    if RequestOutcome(StoredItem(before, name), q, acq, me).Applied?
    then before[name := EditItem(StoredItem(before, name), q, acq, me).value] else before
  }

  lemma NewItemFits(q: nat, acq: bool, me: Uuid)
    ensures ItemFits(NewItem(q, acq, me)) <==> q < I63
  {
    var x := NewItem(q, acq, me);
    assert x.p[me] == q && x.n[me] == 0;
  }

  /** After a request that is applied, the list can be read back exactly when its other items can
      and the requester's own entries still fit. */
  lemma AppliedReadableIff(before: ItemMap, name: string, q: nat, acq: bool, me: Uuid)
    requires RequestOutcome(StoredItem(before, name), q, acq, me).Applied?
    ensures var item := EditItem(StoredItem(before, name), q, acq, me).value;
      ListFits(AfterRequest(before, name, q, acq, me)) <==>
        && (forall k <- before | k != name :: ItemFits(before[k]))
        && Count(item.p, me) < I63 && Count(item.n, me) < I63
  {
    var stored := StoredItem(before, name);
    var item := EditItem(stored, q, acq, me).value;
    var after := AfterRequest(before, name, q, acq, me);
    assert ItemFits(item) <==> Count(item.p, me) < I63 && Count(item.n, me) < I63 by {
      if stored.None? {
        NewItemFits(q, acq, me);
      } else {
        MergeWithEditedCopy(stored.value, q, acq, me);
        EditedFits(stored.value, q, acq, me);
      }
    }
    assert after[name] == item;
    assert forall k <- before | k != name :: after[k] == before[k];
  }

  lemma EditedFits(x: Item, q: nat, acq: bool, me: Uuid)
    requires ItemFits(x) && EditedCopy(x, q, acq, me).Some?
    ensures var y := EditedCopy(x, q, acq, me).value;
      ItemFits(y) <==> Count(y.p, me) < I63 && Count(y.n, me) < I63
  {
    hide Sum;
    var y := EditedCopy(x, q, acq, me).value;
    forall a | a in y.p && a != me ensures y.p[a] < I63 { assert a in x.p && y.p[a] == x.p[a]; }
    forall a | a in y.n && a != me ensures y.n[a] < I63 { assert a in x.n && y.n[a] == x.n[a]; }
  }

  lemma OverlayOne(before: ItemMap, name: string, x: Item)
    ensures Overlay(before, map[name := x]) ==
      before[name := if name in before then OverlayItem(before[name], x) else x]
  {}

  /** One iteration of the write loop. */
  lemma OverlayTwice(before: ItemMap, list: ItemMap, todo: set<string>, name: string)
    requires name in todo && todo <= list.Keys
    ensures Overlay(Overlay(before, list - todo), map[name := list[name]]) == Overlay(before, list - (todo - {name}))
  {
    hide OverlayItem;
    OverlayOneMore(before, list, todo, name);
    OverlayOne(Overlay(before, list - todo), name, list[name]);
  }

  /** Two rows of one name in one list are one row. */
  lemma SameRow(items: ItemTable, values: ActorValues, nextItem: nat, nextCounter: nat, i: nat, j: nat)
    requires Linked(items, values, nextItem, nextCounter) && i in items && j in items
    requires items[i].list == items[j].list && items[i].name == items[j].name
    ensures i == j
  {
    assert i != j ==> Apart(items[i], items[j]);
  }

  lemma MergeFresh(m: ItemMap, name: string, x: Item)
    requires name !in m
    ensures MergeMap(m, map[name := x]) == m[name := x]
  {}

  lemma OverlayNothing(m: ItemMap)
    ensures Overlay(m, map[]) == m
  {}

  lemma ShowListIs(list: ItemMap, entries: map<string, (int, bool)>)
    requires entries.Keys == list.Keys && forall k <- list :: Show(list[k]) == Some(entries[k])
    ensures ShowList(list) == Some(entries)
  {
    hide Show;
    assert entries == map k | k in list :: Show(list[k]).value;
  }

  /** Every item of a list that is shown, with its quantity modulo 2^64 and its flag. */
  lemma ShownListIs(list: ItemMap)
    ensures ShowList(list).Some? ==> ShowList(list).value.Keys == list.Keys && forall k <- list ::
      ShowList(list).value[k]
        == ((Sum(list[k].p) - Sum(list[k].n)) % 0x1_0000_0000_0000_0000, list[k].acquired.val != 0)
    ensures ShowList(list).None? <==> exists k <- list :: Show(list[k]).None?
  {
    hide Sum, Show;
    if ShowList(list).Some? {
      forall k | k in list
        ensures ShowList(list).value[k]
             == ((Sum(list[k].p) - Sum(list[k].n)) % 0x1_0000_0000_0000_0000, list[k].acquired.val != 0)
      {
        ShownIs(list[k]);
      }
    }
  }

  lemma OverwriteExact(x: Item, y: Item)
    requires ItemLe(x, y)
    ensures OverlayItem(x, y) == y
  {
    assert x.p + y.p == y.p && x.n + y.n == y.n;
  }

  /** Set, then show: after a request that succeeds, the list that is read back shows (q,
      acquired) for the item and what it showed before for every other item, provided it can
      be shown at all. */
  lemma RequestThenShow(before: ItemMap, name: string, q: nat, acq: bool, me: Uuid)
    requires q < U64
    requires EditItem(StoredItem(before, name), q, acq, me).Some?
    ensures var edit := EditItem(StoredItem(before, name), q, acq, me).value;
      var shown := ShowList(before[name := edit]);
      shown.Some? ==>
        ShowList(before).Some? && shown.value == ShowList(before).value[name := (q, acq)]
  {
    hide MergeItem, EditedCopy, Show;
    var stored := StoredItem(before, name);
    var edit := EditItem(stored, q, acq, me).value;
    var after := before[name := edit];
    SetThenShow(stored, q, acq, me);
    if ShowList(after).Some? {
      assert Show(after[name]) == Some((q, acq));
      forall k | k in before ensures Show(before[k]).Some? {
        if k == name {
          EditedWasShown(before[k], q, acq, me);
        } else {
          assert after[k] == before[k];
        }
      }
    }
  }

  /** A storage request, end to end.  Applied, it changes the named item only, which shows what was
      requested if it can be shown; otherwise it changes nothing.  It is refused exactly if the
      stored item has an entry, or a new item a quantity, of 2^63 or more, and cut short exactly
      if the edit of a stored item overflows. */
  lemma RequestIs(before: ItemMap, name: string, q: nat, acq: bool, me: Uuid)
    requires q < 0x1_0000_0000_0000_0000
    ensures var outcome := RequestOutcome(StoredItem(before, name), q, acq, me);
      var after := AfterRequest(before, name, q, acq, me);
      && (outcome.Applied? ==>
            && name in after && after - {name} == before - {name}
            && (Show(after[name]).Some? ==> Show(after[name]).value == (q, acq)))
      && (!outcome.Applied? ==> after == before)
      && (outcome.Refused? <==>
            if name in before then
              || (exists a <- before[name].p :: before[name].p[a] >= 0x8000_0000_0000_0000)
              || (exists a <- before[name].n :: before[name].n[a] >= 0x8000_0000_0000_0000)
            else q >= 0x8000_0000_0000_0000)
      && (outcome.Panicked? <==>
            !outcome.Refused? && name in before && EditItem(Some(before[name]), q, acq, me).None?)
  {
    hide EditedCopy, MergeItem, Show, NewItem;
    var stored := StoredItem(before, name);
    if EditItem(stored, q, acq, me).Some? {
      SetThenShow(stored, q, acq, me);
    } else {
      assert stored.Some? by { EditCreates(q, acq, me); }
    }
  }

  lemma EditedWasShown(x: Item, q: nat, acq: bool, me: Uuid)
    requires EditItem(Some(x), q, acq, me).Some?
    ensures Show(x).Some?
  {}

  // ---------- the client ----------

  /** The coordinator's answer, if it arrives in time. */
  datatype Reply = AckList(list: ItemMap) | Nack | NoReply

  class Client {
    const storage: ClientStorage

    constructor (id: Uuid)
      ensures fresh(storage) && storage.Valid() && storage.clientId == id
      ensures forall list: Uuid :: storage.List(list) == map[]
    {
      storage := new ClientStorage(id);
    }

    /** The interface form of a list. */
    method FromCrdt(list: AWORMap) returns (shown: Option<map<string, (int, bool)>>)
      ensures shown == ShowList(list.items)
    {
      var entries: map<string, (int, bool)> := map[];
      var todo := list.items.Keys;
      while todo != {}
        invariant todo <= list.items.Keys
        invariant entries.Keys == list.items.Keys - todo
        invariant forall k <- entries :: Show(list.items[k]) == Some(entries[k])
        decreases |todo|
      {
        var k :| k in todo;
        var item := new ItemObject.Read(list.items[k]);
        var total := item.amount.ValueTotal();
        if total.None? {
          assert Show(list.items[k]).None?;
          return None;
        }
        entries := entries[k := (AsU64(total.value), item.acquired.val != 0)];
        todo := todo - {k};
      }
      ShowListIs(list.items, entries);
      shown := Some(entries);
    }

    /** `retrieve_list`: merge the answer into the list that was sent, merge that into the local
        list, store it and show it.  A local list that cannot be read is an error; a result
        that does not fit the columns is shown but not stored. */
    method RetrieveList(list: Uuid, reply: Reply) returns (read: bool, shown: Option<map<string, (int, bool)>>)
      requires storage.Valid()
      modifies storage
      ensures storage.Valid() && (read <==> ListFits(old(storage.List(list))))
      ensures var local := old(storage.List(list));
        var merged := if reply.AckList? then Fetched(local, reply.list) else local;
        && storage.List(list) == (if read && ListFits(merged) then merged else local)
        && MapLe(local, storage.List(list))
        && (read ==> shown == ShowList(merged))
      ensures forall l: Uuid | l != list :: storage.List(l) == old(storage.List(l))
    {
      hide Linked, ListAt, MergeMap, MapLe, Overlay, ShowList, ListFits;
      shown := None;
      MapLeReflexive(storage.List(list));
      var stored := storage.ReadShoppingList(list);
      read := stored.Some?;
      if read {
        var local := stored.value;
        ghost var before := local.items;
        if reply.AckList? {
          var remote := new AWORMap.Read(local.items);
          var answer := new AWORMap.Read(reply.list);
          remote.Merge(answer);
          local.Merge(remote);
          MergeMapAbove(before, remote.items);
          var _ := storage.WriteShoppingList(list, local);
        }
        shown := FromCrdt(local);
      }
    }

    /** `send_item_storage_request`: apply the request, then read the whole list and send it. */
    method SendItemStorageRequest(name: string, q: nat, acq: bool, list: Uuid)
      returns (outcome: Outcome, sent: Option<ItemMap>)
      requires storage.Valid()
      modifies storage
      ensures storage.Valid()
      ensures outcome == RequestOutcome(StoredItem(old(storage.List(list)), name), q, acq, storage.clientId)
      ensures storage.List(list) == AfterRequest(old(storage.List(list)), name, q, acq, storage.clientId)
      ensures sent == if outcome.Applied? && ListFits(storage.List(list)) then Some(storage.List(list)) else None
      ensures forall l: Uuid | l != list :: storage.List(l) == old(storage.List(l))
    {
      hide RequestOutcome, AfterRequest, ListFits, ListAt, Linked;
      sent := None;
      outcome := storage.HandleItemStorageRequest(name, q, acq, list);
      if outcome.Applied? {
        var updated := storage.ReadShoppingList(list);
        if updated.Some? {
          sent := Some(updated.value.items);
        }
      }
    }
  }
}

/** Quantities: the totals of a counter, the machine-integer arithmetic the client does on
    them, and the edit that turns "set the quantity to q" into a counter delta.

    Arithmetic that overflows panics in the profile `cargo run` builds, so every operation
    that can overflow returns `None` in that case; `as` casts wrap. */
module Quantity {
  import opened Basics
  import opened CrdtValues

  const U64: nat := 0x1_0000_0000_0000_0000
  const I63: nat := 0x8000_0000_0000_0000
  const U32: nat := 0x1_0000_0000

  // ---------- sums over actors ----------

  ghost function Sum(c: Counts): nat
    decreases |c|
  {
    if c == map[] then 0 else
      var a :| a in c;
      c[a] + Sum(c - {a})
  }

  lemma {:induction false} SumRemove(c: Counts, a: Uuid)
    requires a in c
    ensures Sum(c) == c[a] + Sum(c - {a})
    decreases |c|
  {
    var b :| b in c && Sum(c) == c[b] + Sum(c - {b});
    if b != a {
      SumRemove(c - {b}, a);
      SumRemove(c - {a}, b);
      assert c - {b} - {a} == c - {a} - {b};
    }
  }

  lemma SumUpdate(c: Counts, a: Uuid, v: nat)
    ensures Sum(c[a := v]) == Sum(c) - Count(c, a) + v
  {
    SumRemove(c[a := v], a);
    if a in c {
      SumRemove(c, a);
      assert c[a := v] - {a} == c - {a};
    } else {
      assert c[a := v] - {a} == c;
    }
  }

  // ---------- machine integers ----------

  function AsI64(x: nat): int {
    if x < I63 then x else x - U64
  }

  function AsU64(x: int): int {
    if x >= 0 then x else x + U64
  }

  predicate FitsI64(x: int) {
    0 - I63 <= x < I63
  }

  /** `PNCounter::value_total`: both sums, both casts, one subtraction. */
  ghost function Total(x: Item): Option<int> {
    if Sum(x.p) >= U64 || Sum(x.n) >= U64 then None
    else if !FitsI64(AsI64(Sum(x.p)) - AsI64(Sum(x.n))) then None
    else Some(AsI64(Sum(x.p)) - AsI64(Sum(x.n)))
  }

  function AcquiredVal(acquired: bool): nat {
    if acquired then 1 else 0
  }

  /** What the user sees of an item. */
  ghost function Show(x: Item): Option<(int, bool)> {
    if Total(x).None? then None
    else Some((AsU64(Total(x).value), x.acquired.val != 0))
  }

  // ---------- edits ----------

  function IncBy(c: Counts, a: Uuid, k: nat): Option<Counts> {
    if Count(c, a) + k >= U64 then None else Some(c[a := Count(c, a) + k])
  }

  /** Raises or lowers the quantity by a signed delta, on the editing actor's own entries. */
  function AddDelta(x: Item, delta: int, me: Uuid): Option<Item> {
    if delta > 0 then
      match IncBy(x.p, me, delta) case None => None case Some(p) => Some(x.(p := p))
    else if delta < 0 then
      if !FitsI64(-delta) then None else
        match IncBy(x.n, me, -delta) case None => None case Some(n) => Some(x.(n := n))
    else Some(x)
  }

  /** Replaces the register when the acquired flag changes. */
  function SetAcquired(r: Reg, acquired: bool, me: Uuid): Option<Reg> {
    if AcquiredVal(acquired) == r.val then Some(r)
    else if r.clock + 1 >= U32 then None
    else Some(Reg(AcquiredVal(acquired), r.clock + 1, me))
  }

  function NewItem(q: nat, acquired: bool, me: Uuid): Item {
    Item(map[me := q], map[me := 0], Reg(AcquiredVal(acquired), 0, me))
  }

  /** The edited copy of a stored item, before it is merged back. */
  ghost function EditedCopy(x: Item, q: nat, acquired: bool, me: Uuid): Option<Item> {
    if Total(x).None? || !FitsI64(AsI64(q) - Total(x).value) then None
    else
      match AddDelta(x, AsI64(q) - Total(x).value, me)
      case None => None
      case Some(y) =>
        match SetAcquired(x.acquired, acquired, me)
        case None => None
        case Some(r) => Some(y.(acquired := r))
  }

  /** The item a storage request leaves behind; `None` if the request panics. */
  ghost function EditItem(before: Option<Item>, q: nat, acquired: bool, me: Uuid): Option<Item> {
    match before
    case None => Some(NewItem(q, acquired, me))
    case Some(x) =>
      match EditedCopy(x, q, acquired, me)
      case None => None
      case Some(y) => Some(MergeItem(x, y))
  }

  // ---------- what is shown, and what an edit writes ----------

  /** The quantity shown is the difference of the two sums modulo 2^64, and an item cannot be shown
      exactly if a sum does not fit 64 bits or the difference of the sums, read as signed
      numbers, does not. */
  lemma ShownIs(x: Item)
    ensures Show(x).Some? ==>
      && Show(x).value.0 == (Sum(x.p) - Sum(x.n)) % 0x1_0000_0000_0000_0000
      && (Show(x).value.1 <==> x.acquired.val != 0)
    ensures
      var up := if Sum(x.p) < 0x8000_0000_0000_0000 then Sum(x.p) else Sum(x.p) - 0x1_0000_0000_0000_0000;
      var down := if Sum(x.n) < 0x8000_0000_0000_0000 then Sum(x.n) else Sum(x.n) - 0x1_0000_0000_0000_0000;
      Show(x).Some? <==>
        && Sum(x.p) < 0x1_0000_0000_0000_0000 && Sum(x.n) < 0x1_0000_0000_0000_0000
        && -0x8000_0000_0000_0000 <= up - down < 0x8000_0000_0000_0000
  {
    hide Sum;
  }

  /** The first edit of an item. */
  lemma EditCreates(q: nat, acquired: bool, me: Uuid)
    ensures EditItem(None, q, acquired, me)
         == Some(Item(map[me := q], map[me := 0], Reg(if acquired then 1 else 0, 0, me)))
  {}

  /** An edit of a stored item writes the flag, stamped with the next clock and the editor, exactly
      if it differs; it touches nobody else's entries and only one of the two counters. */
  lemma EditWrites(x: Item, q: nat, acquired: bool, me: Uuid)
    requires EditItem(Some(x), q, acquired, me).Some?
    ensures var y, flag := EditItem(Some(x), q, acquired, me).value, if acquired then 1 else 0;
      && y.acquired == (if x.acquired.val == flag then x.acquired else Reg(flag, x.acquired.clock + 1, me))
      && (forall a: Uuid | a != me :: Count(y.p, a) == Count(x.p, a) && Count(y.n, a) == Count(x.n, a))
      && (y.p == x.p || y.n == x.n)
  {
    hide Sum, Total, AsI64, MergeItem;
    MergeWithEditedCopy(x, q, acquired, me);
  }

  /** An edit of a stored item overflows exactly if the item cannot be shown, or its delta, its
      amount, the author's raised entry or the next clock does not fit. */
  lemma EditPanicsIff(x: Item, q: nat, acquired: bool, me: Uuid)
    requires q < 0x1_0000_0000_0000_0000
    ensures Show(x).Some? ==>
      var signed := (s: nat) => if s < 0x8000_0000_0000_0000 then s else s - 0x1_0000_0000_0000_0000;
      var delta := signed(q) - (signed(Sum(x.p)) - signed(Sum(x.n)));
      EditItem(Some(x), q, acquired, me).None? <==>
        || !(-0x8000_0000_0000_0000 <= delta < 0x8000_0000_0000_0000)
        || delta == -0x8000_0000_0000_0000
        || (delta > 0 && Count(x.p, me) + delta >= 0x1_0000_0000_0000_0000)
        || (delta < 0 && Count(x.n, me) - delta >= 0x1_0000_0000_0000_0000)
        || (x.acquired.val != (if acquired then 1 else 0) && x.acquired.clock + 1 >= 0x1_0000_0000)
    ensures Show(x).None? ==> EditItem(Some(x), q, acquired, me).None?
  {
    hide Sum, MergeItem;
  }

  // ---------- merging the edited copy back is the edited copy ----------

  lemma EditedCopyAbove(x: Item, q: nat, acquired: bool, me: Uuid)
    requires EditedCopy(x, q, acquired, me).Some?
    ensures ItemLe(x, EditedCopy(x, q, acquired, me).value)
  {}

  lemma MergeWithEditedCopy(x: Item, q: nat, acquired: bool, me: Uuid)
    requires EditedCopy(x, q, acquired, me).Some?
    ensures EditItem(Some(x), q, acquired, me) == EditedCopy(x, q, acquired, me)
  {
    var y := EditedCopy(x, q, acquired, me).value;
    EditedCopyAbove(x, q, acquired, me);
    ItemMergeLeast(x, y, y);
    ItemMergeAbove(x, y);
    ItemLeAntisymmetric(MergeItem(x, y), y);
  }

  // ---------- set, then show ----------

  lemma SumsAfterEdit(x: Item, q: nat, acquired: bool, me: Uuid)
    requires EditedCopy(x, q, acquired, me).Some?
    ensures var y, delta := EditedCopy(x, q, acquired, me).value, AsI64(q) - Total(x).value;
      && Sum(y.p) == Sum(x.p) + (if delta > 0 then delta else 0)
      && Sum(y.n) == Sum(x.n) + (if delta < 0 then -delta else 0)
  {
    hide Sum;
    var delta := AsI64(q) - Total(x).value;
    if delta > 0 {
      SumUpdate(x.p, me, Count(x.p, me) + delta);
    } else if delta < 0 {
      SumUpdate(x.n, me, Count(x.n, me) - delta);
    }
  }

  /** The wrapped total moves by the wrapped delta, so it lands on q modulo 2^64. */
  lemma CastsCancel(sp: nat, sn: nat, sp': nat, sn': nat, q: nat)
    requires sp < U64 && sn < U64 && sp' < U64 && sn' < U64 && q < U64
    requires sp' - sn' == sp - sn + (AsI64(q) - (AsI64(sp) - AsI64(sn)))
    requires FitsI64(AsI64(sp') - AsI64(sn'))
    ensures AsU64(AsI64(sp') - AsI64(sn')) == q
  {}

  lemma SetThenShowStored(x: Item, q: nat, acquired: bool, me: Uuid)
    requires q < U64 && EditedCopy(x, q, acquired, me).Some?
    ensures var shown := Show(EditedCopy(x, q, acquired, me).value);
      shown.Some? ==> shown.value == (q, acquired)
  {
    hide Sum;
    SumsAfterEdit(x, q, acquired, me);
    var y := EditedCopy(x, q, acquired, me).value;
    if Total(y).Some? {
      CastsCancel(Sum(x.p), Sum(x.n), Sum(y.p), Sum(y.n), q);
    }
  }

  /** Whatever is stored, an edit that can be shown at all shows exactly what was requested:
      the wrapping casts cancel. */
  lemma SetThenShow(before: Option<Item>, q: nat, acquired: bool, me: Uuid)
    requires q < U64 && EditItem(before, q, acquired, me).Some?
    ensures var shown := Show(EditItem(before, q, acquired, me).value);
      shown.Some? ==> shown.value == (q, acquired)
  {
    hide Sum;
    match before {
      case None =>
        NewItemShows(q, acquired, me);
      case Some(x) =>
        MergeWithEditedCopy(x, q, acquired, me);
        SetThenShowStored(x, q, acquired, me);
    }
  }

  /** A new item can always be shown. */
  lemma NewItemShows(q: nat, acquired: bool, me: Uuid)
    requires q < U64
    ensures Show(NewItem(q, acquired, me)) == Some((q, acquired))
  {
    SumUpdate(map[], me, q);
    SumUpdate(map[], me, 0);
  }

  /** On an item whose sums, quantity and clock are in range, the request succeeds and shows
      (q, acquired) exactly when the removed total plus q stays below 2^63. */
  lemma SetThenShowIff(x: Item, q: nat, acquired: bool, me: Uuid)
    requires Sum(x.p) < I63 && Sum(x.n) < I63 && q < I63 && x.acquired.clock + 1 < U32
    ensures
      (EditItem(Some(x), q, acquired, me).Some?
       && Show(EditItem(Some(x), q, acquired, me).value) == Some((q, acquired)))
      <==> Sum(x.n) + q < I63
  {
    hide Sum;
    EntryBelowSum(x.p, me);
    EntryBelowSum(x.n, me);
    if EditedCopy(x, q, acquired, me).Some? {
      MergeWithEditedCopy(x, q, acquired, me);
      SumsAfterEdit(x, q, acquired, me);
      SetThenShow(Some(x), q, acquired, me);
    }
  }

  lemma EntryBelowSum(c: Counts, a: Uuid)
    ensures Count(c, a) <= Sum(c)
  {
    if a in c {
      SumRemove(c, a);
    }
  }
}

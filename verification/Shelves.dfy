/** The value of a shelf packer and the meaning of its operations.
    Widths are exact reals; a shelf is a horizontal strip of the bin of width 1.0. */
module Shelves {
  import opened MapSums
  import opened Options

  datatype Item = Item(id: int, width: real, height: int)

  datatype Shelf = Shelf(height: int, usedWidth: real, items: map<int, Item>)

  datatype Packer = Packer(
    maxHeight: int,
    shelves: seq<Shelf>,
    usedHeight: int,
    nextItemID: int,
    itemLocation: map<int, int>)

  function Width(item: Item): real { item.width }

  function Area(item: Item): real { item.width * item.height as real }

  function SumHeights(shelves: seq<Shelf>): int {
    if shelves == [] then 0 else shelves[0].height + SumHeights(shelves[1..])
  }

  // ---------------------------------------------------------------- invariant

  ghost predicate ItemOk(shelf: Shelf, id: int, next: int)
    requires id in shelf.items
  {
    && shelf.items[id].id == id
    && 1 <= id < next
    && 0.0 < shelf.items[id].width
    && 0 < shelf.items[id].height <= shelf.height
  }

  /** A shelf is never empty, caches the sum of its widths, and does not exceed the bin. */
  ghost predicate ShelfOk(shelf: Shelf, next: int) {
    && 0 < shelf.height
    && shelf.items != map[]
    && shelf.usedWidth == Sum(shelf.items, Width)
    && shelf.usedWidth <= 1.0
    && forall id :: id in shelf.items ==> ItemOk(shelf, id, next)
  }

  /** The index maps exactly the live IDs, each to the shelf that holds it. */
  ghost predicate Indexed(shelves: seq<Shelf>, location: map<int, int>) {
    && (forall id :: id in location ==>
          0 <= location[id] < |shelves| && id in shelves[location[id]].items)
    && (forall i, id :: 0 <= i < |shelves| && id in shelves[i].items ==>
          id in location && location[id] == i)
  }

  ghost predicate AllOk(shelves: seq<Shelf>, next: int) {
    forall i :: 0 <= i < |shelves| ==> ShelfOk(shelves[i], next)
  }

  lemma SliceOk(shelves: seq<Shelf>, next: int, i: nat, j: nat)
    requires AllOk(shelves, next) && i <= j <= |shelves|
    ensures AllOk(shelves[i..j], next)
  {
    forall k | 0 <= k < j - i ensures ShelfOk(shelves[i..j][k], next) {
      assert shelves[i..j][k] == shelves[i + k];
    }
  }

  ghost predicate Inv(s: Packer) {
    && 1 <= s.nextItemID
    && AllOk(s.shelves, s.nextItemID)
    && Indexed(s.shelves, s.itemLocation)
    && s.usedHeight == SumHeights(s.shelves)
    && (s.usedHeight <= s.maxHeight || s.shelves == [])
  }

  /** The abstract contents of a packer: its live items, by ID. */
  ghost function Contents(s: Packer): map<int, Item>
    requires Inv(s)
  {
    map id | id in s.itemLocation :: s.shelves[s.itemLocation[id]].items[id]
  }

  // --------------------------------------------------------------- operations

  function NewShelf(maxHeight: int): Packer {
    Packer(maxHeight, [], 0, 1, map[])
  }

  predicate ValidSize(s: Packer, w: real, h: int) {
    0.0 < w <= 1.0 && 0 < h <= s.maxHeight
  }

  predicate HasRoom(shelf: Shelf, w: real, h: int) {
    h <= shelf.height && shelf.usedWidth + w <= 1.0
  }

  /** The first shelf with room, or the number of shelves when there is none. */
  function FirstFit(shelves: seq<Shelf>, w: real, h: int): (k: nat)
    ensures k <= |shelves|
    ensures k < |shelves| ==> HasRoom(shelves[k], w, h)
    ensures forall i :: 0 <= i < k ==> !HasRoom(shelves[i], w, h)
  {
    if shelves == [] || HasRoom(shelves[0], w, h) then 0
    else 1 + FirstFit(shelves[1..], w, h)
  }

  datatype InsertResult = InsertResult(packer: Packer, id: Option<int>)

  function AddItem(shelf: Shelf, item: Item): Shelf {
    Shelf(shelf.height, shelf.usedWidth + item.width, shelf.items[item.id := item])
  }

  /** An attempt with a valid size consumes an ID even when there is no space. */
  function Insert(s: Packer, w: real, h: int): InsertResult {
    if !ValidSize(s, w, h) then InsertResult(s, None)
    else
      var id := s.nextItemID;
      var item := Item(id, w, h);
      var k := FirstFit(s.shelves, w, h);
      if k < |s.shelves| then
        InsertResult(
          s.(nextItemID := id + 1,
             shelves := s.shelves[k := AddItem(s.shelves[k], item)],
             itemLocation := s.itemLocation[id := k]),
          Some(id))
      else if h > s.maxHeight - s.usedHeight then
        InsertResult(s.(nextItemID := id + 1), None)
      else
        InsertResult(
          s.(nextItemID := id + 1,
             shelves := s.shelves + [Shelf(h, w, map[id := item])],
             usedHeight := s.usedHeight + h,
             itemLocation := s.itemLocation[id := |s.shelves|]),
          Some(id))
  }

  predicate CanFit(s: Packer, w: real, h: int) {
    FirstFit(s.shelves, w, h) < |s.shelves| || h <= s.maxHeight - s.usedHeight
  }

  datatype RemoveResult = RemoveResult(packer: Packer, shelfIdx: int)

  function TakeItem(shelf: Shelf, id: int): Shelf
    requires id in shelf.items
  {
    Shelf(shelf.height, shelf.usedWidth - shelf.items[id].width, shelf.items - {id})
  }

  function ShiftIndex(location: map<int, int>, k: int): map<int, int> {
    map id | id in location :: if location[id] > k then location[id] - 1 else location[id]
  }

  /** Removal by ID; an emptied shelf collapses and the index is shifted. */
  function Remove(s: Packer, id: int): RemoveResult
    requires Inv(s)
  {
    if id !in s.itemLocation then RemoveResult(s, -1)
    else
      var k := s.itemLocation[id];
      var shelf := TakeItem(s.shelves[k], id);
      if shelf.items == map[] then
        RemoveResult(
          s.(shelves := s.shelves[..k] + s.shelves[k + 1..],
             usedHeight := s.usedHeight - shelf.height,
             itemLocation := ShiftIndex(s.itemLocation - {id}, k)),
          k)
      else
        RemoveResult(
          s.(shelves := s.shelves[k := shelf], itemLocation := s.itemLocation - {id}),
          k)
  }

  // ----------------------------------------------------- sums over the shelves

  lemma {:induction false} SumHeightsConcat(a: seq<Shelf>, b: seq<Shelf>)
    ensures SumHeights(a + b) == SumHeights(a) + SumHeights(b)
  {
    if a == [] {
      assert a + b == b;
    } else {
      assert (a + b)[1..] == a[1..] + b;
      SumHeightsConcat(a[1..], b);
    }
  }

  lemma SplitAt(shelves: seq<Shelf>, k: nat, x: Shelf)
    requires k < |shelves|
    ensures shelves == shelves[..k] + [shelves[k]] + shelves[k + 1..]
    ensures shelves[k := x] == shelves[..k] + [x] + shelves[k + 1..]
  {}

  lemma SumHeightsAt(shelves: seq<Shelf>, k: nat, x: Shelf)
    requires k < |shelves|
    ensures SumHeights(shelves[k := x]) == SumHeights(shelves) - shelves[k].height + x.height
    ensures SumHeights(shelves[..k] + shelves[k + 1..]) == SumHeights(shelves) - shelves[k].height
  {
    var a, b := shelves[..k], shelves[k + 1..];
    SplitAt(shelves, k, x);
    SumHeightsConcat(a + [shelves[k]], b);
    SumHeightsConcat(a, [shelves[k]]);
    SumHeightsConcat(a + [x], b);
    SumHeightsConcat(a, [x]);
    SumHeightsConcat(a, b);
  }

  lemma {:induction false} SumHeightsPositive(shelves: seq<Shelf>, next: int)
    requires AllOk(shelves, next)
    ensures 0 <= SumHeights(shelves)
    ensures SumHeights(shelves) == 0 <==> shelves == []
  {
    if shelves != [] {
      assert ShelfOk(shelves[0], next);
      SliceOk(shelves, next, 1, |shelves|);
      SumHeightsPositive(shelves[1..], next);
    }
  }

  // ------------------------------------------------- the invariant is preserved

  lemma ShelfLater(shelf: Shelf, next: int, next': int)
    requires ShelfOk(shelf, next) && next <= next'
    ensures ShelfOk(shelf, next')
  {
    forall id | id in shelf.items ensures ItemOk(shelf, id, next') {
      assert ItemOk(shelf, id, next);
    }
  }

  lemma AllLater(shelves: seq<Shelf>, next: int, next': int)
    requires AllOk(shelves, next) && next <= next'
    ensures AllOk(shelves, next')
  {
    forall i | 0 <= i < |shelves| ensures ShelfOk(shelves[i], next') {
      ShelfLater(shelves[i], next, next');
    }
  }

  lemma AddItemOk(shelf: Shelf, w: real, h: int, id: int)
    requires ShelfOk(shelf, id) && HasRoom(shelf, w, h) && 0.0 < w && 0 < h && 1 <= id
    ensures ShelfOk(AddItem(shelf, Item(id, w, h)), id + 1)
  {
    var shelf' := AddItem(shelf, Item(id, w, h));
    assert forall j :: j in shelf.items ==> ItemOk(shelf, j, id) && j < id;
    SumInsert(shelf.items, Width, id, Item(id, w, h));
    assert id in shelf'.items;
    forall j | j in shelf'.items ensures ItemOk(shelf', j, id + 1) {
      if j != id { assert ItemOk(shelf, j, id); }
    }
  }

  lemma SingletonOk(w: real, h: int, id: int)
    requires 0.0 < w <= 1.0 && 0 < h && 1 <= id
    ensures ShelfOk(Shelf(h, w, map[id := Item(id, w, h)]), id + 1)
  {
    var m: map<int, Item> := map[];
    SumInsert(m, Width, id, Item(id, w, h));
    assert m[id := Item(id, w, h)] == map[id := Item(id, w, h)];
    assert id in map[id := Item(id, w, h)];
  }

  lemma TakeItemOk(shelf: Shelf, id: int, next: int)
    requires ShelfOk(shelf, next) && id in shelf.items
    requires TakeItem(shelf, id).items != map[]
    ensures ShelfOk(TakeItem(shelf, id), next)
  {
    SumRemove(shelf.items, Width, id);
    assert ItemOk(shelf, id, next);
    var shelf' := TakeItem(shelf, id);
    forall j | j in shelf'.items ensures ItemOk(shelf', j, next) {
      assert ItemOk(shelf, j, next);
    }
  }

  lemma FreshId(s: Packer)
    requires Inv(s)
    ensures s.nextItemID !in s.itemLocation
  {
    forall id | id in s.itemLocation ensures id < s.nextItemID {
      assert ItemOk(s.shelves[s.itemLocation[id]], id, s.nextItemID);
    }
  }

  lemma InsertJoins(s: Packer, w: real, h: int, k: nat)
    requires ValidSize(s, w, h) && FirstFit(s.shelves, w, h) == k < |s.shelves|
    ensures var id := s.nextItemID;
      Insert(s, w, h) == InsertResult(
        Packer(s.maxHeight, s.shelves[k := AddItem(s.shelves[k], Item(id, w, h))], s.usedHeight, id + 1,
               s.itemLocation[id := k]),
        Some(id))
  {}

  lemma InsertRejects(s: Packer, w: real, h: int)
    requires !ValidSize(s, w, h)
    ensures Insert(s, w, h) == InsertResult(s, None)
  {}

  lemma InsertFails(s: Packer, w: real, h: int)
    requires ValidSize(s, w, h) && FirstFit(s.shelves, w, h) == |s.shelves| && h > s.maxHeight - s.usedHeight
    ensures Insert(s, w, h) == InsertResult(
      Packer(s.maxHeight, s.shelves, s.usedHeight, s.nextItemID + 1, s.itemLocation), None)
  {}

  lemma InsertOpens(s: Packer, w: real, h: int)
    requires ValidSize(s, w, h) && FirstFit(s.shelves, w, h) == |s.shelves| && h <= s.maxHeight - s.usedHeight
    ensures var id := s.nextItemID;
      Insert(s, w, h) == InsertResult(
        Packer(s.maxHeight, s.shelves + [Shelf(h, w, map[id := Item(id, w, h)])], s.usedHeight + h, id + 1,
               s.itemLocation[id := |s.shelves|]),
        Some(id))
  {}

  lemma JoinInv(s: Packer, w: real, h: int, k: nat)
    requires Inv(s) && ValidSize(s, w, h) && k < |s.shelves| && HasRoom(s.shelves[k], w, h)
    ensures var id := s.nextItemID;
      Inv(Packer(s.maxHeight, s.shelves[k := AddItem(s.shelves[k], Item(id, w, h))], s.usedHeight, id + 1,
                 s.itemLocation[id := k]))
  {
    var id := s.nextItemID;
    var x := AddItem(s.shelves[k], Item(id, w, h));
    AllLater(s.shelves, id, id + 1);
    FreshId(s);
    AddItemOk(s.shelves[k], w, h, id);
    SumHeightsAt(s.shelves, k, x);
    assert forall j :: j in x.items <==> j == id || j in s.shelves[k].items;
  }

  lemma OpenInv(s: Packer, w: real, h: int)
    requires Inv(s) && ValidSize(s, w, h) && h <= s.maxHeight - s.usedHeight
    ensures var id := s.nextItemID;
      Inv(Packer(s.maxHeight, s.shelves + [Shelf(h, w, map[id := Item(id, w, h)])], s.usedHeight + h, id + 1,
                 s.itemLocation[id := |s.shelves|]))
  {
    var id := s.nextItemID;
    AllLater(s.shelves, id, id + 1);
    FreshId(s);
    SingletonOk(w, h, id);
    SumHeightsConcat(s.shelves, [Shelf(h, w, map[id := Item(id, w, h)])]);
  }

  lemma FailInv(s: Packer)
    requires Inv(s)
    ensures Inv(Packer(s.maxHeight, s.shelves, s.usedHeight, s.nextItemID + 1, s.itemLocation))
  {
    AllLater(s.shelves, s.nextItemID, s.nextItemID + 1);
  }

  /** Insertion keeps the invariant, success or not. */
  lemma InsertInv(s: Packer, w: real, h: int)
    requires Inv(s)
    ensures Inv(Insert(s, w, h).packer)
  {
    if ValidSize(s, w, h) {
      hide Inv, Insert;
      var k := FirstFit(s.shelves, w, h);
      if k < |s.shelves| {
        InsertJoins(s, w, h, k);
        JoinInv(s, w, h, k);
      } else if h <= s.maxHeight - s.usedHeight {
        InsertOpens(s, w, h);
        OpenInv(s, w, h);
      } else {
        InsertFails(s, w, h);
        FailInv(s);
      }
    }
  }

  /** What insertion does to the contents: exactly one new item, under a fresh ID. */
  lemma InsertContents(s: Packer, w: real, h: int)
    requires Inv(s)
    ensures Inv(Insert(s, w, h).packer)
    ensures var r := Insert(s, w, h);
      if r.id.Some? then
        && r.id.value !in Contents(s)
        && Contents(r.packer) == Contents(s)[r.id.value := Item(r.id.value, w, h)]
      else r.packer == s.(nextItemID := r.packer.nextItemID)
  {
    InsertInv(s, w, h);
    if ValidSize(s, w, h) {
      hide Insert, FirstFit;
      FreshId(s);
      var k := FirstFit(s.shelves, w, h);
      if k < |s.shelves| {
        InsertJoins(s, w, h, k);
        ContentsGrow(s, Insert(s, w, h).packer, Item(s.nextItemID, w, h));
      } else if h <= s.maxHeight - s.usedHeight {
        InsertOpens(s, w, h);
        ContentsGrow(s, Insert(s, w, h).packer, Item(s.nextItemID, w, h));
      } else {
        InsertFails(s, w, h);
      }
    }
  }

  lemma ContentsGrow(s: Packer, t: Packer, item: Item)
    requires Inv(s) && Inv(t)
    requires item.id !in s.itemLocation && t.itemLocation.Keys == s.itemLocation.Keys + {item.id}
    requires item.id in t.shelves[t.itemLocation[item.id]].items
    requires t.shelves[t.itemLocation[item.id]].items[item.id] == item
    requires forall j :: j in s.itemLocation ==>
      && t.itemLocation[j] == s.itemLocation[j]
      && j in t.shelves[t.itemLocation[j]].items
      && t.shelves[t.itemLocation[j]].items[j] == s.shelves[s.itemLocation[j]].items[j]
    ensures Contents(t) == Contents(s)[item.id := item]
  {
    assert Contents(t).Keys == t.itemLocation.Keys;
    assert Contents(s).Keys == s.itemLocation.Keys;
    assert forall j :: j in s.itemLocation ==> Contents(t)[j] == Contents(s)[j];
  }

  lemma WithoutShelf(shelves: seq<Shelf>, k: nat, i: nat)
    requires k < |shelves| && i < |shelves| && i != k
    ensures var rest := shelves[..k] + shelves[k + 1..];
      |rest| == |shelves| - 1 && rest[if i < k then i else i - 1] == shelves[i]
  {}

  lemma ShiftedAt(location: map<int, int>, id: int, k: int, j: int)
    ensures var shifted := ShiftIndex(location - {id}, k);
      && (j in shifted <==> j in location && j != id)
      && (j in shifted ==> shifted[j] == if location[j] > k then location[j] - 1 else location[j])
  {}

  lemma CollapseIndexed(shelves: seq<Shelf>, location: map<int, int>, id: int)
    requires Indexed(shelves, location) && id in location
    requires forall j :: j in shelves[location[id]].items ==> j == id
    ensures var k := location[id];
      Indexed(shelves[..k] + shelves[k + 1..], ShiftIndex(location - {id}, k))
  {
    hide ShiftIndex;
    var k := location[id];
    var rest, shifted := shelves[..k] + shelves[k + 1..], ShiftIndex(location - {id}, k);
    forall j | j in shifted
      ensures 0 <= shifted[j] < |rest| && j in rest[shifted[j]].items
    {
      ShiftedAt(location, id, k, j);
      WithoutShelf(shelves, k, location[j]);
    }
    forall i, j | 0 <= i < |rest| && j in rest[i].items
      ensures j in shifted && shifted[j] == i
    {
      WithoutShelf(shelves, k, if i < k then i else i + 1);
      ShiftedAt(location, id, k, j);
    }
  }

  lemma OnlyItem(shelf: Shelf, id: int)
    requires id in shelf.items && TakeItem(shelf, id).items == map[]
    ensures forall j :: j in shelf.items ==> j == id
  {
    assert shelf.items.Keys - {id} == TakeItem(shelf, id).items.Keys == {};
    assert shelf.items.Keys == {id};
  }

  /** Removal keeps the invariant, including the shift of the index on a collapse. */
  lemma RemoveInv(s: Packer, id: int)
    requires Inv(s)
    ensures Inv(Remove(s, id).packer)
  {
    if id in s.itemLocation {
      var k := s.itemLocation[id];
      var shelf := TakeItem(s.shelves[k], id);
      assert ShelfOk(s.shelves[k], s.nextItemID);
      SumHeightsAt(s.shelves, k, shelf);
      if shelf.items == map[] {
        OnlyItem(s.shelves[k], id);
        CollapseIndexed(s.shelves, s.itemLocation, id);
      } else {
        TakeItemOk(s.shelves[k], id, s.nextItemID);
      }
    }
  }

  lemma RemoveKeys(s: Packer, id: int)
    requires Inv(s)
    ensures var r := Remove(s, id);
      && r.packer.itemLocation.Keys == s.itemLocation.Keys - {id}
      && r.packer.nextItemID == s.nextItemID && r.packer.maxHeight == s.maxHeight
      && r.shelfIdx == (if id in s.itemLocation then s.itemLocation[id] else -1)
  {}

  lemma SurvivorUnchanged(s: Packer, id: int, j: int)
    requires Inv(s) && id in s.itemLocation && j in s.itemLocation && j != id
    ensures var t := Remove(s, id).packer;
      && j in t.itemLocation && 0 <= t.itemLocation[j] < |t.shelves|
      && j in t.shelves[t.itemLocation[j]].items
      && t.shelves[t.itemLocation[j]].items[j] == s.shelves[s.itemLocation[j]].items[j]
  {
    var k := s.itemLocation[id];
    if TakeItem(s.shelves[k], id).items == map[] {
      OnlyItem(s.shelves[k], id);
      assert s.itemLocation[j] != k;
    }
  }

  lemma SurvivorContents(s: Packer, id: int, j: int)
    requires Inv(s) && Inv(Remove(s, id).packer) && j in s.itemLocation && j != id
    ensures var t := Remove(s, id).packer;
      && j in t.itemLocation && j in Contents(t) && j in Contents(s) && Contents(t)[j] == Contents(s)[j]
  {
    if id in s.itemLocation { SurvivorUnchanged(s, id, j); }
  }

  lemma ContentsKeys(s: Packer)
    requires Inv(s)
    ensures Contents(s).Keys == s.itemLocation.Keys
  {}

  /** What removal does to the contents: that one item disappears, nothing else changes. */
  lemma RemoveContents(s: Packer, id: int)
    requires Inv(s)
    ensures Inv(Remove(s, id).packer)
    ensures Contents(Remove(s, id).packer) == Contents(s) - {id}
    ensures Remove(s, id).shelfIdx == if id in Contents(s) then s.itemLocation[id] else -1
    ensures Remove(s, id).packer.nextItemID == s.nextItemID
    ensures Remove(s, id).packer.maxHeight == s.maxHeight
  {
    hide Remove, Contents, Inv;
    RemoveInv(s, id);
    RemoveKeys(s, id);
    ContentsKeys(s);
    ContentsKeys(Remove(s, id).packer);
    forall j | j in Contents(s) && j != id
      ensures j in Contents(Remove(s, id).packer) && Contents(Remove(s, id).packer)[j] == Contents(s)[j]
    {
      SurvivorContents(s, id, j);
    }
  }

  /** An emptiness test on the shelves is an emptiness test on the contents. */
  lemma EmptyMeansNoItems(s: Packer)
    requires Inv(s)
    ensures s.shelves == [] <==> Contents(s) == map[]
    ensures Contents(s).Keys == s.itemLocation.Keys
  {
    assert Contents(s).Keys == s.itemLocation.Keys;
    if s.shelves != [] {
      assert ShelfOk(s.shelves[0], s.nextItemID);
      var id := SomeKey(s.shelves[0].items);
      assert id in Contents(s);
    } else if Contents(s) != map[] {
      var id := SomeKey(Contents(s));
    }
  }

  /** The caches are determined by the shelves. */
  lemma ShelvesDetermine(s: Packer, t: Packer)
    requires Inv(s) && Inv(t) && s.shelves == t.shelves
    ensures s.usedHeight == t.usedHeight && s.itemLocation == t.itemLocation
  {
    forall id | id in s.itemLocation
      ensures id in t.itemLocation && t.itemLocation[id] == s.itemLocation[id]
    {
      assert id in t.shelves[s.itemLocation[id]].items;
    }
    forall id | id in t.itemLocation ensures id in s.itemLocation {
      assert id in s.shelves[t.itemLocation[id]].items;
    }
  }

  /** The second item of the packer's own unit test joins the first shelf, where that test expects
      a second shelf. */
  lemma SecondItemJoinsFirstShelf()
    ensures var s := Insert(Insert(NewShelf(10), 0.5, 3).packer, 0.4, 2).packer;
      |s.shelves| == 1 && s.shelves[0].usedWidth == 0.9 && s.usedHeight == 3
  {
    var s := Insert(NewShelf(10), 0.5, 3).packer;
    assert s.shelves == [Shelf(3, 0.5, map[1 := Item(1, 0.5, 3)])];
    assert FirstFit(s.shelves, 0.4, 2) == 0;
  }
}

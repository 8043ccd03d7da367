/** Releasing many items: the state reached depends only on the set of IDs released, never on
    the order, and releasing what a run of insertions placed undoes the run. */
module ShelfRelease {
  import opened MapSums
  import opened Shelves
  import opened ShelfCapacity

  /** Removals one after another, in the order given; unknown IDs are ignored. */
  ghost function RemoveRun(s: Packer, order: seq<int>): Packer
    requires Inv(s)
    decreases order
  {
    if order == [] then s
    else
      RemoveInv(s, order[0]);
      RemoveRun(Remove(s, order[0]).packer, order[1..])
  }

  lemma RemoveNothing(s: Packer)
    requires Inv(s)
    ensures RemoveRun(s, []) == s
  {}

  function Ids(order: seq<int>): set<int> {
    set id | id in order
  }

  /** Reference definition: strike the IDs out of every shelf at once and keep what is left. */
  ghost function Strike(shelf: Shelf, ids: set<int>): Shelf {
    Shelf(shelf.height, Sum(shelf.items - ids, Width), shelf.items - ids)
  }

  ghost function Drop(shelves: seq<Shelf>, ids: set<int>): seq<Shelf> {
    if shelves == [] then []
    else if (shelves[0].items - ids) == map[] then Drop(shelves[1..], ids)
    else [Strike(shelves[0], ids)] + Drop(shelves[1..], ids)
  }

  lemma {:induction false} DropConcat(a: seq<Shelf>, b: seq<Shelf>, ids: set<int>)
    ensures Drop(a + b, ids) == Drop(a, ids) + Drop(b, ids)
  {
    if a == [] {
      assert a + b == b;
    } else {
      assert (a + b)[1..] == a[1..] + b;
      DropConcat(a[1..], b, ids);
    }
  }

  lemma StrikeNothing(shelf: Shelf, next: int, ids: set<int>)
    requires ShelfOk(shelf, next) && shelf.items.Keys !! ids
    ensures shelf.items - ids == shelf.items && Strike(shelf, ids) == shelf
  {
    assert shelf.items - ids == shelf.items;
  }

  lemma {:induction false} DropNothing(shelves: seq<Shelf>, next: int, ids: set<int>)
    requires forall i :: 0 <= i < |shelves| ==> ShelfOk(shelves[i], next) && shelves[i].items.Keys !! ids
    ensures Drop(shelves, ids) == shelves
  {
    if shelves != [] {
      StrikeNothing(shelves[0], next, ids);
      DropNothing(shelves[1..], next, ids);
    }
  }

  lemma DropEmptySet(s: Packer)
    requires Inv(s)
    ensures Drop(s.shelves, {}) == s.shelves
  {
    DropNothing(s.shelves, s.nextItemID, {});
  }

  lemma {:induction false} DropTwice(shelves: seq<Shelf>, a: set<int>, b: set<int>)
    ensures Drop(Drop(shelves, a), b) == Drop(shelves, a + b)
  {
    if shelves != [] {
      var x := shelves[0];
      assert x.items - a - b == x.items - (a + b);
      DropTwice(shelves[1..], a, b);
      if x.items - a != map[] {
        assert Drop(shelves, a)[1..] == Drop(shelves[1..], a);
      } else {
        assert x.items - (a + b) == map[];
      }
    }
  }

  /** Striking IDs that occur on one shelf only touches that shelf only. */
  lemma DropAt(shelves: seq<Shelf>, k: nat, y: Shelf, next: int, ids: set<int>)
    requires k < |shelves|
    requires forall i :: 0 <= i < |shelves| && i != k ==>
               ShelfOk(shelves[i], next) && shelves[i].items.Keys !! ids
    ensures Drop(shelves[k := y], ids) == shelves[..k] + Drop([y], ids) + shelves[k + 1..]
  {
    var a, b := shelves[..k], shelves[k + 1..];
    SplitAt(shelves, k, y);
    DropConcat(a + [y], b, ids);
    DropConcat(a, [y], ids);
    DropNothing(a, next, ids);
    DropNothing(b, next, ids);
  }

  lemma DropOne(x: Shelf, next: int, id: int)
    requires ShelfOk(x, next) && id in x.items
    ensures Drop([x], {id}) == if TakeItem(x, id).items == map[] then [] else [TakeItem(x, id)]
  {
    SumRemove(x.items, Width, id);
  }

  lemma ElsewhereAbsent(shelves: seq<Shelf>, location: map<int, int>, id: int, i: nat)
    requires Indexed(shelves, location) && i < |shelves|
    requires id in location ==> location[id] != i
    ensures shelves[i].items.Keys !! {id}
  {}

  /** One removal is the striking of one ID. */
  lemma RemoveIsDrop(s: Packer, id: int)
    requires Inv(s)
    ensures Remove(s, id).packer.shelves == Drop(s.shelves, {id})
  {
    forall i | 0 <= i < |s.shelves| && !(id in s.itemLocation && s.itemLocation[id] == i)
      ensures s.shelves[i].items.Keys !! {id}
    {
      ElsewhereAbsent(s.shelves, s.itemLocation, id, i);
    }
    if id !in s.itemLocation {
      DropNothing(s.shelves, s.nextItemID, {id});
    } else {
      var k := s.itemLocation[id];
      DropAt(s.shelves, k, s.shelves[k], s.nextItemID, {id});
      DropOne(s.shelves[k], s.nextItemID, id);
      assert s.shelves[k := s.shelves[k]] == s.shelves;
      SplitAt(s.shelves, k, TakeItem(s.shelves[k], id));
    }
  }

  /** Any run of removals, with repetitions and unknown IDs, is the striking of its set of IDs. */
  lemma {:induction false} RemoveRunIsDrop(s: Packer, order: seq<int>)
    requires Inv(s)
    ensures var t := RemoveRun(s, order);
      && Inv(t)
      && t.shelves == Drop(s.shelves, Ids(order))
      && Contents(t) == Contents(s) - Ids(order)
      && t.nextItemID == s.nextItemID && t.maxHeight == s.maxHeight
    decreases order
  {
    hide Inv, Drop, Contents, Remove;
    if order == [] {
      DropEmptySet(s);
      assert Ids(order) == {};
      assert Contents(s) - {} == Contents(s);
    } else {
      var t := Remove(s, order[0]).packer;
      RemoveContents(s, order[0]);
      RemoveIsDrop(s, order[0]);
      RemoveRunIsDrop(t, order[1..]);
      DropTwice(s.shelves, {order[0]}, Ids(order[1..]));
      assert {order[0]} + Ids(order[1..]) == Ids(order);
      assert Contents(s) - {order[0]} - Ids(order[1..]) == Contents(s) - Ids(order);
    }
  }

  lemma {:induction false} RemoveRunAppend(s: Packer, order: seq<int>, id: int)
    requires Inv(s)
    ensures Inv(RemoveRun(s, order))
    ensures RemoveRun(s, order + [id]) == Remove(RemoveRun(s, order), id).packer
    decreases order
  {
    hide Inv, Remove;
    if order == [] {
      RemoveInv(s, id);
      assert (order + [id])[1..] == [];
    } else {
      RemoveInv(s, order[0]);
      RemoveRunAppend(Remove(s, order[0]).packer, order[1..], id);
      assert (order + [id])[1..] == order[1..] + [id];
    }
  }

  /** The order of the removals does not matter: the whole state is the same. */
  lemma ReleaseOrderIrrelevant(s: Packer, order: seq<int>, order': seq<int>)
    requires Inv(s) && Ids(order) == Ids(order')
    ensures RemoveRun(s, order) == RemoveRun(s, order')
  {
    RemoveRunIsDrop(s, order);
    RemoveRunIsDrop(s, order');
    ShelvesDetermine(RemoveRun(s, order), RemoveRun(s, order'));
  }

  lemma {:induction false} RemoveRunNeverLowersCapacity(s: Packer, order: seq<int>, w: real, h: int)
    requires Inv(s)
    ensures MaxInsertable(s, w, h) <= MaxInsertable(RemoveRun(s, order), w, h)
    decreases order
  {
    if order != [] {
      RemoveInv(s, order[0]);
      RemoveNeverLowersCapacity(s, order[0], w, h);
      RemoveRunNeverLowersCapacity(Remove(s, order[0]).packer, order[1..], w, h);
    }
  }

  // ---------------------------------------------------------------- round trips

  /** Removing the item just inserted restores the shelves. */
  lemma RemoveUndoesInsert(s: Packer, w: real, h: int)
    requires Inv(s) && Succeeds(s, w, h)
    ensures Drop(Insert(s, w, h).packer.shelves, {s.nextItemID}) == s.shelves
  {
    var id := s.nextItemID;
    var k := FirstFit(s.shelves, w, h);
    FreshId(s);
    forall i | 0 <= i < |s.shelves| ensures s.shelves[i].items.Keys !! {id} {
      ElsewhereAbsent(s.shelves, s.itemLocation, id, i);
    }
    if k < |s.shelves| {
      var x := s.shelves[k];
      var y := AddItem(x, Item(id, w, h));
      DropAt(s.shelves, k, y, id, {id});
      StrikeAdded(x, id, w, h);
      SplitAt(s.shelves, k, x);
      assert s.shelves[k := x] == s.shelves;
    } else {
      var y := Shelf(h, w, map[id := Item(id, w, h)]);
      DropConcat(s.shelves, [y], {id});
      DropNothing(s.shelves, id, {id});
      assert y.items - {id} == map[];
    }
  }

  lemma StrikeAdded(x: Shelf, id: int, w: real, h: int)
    requires ShelfOk(x, id) && x.items.Keys !! {id}
    ensures Drop([AddItem(x, Item(id, w, h))], {id}) == [x]
  {
    assert AddItem(x, Item(id, w, h)).items - {id} == x.items;
  }

  lemma RunUnfold(s: Packer, w: real, h: int, n: nat)
    requires 0 < n && Succeeds(s, w, h)
    ensures var rest := InsertRun(Insert(s, w, h).packer, w, h, n - 1);
      && InsertRun(s, w, h, n) == RunResult(rest.packer, [s.nextItemID] + rest.ids)
      && Ids([s.nextItemID] + rest.ids) == {s.nextItemID} + Ids(rest.ids)
    ensures Insert(s, w, h).packer.nextItemID == s.nextItemID + 1
    ensures Insert(s, w, h).packer.maxHeight == s.maxHeight
  {
  }

  lemma RunStops(s: Packer, w: real, h: int, n: nat)
    requires n == 0 || !Succeeds(s, w, h)
    ensures var r := InsertRun(s, w, h, n);
      && r.ids == [] && Ids(r.ids) == {}
      && r.packer == s.(nextItemID := r.packer.nextItemID)
      && s.nextItemID <= r.packer.nextItemID
      && (r.packer == s || r.packer == Insert(s, w, h).packer)
  {}

  lemma {:induction false} RunIdsConsecutive(s: Packer, w: real, h: int, n: nat)
    ensures var r := InsertRun(s, w, h, n);
      && s.nextItemID + |r.ids| <= r.packer.nextItemID
      && r.packer.maxHeight == s.maxHeight
      && (forall i :: 0 <= i < |r.ids| ==> r.ids[i] == s.nextItemID + i)
    decreases n
  {
    if n == 0 || !Succeeds(s, w, h) {
      RunStops(s, w, h, n);
    } else {
      RunUnfold(s, w, h, n);
      RunIdsConsecutive(Insert(s, w, h).packer, w, h, n - 1);
    }
  }

  lemma InsertKeys(s: Packer, w: real, h: int)
    requires Succeeds(s, w, h)
    ensures Insert(s, w, h).packer.itemLocation.Keys == s.itemLocation.Keys + {s.nextItemID}
  {}

  /** The IDs handed out by a run are fresh, and with the old ones are exactly the live IDs. */
  lemma {:induction false} RunIdsLive(s: Packer, w: real, h: int, n: nat)
    requires Inv(s)
    ensures var r := InsertRun(s, w, h, n);
      && Inv(r.packer)
      && r.packer.itemLocation.Keys == s.itemLocation.Keys + Ids(r.ids)
      && s.itemLocation.Keys !! Ids(r.ids)
    decreases n
  {
    hide *;
    InsertInv(s, w, h);
    if n == 0 || !Succeeds(s, w, h) {
      RunStops(s, w, h, n);
    } else {
      RunUnfold(s, w, h, n);
      InsertKeys(s, w, h);
      FreshId(s);
      RunIdsLive(Insert(s, w, h).packer, w, h, n - 1);
    }
  }

  /** Striking what a run placed restores the shelves the run started from. */
  lemma {:induction false} DropUndoesRun(s: Packer, w: real, h: int, n: nat)
    requires Inv(s)
    ensures var r := InsertRun(s, w, h, n);
      Drop(r.packer.shelves, Ids(r.ids)) == s.shelves
    decreases n
  {
    hide *;
    if n == 0 || !Succeeds(s, w, h) {
      RunStops(s, w, h, n);
      DropEmptySet(s);
    } else {
      InsertInv(s, w, h);
      RunUnfold(s, w, h, n);
      DropUndoesRun(Insert(s, w, h).packer, w, h, n - 1);
      RemoveUndoesInsert(s, w, h);
      var rest := InsertRun(Insert(s, w, h).packer, w, h, n - 1);
      DropTwice(rest.packer.shelves, Ids(rest.ids), {s.nextItemID});
      assert {s.nextItemID} + Ids(rest.ids) == Ids(rest.ids) + {s.nextItemID};
    }
  }

  /** Round trip: placing up to `n` items and releasing those that were placed, in any order,
      restores the packer in everything but the ID counter. */
  lemma InsertThenReleaseIsIdentity(s: Packer, w: real, h: int, n: nat, order: seq<int>)
    requires Inv(s) && Ids(order) == Ids(InsertRun(s, w, h, n).ids)
    ensures Inv(InsertRun(s, w, h, n).packer)
    ensures var t := RemoveRun(InsertRun(s, w, h, n).packer, order);
      t == s.(nextItemID := t.nextItemID)
  {
    var r := InsertRun(s, w, h, n);
    RunIdsLive(s, w, h, n);
    RunIdsConsecutive(s, w, h, n);
    RemoveRunIsDrop(r.packer, order);
    DropUndoesRun(s, w, h, n);
    ShelvesDetermine(s, RemoveRun(r.packer, order));
  }

  /** A count that fitted still fits after any removals. */
  lemma CommitAfterReleases(s: Packer, w: real, h: int, n: nat, order: seq<int>)
    requires Inv(s) && n <= MaxInsertable(s, w, h)
    ensures Inv(RemoveRun(s, order))
    ensures |InsertRun(RemoveRun(s, order), w, h, n).ids| == n
  {
    RemoveRunIsDrop(s, order);
    RemoveRunNeverLowersCapacity(s, order, w, h);
    MaxInsertableIsExact(RemoveRun(s, order), w, h, n);
  }
}

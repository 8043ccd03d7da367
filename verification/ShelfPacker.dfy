/** The packer as the program keeps it: an object whose operations update its fields in place.
    Every method is tied to the value-level operation of module `Shelves`. */
module ShelfPacking {
  import opened Arithmetic
  import opened MapSums
  import opened Options
  import opened Shelves
  import opened ShelfCapacity

  /** The re-indexing loop of a collapse, in arbitrary map order. */
  method ShiftLocations(before: map<int, int>, shelfIdx: int) returns (location: map<int, int>)
    ensures location == ShiftIndex(before, shelfIdx)
  {
    location := before;
    var todo := before.Keys;
    while todo != {}
      invariant todo <= before.Keys && location.Keys == before.Keys
      invariant forall id :: id in todo ==> location[id] == before[id]
      invariant forall id :: id in before && id !in todo ==>
                  location[id] == if before[id] > shelfIdx then before[id] - 1 else before[id]
      decreases todo
    {
      ghost var someId := SomeElement(todo);
      var id :| id in todo;
      if location[id] > shelfIdx {
        location := location[id := location[id] - 1];
      }
      todo := todo - {id};
    }
    assert forall id :: id in before ==> location[id] == ShiftIndex(before, shelfIdx)[id];
  }

  class ShelfPacker {
    var maxHeight: int
    var shelves: seq<Shelf>
    var usedHeight: int
    var nextItemID: int
    var itemLocation: map<int, int>

    function State(): Packer
      reads this
    {
      Packer(maxHeight, shelves, usedHeight, nextItemID, itemLocation)
    }

    ghost predicate Valid()
      reads this
    {
      Inv(State())
    }

    constructor (maxHeight: int)
      ensures Valid()
      ensures State() == NewShelf(maxHeight)
    {
      this.maxHeight := maxHeight;
      shelves := [];
      usedHeight := 0;
      nextItemID := 1;
      itemLocation := map[];
    }

    /** The first-fit loop. */
    method FindShelf(width: real, height: int) returns (idx: nat)
      ensures idx == FirstFit(shelves, width, height)
    {
      idx := 0;
      while idx < |shelves| && !(height <= shelves[idx].height && shelves[idx].usedWidth + width <= 1.0)
        invariant 0 <= idx <= |shelves|
        invariant forall i :: 0 <= i < idx ==> !HasRoom(shelves[i], width, height)
      {
        idx := idx + 1;
      }
      FirstFitIs(shelves, width, height, idx);
    }

    /** First-fit insertion; `None` is the error return. */
    method Insert(width: real, height: int) returns (result: Option<int>)
      requires Valid()
      modifies this
      ensures Valid()
      ensures State() == Shelves.Insert(old(State()), width, height).packer
      ensures result == Shelves.Insert(old(State()), width, height).id
    {
      hide Inv, FirstFit, Shelves.Insert;
      ghost var before := State();
      InsertInv(before, width, height);
      if width <= 0.0 || width > 1.0 {
        InsertRejects(before, width, height);
        return None;
      }
      if height <= 0 || height > maxHeight {
        InsertRejects(before, width, height);
        return None;
      }
      var itemID := nextItemID;
      nextItemID := nextItemID + 1;
      var item := Item(itemID, width, height);
      var idx := FindShelf(width, height);
      if idx < |shelves| {
        InsertJoins(before, width, height, idx);
        var shelf := shelves[idx];
        shelf := shelf.(items := shelf.items[itemID := item]);
        shelf := shelf.(usedWidth := shelf.usedWidth + width);
        shelves := shelves[idx := shelf];
        itemLocation := itemLocation[itemID := idx];
        return Some(itemID);
      }
      var remaining := maxHeight - usedHeight;
      if height > remaining {
        InsertFails(before, width, height);
        return None;
      }
      InsertOpens(before, width, height);
      var newShelf := Shelf(height, width, map[itemID := item]);
      shelves := shelves + [newShelf];
      usedHeight := usedHeight + height;
      itemLocation := itemLocation[itemID := |shelves| - 1];
      return Some(itemID);
    }

    /** Predicts whether an insertion of a valid size would succeed. */
    method CanFit(width: real, height: int) returns (ok: bool)
      requires Valid()
      ensures ok == Shelves.CanFit(State(), width, height)
      ensures ValidSize(State(), width, height) ==> ok == Succeeds(State(), width, height)
    {
      PredictorsAgree(State(), width, height);
      var idx := FindShelf(width, height);
      return idx < |shelves| || height <= maxHeight - usedHeight;
    }

    /** Removal by ID with collapse of an emptied shelf. The returned index is -1 on error. */
    method Remove(itemID: int) returns (shelfIdx: int)
      requires Valid()
      modifies this
      ensures Valid()
      ensures State() == Shelves.Remove(old(State()), itemID).packer
      ensures shelfIdx == Shelves.Remove(old(State()), itemID).shelfIdx
    {
      RemoveInv(State(), itemID);
      hide SumHeights, AllOk;
      if itemID !in itemLocation {
        return -1;
      }
      shelfIdx := itemLocation[itemID];
      var shelf := shelves[shelfIdx];
      assert itemID in shelf.items; // the "item data missing in shelf" error cannot occur
      var item := shelf.items[itemID];
      shelf := shelf.(items := shelf.items - {itemID});
      shelf := shelf.(usedWidth := shelf.usedWidth - item.width);
      shelves := shelves[shelfIdx := shelf];
      itemLocation := itemLocation - {itemID};
      if shelf.items == map[] {
        usedHeight := usedHeight - shelf.height;
        shelves := shelves[..shelfIdx] + shelves[shelfIdx + 1..];
        itemLocation := ShiftLocations(itemLocation, shelfIdx);
      }
    }

    method IsEmpty() returns (empty: bool)
      requires Valid()
      ensures empty <==> Contents(State()) == map[]
    {
      EmptyMeansNoItems(State());
      return |shelves| == 0;
    }

    /** The number of further items of one size that can be inserted. */
    method MaxInsertableItems(width: real, height: int) returns (count: int)
      requires Valid()
      ensures count == MaxInsertable(State(), width, height)
      ensures count >= 0 && |InsertRun(State(), width, height, count + 1).ids| == count
    {
      hide InsertRun, Inv, SumHeights, RoomAll;
      CountIsPrediction(State(), width, height);
      RoomOfNone(width, height);
      if width <= 0.0 || width > 1.0 || height <= 0 || height > maxHeight {
        return 0;
      }
      count := 0;
      var used := 0;
      var idx := 0;
      while idx < |shelves|
        invariant 0 <= idx <= |shelves|
        invariant count == RoomAll(shelves[..idx], width, height)
        invariant used == SumHeights(shelves[..idx])
      {
        var shelf := shelves[idx];
        assert shelves[..idx + 1] == shelves[..idx] + [shelf];
        RoomAllConcat(shelves[..idx], [shelf], width, height);
        SumHeightsConcat(shelves[..idx], [shelf]);
        RoomOfOne(shelf, width, height);
        if height <= shelf.height {
          var remainingWidth := 1.0 - shelf.usedWidth;
          count := count + Truncate(remainingWidth / width);
        }
        used := used + shelf.height;
        idx := idx + 1;
      }
      assert shelves[..idx] == shelves;
      var remainingHeight := maxHeight - used;
      var numNewShelves := remainingHeight / height;
      var itemsPerShelf := Truncate(1.0 / width);
      count := count + numNewShelves * itemsPerShelf;
    }
  }

  lemma CountIsPrediction(s: Packer, w: real, h: int)
    requires Inv(s)
    ensures var count := MaxInsertable(s, w, h); count >= 0 && |InsertRun(s, w, h, count + 1).ids| == count
  {
    hide Inv, InsertRun, MaxInsertable;
    PredictorsAgree(s, w, h);
    MaxInsertableIsExact(s, w, h, MaxInsertable(s, w, h) + 1);
  }

  lemma RoomOfNone(w: real, h: int)
    ensures SumHeights([]) == 0 && (0.0 < w ==> RoomAll([], w, h) == 0)
  {}

  lemma RoomOfOne(shelf: Shelf, w: real, h: int)
    requires 0.0 < w
    ensures SumHeights([shelf]) == shelf.height && RoomAll([shelf], w, h) == Room(shelf, w, h)
  {}

  /** First-fit is determined by its contract. */
  lemma FirstFitIs(shelves: seq<Shelf>, w: real, h: int, k: nat)
    requires k <= |shelves|
    requires k < |shelves| ==> HasRoom(shelves[k], w, h)
    requires forall i :: 0 <= i < k ==> !HasRoom(shelves[i], w, h)
    ensures FirstFit(shelves, w, h) == k
  {
  }
}

/** The closed-form capacity predictor, and its agreement with actual runs of insertions. */
module ShelfCapacity {
  import opened Arithmetic
  import opened MapSums
  import opened Shelves

  /** Slots left on one existing shelf. */
  function Room(shelf: Shelf, w: real, h: int): int
    requires 0.0 < w
  {
    if h <= shelf.height then Slots(1.0 - shelf.usedWidth, w) else 0
  }

  function RoomAll(shelves: seq<Shelf>, w: real, h: int): int
    requires 0.0 < w
  {
    if shelves == [] then 0 else Room(shelves[0], w, h) + RoomAll(shelves[1..], w, h)
  }

  /** Slots obtained by stacking new shelves into a remaining height. */
  function NewRoom(remaining: int, w: real, h: int): int
    requires 0.0 < w && 0 < h
  {
    (remaining / h) * Slots(1.0, w)
  }

  function MaxInsertable(s: Packer, w: real, h: int): int {
    if !ValidSize(s, w, h) then 0
    else RoomAll(s.shelves, w, h) + NewRoom(s.maxHeight - SumHeights(s.shelves), w, h)
  }

  // ------------------------------------------------------------ sums of rooms

  lemma {:induction false} RoomAllConcat(a: seq<Shelf>, b: seq<Shelf>, w: real, h: int)
    requires 0.0 < w
    ensures RoomAll(a + b, w, h) == RoomAll(a, w, h) + RoomAll(b, w, h)
  {
    if a == [] {
      assert a + b == b;
    } else {
      assert (a + b)[1..] == a[1..] + b;
      RoomAllConcat(a[1..], b, w, h);
    }
  }

  lemma RoomAllAt(shelves: seq<Shelf>, k: nat, x: Shelf, w: real, h: int)
    requires k < |shelves| && 0.0 < w
    ensures RoomAll(shelves[k := x], w, h)
         == RoomAll(shelves, w, h) - Room(shelves[k], w, h) + Room(x, w, h)
    ensures RoomAll(shelves[..k] + shelves[k + 1..], w, h)
         == RoomAll(shelves, w, h) - Room(shelves[k], w, h)
  {
    var a, b := shelves[..k], shelves[k + 1..];
    SplitAt(shelves, k, x);
    RoomAllConcat(a + [shelves[k]], b, w, h);
    RoomAllConcat(a, [shelves[k]], w, h);
    RoomAllConcat(a + [x], b, w, h);
    RoomAllConcat(a, [x], w, h);
    RoomAllConcat(a, b, w, h);
  }

  lemma RoomZero(shelf: Shelf, next: int, w: real, h: int)
    requires ShelfOk(shelf, next) && 0.0 < w
    ensures 0 <= Room(shelf, w, h)
    ensures Room(shelf, w, h) == 0 <==> !HasRoom(shelf, w, h)
  {
    SlotsNone(1.0 - shelf.usedWidth, w);
  }

  /** Existing shelves offer no slot exactly when first-fit passes all of them. */
  lemma {:induction false} RoomAllZero(shelves: seq<Shelf>, next: int, w: real, h: int)
    requires AllOk(shelves, next) && 0.0 < w
    ensures 0 <= RoomAll(shelves, w, h)
    ensures RoomAll(shelves, w, h) == 0 <==> FirstFit(shelves, w, h) == |shelves|
  {
    if shelves != [] {
      RoomZero(shelves[0], next, w, h);
      SliceOk(shelves, next, 1, |shelves|);
      RoomAllZero(shelves[1..], next, w, h);
    }
  }

  lemma NewRoomZero(remaining: int, w: real, h: int)
    requires 0.0 < w <= 1.0 && 0 < h && 0 <= remaining
    ensures 0 <= NewRoom(remaining, w, h)
    ensures NewRoom(remaining, w, h) == 0 <==> remaining < h
  {
    SlotsNone(1.0, w);
    DivMonotone(0, remaining, h);
    if remaining >= h {
      DivMonotone(h, remaining, h);
      DivTakeOne(h, h);
      MulLe(1, remaining / h, Slots(1.0, w));
    } else {
      DivUnique(remaining, h, 0, remaining);
    }
  }

  // ----------------------------------------------- one insertion, one slot less

  predicate Succeeds(s: Packer, w: real, h: int) {
    Insert(s, w, h).id.Some?
  }

  /** For every size whatever, the three predictors agree with the attempt itself. */
  lemma PredictorsAgree(s: Packer, w: real, h: int)
    requires Inv(s)
    ensures 0 <= MaxInsertable(s, w, h)
    ensures Succeeds(s, w, h) <==> ValidSize(s, w, h) && CanFit(s, w, h)
    ensures Succeeds(s, w, h) <==> 1 <= MaxInsertable(s, w, h)
  {
    if ValidSize(s, w, h) {
      RoomAllZero(s.shelves, s.nextItemID, w, h);
      NewRoomZero(s.maxHeight - s.usedHeight, w, h);
    }
  }

  lemma JoinTakesOneSlot(shelves: seq<Shelf>, next: int, k: nat, item: Item)
    requires AllOk(shelves, next) && k < |shelves| && 0.0 < item.width
    requires HasRoom(shelves[k], item.width, item.height)
    ensures var joined := shelves[k := AddItem(shelves[k], item)];
      && RoomAll(joined, item.width, item.height) == RoomAll(shelves, item.width, item.height) - 1
      && SumHeights(joined) == SumHeights(shelves)
  {
    var x := AddItem(shelves[k], item);
    assert ShelfOk(shelves[k], next);
    SlotsTakeOne(1.0 - shelves[k].usedWidth, item.width);
    assert 1.0 - x.usedWidth == 1.0 - shelves[k].usedWidth - item.width;
    RoomAllAt(shelves, k, x, item.width, item.height);
    SumHeightsAt(shelves, k, x);
  }

  lemma OpenTakesOneSlot(shelves: seq<Shelf>, remaining: int, x: Shelf)
    requires 0.0 < x.usedWidth <= 1.0 && 0 < x.height <= remaining
    ensures RoomAll(shelves + [x], x.usedWidth, x.height) + NewRoom(remaining - x.height, x.usedWidth, x.height)
         == RoomAll(shelves, x.usedWidth, x.height) + NewRoom(remaining, x.usedWidth, x.height) - 1
    ensures SumHeights(shelves + [x]) == SumHeights(shelves) + x.height
  {
    hide Slots;
    RoomAllConcat(shelves, [x], x.usedWidth, x.height);
    assert RoomAll([x], x.usedWidth, x.height) == Room(x, x.usedWidth, x.height);
    SumHeightsConcat(shelves, [x]);
    SlotsTakeOne(1.0, x.usedWidth);
    OneShelfLess(remaining, x.usedWidth, x.height);
  }

  lemma OneShelfLess(remaining: int, w: real, h: int)
    requires 0.0 < w && 0 < h <= remaining
    ensures NewRoom(remaining - h, w, h) == NewRoom(remaining, w, h) - Slots(1.0, w)
  {
    hide Slots;
    DivTakeOne(remaining, h);
    NextMultiple((remaining - h) / h, Slots(1.0, w));
  }

  lemma NextMultiple(q: int, n: int)
    ensures (q + 1) * n == q * n + n
  {}

  /** `CanFit` does not look at the validity of a size: it accepts a width of zero, or one wider than
      the bin, that an insertion refuses. */
  lemma CanFitAcceptsInvalidSizes()
    ensures var s := NewShelf(10);
      && CanFit(s, 0.0, 1) && !Succeeds(s, 0.0, 1)
      && CanFit(s, 1.5, 1) && !Succeeds(s, 1.5, 1)
  {}

  /** A success lowers the predicted count by one, whether it joins a shelf or opens one. */
  lemma InsertTakesOneSlot(s: Packer, w: real, h: int)
    requires Inv(s) && Succeeds(s, w, h)
    ensures MaxInsertable(Insert(s, w, h).packer, w, h) == MaxInsertable(s, w, h) - 1
  {
    hide RoomAll, NewRoom, SumHeights;
    var k := FirstFit(s.shelves, w, h);
    var item := Item(s.nextItemID, w, h);
    if k < |s.shelves| {
      JoinTakesOneSlot(s.shelves, s.nextItemID, k, item);
    } else {
      OpenTakesOneSlot(s.shelves, s.maxHeight - s.usedHeight, Shelf(h, w, map[item.id := item]));
    }
  }

  // ---------------------------------------------------------- runs of insertions

  datatype RunResult = RunResult(packer: Packer, ids: seq<int>)

  /** Up to `n` insertions of the same size, stopping at the first failure. */
  function InsertRun(s: Packer, w: real, h: int, n: nat): RunResult
    decreases n
  {
    if n == 0 then RunResult(s, [])
    else
      var r := Insert(s, w, h);
      if r.id.None? then RunResult(r.packer, [])
      else
        var rest := InsertRun(r.packer, w, h, n - 1);
        RunResult(rest.packer, [r.id.value] + rest.ids)
  }

  /** The predictor is exact: of `n` attempts precisely `min(n, MaxInsertable)` succeed, and
      the predicted count of the state reached is what was predicted minus what was placed. */
  lemma {:induction false} MaxInsertableIsExact(s: Packer, w: real, h: int, n: nat)
    requires Inv(s)
    ensures var r := InsertRun(s, w, h, n);
      && Inv(r.packer)
      && |r.ids| == Min(n, MaxInsertable(s, w, h))
      && MaxInsertable(r.packer, w, h) == MaxInsertable(s, w, h) - |r.ids|
    decreases n
  {
    PredictorsAgree(s, w, h);
    if n > 0 {
      InsertInv(s, w, h);
      if Succeeds(s, w, h) {
        InsertTakesOneSlot(s, w, h);
        MaxInsertableIsExact(Insert(s, w, h).packer, w, h, n - 1);
      }
    }
  }

  /** After exactly that many insertions the next attempt fails. */
  lemma NextInsertFails(s: Packer, w: real, h: int)
    requires Inv(s)
    ensures 0 <= MaxInsertable(s, w, h)
    ensures var r := InsertRun(s, w, h, MaxInsertable(s, w, h));
      |r.ids| == MaxInsertable(s, w, h) && !Succeeds(r.packer, w, h)
  {
    PredictorsAgree(s, w, h);
    var n := MaxInsertable(s, w, h);
    MaxInsertableIsExact(s, w, h, n);
    PredictorsAgree(InsertRun(s, w, h, n).packer, w, h);
  }

  // ------------------------------------------------------- capacity is monotone

  lemma RoomGrows(a: Shelf, b: Shelf, w: real, h: int)
    requires 0.0 < w && a.height == b.height && b.usedWidth <= a.usedWidth <= 1.0
    ensures Room(a, w, h) <= Room(b, w, h)
  {
    SlotsMonotone(1.0 - a.usedWidth, 1.0 - b.usedWidth, w);
  }

  /** Giving a shelf's height back to the free strip is worth at least the slots on it. */
  lemma CollapseGains(shelf: Shelf, next: int, remaining: int, w: real, h: int)
    requires ShelfOk(shelf, next) && 0.0 < w <= 1.0 && 0 < h && 0 <= remaining
    ensures NewRoom(remaining, w, h) + Room(shelf, w, h) <= NewRoom(remaining + shelf.height, w, h)
  {
    var n := Slots(1.0, w);
    SlotsNone(1.0, w);
    if h <= shelf.height {
      UsedWidthPositive(shelf, next);
      SlotsMonotone(1.0 - shelf.usedWidth, 1.0, w);
      DivMonotone(remaining + h, remaining + shelf.height, h);
      DivTakeOne(remaining + h, h);
      MulLe(remaining / h + 1, (remaining + shelf.height) / h, n);
      assert (remaining / h + 1) * n == NewRoom(remaining, w, h) + n;
    } else {
      DivMonotone(remaining, remaining + shelf.height, h);
      MulLe(remaining / h, (remaining + shelf.height) / h, n);
    }
  }

  lemma UsedWidthPositive(shelf: Shelf, next: int)
    requires ShelfOk(shelf, next)
    ensures 0.0 <= shelf.usedWidth
  {
    forall id | id in shelf.items ensures 0.0 <= Width(shelf.items[id]) {
      assert ItemOk(shelf, id, next);
    }
    SumNonNegative(shelf.items, Width);
  }

  /** A removal never lowers the capacity for any size, collapse or not. */
  lemma RemoveNeverLowersCapacity(s: Packer, id: int, w: real, h: int)
    requires Inv(s)
    ensures MaxInsertable(s, w, h) <= MaxInsertable(Remove(s, id).packer, w, h)
  {
    if id in s.itemLocation && ValidSize(s, w, h) {
      var k := s.itemLocation[id];
      var shelf := TakeItem(s.shelves[k], id);
      assert ShelfOk(s.shelves[k], s.nextItemID) && ItemOk(s.shelves[k], id, s.nextItemID);
      RoomAllAt(s.shelves, k, shelf, w, h);
      SumHeightsAt(s.shelves, k, shelf);
      if shelf.items == map[] {
        CollapseGains(s.shelves[k], s.nextItemID, s.maxHeight - s.usedHeight, w, h);
      } else {
        RoomGrows(s.shelves[k], shelf, w, h);
      }
    }
  }

  /** An insertion never raises the capacity for any size, joining or opening a shelf. */
  lemma InsertNeverRaisesCapacity(s: Packer, w0: real, h0: int, w: real, h: int)
    requires Inv(s)
    ensures MaxInsertable(Insert(s, w0, h0).packer, w, h) <= MaxInsertable(s, w, h)
  {
    var r := Insert(s, w0, h0);
    if r.id.Some? && ValidSize(s, w, h) {
      var k := FirstFit(s.shelves, w0, h0);
      InsertInv(s, w0, h0);
      assert ShelfOk(r.packer.shelves[k], r.packer.nextItemID);
      if k < |s.shelves| {
        RoomAllAt(s.shelves, k, r.packer.shelves[k], w, h);
        SumHeightsAt(s.shelves, k, r.packer.shelves[k]);
        RoomGrows(r.packer.shelves[k], s.shelves[k], w, h);
      } else {
        var shelf := r.packer.shelves[k];
        RoomAllConcat(s.shelves, [shelf], w, h);
        assert RoomAll([shelf], w, h) == Room(shelf, w, h);
        SumHeightsConcat(s.shelves, [shelf]);
        CollapseGains(shelf, r.packer.nextItemID, s.maxHeight - s.usedHeight - shelf.height, w, h);
      }
    }
  }

  /** Whatever was removed can be put back: a size just freed always fits again. */
  lemma RemovedSizeFitsAgain(s: Packer, id: int)
    requires Inv(s) && id in Contents(s)
    ensures var item := Contents(s)[id];
      Succeeds(Remove(s, id).packer, item.width, item.height)
  {
    var k := s.itemLocation[id];
    var before := s.shelves[k];
    var item := before.items[id];
    var t := Remove(s, id).packer;
    RemoveInv(s, id);
    assert ShelfOk(before, s.nextItemID) && ItemOk(before, id, s.nextItemID);
    SumHeightsAt(s.shelves, k, before);
    WidthBound(before, s.nextItemID, id);
    HeightBound(s, k);
    if TakeItem(before, id).items != map[] {
      assert HasRoom(t.shelves[k], item.width, item.height);
    }
  }

  lemma WidthBound(shelf: Shelf, next: int, id: int)
    requires ShelfOk(shelf, next) && id in shelf.items
    ensures shelf.items[id].width <= shelf.usedWidth
  {
    forall j | j in shelf.items ensures 0.0 <= Width(shelf.items[j]) {
      assert ItemOk(shelf, j, next);
    }
    SumRemove(shelf.items, Width, id);
    SumRestrict(shelf.items, Width, {id});
  }

  lemma HeightBound(s: Packer, k: nat)
    requires Inv(s) && k < |s.shelves|
    ensures s.shelves[k].height <= s.usedHeight <= s.maxHeight
  {
    var rest := s.shelves[..k] + s.shelves[k + 1..];
    SumHeightsAt(s.shelves, k, s.shelves[k]);
    SumHeightsPositive(rest, s.nextItemID);
  }
}

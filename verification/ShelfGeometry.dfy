/** Geometric soundness: every reachable packer denotes an overlap-free placement in the bin. */
module ShelfGeometry {
  import opened Arithmetic
  import opened MapSums
  import opened Shelves

  datatype Rect = Rect(x: real, y: int, width: real, height: int)

  /** Items of a shelf side by side in ID order; shelves stacked in sequence order. */
  ghost function Before(items: map<int, Item>, id: int): map<int, Item> {
    map j | j in items && j < id :: items[j]
  }

  ghost function Place(s: Packer, id: int): Rect
    requires Inv(s) && id in Contents(s)
  {
    var k := s.itemLocation[id];
    var items := s.shelves[k].items;
    Rect(Sum(Before(items, id), Width), SumHeights(s.shelves[..k]), items[id].width, items[id].height)
  }

  predicate Overlap(a: Rect, b: Rect) {
    && a.x < b.x + b.width && b.x < a.x + a.width
    && a.y < b.y + b.height && b.y < a.y + a.height
  }

  predicate Inside(a: Rect, maxHeight: int) {
    && 0.0 <= a.x && a.x + a.width <= 1.0
    && 0 <= a.y && a.y + a.height <= maxHeight
  }

  lemma WidthsPositive(shelf: Shelf, next: int)
    requires ShelfOk(shelf, next)
    ensures forall j :: j in shelf.items ==> 0.0 <= Width(shelf.items[j])
  {
    forall j | j in shelf.items ensures 0.0 <= Width(shelf.items[j]) {
      assert ItemOk(shelf, j, next);
    }
  }

  /** The strip of an item ends before the strip of any later item starts. */
  lemma StripsInOrder(items: map<int, Item>, a: int, b: int)
    requires a in items && a < b
    requires forall j :: j in items ==> 0.0 <= Width(items[j])
    ensures Sum(Before(items, a), Width) + items[a].width <= Sum(Before(items, b), Width)
  {
    var upToB := Before(items, b);
    SumRemove(upToB, Width, a);
    var others := set j | j in upToB && j > a;
    assert Before(items, a) == (upToB - {a}) - others;
    SumRestrict(upToB - {a}, Width, others);
  }

  lemma StripInShelf(shelf: Shelf, next: int, a: int)
    requires ShelfOk(shelf, next) && a in shelf.items
    ensures 0.0 <= Sum(Before(shelf.items, a), Width)
    ensures Sum(Before(shelf.items, a), Width) + shelf.items[a].width <= 1.0
  {
    WidthsPositive(shelf, next);
    SumNonNegative(Before(shelf.items, a), Width);
    SumRemove(shelf.items, Width, a);
    var others := set j | j in shelf.items && j > a;
    assert Before(shelf.items, a) == (shelf.items - {a}) - others;
    assert forall j :: j in shelf.items - {a} ==> 0.0 <= Width((shelf.items - {a})[j]);
    SumRestrict(shelf.items - {a}, Width, others);
  }

  /** Shelves lie one above the other. */
  lemma BandsInOrder(s: Packer, i: nat, j: nat)
    requires Inv(s) && i <= j <= |s.shelves|
    ensures 0 <= SumHeights(s.shelves[..i]) <= SumHeights(s.shelves[..j]) <= s.usedHeight
    ensures i < j ==> SumHeights(s.shelves[..i]) + s.shelves[i].height <= SumHeights(s.shelves[..j])
  {
    var a, m, z := s.shelves[..i], s.shelves[i..j], s.shelves[j..];
    assert s.shelves[..j] == a + m;
    assert s.shelves == s.shelves[..j] + z;
    SumHeightsConcat(a, m);
    SumHeightsConcat(s.shelves[..j], z);
    SliceOk(s.shelves, s.nextItemID, i, j);
    SliceOk(s.shelves, s.nextItemID, j, |s.shelves|);
    SumHeightsPositive(a, s.nextItemID);
    SumHeightsPositive(m, s.nextItemID);
    SumHeightsPositive(z, s.nextItemID);
    if i < j {
      assert m == [s.shelves[i]] + s.shelves[i + 1..j];
      SumHeightsConcat([s.shelves[i]], s.shelves[i + 1..j]);
      SliceOk(s.shelves, s.nextItemID, i + 1, j);
      SumHeightsPositive(s.shelves[i + 1..j], s.nextItemID);
    }
  }

  /** Every item lies within the bin of width 1.0 and height `maxHeight`. */
  lemma PlacementInside(s: Packer, id: int)
    requires Inv(s) && id in Contents(s)
    ensures Inside(Place(s, id), s.maxHeight)
  {
    var k := s.itemLocation[id];
    assert ShelfOk(s.shelves[k], s.nextItemID) && ItemOk(s.shelves[k], id, s.nextItemID);
    StripInShelf(s.shelves[k], s.nextItemID, id);
    BandsInOrder(s, k, k + 1);
  }

  /** No two items overlap. */
  lemma PlacementDisjoint(s: Packer, a: int, b: int)
    requires Inv(s) && a in Contents(s) && b in Contents(s) && a != b
    ensures !Overlap(Place(s, a), Place(s, b))
  {
    var i, j := s.itemLocation[a], s.itemLocation[b];
    assert ShelfOk(s.shelves[i], s.nextItemID) && ItemOk(s.shelves[i], a, s.nextItemID);
    assert ShelfOk(s.shelves[j], s.nextItemID) && ItemOk(s.shelves[j], b, s.nextItemID);
    if i < j {
      BandsInOrder(s, i, j);
    } else if j < i {
      BandsInOrder(s, j, i);
    } else {
      WidthsPositive(s.shelves[i], s.nextItemID);
      if a < b {
        StripsInOrder(s.shelves[i].items, a, b);
      } else {
        StripsInOrder(s.shelves[i].items, b, a);
      }
    }
  }

  // ------------------------------------------------------------------- area

  ghost function Merge(shelves: seq<Shelf>): map<int, Item> {
    if shelves == [] then map[] else shelves[0].items + Merge(shelves[1..])
  }

  ghost predicate Apart(shelves: seq<Shelf>) {
    forall i, j :: 0 <= i < j < |shelves| ==> shelves[i].items.Keys !! shelves[j].items.Keys
  }

  lemma {:induction false} MergeFrom(shelves: seq<Shelf>, id: int) returns (i: nat)
    requires id in Merge(shelves)
    ensures i < |shelves| && id in shelves[i].items
  {
    if id in Merge(shelves[1..]) {
      i := MergeFrom(shelves[1..], id);
      i := i + 1;
    } else {
      i := 0;
    }
  }

  lemma {:induction false} MergeHas(shelves: seq<Shelf>, i: nat, id: int)
    requires Apart(shelves) && i < |shelves| && id in shelves[i].items
    ensures id in Merge(shelves) && Merge(shelves)[id] == shelves[i].items[id]
  {
    var tail := shelves[1..];
    assert Apart(tail);
    if 0 < i {
      MergeHas(tail, i - 1, id);
    } else {
      forall other | other in Merge(tail) ensures other !in shelves[0].items {
        var j := MergeFrom(tail, other);
        assert shelves[0].items.Keys !! shelves[j + 1].items.Keys;
      }
    }
  }

  lemma ShelvesApart(s: Packer)
    requires Inv(s)
    ensures Apart(s.shelves)
  {
    forall i, j | 0 <= i < j < |s.shelves|
      ensures s.shelves[i].items.Keys !! s.shelves[j].items.Keys
    {
      assert forall id :: id in s.shelves[i].items ==> s.itemLocation[id] == i;
      assert forall id :: id in s.shelves[j].items ==> s.itemLocation[id] == j;
    }
  }

  lemma MergeIsContents(s: Packer)
    requires Inv(s)
    ensures Merge(s.shelves) == Contents(s)
  {
    hide Merge, Apart;
    ShelvesApart(s);
    var merged, contents := Merge(s.shelves), Contents(s);
    forall id | id in merged ensures id in contents {
      var i := MergeFrom(s.shelves, id);
    }
    forall id | id in contents ensures id in merged && merged[id] == contents[id] {
      MergeHas(s.shelves, s.itemLocation[id], id);
    }
  }

  lemma AreaStep(item: Item, height: int, widths: real, areas: real)
    requires 0.0 <= item.width && item.height <= height && areas <= widths * height as real
    ensures Area(item) + areas <= (Width(item) + widths) * height as real
  {
    ScaleLe(item.height as real, height as real, item.width);
    Distribute(item.width, widths, height as real);
  }

  lemma {:induction false} AreaSum(items: map<int, Item>, height: int)
    requires forall id :: id in items ==> 0.0 <= items[id].width && items[id].height <= height
    ensures Sum(items, Area) <= Sum(items, Width) * height as real
    decreases |items|
  {
    hide Area, Width;
    if items != map[] {
      var k := SomeKey(items);
      RemoveSize(items, k);
      AreaSum(items - {k}, height);
      SumRemove(items, Area, k);
      SumRemove(items, Width, k);
      AreaStep(items[k], height, Sum(items - {k}, Width), Sum(items - {k}, Area));
    }
  }

  lemma ShelfArea(shelf: Shelf, next: int)
    requires ShelfOk(shelf, next)
    ensures Sum(shelf.items, Area) <= shelf.height as real
  {
    forall id | id in shelf.items
      ensures 0.0 <= shelf.items[id].width && shelf.items[id].height <= shelf.height
    {
      assert ItemOk(shelf, id, next);
    }
    AreaSum(shelf.items, shelf.height);
    ScaleLe(shelf.usedWidth, 1.0, shelf.height as real);
  }

  lemma {:induction false} MergedArea(shelves: seq<Shelf>, next: int)
    requires AllOk(shelves, next) && Apart(shelves)
    ensures Sum(Merge(shelves), Area) <= SumHeights(shelves) as real
  {
    if shelves != [] {
      var x, tail := shelves[0], shelves[1..];
      forall i | 0 <= i < |tail| ensures ShelfOk(tail[i], next) && tail[i].items.Keys !! x.items.Keys {
        assert tail[i] == shelves[i + 1];
      }
      MergedArea(tail, next);
      ShelfArea(x, next);
      forall id | id in Merge(tail) ensures id !in x.items {
        var i := MergeFrom(tail, id);
      }
      assert x.items.Keys !! Merge(tail).Keys;
      SumUnion(x.items, Merge(tail), Area);
    }
  }

  /** The area of all items never exceeds the used height, nor that the bin. */
  lemma AreaBound(s: Packer)
    requires Inv(s) && s.shelves != []
    ensures Sum(Contents(s), Area) <= s.usedHeight as real <= s.maxHeight as real
  {
    ShelvesApart(s);
    MergeIsContents(s);
    MergedArea(s.shelves, s.nextItemID);
  }

  // -------------------------------------------------------------- every run

  datatype Call = InsertCall(width: real, height: int) | RemoveCall(id: int)

  /** The packer after any sequence of calls, with any arguments, on a new packer. */
  ghost function Reached(maxHeight: int, calls: seq<Call>): (s: Packer)
    ensures Inv(s) && s.maxHeight == maxHeight
  {
    if calls == [] then NewShelf(maxHeight)
    else
      var n := |calls| - 1;
      var s := Reached(maxHeight, calls[..n]);
      match calls[n]
      case InsertCall(w, h) =>
        InsertInv(s, w, h);
        Insert(s, w, h).packer
      case RemoveCall(id) =>
        RemoveContents(s, id);
        Remove(s, id).packer
  }

  /** Geometric soundness of every run. */
  lemma EveryRunIsSound(maxHeight: int, calls: seq<Call>)
    ensures var s := Reached(maxHeight, calls);
      && (forall id :: id in Contents(s) ==> Inside(Place(s, id), maxHeight))
      && (forall a, b :: a in Contents(s) && b in Contents(s) && a != b ==> !Overlap(Place(s, a), Place(s, b)))
      && (s.shelves != [] ==> Sum(Contents(s), Area) <= s.usedHeight as real <= maxHeight as real)
  {
    hide Inv, Contents, Place, Inside, Overlap, Sum, Reached;
    var s := Reached(maxHeight, calls);
    forall id | id in Contents(s) ensures Inside(Place(s, id), maxHeight) {
      PlacementInside(s, id);
    }
    forall a, b | a in Contents(s) && b in Contents(s) && a != b ensures !Overlap(Place(s, a), Place(s, b)) {
      PlacementDisjoint(s, a, b);
    }
    if s.shelves != [] {
      AreaBound(s);
    }
  }
}

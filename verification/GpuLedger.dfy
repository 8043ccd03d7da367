/** One GPU: its packer and its memory counter, and what committing, releasing and shrinking a
    replica group does to them. Memory is accounted with the signs the program uses. */
module GpuLedger {
  import opened Arithmetic
  import opened Configs
  import opened MapSums
  import opened Options
  import opened Shelves
  import opened ShelfCapacity
  import opened ShelfRelease

  datatype Gpu = Gpu(
    uuid: string,
    gpuType: string,
    totalMemory: int,
    usageMemory: int,
    totalSM: int,
    costPerSecond: int,
    allocationType: AllocationType,
    packer: Packer)

  function AvailableMemory(g: Gpu): int { g.totalMemory - g.usageMemory }

  // ----------------------------------------------------------------- operations

  datatype CommitResult = CommitResult(gpu: Gpu, config: Config, items: set<int>, ok: bool)

  function Attempts(c: Config): nat { Max(0, c.requiredReplica) }

  function Placed(g: Gpu, c: Config): RunResult {
    InsertRun(g.packer, c.quotaReq, c.smPartition, Attempts(c))
  }

  /** The memory counter after a commit: booked for all required, given back for those that failed. */
  function Booked(usage: int, memory: int, required: int, placed: int): int {
    var booked := usage - memory * required;
    if placed < required then booked + memory * (required - placed) else booked
  }

  /** Commits a replica group: the memory is booked first and rolled back for what failed. */
  function Commit(g: Gpu, c: Config, items: set<int>): CommitResult {
    var run := Placed(g, c);
    var n := |run.ids|;
    CommitResult(
      g.(allocationType := c.allocationType,
         usageMemory := Booked(g.usageMemory, c.memoryReq, c.requiredReplica, n),
         packer := run.packer),
      c.(allocatedReplica := n, allocatedRPS := c.qpsPerReplica * n as real),
      items + Ids(run.ids),
      !(n < c.requiredReplica))
  }

  /** An order in which a map iteration may visit a set of IDs. */
  ghost predicate Enumerates(order: seq<int>, items: set<int>) {
    && Ids(order) == items
    && forall i, j :: 0 <= i < j < |order| ==> order[i] != order[j]
  }

  /** Such an order always exists. */
  lemma {:induction false} SomeOrder(items: set<int>) returns (order: seq<int>)
    ensures Enumerates(order, items)
    decreases |items|
  {
    if items == {} {
      order := [];
      assert Ids(order) == {};
    } else {
      var id := SomeElement(items);
      var rest := SomeOrder(items - {id});
      order := [id] + rest;
      assert Ids(order) == {id} + Ids(rest);
    }
  }

  ghost function Release(g: Gpu, c: Config, order: seq<int>): Gpu
    requires Inv(g.packer)
  {
    g.(packer := RemoveRun(g.packer, order),
       usageMemory := g.usageMemory + c.memoryReq * c.allocatedReplica)
  }

  /** The IDs a reduction to `newCount` replicas takes, visiting the items in the given order. */
  function Taken(c: Config, newCount: int, order: seq<int>): seq<int> {
    order[..Min(Max(0, c.allocatedReplica - newCount), |order|)]
  }

  ghost function Reduce(g: Gpu, c: Config, newCount: int, order: seq<int>): Gpu
    requires Inv(g.packer)
  {
    g.(packer := RemoveRun(g.packer, Taken(c, newCount, order)),
       usageMemory := g.usageMemory - c.memoryReq * (c.allocatedReplica - newCount))
  }

  // ----------------------------------------------------------- laws of a commit

  /** A commit places as many replicas as were predicted to fit, at most those required; it
      reports success exactly when all fit, and records what it placed. */
  lemma CommitPlacesWhatFits(g: Gpu, c: Config, items: set<int>)
    requires Inv(g.packer)
    ensures var r := Commit(g, c, items);
      var fits := MaxInsertable(g.packer, c.quotaReq, c.smPartition);
      && Inv(r.gpu.packer)
      && r.config.allocatedReplica == Min(Attempts(c), fits)
      && (r.ok <==> c.requiredReplica <= fits)
      && r.config.allocatedRPS == c.qpsPerReplica * r.config.allocatedReplica as real
  {
    hide InsertRun, MaxInsertable, Inv, Booked;
    PredictorsAgree(g.packer, c.quotaReq, c.smPartition);
    MaxInsertableIsExact(g.packer, c.quotaReq, c.smPartition, Attempts(c));
  }

  /** The IDs a commit hands out are new, one per replica placed, and live. */
  lemma CommitIds(g: Gpu, c: Config)
    requires Inv(g.packer)
    ensures var r := Commit(g, c, {});
      && Inv(r.gpu.packer)
      && r.gpu.packer.itemLocation.Keys == g.packer.itemLocation.Keys + r.items
      && g.packer.itemLocation.Keys !! r.items
      && |r.items| == r.config.allocatedReplica
  {
    hide InsertRun, Inv, Booked;
    RunIdsLive(g.packer, c.quotaReq, c.smPartition, Attempts(c));
    RunIdsConsecutive(g.packer, c.quotaReq, c.smPartition, Attempts(c));
    DistinctSize(Placed(g, c).ids);
  }

  /** The rollback leaves exactly the placed replicas booked. */
  lemma CommitMemory(g: Gpu, c: Config, items: set<int>)
    requires Inv(g.packer)
    ensures var r := Commit(g, c, items);
      && 0 <= r.config.allocatedReplica
      && (0 <= c.requiredReplica ==>
            r.gpu.usageMemory == g.usageMemory - c.memoryReq * r.config.allocatedReplica)
      && (c.requiredReplica < 0 ==>
            r.config.allocatedReplica == 0
            && r.gpu.usageMemory == g.usageMemory - c.memoryReq * c.requiredReplica)
  {
    hide InsertRun, MaxInsertable, Inv;
    CommitPlacesWhatFits(g, c, items);
    PredictorsAgree(g.packer, c.quotaReq, c.smPartition);
    if 0 <= c.requiredReplica {
      BookedPlaced(g.usageMemory, c.memoryReq, c.requiredReplica, |Placed(g, c).ids|);
    }
  }

  lemma BookedPlaced(usage: int, memory: int, required: int, placed: int)
    requires placed <= required
    ensures Booked(usage, memory, required, placed) == usage - memory * placed
  {
    assert memory * (required - placed) == memory * required - memory * placed;
  }

  lemma {:induction false} DistinctSize(order: seq<int>)
    requires forall i, j :: 0 <= i < j < |order| ==> order[i] != order[j]
    ensures |Ids(order)| == |order|
  {
    if order == [] {
      assert Ids(order) == {};
    } else {
      var rest := order[1..];
      DistinctSize(rest);
      assert order == [order[0]] + rest;
      assert Ids(order) == {order[0]} + Ids(rest);
      assert order[0] !in Ids(rest);
    }
  }

  /** Round trip: committing a fresh group and releasing it, in any order and for any number of
      replicas that were placed before a failure, restores the packer up to its ID counter; and it
      restores the memory counter exactly if the required count is not negative or needs no memory. */
  lemma CommitThenRelease(g: Gpu, c: Config, order: seq<int>)
    requires Inv(g.packer) && Ids(order) == Commit(g, c, {}).items
    ensures Inv(Commit(g, c, {}).gpu.packer)
    ensures var r := Commit(g, c, {});
      var back := Release(r.gpu, r.config, order);
      && back.packer == g.packer.(nextItemID := back.packer.nextItemID)
      && back == g.(packer := back.packer, allocationType := c.allocationType, usageMemory := back.usageMemory)
      && (back.usageMemory == g.usageMemory <==> 0 <= c.requiredReplica || c.memoryReq == 0)
  {
    hide InsertRun, Inv, RemoveRun, Booked, MaxInsertable;
    CommitPlacesWhatFits(g, c, {});
    CommitMemory(g, c, {});
    InsertThenReleaseIsIdentity(g.packer, c.quotaReq, c.smPartition, Attempts(c), order);
    if c.requiredReplica < 0 {
      NonZeroProduct(c.memoryReq, c.requiredReplica);
    }
  }

  lemma NonZeroProduct(a: int, b: int)
    requires b != 0
    ensures a * b == 0 <==> a == 0
  {}

  /** A reduction leaves the planned number of replicas exactly if the group still has all the
      replicas recorded for it, or is reduced to none: the record is not updated, so a second
      reduction starts from a stale count. */
  lemma ReduceMeetsPlan(c: Config, items: set<int>, newCount: nat, order: seq<int>)
    requires Enumerates(order, items)
    requires newCount <= c.allocatedReplica && |items| <= c.allocatedReplica
    ensures |items - Ids(Taken(c, newCount, order))| == Max(0, |items| - (c.allocatedReplica - newCount))
    ensures |items - Ids(Taken(c, newCount, order))| == newCount
       <==> |items| == c.allocatedReplica || newCount == 0
  {
    var taken := Taken(c, newCount, order);
    DistinctSize(order);
    DistinctSize(taken);
    assert Ids(taken) <= items;
    assert |items - Ids(taken)| == |items| - |Ids(taken)|;
  }

  // ---------------------------------------------------- many groups on one GPU

  datatype Held = Held(config: Config, items: set<int>)

  datatype Ledger = Ledger(gpu: Gpu, held: map<string, Held>)

  datatype Op =
    | CommitOp(config: Config)
    | ReleaseOp(uuid: string, order: seq<int>)
    | ReduceOp(uuid: string, newCount: int, order: seq<int>)

  /** What the callers keep to: fresh UUIDs, non-negative counts, only held groups are touched, and
      the item map of the group is iterated completely. */
  ghost predicate OpOk(l: Ledger, op: Op) {
    match op
    case CommitOp(c) => c.uuid !in l.held && 0 <= c.requiredReplica
    case ReleaseOp(u, order) => u in l.held && Enumerates(order, l.held[u].items)
    case ReduceOp(u, n, order) => u in l.held && Enumerates(order, l.held[u].items)
  }

  ghost function LedgerStep(l: Ledger, op: Op): Ledger
    requires Inv(l.gpu.packer) && OpOk(l, op)
  {
    match op
    case CommitOp(c) =>
      var r := Commit(l.gpu, c, {});
      Ledger(r.gpu, l.held[c.uuid := Held(r.config, r.items)])
    case ReleaseOp(u, order) =>
      Ledger(Release(l.gpu, l.held[u].config, order), l.held - {u})
    case ReduceOp(u, n, order) =>
      var h := l.held[u];
      Ledger(Reduce(l.gpu, h.config, n, order),
             l.held[u := h.(items := h.items - Ids(Taken(h.config, n, order)))])
  }

  /** The groups own disjoint sets of IDs that together are exactly the given ones. */
  ghost predicate Partition(held: map<string, Held>, ids: set<int>) {
    && (forall u :: u in held ==> held[u].items <= ids)
    && (forall u, v :: u in held && v in held && u != v ==> held[u].items !! held[v].items)
    && (forall id :: id in ids ==> exists u :: u in held && id in held[u].items)
  }

  /** Ownership: the groups partition the live IDs of the packer. */
  ghost predicate Owned(l: Ledger) {
    Inv(l.gpu.packer) && Partition(l.held, l.gpu.packer.itemLocation.Keys)
  }

  lemma PartitionAdd(held: map<string, Held>, ids: set<int>, u: string, h: Held)
    requires Partition(held, ids) && u !in held && h.items !! ids
    ensures Partition(held[u := h], ids + h.items)
  {
    var held' := held[u := h];
    forall id | id in ids + h.items ensures exists v :: v in held' && id in held'[v].items {
      if id in ids {
        var v :| v in held && id in held[v].items;
        assert v in held' && id in held'[v].items;
      } else {
        assert u in held' && id in held'[u].items;
      }
    }
  }

  lemma PartitionShrink(held: map<string, Held>, ids: set<int>, u: string, freed: set<int>)
    requires Partition(held, ids) && u in held && freed <= held[u].items
    ensures Partition(held[u := held[u].(items := held[u].items - freed)], ids - freed)
  {
    var held' := held[u := held[u].(items := held[u].items - freed)];
    forall id | id in ids - freed ensures exists v :: v in held' && id in held'[v].items {
      var v :| v in held && id in held[v].items;
      assert v in held' && id in held'[v].items;
    }
    forall v | v in held' ensures held'[v].items <= ids - freed {
      if v != u { assert held[v].items !! held[u].items; }
    }
  }

  lemma PartitionDrop(held: map<string, Held>, ids: set<int>, u: string)
    requires Partition(held, ids) && u in held
    ensures Partition(held - {u}, ids - held[u].items)
  {
    var held' := held - {u};
    forall id | id in ids - held[u].items ensures exists v :: v in held' && id in held'[v].items {
      var v :| v in held && id in held[v].items;
      assert v in held' && id in held'[v].items;
    }
    forall v | v in held' ensures held'[v].items <= ids - held[u].items {
      assert held[v].items !! held[u].items;
    }
  }

  /** IDs that one operation takes away. */
  ghost function Freed(l: Ledger, op: Op): set<int>
    requires OpOk(l, op)
  {
    match op
    case CommitOp(c) => {}
    case ReleaseOp(u, order) => l.held[u].items
    case ReduceOp(u, n, order) => Ids(Taken(l.held[u].config, n, order))
  }

  lemma FreedKeys(l: Ledger, u: string, order: seq<int>)
    requires Owned(l) && u in l.held && Ids(order) <= l.held[u].items
    ensures var t := RemoveRun(l.gpu.packer, order);
      && Inv(t)
      && t.itemLocation.Keys == l.gpu.packer.itemLocation.Keys - Ids(order)
  {
    RemoveRunIsDrop(l.gpu.packer, order);
    EmptyMeansNoItems(l.gpu.packer);
    EmptyMeansNoItems(RemoveRun(l.gpu.packer, order));
  }

  /** Every operation keeps the partition. */
  lemma OwnershipStep(l: Ledger, op: Op)
    requires Owned(l) && OpOk(l, op)
    ensures Owned(LedgerStep(l, op))
  {
    hide Inv, RemoveRun, Placed, Booked, Partition;
    var ids := l.gpu.packer.itemLocation.Keys;
    match op
    case CommitOp(c) =>
      CommitIds(l.gpu, c);
      var r := Commit(l.gpu, c, {});
      PartitionAdd(l.held, ids, c.uuid, Held(r.config, r.items));
    case ReleaseOp(u, order) =>
      FreedKeys(l, u, order);
      PartitionDrop(l.held, ids, u);
    case ReduceOp(u, n, order) =>
      var taken := Taken(l.held[u].config, n, order);
      FreedKeys(l, u, taken);
      PartitionShrink(l.held, ids, u, Ids(taken));
  }

  /** An operation on one group leaves the items of every other group where their contents are
      concerned, and its emptiness test tells whether any group still owns an item. */
  lemma OthersUntouched(l: Ledger, op: Op)
    requires Owned(l) && OpOk(l, op) && !op.CommitOp?
    ensures Owned(LedgerStep(l, op))
    ensures Contents(LedgerStep(l, op).gpu.packer) == Contents(l.gpu.packer) - Freed(l, op)
    ensures forall v :: v in l.held && v != op.uuid ==> l.held[v].items !! Freed(l, op)
    ensures var l' := LedgerStep(l, op);
      l'.gpu.packer.shelves == [] <==> forall v :: v in l'.held ==> l'.held[v].items == {}
  {
    OwnershipStep(l, op);
    var l' := LedgerStep(l, op);
    var order := match op case ReleaseOp(_, o) => o case ReduceOp(u, n, o) => Taken(l.held[u].config, n, o);
    assert Ids(order) <= l.held[op.uuid].items;
    RemoveRunIsDrop(l.gpu.packer, order);
    NoOwnerMeansEmpty(l');
  }

  lemma NoOwnerMeansEmpty(l: Ledger)
    requires Owned(l)
    ensures l.gpu.packer.shelves == [] <==> forall v :: v in l.held ==> l.held[v].items == {}
  {
    EmptyMeansNoItems(l.gpu.packer);
    if l.gpu.packer.shelves == [] {
      assert l.gpu.packer.itemLocation.Keys == {};
    } else {
      var id := SomeKey(Contents(l.gpu.packer));
      var u :| u in l.held && id in l.held[u].items;
    }
  }

  // ------------------------------------------------------------------ whole runs

  function FreshGpu(uuid: string, gpuType: string, totalMemory: int, totalSM: int, cost: int): Gpu {
    Gpu(uuid, gpuType, totalMemory, 0, totalSM, cost, NoType, NewShelf(totalSM))
  }

  /** The ledger after a run of operations by any number of groups on a fresh GPU. */
  ghost function Run(g: Gpu, ops: seq<Op>): (r: Option<Ledger>)
    requires Inv(g.packer) && g.packer.itemLocation == map[]
    ensures r.Some? ==> Owned(r.value)
  {
    if ops == [] then Some(Ledger(g, map[]))
    else
      var n := |ops| - 1;
      var l := Run(g, ops[..n]);
      if l.None? || !OpOk(l.value, ops[n]) then None
      else
        OwnershipStep(l.value, ops[n]);
        Some(LedgerStep(l.value, ops[n]))
  }

  function RecordedBytes(h: Held): real { (h.config.memoryReq * h.config.allocatedReplica) as real }

  function ReducedBytes(h: Held, newCount: int): int {
    h.config.memoryReq * (h.config.allocatedReplica - newCount)
  }

  /** Bytes booked by the reductions of a run. */
  ghost function TotalReduced(g: Gpu, ops: seq<Op>): real
    requires Inv(g.packer) && g.packer.itemLocation == map[]
    requires Run(g, ops).Some?
  {
    if ops == [] then 0.0
    else
      var n := |ops| - 1;
      TotalReduced(g, ops[..n]) +
      (if ops[n].ReduceOp?
       then ReducedBytes(Run(g, ops[..n]).value.held[ops[n].uuid], ops[n].newCount) as real
       else 0.0)
  }

  lemma MemoryStep(l: Ledger, op: Op)
    requires Owned(l) && OpOk(l, op)
    ensures var l' := LedgerStep(l, op);
      l'.gpu.usageMemory as real + Sum(l'.held, RecordedBytes)
      == l.gpu.usageMemory as real + Sum(l.held, RecordedBytes)
         - (if op.ReduceOp? then ReducedBytes(l.held[op.uuid], op.newCount) as real else 0.0)
    ensures LedgerStep(l, op).gpu.totalMemory == l.gpu.totalMemory
  {
    hide Inv, Placed, Booked, RemoveRun, Sum;
    var l' := LedgerStep(l, op);
    match op
    case CommitOp(c) =>
      CommitMemory(l.gpu, c, {});
      SumInsert(l.held, RecordedBytes, c.uuid, l'.held[c.uuid]);
    case ReleaseOp(u, order) =>
      SumRemove(l.held, RecordedBytes, u);
    case ReduceOp(u, n, order) =>
      SumUpdate(l.held, RecordedBytes, u, l'.held[u]);
  }

  /** Memory over every run: the counter goes down by what is on record and, on top, by everything that
      was ever reduced; so what is reported as available is the total plus both. */
  lemma {:induction false} MemoryLaw(g: Gpu, ops: seq<Op>)
    requires Inv(g.packer) && g.packer.itemLocation == map[] && Run(g, ops).Some?
    ensures var l := Run(g, ops).value;
      && l.gpu.usageMemory as real
         == g.usageMemory as real - Sum(l.held, RecordedBytes) - TotalReduced(g, ops)
      && l.gpu.totalMemory == g.totalMemory
  {
    if ops != [] {
      var n := |ops| - 1;
      MemoryLaw(g, ops[..n]);
      MemoryStep(Run(g, ops[..n]).value, ops[n]);
    }
  }

  /** The counter is back at its start after everything is released exactly if the reductions of
      the run booked nothing in total. */
  lemma MemoryReturnsIffNothingReduced(g: Gpu, ops: seq<Op>)
    requires Inv(g.packer) && g.packer.itemLocation == map[] && Run(g, ops).Some?
    requires Run(g, ops).value.held == map[]
    ensures Run(g, ops).value.gpu.usageMemory == g.usageMemory <==> TotalReduced(g, ops) == 0.0
  {
    MemoryLaw(g, ops);
  }

  /** Records over every run: no group ever owns more items than it has replicas on record. */
  lemma {:induction false} ItemsWithinRecord(g: Gpu, ops: seq<Op>)
    requires Inv(g.packer) && g.packer.itemLocation == map[] && Run(g, ops).Some?
    ensures var held := Run(g, ops).value.held;
      forall u :: u in held ==> |held[u].items| <= held[u].config.allocatedReplica
  {
    hide Inv, Placed, Booked, RemoveRun, Owned;
    if ops != [] {
      var n := |ops| - 1;
      ItemsWithinRecord(g, ops[..n]);
      var l := Run(g, ops[..n]).value;
      match ops[n]
      case CommitOp(c) =>
        InvOfOwned(l);
        CommitIds(l.gpu, c);
      case ReleaseOp(u, order) =>
      case ReduceOp(u, k, order) =>
        FewerItems(l.held[u].items, Ids(Taken(l.held[u].config, k, order)));
    }
  }

  lemma InvOfOwned(l: Ledger)
    requires Owned(l)
    ensures Inv(l.gpu.packer)
  {}

  lemma FewerItems(items: set<int>, taken: set<int>)
    ensures |items - taken| <= |items|
  {
    assert items == (items - taken) + (items * taken);
  }

  /** Runs in which memory sizes are not negative and reductions do not ask for more replicas. */
  ghost predicate Downward(g: Gpu, ops: seq<Op>)
    requires Inv(g.packer) && g.packer.itemLocation == map[] && Run(g, ops).Some?
  {
    ops != [] ==>
      var n := |ops| - 1;
      && Downward(g, ops[..n])
      && match ops[n]
         case CommitOp(c) => 0 <= c.memoryReq
         case ReleaseOp(_, _) => true
         case ReduceOp(u, k, _) => k <= Run(g, ops[..n]).value.held[u].config.allocatedReplica
  }

  lemma {:induction false} BytesNonNegative(g: Gpu, ops: seq<Op>)
    requires Inv(g.packer) && g.packer.itemLocation == map[] && Run(g, ops).Some? && Downward(g, ops)
    ensures var held := Run(g, ops).value.held;
      forall u :: u in held ==> 0 <= held[u].config.memoryReq && 0.0 <= RecordedBytes(held[u])
    ensures 0.0 <= TotalReduced(g, ops)
  {
    hide Inv, Placed, Booked, RemoveRun, Owned;
    ItemsWithinRecord(g, ops);
    if ops != [] {
      var n := |ops| - 1;
      BytesNonNegative(g, ops[..n]);
      if ops[n].ReduceOp? {
        var h := Run(g, ops[..n]).value.held[ops[n].uuid];
        MulLe(0, h.config.allocatedReplica - ops[n].newCount, h.config.memoryReq);
      }
    }
    var held := Run(g, ops).value.held;
    forall u | u in held ensures 0 <= held[u].config.memoryReq && 0.0 <= RecordedBytes(held[u]) {
      MulLe(0, held[u].config.allocatedReplica, held[u].config.memoryReq);
    }
  }

  /** The memory counter of a fresh GPU never goes above zero, so the memory test never refuses
      because of load; and it is within its bounds exactly if no bytes are on record and none were
      reduced. */
  lemma MemoryCounterWithinBoundsIff(g: Gpu, ops: seq<Op>)
    requires Inv(g.packer) && g.packer.itemLocation == map[] && Run(g, ops).Some? && Downward(g, ops)
    requires g.usageMemory == 0 && 0 <= g.totalMemory
    ensures var l := Run(g, ops).value;
      && l.gpu.usageMemory <= 0 && g.totalMemory <= AvailableMemory(l.gpu)
      && (0 <= l.gpu.usageMemory <= l.gpu.totalMemory
          <==> Sum(l.held, RecordedBytes) == 0.0 && TotalReduced(g, ops) == 0.0)
  {
    hide Inv, Run, TotalReduced, Downward, RecordedBytes;
    MemoryLaw(g, ops);
    BytesNonNegative(g, ops);
    SumNonNegative(Run(g, ops).value.held, RecordedBytes);
  }

  /** A commit raises the reported availability by the memory it takes. */
  lemma CommitRaisesAvailability(g: Gpu, c: Config, items: set<int>)
    requires Inv(g.packer) && 0 <= c.requiredReplica
    ensures var r := Commit(g, c, items);
      AvailableMemory(r.gpu) == AvailableMemory(g) + c.memoryReq * r.config.allocatedReplica
  {
    hide Inv, Placed, Booked;
    CommitMemory(g, c, items);
  }
}

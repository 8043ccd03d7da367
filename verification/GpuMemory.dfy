/** Memory of the replicas really placed on a GPU: when commits exceed the total, and how the counter
    and the records stray from it. */
module GpuMemory {
  import opened Arithmetic
  import opened Configs
  import opened ConfigFinder
  import opened GpuLedger
  import opened MapSums
  import opened Options
  import opened Shelves
  import opened ShelfCapacity
  import opened ShelfRelease

  ghost predicate Fresh(g: Gpu) {
    Inv(g.packer) && g.packer.itemLocation == map[] && g.usageMemory == 0
  }

  /** Bytes of the replicas a group has placed; the record, which reductions leave alone, may say more. */
  ghost function PlacedBytes(h: Held): real { (h.config.memoryReq * |h.items|) as real }

  ghost function UnplacedBytes(h: Held): real {
    (h.config.memoryReq * (h.config.allocatedReplica - |h.items|)) as real
  }

  /** Bytes of all replicas placed on a GPU, recorded for its groups, and recorded but not placed. */
  ghost function BytesPlaced(l: Ledger): real { Sum(l.held, PlacedBytes) }

  ghost function BytesRecorded(l: Ledger): real { Sum(l.held, RecordedBytes) }

  ghost function BytesUnplaced(l: Ledger): real { Sum(l.held, UnplacedBytes) }

  lemma BytesSplit(l: Ledger)
    ensures BytesRecorded(l) == BytesPlaced(l) + BytesUnplaced(l)
  {
    hide Sum;
    forall u | u in l.held
      ensures RecordedBytes(l.held[u]) == PlacedBytes(l.held[u]) + UnplacedBytes(l.held[u])
    {
      ProductSplit(l.held[u].config.memoryReq, l.held[u].config.allocatedReplica, |l.held[u].items|);
    }
    SumAdd(l.held, RecordedBytes, l.held, PlacedBytes, l.held, UnplacedBytes);
  }

  lemma ProductSplit(m: int, n: int, k: int)
    ensures m * n == m * k + m * (n - k)
  {}

  function PlacedBy(l: Ledger, c: Config): int {
    Min(Attempts(c), MaxInsertable(l.gpu.packer, c.quotaReq, c.smPartition))
  }

  /** A test before a commit: the bytes about to be placed fit what the total leaves once the counter
      is read with the right sign, corrected by what reductions booked and what they left on record.
      Without reductions both corrections are zero. */
  ghost predicate CommitFits(g: Gpu, ops: seq<Op>, c: Config)
    requires Fresh(g) && Run(g, ops).Some?
  {
    var l := Run(g, ops).value;
    (c.memoryReq * PlacedBy(l, c)) as real
    <= l.gpu.totalMemory as real + l.gpu.usageMemory as real + TotalReduced(g, ops) + BytesUnplaced(l)
  }

  lemma CommitBytes(l: Ledger, c: Config)
    requires Owned(l) && OpOk(l, CommitOp(c))
    ensures BytesPlaced(LedgerStep(l, CommitOp(c))) == BytesPlaced(l) + (c.memoryReq * PlacedBy(l, c)) as real
  {
    hide Inv, Partition, Placed, Booked, Sum, MaxInsertable;
    CommitPlacesWhatFits(l.gpu, c, {});
    CommitIds(l.gpu, c);
    var l' := LedgerStep(l, CommitOp(c));
    SumInsert(l.held, PlacedBytes, c.uuid, l'.held[c.uuid]);
  }

  /** What is placed, read off the counters of a run. */
  lemma BytesPlacedLaw(g: Gpu, ops: seq<Op>)
    requires Fresh(g) && Run(g, ops).Some?
    ensures var l := Run(g, ops).value;
      BytesPlaced(l) == -(l.gpu.usageMemory as real) - TotalReduced(g, ops) - BytesUnplaced(l)
      && l.gpu.totalMemory == g.totalMemory
  {
    hide Run, Sum, TotalReduced, Inv;
    MemoryLaw(g, ops);
    BytesSplit(Run(g, ops).value);
  }

  /** After every run, a commit keeps the bytes placed within the total exactly if the test holds; and
      a planned commit places all it requires. */
  lemma CommitWithinTotalIff(g: Gpu, ops: seq<Op>, c: Config)
    requires Fresh(g) && Run(g, ops).Some? && OpOk(Run(g, ops).value, CommitOp(c))
    ensures var l := Run(g, ops).value;
      && (BytesPlaced(LedgerStep(l, CommitOp(c))) <= g.totalMemory as real <==> CommitFits(g, ops, c))
      && (CommitFits(g, ops, c) <==>
            (c.memoryReq * PlacedBy(l, c)) as real <= g.totalMemory as real - BytesPlaced(l))
      && (PlannedOn(l.gpu, c, c.memoryReq) ==> PlacedBy(l, c) == c.requiredReplica)
  {
    hide Run, LedgerStep, BytesPlaced, BytesUnplaced, TotalReduced, Inv, MaxInsertable, OpOk;
    CommitBytes(Run(g, ops).value, c);
    BytesPlacedLaw(g, ops);
  }

  /** Without reductions everything recorded is placed and the test needs the two counters only. */
  lemma {:induction false} NoReductionsNoBytes(g: Gpu, ops: seq<Op>)
    requires Fresh(g) && Run(g, ops).Some? && forall op :: op in ops ==> !op.ReduceOp?
    ensures TotalReduced(g, ops) == 0.0
    ensures var held := Run(g, ops).value.held;
      forall u :: u in held ==> |held[u].items| == held[u].config.allocatedReplica
    ensures BytesUnplaced(Run(g, ops).value) == 0.0
    decreases |ops|
  {
    hide OpOk, Owned, Commit, Release, Inv, BytesUnplaced;
    if ops != [] {
      var n := |ops| - 1;
      assert ops[n] in ops;
      NoReductionsNoBytes(g, ops[..n]);
      var l := Run(g, ops[..n]).value;
      InvOfOwned(l);
      if ops[n].CommitOp? {
        CommitIds(l.gpu, ops[n].config);
      }
    }
    NothingUnplaced(Run(g, ops).value);
  }

  lemma NothingUnplaced(l: Ledger)
    requires forall u :: u in l.held ==> |l.held[u].items| == l.held[u].config.allocatedReplica
    ensures BytesUnplaced(l) == 0.0
  {
    forall u | u in l.held ensures UnplacedBytes(l.held[u]) == 0.0 {
      assert l.held[u].config.memoryReq * 0 == 0;
    }
    SumAllZero(l.held, UnplacedBytes);
  }

  /** The bytes placed stay within the total throughout a run. */
  ghost predicate AlwaysWithin(g: Gpu, ops: seq<Op>)
    requires Fresh(g) && Run(g, ops).Some?
  {
    && BytesPlaced(Run(g, ops).value) <= g.totalMemory as real
    && (ops != [] ==> AlwaysWithin(g, ops[..|ops| - 1]))
  }

  /** Every commit of a run passes the test when it happens. */
  ghost predicate EveryCommitFits(g: Gpu, ops: seq<Op>)
    requires Fresh(g) && Run(g, ops).Some?
  {
    ops != [] ==>
      var n := |ops| - 1;
      EveryCommitFits(g, ops[..n]) && (ops[n].CommitOp? ==> CommitFits(g, ops[..n], ops[n].config))
  }

  /** No group on a GPU has a negative memory size. */
  ghost predicate SizesOk(l: Ledger) {
    forall u :: u in l.held ==> 0 <= l.held[u].config.memoryReq
  }

  lemma FewerBytes(a: Held, b: Held)
    requires a.config == b.config && 0 <= a.config.memoryReq && |b.items| <= |a.items|
    ensures 0.0 <= PlacedBytes(b) <= PlacedBytes(a)
  {
    MulLe(|b.items|, |a.items|, a.config.memoryReq);
    MulLe(0, |b.items|, a.config.memoryReq);
  }

  /** Releases and reductions never raise the bytes placed. */
  lemma ReleaseBytes(l: Ledger, op: Op)
    requires Owned(l) && OpOk(l, op) && !op.CommitOp? && SizesOk(l)
    ensures BytesPlaced(LedgerStep(l, op)) <= BytesPlaced(l)
  {
    hide Inv, Partition, Release, Reduce, PlacedBytes, Sum, Taken;
    match op
    case ReleaseOp(u, order) =>
      SumRemove(l.held, PlacedBytes, u);
      FewerBytes(l.held[u], l.held[u]);
    case ReduceOp(u, n, order) =>
      var h := LedgerStep(l, op).held[u];
      SumUpdate(l.held, PlacedBytes, u, h);
      FewerItems(l.held[u].items, Ids(Taken(l.held[u].config, n, order)));
      FewerBytes(l.held[u], h);
  }

  lemma {:induction false} SizesKept(g: Gpu, ops: seq<Op>)
    requires Fresh(g) && Run(g, ops).Some?
    requires forall op :: op in ops && op.CommitOp? ==> 0 <= op.config.memoryReq
    ensures SizesOk(Run(g, ops).value)
    decreases |ops|
  {
    hide Enumerates, Owned, Inv, Placed, Booked, Release, Reduce, Taken;
    if ops != [] {
      assert ops[|ops| - 1] in ops;
      SizesKept(g, ops[..|ops| - 1]);
    }
  }

  /** Memory is never oversubscribed in a run exactly if every commit of it passes the test. */
  lemma {:induction false} NeverOversubscribedIff(g: Gpu, ops: seq<Op>)
    requires Fresh(g) && Run(g, ops).Some? && 0 <= g.totalMemory
    requires forall op :: op in ops && op.CommitOp? ==> 0 <= op.config.memoryReq
    ensures AlwaysWithin(g, ops) <==> EveryCommitFits(g, ops)
    decreases |ops|
  {
    hide OpOk, LedgerStep, Inv, Owned, BytesPlaced, CommitFits, SizesOk;
    if ops == [] {
      NoBytes(g);
    } else {
      var n := |ops| - 1;
      var l := Run(g, ops[..n]).value;
      NeverOversubscribedIff(g, ops[..n]);
      if ops[n].CommitOp? {
        CommitWithinTotalIff(g, ops[..n], ops[n].config);
      } else {
        SizesKept(g, ops[..n]);
        ReleaseBytes(l, ops[n]);
        WithinNow(g, ops[..n]);
      }
    }
  }

  lemma NoBytes(g: Gpu)
    requires Fresh(g)
    ensures BytesPlaced(Run(g, []).value) == 0.0
  {}

  lemma WithinNow(g: Gpu, ops: seq<Op>)
    requires Fresh(g) && Run(g, ops).Some?
    ensures AlwaysWithin(g, ops) ==> BytesPlaced(Run(g, ops).value) <= g.totalMemory as real
  {}

  // -------------------------------------------------------------------- examples

  lemma RunNext(g: Gpu, ops: seq<Op>, op: Op)
    requires Fresh(g) && Run(g, ops).Some? && OpOk(Run(g, ops).value, op)
    ensures Run(g, ops + [op]) == Some(LedgerStep(Run(g, ops).value, op))
    ensures TotalReduced(g, ops + [op]) == TotalReduced(g, ops)
      + (if op.ReduceOp? then ReducedBytes(Run(g, ops).value.held[op.uuid], op.newCount) as real else 0.0)
  {
    hide OpOk, LedgerStep, Inv, Owned;
    assert (ops + [op])[..|ops|] == ops;
  }

  /** The capacity of an empty packer of height 100 for items of half width and height 10. */
  lemma EmptyCapacity()
    ensures MaxInsertable(NewShelf(100), 0.5, 10) == 20 && Inv(NewShelf(100))
  {
    QuotientUnique(1.0, 0.5, 2.0);
    assert Slots(1.0, 0.5) == 2;
  }

  function ExampleGroup(uuid: string, required: int): Config {
    Config(uuid, FastPod, "g", 0.5, 10, 1, required, 1.0, required as real, 1.0, 0, 0.0)
  }

  lemma ExampleCommit(l: Ledger, c: Config)
    requires Owned(l) && OpOk(l, CommitOp(c))
    requires c == ExampleGroup(c.uuid, c.requiredReplica) && 1 <= c.requiredReplica
    requires c.requiredReplica <= MaxInsertable(l.gpu.packer, 0.5, 10)
    ensures var l' := LedgerStep(l, CommitOp(c));
      && Commit(l.gpu, c, {}).ok
      && MaxInsertable(l'.gpu.packer, 0.5, 10) == MaxInsertable(l.gpu.packer, 0.5, 10) - c.requiredReplica
      && l'.held.Keys == l.held.Keys + {c.uuid}
      && l'.held[c.uuid].config == c.(allocatedReplica := c.requiredReplica, allocatedRPS := c.satisfiableRPS)
      && l'.gpu.usageMemory == l.gpu.usageMemory - c.requiredReplica
      && BytesPlaced(l') == BytesPlaced(l) + c.requiredReplica as real
      && l'.gpu == l.gpu.(packer := l'.gpu.packer, usageMemory := l'.gpu.usageMemory, allocationType := FastPod)
  {
    hide Inv, Partition, InsertRun, Booked, MaxInsertable, BytesPlaced;
    CommitBytes(l, c);
    CommitPlacesWhatFits(l.gpu, c, {});
    CommitMemory(l.gpu, c, {});
    CommitKeepsPlan(l.gpu, c, {});
    MaxInsertableIsExact(l.gpu.packer, 0.5, 10, Attempts(c));
  }

  lemma ExamplePlanned(g: Gpu, c: Config)
    requires c == ExampleGroup(c.uuid, 1) && g.uuid == "g" && g.totalSM == 100
    requires 1 <= MaxInsertable(g.packer, 0.5, 10) && 1 <= AvailableMemory(g)
    ensures PlannedOn(g, c, 1)
  {
    hide MaxInsertable;
  }

  /** A GPU of the example: one byte, room for `room` more replicas. */
  ghost predicate OneByteGpu(l: Ledger, room: int) {
    && Owned(l) && l.gpu.uuid == "g" && l.gpu.totalSM == 100 && l.gpu.totalMemory == 1
    && l.gpu.usageMemory <= 0 && MaxInsertable(l.gpu.packer, 0.5, 10) == room
  }

  /** One more group of one byte is planned and committed there. */
  lemma ExampleNext(g: Gpu, ops: seq<Op>, c: Config, room: int)
    requires Fresh(g) && Run(g, ops).Some? && OneByteGpu(Run(g, ops).value, room) && 1 <= room
    requires c == ExampleGroup(c.uuid, 1) && c.uuid !in Run(g, ops).value.held
    ensures var l := Run(g, ops).value;
      && PlannedOn(l.gpu, c, 1) && Commit(l.gpu, c, {}).ok
      && Run(g, ops + [CommitOp(c)]).Some?
      && var l' := Run(g, ops + [CommitOp(c)]).value;
      && OneByteGpu(l', room - 1) && BytesPlaced(l') == BytesPlaced(l) + 1.0
      && l'.held.Keys == l.held.Keys + {c.uuid}
  {
    hide LedgerStep, Run, Owned, MaxInsertable, PlannedOn, Commit, Inv, BytesPlaced, TotalReduced;
    var l := Run(g, ops).value;
    ExamplePlanned(l.gpu, c);
    ExampleCommit(l, c);
    RunNext(g, ops, CommitOp(c));
    OwnershipStep(l, CommitOp(c));
  }

  /** Memory is oversubscribed: on a GPU with one byte two groups of one byte each are planned and
      committed without error, so two bytes are placed. */
  lemma MemoryOversubscribedExample() returns (g: Gpu, a: Config, b: Config)
    ensures Fresh(g) && g.totalMemory == 1
    ensures Run(g, [CommitOp(a)]).Some? && Run(g, [CommitOp(a), CommitOp(b)]).Some?
    ensures PlannedOn(g, a, 1) && Commit(g, a, {}).ok
    ensures var l := Run(g, [CommitOp(a)]).value; PlannedOn(l.gpu, b, 1) && Commit(l.gpu, b, {}).ok
    ensures BytesPlaced(Run(g, [CommitOp(a), CommitOp(b)]).value) == 2.0 > g.totalMemory as real
  {
    hide LedgerStep, Run, Owned, MaxInsertable, PlannedOn, Commit, Inv, BytesPlaced, TotalReduced, ExampleGroup;
    EmptyCapacity();
    g, a, b := FreshGpu("g", "a100", 1, 100, 1), ExampleGroup("a", 1), ExampleGroup("b", 1);
    ExampleNames();
    RunStart(g);
    NoBytes(g);
    ExampleNext(g, [], a, 20);
    assert [] + [CommitOp(a)] == [CommitOp(a)];
    ExampleNext(g, [CommitOp(a)], b, 19);
    assert [CommitOp(a)] + [CommitOp(b)] == [CommitOp(a), CommitOp(b)];
  }

  lemma ExampleNames()
    ensures ExampleGroup("a", 1).uuid == "a" && ExampleGroup("b", 1).uuid == "b" && "a" != "b"
  {
    assert "a"[0] != "b"[0];
  }

  lemma RunStart(g: Gpu)
    requires Fresh(g)
    ensures Run(g, []) == Some(Ledger(g, map[])) && Owned(Ledger(g, map[])) && TotalReduced(g, []) == 0.0
  {}

  /** The counter strays: a group of two replicas is committed, reduced to one and released, and the
      counter of the empty GPU ends at minus one. */
  lemma CounterDoesNotReturnExample() returns (g: Gpu, ops: seq<Op>)
    ensures Fresh(g) && Run(g, ops).Some?
    ensures Run(g, ops).value.held == map[] && Run(g, ops).value.gpu.usageMemory == -1
  {
    hide Run, Owned, MaxInsertable, Commit, Release, Reduce, Inv, Sum, TotalReduced, Taken;
    EmptyCapacity();
    g := FreshGpu("g", "a100", 100, 100, 1);
    var c := ExampleGroup("a", 2);
    RunStart(g);
    ExampleCommit(Ledger(g, map[]), c);
    RunNext(g, [], CommitOp(c));
    ops := [] + [CommitOp(c)];
    var l := Run(g, ops).value;
    var order := SomeOrder(l.held["a"].items);
    RunNext(g, ops, ReduceOp("a", 1, order));
    ops := ops + [ReduceOp("a", 1, order)];
    l := Run(g, ops).value;
    order := SomeOrder(l.held["a"].items);
    RunNext(g, ops, ReleaseOp("a", order));
    ops := ops + [ReleaseOp("a", order)];
    assert Run(g, ops).value.held == map[];
    MemoryLaw(g, ops);
    NoSum(Run(g, ops).value.held);
  }

  lemma NoSum(held: map<string, Held>)
    requires held == map[]
    ensures Sum(held, RecordedBytes) == 0.0
  {}
}

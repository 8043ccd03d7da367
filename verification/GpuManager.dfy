/** The GPU record and the replica groups as the program keeps them: objects updated in place. */
module GpuManagement {
  import opened Arithmetic
  import opened Configs
  import opened GpuLedger
  import opened MapSums
  import opened Shelves
  import opened ShelfCapacity
  import opened ShelfPacking
  import opened ShelfRelease

  /** A shared, mutable replica group: its record and the shelf items it owns. */
  class ConfigCell {
    var config: Config
    var shelfItems: set<int>

    constructor (config: Config)
      ensures this.config == config && shelfItems == {}
    {
      this.config := config;
      shelfItems := {};
    }
  }

  class GPUInfo {
    const uuid: string
    const gpuType: string
    const totalMemory: int
    const totalSMPercentage: int
    const costPerSecond: int
    var allocationType: AllocationType
    var usageMemory: int
    const usage: ShelfPacker

    constructor (uuid: string, gpuType: string, mem: int, totalSMPercentage: int, cost: int)
      ensures Valid() && fresh(usage)
      ensures State() == FreshGpu(uuid, gpuType, mem, totalSMPercentage, cost)
      ensures State().uuid == uuid && State().gpuType == gpuType && State().costPerSecond == cost
      ensures State().totalMemory == mem && State().usageMemory == 0 && State().allocationType == NoType
      ensures State().totalSM == State().packer.maxHeight == totalSMPercentage && State().packer.shelves == []
    {
      this.uuid := uuid;
      this.gpuType := gpuType;
      totalMemory := mem;
      this.totalSMPercentage := totalSMPercentage;
      costPerSecond := cost;
      allocationType := NoType;
      usageMemory := 0;
      usage := new ShelfPacker(totalSMPercentage);
    }

    function State(): Gpu
      reads this, usage
    {
      Gpu(uuid, gpuType, totalMemory, usageMemory, totalSMPercentage, costPerSecond, allocationType, usage.State())
    }

    ghost predicate Valid()
      reads this, usage
    {
      usage.Valid()
    }

    /** Inserts the required replicas one by one, rolling the memory back at the first failure. */
    method AllocateAndCommitConfig(cell: ConfigCell) returns (ok: bool)
      requires Valid()
      modifies this, usage, cell
      ensures Valid()
      ensures var r := Commit(old(State()), old(cell.config), old(cell.shelfItems));
        State() == r.gpu && cell.config == r.config && cell.shelfItems == r.items && ok == r.ok
    {
      hide InsertRun, Inv;
      var config := cell.config;
      allocationType := config.allocationType;
      usageMemory := usageMemory - config.memoryReq * config.requiredReplica;
      var successful := InsertReplicas(cell);
      if successful < config.requiredReplica {
        usageMemory := usageMemory + config.memoryReq * (config.requiredReplica - successful);
      }
      cell.config := cell.config.(allocatedReplica := successful,
                                  allocatedRPS := config.qpsPerReplica * successful as real);
      return !(successful < config.requiredReplica);
    }

    /** The insertion loop of a commit: it stops at the first failure. */
    method InsertReplicas(cell: ConfigCell) returns (successful: nat)
      requires Valid()
      modifies usage, cell`shelfItems
      ensures Valid()
      ensures var c := cell.config;
        var run := InsertRun(old(usage.State()), c.quotaReq, c.smPartition, Attempts(c));
        && usage.State() == run.packer && successful == |run.ids|
        && cell.shelfItems == old(cell.shelfItems) + Ids(run.ids)
    {
      hide Inv, Shelves.Insert;
      var config := cell.config;
      ghost var n := Attempts(config);
      ghost var goal := InsertRun(usage.State(), config.quotaReq, config.smPartition, n);
      ghost var ids: seq<int> := [];
      successful := 0;
      while successful < config.requiredReplica
        invariant |ids| == successful <= n
        invariant usage.Valid()
        invariant cell.shelfItems == old(cell.shelfItems) + Ids(ids)
        invariant var rest := InsertRun(usage.State(), config.quotaReq, config.smPartition, n - successful);
          goal == RunResult(rest.packer, ids + rest.ids)
        decreases n - successful
      {
        var inserted := usage.Insert(config.quotaReq, config.smPartition);
        if inserted.None? {
          assert goal == RunResult(usage.State(), ids);
          return;
        }
        ghost var rest := InsertRun(usage.State(), config.quotaReq, config.smPartition, n - successful - 1);
        assert ids + ([inserted.value] + rest.ids) == (ids + [inserted.value]) + rest.ids;
        assert Ids(ids + [inserted.value]) == Ids(ids) + {inserted.value};
        cell.shelfItems := cell.shelfItems + {inserted.value};
        ids := ids + [inserted.value];
        successful := successful + 1;
      }
      assert goal == RunResult(usage.State(), ids);
    }

    /** Releases every item of a group, in arbitrary map order. */
    method DeallocateConfig(cell: ConfigCell) returns (isEmpty: bool, ghost order: seq<int>)
      requires Valid()
      modifies this, usage, cell
      ensures Valid()
      ensures Enumerates(order, old(cell.shelfItems))
      ensures State() == Release(old(State()), old(cell.config), order)
      ensures cell.config == old(cell.config) && cell.shelfItems == {}
      ensures isEmpty <==> Contents(State().packer) == map[]
    {
      hide Inv, Shelves.Remove, Shelves.Contents;
      order := RemoveSome(cell, |cell.shelfItems|);
      assert cell.shelfItems == {};
      usageMemory := usageMemory + cell.config.memoryReq * cell.config.allocatedReplica;
      isEmpty := usage.IsEmpty();
    }

    /** Shrinks a group to a replica count by releasing some of its items; the record is kept. */
    method ReduceConfig(cell: ConfigCell, newReplicaCount: int) returns (isEmpty: bool, ghost order: seq<int>)
      requires Valid()
      modifies this, usage, cell
      ensures Valid()
      ensures Enumerates(order, old(cell.shelfItems))
      ensures State() == Reduce(old(State()), old(cell.config), newReplicaCount, order)
      ensures cell.config == old(cell.config)
      ensures cell.shelfItems == old(cell.shelfItems) - Ids(Taken(cell.config, newReplicaCount, order))
      ensures isEmpty <==> Contents(State().packer) == map[]
    {
      hide Inv, Shelves.Remove, Shelves.Contents, Taken, Enumerates, RemoveRun, Ids;
      ghost var items := cell.shelfItems;
      var replicaReduceCount := cell.config.allocatedReplica - newReplicaCount;
      if replicaReduceCount == 0 {
        order := SomeOrder(items);
        TakeNothing(cell.config, order);
        RemoveNothing(usage.State());
        isEmpty := usage.IsEmpty();
        return;
      }
      usageMemory := usageMemory - cell.config.memoryReq * replicaReduceCount;
      ghost var taken := RemoveSome(cell, Max(0, replicaReduceCount));
      ghost var rest := SomeOrder(cell.shelfItems);
      order := taken + rest;
      TakeFirst(cell.config, newReplicaCount, taken, rest, items);
      isEmpty := usage.IsEmpty();
    }

    /** The removal loop shared by releasing and shrinking: up to `count` items, any order. */
    method RemoveSome(cell: ConfigCell, count: nat) returns (ghost taken: seq<int>)
      requires Valid()
      modifies usage, cell`shelfItems
      ensures Valid()
      ensures usage.State() == RemoveRun(old(usage.State()), taken)
      ensures |taken| == Min(count, |old(cell.shelfItems)|)
      ensures |cell.shelfItems| == |old(cell.shelfItems)| - |taken|
      ensures Ids(taken) <= old(cell.shelfItems) && cell.shelfItems == old(cell.shelfItems) - Ids(taken)
      ensures forall i, j :: 0 <= i < j < |taken| ==> taken[i] != taken[j]
      ensures Inv(old(usage.State()))
    {
      hide Inv, Shelves.Remove, RemoveRun;
      RemoveNothing(usage.State());
      ghost var start, items := usage.State(), cell.shelfItems;
      taken := [];
      var removalCount := 0;
      while removalCount < count && cell.shelfItems != {}
        invariant usage.Valid() && Inv(start) && usage.State() == RemoveRun(start, taken)
        invariant |taken| == removalCount <= count
        invariant Ids(taken) <= items && cell.shelfItems == items - Ids(taken)
        invariant |items| == removalCount + |cell.shelfItems|
        invariant forall i, j :: 0 <= i < j < |taken| ==> taken[i] != taken[j]
        decreases count - removalCount
      {
        ghost var someId := SomeElement(cell.shelfItems);
        var id :| id in cell.shelfItems;
        RemoveRunAppend(start, taken, id);
        var idx := usage.Remove(id);
        assert Ids(taken + [id]) == Ids(taken) + {id};
        cell.shelfItems := cell.shelfItems - {id};
        taken := taken + [id];
        removalCount := removalCount + 1;
      }
    }
  }

  lemma TakeNothing(c: Config, order: seq<int>)
    ensures Taken(c, c.allocatedReplica, order) == [] && Ids([]) == {}
    ensures c.memoryReq * (c.allocatedReplica - c.allocatedReplica) == 0
  {}

  /** The items removed first are those a reduction takes from the order they start. */
  lemma TakeFirst(c: Config, newCount: int, taken: seq<int>, rest: seq<int>, items: set<int>)
    requires Ids(taken) <= items && Enumerates(rest, items - Ids(taken))
    requires forall i, j :: 0 <= i < j < |taken| ==> taken[i] != taken[j]
    requires |taken| == Min(Max(0, c.allocatedReplica - newCount), |items|)
    ensures Enumerates(taken + rest, items) && Taken(c, newCount, taken + rest) == taken
  {
    JoinOrders(taken, rest, items);
    DistinctSize(taken + rest);
  }

  lemma JoinOrders(taken: seq<int>, rest: seq<int>, items: set<int>)
    requires Ids(taken) <= items && Enumerates(rest, items - Ids(taken))
    requires forall i, j :: 0 <= i < j < |taken| ==> taken[i] != taken[j]
    ensures Enumerates(taken + rest, items)
  {
    var order := taken + rest;
    assert Ids(order) == Ids(taken) + Ids(rest);
    forall i, j | 0 <= i < j < |order| ensures order[i] != order[j] {
      assert i < |taken| ==> order[i] in Ids(taken);
      assert j >= |taken| ==> order[j] in Ids(rest);
    }
  }
}

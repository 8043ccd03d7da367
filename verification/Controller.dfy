/** The whole autoscaler as it runs: the table of functions and the table of GPUs, updated in place by
    every tick. Each call is one step of `Worlds`, so what is shown for its runs holds here. */
module Controlling {
  import opened Cluster
  import opened Configs
  import opened ConfigFinder
  import opened Delivery
  import opened FunctionScaler
  import opened GpuLedger
  import opened GpuOrder
  import opened MapSums
  import opened Options
  import opened Reconciling
  import opened ScaleDown
  import opened ScaleUp
  import opened Shelves
  import opened ShelfCapacity
  import opened ShelfRelease
  import opened Worlds

  // ------------------------------------------------------------ the table of GPUs

  /** Every GPU is filed under its UUID and has a size and a price. */
  ghost predicate TableOk(gpus: Gpus) {
    forall u :: u in gpus ==>
      && gpus[u].gpu.uuid == u && Measurable(gpus[u].gpu) && gpus[u].gpu.packer.maxHeight == gpus[u].gpu.totalSM
  }

  lemma StepShape(l: Ledger, op: Op)
    requires Owned(l) && OpOk(l, op)
    ensures var g, h := l.gpu, LedgerStep(l, op).gpu;
      && h.uuid == g.uuid && h.totalMemory == g.totalMemory && h.totalSM == g.totalSM
      && h.costPerSecond == g.costPerSecond && h.packer.maxHeight == g.packer.maxHeight
  {
    hide Inv, Partition, InsertRun, Booked, RemoveRun, Taken, Enumerates;
    InvOfOwned(l);
    match op
    case CommitOp(c) =>
      RunIdsConsecutive(l.gpu.packer, c.quotaReq, c.smPartition, Attempts(c));
    case ReleaseOp(u, order) =>
      RemoveRunIsDrop(l.gpu.packer, order);
    case ReduceOp(u, n, order) =>
      RemoveRunIsDrop(l.gpu.packer, Taken(l.held[u].config, n, order));
  }

  lemma ApplyTable(gpus: Gpus, g: string, op: Op)
    requires TableOk(gpus)
    ensures TableOk(Apply(gpus, g, op))
  {
    hide Owned, OpOk, LedgerStep;
    if g in gpus && Owned(gpus[g]) && OpOk(gpus[g], op) {
      StepShape(gpus[g], op);
    }
  }

  /** The GPUs of the table that are ready and preferred, in arbitrary map order. */
  method ListGpus(gpus: Gpus, offered: set<string>) returns (list: seq<Gpu>, ghost all: set<Gpu>)
    requires TableOk(gpus)
    ensures forall g :: g in list <==> g.uuid in gpus && g.uuid in offered && gpus[g.uuid].gpu == g
    ensures forall i, j :: 0 <= i < j < |list| ==> list[i].uuid != list[j].uuid
    ensures multiset(list) == multiset(all)
    ensures forall g :: g in all <==> g.uuid in gpus && g.uuid in offered && gpus[g.uuid].gpu == g
  {
    list, all := [], {};
    var rest := gpus;
    while rest != map[]
      invariant forall u :: u in rest ==> u in gpus && rest[u] == gpus[u]
      invariant multiset(list) == multiset(all)
      invariant forall g :: g in all <==>
        g.uuid in gpus && g.uuid !in rest && g.uuid in offered && gpus[g.uuid].gpu == g
      decreases |rest|
    {
      ghost var someKey := SomeKey(rest);
      var u :| u in rest;
      RemoveSize(rest, u);
      rest := rest - {u};
      if u in offered {
        assert gpus[u].gpu !in all;
        list := list + [gpus[u].gpu];
        all := all + {gpus[u].gpu};
      }
    }
    ListedAre(list, all);
    SortedIsOffered(gpus, list, all);
  }

  lemma ListedAre(list: seq<Gpu>, all: set<Gpu>)
    requires multiset(list) == multiset(all)
    ensures forall g :: g in list <==> g in all
  {
    forall g ensures g in list <==> g in all {
      assert g in multiset(list) <==> g in multiset(all);
    }
  }

  lemma SortedIsOffered(gpus: Gpus, sorted: seq<Gpu>, all: set<Gpu>)
    requires multiset(sorted) == multiset(all)
    requires forall g :: g in all ==> g.uuid in gpus && gpus[g.uuid].gpu == g
    ensures Offered(gpus, sorted)
  {
    ListedAre(sorted, all);
    forall i, j | 0 <= i < j < |sorted| ensures sorted[i].uuid != sorted[j].uuid {
      assert sorted[i] in sorted && sorted[j] in sorted;
      if sorted[i] == sorted[j] {
        TwiceInMultiset(sorted, i, j);
      }
    }
  }

  // -------------------------------------------------------------- planning and commit

  /** UUIDs are new and never given twice. */
  ghost predicate FreshUuids(gpus: Gpus, newUUID: nat -> string) {
    && (forall a: nat, b: nat :: a != b ==> newUUID(a) != newUUID(b))
    && (forall a: nat, g :: g in gpus ==> newUUID(a) !in gpus[g].held)
  }

  lemma PlansAreOk(
    gpus: Gpus, r: Request, list: seq<Gpu>, tried: nat, plans: seq<Config>, source: seq<nat>, newUUID: nat -> string)
    requires FreshUuids(gpus, newUUID) && Named(plans, source, newUUID)
    requires if r.qps <= 0.0 then plans == [] else Passed(r, list, tried, plans, source)
    ensures PlansOk(gpus, plans) && forall p :: p in plans ==> 0.0 < p.qpsPerReplica
  {
    hide Usable, Possible;
    forall p | p in plans ensures 0.0 < p.qpsPerReplica && 0 <= p.requiredReplica
                                 && forall g :: g in gpus ==> p.uuid !in gpus[g].held {
      var i :| 0 <= i < |plans| && plans[i] == p;
      assert PlannedOn(list[source[i]], plans[i], r.memory) && p.uuid == newUUID(source[i]);
    }
    forall i, j | 0 <= i < j < |plans| ensures plans[i].uuid != plans[j].uuid {
      assert source[i] < source[j];
    }
  }

  /** List, sort and plan. */
  method Plan(r: Request, gpus: Gpus, offered: set<string>, newUUID: nat -> string)
    returns (plans: seq<Config>, ghost list: seq<Gpu>, ghost tried: nat, ghost source: seq<nat>, ghost remaining: real)
    requires AllOwned(gpus) && TableOk(gpus) && FreshUuids(gpus, newUUID) && 0 < r.memory
    ensures PlannerResult(gpus, r, list, tried, plans, source, remaining)
    ensures forall g :: g in list <==> g.uuid in gpus && g.uuid in offered && gpus[g.uuid].gpu == g
    ensures PlansOk(gpus, plans) && forall p :: p in plans ==> 0.0 < p.qpsPerReplica
  {
    hide Usable, Passed, Balanced, Chosen, Ordered, Named, PlansOk, Inv, FreshUuids, PlannedBest, Serves, MayPrecede;
    var unsorted, all := ListGpus(gpus, offered);
    var sorted := SortGPUInfos(r, unsorted);
    SameMembers(sorted, unsorted);
    SortedIsOffered(gpus, sorted, all);
    GpusReady(gpus, sorted);
    var configs, rest, src, t := GetConfigs(r, sorted, newUUID);
    PlansAreOk(gpus, r, sorted, t, configs, src, newUUID);
    plans, list, tried, source, remaining := configs, sorted, t, src, rest;
  }

  lemma GpusReady(gpus: Gpus, list: seq<Gpu>)
    requires AllOwned(gpus) && TableOk(gpus) && Offered(gpus, list)
    ensures forall g :: g in list ==> GpuOk(g)
  {
    hide Inv, Partition;
    forall g | g in list ensures GpuOk(g) {
      assert Owned(gpus[g.uuid]);
    }
  }

  /** The commit loop on the table: a plan whose GPU is gone is skipped, one of which nothing could be
      placed is dropped, and its GPU keeps what the others put there. */
  method CommitPlans(gpus0: Gpus, plans: seq<Config>) returns (gpus: Gpus, kept: seq<Config>)
    requires AllOwned(gpus0) && PlansOk(gpus0, plans) && TableOk(gpus0)
    ensures gpus == CommitGroups(gpus0, plans) && kept == KeptGroups(gpus0, plans)
    ensures AllOwned(gpus) && TableOk(gpus)
  {
    hide AllOwned, Owned, PlansOk, Apply, Commit, TableOk;
    gpus, kept := gpus0, [];
    for i := 0 to |plans|
      invariant AllOwned(gpus) && PlansOk(gpus, plans[i..]) && TableOk(gpus)
      invariant CommitGroups(gpus, plans[i..]) == CommitGroups(gpus0, plans)
      invariant kept + KeptGroups(gpus, plans[i..]) == KeptGroups(gpus0, plans)
    {
      var p := plans[i];
      assert plans[i..][0] == p && plans[i..][1..] == plans[i + 1..];
      PlansLater(gpus, plans[i..]);
      ApplyOwned(gpus, p.gpuUUID, CommitOp(p));
      ApplyTable(gpus, p.gpuUUID, CommitOp(p));
      ghost var before := gpus;
      gpus, kept := CommitPlan(gpus, plans[i..], p, kept);
    }
  }

  method CommitPlan(gpus0: Gpus, ghost plans: seq<Config>, p: Config, kept0: seq<Config>)
    returns (gpus: Gpus, kept: seq<Config>)
    requires AllOwned(gpus0) && PlansOk(gpus0, plans) && plans != [] && plans[0] == p
    ensures gpus == Apply(gpus0, p.gpuUUID, CommitOp(p))
    ensures kept + KeptGroups(gpus, plans[1..]) == kept0 + KeptGroups(gpus0, plans)
  {
    hide Inv, Partition, Commit;
    assert p in plans;
    gpus, kept := gpus0, kept0;
    if p.gpuUUID in gpus {
      var r := Commit(gpus[p.gpuUUID].gpu, p, {});
      gpus := gpus[p.gpuUUID := Ledger(r.gpu, gpus[p.gpuUUID].held[p.uuid := Held(r.config, r.items)])];
      if r.config.allocatedReplica > 0 {
        kept := kept + [r.config];
      }
    }
  }

  /** What is kept is what the function ledger relies on. */
  lemma {:induction false} KeptAdmissible(gpus: Gpus, plans: seq<Config>)
    requires AllOwned(gpus) && PlansOk(gpus, plans) && forall p :: p in plans ==> 0.0 < p.qpsPerReplica
    ensures AllConsistent(KeptGroups(gpus, plans))
    ensures DistinctUuids(KeptGroups(gpus, plans))
    decreases plans
  {
    hide AllOwned, PlansOk, Apply, Commit, Consistent;
    if plans != [] {
      var p, rest := plans[0], plans[1..];
      var next := Apply(gpus, p.gpuUUID, CommitOp(p));
      assert p in plans;
      PlansLater(gpus, plans);
      ApplyOwned(gpus, p.gpuUUID, CommitOp(p));
      KeptAdmissible(next, rest);
      if p.gpuUUID in gpus {
        TableInv(gpus, p.gpuUUID);
        CommitIsConsistent(gpus[p.gpuUUID].gpu, p);
        CommitUuid(gpus[p.gpuUUID].gpu, p);
        forall c | c in KeptGroups(next, rest) ensures c.uuid != p.uuid {
          KeptFromPlan(next, rest, c);
          LaterUuids(gpus, plans);
        }
      }
    }
  }

  lemma LaterUuids(gpus: Gpus, plans: seq<Config>)
    requires PlansOk(gpus, plans) && plans != []
    ensures forall q :: q in plans[1..] ==> q.uuid != plans[0].uuid
  {
    forall q | q in plans[1..] ensures q.uuid != plans[0].uuid {
      var i :| 0 <= i < |plans[1..]| && plans[1..][i] == q;
      assert plans[i + 1] == q;
    }
  }

  lemma TableInv(gpus: Gpus, g: string)
    requires AllOwned(gpus) && g in gpus
    ensures Inv(gpus[g].gpu.packer)
  {}

  // ------------------------------------------------------------ releasing and shrinking

  /** The items of a group, in the order in which its map is visited. */
  method VisitItems(items: set<int>) returns (order: seq<int>)
    ensures Enumerates(order, items)
  {
    order := [];
    var rest := items;
    assert Ids(order) == {};
    while rest != {}
      invariant Ids(order) + rest == items && Ids(order) !! rest
      invariant forall i, j :: 0 <= i < j < |order| ==> order[i] != order[j]
      decreases |rest|
    {
      ghost var someId := SomeElement(rest);
      var id :| id in rest;
      assert Ids(order + [id]) == Ids(order) + {id};
      assert id !in Ids(order);
      order := order + [id];
      rest := rest - {id};
    }
  }

  /** For every group of a function, the order in which its items are visited. */
  method VisitOrders(configs: map<string, Config>, gpus: Gpus) returns (orders: map<string, seq<int>>)
    requires forall u :: u in configs ==> IsPlaced(gpus, configs[u])
    ensures forall u :: u in configs ==> Enumerates(OrderOf(orders, u), ItemsOf(gpus, configs[u]))
  {
    hide Enumerates, IsPlaced;
    orders := map[];
    var rest := configs;
    while rest != map[]
      invariant forall u :: u in rest ==> u in configs && rest[u] == configs[u]
      invariant forall u :: u in configs && u !in rest ==> Enumerates(OrderOf(orders, u), ItemsOf(gpus, configs[u]))
      decreases |rest|
    {
      ghost var someKey := SomeKey(rest);
      var u :| u in rest;
      var order := VisitGroup(gpus, rest[u]);
      RemoveSize(rest, u);
      orders := orders[u := order];
      rest := rest - {u};
    }
  }

  method VisitGroup(gpus: Gpus, c: Config) returns (order: seq<int>)
    requires IsPlaced(gpus, c)
    ensures Enumerates(order, ItemsOf(gpus, c))
  {
    order := VisitItems(gpus[c.gpuUUID].held[c.uuid].items);
  }

  method RemoveInOrder(s: Packer, order: seq<int>) returns (t: Packer)
    requires Inv(s)
    ensures t == RemoveRun(s, order)
  {
    hide Inv, Shelves.Remove;
    t := s;
    for i := 0 to |order|
      invariant Inv(t) && RemoveRun(t, order[i..]) == RemoveRun(s, order)
    {
      assert order[i..][0] == order[i] && order[i..][1..] == order[i + 1..];
      RemoveInv(t, order[i]);
      t := Shelves.Remove(t, order[i]).packer;
    }
    assert order[|order|..] == [];
  }

  method ReleaseGroup(gpus: Gpus, c: Config, order: seq<int>) returns (after: Gpus)
    requires AllOwned(gpus) && c.gpuUUID in gpus && OpOk(gpus[c.gpuUUID], ReleaseOp(c.uuid, order))
    ensures after == Apply(gpus, c.gpuUUID, ReleaseOp(c.uuid, order))
  {
    hide Inv, Partition, RemoveRun, Enumerates;
    var l := gpus[c.gpuUUID];
    assert Owned(l);
    var record := l.held[c.uuid].config;
    var packer := RemoveInOrder(l.gpu.packer, order);
    var gpu := l.gpu.(packer := packer,
                      usageMemory := l.gpu.usageMemory + record.memoryReq * record.allocatedReplica);
    after := gpus[c.gpuUUID := Ledger(gpu, l.held - {c.uuid})];
  }

  method ReduceGroup(gpus: Gpus, c: Config, newReplica: int, order: seq<int>) returns (after: Gpus)
    requires AllOwned(gpus) && c.gpuUUID in gpus && OpOk(gpus[c.gpuUUID], ReduceOp(c.uuid, newReplica, order))
    ensures after == Apply(gpus, c.gpuUUID, ReduceOp(c.uuid, newReplica, order))
  {
    hide Inv, Partition, RemoveRun, Enumerates;
    var l := gpus[c.gpuUUID];
    assert Owned(l);
    var h := l.held[c.uuid];
    var taken := Taken(h.config, newReplica, order);
    var packer := RemoveInOrder(l.gpu.packer, taken);
    var gpu := l.gpu.(packer := packer,
                      usageMemory := l.gpu.usageMemory - h.config.memoryReq * (h.config.allocatedReplica - newReplica));
    after := gpus[c.gpuUUID := Ledger(gpu, l.held[c.uuid := h.(items := h.items - Ids(taken))])];
  }

  method ReduceAll(gpus0: Gpus, updated: seq<ReduceInfo>, orders: map<string, seq<int>>) returns (gpus: Gpus)
    requires ReductionsOk(gpus0, updated, orders) && TableOk(gpus0)
    ensures gpus == ReduceGroups(gpus0, updated, orders)
    ensures AllOwned(gpus) && TableOk(gpus)
  {
    hide Apply, TableOk, Owned, OpOk, Enumerates, IsPlaced;
    gpus := gpus0;
    for i := 0 to |updated|
      invariant ReductionsOk(gpus, updated[i..], orders) && TableOk(gpus)
      invariant ReduceGroups(gpus, updated[i..], orders) == ReduceGroups(gpus0, updated, orders)
    {
      var c, n := updated[i].config, updated[i].newReplica;
      assert updated[i..][0] == updated[i] && updated[i..][1..] == updated[i + 1..];
      ReductionsLater(gpus, updated[i..], orders);
      ApplyTable(gpus, c.gpuUUID, ReduceOp(c.uuid, n, OrderOf(orders, c.uuid)));
      gpus := ReduceGroup(gpus, c, n, OrderOf(orders, c.uuid));
    }
  }

  method ReleaseAll(gpus0: Gpus, removed: seq<Config>, orders: map<string, seq<int>>) returns (gpus: Gpus)
    requires ReleasesOk(gpus0, removed, orders) && TableOk(gpus0)
    ensures gpus == ReleaseGroups(gpus0, removed, orders)
    ensures AllOwned(gpus) && TableOk(gpus)
  {
    hide Apply, TableOk, Owned, OpOk;
    gpus := gpus0;
    for i := 0 to |removed|
      invariant ReleasesOk(gpus, removed[i..], orders) && TableOk(gpus)
      invariant ReleaseGroups(gpus, removed[i..], orders) == ReleaseGroups(gpus0, removed, orders)
    {
      var c := removed[i];
      assert removed[i..][0] == c && removed[i..][1..] == removed[i + 1..];
      ReleasesLater(gpus, removed[i..], orders);
      ApplyTable(gpus, c.gpuUUID, ReleaseOp(c.uuid, OrderOf(orders, c.uuid)));
      gpus := ReleaseGroup(gpus, c, OrderOf(orders, c.uuid));
    }
  }

  // ------------------------------------------------------------------------ a tick

  lemma KeptFresh(s: System, plans: seq<Config>)
    requires Linked(s) && PlansOk(s.gpus, plans)
    ensures forall c :: c in KeptGroups(s.gpus, plans) ==> c.uuid !in s.func.configs
  {
    hide AllOwned, Sum, PlansOk;
    FreshForFunction(s, plans);
    forall c | c in KeptGroups(s.gpus, plans) ensures c.uuid !in s.func.configs {
      KeptFromPlan(s.gpus, plans, c);
    }
  }

  /** The scale-up part of a tick: plan, commit, create the pods. */
  method ScaleUpOn(ghost s: System, f: Func, gpus0: Gpus, m: Metrics, base: Request, offered: set<string>,
                   newUUID: nat -> string, podsCreated: bool)
    returns (gpus: Gpus, up: UpOutcome, ghost plans: seq<Config>)
    requires s == System(f, gpus0) && Linked(s) && TableOk(gpus0) && FreshUuids(gpus0, newUUID) && 0 < base.memory
    requires WantsUp(f, m)
    ensures PlansOk(gpus0, plans) && PlannedFor(gpus0, base.(qps := DeltaUp(f, m)), plans)
    ensures (forall p :: p in plans ==> p.uuid !in f.configs)
    ensures gpus == CommitGroups(gpus0, plans) && TableOk(gpus)
    ensures if plans == [] then up.NoConfigs?
            else if podsCreated then up == Added(KeptGroups(gpus0, plans))
            else up.PodsFailed?
    ensures forall order, api :: Admissible(f, Tick(m, up, order, api))
  {
    hide AllOwned, TableOk, FreshUuids, PlannerResult, KeptGroups, CommitGroups, PlansOk, Sum;
    var found, list, tried, source, remaining := Plan(base.(qps := DeltaUp(f, m)), gpus0, offered, newUUID);
    plans := found;
    FreshForFunction(s, plans);
    KeptFresh(s, plans);
    KeptAdmissible(gpus0, plans);
    var kept;
    gpus, kept := CommitPlans(gpus0, found);
    if found == [] {
      up := NoConfigs;
    } else if !podsCreated {
      up := PodsFailed;
    } else {
      up := Added(kept);
    }
  }

  /** Exactly the given groups are new to a function, and its capacity has risen by their RPS. */
  ghost predicate Entered(before: Func, after: Func, kept: seq<Config>) {
    && (forall c :: c in kept ==>
          c.uuid !in before.configs && c.uuid in after.configs && after.configs[c.uuid] == c)
    && (forall u :: u in before.configs ==> u in after.configs && after.configs[u] == before.configs[u])
    && (forall u :: u in after.configs ==> u in before.configs || exists c :: c in kept && c.uuid == u)
    && after.currentRPSCapacity == before.currentRPSCapacity + Total(kept)
  }

  /** A function has lost exactly those groups of a plan whose pods are gone already or were deleted. */
  ghost predicate Dropped(before: Func, after: Func, plan: seq<Config>, api: map<string, Outcome>) {
    && (forall u :: u in after.configs ==> u in before.configs && after.configs[u] == before.configs[u])
    && (forall u :: u in before.configs ==>
          (u !in after.configs <==>
             before.configs[u] in plan && u in api && (api[u] == NotFound || api[u] == Done)))
  }

  /** What a tick does to the record of its function. */
  lemma TickOnRecord(f: Func, t: Tick)
    requires FuncInv(f) && Admissible(f, t)
    ensures WantsUp(f, t.metrics) && t.up.Added? ==> Entered(f, Step(f, t), t.up.configs)
    ensures FiresDown(f, t.metrics) ==>
      Dropped(f, Step(f, t), t.order[..Removable(t.order, PredictedRate(t.metrics))], t.api)
    ensures !FiresDown(f, t.metrics) && !(WantsUp(f, t.metrics) && t.up.Added?) ==>
      Step(f, t).configs == f.configs && Step(f, t).currentRPSCapacity == f.currentRPSCapacity
  {
    hide PredictedRate, WantsUp, FiresDown, Total, Removable, Step, Admissible;
    if WantsUp(f, t.metrics) {
      EnteredByScaleUp(f, t);
    } else if FiresDown(f, t.metrics) {
      LeftByScaleDown(f, t);
    } else {
      QuietOnRecord(f, t);
    }
    if FiresDown(f, t.metrics) {
      NeverBoth(f, t.metrics);
    }
  }

  lemma QuietOnRecord(f: Func, t: Tick)
    requires FuncInv(f) && Admissible(f, t) && !WantsUp(f, t.metrics) && !FiresDown(f, t.metrics)
    ensures Step(f, t).configs == f.configs && Step(f, t).currentRPSCapacity == f.currentRPSCapacity
  {}

  /** A whole tick of one function on the table of GPUs: exactly one step of the system. */
  method TickOn(f0: Func, gpus0: Gpus, m: Metrics, base: Request, offered: set<string>,
                newUUID: nat -> string, podsCreated: bool, api: map<string, Outcome>)
    returns (f: Func, gpus: Gpus, ghost e: Event)
    requires Linked(System(f0, gpus0)) && TableOk(gpus0) && FreshUuids(gpus0, newUUID) && 0 < base.memory
    ensures e.Own? && EventOk(System(f0, gpus0), e) && System(f, gpus) == SystemStep(System(f0, gpus0), e)
    ensures e.tick.metrics == m && e.tick.api == api
    ensures Genuine(System(f0, gpus0), e, base)
    ensures WantsUp(f0, m) && e.plans != [] && podsCreated ==> Entered(f0, f, KeptGroups(gpus0, e.plans))
    ensures FiresDown(f0, m) ==> Dropped(f0, f, e.tick.order[..Removable(e.tick.order, PredictedRate(m))], api)
    ensures !FiresDown(f0, m) && !(WantsUp(f0, m) && e.plans != [] && podsCreated) ==>
      f.configs == f0.configs && f.currentRPSCapacity == f0.currentRPSCapacity
    ensures TableOk(gpus)
  {
    hide AllOwned, TableOk, FreshUuids, PlannedFor, KeptGroups, CommitGroups, PlansOk, Sum, Removed, Updated, Step, IsPlaced, Entered, Dropped, Removable, PredictedRate;
    ghost var s := System(f0, gpus0);
    var up := NoConfigs;
    ghost var plans: seq<Config> := [];
    gpus := gpus0;
    var orders := VisitOrders(f0.configs, gpus0);
    if WantsUp(f0, m) {
      gpus, up, plans := ScaleUpOn(s, f0, gpus0, m, base, offered, newUUID, podsCreated);
    }
    var updated, removed;
    ghost var order;
    f, updated, removed, order := TickOnce(f0, m, up, api);
    e := Own(Tick(m, up, order, api), plans, orders);
    TickOnRecord(f0, e.tick);
    if FiresDown(f0, m) {
      NeverBoth(f0, m);
      DownCalls(s, e);
      gpus := ReduceAll(gpus, updated, orders);
      gpus := ReleaseAll(gpus, removed, orders);
    }
  }

  // ---------------------------------------------------------------- the controller

  class Controller {
    var fastFuncMap: map<string, Func>
    var gpus: Gpus
    ghost var start: Gpus
    ghost var run: seq<Happening>

    ghost function Now(): World
      reads this
    {
      World(fastFuncMap, gpus)
    }

    /** The state is the one reached by the run so far. */
    ghost predicate Valid()
      reads this
    {
      Untouched(start) && RunWorld(start, run) == Some(Now()) && TableOk(gpus)
    }

    constructor (gpus: Gpus)
      requires Untouched(gpus) && TableOk(gpus)
      ensures Valid() && start == gpus && run == [] && Now() == World(map[], gpus)
    {
      fastFuncMap := map[];
      this.gpus := gpus;
      start := gpus;
      run := [];
    }

    /** A new, empty GPU, say a virtual one that was provisioned. */
    method AddGpu(gpu: Gpu)
      requires Valid() && gpu.uuid !in gpus && Inv(gpu.packer) && gpu.packer.itemLocation == map[]
      requires Measurable(gpu) && gpu.packer.maxHeight == gpu.totalSM
      modifies this
      ensures Valid() && start == old(start) && run == old(run) + [Arrival(gpu)]
      ensures Now() == old(World(fastFuncMap, gpus[gpu.uuid := Ledger(gpu, map[])]))
    {
      hide WorldInv, Inv, Linked, HappeningOk, WorldStep, RunWorld, Untouched;
      ghost var before := Now();
      ghost var h := Arrival(gpu);
      ArrivalOk(before, h);
      RunNext(start, run, h);
      gpus := gpus[gpu.uuid := Ledger(gpu, map[])];
      run := run + [h];
    }

    /** One tick of one function. The GPUs offered are planned on and committed to in the table, pods
        may fail, cluster calls may fail, and groups are reduced and released on their GPUs; the result
        is exactly one step of `Worlds`, whose scale-up is the planner's. */
    method UpdateFunction(name: string, m: Metrics, base: Request, offered: set<string>,
                          newUUID: nat -> string, podsCreated: bool, api: map<string, Outcome>)
      returns (ghost h: Happening)
      requires Valid() && FreshUuids(gpus, newUUID) && 0 < base.memory
      modifies this
      ensures Valid() && start == old(start) && run == old(run) + [h]
      ensures WorldInv(old(Now())) && HappeningOk(old(Now()), h) && Now() == WorldStep(old(Now()), h)
      ensures h.Turn? && h.name == name && h.tick.metrics == m && h.tick.api == api
      ensures Genuine(View(old(Now()), name), EventOf(h), base)
      ensures name in fastFuncMap
      ensures name !in old(fastFuncMap) ==> WantsUp(FuncOf(old(Now()), name), m)
      ensures WantsUp(FuncOf(old(Now()), name), m) && h.plans != [] && podsCreated ==>
        Entered(FuncOf(old(Now()), name), fastFuncMap[name], KeptGroups(old(gpus), h.plans))
      ensures FiresDown(FuncOf(old(Now()), name), m) ==>
        Dropped(FuncOf(old(Now()), name), fastFuncMap[name],
                h.tick.order[..Removable(h.tick.order, PredictedRate(m))], api)
      ensures var f0 := FuncOf(old(Now()), name);
        !FiresDown(f0, m) && !(WantsUp(f0, m) && h.plans != [] && podsCreated) ==>
          fastFuncMap[name].configs == f0.configs && fastFuncMap[name].currentRPSCapacity == f0.currentRPSCapacity
    {
      hide WorldInv, Linked, TableOk, FreshUuids, Genuine, EventOk, SystemStep, Untouched, HappeningOk, WorldStep, RunWorld, Entered, Dropped, Removable, PredictedRate, WantsUp, FiresDown, KeptGroups;
      ghost var before := Now();
      ViewLinked(before, name);
      NewFunction(m);
      var f := if name in fastFuncMap then fastFuncMap[name] else NEW_FUNC;
      var table;
      ghost var e;
      f, table, e := TickOn(f, gpus, m, base, offered, newUUID, podsCreated, api);
      h := Turn(name, e.tick, e.plans, e.orders);
      TurnStep(before, name, e);
      RunNext(start, run, h);
      fastFuncMap := fastFuncMap[name := f];
      gpus := table;
      run := run + [h];
    }

    /** The deletion of a function: every group of it is reduced to nothing on its GPU and the function is
        forgotten; deleting an unknown one does nothing. */
    method DeleteFunction(name: string) returns (ghost happened: seq<Happening>)
      requires Valid()
      modifies this
      ensures Valid() && start == old(start) && run == old(run) + happened
      ensures name !in fastFuncMap && fastFuncMap == old(fastFuncMap) - {name}
      ensures happened == [] <==> name !in old(fastFuncMap)
      ensures happened != [] ==> |happened| == 1 && happened[0].Deletion? && happened[0].name == name
    {
      hide WorldInv, Linked, TableOk, Untouched, HappeningOk, WorldStep, RunWorld, ReduceGroups;
      ghost var before := Now();
      happened := [];
      if name !in fastFuncMap {
        assert fastFuncMap == fastFuncMap - {name};
        return;
      }
      HeldByFunction(before, name);
      var list := CurrentConfigs(fastFuncMap[name].configs);
      var orders := VisitOrders(fastFuncMap[name].configs, gpus);
      ghost var h := Deletion(name, list, orders);
      DeletionOk(before, h);
      var table := ReduceAll(gpus, ToNothing(list), orders);
      RunNext(start, run, h);
      gpus := table;
      fastFuncMap := fastFuncMap - {name};
      happened := [h];
      run := run + happened;
    }
  }

  lemma HeldByFunction(w: World, name: string)
    requires WorldInv(w) && name in w.funcs
    ensures forall u :: u in w.funcs[name].configs ==>
      IsPlaced(w.gpus, w.funcs[name].configs[u]) && w.funcs[name].configs[u].uuid == u
  {
    hide WorldInv;
    forall u | u in w.funcs[name].configs
      ensures IsPlaced(w.gpus, w.funcs[name].configs[u]) && w.funcs[name].configs[u].uuid == u
    {
      GroupPlaced(w, name, u);
    }
  }

  lemma DeletionOk(w: World, h: Happening)
    requires WorldInv(w) && h.Deletion? && h.name in w.funcs && IsListing(h.list, w.funcs[h.name].configs)
    requires forall u :: u in w.funcs[h.name].configs ==>
      && IsPlaced(w.gpus, w.funcs[h.name].configs[u])
      && Enumerates(OrderOf(h.orders, u), ItemsOf(w.gpus, w.funcs[h.name].configs[u]))
    ensures HappeningOk(w, h) && ReductionsOk(w.gpus, ToNothing(h.list), h.orders)
    ensures WorldStep(w, h) == World(w.funcs - {h.name}, ReduceGroups(w.gpus, ToNothing(h.list), h.orders))
  {
    hide WorldInv, Enumerates, IsListing, ReduceGroups;
    DeletionCalls(w, h);
  }

  lemma TurnStep(w: World, name: string, e: Event)
    requires WorldInv(w) && Linked(View(w, name)) && e.Own? && EventOk(View(w, name), e)
    ensures var h := Turn(name, e.tick, e.plans, e.orders);
      && EventOf(h) == e && HappeningOk(w, h)
      && WorldStep(w, h) == World(w.funcs[name := SystemStep(View(w, name), e).func], SystemStep(View(w, name), e).gpus)
  {
    hide WorldInv, Linked, EventOk, SystemStep;
  }

  lemma ArrivalOk(w: World, h: Happening)
    requires WorldInv(w) && h.Arrival? && h.gpu.uuid !in w.gpus && Inv(h.gpu.packer) && h.gpu.packer.itemLocation == map[]
    ensures HappeningOk(w, h)
    ensures WorldStep(w, h) == World(w.funcs, w.gpus[h.gpu.uuid := Ledger(h.gpu, map[])])
  {
    hide WorldInv, Linked, Inv;
  }

  lemma RunNext(start: Gpus, run: seq<Happening>, h: Happening)
    requires Untouched(start) && RunWorld(start, run).Some? && HappeningOk(RunWorld(start, run).value, h)
    ensures RunWorld(start, run + [h]) == Some(WorldStep(RunWorld(start, run).value, h))
  {
    hide WorldInv, HappeningOk, WorldStep, Untouched;
    assert (run + [h])[..|run|] == run;
  }
}

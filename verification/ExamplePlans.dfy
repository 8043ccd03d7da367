/** The GPUs of the examples, and what the planner returns on them. */
module ExamplePlans {
  import opened Arithmetic
  import opened Cluster
  import opened Configs
  import opened ConfigFinder
  import opened Delivery
  import opened ExampleTicks
  import opened GpuLedger
  import opened GpuMemory
  import opened GpuOrder
  import opened ScaleDown
  import opened Shelves
  import opened ShelfCapacity
  import opened ShelfRelease

  // ------------------------------------------------------------ the GPUs underneath

  const SMALL_GPU := FreshGpu("g1", "t1000", 1, 100, 1)
  const LARGE_GPU := FreshGpu("g2", "a100", 100, 100, 1)

  const EMPTY_GPUS: Gpus := map["g1" := Ledger(SMALL_GPU, map[]), "g2" := Ledger(LARGE_GPU, map[])]

  lemma EmptyOwned()
    ensures AllOwned(EMPTY_GPUS)
  {}

  /** The GPU with the first group on it, committed to an empty packer. */
  ghost function With(g: Gpu, c: Config): Ledger { LedgerAfter(Ledger(g, map[]), CommitOp(PlanOf(c))) }

  ghost function LedgerAfter(l: Ledger, op: Op): Ledger {
    if Owned(l) && OpOk(l, op) then LedgerStep(l, op) else l
  }

  /** A group of the example, and a GPU with nothing on it. */
  predicate IsExample(c: Config) {
    && c.quotaReq == 0.5 && c.smPartition == 10 && c.memoryReq == 1 && 1 <= c.requiredReplica <= 20
    && c.allocatedReplica == c.requiredReplica && Consistent(c)
  }

  ghost predicate Unused(g: Gpu) {
    Inv(g.packer) && MaxInsertable(g.packer, 0.5, 10) == 20 && g.packer.itemLocation == map[]
  }

  /** Committed there, the group is kept with its full record. */
  lemma CommitOnEmpty(g: Gpu, c: Config)
    requires Unused(g) && IsExample(c)
    ensures var r := Commit(g, PlanOf(c), {});
      && r.config == c && |r.items| == c.requiredReplica
      && r.gpu.usageMemory == g.usageMemory - c.requiredReplica
      && r.gpu == g.(allocationType := c.allocationType, usageMemory := r.gpu.usageMemory, packer := r.gpu.packer)
      && r.gpu.packer.maxHeight == g.packer.maxHeight
  {
    hide Inv, Commit, MaxInsertable, IsExample;
    CommitCount(g, c);
    CommitIds(g, PlanOf(c));
    CommitShape(g, PlanOf(c));
  }

  lemma CommitCount(g: Gpu, c: Config)
    requires Unused(g) && IsExample(c)
    ensures var r := Commit(g, PlanOf(c), {});
      && r.config == c && c.allocatedReplica == c.requiredReplica
      && r.gpu.usageMemory == g.usageMemory - c.requiredReplica
  {
    hide Inv, Commit, MaxInsertable, Consistent;
    CommitPlacesWhatFits(g, PlanOf(c), {});
    CommitKeepsPlan(g, PlanOf(c), {});
    CommitMemory(g, PlanOf(c), {});
    ConsistentRps(c);
  }

  lemma ConsistentRps(c: Config)
    requires Consistent(c)
    ensures c.allocatedRPS == c.qpsPerReplica * c.allocatedReplica as real
  {}

  lemma CommitShape(g: Gpu, p: Config)
    ensures var h := Commit(g, p, {}).gpu;
      && h == g.(allocationType := p.allocationType, usageMemory := h.usageMemory, packer := h.packer)
      && h.packer.maxHeight == g.packer.maxHeight
  {
    hide InsertRun, Booked;
    RunIdsConsecutive(g.packer, p.quotaReq, p.smPartition, Attempts(p));
  }

  lemma WithIsStep(g: Gpu, c: Config)
    requires Unused(g) && IsExample(c)
    ensures Owned(Ledger(g, map[])) && OpOk(Ledger(g, map[]), CommitOp(PlanOf(c)))
    ensures With(g, c) == LedgerStep(Ledger(g, map[]), CommitOp(PlanOf(c))) && Owned(With(g, c))
    ensures var r := Commit(g, PlanOf(c), {}); With(g, c) == Ledger(r.gpu, map[c.uuid := Held(c, r.items)])
  {
    hide Inv, Commit, MaxInsertable;
    CommitOnEmpty(g, c);
    OwnershipStep(Ledger(g, map[]), CommitOp(PlanOf(c)));
    var none: map<string, Held> := map[];
    assert forall h: Held :: none[c.uuid := h] == map[c.uuid := h];
  }

  lemma KeptFirst(gpus: Gpus, g: Gpu, c: Config, rest: seq<Config>)
    requires AllOwned(gpus) && c.gpuUUID in gpus && gpus[c.gpuUUID] == Ledger(g, map[])
    requires Unused(g) && IsExample(c)
    ensures var after := gpus[c.gpuUUID := With(g, c)];
      && KeptGroups(gpus, [PlanOf(c)] + rest) == [c] + KeptGroups(after, rest)
      && CommitGroups(gpus, [PlanOf(c)] + rest) == CommitGroups(after, rest)
      && AllOwned(after)
  {
    hide Commit, Owned, With, Unused;
    CommitOnEmpty(g, c);
    WithIsStep(g, c);
    assert ([PlanOf(c)] + rest)[1..] == rest;
  }

  const FIRST_PLANS: seq<Config> := [PlanOf(SMALL), PlanOf(LARGE)]

  ghost const FIRST_GPUS: Gpus := map["g1" := With(SMALL_GPU, SMALL), "g2" := With(LARGE_GPU, LARGE)]

  lemma FirstCommits()
    ensures AllOwned(EMPTY_GPUS) && PlansOk(EMPTY_GPUS, FIRST_PLANS)
    ensures KeptGroups(EMPTY_GPUS, FIRST_PLANS) == [SMALL, LARGE]
    ensures CommitGroups(EMPTY_GPUS, FIRST_PLANS) == FIRST_GPUS
  {
    hide AllOwned, KeptGroups, CommitGroups, With;
    NamesDiffer();
    EmptyOwned();
    EmptyCapacity();
    KeptFirst(EMPTY_GPUS, SMALL_GPU, SMALL, [PlanOf(LARGE)]);
    assert [PlanOf(SMALL)] + [PlanOf(LARGE)] == FIRST_PLANS;
    var one := EMPTY_GPUS["g1" := With(SMALL_GPU, SMALL)];
    KeptFirst(one, LARGE_GPU, LARGE, []);
    assert [PlanOf(LARGE)] + [] == [PlanOf(LARGE)];
    assert one["g2" := With(LARGE_GPU, LARGE)] == FIRST_GPUS;
    NoPlans(FIRST_GPUS);
  }

  lemma NoPlans(gpus: Gpus)
    ensures KeptGroups(gpus, []) == [] && CommitGroups(gpus, []) == gpus
  {}

  /** The GPUs after the first scale-down: the small one is unused again, the large one has the large
      group and a counter that stands at -20. */
  ghost predicate Shrunken(gpus: Gpus) {
    && gpus.Keys == {"g1", "g2"}
    && (var l := gpus["g1"];
        && l.held == map[]
        && l.gpu == SMALL_GPU.(packer := l.gpu.packer, allocationType := FastPod)
        && l.gpu.packer == SMALL_GPU.packer.(nextItemID := l.gpu.packer.nextItemID))
    && (var l := gpus["g2"];
        && l.held.Keys == {"b"}
        && l.gpu == LARGE_GPU.(packer := l.gpu.packer, allocationType := FastPod, usageMemory := -20)
        && l.gpu.packer.maxHeight == 100)
  }

  lemma SmallReleased(order: seq<int>)
    requires "a" in With(SMALL_GPU, SMALL).held && Enumerates(order, With(SMALL_GPU, SMALL).held["a"].items)
    ensures var l := With(SMALL_GPU, SMALL);
      && Owned(l) && OpOk(l, ReleaseOp("a", order))
      && var l' := LedgerStep(l, ReleaseOp("a", order));
      && l'.held == map[]
      && l'.gpu == SMALL_GPU.(packer := l'.gpu.packer, allocationType := FastPod)
      && l'.gpu.packer == SMALL_GPU.packer.(nextItemID := l'.gpu.packer.nextItemID)
  {
    hide Inv, Commit, With, Partition, Release, MaxInsertable;
    EmptyCapacity();
    CommitOnEmpty(SMALL_GPU, SMALL);
    WithIsStep(SMALL_GPU, SMALL);
    CommitThenRelease(SMALL_GPU, PlanOf(SMALL), order);
  }

  lemma LargeReduced(order: seq<int>)
    requires "b" in With(LARGE_GPU, LARGE).held && Enumerates(order, With(LARGE_GPU, LARGE).held["b"].items)
    ensures var l := With(LARGE_GPU, LARGE);
      && Owned(l) && OpOk(l, ReduceOp("b", 2, order))
      && var l' := LedgerStep(l, ReduceOp("b", 2, order));
      && l'.held.Keys == {"b"}
      && l'.gpu == LARGE_GPU.(packer := l'.gpu.packer, allocationType := FastPod, usageMemory := -20)
      && l'.gpu.packer.maxHeight == 100
  {
    hide Inv, Commit, With, Partition, RemoveRun, MaxInsertable, Taken;
    EmptyCapacity();
    CommitOnEmpty(LARGE_GPU, LARGE);
    WithIsStep(LARGE_GPU, LARGE);
    InvOfOwned(With(LARGE_GPU, LARGE));
    RemoveRunIsDrop(With(LARGE_GPU, LARGE).gpu.packer, Taken(LARGE, 2, order));
  }

  lemma FirstDownGpus(orders: map<string, seq<int>>)
    requires "a" in With(SMALL_GPU, SMALL).held && "b" in With(LARGE_GPU, LARGE).held
    requires Enumerates(OrderOf(orders, "a"), With(SMALL_GPU, SMALL).held["a"].items)
    requires Enumerates(OrderOf(orders, "b"), With(LARGE_GPU, LARGE).held["b"].items)
    ensures Shrunken(ReleaseGroups(ReduceGroups(FIRST_GPUS, [Reduced(LARGE, 9)], orders), [SMALL], orders))
  {
    hide Owned, OpOk, LedgerStep, With, Enumerates;
    NamesDiffer();
    var x := Reduced(LARGE, 9);
    var reduce := ReduceOp("b", 2, OrderOf(orders, "b"));
    var release := ReleaseOp("a", OrderOf(orders, "a"));
    LargeReduced(OrderOf(orders, "b"));
    SmallReleased(OrderOf(orders, "a"));
    ReduceSingle(FIRST_GPUS, [x], orders);
    var mid := Apply(FIRST_GPUS, "g2", reduce);
    assert [SMALL][1..] == [];
    assert ReleaseGroups(mid, [SMALL], orders) == ReleaseGroups(Apply(mid, "g1", release), [], orders);
  }

  // ------------------------------------------------------------ the planner's part

  /** On a GPU of one of the two types the measured point is the only feasible one. */
  lemma OnlyPoint(s: Search, qps: real)
    requires s.profile == PROFILE && s.memory == 1 && s.allocationType == FastPod
    requires if s.gpu.gpuType == "t1000" then qps == 1.0 else s.gpu.gpuType == "a100" && qps == 10.0
    requires s.gpu.totalSM == 100 && 1 <= AvailableMemory(s.gpu)
    requires Inv(s.gpu.packer) && 1 <= MaxInsertable(s.gpu.packer, 0.5, 10)
    ensures QpsAt(s, Point(10, 5)) == qps && QuotaAt(5) == 0.5
    ensures IsBest(s, Point(10, 5))
  {
    hide Inv, MaxInsertable, CanFit;
    NamesDiffer();
    PredictorsAgree(s.gpu.packer, 0.5, 10);
    forall p | QpsAt(s, p) != 0.0 ensures p == Point(10, 5) {
      Measured(s, p);
    }
  }

  lemma Measured(s: Search, p: Point)
    requires s.profile == PROFILE && QpsAt(s, p) != 0.0
    ensures p == Point(10, 5)
  {
    assert Round(QuotaAt(p.tenths) * 100.0) == 50;
    assert QuotaAt(p.tenths) * 100.0 == (10 * p.tenths) as real;
  }

  /** What the search finds there. */
  lemma SearchFinds(s: Search, qps: real, n: int) returns (c: Config)
    requires s.profile == PROFILE && s.memory == 1 && s.allocationType == FastPod && 0.0 < s.remainingQPS
    requires if s.gpu.gpuType == "t1000" then qps == 1.0 else s.gpu.gpuType == "a100" && qps == 10.0
    requires s.gpu.totalSM == 100 && 1 <= AvailableMemory(s.gpu)
    requires GpuOk(s.gpu) && MaxInsertable(s.gpu.packer, 0.5, 10) == 20
    requires n == PlannedReplicas(qps, Min(20, AvailableMemory(s.gpu)), s.remainingQPS)
    ensures c == Config(s.uuid, FastPod, s.gpu.uuid, 0.5, 10, 1, n, qps, qps * n as real, qps / 5.0, 0, 0.0)
    ensures Found(s, c) && PlannedOn(s.gpu, c, 1)
  {
    hide Inv, MaxInsertable, IsBest, QpsAt, Feasible;
    OnlyPoint(s, qps);
    BestInGrid(s, Point(10, 5));
    PlanFits(s, Point(10, 5));
    c := ConfigAt(s, Point(10, 5));
    assert FoundAt(s, Point(10, 5), c);
  }

  lemma FoundUsable(r: Request, g: Gpu, s: Search, c: Config)
    requires s == SearchOn(r, g, s.remainingQPS, s.uuid) && Found(s, c) && FitsMemory(g, r.memory)
    ensures Usable(r, g)
  {
    hide IsBest, ConfigAt;
    var p :| FoundAt(s, p, c);
    BestInGrid(s, p);
    UsableIff(r, g, s);
  }

  lemma SmallFirst(r: Request, a: Gpu, b: Gpu)
    requires Measurable(a) && Measurable(b) && r.profile == PROFILE
    requires a.allocationType == b.allocationType && a.totalSM == b.totalSM == 100
    requires a.usageMemory == 0 && a.packer.usedHeight == 0 && a.packer.maxHeight == b.packer.maxHeight == 100
    requires 0 <= b.packer.usedHeight && b.usageMemory <= 0
    requires a.totalMemory - a.usageMemory <= b.totalMemory - b.usageMemory
    ensures AllMeasurable([a, b]) && Ordered(r, [a, b])
  {
    NoFullEntry(a.gpuType);
    NoFullEntry(b.gpuType);
    BalanceSign(b);
  }

  lemma NoFullEntry(gpuType: string)
    ensures GetQPS(PROFILE, gpuType, 100, 1.0, 0) == 0.0
  {}

  lemma BalanceSign(g: Gpu)
    requires Measurable(g) && g.usageMemory <= 0 && 0 <= g.packer.usedHeight
    ensures 0.0 <= g.packer.usedHeight as real / g.packer.maxHeight as real
    ensures g.usageMemory as real / g.totalMemory as real <= 0.0
  {
    QuotientNonNegative(g.packer.usedHeight as real, g.packer.maxHeight as real);
    QuotientUnique(0.0, g.totalMemory as real, 0.0);
    QuotientOrder(g.usageMemory as real, 0.0, g.totalMemory as real);
  }

  predicate IsRequest(r: Request) { r.profile == PROFILE && r.memory == 1 && r.allocationType == FastPod }

  /** A GPU of the example with room for all twenty replicas. */
  ghost predicate Roomy(g: Gpu) {
    && g.totalSM == g.packer.maxHeight == 100 && 1 <= AvailableMemory(g) && 1 <= g.totalMemory
    && Inv(g.packer) && MaxInsertable(g.packer, 0.5, 10) == 20
  }

  /** A plan for it with the measured throughput and the count that the search computes. */
  predicate PlanFor(g: Gpu, remaining: real, c: Config) {
    && (if g.gpuType == "t1000" then c.qpsPerReplica == 1.0 else g.gpuType == "a100" && c.qpsPerReplica == 10.0)
    && c.requiredReplica == PlannedReplicas(c.qpsPerReplica, Min(20, AvailableMemory(g)), remaining)
    && c == Config(c.uuid, FastPod, g.uuid, 0.5, 10, 1, c.requiredReplica, c.qpsPerReplica,
                   c.qpsPerReplica * c.requiredReplica as real, c.qpsPerReplica / 5.0, 0, 0.0)
  }

  lemma PlanFound(r: Request, g: Gpu, remaining: real, c: Config)
    requires IsRequest(r) && Roomy(g) && PlanFor(g, remaining, c) && 0.0 < remaining
    ensures Usable(r, g) && PlannedOn(g, c, 1) && Found(SearchOn(r, g, remaining, c.uuid), c)
    ensures Possible(g, 10, 0.5, 1) == Min(20, AvailableMemory(g))
  {
    hide MaxInsertable, Inv, Found, PlannedOn, Usable, PlannedReplicas;
    var s := SearchOn(r, g, remaining, c.uuid);
    var found := SearchFinds(s, c.qpsPerReplica, c.requiredReplica);
    SameProduct(c, found);
    FoundUsable(r, g, s, c);
  }

  lemma SameProduct(c: Config, d: Config)
    requires c.qpsPerReplica == d.qpsPerReplica && c.requiredReplica == d.requiredReplica
    ensures c.qpsPerReplica * c.requiredReplica as real == d.qpsPerReplica * d.requiredReplica as real
  {}

  lemma FirstRoomy()
    ensures Roomy(SMALL_GPU) && Roomy(LARGE_GPU) && AvailableMemory(SMALL_GPU) == 1
  {
    hide MaxInsertable, Inv;
    EmptyCapacity();
  }

  lemma FirstPlansFor()
    ensures PlanFor(SMALL_GPU, 105.0, PlanOf(SMALL)) && PlanFor(LARGE_GPU, 104.0, PlanOf(LARGE))
  {
    hide PlannedReplicas;
    NamesDiffer();
    FirstCounts();
  }

  lemma FirstPass(r: Request, g: Gpu, h: Gpu, c: Config, d: Config)
    requires IsRequest(r) && r.qps == 105.0 && Roomy(g) && Roomy(h) && AvailableMemory(g) == 1
    requires PlanFor(g, 105.0, c) && c.requiredReplica == 1 && c.satisfiableRPS == 1.0
    requires PlanFor(h, 104.0, d) && d.satisfiableRPS == 110.0 && d.qpsPerReplica == 10.0
    ensures Passed(r, [g, h], 2, [c, d], [0, 1]) && Chosen(r, [g, h], [c, d], [0, 1])
    ensures Balanced(r, [g, h], [c, d], [0, 1], -6.0)
  {
    hide Found, PlannedOn, Usable, Passed, Balanced, Chosen, Possible, Roomy, SearchOn, PlannedReplicas;
    PlanFound(r, g, 105.0, c);
    PlanFound(r, h, 104.0, d);
    TwoPlans(r, g, h, c, d);
  }

  lemma OfferedTwo(gpus: Gpus, a: string, b: string)
    requires a in gpus && gpus[a].gpu.uuid == a && b in gpus && gpus[b].gpu.uuid == b && a != b
    ensures Offered(gpus, [gpus[a].gpu, gpus[b].gpu])
  {}

  lemma FirstResult(gpus: Gpus, r: Request, g: Gpu, h: Gpu, c: Config, d: Config)
    requires IsRequest(r) && r.qps == 105.0 && Roomy(g) && Roomy(h) && AvailableMemory(g) == 1
    requires PlanFor(g, 105.0, c) && c.requiredReplica == 1 && c.satisfiableRPS == 1.0
    requires PlanFor(h, 104.0, d) && d.satisfiableRPS == 110.0 && d.qpsPerReplica == 10.0
    requires Offered(gpus, [g, h]) && AllMeasurable([g, h]) && Ordered(r, [g, h])
    ensures PlannedFor(gpus, r, [c, d])
  {
    hide Offered, Ordered, AllMeasurable, Passed, Balanced, Chosen, Roomy, PlanFor, IsRequest;
    FirstPass(r, g, h, c, d);
    assert PlannerResult(gpus, r, [g, h], 2, [c, d], [0, 1], -6.0);
  }

  lemma FirstOffer(gpus: Gpus, r: Request, list: seq<Gpu>)
    requires list == [SMALL_GPU, LARGE_GPU] && Offered(gpus, list) && IsRequest(r) && r.qps == 105.0
    requires AllMeasurable(list) && Ordered(r, list)
    ensures PlannedFor(gpus, r, FIRST_PLANS)
  {
    hide Offered, Ordered, AllMeasurable, Roomy, PlanFor, PlannedFor, IsRequest;
    FirstRoomy();
    FirstPlansFor();
    FirstResult(gpus, r, SMALL_GPU, LARGE_GPU, PlanOf(SMALL), PlanOf(LARGE));
  }

  /** The first scale-up: one replica on the small GPU, which takes no more, and eleven on the large. */
  lemma FirstPlanned()
    ensures PlannedFor(EMPTY_GPUS, BASE.(qps := 105.0), FIRST_PLANS)
  {
    hide Offered, Ordered, AllMeasurable, PlannedFor;
    NamesDiffer();
    SmallFirst(BASE.(qps := 105.0), SMALL_GPU, LARGE_GPU);
    OfferedTwo(EMPTY_GPUS, "g1", "g2");
    FirstOffer(EMPTY_GPUS, BASE.(qps := 105.0), [SMALL_GPU, LARGE_GPU]);
  }

  lemma FirstCounts()
    ensures PlannedReplicas(1.0, Min(20, 1), 105.0) == 1
    ensures PlannedReplicas(10.0, Min(20, 100), 104.0) == 11
  {
    QuotientUnique(104.0, 10.0, 10.4);
  }

  /** A pass that fills the first of two GPUs and satisfies the request on the second. */
  lemma TwoPlans(r: Request, g: Gpu, h: Gpu, c: Config, d: Config)
    requires 0 < r.memory && Usable(r, g) && Usable(r, h)
    requires PlannedOn(g, c, r.memory) && PlannedOn(h, d, r.memory)
    requires c.requiredReplica == Possible(g, c.smPartition, c.quotaReq, r.memory)
    requires Found(SearchOn(r, g, r.qps, c.uuid), c)
    requires Found(SearchOn(r, h, r.qps - c.satisfiableRPS, d.uuid), d)
    requires 0.0 <= c.satisfiableRPS + d.satisfiableRPS - r.qps < d.qpsPerReplica
    ensures Passed(r, [g, h], 2, [c, d], [0, 1]) && Chosen(r, [g, h], [c, d], [0, 1])
    ensures Balanced(r, [g, h], [c, d], [0, 1], r.qps - c.satisfiableRPS - d.satisfiableRPS)
  {
    hide Possible, Found, PlannedOn, Usable, SearchOn;
    OnePlan(r, [g, h], c);
    SatisfiedSteps(c, d);
    assert [c] + [d] == [c, d] && [0] + [1] == [0, 1];
    PassTake(r, [g, h], 1, [c], [0], d);
    ChosenTake(r, [g, h], 1, [c], [0], d);
  }

  lemma OnePlan(r: Request, list: seq<Gpu>, c: Config)
    requires 0 < r.memory && list != [] && Usable(r, list[0]) && PlannedOn(list[0], c, r.memory)
    requires Found(SearchOn(r, list[0], r.qps, c.uuid), c)
    ensures Passed(r, list, 1, [c], [0]) && Chosen(r, list, [c], [0])
  {
    hide Possible, Found, PlannedOn, Usable, SearchOn;
    EmptyBalanced(r, list);
    SatisfiedSteps(c, c);
    assert [] + [c] == [c] && [] + [0] == [0];
    PassTake(r, list, 0, [], [], c);
    ChosenTake(r, list, 0, [], [], c);
  }

  lemma SatisfiedSteps(c1: Config, c2: Config)
    ensures Satisfied([]) == 0.0 && Satisfied([c1]) == c1.satisfiableRPS
    ensures Satisfied([c1, c2]) == c1.satisfiableRPS + c2.satisfiableRPS
  {
    assert [c1][..0] == [] && [c1, c2][..1] == [c1];
  }

  /** The second scale-up: one replica on the small GPU is enough. */
  lemma LaterPlanned(gpus: Gpus)
    requires Shrunken(gpus) && AllOwned(gpus)
    ensures PlannedFor(gpus, BASE.(qps := 0.75), [PlanOf(LATER)])
  {
    hide MaxInsertable, Inv, Found, PlannedOn, Usable, PlannedReplicas, Ordered, AllMeasurable, Partition, Passed, Chosen, Offered;
    NamesDiffer();
    var r, a, b := BASE.(qps := 0.75), gpus["g1"].gpu, gpus["g2"].gpu;
    var list := [a, b];
    CapacityOf(a);
    HeightNonNegative(b.packer);
    var c := PlanOf(LATER);
    LaterCount();
    PlanFound(r, a, 0.75, c);
    SmallFirst(r, a, b);
    OnePlan(r, list, c);
    SatisfiedSteps(c, c);
    OfferedTwo(gpus, "g1", "g2");
    assert Balanced(r, list, [c], [0], -0.25);
    assert PlannerResult(gpus, r, list, 1, [PlanOf(LATER)], [0], -0.25);
  }

  lemma LaterCount()
    ensures PlannedReplicas(1.0, Min(20, 1), 0.75) == 1
  {
    QuotientUnique(0.75, 1.0, 0.75);
  }

  lemma CapacityOf(g: Gpu)
    requires g.packer == NewShelf(100).(nextItemID := g.packer.nextItemID)
    ensures MaxInsertable(g.packer, 0.5, 10) == 20
  {
    EmptyCapacity();
  }

  lemma HeightNonNegative(s: Packer)
    requires Inv(s)
    ensures 0 <= s.usedHeight
  {
    SumHeightsPositive(s.shelves, s.nextItemID);
  }
}

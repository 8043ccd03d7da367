/** Concrete runs on which the program does not do what it seems to promise. In all of them the
    scale-ups commit what the planner returns for the capacity found lacking. */
module Examples {
  import opened Arithmetic
  import opened Cluster
  import opened Configs
  import opened Delivery
  import opened ExamplePlans
  import opened ExampleTicks
  import opened FunctionScaler
  import opened GpuLedger
  import opened MapSums
  import opened Options
  import opened Orphans
  import opened PlacedCapacity
  import opened ScaleDown

  /** A run of the example: where it leads, and that its scale-ups are the planner's. */
  ghost predicate Leads(events: seq<Event>, s: System)
    requires AllOwned(EMPTY_GPUS)
  {
    && ReachSystem(EMPTY_GPUS, events) == Some(s)
    && GenuineRun(EMPTY_GPUS, events, BASE)
  }

  lemma LeadsNowhere()
    ensures AllOwned(EMPTY_GPUS) && Leads([], System(NEW_FUNC, EMPTY_GPUS))
  {
    EmptyOwned();
  }

  lemma LeadsNext(events: seq<Event>, s: System, e: Event)
    requires AllOwned(EMPTY_GPUS) && Leads(events, s) && EventOk(s, e) && Genuine(s, e, BASE)
    ensures Leads(events + [e], SystemStep(s, e))
    ensures TicksOf(events + [e]) == TicksOf(events) + (if e.Own? then [e.tick] else [])
  {
    hide EventOk, SystemStep, AllOwned, Linked, Genuine;
    assert (events + [e])[..|events|] == events;
  }

  // ------------------------------------------------------------ the first scale-up

  lemma StartOk(s: System, e: Event)
    requires Linked(s) && s == System(NEW_FUNC, EMPTY_GPUS) && e == Own(START, FIRST_PLANS, map[])
    ensures EventOk(s, e) && Genuine(s, e, BASE)
    ensures SystemStep(s, e) == System(Both(0), FIRST_GPUS)
  {
    hide KeptGroups, CommitGroups, AllOwned, PlansOk, PlannedFor;
    FirstCommits();
    StartTick();
    FirstPlanned();
  }

  /** The function holds both groups and the GPUs carry them. */
  ghost predicate AtBoth(s: System, count: int) {
    Linked(s) && s.func == Both(count) && s.gpus == FIRST_GPUS && Replicas(s, "b") == 11
  }

  lemma ReachBoth() returns (events: seq<Event>, s: System)
    ensures AllOwned(EMPTY_GPUS) && Leads(events, s) && AtBoth(s, 0)
  {
    hide AllOwned, Leads, FIRST_GPUS;
    LeadsNowhere();
    NewLinked(EMPTY_GPUS);
    var s0 := System(NEW_FUNC, EMPTY_GPUS);
    var e := Own(START, FIRST_PLANS, map[]);
    StartOk(s0, e);
    LeadsNext([], s0, e);
    events, s := [] + [e], SystemStep(s0, e);
    StepKeepsLinked(s0, e);
  }

  // ------------------------------------------------------------------ quiet ticks

  /** A quiet tick changes the counter only. */
  lemma QuietEvent(s: System, t: Tick) returns (e: Event, s': System)
    requires Linked(s) && s.func.known && "b" in s.func.configs
    requires Qualifies(s.func, t.metrics) && s.func.scaleDownConsecutiveCount < 2
    ensures EventOk(s, e) && Genuine(s, e, BASE) && s' == SystemStep(s, e)
    ensures Linked(s') && s'.func == s.func.(scaleDownConsecutiveCount := s.func.scaleDownConsecutiveCount + 1)
    ensures s'.gpus == s.gpus && Replicas(s', "b") == Replicas(s, "b")
  {
    hide AllOwned, Qualifies, Sum;
    WaitTick(s.func, t);
    e := Own(t, [], map[]);
    StepKeepsLinked(s, e);
    s' := SystemStep(s, e);
  }

  lemma ReachTwoQuiet() returns (events: seq<Event>, s: System)
    ensures AllOwned(EMPTY_GPUS) && Leads(events, s) && AtBoth(s, 2)
  {
    hide AllOwned, Leads, SystemStep, EventOk, Linked, Genuine, FIRST_GPUS;
    NamesDiffer();
    events, s := ReachBoth();
    BothQualifies(0);
    var e, s' := QuietEvent(s, Quiet(20.0));
    LeadsNext(events, s, e);
    events, s := events + [e], s';
    BothQualifies(1);
    e, s' := QuietEvent(s, Quiet(20.0));
    LeadsNext(events, s, e);
    events, s := events + [e], s';
  }

  // ------------------------------------------------------------ the first scale-down

  /** Orders in which the items of two groups may be visited. */
  lemma OrdersFor(s: System, u: string, v: string) returns (orders: map<string, seq<int>>)
    requires Linked(s) && s.func.configs.Keys == {u, v} && u != v
    ensures forall w :: w in s.func.configs ==> Enumerates(OrderOf(orders, w), ItemsOf(s.gpus, s.func.configs[w]))
  {
    hide AllOwned, Enumerates, FuncInv;
    var o := SomeOrder(ItemsOf(s.gpus, s.func.configs[u]));
    var p := SomeOrder(ItemsOf(s.gpus, s.func.configs[v]));
    orders := map[u := o, v := p];
  }

  /** A scale-down that removes one group and shrinks the large one. */
  lemma DownEvent(s: System, t: Tick, x: Config, m: int, large: nat, orders: map<string, seq<int>>)
    returns (e: Event, s': System)
    requires Linked(s) && s.func.configs.Keys == {x.uuid, "b"} && x.uuid != "b" && s.func.configs["b"] == LARGE
    requires Replicas(s, "b") == large && 0 < m < 11
    requires forall w :: w in s.func.configs ==> Enumerates(OrderOf(orders, w), ItemsOf(s.gpus, s.func.configs[w]))
    requires Admissible(s.func, t) && FiresDown(s.func, t.metrics) && AllConsistent(t.order)
    requires Removed(t) == [x] && Updated(t) == [Reduced(LARGE, m)]
    requires "b" in Step(s.func, t).configs
    ensures e == Own(t, [], orders) && EventOk(s, e) && Genuine(s, e, BASE) && s' == SystemStep(s, e)
    ensures Linked(s') && s'.func == Step(s.func, t) && s'.func.configs["b"] == LARGE
    ensures Replicas(s', "b") == large - Min(large, m)
    ensures s'.gpus == ReleaseGroups(ReduceGroups(s.gpus, [Reduced(LARGE, m)], orders), [x], orders)
  {
    hide AllOwned, Enumerates, FuncInv, Sum, Removed, Updated, ReleaseGroups, ReduceGroups, Step, Admissible;
    e := Own(t, [], orders);
    NeverBoth(s.func, t.metrics);
    StepKeepsLinked(s, e);
    OwnFunc(s, e);
    DownUpdates(s, e);
    s' := SystemStep(s, e);
  }

  ghost predicate AtShrunk(s: System) {
    Linked(s) && s.func == SHRUNK && Shrunken(s.gpus) && Replicas(s, "b") == 2
  }

  lemma BothItems(s: System, orders: map<string, seq<int>>)
    requires AtBoth(s, 2)
    requires forall w :: w in s.func.configs ==> Enumerates(OrderOf(orders, w), ItemsOf(s.gpus, s.func.configs[w]))
    ensures Shrunken(ReleaseGroups(ReduceGroups(s.gpus, [Reduced(LARGE, 9)], orders), [SMALL], orders))
  {
    hide AllOwned, Enumerates, With, Sum, Shrunken, ReleaseGroups, ReduceGroups;
    NamesDiffer();
    assert "a" in s.func.configs && "b" in s.func.configs;
    assert s.func.configs["a"] == SMALL && s.func.configs["b"] == LARGE;
    FirstDownGpus(orders);
  }

  lemma DownFromBoth(s: System) returns (e: Event, s': System)
    requires AtBoth(s, 2)
    ensures EventOk(s, e) && Genuine(s, e, BASE) && s' == SystemStep(s, e) && AtShrunk(s')
    ensures e.Own? && e.tick == FIRST_DOWN
  {
    hide AllOwned, SystemStep, EventOk, Linked, Genuine, Step, Admissible, FIRST_GPUS, Shrunken, FuncInv, Removed, Updated, Replicas, FiresDown;
    NamesDiffer();
    FirstDown();
    assert s.func.configs.Keys == {"a", "b"};
    var orders := OrdersFor(s, "a", "b");
    e, s' := DownEvent(s, FIRST_DOWN, SMALL, 9, 11, orders);
    BothItems(s, orders);
  }

  lemma ReachShrunk() returns (events: seq<Event>, s: System)
    ensures AllOwned(EMPTY_GPUS) && Leads(events, s) && AtShrunk(s)
    ensures Reach(TicksOf(events)).Some? && EverShrank(TicksOf(events))
  {
    hide AllOwned, Leads, SystemStep, EventOk, Genuine, FIRST_GPUS, AtShrunk, EverShrank, Reach;
    events, s := ReachTwoQuiet();
    var e, s' := DownFromBoth(s);
    LeadsNext(events, s, e);
    FirstDownShrinks(events, s, e);
    events, s := events + [e], s';
  }

  lemma FirstDownShrinks(events: seq<Event>, s: System, e: Event)
    requires AllOwned(EMPTY_GPUS) && Leads(events, s) && Linked(s) && s.func == Both(2)
    requires e.Own? && e.tick == FIRST_DOWN && TicksOf(events + [e]) == TicksOf(events) + [FIRST_DOWN]
    ensures Reach(TicksOf(events + [e])).Some? && EverShrank(TicksOf(events + [e]))
  {
    hide AllOwned, ReachSystem, Admissible, Step, FuncInv, ShrinksAt, Removed, Updated;
    RunOfTicks(EMPTY_GPUS, events);
    FirstDown();
    ShrinksAtIff(Both(2), FIRST_DOWN);
    assert (TicksOf(events) + [FIRST_DOWN])[..|TicksOf(events)|] == TicksOf(events);
  }

  /** The capacity ledger goes wrong: after a scale-up, two quiet ticks and a scale-down that shrinks
      eleven replicas to two, the ledger says 90, the record 110, and 20 are placed. */
  lemma ShrinkBooksTheWrongAmount() returns (events: seq<Event>)
    ensures AllOwned(EMPTY_GPUS) && ReachSystem(EMPTY_GPUS, events).Some? && GenuineRun(EMPTY_GPUS, events, BASE)
    ensures Reach(TicksOf(events)).Some? && EverShrank(TicksOf(events))
    ensures var s := ReachSystem(EMPTY_GPUS, events).value;
      && s.func.currentRPSCapacity == 90.0
      && Sum(s.func.configs, Rps) == 110.0
      && PlacedRPS(s) == 20.0
  {
    hide AllOwned, ReachSystem, GenuineRun, Linked, Shrunken, EverShrank, Sum, Replicas, TicksOf, PlacedRPS, Reach;
    var s;
    events, s := ReachShrunk();
    OneConfig();
    TwoPlaced(s);
  }

  lemma OneConfig()
    ensures Sum(SHRUNK.configs, Rps) == 110.0
  {
    var none: map<string, Config> := map[];
    SumInsert(none, Rps, "b", LARGE);
    assert none["b" := LARGE] == SHRUNK.configs;
  }

  lemma TwoPlaced(s: System)
    requires Linked(s) && s.func.configs == SHRUNK.configs && Replicas(s, "b") == 2
    ensures PlacedRPS(s) == 20.0
  {
    hide AllOwned, Linked, Replicas;
    var none: map<string, real> := map[];
    SumInsert(none, Itself, "b", 20.0);
    assert none["b" := 20.0] == PlacedMap(s);
  }

  // ------------------------------------------------------------- stale records

  ghost predicate AtAgain(s: System, count: int) {
    Linked(s) && s.func == Again(count) && Replicas(s, "b") == 2
  }

  lemma LaterKept(gpus: Gpus)
    requires AllOwned(gpus) && Shrunken(gpus)
    ensures PlansOk(gpus, [PlanOf(LATER)]) && KeptGroups(gpus, [PlanOf(LATER)]) == [LATER]
  {
    hide AllOwned, KeptGroups, CommitGroups, With;
    NamesDiffer();
    SmallUnused(gpus);
    KeptFirst(gpus, gpus["g1"].gpu, LATER, []);
    assert [PlanOf(LATER)] + [] == [PlanOf(LATER)];
    NoPlans(gpus["g1" := With(gpus["g1"].gpu, LATER)]);
  }

  lemma SmallUnused(gpus: Gpus)
    requires AllOwned(gpus) && Shrunken(gpus)
    ensures Unused(gpus["g1"].gpu) && gpus["g1"] == Ledger(gpus["g1"].gpu, map[])
  {
    CapacityOf(gpus["g1"].gpu);
  }

  lemma GrowEvent(s: System) returns (e: Event, s': System)
    requires AtShrunk(s)
    ensures EventOk(s, e) && Genuine(s, e, BASE) && s' == SystemStep(s, e) && AtAgain(s', 0)
  {
    hide AllOwned, PlansOk, KeptGroups, CommitGroups, Sum, PlannedFor, Shrunken;
    NamesDiffer();
    GrowTick();
    LaterKept(s.gpus);
    LaterPlanned(s.gpus);
    e := Own(GROW, [PlanOf(LATER)], map[]);
    StepKeepsLinked(s, e);
    OwnFunc(s, e);
    NoUpdates(s, e);
    s' := SystemStep(s, e);
  }

  lemma ReachAgain() returns (events: seq<Event>, s: System)
    ensures AllOwned(EMPTY_GPUS) && Leads(events, s) && AtAgain(s, 2)
  {
    hide AllOwned, Leads, SystemStep, EventOk, Linked, Genuine, Shrunken;
    NamesDiffer();
    events, s := ReachShrunk();
    var e, s' := GrowEvent(s);
    LeadsNext(events, s, e);
    events, s := events + [e], s';
    AgainQualifies(0);
    e, s' := QuietEvent(s, Quiet(30.0));
    LeadsNext(events, s, e);
    events, s := events + [e], s';
    AgainQualifies(1);
    e, s' := QuietEvent(s, Quiet(30.0));
    LeadsNext(events, s, e);
    events, s := events + [e], s';
  }

  /** Stale records are severe: in this run a scale-down for a predicted rate of 30 plans to keep three
      of eleven recorded replicas, of which only two were placed, and leaves none. */
  lemma StaleRecordsLeaveNothing() returns (events: seq<Event>, e: Event)
    ensures AllOwned(EMPTY_GPUS) && ReachSystem(EMPTY_GPUS, events).Some? && GenuineRun(EMPTY_GPUS, events, BASE)
    ensures var s := ReachSystem(EMPTY_GPUS, events).value;
      && EventOk(s, e) && e.Own? && FiresDown(s.func, e.tick.metrics)
      && Linked(SystemStep(s, e))
      && PlacedRPS(SystemStep(s, e)) == 0.0 < PredictedRate(e.tick.metrics) == 30.0
  {
    hide AllOwned, ReachSystem, GenuineRun, SystemStep, EventOk, Linked, Genuine, Step, Admissible, FuncInv, Replicas, FiresDown, PredictedRate;
    NamesDiffer();
    var s;
    events, s := ReachAgain();
    SecondDown();
    assert s.func.configs.Keys == {"c", "b"};
    var orders := OrdersFor(s, "c", "b");
    var s';
    e, s' := DownEvent(s, SECOND_DOWN, LATER, 8, 2, orders);
    NothingPlaced(s');
  }

  lemma NothingPlaced(s: System)
    requires Linked(s) && s.func.configs == map["b" := LARGE] && Replicas(s, "b") == 0
    ensures PlacedRPS(s) == 0.0
  {
    hide AllOwned, Sum, Worth;
    WorthNothing(LARGE);
    SumAllZero(PlacedMap(s), Itself);
  }

  // -------------------------------------------------------------------- a leak

  const FAILED := Tick(Steady(70.0), PodsFailed, [], map[])

  lemma FailedOk(s: System, e: Event)
    requires Linked(s) && s == System(NEW_FUNC, EMPTY_GPUS) && e == Own(FAILED, FIRST_PLANS, map[])
    ensures EventOk(s, e) && Genuine(s, e, BASE) && Step(NEW_FUNC, FAILED).configs == map[]
  {
    hide KeptGroups, CommitGroups, AllOwned, PlansOk, PlannedFor;
    FirstCommits();
    StartTick();
    FirstPlanned();
  }

  /** A leak in a run: the very first scale-up of a function fails to create its pods, the function
      holds nothing, and its eleven replicas stay on the GPU. */
  lemma LeakExample() returns (events: seq<Event>, items: set<int>)
    ensures AllOwned(EMPTY_GPUS) && ReachSystem(EMPTY_GPUS, events).Some? && GenuineRun(EMPTY_GPUS, events, BASE)
    ensures ReachSystem(EMPTY_GPUS, events).value.func.configs == map[]
    ensures Orphaned(ReachSystem(EMPTY_GPUS, events).value, LARGE, items) && |items| == 11
  {
    hide AllOwned, ReachSystem, GenuineRun, KeptGroups, CommitGroups, PlansOk, Genuine, EventOk;
    LeadsNowhere();
    NewLinked(EMPTY_GPUS);
    var s0 := System(NEW_FUNC, EMPTY_GPUS);
    var e := Own(FAILED, FIRST_PLANS, map[]);
    FailedOk(s0, e);
    FirstCommits();
    LeadsNext([], s0, e);
    events := [] + [e];
    OwnFunc(s0, e);
    items := FailedScaleUpOrphans(s0, e, LARGE);
  }
}

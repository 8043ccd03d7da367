/** The function of the examples: the groups it holds and the ticks it goes through. */
module ExampleTicks {
  import opened Arithmetic
  import opened Configs
  import opened ConfigFinder
  import opened FunctionScaler
  import opened ScaleDown

  // One size of replica was measured: 1 RPS on a small GPU, 10 RPS on a large one.
  const PROFILE: Profile := map[ProfileKey("t1000", 10, 50) := 1.0, ProfileKey("a100", 10, 50) := 10.0]

  const BASE := Request(PROFILE, 0.0, 1, FastPod)

  // A group on the small GPU, one on the large GPU, and a later one on the small GPU.
  const SMALL := Config("a", FastPod, "g1", 0.5, 10, 1, 1, 1.0, 1.0, 0.2, 1, 1.0)
  const LARGE := Config("b", FastPod, "g2", 0.5, 10, 1, 11, 10.0, 110.0, 2.0, 11, 110.0)
  const LATER := SMALL.(uuid := "c")

  /** The plan a group was committed from. */
  function PlanOf(c: Config): Config { c.(allocatedReplica := 0, allocatedRPS := 0.0) }

  function Steady(rate: real): Metrics { Metrics(rate, rate, rate, 0.0) }

  // The states the function goes through.
  function Both(count: int): Func { Func(true, map["a" := SMALL, "b" := LARGE], 111.0, count) }

  const SHRUNK := Func(true, map["b" := LARGE], 90.0, 0)

  function Again(count: int): Func { Func(true, map["b" := LARGE, "c" := LATER], 91.0, count) }

  lemma NamesDiffer()
    ensures "a" != "b" && "a" != "c" && "b" != "c" && "g1" != "g2" && "t1000" != "a100"
  {
    assert "a"[0] != "b"[0] && "a"[0] != "c"[0] && "b"[0] != "c"[0];
    assert "g1"[1] != "g2"[1] && "t1000"[0] != "a100"[0];
  }

  // ---------------------------------------------------------- ticks of the function

  function Quiet(rate: real): Tick { Tick(Steady(rate), NoConfigs, [], map[]) }

  const START := Tick(Steady(70.0), Added([SMALL, LARGE]), [], map[])
  const FIRST_DOWN := Tick(Steady(20.0), NoConfigs, [SMALL, LARGE], map["a" := Done, "b" := Done])
  const GROW := Tick(Steady(60.5), Added([LATER]), [], map[])
  const SECOND_DOWN := Tick(Steady(30.0), NoConfigs, [LATER, LARGE], map["b" := Done, "c" := Done])

  lemma StartTick()
    ensures FuncInv(NEW_FUNC) && WantsUp(NEW_FUNC, START.metrics) && Admissible(NEW_FUNC, START)
    ensures Step(NEW_FUNC, START) == Both(0) && DeltaUp(NEW_FUNC, START.metrics) == 105.0
  {
    NamesDiffer();
    var none: map<string, Config> := map[];
    assert [SMALL, LARGE][1..] == [LARGE] && [LARGE][1..] == [];
    assert AddConfigs(none, [SMALL, LARGE]) == AddConfigs(none["a" := SMALL], [LARGE]);
    assert AddConfigs(none["a" := SMALL], [LARGE]) == map["a" := SMALL, "b" := LARGE];
    assert Total([LARGE]) == 110.0;
    assert Total([SMALL, LARGE]) == 111.0;
  }

  lemma TwoConfigs(x: Config, f: Func)
    requires x.uuid != LARGE.uuid && f.configs == map[x.uuid := x, "b" := LARGE]
    ensures |f.configs| == 2 && f.configs.Values == {x, LARGE}
    ensures IsListing([x, LARGE], f.configs)
  {
    assert f.configs.Keys == {x.uuid, "b"};
    assert |f.configs| == |f.configs.Keys| == 2;
    assert f.configs[x.uuid] == x && f.configs["b"] == LARGE;
    assert multiset([x, LARGE]) == multiset{x, LARGE} == multiset({x, LARGE});
  }

  lemma BothQualifies(count: int)
    ensures Qualifies(Both(count), Steady(20.0)) && PredictedRate(Steady(20.0)) == 20.0
  {
    NamesDiffer();
    TwoConfigs(SMALL, Both(count));
  }

  lemma AgainQualifies(count: int)
    ensures Qualifies(Again(count), Steady(30.0)) && PredictedRate(Steady(30.0)) == 30.0
  {
    NamesDiffer();
    assert Again(count).configs == map["c" := LATER, "b" := LARGE];
    TwoConfigs(LATER, Again(count));
  }

  /** A qualifying tick below the required count only counts. */
  lemma WaitTick(f: Func, t: Tick)
    requires FuncInv(f) && f.known && Qualifies(f, t.metrics) && f.scaleDownConsecutiveCount < 2
    ensures !WantsUp(f, t.metrics) && !FiresDown(f, t.metrics) && Admissible(f, t)
    ensures Step(f, t) == f.(scaleDownConsecutiveCount := f.scaleDownConsecutiveCount + 1)
  {}

  /** The plan for a small group beside the large one. */
  lemma PairPlan(x: Config, target: real, m: int)
    requires Consistent(x) && x.allocatedRPS <= 110.0 && 0.0 < target <= 110.0
    requires m == Surplus(LARGE, target) && 0 < m < 11 && target <= m as real * 10.0
    ensures AllConsistent([x, LARGE]) && Sorted([x, LARGE])
    ensures Removable([x, LARGE], target) == 1
    ensures Shrink([x, LARGE], target) == [Reduced(LARGE, m)]
  {
    var order := [x, LARGE];
    assert order[1..] == [LARGE] && [LARGE][1..] == [];
    assert Total([LARGE]) == 110.0;
    assert Removable([LARGE], target) == 0;
    assert order[|order| - 1] == LARGE;
  }

  lemma PairExecution(x: Config, t: Tick, m: int)
    requires t.order == [x, LARGE] && Executed(t.api, x.uuid) && Executed(t.api, "b")
    requires Removable(t.order, PredictedRate(t.metrics)) == 1 && AllConsistent(t.order)
    requires Shrink(t.order, PredictedRate(t.metrics)) == [Reduced(LARGE, m)]
    ensures Removed(t) == [x] && Uuids(Removed(t)) == {x.uuid} && Total(Removed(t)) == x.allocatedRPS
    ensures Updated(t) == [Reduced(LARGE, m)]
    ensures Deltas(Updated(t)) == (11 - m) as real * 10.0
  {
    hide Removable, Shrink;
    assert t.order[..1] == [x] && [x][1..] == [];
    assert RemovedBy(t.api, [x]) == [x];
    var u := [Reduced(LARGE, m)];
    assert u[1..] == [];
    assert UpdatedBy(t.api, u) == u;
  }

  lemma FirstDown()
    ensures FuncInv(Both(2)) && Admissible(Both(2), FIRST_DOWN) && FiresDown(Both(2), FIRST_DOWN.metrics)
    ensures AllConsistent(FIRST_DOWN.order) && Step(Both(2), FIRST_DOWN) == SHRUNK
    ensures Removed(FIRST_DOWN) == [SMALL] && Updated(FIRST_DOWN) == [Reduced(LARGE, 9)]
  {
    hide Sorted, Removable, Shrink, Removed, Updated, Total, Deltas, Lost;
    NamesDiffer();
    BothQualifies(2);
    TwoConfigs(SMALL, Both(2));
    QuotientUnique(90.0, 10.0, 9.0);
    PairPlan(SMALL, 20.0, 9);
    PairExecution(SMALL, FIRST_DOWN, 9);
    assert Both(2).configs - {"a"} == SHRUNK.configs;
  }

  lemma GrowTick()
    ensures FuncInv(SHRUNK) && WantsUp(SHRUNK, GROW.metrics) && Admissible(SHRUNK, GROW)
    ensures Step(SHRUNK, GROW) == Again(0) && DeltaUp(SHRUNK, GROW.metrics) == 0.75
  {
    NamesDiffer();
    assert [LATER][1..] == [];
    assert AddConfigs(SHRUNK.configs, [LATER]) == Again(0).configs;
    assert Total([LATER]) == 1.0;
  }

  lemma SecondDown()
    ensures FuncInv(Again(2)) && Admissible(Again(2), SECOND_DOWN) && FiresDown(Again(2), SECOND_DOWN.metrics)
    ensures AllConsistent(SECOND_DOWN.order) && Step(Again(2), SECOND_DOWN).configs == map["b" := LARGE]
    ensures Removed(SECOND_DOWN) == [LATER] && Updated(SECOND_DOWN) == [Reduced(LARGE, 8)]
    ensures PredictedRate(SECOND_DOWN.metrics) == 30.0
  {
    hide Sorted, Removable, Shrink, Removed, Updated, Total, Deltas, Lost;
    NamesDiffer();
    AgainQualifies(2);
    assert Again(2).configs == map["c" := LATER, "b" := LARGE];
    TwoConfigs(LATER, Again(2));
    QuotientUnique(80.0, 10.0, 8.0);
    PairPlan(LATER, 30.0, 8);
    PairExecution(LATER, SECOND_DOWN, 8);
    assert Again(2).configs - {"c"} == map["b" := LARGE];
  }
}

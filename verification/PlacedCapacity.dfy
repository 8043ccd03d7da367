/** How much capacity is really placed for a function, compared with what is on record, over every
    run of its ticks and of other functions' operations on the same GPUs. */
module PlacedCapacity {
  import opened Arithmetic
  import opened Cluster
  import opened Configs
  import opened FunctionScaler
  import opened MapSums
  import opened ScaleDown

  function Itself(x: real): real { x }

  /** RPS of `n` replicas of a group. */
  function Worth(c: Config, n: int): real { c.qpsPerReplica * n as real }

  ghost function PlacedMap(s: System): map<string, real>
    requires Linked(s)
  {
    map u | u in s.func.configs :: Worth(s.func.configs[u], Replicas(s, u))
  }

  /** RPS of the replicas that are really placed for the function. */
  ghost function PlacedRPS(s: System): real
    requires Linked(s)
  {
    Sum(PlacedMap(s), Itself)
  }

  ghost function MissingMap(s: System): map<string, real>
    requires Linked(s)
  {
    map u | u in s.func.configs ::
      Worth(s.func.configs[u], s.func.configs[u].allocatedReplica - Replicas(s, u))
  }

  /** RPS of the replicas that are on record but not placed. */
  ghost function Missing(s: System): real
    requires Linked(s)
  {
    Sum(MissingMap(s), Itself)
  }

  // ------------------------------------------------------------ the law of a state

  lemma WorthSplit(c: Config, n: int)
    requires Consistent(c)
    ensures c.allocatedRPS == Worth(c, n) + Worth(c, c.allocatedReplica - n)
    ensures n <= c.allocatedReplica ==> 0.0 <= Worth(c, c.allocatedReplica - n)
    ensures Worth(c, c.allocatedReplica - n) == 0.0 <==> n == c.allocatedReplica
  {
    var x, y := n as real, (c.allocatedReplica - n) as real;
    Distribute(x, y, c.qpsPerReplica);
    assert x + y == c.allocatedReplica as real;
    ScaledOrder(0.0, y, c.qpsPerReplica);
    ScaledOrder(y, 0.0, c.qpsPerReplica);
  }

  /** Placed capacity is the recorded capacity minus what is missing; nothing is missing exactly if
      the records agree with what is placed. */
  lemma PlacedLaw(s: System)
    requires Linked(s)
    ensures PlacedRPS(s) == Sum(s.func.configs, Rps) - Missing(s)
    ensures 0.0 <= Missing(s)
    ensures Missing(s) == 0.0 <==> Intact(s)
  {
    hide Sum, AllOwned, Worth, Replicas, IsPlaced;
    var configs := s.func.configs;
    WithinRecord(s);
    forall u | u in configs
      ensures Rps(configs[u]) == Itself(PlacedMap(s)[u]) + Itself(MissingMap(s)[u])
      ensures 0.0 <= Itself(MissingMap(s)[u])
      ensures Itself(MissingMap(s)[u]) == 0.0 <==> Replicas(s, u) == configs[u].allocatedReplica
    {
      WorthSplit(configs[u], Replicas(s, u));
    }
    SumAdd(configs, Rps, PlacedMap(s), Itself, MissingMap(s), Itself);
    SumNonNegative(MissingMap(s), Itself);
    SumZeroIff(MissingMap(s), Itself);
  }

  // ------------------------------------------------------ the effect of a scale-down

  /** RPS of the replicas a scale-down really takes from the group it shrinks. */
  ghost function TakenRPS(s: System, e: Event): real
    requires Linked(s) && EventOk(s, e)
  {
    var updated := UpdatedOf(s, e);
    if |updated| == 1 && updated[0].config.uuid in s.func.configs then
      var u := updated[0].config.uuid;
      Worth(s.func.configs[u], TakenFrom(s.func.configs[u], Replicas(s, u), updated))
    else 0.0
  }

  lemma WorthMinus(c: Config, n: int, k: int)
    ensures Worth(c, n - k) == Worth(c, n) - Worth(c, k)
    ensures Worth(c, n + k) == Worth(c, n) + Worth(c, k)
  {
    Distribute(n as real, -(k as real), c.qpsPerReplica);
    Distribute(n as real, k as real, c.qpsPerReplica);
  }

  /** Two maps that agree but for one key, where the value moved by `delta`. */
  lemma SumMoved(before: map<string, real>, after: map<string, real>, u: string, delta: real)
    requires before.Keys == after.Keys && u in before && after[u] == before[u] + delta
    requires forall v :: v in before && v != u ==> after[v] == before[v]
    ensures Sum(after, Itself) == Sum(before, Itself) + delta
  {
    SumUpdate(before, Itself, u, after[u]);
    assert before[u := after[u]] == after;
  }

  lemma DownReplicas(s: System, e: Event, u: string)
    requires Linked(s) && EventOk(s, e) && e.Own? && FiresDown(s.func, e.tick.metrics)
    requires Linked(SystemStep(s, e)) && u in SystemStep(s, e).func.configs
    ensures u in s.func.configs && SystemStep(s, e).func.configs[u] == s.func.configs[u]
    ensures Replicas(SystemStep(s, e), u)
         == Replicas(s, u) - TakenFrom(s.func.configs[u], Replicas(s, u), UpdatedOf(s, e))
  {
    hide SystemStep, Step, Sum, AllOwned, Updated, UpdatedOf, FiresDown, FuncInv, EventOk, IsPlaced, TakenFrom, Removed;
    DownKeys(s, e);
    StepCounts(s, e);
  }

  lemma MapsAt(s: System, u: string)
    requires Linked(s) && u in s.func.configs
    ensures u in PlacedMap(s) && PlacedMap(s)[u] == Worth(s.func.configs[u], Replicas(s, u))
    ensures u in MissingMap(s)
    ensures MissingMap(s)[u] == Worth(s.func.configs[u], s.func.configs[u].allocatedReplica - Replicas(s, u))
  {
    hide Linked, Replicas, Worth;
  }

  /** What a scale-down does to one group still held. */
  lemma DownAt(s: System, e: Event, u: string)
    requires Linked(s) && EventOk(s, e) && e.Own? && FiresDown(s.func, e.tick.metrics)
    requires Linked(SystemStep(s, e)) && u in SystemStep(s, e).func.configs
    ensures u in s.func.configs && u in PlacedMap(s) && u in MissingMap(s)
    ensures u in PlacedMap(SystemStep(s, e)) && u in MissingMap(SystemStep(s, e))
    ensures var taken := Worth(s.func.configs[u], TakenFrom(s.func.configs[u], Replicas(s, u), UpdatedOf(s, e)));
      && PlacedMap(SystemStep(s, e))[u] == PlacedMap(s)[u] - taken
      && MissingMap(SystemStep(s, e))[u] == MissingMap(s)[u] + taken
  {
    hide *;
    DownReplicas(s, e, u);
    MapsAt(s, u);
    MapsAt(SystemStep(s, e), u);
    var c, n := s.func.configs[u], Replicas(s, u);
    var k := TakenFrom(c, n, UpdatedOf(s, e));
    WorthMinus(c, n, k);
    WorthMinus(c, c.allocatedReplica - n, k);
  }

  lemma DownKeys(s: System, e: Event)
    requires Linked(s) && EventOk(s, e) && e.Own? && FiresDown(s.func, e.tick.metrics)
    ensures SystemStep(s, e).func.configs == s.func.configs - Uuids(Removed(e.tick))
  {
    OwnFunc(s, e);
  }

  /** The exact effect of a scale-down, whatever the records are worth: the removed groups go with
      their placed and their missing replicas, and the replicas really taken from the shrunk group
      are no longer placed but still on record. */
  lemma ScaleDownEffect(s: System, e: Event)
    requires Linked(s) && EventOk(s, e) && e.Own? && FiresDown(s.func, e.tick.metrics)
    ensures Linked(SystemStep(s, e))
    ensures PlacedRPS(SystemStep(s, e)) == Sum(PlacedMap(s) - Uuids(Removed(e.tick)), Itself) - TakenRPS(s, e)
    ensures Missing(SystemStep(s, e)) == Sum(MissingMap(s) - Uuids(Removed(e.tick)), Itself) + TakenRPS(s, e)
  {
    hide SystemStep, Step, Sum, AllOwned, Updated, UpdatedOf, FiresDown, FuncInv, EventOk, IsPlaced, Worth, Removed, Shrinks, Linked, Replicas, PlacedMap, MissingMap, TakenFrom, StepsTo, TakenRPS;
    StepKeepsLinked(s, e);
    DownKeys(s, e);
    UpdatedOfShape(s, e);
    MapKeys(s);
    MapKeys(SystemStep(s, e));
    var s', gone, updated := SystemStep(s, e), Uuids(Removed(e.tick)), UpdatedOf(s, e);
    var placed, missing := PlacedMap(s) - gone, MissingMap(s) - gone;
    forall u | u in s'.func.configs
      ensures u in s.func.configs
      ensures var taken := Worth(s.func.configs[u], TakenFrom(s.func.configs[u], Replicas(s, u), updated));
        PlacedMap(s')[u] == placed[u] - taken && MissingMap(s')[u] == missing[u] + taken
    {
      DownAt(s, e, u);
    }
    if updated == [] {
      NothingTaken(s, e);
      assert PlacedMap(s') == placed && MissingMap(s') == missing;
    } else {
      var x := updated[0];
      assert x in updated;
      ShrunkStillHeld(s, e, x);
      OneTaken(s, e, x);
      SumMoved(placed, PlacedMap(s'), x.config.uuid, -TakenRPS(s, e));
      SumMoved(missing, MissingMap(s'), x.config.uuid, TakenRPS(s, e));
    }
  }

  lemma MapKeys(s: System)
    requires Linked(s)
    ensures PlacedMap(s).Keys == MissingMap(s).Keys == s.func.configs.Keys
  {}

  lemma NothingTaken(s: System, e: Event)
    requires Linked(s) && EventOk(s, e) && UpdatedOf(s, e) == []
    ensures TakenRPS(s, e) == 0.0
    ensures forall u :: u in s.func.configs ==>
      Worth(s.func.configs[u], TakenFrom(s.func.configs[u], Replicas(s, u), UpdatedOf(s, e))) == 0.0
  {
    hide Linked, EventOk, UpdatedOf, Replicas, Worth;
    forall u | u in s.func.configs
      ensures Worth(s.func.configs[u], TakenFrom(s.func.configs[u], Replicas(s, u), UpdatedOf(s, e))) == 0.0
    {
      WorthNothing(s.func.configs[u]);
    }
  }

  lemma OneTaken(s: System, e: Event, x: ReduceInfo)
    requires Linked(s) && EventOk(s, e) && UpdatedOf(s, e) == [x]
    requires x.config.uuid in s.func.configs
    ensures var u := x.config.uuid;
      TakenRPS(s, e) == Worth(s.func.configs[u], TakenFrom(s.func.configs[u], Replicas(s, u), UpdatedOf(s, e)))
    ensures forall u :: u in s.func.configs && u != x.config.uuid ==>
      Worth(s.func.configs[u], TakenFrom(s.func.configs[u], Replicas(s, u), UpdatedOf(s, e))) == 0.0
  {
    hide Linked, EventOk, UpdatedOf, Replicas, Worth;
    forall u | u in s.func.configs && u != x.config.uuid
      ensures Worth(s.func.configs[u], TakenFrom(s.func.configs[u], Replicas(s, u), UpdatedOf(s, e))) == 0.0
    {
      KeyIsUuidLinked(s, u);
      WorthNothing(s.func.configs[u]);
    }
  }

  lemma WorthNothing(c: Config)
    ensures Worth(c, 0) == 0.0
  {}

  // ------------------------------------------------------------ safety of a scale-down

  lemma RecordedEnough(f: Func, t: Tick)
    requires FuncInv(f) && Admissible(f, t) && FiresDown(f, t.metrics)
    requires f.currentRPSCapacity <= Sum(f.configs, Rps)
    ensures AllConsistent(t.order)
    ensures PredictedRate(t.metrics) <= Sum(Step(f, t).configs, Rps) - Lost(Updated(t))
  {
    hide Sum, Removable, Shrink, Total, Lost, Sorted;
    ListingConsistent(f.configs, t.order);
    HeldNonNegative(f);
    ListingSum(f.configs, t.order);
    ScaleDownIsSafe(t.order, PredictedRate(t.metrics), t.api);
    DownStep(f, t);
  }

  lemma WorthMonotone(c: Config, a: int, b: int)
    requires 0.0 < c.qpsPerReplica && a <= b
    ensures Worth(c, a) <= Worth(c, b)
  {
    ScaleLe(a as real, b as real, c.qpsPerReplica);
  }

  lemma LostWorth(x: ReduceInfo)
    requires Consistent(x.config)
    ensures Lost([x]) == Worth(x.config, x.config.allocatedReplica - x.newReplica)
  {
    assert [x][1..] == [];
    WorthMinus(x.config, x.config.allocatedReplica, x.newReplica);
  }

  /** What is really taken is worth at most what the plan gives up. */
  lemma TakenWithinLost(s: System, e: Event)
    requires Linked(s) && EventOk(s, e)
    ensures 0.0 <= TakenRPS(s, e) <= Lost(UpdatedOf(s, e))
  {
    hide Sum, AllOwned, EventOk, UpdatedOf, Shrinks, Replicas, IsPlaced, Worth, TakenRPS, Lost;
    UpdatedOfShape(s, e);
    var updated := UpdatedOf(s, e);
    if updated == [] {
      NothingTaken(s, e);
      NothingExecuted(map[]);
    } else {
      var x := updated[0];
      assert updated == [x] && x in updated;
      var c, n := x.config, Replicas(s, x.config.uuid);
      OneTaken(s, e, x);
      LostWorth(x);
      var k := TakenFrom(c, n, updated);
      WorthMonotone(c, k, c.allocatedReplica - x.newReplica);
      WorthMonotone(c, 0, k);
      WorthNothing(c);
    }
  }

  lemma RestrictedMissing(s: System, ks: set<string>)
    requires Linked(s)
    ensures Sum(MissingMap(s) - ks, Itself) <= Missing(s)
  {
    hide Sum, AllOwned, Worth, Replicas, IsPlaced;
    WithinRecord(s);
    forall u | u in s.func.configs ensures 0.0 <= Itself(MissingMap(s)[u]) {
      WorthSplit(s.func.configs[u], Replicas(s, u));
    }
    SumRestrict(MissingMap(s), Itself, ks);
  }

  /** RPS of the replicas a scale-down takes, from state and tick alone: if the surplus of the last
      listed group covers the predicted rate and the call for it is executed, that many replicas of
      it go, while there are any. */
  ghost function PlannedTake(s: System, t: Tick): real
    requires Linked(s) && Admissible(s.func, t) && FiresDown(s.func, t.metrics)
  {
    if ShrinksAt(s.func, t) then
      var c := t.order[|t.order| - 1];
      LastHeld(s.func, t);
      Worth(c, Min(Replicas(s, c.uuid), Surplus(c, PredictedRate(t.metrics))))
    else 0.0
  }

  lemma LastHeld(f: Func, t: Tick)
    requires FuncInv(f) && Admissible(f, t) && FiresDown(f, t.metrics) && t.order != []
    ensures AllConsistent(t.order)
    ensures var c := t.order[|t.order| - 1];
      0.0 < c.qpsPerReplica && c.uuid in f.configs && f.configs[c.uuid] == c
  {
    ListingConsistent(f.configs, t.order);
    var c := t.order[|t.order| - 1];
    assert c in t.order && c in multiset(t.order);
    ValuesWithout(f.configs, c);
  }

  lemma UpdatedIsReduced(f: Func, t: Tick)
    requires FuncInv(f) && Admissible(f, t) && FiresDown(f, t.metrics)
    ensures AllConsistent(t.order)
    ensures !ShrinksAt(f, t) ==> Updated(t) == []
    ensures ShrinksAt(f, t) ==>
      && t.order != [] && t.order[|t.order| - 1].qpsPerReplica != 0.0
      && Updated(t) == [Reduced(t.order[|t.order| - 1], Surplus(t.order[|t.order| - 1], PredictedRate(t.metrics)))]
  {
    hide Removable, SurplusCovers, Total, Sorted;
    ShrinksAtIff(f, t);
    var u := Shrink(t.order, PredictedRate(t.metrics));
    if u != [] {
      LastHeld(f, t);
      LostOne(t.api, u);
    } else {
      NothingExecuted(t.api);
    }
  }

  lemma TakenAsPlanned(s: System, e: Event)
    requires Linked(s) && EventOk(s, e) && e.Own? && FiresDown(s.func, e.tick.metrics)
    ensures TakenRPS(s, e) == PlannedTake(s, e.tick)
  {
    hide Sum, AllOwned, Updated, UpdatedOf, FiresDown, PredictedRate, ShrinksAt, Worth, Replicas, FuncInv, Surplus, IsPlaced;
    DownUpdates(s, e);
    UpdatedIsReduced(s.func, e.tick);
    if ShrinksAt(s.func, e.tick) {
      LastHeld(s.func, e.tick);
      OneTaken(s, e, UpdatedOf(s, e)[0]);
    }
  }

  /** The test on state and tick: what is missing in the groups that stay, with what is taken from
      the last one, is at most what their records have above the predicted rate. */
  ghost predicate EnoughLeft(s: System, t: Tick)
    requires Linked(s) && Admissible(s.func, t) && FiresDown(s.func, t.metrics)
  {
    var target := PredictedRate(t.metrics);
    var gone := Uuids(RemovedBy(t.api, t.order[..Removable(t.order, target)]));
    Sum(MissingMap(s) - gone, Itself) + PlannedTake(s, t) <= Sum(s.func.configs - gone, Rps) - target
  }

  /** A scale-down leaves placed replicas worth the predicted rate exactly if that test holds,
      whatever cluster calls fail; it falls short by at most what was missing before, so with records
      in agreement it leaves enough. */
  lemma ScaleDownKeepsPlacedCapacity(s: System, e: Event)
    requires Linked(s) && EventOk(s, e) && e.Own? && FiresDown(s.func, e.tick.metrics)
    ensures Linked(SystemStep(s, e)) && Admissible(s.func, e.tick)
    ensures PredictedRate(e.tick.metrics) <= PlacedRPS(SystemStep(s, e)) <==> EnoughLeft(s, e.tick)
    ensures PredictedRate(e.tick.metrics) - Missing(s) <= PlacedRPS(SystemStep(s, e))
    ensures Intact(s) ==> PredictedRate(e.tick.metrics) <= PlacedRPS(SystemStep(s, e))
  {
    hide SystemStep, Step, Sum, AllOwned, Updated, UpdatedOf, FiresDown, PlacedMap, MissingMap, TakenRPS, PlannedTake, Lost, Intact, RemovedBy, Removable, PredictedRate;
    ScaleDownEffect(s, e);
    RecordedEnough(s.func, e.tick);
    OwnFunc(s, e);
    DownKeys(s, e);
    DownUpdates(s, e);
    TakenWithinLost(s, e);
    TakenAsPlanned(s, e);
    RestrictedMissing(s, Uuids(Removed(e.tick)));
    PlacedLaw(s);
    PlacedLaw(SystemStep(s, e));
  }

  // -------------------------------------------------------------------- whole runs

  /** Over every run: placed capacity is recorded capacity minus what is missing, and the two agree
      exactly if no group still held was ever shrunk. */
  lemma PlacedEqualsRecorded(gpus: Gpus, events: seq<Event>)
    requires AllOwned(gpus) && ReachSystem(gpus, events).Some?
    ensures var s := ReachSystem(gpus, events).value;
      && PlacedRPS(s) == Sum(s.func.configs, Rps) - Missing(s)
      && 0.0 <= Missing(s)
      && (PlacedRPS(s) == Sum(s.func.configs, Rps) <==> ShrunkHeld(gpus, events) == {})
  {
    hide ReachSystem, ShrunkHeld, AllOwned, Linked, Sum, Intact;
    PlacedLaw(ReachSystem(gpus, events).value);
    IntactIffNoneShrunk(gpus, events);
  }

  /** Over every run: a scale-down leaves placed replicas worth the predicted rate exactly if the test
      holds, falls short by at most what is missing, and leaves the full rate whenever no group still
      held was shrunk before. */
  lemma PlacedCapacitySuffices(gpus: Gpus, events: seq<Event>, e: Event)
    requires AllOwned(gpus) && ReachSystem(gpus, events).Some?
    requires EventOk(ReachSystem(gpus, events).value, e) && e.Own?
    requires FiresDown(ReachSystem(gpus, events).value.func, e.tick.metrics)
    ensures var s := ReachSystem(gpus, events).value;
      && Linked(SystemStep(s, e)) && Admissible(s.func, e.tick)
      && (PredictedRate(e.tick.metrics) <= PlacedRPS(SystemStep(s, e)) <==> EnoughLeft(s, e.tick))
      && PredictedRate(e.tick.metrics) - Missing(s) <= PlacedRPS(SystemStep(s, e))
      && (ShrunkHeld(gpus, events) == {} ==> EnoughLeft(s, e.tick))
  {
    hide Intact, Linked, EventOk, SystemStep, AllOwned, ReachSystem, ShrunkHeld, EnoughLeft, Admissible, FiresDown;
    IntactIffNoneShrunk(gpus, events);
    ScaleDownKeepsPlacedCapacity(ReachSystem(gpus, events).value, e);
  }

  /** A tick that does not scale up is justified: what is placed, with what is missing, covers the
      predicted rate times the scale factor. */
  lemma NoScaleUpMeansEnough(gpus: Gpus, events: seq<Event>, m: Metrics)
    requires AllOwned(gpus) && ReachSystem(gpus, events).Some?
    requires !WantsUp(ReachSystem(gpus, events).value.func, m)
    ensures var s := ReachSystem(gpus, events).value;
      && PredictedRate(m) * SCALE_FACTOR <= PlacedRPS(s) + Missing(s)
      && (ShrunkHeld(gpus, events) == {} ==> PredictedRate(m) * SCALE_FACTOR <= PlacedRPS(s))
  {
    hide ReachSystem, ShrunkHeld, AllOwned, Sum, PlacedRPS, Missing;
    PlacedEqualsRecorded(gpus, events);
  }

  // ------------------------------------------------------------- the effect of a scale-up

  /** A scale-up that is not undone adds the recorded RPS of its groups to what is placed. */
  lemma ScaleUpRaisesPlaced(s: System, e: Event)
    requires Linked(s) && EventOk(s, e) && e.Own? && WantsUp(s.func, e.tick.metrics) && e.tick.up.Added?
    ensures Linked(SystemStep(s, e))
    ensures PlacedRPS(SystemStep(s, e)) == PlacedRPS(s) + Total(e.tick.up.configs)
    ensures Missing(SystemStep(s, e)) == Missing(s)
  {
    hide SystemStep, Sum, AllOwned, IsPlaced, Total, PlacedMap, MissingMap, PlansOk, KeptGroups, AddConfigs;
    StepKeepsLinked(s, e);
    OwnFunc(s, e);
    var s' := SystemStep(s, e);
    UpSums(s.func, e.tick);
    MissingSame(s, e);
    PlacedLaw(s);
    PlacedLaw(s');
  }

  lemma UpSums(f: Func, t: Tick)
    requires FuncInv(f) && Admissible(f, t) && WantsUp(f, t.metrics) && t.up.Added?
    ensures Sum(Step(f, t).configs, Rps) == Sum(f.configs, Rps) + Total(t.up.configs)
    ensures f.configs.Keys <= Step(f, t).configs.Keys
  {
    AddedSum(f.configs, t.up.configs);
    forall u | u in f.configs ensures u in Step(f, t).configs {
      AddedKeeps(f.configs, t.up.configs, u);
    }
  }

  lemma MissingSame(s: System, e: Event)
    requires Linked(s) && EventOk(s, e) && e.Own? && WantsUp(s.func, e.tick.metrics) && e.tick.up.Added?
    requires Linked(SystemStep(s, e))
    ensures Missing(SystemStep(s, e)) == Missing(s)
  {
    hide SystemStep, Sum, AllOwned, IsPlaced, Worth, Total, PlansOk, KeptGroups, AddConfigs;
    OwnFunc(s, e);
    UpSums(s.func, e.tick);
    StepCounts(s, e);
    NoUpdates(s, e);
    var s' := SystemStep(s, e);
    forall u | u in s'.func.configs
      ensures u in s.func.configs ==> MissingMap(s')[u] == MissingMap(s)[u]
      ensures u !in s.func.configs ==> MissingMap(s')[u] == 0.0
    {
      WorthNothing(s'.func.configs[u]);
    }
    SumExtendZero(MissingMap(s), MissingMap(s'));
  }

  lemma SumExtendZero(before: map<string, real>, after: map<string, real>)
    requires before.Keys <= after.Keys
    requires forall u :: u in before ==> after[u] == before[u]
    requires forall u :: u in after && u !in before ==> after[u] == 0.0
    ensures Sum(after, Itself) == Sum(before, Itself)
  {
    var extra := after - before.Keys;
    assert after == before + extra;
    SumUnion(before, extra, Itself);
    SumAllZero(extra, Itself);
  }
}

/** One tick of the reconciler on the record of a function: its decision, its loops, its bookkeeping. */
module Reconciling {
  import opened Configs
  import opened FunctionScaler
  import opened Insertion
  import opened MapSums
  import opened ScaleDown

  /** The configs of a function, in arbitrary map order. */
  method CurrentConfigs(configs: map<string, Config>) returns (list: seq<Config>)
    requires forall u :: u in configs ==> configs[u].uuid == u
    ensures IsListing(list, configs)
  {
    list := [];
    var rest := configs;
    while rest != map[]
      invariant forall u :: u in rest ==> rest[u].uuid == u
      invariant multiset(list) + multiset(rest.Values) == multiset(configs.Values)
      decreases |rest|
    {
      ghost var someKey := SomeKey(rest);
      var u :| u in rest;
      assert rest[u] in rest.Values;
      ValuesWithout(rest, rest[u]);
      RemoveSize(rest, u);
      assert multiset(rest.Values) == multiset((rest - {u}).Values) + multiset{rest[u]};
      list := list + [rest[u]];
      rest := rest - {u};
    }
    assert rest.Values == {};
  }

  lemma InsertionSorts(sorted: seq<Config>, c: Config, j: nat)
    requires Sorted(sorted) && j <= |sorted|
    requires forall l :: 0 <= l < j ==> sorted[l].allocatedRPS <= c.allocatedRPS
    requires j < |sorted| ==> c.allocatedRPS <= sorted[j].allocatedRPS
    ensures Sorted(InsertAt(sorted, c, j))
  {
    forall a, b | 0 <= a < b < |sorted| + 1
      ensures InsertAt(sorted, c, j)[a].allocatedRPS <= InsertAt(sorted, c, j)[b].allocatedRPS
    {
      InsertedAt(sorted, c, j, a);
      InsertedAt(sorted, c, j, b);
    }
  }

  /** Ascending by recorded RPS; callers may rely on no more than a sorted permutation. */
  method SortByRPS(list: seq<Config>) returns (sorted: seq<Config>)
    ensures Sorted(sorted) && multiset(sorted) == multiset(list)
  {
    hide InsertAt;
    sorted := [];
    for i := 0 to |list|
      invariant Sorted(sorted) && multiset(sorted) == multiset(list[..i])
    {
      var c := list[i];
      var j := 0;
      while j < |sorted| && sorted[j].allocatedRPS <= c.allocatedRPS
        invariant 0 <= j <= |sorted|
        invariant forall l :: 0 <= l < j ==> sorted[l].allocatedRPS <= c.allocatedRPS
      {
        j := j + 1;
      }
      assert list[..i + 1] == list[..i] + [c];
      InsertionSorts(sorted, c, j);
      InsertionPermutes(sorted, c, j);
      sorted := InsertAt(sorted, c, j);
    }
    assert list[..|list|] == list;
  }

  /** The deletion loop: a pod that is gone or gets deleted counts, any other outcome skips it. */
  method ExecuteRemovals(toRemove: seq<Config>, api: map<string, Outcome>) returns (removed: seq<Config>)
    ensures removed == RemovedBy(api, toRemove)
  {
    removed := [];
    for i := 0 to |toRemove|
      invariant removed + RemovedBy(api, toRemove[i..]) == RemovedBy(api, toRemove)
    {
      ghost var rest := toRemove[i..];
      assert rest[0] == toRemove[i] && rest[1..] == toRemove[i + 1..];
      if Executed(api, toRemove[i].uuid) {
        assert removed + ([toRemove[i]] + RemovedBy(api, toRemove[i + 1..]))
            == removed + [toRemove[i]] + RemovedBy(api, toRemove[i + 1..]);
        removed := removed + [toRemove[i]];
      } else {
        assert RemovedBy(api, rest) == RemovedBy(api, toRemove[i + 1..]);
      }
    }
    assert toRemove[|toRemove|..] == [];
  }

  /** The update loop, with the same rule. */
  method ExecuteUpdates(toUpdate: seq<ReduceInfo>, api: map<string, Outcome>) returns (updated: seq<ReduceInfo>)
    ensures updated == UpdatedBy(api, toUpdate)
  {
    updated := [];
    for i := 0 to |toUpdate|
      invariant updated + UpdatedBy(api, toUpdate[i..]) == UpdatedBy(api, toUpdate)
    {
      ghost var rest := toUpdate[i..];
      assert rest[0] == toUpdate[i] && rest[1..] == toUpdate[i + 1..];
      if Executed(api, toUpdate[i].config.uuid) {
        assert updated + ([toUpdate[i]] + UpdatedBy(api, toUpdate[i + 1..]))
            == updated + [toUpdate[i]] + UpdatedBy(api, toUpdate[i + 1..]);
        updated := updated + [toUpdate[i]];
      } else {
        assert UpdatedBy(api, rest) == UpdatedBy(api, toUpdate[i + 1..]);
      }
    }
    assert toUpdate[|toUpdate|..] == [];
  }

  /** The whole scale-down of one function: list, sort, plan, execute. */
  method ScaleDownFunc(configs: map<string, Config>, newRPS: real, api: map<string, Outcome>)
    returns (updated: seq<ReduceInfo>, removed: seq<Config>, ghost order: seq<Config>)
    requires WellKeyed(configs)
    ensures IsListing(order, configs) && Sorted(order) && AllConsistent(order)
    ensures removed == RemovedBy(api, order[..Removable(order, newRPS)])
    ensures updated == UpdatedBy(api, Shrink(order, newRPS))
    ensures forall c :: c in removed <==>
      && c in order[..Removable(order, newRPS)]
      && c.uuid in api && (api[c.uuid] == NotFound || api[c.uuid] == Done)
    ensures forall x :: x in updated <==>
      && x in Shrink(order, newRPS)
      && x.config.uuid in api && (api[x.config.uuid] == NotFound || api[x.config.uuid] == Done)
    ensures forall u :: u in updated ==> u.config in order
    ensures newRPS <= Sum(configs, Rps) ==> newRPS <= Sum(configs, Rps) - Total(removed) - Lost(updated)
    ensures Sum(configs, Rps) < newRPS ==> removed == [] && updated == []
  {
    var list := CurrentConfigs(configs);
    var currentConfigs := SortByRPS(list);
    order := currentConfigs;
    ListingConsistent(configs, order);
    ListingSum(configs, order);
    ScaleDownIsSafe(order, newRPS, api);
    var toRemove, toUpdate := PlanScaleDown(currentConfigs, newRPS);
    removed := ExecuteRemovals(toRemove, api);
    updated := ExecuteUpdates(toUpdate, api);
    ShrinkShape(order, newRPS);
    if toUpdate != [] {
      assert toUpdate[0] in toUpdate;
      LostOne(api, toUpdate);
    }
    forall c ensures c in removed <==>
      c in toRemove && c.uuid in api && (api[c.uuid] == NotFound || api[c.uuid] == Done)
    {
      RemovedExactly(api, toRemove, c);
    }
    forall x ensures x in updated <==>
      x in toUpdate && x.config.uuid in api && (api[x.config.uuid] == NotFound || api[x.config.uuid] == Done)
    {
      UpdatedExactly(api, toUpdate, x);
    }
  }

  /** The decision part of a tick: which way to scale, and the counter. */
  method Decide(f: Func, m: Metrics)
    returns (g: Func, shouldScaleUp: bool, shouldScaleDown: bool, predictedRate: real)
    ensures m.minRps <= predictedRate && m.rps10s <= predictedRate
    ensures m.rps10s + (m.rps10s - m.rps30sEarlier) <= predictedRate
    ensures predictedRate == m.minRps || predictedRate == m.rps10s
         || predictedRate == m.rps10s + (m.rps10s - m.rps30sEarlier)
    ensures shouldScaleUp <==> !f.known || f.currentRPSCapacity < 1.5 * predictedRate
    ensures shouldScaleDown <==>
      && f.known && 1.5 * predictedRate <= f.currentRPSCapacity
      && 2 <= |f.configs| && m.rps10s <= m.rps30s
      && (f.currentRPSCapacity <= 0.0 || 2.0 * m.rps10s < f.currentRPSCapacity)
      && 2 <= f.scaleDownConsecutiveCount
    ensures shouldScaleUp == WantsUp(f, m) && shouldScaleDown == FiresDown(f, m)
    ensures predictedRate == PredictedRate(m)
    ensures g == f.(known := true, scaleDownConsecutiveCount := NextCount(f, m))
  {
    DecisionOnNumbers(f, m);
    var isOldFunction := f.known;
    g := f.(known := true);
    var totalRPSCap := if isOldFunction then f.currentRPSCapacity else 0.0;
    var decreasingTrend := m.rps10s - m.rps30s <= 0.0;
    var recentGrowth := m.rps10s - m.rps30sEarlier;
    predictedRate := m.rps10s;
    if recentGrowth > 0.0 {
      predictedRate := m.rps10s + recentGrowth;
    }
    if predictedRate < m.minRps {
      predictedRate := m.minRps;
    }
    var deltaUp := predictedRate * SCALE_FACTOR - totalRPSCap;
    var loadRatio := 0.0;
    if totalRPSCap > 0.0 {
      loadRatio := m.rps10s / totalRPSCap;
    }
    shouldScaleUp, shouldScaleDown := false, false;
    if deltaUp > 0.0 || !isOldFunction {
      shouldScaleUp := true;
      g := g.(scaleDownConsecutiveCount := 0);
    } else if loadRatio < SCALE_DOWN_THRESHOLD && |g.configs| > 1 && decreasingTrend {
      g := g.(scaleDownConsecutiveCount := g.scaleDownConsecutiveCount + 1);
      if g.scaleDownConsecutiveCount >= SCALE_DOWN_CONSECUTIVE_REQUIRED {
        shouldScaleDown := true;
        g := g.(scaleDownConsecutiveCount := 0);
      }
    } else {
      g := g.(scaleDownConsecutiveCount := 0);
    }
  }

  /** One tick on the record of a function. */
  method TickOnce(f0: Func, m: Metrics, up: UpOutcome, api: map<string, Outcome>)
    returns (f: Func, updated: seq<ReduceInfo>, removed: seq<Config>, ghost order: seq<Config>)
    requires FuncInv(f0)
    requires WantsUp(f0, m) ==> Admissible(f0, Tick(m, up, [], api))
    ensures Admissible(f0, Tick(m, up, order, api))
    ensures f == Step(f0, Tick(m, up, order, api))
    ensures FuncInv(f) && f.known
    ensures if FiresDown(f0, m)
            then AllConsistent(order)
              && removed == Removed(Tick(m, up, order, api))
              && updated == Updated(Tick(m, up, order, api))
            else removed == [] && updated == []
  {
    hide Total, Deltas, AddConfigs, RemovedBy, UpdatedBy, Removable, Shrink, Sorted, PredictedRate;
    updated, removed, order := [], [], [];
    var shouldScaleUp, shouldScaleDown, predictedRate;
    f, shouldScaleUp, shouldScaleDown, predictedRate := Decide(f0, m);
    if shouldScaleUp {
      if up.Added? {
        f := AddAll(f, up.configs);
      }
    } else if shouldScaleDown && |f.configs| > 1 {
      updated, removed, order := ScaleDownFunc(f.configs, predictedRate, api);
      f := BookUpdates(f, order, updated);
      f := BookRemovals(f, removed);
    }
    StepLaw(f0, Tick(m, up, order, api));
  }

  /** The loop that enters added configs. */
  method AddAll(f: Func, added: seq<Config>) returns (g: Func)
    ensures g == f.(configs := AddConfigs(f.configs, added),
                    currentRPSCapacity := f.currentRPSCapacity + Total(added))
  {
    g := f;
    for i := 0 to |added|
      invariant g == f.(configs := g.configs, currentRPSCapacity := g.currentRPSCapacity)
      invariant AddConfigs(g.configs, added[i..]) == AddConfigs(f.configs, added)
      invariant g.currentRPSCapacity + Total(added[i..]) == f.currentRPSCapacity + Total(added)
    {
      var config := added[i];
      assert added[i..][0] == config && added[i..][1..] == added[i + 1..];
      g := g.(configs := g.configs[config.uuid := config]);
      g := g.(currentRPSCapacity := g.currentRPSCapacity + config.allocatedRPS);
    }
  }

  /** The loop that books shrunk groups. Re-entering such a config changes nothing. */
  method BookUpdates(f: Func, ghost order: seq<Config>, updated: seq<ReduceInfo>) returns (g: Func)
    requires WellKeyed(f.configs) && IsListing(order, f.configs)
    requires forall u :: u in updated ==> u.config in order
    ensures g == f.(currentRPSCapacity := f.currentRPSCapacity - Deltas(updated))
  {
    g := f;
    for i := 0 to |updated|
      invariant g == f.(currentRPSCapacity := g.currentRPSCapacity)
      invariant g.currentRPSCapacity - Deltas(updated[i..]) == f.currentRPSCapacity - Deltas(updated)
    {
      var info := updated[i];
      assert updated[i..][0] == info && updated[i..][1..] == updated[i + 1..];
      g := g.(currentRPSCapacity := g.currentRPSCapacity - info.reducedDelta);
      assert info.config in multiset(order);
      ValuesWithout(f.configs, info.config);
      assert f.configs[info.config.uuid := info.config] == f.configs;
      g := g.(configs := g.configs[info.config.uuid := info.config]);
    }
  }

  /** The loop that books removed groups. */
  method BookRemovals(f: Func, removed: seq<Config>) returns (g: Func)
    ensures g == f.(configs := f.configs - Uuids(removed),
                    currentRPSCapacity := f.currentRPSCapacity - Total(removed))
  {
    g := f;
    for i := 0 to |removed|
      invariant g == f.(configs := g.configs, currentRPSCapacity := g.currentRPSCapacity)
      invariant g.configs - Uuids(removed[i..]) == f.configs - Uuids(removed)
      invariant g.currentRPSCapacity - Total(removed[i..]) == f.currentRPSCapacity - Total(removed)
    {
      var config := removed[i];
      assert removed[i..][0] == config && removed[i..][1..] == removed[i + 1..];
      UuidsHead(g.configs, removed[i..]);
      g := g.(currentRPSCapacity := g.currentRPSCapacity - config.allocatedRPS);
      g := g.(configs := g.configs - {config.uuid});
    }
    assert removed[|removed|..] == [] && g.configs - Uuids([]) == g.configs;
  }
}

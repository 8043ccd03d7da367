/** The scaling decision for one function at every tick, with its counter of consecutive
    scale-down conditions and its ledger of recorded capacity. */
module FunctionScaler {
  import opened Arithmetic
  import opened Configs
  import opened MapSums
  import opened Options
  import opened ScaleDown

  const SCALE_DOWN_CONSECUTIVE_REQUIRED: int := 3
  const SCALE_FACTOR: real := 1.5
  const SCALE_DOWN_THRESHOLD: real := 0.5

  /** What is kept per function; `known` is membership in the map of functions. */
  datatype Func = Func(
    known: bool,
    configs: map<string, Config>,
    currentRPSCapacity: real,
    scaleDownConsecutiveCount: int)

  const NEW_FUNC := Func(false, map[], 0.0, 0)

  datatype Metrics = Metrics(rps10s: real, rps30s: real, rps30sEarlier: real, minRps: real)

  // --------------------------------------------------------------- the decision

  /** The predicted rate: the largest of the minimum, the current rate, and the current rate with its
      growth against the earlier window added once more. */
  function PredictedRate(m: Metrics): (rate: real)
    ensures m.minRps <= rate && m.rps10s <= rate && m.rps10s + (m.rps10s - m.rps30sEarlier) <= rate
    ensures rate == m.minRps || rate == m.rps10s || rate == m.rps10s + (m.rps10s - m.rps30sEarlier)
  {
    var growth := m.rps10s - m.rps30sEarlier;
    var rate := if growth > 0.0 then m.rps10s + growth else m.rps10s;
    if rate < m.minRps then m.minRps else rate
  }

  function DeltaUp(f: Func, m: Metrics): real {
    PredictedRate(m) * SCALE_FACTOR - (if f.known then f.currentRPSCapacity else 0.0)
  }

  function LoadRatio(f: Func, m: Metrics): real {
    var capacity := if f.known then f.currentRPSCapacity else 0.0;
    if capacity > 0.0 then m.rps10s / capacity else 0.0
  }

  predicate WantsUp(f: Func, m: Metrics) {
    DeltaUp(f, m) > 0.0 || !f.known
  }

  /** The condition that has to hold on consecutive ticks before a scale-down. */
  predicate Qualifies(f: Func, m: Metrics) {
    && !WantsUp(f, m)
    && LoadRatio(f, m) < SCALE_DOWN_THRESHOLD
    && |f.configs| > 1
    && m.rps10s - m.rps30s <= 0.0
  }

  predicate FiresDown(f: Func, m: Metrics) {
    Qualifies(f, m) && f.scaleDownConsecutiveCount + 1 >= SCALE_DOWN_CONSECUTIVE_REQUIRED
  }

  function NextCount(f: Func, m: Metrics): int {
    if Qualifies(f, m) && !FiresDown(f, m) then f.scaleDownConsecutiveCount + 1 else 0
  }

  lemma HalfLoaded(rate: real, capacity: real)
    requires 0.0 < capacity
    ensures rate / capacity < 0.5 <==> 2.0 * rate < capacity
  {
    QuotientUnique(0.5 * capacity, capacity, 0.5);
    QuotientOrder(0.5 * capacity, rate, capacity);
  }

  /** The decision on the numbers: a function scales up if it is new or its capacity is below one and a
      half times the predicted rate; it qualifies for a scale-down if it is known, has that capacity, at
      least two groups, no rising rate, and less than half its capacity in use; and it scales down at
      the third such tick in a row. */
  lemma DecisionOnNumbers(f: Func, m: Metrics)
    ensures WantsUp(f, m) <==> !f.known || f.currentRPSCapacity < 1.5 * PredictedRate(m)
    ensures DeltaUp(f, m) == 1.5 * PredictedRate(m) - (if f.known then f.currentRPSCapacity else 0.0)
    ensures Qualifies(f, m) <==>
      && f.known && 1.5 * PredictedRate(m) <= f.currentRPSCapacity
      && 2 <= |f.configs| && m.rps10s <= m.rps30s
      && (f.currentRPSCapacity <= 0.0 || 2.0 * m.rps10s < f.currentRPSCapacity)
    ensures FiresDown(f, m) <==> Qualifies(f, m) && 2 <= f.scaleDownConsecutiveCount
    ensures NextCount(f, m)
         == if Qualifies(f, m) && f.scaleDownConsecutiveCount < 2 then f.scaleDownConsecutiveCount + 1 else 0
  {
    hide PredictedRate;
    if f.known && 0.0 < f.currentRPSCapacity {
      HalfLoaded(m.rps10s, f.currentRPSCapacity);
    }
  }

  /** A function seen for the first time holds nothing and scales up at any rate. */
  lemma NewFunction(m: Metrics)
    ensures NEW_FUNC.configs == map[] && NEW_FUNC.currentRPSCapacity == 0.0
    ensures WantsUp(NEW_FUNC, m) && DeltaUp(NEW_FUNC, m) == 1.5 * PredictedRate(m)
  {
    DecisionOnNumbers(NEW_FUNC, m);
  }

  // ------------------------------------------------------------------- the step

  /** How a scale-up ended: no config found, creating the pods failed, or configs were added. */
  datatype UpOutcome = NoConfigs | PodsFailed | Added(configs: seq<Config>)

  /** Everything the environment chooses in one tick: metrics, the outcome of a scale-up, the order
      in which the configs are listed and sorted, and the outcome of every cluster call. */
  datatype Tick = Tick(metrics: Metrics, up: UpOutcome, order: seq<Config>, api: map<string, Outcome>)

  function AddConfigs(configs: map<string, Config>, added: seq<Config>): map<string, Config>
    decreases added
  {
    if added == [] then configs
    else AddConfigs(configs[added[0].uuid := added[0]], added[1..])
  }

  function Uuids(removed: seq<Config>): set<string> {
    set c | c in removed :: c.uuid
  }

  function Deltas(updated: seq<ReduceInfo>): real {
    if updated == [] then 0.0 else updated[0].reducedDelta + Deltas(updated[1..])
  }

  ghost function Removed(t: Tick): seq<Config> {
    RemovedBy(t.api, t.order[..Removable(t.order, PredictedRate(t.metrics))])
  }

  ghost function Updated(t: Tick): seq<ReduceInfo>
    requires AllConsistent(t.order)
  {
    UpdatedBy(t.api, Shrink(t.order, PredictedRate(t.metrics)))
  }

  ghost predicate IsListing(order: seq<Config>, configs: map<string, Config>) {
    multiset(order) == multiset(configs.Values)
  }

  /** What the environment is held to: committed configs are consistent and have fresh UUIDs; the
      configs are listed completely and sorted by recorded RPS, ties in any order. */
  ghost predicate Admissible(f: Func, t: Tick) {
    if WantsUp(f, t.metrics) then
      t.up.Added? ==>
        && AllConsistent(t.up.configs)
        && (forall c :: c in t.up.configs ==> c.uuid !in f.configs)
        && (forall i, j :: 0 <= i < j < |t.up.configs| ==> t.up.configs[i].uuid != t.up.configs[j].uuid)
    else if FiresDown(f, t.metrics) then
      IsListing(t.order, f.configs) && Sorted(t.order)
    else true
  }

  ghost predicate WellKeyed(configs: map<string, Config>) {
    forall u :: u in configs ==> configs[u].uuid == u && Consistent(configs[u])
  }

  ghost predicate FuncInv(f: Func) {
    && WellKeyed(f.configs)
    && (!f.known ==> f == NEW_FUNC)
  }

  lemma ListingConsistent(configs: map<string, Config>, order: seq<Config>)
    requires WellKeyed(configs) && IsListing(order, configs)
    ensures AllConsistent(order)
  {
    forall c | c in order ensures Consistent(c) {
      assert c in multiset(order);
      assert c in configs.Values;
    }
  }

  ghost function Step(f: Func, t: Tick): Func
    requires FuncInv(f) && Admissible(f, t)
  {
    var g := f.(known := true, scaleDownConsecutiveCount := NextCount(f, t.metrics));
    if WantsUp(f, t.metrics) then
      if t.up.Added? then
        g.(configs := AddConfigs(f.configs, t.up.configs),
           currentRPSCapacity := f.currentRPSCapacity + Total(t.up.configs))
      else g
    else if FiresDown(f, t.metrics) then
      ListingConsistent(f.configs, t.order);
      g.(configs := f.configs - Uuids(Removed(t)),
         currentRPSCapacity := f.currentRPSCapacity - Deltas(Updated(t)) - Total(Removed(t)))
    else g
  }

  // ----------------------------------------------------------- configs entered and left

  lemma {:induction false} AddedWhere(configs: map<string, Config>, added: seq<Config>, u: string)
    requires u in AddConfigs(configs, added)
    ensures AddConfigs(configs, added)[u] in added
         || (u in configs && AddConfigs(configs, added)[u] == configs[u])
    decreases added
  {
    if added != [] {
      AddedWhere(configs[added[0].uuid := added[0]], added[1..], u);
    }
  }

  lemma {:induction false} AddedKeeps(configs: map<string, Config>, added: seq<Config>, u: string)
    requires u in configs && forall c :: c in added ==> c.uuid != u
    ensures u in AddConfigs(configs, added) && AddConfigs(configs, added)[u] == configs[u]
    decreases added
  {
    if added != [] {
      assert added[0] in added;
      AddedKeeps(configs[added[0].uuid := added[0]], added[1..], u);
    }
  }

  lemma {:induction false} AddedIn(configs: map<string, Config>, added: seq<Config>, c: Config)
    requires c in added && forall i, j :: 0 <= i < j < |added| ==> added[i].uuid != added[j].uuid
    ensures c.uuid in AddConfigs(configs, added) && AddConfigs(configs, added)[c.uuid] == c
    decreases added
  {
    var rest := added[1..];
    if c == added[0] {
      forall d | d in rest ensures d.uuid != c.uuid {
        var i :| 0 <= i < |rest| && rest[i] == d;
        assert added[i + 1] == d && added[0] == c;
      }
      AddedKeeps(configs[c.uuid := c], rest, c.uuid);
    } else {
      AddedIn(configs[added[0].uuid := added[0]], rest, c);
    }
  }

  /** After a scale-up that ended well exactly the committed groups are new, and the capacity has risen
      by their recorded RPS; after any other the function has the groups and the capacity it had. */
  lemma EnteredByScaleUp(f: Func, t: Tick)
    requires FuncInv(f) && Admissible(f, t) && WantsUp(f, t.metrics)
    ensures t.up.Added? ==>
      && (forall c :: c in t.up.configs ==>
            c.uuid !in f.configs && c.uuid in Step(f, t).configs && Step(f, t).configs[c.uuid] == c)
      && (forall u :: u in f.configs ==> u in Step(f, t).configs && Step(f, t).configs[u] == f.configs[u])
      && (forall u :: u in Step(f, t).configs ==> u in f.configs || exists c :: c in t.up.configs && c.uuid == u)
      && Step(f, t).currentRPSCapacity == f.currentRPSCapacity + Total(t.up.configs)
    ensures !t.up.Added? ==>
      Step(f, t).configs == f.configs && Step(f, t).currentRPSCapacity == f.currentRPSCapacity
  {
    hide PredictedRate, WantsUp, Total;
    if t.up.Added? {
      forall c | c in t.up.configs
        ensures c.uuid in Step(f, t).configs && Step(f, t).configs[c.uuid] == c
      {
        AddedIn(f.configs, t.up.configs, c);
      }
      forall u | u in f.configs ensures u in Step(f, t).configs && Step(f, t).configs[u] == f.configs[u] {
        AddedKeeps(f.configs, t.up.configs, u);
      }
      AddedSum(f.configs, t.up.configs);
      forall u | u in Step(f, t).configs ensures u in f.configs || exists c :: c in t.up.configs && c.uuid == u {
        AddedWhere(f.configs, t.up.configs, u);
      }
    }
  }

  /** After a scale-down a group is gone exactly if it belongs to the removable prefix and its pod is gone
      already or was deleted; all others are as they were. */
  lemma LeftByScaleDown(f: Func, t: Tick)
    requires FuncInv(f) && Admissible(f, t) && FiresDown(f, t.metrics)
    ensures Step(f, t).configs.Keys <= f.configs.Keys
    ensures forall u :: u in f.configs ==>
      (u !in Step(f, t).configs <==>
         && f.configs[u] in t.order[..Removable(t.order, PredictedRate(t.metrics))]
         && u in t.api && (t.api[u] == NotFound || t.api[u] == Done))
    ensures forall u :: u in Step(f, t).configs ==> Step(f, t).configs[u] == f.configs[u]
  {
    hide Removable, PredictedRate, Total, Deltas, Sorted, RemovedBy, FiresDown;
    NeverBoth(f, t.metrics);
    DownConfigs(f, t);
    var plan := t.order[..Removable(t.order, PredictedRate(t.metrics))];
    forall u | u in f.configs
      ensures u in Uuids(Removed(t)) <==>
        f.configs[u] in plan && u in t.api && (t.api[u] == NotFound || t.api[u] == Done)
    {
      var c := f.configs[u];
      RemovedExactly(t.api, plan, c);
      if u in Uuids(Removed(t)) {
        var d :| d in Removed(t) && d.uuid == u;
        RemovedExactly(t.api, plan, d);
        assert d in t.order && d in multiset(t.order);
        assert d in f.configs.Values;
      }
    }
  }

  lemma DownConfigs(f: Func, t: Tick)
    requires FuncInv(f) && Admissible(f, t) && FiresDown(f, t.metrics)
    ensures Step(f, t).configs == f.configs - Uuids(Removed(t)) && IsListing(t.order, f.configs)
  {}

  lemma NeverBoth(f: Func, m: Metrics)
    requires FiresDown(f, m)
    ensures !WantsUp(f, m)
  {}

  // ------------------------------------------------ sums over configs and lists

  lemma {:induction false} AddedSum(configs: map<string, Config>, added: seq<Config>)
    requires WellKeyed(configs) && AllConsistent(added)
    requires forall c :: c in added ==> c.uuid !in configs
    requires forall i, j :: 0 <= i < j < |added| ==> added[i].uuid != added[j].uuid
    ensures Sum(AddConfigs(configs, added), Rps) == Sum(configs, Rps) + Total(added)
    ensures WellKeyed(AddConfigs(configs, added))
    decreases added
  {
    if added != [] {
      var c, rest := added[0], added[1..];
      assert c in added;
      SumInsert(configs, Rps, c.uuid, c);
      forall d | d in rest ensures d.uuid !in configs[c.uuid := c] && Consistent(d) {
        assert d in added;
        var i :| 0 <= i < |rest| && rest[i] == d;
        assert added[i + 1] == d;
      }
      AddedSum(configs[c.uuid := c], rest);
    }
  }

  lemma ValuesWithout(configs: map<string, Config>, c: Config)
    requires forall u :: u in configs ==> configs[u].uuid == u
    requires c in configs.Values
    ensures c.uuid in configs && configs[c.uuid] == c
    ensures (configs - {c.uuid}).Values == configs.Values - {c}
  {
    var u :| u in configs && configs[u] == c;
    var rest := configs - {c.uuid};
    forall d | d in configs.Values && d != c ensures d in rest.Values {
      var v :| v in configs && configs[v] == d;
      assert v in rest && rest[v] == d;
    }
    forall d | d in rest.Values ensures d in configs.Values && d != c {
      var v :| v in rest && rest[v] == d;
    }
  }

  lemma Cancel<T>(a: multiset<T>, b: multiset<T>, x: T)
    requires a + multiset{x} <= b + multiset{x}
    ensures a <= b
  {
    forall y ensures a[y] <= b[y] {
      assert (a + multiset{x})[y] <= (b + multiset{x})[y];
    }
  }

  lemma ListedHead(configs: map<string, Config>, removed: seq<Config>)
    requires forall u :: u in configs ==> configs[u].uuid == u
    requires removed != [] && multiset(removed) <= multiset(configs.Values)
    ensures var c := removed[0];
      && c.uuid in configs && configs[c.uuid] == c
      && multiset(removed[1..]) <= multiset((configs - {c.uuid}).Values)
  {
    var c, rest := removed[0], removed[1..];
    assert removed == [c] + rest;
    assert multiset(removed) == multiset(rest) + multiset{c};
    assert c in multiset(configs.Values);
    ValuesWithout(configs, c);
    assert multiset(configs.Values) == multiset((configs - {c.uuid}).Values) + multiset{c};
    Cancel(multiset(rest), multiset((configs - {c.uuid}).Values), c);
  }

  lemma UuidsHead(configs: map<string, Config>, removed: seq<Config>)
    requires removed != []
    ensures configs - Uuids(removed) == configs - {removed[0].uuid} - Uuids(removed[1..])
  {
    assert removed == [removed[0]] + removed[1..];
    assert Uuids(removed) == {removed[0].uuid} + Uuids(removed[1..]);
  }

  /** Removing some listed configs lowers the sum by exactly their total. */
  lemma {:induction false} RemovedSum(configs: map<string, Config>, removed: seq<Config>)
    requires forall u :: u in configs ==> configs[u].uuid == u
    requires multiset(removed) <= multiset(configs.Values)
    ensures Sum(configs - Uuids(removed), Rps) == Sum(configs, Rps) - Total(removed)
    decreases removed
  {
    if removed == [] {
      assert configs - Uuids(removed) == configs;
    } else {
      ListedHead(configs, removed);
      UuidsHead(configs, removed);
      SumRemove(configs, Rps, removed[0].uuid);
      RemovedSum(configs - {removed[0].uuid}, removed[1..]);
    }
  }

  lemma ListingSum(configs: map<string, Config>, order: seq<Config>)
    requires forall u :: u in configs ==> configs[u].uuid == u
    requires IsListing(order, configs)
    ensures Total(order) == Sum(configs, Rps)
  {
    RemovedSum(configs, order);
    forall u | u in configs ensures u in Uuids(order) {
      assert configs[u] in configs.Values;
      assert configs[u] in multiset(order);
      assert configs[u] in order;
    }
    assert configs - Uuids(order) == map[];
  }

  // ------------------------------------------------------------ single-step laws

  /** RPS booked off wrongly by one step: the remaining RPS of every group that was shrunk. */
  ghost function Drift(f: Func, t: Tick): real
    requires FuncInv(f) && Admissible(f, t)
  {
    if FiresDown(f, t.metrics) then
      ListingConsistent(f.configs, t.order);
      Deltas(Updated(t))
    else 0.0
  }

  /** A tick executes a partial reduction: it scales down, the surplus of the last listed group
      covers the predicted rate, and the cluster call for that group is executed. */
  ghost predicate ShrinksAt(f: Func, t: Tick)
    requires FuncInv(f) && Admissible(f, t)
  {
    FiresDown(f, t.metrics) &&
    (ListingConsistent(f.configs, t.order);
     SurplusCovers(t.order, PredictedRate(t.metrics)) && Executed(t.api, t.order[|t.order| - 1].uuid))
  }

  /** That test is exact. */
  lemma ShrinksAtIff(f: Func, t: Tick)
    requires FuncInv(f) && Admissible(f, t) && FiresDown(f, t.metrics)
    ensures AllConsistent(t.order)
    ensures ShrinksAt(f, t) <==> Updated(t) != []
  {
    hide Removable, Shrink, SurplusCovers;
    ListingConsistent(f.configs, t.order);
    var target := PredictedRate(t.metrics);
    ShrinkIffSurplusCovers(t.order, target);
    ShrinkShape(t.order, target);
    var u := Shrink(t.order, target);
    if u != [] {
      assert u[0] in u;
      LostOne(t.api, u);
    } else {
      NothingExecuted(t.api);
    }
  }

  lemma DriftSign(f: Func, t: Tick)
    requires FuncInv(f) && Admissible(f, t)
    ensures 0.0 <= Drift(f, t)
    ensures FiresDown(f, t.metrics) ==> AllConsistent(t.order)
    ensures Drift(f, t) == 0.0 <==> !ShrinksAt(f, t)
  {
    if FiresDown(f, t.metrics) {
      ShrinksAtIff(f, t);
      ListingConsistent(f.configs, t.order);
      var target := PredictedRate(t.metrics);
      ShrinkShape(t.order, target);
      var u := Shrink(t.order, target);
      if u != [] {
        assert u[0] in u;
        LostOne(t.api, u);
        assert u[1..] == [] && Deltas(u) == u[0].reducedDelta;
        var c := t.order[|t.order| - 1];
        assert c in t.order && u[0].config == c;
        ScaleLe(1.0, u[0].newReplica as real, c.qpsPerReplica);
      }
    }
  }

  lemma RemovedListed(f: Func, t: Tick)
    requires FuncInv(f) && IsListing(t.order, f.configs)
    ensures multiset(Removed(t)) <= multiset(f.configs.Values)
    ensures Sum(f.configs - Uuids(Removed(t)), Rps) == Sum(f.configs, Rps) - Total(Removed(t))
  {
    hide Sum, Total, RemovedBy, Removable;
    ListingConsistent(f.configs, t.order);
    var plan := t.order[..Removable(t.order, PredictedRate(t.metrics))];
    RemovedIsPart(t.api, plan);
    assert t.order == plan + t.order[|plan|..];
    RemovedSum(f.configs, Removed(t));
  }

  /** One step keeps the invariant and moves the ledger along with the held configs, except for
      the drift of a partial reduction. */
  lemma StepLaw(f: Func, t: Tick)
    requires FuncInv(f) && Admissible(f, t)
    ensures FuncInv(Step(f, t)) && Step(f, t).known
    ensures Step(f, t).currentRPSCapacity - f.currentRPSCapacity
         == Sum(Step(f, t).configs, Rps) - Sum(f.configs, Rps) - Drift(f, t)
  {
    hide Sum, Total, Removed, Updated, Deltas, Sorted, AddConfigs, DeltaUp, LoadRatio;
    if WantsUp(f, t.metrics) {
      if t.up.Added? {
        AddedSum(f.configs, t.up.configs);
      }
    } else if FiresDown(f, t.metrics) {
      RemovedListed(f, t);
    }
  }

  // --------------------------------------------------------------- whole runs

  /** The state after a run of ticks from a new function; `None` if some tick is not admissible. */
  ghost function Reach(ticks: seq<Tick>): (r: Option<Func>)
    ensures r.Some? ==> FuncInv(r.value)
  {
    if ticks == [] then Some(NEW_FUNC)
    else
      var n := |ticks| - 1;
      var f := Reach(ticks[..n]);
      if f.None? || !Admissible(f.value, ticks[n]) then None
      else
        StepLaw(f.value, ticks[n]);
        Some(Step(f.value, ticks[n]))
  }

  /** Consecutive qualifying ticks at the end of a run. */
  ghost function RunLength(ticks: seq<Tick>): nat
    requires Reach(ticks).Some?
  {
    if ticks == [] then 0
    else
      var n := |ticks| - 1;
      if Qualifies(Reach(ticks[..n]).value, ticks[n].metrics) then RunLength(ticks[..n]) + 1 else 0
  }

  lemma CountStep(f: Func, t: Tick)
    requires FuncInv(f) && Admissible(f, t)
    ensures Step(f, t).scaleDownConsecutiveCount == NextCount(f, t.metrics)
    ensures !(FiresDown(f, t.metrics) && WantsUp(f, t.metrics))
  {}

  /** Hysteresis over every run: the counter is the length of the current qualifying run modulo
      the required count, and a tick scales down exactly when that length reaches a positive
      multiple of it; no tick scales both ways. */
  lemma {:induction false} Hysteresis(ticks: seq<Tick>)
    requires Reach(ticks).Some?
    ensures Reach(ticks).value.scaleDownConsecutiveCount
         == RunLength(ticks) % SCALE_DOWN_CONSECUTIVE_REQUIRED
    ensures ticks != [] ==>
      var n := |ticks| - 1;
      var f := Reach(ticks[..n]).value;
      && (FiresDown(f, ticks[n].metrics) <==>
            0 < RunLength(ticks) && RunLength(ticks) % SCALE_DOWN_CONSECUTIVE_REQUIRED == 0)
      && !(FiresDown(f, ticks[n].metrics) && WantsUp(f, ticks[n].metrics))
  {
    hide Admissible, Step, Qualifies, WantsUp, FuncInv;
    if ticks != [] {
      var n := |ticks| - 1;
      Hysteresis(ticks[..n]);
      CountStep(Reach(ticks[..n]).value, ticks[n]);
    }
  }

  ghost function TotalDrift(ticks: seq<Tick>): real
    requires Reach(ticks).Some?
  {
    if ticks == [] then 0.0
    else
      var n := |ticks| - 1;
      TotalDrift(ticks[..n]) + Drift(Reach(ticks[..n]).value, ticks[n])
  }

  /** Some tick of the run executed a partial reduction. */
  ghost predicate EverShrank(ticks: seq<Tick>)
    requires Reach(ticks).Some?
  {
    ticks != [] &&
    var n := |ticks| - 1;
    EverShrank(ticks[..n]) || ShrinksAt(Reach(ticks[..n]).value, ticks[n])
  }

  /** The capacity ledger over every run: it trails the recorded RPS of the held configs by the
      accumulated drift, which is never negative and vanishes exactly if no group was ever shrunk. */
  lemma {:induction false} LedgerLaw(ticks: seq<Tick>)
    requires Reach(ticks).Some?
    ensures var f := Reach(ticks).value;
      f.currentRPSCapacity == Sum(f.configs, Rps) - TotalDrift(ticks)
    ensures 0.0 <= TotalDrift(ticks)
    ensures TotalDrift(ticks) == 0.0 <==> !EverShrank(ticks)
  {
    if ticks != [] {
      var n := |ticks| - 1;
      var f := Reach(ticks[..n]).value;
      LedgerLaw(ticks[..n]);
      StepLaw(f, ticks[n]);
      DriftSign(f, ticks[n]);
    }
  }

  /** The ledger agrees with the held configs exactly on the runs without a partial reduction. */
  lemma LedgerAgreesIffNeverShrank(ticks: seq<Tick>)
    requires Reach(ticks).Some?
    ensures var f := Reach(ticks).value;
      f.currentRPSCapacity == Sum(f.configs, Rps) <==> !EverShrank(ticks)
  {
    LedgerLaw(ticks);
  }

  lemma HeldNonNegative(f: Func)
    requires FuncInv(f)
    ensures 0.0 <= Sum(f.configs, Rps)
  {
    forall u | u in f.configs ensures 0.0 <= Rps(f.configs[u]) {
      RpsPositive(f.configs[u]);
    }
    SumNonNegative(f.configs, Rps);
  }

  /** Every scale-down of every run leaves enough: whatever cluster calls fail, the recorded RPS
      of what is left is at least the predicted rate, itself at least the minimum; and if no group
      was shrunk before, the ledger stays at or above the predicted rate as well, even when this
      very tick shrinks a group and books the wrong amount. */
  lemma ScaleDownLeavesEnough(ticks: seq<Tick>, t: Tick)
    requires Reach(ticks).Some? && Admissible(Reach(ticks).value, t)
    requires FiresDown(Reach(ticks).value, t.metrics)
    ensures AllConsistent(t.order)
    ensures t.metrics.minRps <= PredictedRate(t.metrics)
    ensures PredictedRate(t.metrics) <= RecordedLeft(t.order, Removed(t), Updated(t))
    ensures RecordedLeft(t.order, Removed(t), Updated(t))
         == Sum(Step(Reach(ticks).value, t).configs, Rps) - Lost(Updated(t))
    ensures !EverShrank(ticks) ==>
      PredictedRate(t.metrics) <= Step(Reach(ticks).value, t).currentRPSCapacity
  {
    hide Reach, EverShrank, TotalDrift, Sorted;
    var f := Reach(ticks).value;
    var target := PredictedRate(t.metrics);
    ListingConsistent(f.configs, t.order);
    LedgerLaw(ticks);
    HeldNonNegative(f);
    ListingSum(f.configs, t.order);
    ScaleDownIsSafe(t.order, target, t.api);
    DownStep(f, t);
    DownLedger(f, t);
  }

  lemma DownStep(f: Func, t: Tick)
    requires FuncInv(f) && Admissible(f, t) && FiresDown(f, t.metrics)
    ensures AllConsistent(t.order)
    ensures Sum(Step(f, t).configs, Rps) == Total(t.order) - Total(Removed(t))
    ensures Step(f, t).currentRPSCapacity == f.currentRPSCapacity - Deltas(Updated(t)) - Total(Removed(t))
  {
    ListingConsistent(f.configs, t.order);
    ListingSum(f.configs, t.order);
    StepLaw(f, t);
  }

  lemma DownLedger(f: Func, t: Tick)
    requires FuncInv(f) && Admissible(f, t) && FiresDown(f, t.metrics)
    ensures AllConsistent(t.order)
    ensures PredictedRate(t.metrics) <= Total(t.order) ==>
      PredictedRate(t.metrics) <= Total(t.order) - Total(Removed(t)) - Deltas(Updated(t))
  {
    hide Total, Removable, Sorted, Consistent, Shrink, PredictedRate, RemovedBy;
    ListingConsistent(f.configs, t.order);
    var target := PredictedRate(t.metrics);
    var k := Removable(t.order, target);
    RemovedIsPart(t.api, t.order[..k]);
    TotalSplit(t.order, k);
    assert t.order[0..] == t.order;
    ShrinkShape(t.order, target);
    var u := Shrink(t.order, target);
    if u != [] {
      assert u[0] in u && u[1..] == [] && Deltas(u) == u[0].reducedDelta;
      LastAlone(t.order);
      LostOne(t.api, u);
    }
  }
}

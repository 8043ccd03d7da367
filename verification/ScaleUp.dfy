/** A whole scale-up: sort the GPUs, plan on them, commit the plans, hand the groups over. */
module ScaleUp {
  import opened Configs
  import opened ConfigFinder
  import opened FunctionScaler
  import opened GpuLedger
  import opened GpuOrder
  import opened Options
  import opened Shelves

  ghost predicate DistinctUuids(configs: seq<Config>) {
    forall i, j :: 0 <= i < j < |configs| ==> configs[i].uuid != configs[j].uuid
  }

  lemma KeptUuid(c: Config, target: Option<Gpu>)
    ensures |Kept(c, target)| <= 1
    ensures forall k :: k in Kept(c, target) ==> k.uuid == c.uuid
  {}

  /** Committing keeps UUIDs apart and makes up none. */
  lemma {:induction false} CommitAllUuids(configs: seq<Config>, targets: seq<Option<Gpu>>)
    requires |configs| == |targets| && DistinctUuids(configs)
    ensures DistinctUuids(CommitAll(configs, targets))
    ensures forall c :: c in CommitAll(configs, targets) ==> exists i :: 0 <= i < |configs| && configs[i].uuid == c.uuid
    decreases |configs|
  {
    hide Kept;
    if configs != [] {
      var n := |configs| - 1;
      var done, last := CommitAll(configs[..n], targets[..n]), Kept(configs[n], targets[n]);
      CommitAllUuids(configs[..n], targets[..n]);
      KeptUuid(configs[n], targets[n]);
      forall c: Config | c in done + last ensures exists i :: 0 <= i < |configs| && configs[i].uuid == c.uuid {
        if c in done {
          var i :| 0 <= i < |configs[..n]| && configs[..n][i].uuid == c.uuid;
          assert configs[i].uuid == c.uuid;
        } else {
          assert configs[n].uuid == c.uuid;
        }
      }
      forall c | c in done ensures c.uuid != configs[n].uuid {
        var i :| 0 <= i < |configs[..n]| && configs[..n][i].uuid == c.uuid;
        assert configs[i].uuid == c.uuid;
      }
      forall i, j | 0 <= i < j < |done + last| ensures (done + last)[i].uuid != (done + last)[j].uuid {
        if j >= |done| {
          assert (done + last)[j] in last && (done + last)[i] in done;
        }
      }
    }
  }

  /** Whatever is committed from plans with a throughput is consistent. */
  lemma {:induction false} CommitAllConsistent(configs: seq<Config>, targets: seq<Option<Gpu>>)
    requires |configs| == |targets|
    requires forall c :: c in configs ==> 0.0 < c.qpsPerReplica
    requires forall i :: 0 <= i < |targets| && targets[i].Some? ==> Inv(targets[i].value.packer)
    ensures AllConsistent(CommitAll(configs, targets))
    decreases |configs|
  {
    hide Inv, Commit, Consistent;
    if configs != [] {
      var n := |configs| - 1;
      CommitAllConsistent(configs[..n], targets[..n]);
      if targets[n].Some? {
        assert configs[n] in configs;
        CommitIsConsistent(targets[n].value, configs[n].(gpuUUID := targets[n].value.uuid));
      }
    }
  }

  /** What planner and ledger deliver is what the function ledger relies on. */
  lemma CommittedIsAdmissible(
    f: Func, t: Tick, configs: seq<Config>, targets: seq<Option<Gpu>>, source: seq<nat>, newUUID: nat -> string)
    requires WantsUp(f, t.metrics) && |configs| == |targets|
    requires t.up == Added(CommitAll(configs, targets))
    requires forall c :: c in configs ==> 0.0 < c.qpsPerReplica
    requires forall i :: 0 <= i < |targets| && targets[i].Some? ==> Inv(targets[i].value.packer)
    requires Named(configs, source, newUUID)
    requires forall i, j :: 0 <= i < j < |source| ==> source[i] < source[j]
    requires forall a: nat, b: nat :: a != b ==> newUUID(a) != newUUID(b)
    requires forall a: nat :: newUUID(a) !in f.configs
    ensures AllConsistent(t.up.configs) && Admissible(f, t)
  {
    hide Inv;
    CommitAllConsistent(configs, targets);
    assert DistinctUuids(configs);
    CommitAllUuids(configs, targets);
    forall c | c in t.up.configs ensures c.uuid !in f.configs {
      var i :| 0 <= i < |configs| && configs[i].uuid == c.uuid;
    }
  }

  /** The scale-up branch of a tick. The result is admissible for the function; it is an error
      exactly when nothing is requested or no GPU is usable; and if no GPU was filled up in between,
      the capacity added is the request minus the remainder. */
  method ScaleUpFunc(f: Func, m: Metrics, r: Request, gpus: seq<Gpu>, newUUID: nat -> string,
                     provision: nat -> Option<Gpu>, podsCreated: bool)
    returns (up: UpOutcome, ghost sorted: seq<Gpu>, ghost source: seq<nat>, ghost remaining: real)
    requires WantsUp(f, m) && 0 < r.memory
    requires AllMeasurable(gpus) && forall g :: g in gpus ==> GpuOk(g)
    requires forall i: nat :: provision(i).Some? ==> Inv(provision(i).value.packer)
    requires forall a: nat, b: nat :: a != b ==> newUUID(a) != newUUID(b)
    requires forall a: nat :: newUUID(a) !in f.configs
    ensures forall order, api :: Admissible(f, Tick(m, up, order, api))
    ensures multiset(sorted) == multiset(gpus)
    ensures AllMeasurable(sorted) && Ordered(r, sorted)
    ensures up.NoConfigs? <==> r.qps <= 0.0 || forall g :: g in gpus ==> !Usable(r, g)
    ensures !up.NoConfigs? ==> (up.Added? <==> podsCreated)
    ensures forall i :: 0 <= i < |source| ==> source[i] < |sorted|
    ensures up.Added? && (forall i :: 0 <= i < |source| ==> Arrives(sorted[source[i]], provision(i))) ==>
              Total(up.configs) == r.qps - remaining
  {
    hide Usable, GpuOk, Measurable, Less, PlannedOn, Possible, Inv, PlannedBest, Serves, Chosen, MayPrecede;
    var list := SortGPUInfos(r, gpus);
    sorted := list;
    SameMembers(list, gpus);
    var configs, rest, src, tried := GetConfigs(r, list, newUUID);
    source, remaining := src, rest;
    if configs == [] {
      up := NoConfigs;
      return;
    }
    var targets := seq(|configs|, i requires 0 <= i => provision(i));
    PlansHaveQPS(r, list, tried, configs, src);
    var newConfigs, after := PrepareConfigs(configs, targets);
    if !podsCreated {
      up := PodsFailed;
      return;
    }
    up := Added(newConfigs);
    forall order, api ensures Admissible(f, Tick(m, up, order, api)) {
      CommittedIsAdmissible(f, Tick(m, up, order, api), configs, targets, src, newUUID);
    }
    if forall i :: 0 <= i < |src| ==> Arrives(list[src[i]], provision(i)) {
      ScaleUpDeliversPlan(list, configs, src, r.memory, targets);
    }
  }

  lemma SameMembers(a: seq<Gpu>, b: seq<Gpu>)
    requires multiset(a) == multiset(b)
    ensures forall g :: g in a <==> g in b
  {
    forall g ensures g in a <==> g in b {
      assert g in multiset(a) <==> g in multiset(b);
    }
  }

  lemma PlansHaveQPS(r: Request, gpus: seq<Gpu>, tried: nat, configs: seq<Config>, source: seq<nat>)
    requires Passed(r, gpus, tried, configs, source)
    ensures forall c :: c in configs ==> 0.0 < c.qpsPerReplica
  {
    hide Usable, Possible;
    forall c | c in configs ensures 0.0 < c.qpsPerReplica {
      var i :| 0 <= i < |configs| && configs[i] == c;
      assert PlannedOn(gpus[source[i]], configs[i], r.memory);
    }
  }
}

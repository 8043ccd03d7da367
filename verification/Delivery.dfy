/** From plan to placed capacity: what the planner finds on the GPUs of a cluster is committed in full
    and raises the placed capacity of the function by the request minus the remainder. */
module Delivery {
  import opened Cluster
  import opened Configs
  import opened ConfigFinder
  import opened FunctionScaler
  import opened GpuLedger
  import opened GpuOrder
  import opened MapSums
  import opened Options
  import opened PlacedCapacity
  import opened Shelves
  import opened ShelfCapacity

  /** Plans made on the GPUs of a cluster, at most one per GPU. */
  ghost predicate PlannedHere(gpus: Gpus, plans: seq<Config>, memory: int) {
    && (forall p :: p in plans ==> p.gpuUUID in gpus && PlannedOn(gpus[p.gpuUUID].gpu, p, memory))
    && (forall i, j :: 0 <= i < j < |plans| ==> plans[i].gpuUUID != plans[j].gpuUUID)
  }

  function InFull(p: Config): Config {
    p.(allocatedReplica := p.requiredReplica, allocatedRPS := p.satisfiableRPS)
  }

  lemma CommitInFull(g: Gpu, p: Config, memory: int)
    requires Inv(g.packer) && PlannedOn(g, p, memory)
    ensures Commit(g, p, {}).config == InFull(p) && 0 < p.requiredReplica
  {
    hide Inv, MaxInsertable, Placed, Booked;
    CommitPlacesWhatFits(g, p, {});
    CommitKeepsPlan(g, p, {});
  }

  lemma PlannedLater(gpus: Gpus, plans: seq<Config>, memory: int)
    requires PlannedHere(gpus, plans, memory) && plans != []
    ensures PlannedHere(Apply(gpus, plans[0].gpuUUID, CommitOp(plans[0])), plans[1..], memory)
  {
    hide PlannedOn, Owned, Commit;
    var rest := plans[1..];
    forall q | q in rest ensures q in plans && q.gpuUUID != plans[0].gpuUUID {
      var i :| 0 <= i < |rest| && rest[i] == q;
      assert plans[i + 1] == q;
    }
  }

  /** Every such plan is kept in full. */
  lemma {:induction false} PlansKeptInFull(gpus: Gpus, plans: seq<Config>, memory: int)
    requires AllOwned(gpus) && PlannedHere(gpus, plans, memory)
    ensures |KeptGroups(gpus, plans)| == |plans|
    ensures forall i :: 0 <= i < |plans| ==> KeptGroups(gpus, plans)[i] == InFull(plans[i])
    decreases plans
  {
    hide PlannedOn, Apply, Commit;
    if plans != [] {
      var p, rest := plans[0], plans[1..];
      assert p in plans;
      CommitInFull(gpus[p.gpuUUID].gpu, p, memory);
      PlannedLater(gpus, plans, memory);
      ApplyOwned(gpus, p.gpuUUID, CommitOp(p));
      PlansKeptInFull(Apply(gpus, p.gpuUUID, CommitOp(p)), rest, memory);
    }
  }

  lemma {:induction false} TotalInFull(plans: seq<Config>, kept: seq<Config>)
    requires |kept| == |plans| && forall i :: 0 <= i < |plans| ==> kept[i] == InFull(plans[i])
    ensures Total(kept) == Satisfied(plans)
    decreases |plans|
  {
    if plans != [] {
      var n := |plans| - 1;
      TotalInFull(plans[..n], kept[..n]);
      TotalSplit(kept, n);
      assert kept[n..] == [kept[n]];
    }
  }

  /** The GPUs offered to the planner are the GPUs of the cluster, each once. */
  ghost predicate Offered(gpus: Gpus, list: seq<Gpu>) {
    && (forall g :: g in list ==> g.uuid in gpus && gpus[g.uuid].gpu == g)
    && (forall i, j :: 0 <= i < j < |list| ==> list[i].uuid != list[j].uuid)
  }

  lemma PlansAreHere(gpus: Gpus, list: seq<Gpu>, r: Request, tried: nat, configs: seq<Config>, source: seq<nat>)
    requires Offered(gpus, list) && Passed(r, list, tried, configs, source)
    ensures PlannedHere(gpus, configs, r.memory)
  {
    hide Usable, Possible;
    forall p | p in configs ensures p.gpuUUID in gpus && PlannedOn(gpus[p.gpuUUID].gpu, p, r.memory) {
      var i :| 0 <= i < |configs| && configs[i] == p;
      assert list[source[i]] in list && PlannedOn(list[source[i]], configs[i], r.memory);
    }
    forall i, j | 0 <= i < j < |configs| ensures configs[i].gpuUUID != configs[j].gpuUUID {
      assert PlannedOn(list[source[i]], configs[i], r.memory) && PlannedOn(list[source[j]], configs[j], r.memory);
      assert source[i] < source[j];
    }
  }

  // ------------------------------------------------- the two forms of the commit step

  /** The GPUs on which plans are committed, as they are before the first commit. */
  ghost function Targets(gpus: Gpus, plans: seq<Config>): (r: seq<Option<Gpu>>)
    ensures |r| == |plans|
  {
    if plans == [] then []
    else
      var p := plans[0];
      [if p.gpuUUID in gpus then Some(gpus[p.gpuUUID].gpu) else None] + Targets(gpus, plans[1..])
  }

  lemma {:induction false} CommitAllFront(configs: seq<Config>, targets: seq<Option<Gpu>>)
    requires |configs| == |targets| && configs != []
    ensures CommitAll(configs, targets) == Kept(configs[0], targets[0]) + CommitAll(configs[1..], targets[1..])
    decreases |configs|
  {
    hide Kept;
    var n := |configs| - 1;
    if n > 0 {
      assert configs[..n][1..] == configs[1..][..n - 1] && targets[..n][1..] == targets[1..][..n - 1];
      CommitAllFront(configs[..n], targets[..n]);
    } else {
      assert configs[..n] == [] && configs[1..] == [];
    }
  }

  lemma {:induction false} TargetsElsewhere(before: Gpus, after: Gpus, plans: seq<Config>)
    requires forall p :: p in plans ==> (p.gpuUUID in after <==> p.gpuUUID in before)
    requires forall p :: p in plans && p.gpuUUID in before ==> after[p.gpuUUID].gpu == before[p.gpuUUID].gpu
    ensures Targets(after, plans) == Targets(before, plans)
    decreases plans
  {
    if plans != [] {
      assert plans[0] in plans;
      TargetsElsewhere(before, after, plans[1..]);
    }
  }

  /** For plans on distinct GPUs, committing to the table keeps what committing each to its own GPU
      keeps; so what is shown of the one form of the commit step holds of the other. */
  lemma {:induction false} KeptIsCommitAll(gpus: Gpus, plans: seq<Config>)
    requires forall g :: g in gpus ==> gpus[g].gpu.uuid == g
    requires forall i, j :: 0 <= i < j < |plans| ==> plans[i].gpuUUID != plans[j].gpuUUID
    ensures KeptGroups(gpus, plans) == CommitAll(plans, Targets(gpus, plans))
    decreases plans
  {
    hide Commit, Owned;
    if plans != [] {
      var p, rest := plans[0], plans[1..];
      var next := Apply(gpus, p.gpuUUID, CommitOp(p));
      forall q | q in rest ensures q.gpuUUID != p.gpuUUID {
        var i :| 0 <= i < |rest| && rest[i] == q;
        assert plans[i + 1] == q;
      }
      ApplyKeepsUuid(gpus, p);
      KeptIsCommitAll(next, rest);
      TargetsElsewhere(gpus, next, rest);
      CommitAllFront(plans, Targets(gpus, plans));
      assert p.gpuUUID in gpus ==> p.(gpuUUID := gpus[p.gpuUUID].gpu.uuid) == p;
    }
  }

  lemma ApplyKeepsUuid(gpus: Gpus, p: Config)
    requires forall g :: g in gpus ==> gpus[g].gpu.uuid == g
    ensures var next := Apply(gpus, p.gpuUUID, CommitOp(p)); forall g :: g in next ==> next[g].gpu.uuid == g
  {
    hide Owned;
  }

  // ----------------------------------------------------------- the planner's result

  /** What the planner may return for a request on the GPUs of a cluster: they are offered in an order
      the comparator allows, and the greedy pass over them finds these plans. */
  ghost predicate PlannerResult(
    gpus: Gpus, r: Request, list: seq<Gpu>, tried: nat, plans: seq<Config>, source: seq<nat>, remaining: real)
  {
    && Offered(gpus, list) && AllMeasurable(list) && Ordered(r, list)
    && Balanced(r, list, plans, source, remaining) && Chosen(r, list, plans, source)
    && (if r.qps <= 0.0 then plans == [] else
          Passed(r, list, tried, plans, source) && (tried < |list| ==> remaining <= 0.0))
  }

  ghost predicate PlannedFor(gpus: Gpus, r: Request, plans: seq<Config>) {
    exists list, tried, source, remaining :: PlannerResult(gpus, r, list, tried, plans, source, remaining)
  }

  /** An event in which a scale-up commits what the planner returns for the capacity found lacking. */
  ghost predicate Genuine(s: System, e: Event, base: Request) {
    e.Own? && WantsUp(s.func, e.tick.metrics) ==>
      && PlannedFor(s.gpus, base.(qps := DeltaUp(s.func, e.tick.metrics)), e.plans)
      && (e.tick.up.NoConfigs? <==> e.plans == [])
  }

  /** A run all of whose scale-ups are made by the planner, from one profile and memory size. */
  ghost predicate GenuineRun(gpus: Gpus, events: seq<Event>, base: Request)
    requires AllOwned(gpus) && ReachSystem(gpus, events).Some?
  {
    events != [] ==>
      var n := |events| - 1;
      && GenuineRun(gpus, events[..n], base)
      && Genuine(ReachSystem(gpus, events[..n]).value, events[n], base)
  }

  /** End to end: the plans that the greedy pass returns for the GPUs of the cluster are all kept in
      full; a scale-up with them raises the placed capacity by exactly request minus remainder; and
      when the request is the capacity that was found lacking, placed and missing capacity together
      then cover the predicted rate times the scale factor, up to the remainder. */
  lemma ScaleUpDeliversRequest(
    s: System, e: Event, r: Request, list: seq<Gpu>, tried: nat, source: seq<nat>, remaining: real)
    requires Linked(s) && EventOk(s, e) && e.Own? && WantsUp(s.func, e.tick.metrics) && e.tick.up.Added?
    requires Offered(s.gpus, list)
    requires Passed(r, list, tried, e.plans, source) && Balanced(r, list, e.plans, source, remaining)
    ensures |e.tick.up.configs| == |e.plans|
    ensures forall i :: 0 <= i < |e.plans| ==> e.tick.up.configs[i] == InFull(e.plans[i])
    ensures Linked(SystemStep(s, e))
    ensures PlacedRPS(SystemStep(s, e)) == PlacedRPS(s) + r.qps - remaining
    ensures r.qps == DeltaUp(s.func, e.tick.metrics) ==>
      PredictedRate(e.tick.metrics) * SCALE_FACTOR - remaining
      <= PlacedRPS(SystemStep(s, e)) + Missing(SystemStep(s, e))
  {
    hide SystemStep, AllOwned, Sum, Passed, Total, Satisfied, KeptGroups, PlansOk, PlannedHere, Offered, PlacedRPS, Missing, PredictedRate, IsPlaced;
    PlansAreHere(s.gpus, list, r, tried, e.plans, source);
    PlansKeptInFull(s.gpus, e.plans, r.memory);
    TotalInFull(e.plans, e.tick.up.configs);
    ScaleUpRaisesPlaced(s, e);
    PlacedLaw(s);
  }

  /** So every scale-up the planner made, if its pods are created, raises the placed capacity by the
      capacity found lacking minus what the offered GPUs could not give. */
  lemma GenuineScaleUpDelivers(s: System, e: Event, base: Request)
    returns (list: seq<Gpu>, tried: nat, source: seq<nat>, remaining: real)
    requires Linked(s) && EventOk(s, e) && e.Own? && WantsUp(s.func, e.tick.metrics) && e.tick.up.Added?
    requires Genuine(s, e, base)
    ensures PlannerResult(
      s.gpus, base.(qps := DeltaUp(s.func, e.tick.metrics)), list, tried, e.plans, source, remaining)
    ensures |e.tick.up.configs| == |e.plans|
    ensures Linked(SystemStep(s, e))
    ensures PlacedRPS(SystemStep(s, e)) == PlacedRPS(s) + DeltaUp(s.func, e.tick.metrics) - remaining
    ensures PredictedRate(e.tick.metrics) * SCALE_FACTOR - remaining
         <= PlacedRPS(SystemStep(s, e)) + Missing(SystemStep(s, e))
  {
    hide EventOk, SystemStep, Linked, Passed, Balanced, Chosen, Ordered, AllMeasurable, Offered, PlacedRPS, Missing;
    var r := base.(qps := DeltaUp(s.func, e.tick.metrics));
    list, tried, source, remaining :| PlannerResult(s.gpus, r, list, tried, e.plans, source, remaining);
    ScaleUpDeliversRequest(s, e, r, list, tried, source, remaining);
  }
}

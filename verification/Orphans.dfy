/** Replicas that stay placed although no function holds them: when a scale-up leaves some, and
    that they stay. */
module Orphans {
  import opened Arithmetic
  import opened Cluster
  import opened Configs
  import opened FunctionScaler
  import opened GpuLedger
  import opened MapSums
  import opened Shelves
  import opened ShelfCapacity
  import opened ShelfRelease

  ghost function LiveIds(gpus: Gpus, g: string): set<int>
    requires g in gpus
  {
    gpus[g].gpu.packer.itemLocation.Keys
  }

  ghost predicate SameLiveIds(before: Gpus, after: Gpus) {
    before.Keys == after.Keys && forall g :: g in before ==> LiveIds(after, g) == LiveIds(before, g)
  }

  lemma CommitNothing(gpus: Gpus, p: Config)
    requires AllOwned(gpus) && 0 <= p.requiredReplica
    requires p.gpuUUID in gpus ==> Commit(gpus[p.gpuUUID].gpu, p, {}).config.allocatedReplica <= 0
    ensures SameLiveIds(gpus, Apply(gpus, p.gpuUUID, CommitOp(p)))
  {
    hide Partition, Inv, Commit;
    if p.gpuUUID in gpus {
      CommitIds(gpus[p.gpuUUID].gpu, p);
    }
  }

  /** A scale-up that keeps nothing places nothing. */
  lemma {:induction false} KeepingNothing(gpus: Gpus, plans: seq<Config>)
    requires AllOwned(gpus) && PlansOk(gpus, plans) && KeptGroups(gpus, plans) == []
    ensures SameLiveIds(gpus, CommitGroups(gpus, plans))
    decreases plans
  {
    hide AllOwned, PlansOk, Apply, Commit;
    if plans != [] {
      PlansLater(gpus, plans);
      ApplyOwned(gpus, plans[0].gpuUUID, CommitOp(plans[0]));
      FirstPlan(gpus, plans);
      CommitNothing(gpus, plans[0]);
      KeepingNothing(Apply(gpus, plans[0].gpuUUID, CommitOp(plans[0])), plans[1..]);
    }
  }

  lemma FirstPlan(gpus: Gpus, plans: seq<Config>)
    requires PlansOk(gpus, plans) && plans != []
    ensures 0 <= plans[0].requiredReplica
  {
    assert plans[0] in plans;
  }

  /** A group that is kept makes IDs live that were not. */
  lemma KeepingChanges(gpus: Gpus, plans: seq<Config>, c: Config)
    requires AllOwned(gpus) && PlansOk(gpus, plans) && c in KeptGroups(gpus, plans)
    ensures !SameLiveIds(gpus, CommitGroups(gpus, plans))
  {
    hide KeptGroups, CommitGroups, Inv, Commit;
    var after := CommitGroups(gpus, plans);
    var items := KeptArePlaced(gpus, plans, c);
    KeptPositive(gpus, plans, c);
    CommitGroupsOwned(gpus, plans);
    KeptFromPlan(gpus, plans, c);
    if c.gpuUUID in gpus {
      var g := c.gpuUUID;
      var id := SomeElement(items);
      assert id in LiveIds(after, g);
      if id in LiveIds(gpus, g) {
        var u :| u in gpus[g].held && id in gpus[g].held[u].items;
        HeldStays(gpus, plans, g, u);
      }
    }
  }

  lemma {:induction false} KeptPositive(gpus: Gpus, plans: seq<Config>, c: Config)
    requires c in KeptGroups(gpus, plans)
    ensures 0 < c.allocatedReplica
    decreases plans
  {
    hide Commit, Apply;
    var rest := Apply(gpus, plans[0].gpuUUID, CommitOp(plans[0]));
    if c in KeptGroups(rest, plans[1..]) {
      KeptPositive(rest, plans[1..], c);
    }
  }

  /** Commits leave every group that was on a GPU as it is. */
  lemma {:induction false} HeldStays(gpus: Gpus, plans: seq<Config>, g: string, u: string)
    requires g in gpus && u in gpus[g].held && PlansOk(gpus, plans)
    ensures g in CommitGroups(gpus, plans) && u in CommitGroups(gpus, plans)[g].held
    ensures CommitGroups(gpus, plans)[g].held[u] == gpus[g].held[u]
    decreases plans
  {
    hide Commit, Owned;
    if plans != [] {
      assert plans[0] in plans;
      PlansLater(gpus, plans);
      HeldStays(Apply(gpus, plans[0].gpuUUID, CommitOp(plans[0])), plans[1..], g, u);
    }
  }

  /** How many replicas of a plan fit on its GPU. */
  ghost function Placeable(gpus: Gpus, p: Config): int
    requires p.gpuUUID in gpus
  {
    Min(Attempts(p), MaxInsertable(gpus[p.gpuUUID].gpu.packer, p.quotaReq, p.smPartition))
  }

  /** A test on plans and GPUs: no plan has room for a single replica. */
  ghost predicate NothingFits(gpus: Gpus, plans: seq<Config>) {
    forall p :: p in plans && p.gpuUUID in gpus ==> Placeable(gpus, p) == 0
  }

  /** A commit that places nothing leaves the capacity for every size as it was. */
  lemma CapacityKept(g: Gpu, c: Config, w: real, h: int)
    requires Inv(g.packer) && Min(Attempts(c), MaxInsertable(g.packer, c.quotaReq, c.smPartition)) == 0
    ensures MaxInsertable(Commit(g, c, {}).gpu.packer, w, h) == MaxInsertable(g.packer, w, h)
  {
    hide Inv, Booked, InsertRun;
    PredictorsAgree(g.packer, c.quotaReq, c.smPartition);
    RunStops(g.packer, c.quotaReq, c.smPartition, Attempts(c));
  }

  lemma FirstKept(gpus: Gpus, plans: seq<Config>)
    requires AllOwned(gpus) && plans != []
    ensures var p := plans[0];
      var rest := KeptGroups(Apply(gpus, p.gpuUUID, CommitOp(p)), plans[1..]);
      KeptGroups(gpus, plans) == [] <==> rest == [] && (p.gpuUUID in gpus ==> Placeable(gpus, p) == 0)
  {
    hide Inv, Apply, Placed, Booked, MaxInsertable, Partition;
    if plans[0].gpuUUID in gpus {
      CommitPlacesWhatFits(gpus[plans[0].gpuUUID].gpu, plans[0], {});
      CommitMemory(gpus[plans[0].gpuUUID].gpu, plans[0], {});
    }
  }

  lemma RestFits(gpus: Gpus, p: Config, rest: seq<Config>)
    requires AllOwned(gpus) && (p.gpuUUID in gpus ==> Placeable(gpus, p) == 0)
    ensures NothingFits(Apply(gpus, p.gpuUUID, CommitOp(p)), rest) <==> NothingFits(gpus, rest)
  {
    hide Inv, Partition, Commit, MaxInsertable;
    var gpus' := Apply(gpus, p.gpuUUID, CommitOp(p));
    assert gpus'.Keys == gpus.Keys;
    forall q | q in rest && q.gpuUUID in gpus ensures Placeable(gpus', q) == Placeable(gpus, q) {
      if q.gpuUUID == p.gpuUUID {
        CapacityKept(gpus[p.gpuUUID].gpu, p, q.quotaReq, q.smPartition);
      }
    }
  }

  /** A scale-up keeps nothing exactly if nothing fits. */
  lemma {:induction false} KeepsNothingIff(gpus: Gpus, plans: seq<Config>)
    requires AllOwned(gpus)
    ensures KeptGroups(gpus, plans) == [] <==> NothingFits(gpus, plans)
    decreases plans
  {
    hide AllOwned, Apply, Commit, Placeable;
    if plans != [] {
      var p, rest := plans[0], plans[1..];
      assert p in plans && forall q :: q in plans <==> q == p || q in rest;
      FirstKept(gpus, plans);
      if p.gpuUUID in gpus ==> Placeable(gpus, p) == 0 {
        ApplyOwned(gpus, p.gpuUUID, CommitOp(p));
        KeepsNothingIff(Apply(gpus, p.gpuUUID, CommitOp(p)), rest);
        RestFits(gpus, p, rest);
      }
    }
  }

  /** A scale-up whose pods cannot be created leaves the function as it was; it leaves the live IDs
      of every GPU as they were exactly if no plan has room for a single replica. */
  lemma FailedScaleUpLeaksIff(s: System, e: Event)
    requires Linked(s) && EventOk(s, e) && e.Own? && WantsUp(s.func, e.tick.metrics)
    requires e.tick.up.PodsFailed?
    ensures SystemStep(s, e).func.configs == s.func.configs
    ensures SameLiveIds(s.gpus, SystemStep(s, e).gpus) <==> NothingFits(s.gpus, e.plans)
  {
    hide KeptGroups, CommitGroups, AllOwned, SameLiveIds, PlansOk, NothingFits;
    KeepsNothingIff(s.gpus, e.plans);
    if KeptGroups(s.gpus, e.plans) == [] {
      KeepingNothing(s.gpus, e.plans);
    } else {
      KeepingChanges(s.gpus, e.plans, KeptGroups(s.gpus, e.plans)[0]);
    }
  }

  // ------------------------------------------------------------------ persistence

  /** A group that is placed but not held by the function. */
  ghost predicate Orphaned(s: System, c: Config, items: set<int>) {
    Has(s.gpus, c, items) && c.uuid !in s.func.configs
  }

  /** What a failed scale-up keeps is orphaned, with all its replicas. */
  lemma FailedScaleUpOrphans(s: System, e: Event, c: Config) returns (items: set<int>)
    requires Linked(s) && EventOk(s, e) && e.Own? && WantsUp(s.func, e.tick.metrics)
    requires e.tick.up.PodsFailed? && c in KeptGroups(s.gpus, e.plans)
    ensures Orphaned(SystemStep(s, e), c, items) && |items| == c.allocatedReplica && 0 < |items|
  {
    hide KeptGroups, CommitGroups, AllOwned;
    items := KeptArePlaced(s.gpus, e.plans, c);
    KeptFromPlan(s.gpus, e.plans, c);
    KeptPositive(s.gpus, e.plans, c);
  }

  lemma OrphanUp(s: System, e: Event, c: Config, items: set<int>)
    requires Linked(s) && EventOk(s, e) && e.Own? && WantsUp(s.func, e.tick.metrics)
    requires Orphaned(s, c, items)
    ensures Orphaned(SystemStep(s, e), c, items)
  {
    hide KeptGroups, CommitGroups, AllOwned, Sum, FuncInv;
    CommitGroupsOther(s.gpus, e.plans, c, items);
    OwnFunc(s, e);
    LedgerStaysBehind(s, e);
    var configs := SystemStep(s, e).func.configs;
    if e.tick.up.Added? {
      forall u | u in configs ensures u != c.uuid {
        AddedWhere(s.func.configs, e.tick.up.configs, u);
        KeyIsUuid(SystemStep(s, e).func, u);
        if u !in s.func.configs {
          KeptFromPlan(s.gpus, e.plans, configs[u]);
        }
      }
    }
  }

  lemma OrphanDown(s: System, e: Event, c: Config, items: set<int>)
    requires Linked(s) && EventOk(s, e) && e.Own? && FiresDown(s.func, e.tick.metrics)
    requires Orphaned(s, c, items)
    ensures Orphaned(SystemStep(s, e), c, items)
  {
    hide Sum, Owned, AllOwned, Apply, Removed, Updated, ReleaseGroups, IsPlaced;
    UpdatedShape(s.func, e.tick);
    RemovedApart(s.func, e.tick);
    var updated, removed := Updated(e.tick), Removed(e.tick);
    var mid := ReduceGroups(s.gpus, updated, e.orders);
    if updated != [] {
      var x := updated[0];
      assert x in updated;
      ReduceSingle(s.gpus, updated, e.orders);
      ApplyOther(s.gpus, x.config.gpuUUID,
                 ReduceOp(x.config.uuid, x.newReplica, OrderOf(e.orders, x.config.uuid)), c, items);
    }
    ReleaseGroupsOther(mid, removed, e.orders, c, items);
  }

  lemma OrphanStep(s: System, e: Event, c: Config, items: set<int>)
    requires Linked(s) && EventOk(s, e) && Orphaned(s, c, items)
    requires e.Other? ==> OpUuid(e.op) != c.uuid
    ensures Orphaned(SystemStep(s, e), c, items)
  {
    if e.Other? {
      ApplyOther(s.gpus, e.gpu, e.op, c, items);
    } else if e.Joins? {
      assert c.gpuUUID != e.arrived.uuid;
    } else if WantsUp(s.func, e.tick.metrics) {
      OrphanUp(s, e, c, items);
    } else if FiresDown(s.func, e.tick.metrics) {
      OrphanDown(s, e, c, items);
    }
  }

  /** An orphaned group stays, with the same items, through every run of ticks of the function and of
      other operations that do not name it. */
  lemma {:induction false} OrphansStay(s: System, events: seq<Event>, c: Config, items: set<int>)
    requires Linked(s) && RunFrom(s, events).Some? && Orphaned(s, c, items)
    requires forall e :: e in events && e.Other? ==> OpUuid(e.op) != c.uuid
    ensures Orphaned(RunFrom(s, events).value, c, items)
    decreases |events|
  {
    hide Orphaned, Linked, EventOk, SystemStep;
    if events != [] {
      var n := |events| - 1;
      assert events[n] in events;
      OrphansStay(s, events[..n], c, items);
      OrphanStep(RunFrom(s, events[..n]).value, events[n], c, items);
    }
  }
}

/** One function together with the GPUs it runs on, while other functions use the same GPUs: the
    replicas that are really placed, as opposed to those on record. */
module Cluster {
  import opened Arithmetic
  import opened Configs
  import opened FunctionScaler
  import opened GpuLedger
  import opened MapSums
  import opened Options
  import opened ScaleDown
  import opened Shelves
  import opened ShelfRelease

  type Gpus = map<string, Ledger>

  // ------------------------------------------------- operations on many GPUs

  ghost predicate AllOwned(gpus: Gpus) {
    forall g :: g in gpus ==> Owned(gpus[g])
  }

  function OpUuid(op: Op): string {
    match op
    case CommitOp(c) => c.uuid
    case ReleaseOp(u, _) => u
    case ReduceOp(u, _, _) => u
  }

  ghost function Apply(gpus: Gpus, g: string, op: Op): Gpus {
    if g in gpus && Owned(gpus[g]) && OpOk(gpus[g], op) then gpus[g := LedgerStep(gpus[g], op)] else gpus
  }

  /** A group is placed on its GPU, under its record, with these items. */
  ghost predicate Has(gpus: Gpus, c: Config, items: set<int>) {
    c.gpuUUID in gpus && c.uuid in gpus[c.gpuUUID].held && gpus[c.gpuUUID].held[c.uuid] == Held(c, items)
  }

  lemma ApplyOwned(gpus: Gpus, g: string, op: Op)
    requires AllOwned(gpus)
    ensures AllOwned(Apply(gpus, g, op)) && Apply(gpus, g, op).Keys == gpus.Keys
  {
    hide Owned, LedgerStep, OpOk;
    if g in gpus && OpOk(gpus[g], op) {
      OwnershipStep(gpus[g], op);
    }
  }

  /** Operations on other groups leave a group where it is. */
  lemma ApplyOther(gpus: Gpus, g: string, op: Op, c: Config, items: set<int>)
    requires Has(gpus, c, items) && OpUuid(op) != c.uuid
    ensures Has(Apply(gpus, g, op), c, items)
  {
    hide Owned, Commit, Release, Reduce, Taken;
  }

  /** A reduction keeps the group and takes as many items as its record says, while there are any. */
  lemma ApplyReduce(gpus: Gpus, c: Config, items: set<int>, n: int, order: seq<int>) returns (left: set<int>)
    requires AllOwned(gpus) && Has(gpus, c, items) && Enumerates(order, items)
    ensures Has(Apply(gpus, c.gpuUUID, ReduceOp(c.uuid, n, order)), c, left)
    ensures |items| <= c.allocatedReplica && 0 <= n <= c.allocatedReplica ==>
      |left| == Max(0, |items| - (c.allocatedReplica - n))
  {
    hide Owned, Reduce, Taken;
    left := items - Ids(Taken(c, n, order));
    if |items| <= c.allocatedReplica && 0 <= n <= c.allocatedReplica {
      ReduceMeetsPlan(c, items, n, order);
    }
  }

  // ------------------------------------------------------------ phases of a tick

  /** The commits of a scale-up, one plan after another. */
  ghost function CommitGroups(gpus: Gpus, plans: seq<Config>): Gpus
    decreases plans
  {
    if plans == [] then gpus
    else CommitGroups(Apply(gpus, plans[0].gpuUUID, CommitOp(plans[0])), plans[1..])
  }

  /** The groups a scale-up keeps: those of which at least one replica was placed. */
  ghost function KeptGroups(gpus: Gpus, plans: seq<Config>): seq<Config>
    decreases plans
  {
    if plans == [] then []
    else
      var p := plans[0];
      var rest := KeptGroups(Apply(gpus, p.gpuUUID, CommitOp(p)), plans[1..]);
      if p.gpuUUID in gpus && Commit(gpus[p.gpuUUID].gpu, p, {}).config.allocatedReplica > 0
      then [Commit(gpus[p.gpuUUID].gpu, p, {}).config] + rest
      else rest
  }

  function OrderOf(orders: map<string, seq<int>>, uuid: string): seq<int> {
    if uuid in orders then orders[uuid] else []
  }

  ghost function ReduceGroups(gpus: Gpus, updated: seq<ReduceInfo>, orders: map<string, seq<int>>): Gpus
    decreases updated
  {
    if updated == [] then gpus
    else
      var c := updated[0].config;
      var op := ReduceOp(c.uuid, updated[0].newReplica, OrderOf(orders, c.uuid));
      ReduceGroups(Apply(gpus, c.gpuUUID, op), updated[1..], orders)
  }

  ghost function ReleaseGroups(gpus: Gpus, removed: seq<Config>, orders: map<string, seq<int>>): Gpus
    decreases removed
  {
    if removed == [] then gpus
    else
      var c := removed[0];
      ReleaseGroups(Apply(gpus, c.gpuUUID, ReleaseOp(c.uuid, OrderOf(orders, c.uuid))), removed[1..], orders)
  }

  lemma {:induction false} CommitGroupsOwned(gpus: Gpus, plans: seq<Config>)
    requires AllOwned(gpus)
    ensures AllOwned(CommitGroups(gpus, plans))
    decreases plans
  {
    hide AllOwned, Apply;
    if plans != [] {
      ApplyOwned(gpus, plans[0].gpuUUID, CommitOp(plans[0]));
      CommitGroupsOwned(Apply(gpus, plans[0].gpuUUID, CommitOp(plans[0])), plans[1..]);
    }
  }

  lemma {:induction false} CommitGroupsOther(gpus: Gpus, plans: seq<Config>, c: Config, items: set<int>)
    requires Has(gpus, c, items) && forall p :: p in plans ==> p.uuid != c.uuid
    ensures Has(CommitGroups(gpus, plans), c, items)
    decreases plans
  {
    hide Has, Apply;
    if plans != [] {
      assert plans[0] in plans;
      ApplyOther(gpus, plans[0].gpuUUID, CommitOp(plans[0]), c, items);
      CommitGroupsOther(Apply(gpus, plans[0].gpuUUID, CommitOp(plans[0])), plans[1..], c, items);
    }
  }

  lemma {:induction false} ReleaseGroupsOther(
    gpus: Gpus, removed: seq<Config>, orders: map<string, seq<int>>, c: Config, items: set<int>)
    requires Has(gpus, c, items) && c.uuid !in Uuids(removed)
    ensures Has(ReleaseGroups(gpus, removed, orders), c, items)
    decreases removed
  {
    hide Has, Apply;
    if removed != [] {
      var d, rest := removed[0], removed[1..];
      assert d in removed;
      var op := ReleaseOp(d.uuid, OrderOf(orders, d.uuid));
      ApplyOther(gpus, d.gpuUUID, op, c, items);
      assert c.uuid !in Uuids(rest) by { assert forall e :: e in rest ==> e in removed; }
      ReleaseGroupsOther(Apply(gpus, d.gpuUUID, op), rest, orders, c, items);
    }
  }

  lemma {:induction false} ReleaseGroupsOwned(gpus: Gpus, removed: seq<Config>, orders: map<string, seq<int>>)
    requires AllOwned(gpus)
    ensures AllOwned(ReleaseGroups(gpus, removed, orders))
    decreases removed
  {
    hide AllOwned, Apply;
    if removed != [] {
      var op := ReleaseOp(removed[0].uuid, OrderOf(orders, removed[0].uuid));
      ApplyOwned(gpus, removed[0].gpuUUID, op);
      ReleaseGroupsOwned(Apply(gpus, removed[0].gpuUUID, op), removed[1..], orders);
    }
  }

  ghost predicate Gone(gpus: Gpus, c: Config) {
    c.gpuUUID in gpus ==> c.uuid !in gpus[c.gpuUUID].held
  }

  lemma {:induction false} GoneStays(gpus: Gpus, removed: seq<Config>, orders: map<string, seq<int>>, c: Config)
    requires Gone(gpus, c)
    ensures Gone(ReleaseGroups(gpus, removed, orders), c)
    decreases removed
  {
    hide Owned, OpOk, Release;
    if removed != [] {
      var op := ReleaseOp(removed[0].uuid, OrderOf(orders, removed[0].uuid));
      GoneStays(Apply(gpus, removed[0].gpuUUID, op), removed[1..], orders, c);
    }
  }

  /** Reductions that find their groups: on distinct groups that are placed, with complete orders. */
  ghost predicate ReductionsOk(gpus: Gpus, updated: seq<ReduceInfo>, orders: map<string, seq<int>>) {
    && AllOwned(gpus)
    && (forall i, j :: 0 <= i < j < |updated| ==> updated[i].config.uuid != updated[j].config.uuid)
    && (forall x :: x in updated ==>
          IsPlaced(gpus, x.config) && Enumerates(OrderOf(orders, x.config.uuid), ItemsOf(gpus, x.config)))
  }

  lemma ReductionsLater(gpus: Gpus, updated: seq<ReduceInfo>, orders: map<string, seq<int>>)
    requires ReductionsOk(gpus, updated, orders) && updated != []
    ensures var c := updated[0].config;
      var op := ReduceOp(c.uuid, updated[0].newReplica, OrderOf(orders, c.uuid));
      && c.gpuUUID in gpus && OpOk(gpus[c.gpuUUID], op)
      && ReductionsOk(Apply(gpus, c.gpuUUID, op), updated[1..], orders)
      && (forall x :: x in updated[1..] ==> x in updated && x.config.uuid != c.uuid)
      && (forall x :: x in updated[1..] ==>
            && IsPlaced(Apply(gpus, c.gpuUUID, op), x.config)
            && ItemsOf(Apply(gpus, c.gpuUUID, op), x.config) == ItemsOf(gpus, x.config))
  {
    hide Owned, Reduce, Enumerates, Taken;
    var c, rest := updated[0].config, updated[1..];
    assert updated[0] in updated;
    var op := ReduceOp(c.uuid, updated[0].newReplica, OrderOf(orders, c.uuid));
    ApplyOwned(gpus, c.gpuUUID, op);
    forall x | x in rest
      ensures x in updated && x.config.uuid != c.uuid
      ensures Has(Apply(gpus, c.gpuUUID, op), x.config, ItemsOf(gpus, x.config))
    {
      var i :| 0 <= i < |rest| && rest[i] == x;
      assert updated[i + 1] == x;
      ApplyOther(gpus, c.gpuUUID, op, x.config, ItemsOf(gpus, x.config));
    }
  }

  lemma {:induction false} ReduceGroupsOther(
    gpus: Gpus, updated: seq<ReduceInfo>, orders: map<string, seq<int>>, c: Config, items: set<int>)
    requires Has(gpus, c, items) && forall x :: x in updated ==> x.config.uuid != c.uuid
    ensures Has(ReduceGroups(gpus, updated, orders), c, items)
    decreases updated
  {
    hide Has, Apply;
    if updated != [] {
      var d := updated[0].config;
      assert updated[0] in updated;
      var op := ReduceOp(d.uuid, updated[0].newReplica, OrderOf(orders, d.uuid));
      ApplyOther(gpus, d.gpuUUID, op, c, items);
      ReduceGroupsOther(Apply(gpus, d.gpuUUID, op), updated[1..], orders, c, items);
    }
  }

  lemma {:induction false} ReduceGroupsOwned(gpus: Gpus, updated: seq<ReduceInfo>, orders: map<string, seq<int>>)
    requires AllOwned(gpus)
    ensures AllOwned(ReduceGroups(gpus, updated, orders))
    decreases updated
  {
    hide AllOwned, Apply;
    if updated != [] {
      var d := updated[0].config;
      var op := ReduceOp(d.uuid, updated[0].newReplica, OrderOf(orders, d.uuid));
      ApplyOwned(gpus, d.gpuUUID, op);
      ReduceGroupsOwned(Apply(gpus, d.gpuUUID, op), updated[1..], orders);
    }
  }

  ghost predicate ReleasesOk(gpus: Gpus, removed: seq<Config>, orders: map<string, seq<int>>) {
    && AllOwned(gpus)
    && (forall i, j :: 0 <= i < j < |removed| ==> removed[i].uuid != removed[j].uuid)
    && (forall d :: d in removed ==> exists items :: Has(gpus, d, items) && Enumerates(OrderOf(orders, d.uuid), items))
  }

  lemma ReleasesLater(gpus: Gpus, removed: seq<Config>, orders: map<string, seq<int>>)
    requires ReleasesOk(gpus, removed, orders) && removed != []
    ensures var d := removed[0];
      && d.gpuUUID in gpus && OpOk(gpus[d.gpuUUID], ReleaseOp(d.uuid, OrderOf(orders, d.uuid)))
      && ReleasesOk(Apply(gpus, d.gpuUUID, ReleaseOp(d.uuid, OrderOf(orders, d.uuid))), removed[1..], orders)
  {
    hide Owned, Release, Enumerates;
    var d, rest := removed[0], removed[1..];
    assert d in removed;
    var op := ReleaseOp(d.uuid, OrderOf(orders, d.uuid));
    var gpus' := Apply(gpus, d.gpuUUID, op);
    ApplyOwned(gpus, d.gpuUUID, op);
    forall x | x in rest
      ensures exists items :: Has(gpus', x, items) && Enumerates(OrderOf(orders, x.uuid), items)
    {
      assert x in removed;
      var i :| 0 <= i < |rest| && rest[i] == x;
      assert removed[0].uuid != removed[i + 1].uuid;
      var items :| Has(gpus, x, items) && Enumerates(OrderOf(orders, x.uuid), items);
      ApplyOther(gpus, d.gpuUUID, op, x, items);
    }
  }

  /** Every group to be released is off its GPU afterwards. */
  lemma {:induction false} ReleasedAreGone(gpus: Gpus, removed: seq<Config>, orders: map<string, seq<int>>, c: Config)
    requires ReleasesOk(gpus, removed, orders) && c in removed
    ensures Gone(ReleaseGroups(gpus, removed, orders), c)
    decreases removed
  {
    hide Release, Enumerates;
    var d, rest := removed[0], removed[1..];
    var op := ReleaseOp(d.uuid, OrderOf(orders, d.uuid));
    ReleasesLater(gpus, removed, orders);
    if c == d {
      GoneStays(Apply(gpus, d.gpuUUID, op), rest, orders, c);
    } else {
      ReleasedAreGone(Apply(gpus, d.gpuUUID, op), rest, orders, c);
    }
  }

  /** Plans that may be committed: fresh UUIDs, distinct, with sensible counts. */
  ghost predicate PlansOk(gpus: Gpus, plans: seq<Config>) {
    && (forall p, g :: p in plans && g in gpus ==> p.uuid !in gpus[g].held)
    && (forall i, j :: 0 <= i < j < |plans| ==> plans[i].uuid != plans[j].uuid)
    && (forall p :: p in plans ==> 0 <= p.requiredReplica)
  }

  lemma PlansLater(gpus: Gpus, plans: seq<Config>)
    requires PlansOk(gpus, plans) && plans != []
    ensures PlansOk(Apply(gpus, plans[0].gpuUUID, CommitOp(plans[0])), plans[1..])
  {
    hide Owned, Commit;
    var p, rest := plans[0], plans[1..];
    forall q | q in rest ensures q in plans && q.uuid != p.uuid {
      var i :| 0 <= i < |rest| && rest[i] == q;
      assert plans[i + 1] == q;
    }
  }

  /** Every group kept by a scale-up is placed, with exactly the replicas on its record. */
  lemma {:induction false} KeptArePlaced(gpus: Gpus, plans: seq<Config>, c: Config) returns (items: set<int>)
    requires AllOwned(gpus) && PlansOk(gpus, plans) && c in KeptGroups(gpus, plans)
    ensures Has(CommitGroups(gpus, plans), c, items) && |items| == c.allocatedReplica
    decreases plans
  {
    hide Owned, Commit;
    var p, rest := plans[0], plans[1..];
    var gpus' := Apply(gpus, p.gpuUUID, CommitOp(p));
    ApplyOwned(gpus, p.gpuUUID, CommitOp(p));
    PlansLater(gpus, plans);
    if c in KeptGroups(gpus', rest) {
      items := KeptArePlaced(gpus', rest, c);
    } else {
      assert p in plans;
      items := Commit(gpus[p.gpuUUID].gpu, p, {}).items;
      CommitHas(gpus, p);
      forall q | q in rest ensures q.uuid != c.uuid {
        var i :| 0 <= i < |rest| && rest[i] == q;
        assert plans[i + 1] == q && plans[0] == p;
      }
      CommitGroupsOther(gpus', rest, c, items);
    }
  }

  lemma CommitHas(gpus: Gpus, p: Config)
    requires AllOwned(gpus) && p.gpuUUID in gpus && p.uuid !in gpus[p.gpuUUID].held && 0 <= p.requiredReplica
    ensures var r := Commit(gpus[p.gpuUUID].gpu, p, {});
      && r.config.uuid == p.uuid
      && Has(Apply(gpus, p.gpuUUID, CommitOp(p)), r.config, r.items) && |r.items| == r.config.allocatedReplica
  {
    hide Inv, Partition, Placed, Booked;
    CommitIds(gpus[p.gpuUUID].gpu, p);
  }

  // ------------------------------------------------------------------ the system

  datatype System = System(func: Func, gpus: Gpus)

  /** A tick of the function, with its plans and the iteration orders of the groups it releases; an
      operation of some other function on one of the GPUs; or a new, empty GPU. */
  datatype Event =
    | Own(tick: Tick, plans: seq<Config>, orders: map<string, seq<int>>)
    | Other(gpu: string, op: Op)
    | Joins(arrived: Gpu)

  ghost predicate IsPlaced(gpus: Gpus, c: Config) {
    c.gpuUUID in gpus && c.uuid in gpus[c.gpuUUID].held && gpus[c.gpuUUID].held[c.uuid].config == c
  }

  ghost function ItemsOf(gpus: Gpus, c: Config): set<int>
    requires IsPlaced(gpus, c)
  {
    gpus[c.gpuUUID].held[c.uuid].items
  }

  /** The function's records are consistent, its groups are placed with at most the replicas on
      record, ownership holds on every GPU, and the capacity ledger does not exceed the records. */
  ghost predicate Linked(s: System) {
    && FuncInv(s.func) && AllOwned(s.gpus)
    && (forall u :: u in s.func.configs ==>
          && IsPlaced(s.gpus, s.func.configs[u])
          && |ItemsOf(s.gpus, s.func.configs[u])| <= s.func.configs[u].allocatedReplica)
    && s.func.currentRPSCapacity <= Sum(s.func.configs, Rps)
  }

  /** Replicas of a group of the function that are really placed. */
  ghost function Replicas(s: System, u: string): nat
    requires Linked(s) && u in s.func.configs
  {
    |ItemsOf(s.gpus, s.func.configs[u])|
  }

  /** Every group of the function has as many replicas placed as are on record. */
  ghost predicate Intact(s: System)
    requires Linked(s)
  {
    forall u :: u in s.func.configs ==> Replicas(s, u) == s.func.configs[u].allocatedReplica
  }

  ghost predicate EventOk(s: System, e: Event)
    requires Linked(s)
  {
    match e
    case Other(g, op) => OpUuid(op) !in s.func.configs
    case Joins(g) => g.uuid !in s.gpus && Inv(g.packer) && g.packer.itemLocation == map[]
    case Own(t, plans, orders) =>
      && Admissible(s.func, t)
      && (WantsUp(s.func, t.metrics) ==>
            && PlansOk(s.gpus, plans)
            && (forall p :: p in plans ==> p.uuid !in s.func.configs)
            && (t.up.NoConfigs? ==> plans == [])
            && (t.up.Added? ==> t.up.configs == KeptGroups(s.gpus, plans)))
      && (FiresDown(s.func, t.metrics) ==>
            forall u :: u in s.func.configs ==>
              Enumerates(OrderOf(orders, u), ItemsOf(s.gpus, s.func.configs[u])))
  }

  ghost function SystemStep(s: System, e: Event): System
    requires Linked(s) && EventOk(s, e)
  {
    match e
    case Other(g, op) => System(s.func, Apply(s.gpus, g, op))
    case Joins(g) => System(s.func, s.gpus[g.uuid := Ledger(g, map[])])
    case Own(t, plans, orders) =>
      System(Step(s.func, t),
             if WantsUp(s.func, t.metrics) then CommitGroups(s.gpus, plans)
             else if FiresDown(s.func, t.metrics) then
               ListingConsistent(s.func.configs, t.order);
               ReleaseGroups(ReduceGroups(s.gpus, Updated(t), orders), Removed(t), orders)
             else s.gpus)
  }

  ghost predicate Shrinks(s: System, e: Event)
    requires Linked(s) && EventOk(s, e)
  {
    e.Own? && ShrinksAt(s.func, e.tick)
  }

  /** The partial reductions an event executes. */
  ghost function UpdatedOf(s: System, e: Event): seq<ReduceInfo>
    requires Linked(s) && EventOk(s, e)
  {
    if e.Own? && FiresDown(s.func, e.tick.metrics) then
      ListingConsistent(s.func.configs, e.tick.order);
      Updated(e.tick)
    else []
  }

  /** Replicas taken from a group that has `n` placed: what the record calls for, while there are any. */
  function TakenFrom(c: Config, n: nat, updated: seq<ReduceInfo>): int {
    if |updated| == 1 && updated[0].config == c then Min(n, c.allocatedReplica - updated[0].newReplica) else 0
  }

  /** What an event does to the groups the function holds afterwards: old ones keep their record and
      lose what is taken from them, new ones have all their replicas placed. */
  ghost predicate StepsTo(s: System, e: Event, configs: map<string, Config>, gpus: Gpus)
    requires Linked(s) && EventOk(s, e)
  {
    forall u :: u in configs ==>
      && IsPlaced(gpus, configs[u])
      && (if u in s.func.configs then
            && configs[u] == s.func.configs[u]
            && |ItemsOf(gpus, configs[u])| == Replicas(s, u) - TakenFrom(configs[u], Replicas(s, u), UpdatedOf(s, e))
          else |ItemsOf(gpus, configs[u])| == configs[u].allocatedReplica)
  }

  lemma GroupSomewhere(s: System, u: string)
    requires Linked(s)
    ensures u in s.func.configs ==> exists g :: g in s.gpus && u in s.gpus[g].held
  {
    hide AllOwned, Sum;
    if u in s.func.configs {
      KeyIsUuid(s.func, u);
      assert IsPlaced(s.gpus, s.func.configs[u]);
    }
  }

  /** Plans with UUIDs that are new to the GPUs are new to the function. */
  lemma FreshForFunction(s: System, plans: seq<Config>)
    requires Linked(s) && PlansOk(s.gpus, plans)
    ensures forall p :: p in plans ==> p.uuid !in s.func.configs
  {
    hide Linked;
    forall p | p in plans ensures p.uuid !in s.func.configs {
      GroupSomewhere(s, p.uuid);
    }
  }

  // -------------------------------------------------------------- each kind of step

  lemma LedgerBehind(f: Func, t: Tick)
    requires FuncInv(f) && Admissible(f, t) && f.currentRPSCapacity <= Sum(f.configs, Rps)
    ensures FuncInv(Step(f, t)) && Step(f, t).currentRPSCapacity <= Sum(Step(f, t).configs, Rps)
  {
    hide Step, Drift, Sum, FuncInv, Admissible;
    StepLaw(f, t);
    DriftSign(f, t);
  }

  lemma NoUpdates(s: System, e: Event)
    requires Linked(s) && EventOk(s, e) && !(e.Own? && FiresDown(s.func, e.tick.metrics))
    ensures UpdatedOf(s, e) == []
  {}

  lemma OtherStep(s: System, e: Event)
    requires Linked(s) && EventOk(s, e) && e.Other?
    ensures AllOwned(SystemStep(s, e).gpus) && SystemStep(s, e).func == s.func
    ensures StepsTo(s, e, s.func.configs, SystemStep(s, e).gpus)
  {
    hide Owned, AllOwned, Apply, Sum, FuncInv;
    ApplyOwned(s.gpus, e.gpu, e.op);
    forall u | u in s.func.configs
      ensures Has(Apply(s.gpus, e.gpu, e.op), s.func.configs[u], ItemsOf(s.gpus, s.func.configs[u]))
    {
      KeyIsUuid(s.func, u);
      ApplyOther(s.gpus, e.gpu, e.op, s.func.configs[u], ItemsOf(s.gpus, s.func.configs[u]));
    }
  }

  lemma JoinStep(s: System, e: Event)
    requires Linked(s) && EventOk(s, e) && e.Joins?
    ensures AllOwned(SystemStep(s, e).gpus) && SystemStep(s, e).func == s.func
    ensures StepsTo(s, e, s.func.configs, SystemStep(s, e).gpus)
  {
    hide Owned, Sum, FuncInv;
    NewcomerOwned(e.arrived);
    NoUpdates(s, e);
  }

  lemma NewcomerOwned(g: Gpu)
    requires Inv(g.packer) && g.packer.itemLocation == map[]
    ensures Owned(Ledger(g, map[]))
  {
    hide Inv;
  }

  lemma KeyIsUuid(f: Func, u: string)
    requires FuncInv(f) && u in f.configs
    ensures f.configs[u].uuid == u
  {}

  /** After a scale-up every group of the function is placed: the old ones as before, the new ones
      with all their replicas. */
  lemma UpPlaced(s: System, e: Event, u: string) returns (items: set<int>)
    requires Linked(s) && EventOk(s, e) && e.Own? && WantsUp(s.func, e.tick.metrics)
    requires u in Step(s.func, e.tick).configs
    ensures var c := Step(s.func, e.tick).configs[u];
      && Has(CommitGroups(s.gpus, e.plans), c, items)
      && (if u in s.func.configs then c == s.func.configs[u] && items == ItemsOf(s.gpus, c)
          else |items| == c.allocatedReplica)
  {
    hide AllOwned, PlansOk, CommitGroups, KeptGroups, Sum;
    var c := Step(s.func, e.tick).configs[u];
    if u in s.func.configs {
      if e.tick.up.Added? {
        AddedKeeps(s.func.configs, e.tick.up.configs, u);
      }
      KeyIsUuid(s.func, u);
      items := ItemsOf(s.gpus, c);
      CommitGroupsOther(s.gpus, e.plans, c, items);
    } else {
      AddedWhere(s.func.configs, e.tick.up.configs, u);
      items := KeptArePlaced(s.gpus, e.plans, c);
    }
  }

  lemma UpStep(s: System, e: Event)
    requires Linked(s) && EventOk(s, e) && e.Own? && WantsUp(s.func, e.tick.metrics)
    ensures AllOwned(SystemStep(s, e).gpus)
    ensures StepsTo(s, e, SystemStep(s, e).func.configs, SystemStep(s, e).gpus)
  {
    hide AllOwned, Sum;
    NoUpdates(s, e);
    CommitGroupsOwned(s.gpus, e.plans);
    OwnFunc(s, e);
    var s' := SystemStep(s, e);
    forall u | u in s'.func.configs
      ensures IsPlaced(s'.gpus, s'.func.configs[u])
      ensures if u in s.func.configs
        then s'.func.configs[u] == s.func.configs[u] && |ItemsOf(s'.gpus, s'.func.configs[u])| == Replicas(s, u)
        else |ItemsOf(s'.gpus, s'.func.configs[u])| == s'.func.configs[u].allocatedReplica
    {
      var items := UpPlaced(s, e, u);
    }
  }

  lemma OwnFunc(s: System, e: Event)
    requires Linked(s) && EventOk(s, e) && e.Own?
    ensures SystemStep(s, e).func == Step(s.func, e.tick)
  {}

  /** What the plan of a scale-down tick shrinks: at most one group, to a smaller positive count. */
  lemma UpdatedShape(f: Func, t: Tick)
    requires FuncInv(f) && Admissible(f, t) && FiresDown(f, t.metrics)
    ensures AllConsistent(t.order) && |Updated(t)| <= 1
    ensures forall x :: x in Updated(t) ==>
      && x.config.uuid in f.configs && f.configs[x.config.uuid] == x.config
      && 1 <= x.newReplica < x.config.allocatedReplica
  {
    hide Removable, Shrink, Total;
    ListingConsistent(f.configs, t.order);
    var target := PredictedRate(t.metrics);
    ShrinkShape(t.order, target);
    var u := Shrink(t.order, target);
    if u != [] {
      assert u[0] in u;
      LostOne(t.api, u);
      assert u[0].config in multiset(t.order);
      ValuesWithout(f.configs, u[0].config);
    } else {
      assert UpdatedBy(t.api, u) == [];
    }
  }

  lemma ReduceSingle(gpus: Gpus, updated: seq<ReduceInfo>, orders: map<string, seq<int>>)
    requires |updated| == 1
    ensures var c := updated[0].config;
      ReduceGroups(gpus, updated, orders)
      == Apply(gpus, c.gpuUUID, ReduceOp(c.uuid, updated[0].newReplica, OrderOf(orders, c.uuid)))
  {
    assert updated == [updated[0]] && updated[1..] == [];
  }

  /** After a scale-down every group still held is placed, and has lost exactly what the executed
      plan takes from it. */
  lemma DownPlaced(s: System, e: Event, u: string) returns (items: set<int>)
    requires Linked(s) && EventOk(s, e) && e.Own? && FiresDown(s.func, e.tick.metrics)
    requires u in Step(s.func, e.tick).configs
    ensures AllConsistent(e.tick.order) && u in s.func.configs
    ensures var c := s.func.configs[u];
      && Step(s.func, e.tick).configs[u] == c
      && Has(SystemStep(s, e).gpus, c, items)
      && |items| == Replicas(s, u) - TakenFrom(c, Replicas(s, u), Updated(e.tick))
  {
    hide Sum, Owned, AllOwned, Apply, Removed, Updated, ReleaseGroups;
    UpdatedShape(s.func, e.tick);
    var c, updated := s.func.configs[u], Updated(e.tick);
    items := ItemsOf(s.gpus, c);
    var mid := ReduceGroups(s.gpus, updated, e.orders);
    if updated != [] {
      var x := updated[0];
      assert x in updated;
      ReduceSingle(s.gpus, updated, e.orders);
      var op := ReduceOp(x.config.uuid, x.newReplica, OrderOf(e.orders, x.config.uuid));
      if x.config.uuid == u {
        items := ApplyReduce(s.gpus, c, items, x.newReplica, OrderOf(e.orders, u));
      } else {
        ApplyOther(s.gpus, x.config.gpuUUID, op, c, items);
      }
    }
    ReleaseGroupsOther(mid, Removed(e.tick), e.orders, c, items);
  }

  lemma TwiceInMultiset<T>(s: seq<T>, i: nat, j: nat)
    requires i < j < |s| && s[i] == s[j]
    ensures 2 <= multiset(s)[s[i]]
  {
    assert s == s[..j] + [s[j]] + s[j + 1..];
    assert s[..j][i] == s[i];
    assert s[i] in multiset(s[..j]);
  }

  lemma ListedDistinct(configs: map<string, Config>, list: seq<Config>)
    requires WellKeyed(configs) && multiset(list) <= multiset(configs.Values)
    ensures forall i, j :: 0 <= i < j < |list| ==> list[i].uuid != list[j].uuid
    ensures forall c :: c in list ==> c.uuid in configs && configs[c.uuid] == c
  {
    forall c | c in list ensures c.uuid in configs && configs[c.uuid] == c {
      assert c in multiset(list);
      assert c in configs.Values;
    }
    forall i, j | 0 <= i < j < |list| ensures list[i].uuid != list[j].uuid {
      assert multiset(list)[list[i]] <= multiset(configs.Values)[list[i]] <= 1;
      assert list[i] in list && list[j] in list;
      if list[i] == list[j] {
        TwiceInMultiset(list, i, j);
      }
    }
  }

  lemma DistinctFromLast(configs: map<string, Config>, list: seq<Config>, last: Config)
    requires WellKeyed(configs) && multiset(list) + multiset{last} <= multiset(configs.Values)
    ensures forall c :: c in list ==> c.uuid != last.uuid
  {
    var both := list + [last];
    assert multiset(both) == multiset(list) + multiset{last};
    ListedDistinct(configs, both);
    forall c | c in list ensures c.uuid != last.uuid {
      var i :| 0 <= i < |list| && list[i] == c;
      assert both[i] == c && both[|list|] == last;
    }
  }

  /** The groups removed by a tick are distinct, held, and none of them is the one shrunk. */
  lemma RemovedApart(f: Func, t: Tick)
    requires FuncInv(f) && Admissible(f, t) && FiresDown(f, t.metrics)
    ensures AllConsistent(t.order)
    ensures var removed := Removed(t);
      && (forall i, j :: 0 <= i < j < |removed| ==> removed[i].uuid != removed[j].uuid)
      && (forall c :: c in removed ==> c.uuid in f.configs && f.configs[c.uuid] == c)
      && (forall c, x :: c in removed && x in Updated(t) ==> c.uuid != x.config.uuid)
  {
    ListingConsistent(f.configs, t.order);
    RemovedListed(f, t);
    ListedDistinct(f.configs, Removed(t));
    ShrunkApart(f, t);
  }

  lemma ShrunkApart(f: Func, t: Tick)
    requires FuncInv(f) && IsListing(t.order, f.configs) && AllConsistent(t.order)
    ensures forall c, x :: c in Removed(t) && x in Updated(t) ==> c.uuid != x.config.uuid
  {
    hide Removable, Shrink, Total, RemovedBy, AllConsistent, WellKeyed;
    var target := PredictedRate(t.metrics);
    var k := Removable(t.order, target);
    ShrinkShape(t.order, target);
    var u := Shrink(t.order, target);
    if u != [] {
      assert u[0] in u;
      LostOne(t.api, u);
      PrefixConsistent(t.order, k);
      RemovedIsPart(t.api, t.order[..k]);
      PartPlusLast(t.order, Removed(t));
      DistinctFromLast(f.configs, Removed(t), u[0].config);
    } else {
      assert UpdatedBy(t.api, u) == [];
    }
  }

  lemma PartPlusLast<T>(s: seq<T>, part: seq<T>)
    requires s != [] && multiset(part) <= multiset(s[..|s| - 1])
    ensures multiset(part) + multiset{s[|s| - 1]} <= multiset(s)
  {
    assert s == s[..|s| - 1] + [s[|s| - 1]];
  }

  lemma PrefixConsistent(s: seq<Config>, k: nat)
    requires AllConsistent(s) && k <= |s|
    ensures AllConsistent(s[..k])
  {}

  /** What the reductions of a scale-down find, and then its releases. */
  lemma DownCalls(s: System, e: Event)
    requires Linked(s) && EventOk(s, e) && e.Own? && FiresDown(s.func, e.tick.metrics)
    ensures AllConsistent(e.tick.order) && |Updated(e.tick)| <= 1
    ensures ReductionsOk(s.gpus, Updated(e.tick), e.orders)
    ensures ReleasesOk(ReduceGroups(s.gpus, Updated(e.tick), e.orders), Removed(e.tick), e.orders)
  {
    hide Sum, Apply, Removed, Updated, ReleaseGroups, Enumerates, Owned;
    UpdatedShape(s.func, e.tick);
    RemovedApart(s.func, e.tick);
    var updated, removed := Updated(e.tick), Removed(e.tick);
    var mid := ReduceGroups(s.gpus, updated, e.orders);
    if updated != [] {
      ReduceSingle(s.gpus, updated, e.orders);
      var x := updated[0].config;
      ApplyOwned(s.gpus, x.gpuUUID, ReduceOp(x.uuid, updated[0].newReplica, OrderOf(e.orders, x.uuid)));
    }
    forall d | d in removed
      ensures exists items :: Has(mid, d, items) && Enumerates(OrderOf(e.orders, d.uuid), items)
    {
      var items := ItemsOf(s.gpus, d);
      if updated != [] {
        var x := updated[0].config;
        assert updated[0] in updated;
        ApplyOther(s.gpus, x.gpuUUID, ReduceOp(x.uuid, updated[0].newReplica, OrderOf(e.orders, x.uuid)), d, items);
      }
      assert Has(mid, d, items);
    }
  }

  /** A scale-down takes the groups it removes off their GPUs. */
  lemma RemovedGroupsLeaveGpus(s: System, e: Event, c: Config)
    requires Linked(s) && EventOk(s, e) && e.Own? && FiresDown(s.func, e.tick.metrics)
    requires c in Removed(e.tick)
    ensures Gone(SystemStep(s, e).gpus, c)
  {
    hide Sum, Removed, Updated, ReleaseGroups, ReduceGroups, ReleasesOk, Owned;
    DownCalls(s, e);
    ReleasedAreGone(ReduceGroups(s.gpus, Updated(e.tick), e.orders), Removed(e.tick), e.orders, c);
  }

  lemma DownOwned(s: System, e: Event)
    requires Linked(s) && EventOk(s, e) && e.Own? && FiresDown(s.func, e.tick.metrics)
    ensures AllOwned(SystemStep(s, e).gpus)
  {
    hide Sum, AllOwned, Apply, Removed, Updated;
    UpdatedShape(s.func, e.tick);
    var updated := Updated(e.tick);
    var mid := ReduceGroups(s.gpus, updated, e.orders);
    if updated != [] {
      var x := updated[0];
      ReduceSingle(s.gpus, updated, e.orders);
      ApplyOwned(s.gpus, x.config.gpuUUID, ReduceOp(x.config.uuid, x.newReplica, OrderOf(e.orders, x.config.uuid)));
    }
    ReleaseGroupsOwned(mid, Removed(e.tick), e.orders);
  }

  lemma DownStepTo(s: System, e: Event)
    requires Linked(s) && EventOk(s, e) && e.Own? && FiresDown(s.func, e.tick.metrics)
    ensures AllOwned(SystemStep(s, e).gpus)
    ensures StepsTo(s, e, SystemStep(s, e).func.configs, SystemStep(s, e).gpus)
  {
    hide SystemStep, Step, Sum, AllOwned, Updated, UpdatedOf, FiresDown, FuncInv, EventOk, Linked, Replicas, TakenFrom;
    DownOwned(s, e);
    OwnFunc(s, e);
    DownUpdates(s, e);
    var s' := SystemStep(s, e);
    forall u | u in s'.func.configs
      ensures IsPlaced(s'.gpus, s'.func.configs[u]) && u in s.func.configs
      ensures s'.func.configs[u] == s.func.configs[u]
      ensures |ItemsOf(s'.gpus, s'.func.configs[u])|
           == Replicas(s, u) - TakenFrom(s'.func.configs[u], Replicas(s, u), UpdatedOf(s, e))
    {
      var items := DownPlaced(s, e, u);
    }
  }

  lemma DownUpdates(s: System, e: Event)
    requires Linked(s) && EventOk(s, e) && e.Own? && FiresDown(s.func, e.tick.metrics)
    ensures AllConsistent(e.tick.order) && UpdatedOf(s, e) == Updated(e.tick)
  {
    UpdatedShape(s.func, e.tick);
  }

  lemma NotShrinking(s: System, e: Event)
    requires Linked(s) && EventOk(s, e) && e.Own? && FiresDown(s.func, e.tick.metrics)
    ensures AllConsistent(e.tick.order)
    ensures !Shrinks(s, e) <==> Updated(e.tick) == []
  {
    ShrinksAtIff(s.func, e.tick);
  }

  /** The counts of every event, whatever it is. */
  lemma StepCounts(s: System, e: Event)
    requires Linked(s) && EventOk(s, e)
    ensures AllOwned(SystemStep(s, e).gpus)
    ensures StepsTo(s, e, SystemStep(s, e).func.configs, SystemStep(s, e).gpus)
  {
    if e.Other? {
      OtherStep(s, e);
    } else if e.Joins? {
      JoinStep(s, e);
    } else if WantsUp(s.func, e.tick.metrics) {
      UpStep(s, e);
    } else if FiresDown(s.func, e.tick.metrics) {
      DownStepTo(s, e);
    } else {
      NoUpdates(s, e);
    }
  }

  lemma UpdatedOfShape(s: System, e: Event)
    requires Linked(s) && EventOk(s, e)
    ensures |UpdatedOf(s, e)| <= 1
    ensures forall x :: x in UpdatedOf(s, e) ==>
      && x.config.uuid in s.func.configs && s.func.configs[x.config.uuid] == x.config
      && 1 <= x.newReplica < x.config.allocatedReplica
    ensures Shrinks(s, e) <==> UpdatedOf(s, e) != []
  {
    if e.Own? && FiresDown(s.func, e.tick.metrics) {
      UpdatedShape(s.func, e.tick);
      NotShrinking(s, e);
    }
  }

  /** Every event keeps function and GPUs linked. */
  lemma StepKeepsLinked(s: System, e: Event)
    requires Linked(s) && EventOk(s, e)
    ensures Linked(SystemStep(s, e))
    ensures StepsTo(s, e, SystemStep(s, e).func.configs, SystemStep(s, e).gpus)
  {
    hide SystemStep, Step, Sum, AllOwned, UpdatedOf, FuncInv, EventOk, Shrinks, IsPlaced, TakenFrom;
    StepCounts(s, e);
    UpdatedOfShape(s, e);
    LedgerStaysBehind(s, e);
    forall c, n: nat ensures 0 <= TakenFrom(c, n, UpdatedOf(s, e)) {
      TakenNonNegative(c, n, UpdatedOf(s, e));
    }
  }

  lemma TakenNonNegative(c: Config, n: nat, updated: seq<ReduceInfo>)
    requires forall x :: x in updated ==> x.newReplica < x.config.allocatedReplica
    ensures 0 <= TakenFrom(c, n, updated) <= n
  {
    if |updated| == 1 { assert updated[0] in updated; }
  }

  lemma LedgerStaysBehind(s: System, e: Event)
    requires Linked(s) && EventOk(s, e)
    ensures var f := SystemStep(s, e).func; FuncInv(f) && f.currentRPSCapacity <= Sum(f.configs, Rps)
  {
    hide Sum, AllOwned, FuncInv, Step;
    if e.Own? {
      OwnFunc(s, e);
      LedgerBehind(s.func, e.tick);
    }
  }

  lemma StillHeld(f: Func, t: Tick, c: Config)
    requires FuncInv(f) && Admissible(f, t) && FiresDown(f, t.metrics)
    requires c.uuid in f.configs && f.configs[c.uuid] == c
    requires forall d :: d in Removed(t) ==> d.uuid != c.uuid
    ensures c.uuid in Step(f, t).configs && Step(f, t).configs[c.uuid] == c
  {}

  lemma {:induction false} KeptFromPlan(gpus: Gpus, plans: seq<Config>, c: Config)
    requires c in KeptGroups(gpus, plans)
    ensures exists p :: p in plans && p.uuid == c.uuid
    decreases plans
  {
    hide Commit, Apply;
    var gpus' := Apply(gpus, plans[0].gpuUUID, CommitOp(plans[0]));
    if c in KeptGroups(gpus', plans[1..]) {
      KeptFromPlan(gpus', plans[1..], c);
      var p :| p in plans[1..] && p.uuid == c.uuid;
      assert p in plans;
    } else {
      CommitUuid(gpus[plans[0].gpuUUID].gpu, plans[0]);
      assert plans[0] in plans;
    }
  }

  lemma CommitUuid(g: Gpu, p: Config)
    ensures Commit(g, p, {}).config.uuid == p.uuid
  {}

  // ------------------------------------------------------------------ whole runs

  /** The system after a run of events; `None` if some event is not possible. */
  ghost function RunFrom(s: System, events: seq<Event>): (r: Option<System>)
    requires Linked(s)
    ensures r.Some? ==> Linked(r.value)
  {
    if events == [] then Some(s)
    else
      var n := |events| - 1;
      var t := RunFrom(s, events[..n]);
      if t.None? || !EventOk(t.value, events[n]) then None
      else
        StepKeepsLinked(t.value, events[n]);
        Some(SystemStep(t.value, events[n]))
  }

  lemma NewLinked(gpus: Gpus)
    requires AllOwned(gpus)
    ensures Linked(System(NEW_FUNC, gpus))
  {
    SumNonNegative(NEW_FUNC.configs, Rps);
  }

  /** Runs from a new function on GPUs in any state of ownership. */
  ghost function ReachSystem(gpus: Gpus, events: seq<Event>): (r: Option<System>)
    requires AllOwned(gpus)
    ensures r.Some? ==> Linked(r.value)
  {
    NewLinked(gpus);
    RunFrom(System(NEW_FUNC, gpus), events)
  }

  /** The function's own ticks in a run. */
  ghost function TicksOf(events: seq<Event>): seq<Tick> {
    if events == [] then []
    else
      var n := |events| - 1;
      TicksOf(events[..n]) + (if events[n].Own? then [events[n].tick] else [])
  }

  /** In every run of the system the function goes through the states its own ticks lead to, so what
      holds for runs of ticks holds here. */
  lemma {:induction false} RunOfTicks(gpus: Gpus, events: seq<Event>)
    requires AllOwned(gpus) && ReachSystem(gpus, events).Some?
    ensures Reach(TicksOf(events)) == Some(ReachSystem(gpus, events).value.func)
    decreases |events|
  {
    hide Admissible, Step, FuncInv, AllOwned, Linked;
    if events != [] {
      var n := |events| - 1;
      RunOfTicks(gpus, events[..n]);
      var s := ReachSystem(gpus, events[..n]).value;
      if events[n].Own? {
        OwnTick(s, events[n]);
        var t := events[n].tick;
        assert (TicksOf(events[..n]) + [t])[..|TicksOf(events[..n])|] == TicksOf(events[..n]);
      } else {
        assert TicksOf(events) == TicksOf(events[..n]);
      }
    }
  }

  lemma OwnTick(s: System, e: Event)
    requires Linked(s) && EventOk(s, e) && e.Own?
    ensures FuncInv(s.func) && Admissible(s.func, e.tick) && SystemStep(s, e).func == Step(s.func, e.tick)
  {}

  ghost function ShrunkNow(s: System, e: Event): set<string>
    requires Linked(s) && EventOk(s, e)
  {
    set x | x in UpdatedOf(s, e) :: x.config.uuid
  }

  /** The groups still held that some executed partial reduction of the run has shrunk. */
  ghost function ShrunkHeld(gpus: Gpus, events: seq<Event>): set<string>
    requires AllOwned(gpus) && ReachSystem(gpus, events).Some?
  {
    if events == [] then {}
    else
      var n := |events| - 1;
      var s := ReachSystem(gpus, events[..n]).value;
      (ShrunkHeld(gpus, events[..n]) + ShrunkNow(s, events[n])) * ReachSystem(gpus, events).value.func.configs.Keys
  }

  lemma ShrunkStep(s: System, e: Event, u: string)
    requires Linked(s) && EventOk(s, e)
    requires Linked(SystemStep(s, e)) && u in SystemStep(s, e).func.configs
    ensures var s' := SystemStep(s, e);
      Replicas(s', u) < s'.func.configs[u].allocatedReplica <==>
        u in ShrunkNow(s, e) || (u in s.func.configs && Replicas(s, u) < s.func.configs[u].allocatedReplica)
  {
    hide SystemStep, Sum, AllOwned, UpdatedOf, FuncInv, EventOk, Shrinks, IsPlaced;
    StepCounts(s, e);
    UpdatedOfShape(s, e);
    if u in s.func.configs {
      KeyIsUuidLinked(s, u);
      TakenIff(s.func.configs[u], Replicas(s, u), UpdatedOf(s, e));
    } else {
      assert u !in ShrunkNow(s, e);
    }
  }

  lemma TakenIff(c: Config, n: nat, updated: seq<ReduceInfo>)
    requires |updated| <= 1 && n <= c.allocatedReplica
    requires forall x :: x in updated ==>
      (x.config.uuid == c.uuid ==> x.config == c) && 1 <= x.newReplica < x.config.allocatedReplica
    ensures n - TakenFrom(c, n, updated) < c.allocatedReplica <==>
      n < c.allocatedReplica || c.uuid in (set x | x in updated :: x.config.uuid)
  {
    if updated != [] {
      assert updated == [updated[0]] && updated[0] in updated;
    }
  }

  lemma KeyIsUuidLinked(s: System, u: string)
    requires Linked(s) && u in s.func.configs
    ensures s.func.configs[u].uuid == u
  {
    KeyIsUuid(s.func, u);
  }

  /** Over every run, a group has fewer replicas placed than on record exactly if it was shrunk. */
  lemma {:induction false} ShortIffShrunk(gpus: Gpus, events: seq<Event>)
    requires AllOwned(gpus) && ReachSystem(gpus, events).Some?
    ensures var s := ReachSystem(gpus, events).value;
      && ShrunkHeld(gpus, events) <= s.func.configs.Keys
      && forall u :: u in s.func.configs ==>
           (Replicas(s, u) < s.func.configs[u].allocatedReplica <==> u in ShrunkHeld(gpus, events))
  {
    hide EventOk, SystemStep, AllOwned, Linked, Replicas, ShrunkNow;
    if events != [] {
      var n := |events| - 1;
      ShortIffShrunk(gpus, events[..n]);
      var s := ReachSystem(gpus, events[..n]).value;
      StepKeepsLinked(s, events[n]);
      forall u | u in SystemStep(s, events[n]).func.configs
        ensures var s' := SystemStep(s, events[n]);
          Replicas(s', u) < s'.func.configs[u].allocatedReplica <==>
          u in ShrunkNow(s, events[n]) || (u in s.func.configs && Replicas(s, u) < s.func.configs[u].allocatedReplica)
      {
        ShrunkStep(s, events[n], u);
      }
    }
  }

  /** Records agree with what is placed exactly if no group still held was ever shrunk. */
  lemma IntactIffNoneShrunk(gpus: Gpus, events: seq<Event>)
    requires AllOwned(gpus) && ReachSystem(gpus, events).Some?
    ensures Intact(ReachSystem(gpus, events).value) <==> ShrunkHeld(gpus, events) == {}
  {
    hide ReachSystem, ShrunkHeld, AllOwned;
    ShortIffShrunk(gpus, events);
    var s := ReachSystem(gpus, events).value;
    WithinRecord(s);
    if ShrunkHeld(gpus, events) != {} {
      var u := SomeElement(ShrunkHeld(gpus, events));
    }
  }

  lemma WithinRecord(s: System)
    requires Linked(s)
    ensures forall u :: u in s.func.configs ==> Replicas(s, u) <= s.func.configs[u].allocatedReplica
  {}

  /** Records that agree with what is placed become stale exactly by a partial reduction. */
  lemma StaleIffShrinks(s: System, e: Event)
    requires Linked(s) && Intact(s) && EventOk(s, e)
    ensures Linked(SystemStep(s, e))
    ensures Intact(SystemStep(s, e)) <==> !Shrinks(s, e)
  {
    hide SystemStep, EventOk, AllOwned, Shrinks, UpdatedOf, Linked, Replicas, StepsTo, ShrunkNow;
    StepKeepsLinked(s, e);
    UpdatedOfShape(s, e);
    var s' := SystemStep(s, e);
    WithinRecord(s');
    forall u | u in s'.func.configs
      ensures Replicas(s', u) < s'.func.configs[u].allocatedReplica <==> u in ShrunkNow(s, e)
    {
      ShrunkStep(s, e, u);
    }
    ShrunkNowIff(s, e);
    if Shrinks(s, e) {
      var u := SomeElement(ShrunkNow(s, e));
    }
  }

  lemma ShrunkNowIff(s: System, e: Event)
    requires Linked(s) && EventOk(s, e)
    ensures Shrinks(s, e) <==> ShrunkNow(s, e) != {}
    ensures ShrunkNow(s, e) <= SystemStep(s, e).func.configs.Keys
  {
    hide SystemStep, EventOk, AllOwned, Shrinks, UpdatedOf, Linked;
    UpdatedOfShape(s, e);
    var updated := UpdatedOf(s, e);
    if updated != [] {
      assert updated[0] in updated;
      assert updated[0].config.uuid in ShrunkNow(s, e);
    }
    forall u | u in ShrunkNow(s, e) ensures u in SystemStep(s, e).func.configs {
      var x :| x in updated && x.config.uuid == u;
      ShrunkStillHeld(s, e, x);
    }
  }

  lemma ShrunkStillHeld(s: System, e: Event, x: ReduceInfo)
    requires Linked(s) && EventOk(s, e) && x in UpdatedOf(s, e)
    ensures x.config.uuid in SystemStep(s, e).func.configs
  {
    hide Sum, AllOwned, Updated, Removed, FiresDown, IsPlaced;
    UpdatedShape(s.func, e.tick);
    RemovedApart(s.func, e.tick);
    OwnFunc(s, e);
    StillHeld(s.func, e.tick, x.config);
  }
}

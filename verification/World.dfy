/** All functions together on the same GPUs: who owns the replicas that are placed. */
module Worlds {
  import opened Cluster
  import opened Configs
  import opened FunctionScaler
  import opened GpuLedger
  import opened MapSums
  import opened Options
  import opened Orphans
  import opened PlacedCapacity
  import opened ScaleDown
  import opened Shelves

  datatype World = World(funcs: map<string, Func>, gpus: Gpus)

  /** A tick of one function, with its plans and iteration orders; the deletion of a function, with the
      order in which its groups and their items are visited; or a new, empty GPU. */
  datatype Happening =
    | Turn(name: string, tick: Tick, plans: seq<Config>, orders: map<string, seq<int>>)
    | Deletion(name: string, list: seq<Config>, orders: map<string, seq<int>>)
    | Arrival(gpu: Gpu)

  function FuncOf(w: World, name: string): Func {
    if name in w.funcs then w.funcs[name] else NEW_FUNC
  }

  /** The world as one of its functions sees it. */
  function View(w: World, name: string): System { System(FuncOf(w, name), w.gpus) }

  /** Every function is linked to its groups, and no group is held twice. */
  ghost predicate WorldInv(w: World) {
    && AllOwned(w.gpus)
    && (forall n :: n in w.funcs ==> Linked(View(w, n)))
    && (forall n, m :: n in w.funcs && m in w.funcs && n != m ==> w.funcs[n].configs.Keys !! w.funcs[m].configs.Keys)
  }

  lemma ViewLinked(w: World, name: string)
    requires WorldInv(w)
    ensures Linked(View(w, name))
  {
    hide Linked, AllOwned;
    if name !in w.funcs {
      NewLinked(w.gpus);
    }
  }

  /** Who acts: a function, or nobody in particular. */
  function Actor(h: Happening): string {
    if h.Arrival? then "" else h.name
  }

  function EventOf(h: Happening): Event
    requires !h.Deletion?
  {
    match h
    case Turn(_, t, plans, orders) => Own(t, plans, orders)
    case Arrival(g) => Joins(g)
  }

  /** The deletion of a function reduces every group of it to no replica. */
  function ToNothing(list: seq<Config>): seq<ReduceInfo> {
    if list == [] then [] else [ReduceInfo(list[0], 0, 0.0)] + ToNothing(list[1..])
  }

  ghost predicate HappeningOk(w: World, h: Happening)
    requires WorldInv(w)
  {
    ViewLinked(w, Actor(h));
    if h.Deletion? then
      && h.name in w.funcs && IsListing(h.list, w.funcs[h.name].configs)
      && forall u :: u in w.funcs[h.name].configs ==>
           Enumerates(OrderOf(h.orders, u), ItemsOf(w.gpus, w.funcs[h.name].configs[u]))
    else EventOk(View(w, Actor(h)), EventOf(h))
  }

  ghost function WorldStep(w: World, h: Happening): World
    requires WorldInv(w) && HappeningOk(w, h)
  {
    ViewLinked(w, Actor(h));
    match h
    case Turn(name, _, _, _) =>
      var s := SystemStep(View(w, name), EventOf(h));
      World(w.funcs[name := s.func], s.gpus)
    case Deletion(name, list, orders) =>
      World(w.funcs - {name}, ReduceGroups(w.gpus, ToNothing(list), orders))
    case Arrival(_) =>
      World(w.funcs, SystemStep(View(w, ""), EventOf(h)).gpus)
  }

  // ------------------------------------------------------- a step, for the others

  /** A group that is not the acting function's stays placed, with the same items. */
  lemma OthersStay(s: System, e: Event, c: Config, items: set<int>)
    requires Linked(s) && EventOk(s, e) && !e.Other? && Orphaned(s, c, items)
    ensures Orphaned(SystemStep(s, e), c, items)
  {
    OrphanStep(s, e, c, items);
  }

  /** What another function sees of a step: its own record is untouched, it stays linked with the same
      replicas, and the acting function takes none of its groups. */
  lemma OtherView(f: Func, s: System, e: Event)
    requires Linked(System(f, s.gpus)) && Linked(s) && EventOk(s, e) && !e.Other?
    requires f.configs.Keys !! s.func.configs.Keys
    ensures Linked(System(f, SystemStep(s, e).gpus))
    ensures f.configs.Keys !! SystemStep(s, e).func.configs.Keys
    ensures forall u :: u in f.configs ==>
      Replicas(System(f, SystemStep(s, e).gpus), u) == Replicas(System(f, s.gpus), u)
  {
    hide SystemStep, EventOk, Sum, FuncInv, AllOwned;
    StepKeepsLinked(s, e);
    forall u | u in f.configs
      ensures Orphaned(SystemStep(s, e), f.configs[u], ItemsOf(s.gpus, f.configs[u])) && f.configs[u].uuid == u
    {
      KeyIsUuid(f, u);
      OthersStay(s, e, f.configs[u], ItemsOf(s.gpus, f.configs[u]));
    }
  }

  lemma TurnKeepsWorld(w: World, h: Happening)
    requires WorldInv(w) && HappeningOk(w, h) && !h.Deletion?
    ensures WorldInv(WorldStep(w, h))
  {
    hide SystemStep, EventOk, Linked, AllOwned;
    ViewLinked(w, Actor(h));
    var s, e := View(w, Actor(h)), EventOf(h);
    StepKeepsLinked(s, e);
    LinkedOwned(SystemStep(s, e));
    forall n | n in w.funcs && (h.Turn? ==> n != Actor(h))
      ensures Linked(System(w.funcs[n], SystemStep(s, e).gpus))
      ensures h.Turn? ==> w.funcs[n].configs.Keys !! SystemStep(s, e).func.configs.Keys
    {
      if h.Arrival? {
        ArrivalView(w, n, h);
      } else {
        OtherView(w.funcs[n], s, e);
      }
    }
  }

  /** Every happening keeps the world's invariant. */
  lemma StepKeepsWorld(w: World, h: Happening)
    requires WorldInv(w) && HappeningOk(w, h)
    ensures WorldInv(WorldStep(w, h))
  {
    hide WorldInv, HappeningOk, WorldStep;
    if h.Deletion? {
      DeletionKeepsWorld(w, h);
    } else {
      TurnKeepsWorld(w, h);
    }
  }

  // ------------------------------------------------------------ deleting a function

  lemma {:induction false} ToNothingOf(list: seq<Config>)
    ensures |ToNothing(list)| == |list|
    ensures forall i :: 0 <= i < |list| ==> ToNothing(list)[i] == ReduceInfo(list[i], 0, 0.0)
  {
    if list != [] {
      ToNothingOf(list[1..]);
    }
  }

  /** The groups listed by a deletion are exactly those of the function, each once. */
  lemma DeletionList(w: World, h: Happening)
    requires WorldInv(w) && HappeningOk(w, h) && h.Deletion?
    ensures h.name in w.funcs
    ensures forall i, j :: 0 <= i < j < |h.list| ==> h.list[i].uuid != h.list[j].uuid
    ensures forall c :: c in h.list ==> c.uuid in w.funcs[h.name].configs && w.funcs[h.name].configs[c.uuid] == c
    ensures forall u :: u in w.funcs[h.name].configs ==> w.funcs[h.name].configs[u] in h.list
  {
    hide AllOwned, Enumerates, Sum;
    var configs := w.funcs[h.name].configs;
    assert Linked(View(w, h.name));
    ListedDistinct(configs, h.list);
    forall u | u in configs ensures configs[u] in h.list {
      assert configs[u] in multiset(configs.Values);
    }
  }

  /** The calls of a deletion find the groups: distinct, placed, with no more items than on record. */
  lemma DeletionCalls(w: World, h: Happening)
    requires WorldInv(w) && HappeningOk(w, h) && h.Deletion?
    ensures h.name in w.funcs
    ensures ReductionsOk(w.gpus, ToNothing(h.list), h.orders)
    ensures forall x :: x in ToNothing(h.list) ==>
      && x.newReplica == 0 && IsPlaced(w.gpus, x.config)
      && |ItemsOf(w.gpus, x.config)| <= x.config.allocatedReplica
      && x.config.uuid in w.funcs[h.name].configs && w.funcs[h.name].configs[x.config.uuid] == x.config
    ensures forall u :: u in w.funcs[h.name].configs ==>
      exists x :: x in ToNothing(h.list) && x.config == w.funcs[h.name].configs[u]
  {
    hide AllOwned, Enumerates, Linked, IsListing, IsPlaced, ToNothing;
    DeletionList(w, h);
    var configs, updated := w.funcs[h.name].configs, ToNothing(h.list);
    ToNothingOf(h.list);
    forall x | x in updated
      ensures x.newReplica == 0 && x.config in h.list && IsPlaced(w.gpus, x.config)
      ensures |ItemsOf(w.gpus, x.config)| <= x.config.allocatedReplica
    {
      var i :| 0 <= i < |updated| && updated[i] == x;
      GroupPlaced(w, h.name, x.config.uuid);
    }
    forall u | u in configs ensures exists x :: x in updated && x.config == configs[u] {
      var i :| 0 <= i < |h.list| && h.list[i] == configs[u];
      assert updated[i] in updated;
    }
  }

  /** A group reduced to nothing has no item left. */
  lemma {:induction false} Emptied(gpus: Gpus, updated: seq<ReduceInfo>, orders: map<string, seq<int>>, x: ReduceInfo)
    requires ReductionsOk(gpus, updated, orders) && x in updated
    requires forall y :: y in updated ==>
      y.newReplica == 0 && IsPlaced(gpus, y.config) && |ItemsOf(gpus, y.config)| <= y.config.allocatedReplica
    ensures Has(ReduceGroups(gpus, updated, orders), x.config, {})
    decreases updated
  {
    hide Apply, AllOwned, Enumerates, IsPlaced;
    var c, rest := updated[0].config, updated[1..];
    assert updated[0] in updated;
    ReductionsLater(gpus, updated, orders);
    var next := Apply(gpus, c.gpuUUID, ReduceOp(c.uuid, updated[0].newReplica, OrderOf(orders, c.uuid)));
    if x == updated[0] {
      PlacedHas(gpus, c);
      var left := ApplyReduce(gpus, c, ItemsOf(gpus, c), 0, OrderOf(orders, c.uuid));
      assert left == {};
      ReduceGroupsOther(next, rest, orders, c, left);
    } else {
      Emptied(next, rest, orders, x);
    }
  }

  lemma PlacedHas(gpus: Gpus, c: Config)
    requires IsPlaced(gpus, c)
    ensures Has(gpus, c, ItemsOf(gpus, c))
  {}

  /** A group of nobody or of another function stays placed, with the same items. */
  lemma DeletionOther(w: World, h: Happening, c: Config)
    requires WorldInv(w) && HappeningOk(w, h) && h.Deletion?
    requires IsPlaced(w.gpus, c) && c.uuid !in w.funcs[h.name].configs
    ensures Has(WorldStep(w, h).gpus, c, ItemsOf(w.gpus, c))
  {
    hide WorldInv, HappeningOk;
    DeletionCalls(w, h);
    PlacedHas(w.gpus, c);
    ReduceGroupsOther(w.gpus, ToNothing(h.list), h.orders, c, ItemsOf(w.gpus, c));
  }

  lemma DeletionView(w: World, h: Happening, n: string)
    requires WorldInv(w) && HappeningOk(w, h) && h.Deletion? && n in w.funcs && n != h.name
    ensures Linked(System(w.funcs[n], WorldStep(w, h).gpus))
  {
    hide HappeningOk, WorldStep, AllOwned, Sum, FuncInv;
    assert Linked(View(w, n));
    DeletionOwned(w, h);
    forall u | u in w.funcs[n].configs
      ensures Has(WorldStep(w, h).gpus, w.funcs[n].configs[u], ItemsOf(w.gpus, w.funcs[n].configs[u]))
    {
      GroupPlaced(w, n, u);
      DeletionOther(w, h, w.funcs[n].configs[u]);
    }
  }

  lemma DeletionOwned(w: World, h: Happening)
    requires WorldInv(w) && HappeningOk(w, h) && h.Deletion?
    ensures h.name in w.funcs && AllOwned(WorldStep(w, h).gpus)
  {
    hide AllOwned;
    ReduceGroupsOwned(w.gpus, ToNothing(h.list), h.orders);
  }

  /** The deletion of a function frees every item of its groups and leaves all others as they are. */
  lemma DeletionKeepsWorld(w: World, h: Happening)
    requires WorldInv(w) && HappeningOk(w, h) && h.Deletion?
    ensures WorldInv(WorldStep(w, h))
    ensures forall u :: u in w.funcs[h.name].configs ==> Has(WorldStep(w, h).gpus, w.funcs[h.name].configs[u], {})
    ensures forall n :: n in w.funcs && n != h.name ==>
      && n in WorldStep(w, h).funcs && WorldStep(w, h).funcs[n] == w.funcs[n]
      && forall u :: u in w.funcs[n].configs ==>
           Has(WorldStep(w, h).gpus, w.funcs[n].configs[u], ItemsOf(w.gpus, w.funcs[n].configs[u]))
  {
    hide Linked, AllOwned, ReduceGroups, Has;
    DeletionOwned(w, h);
    DeletionCalls(w, h);
    forall u | u in w.funcs[h.name].configs ensures Has(WorldStep(w, h).gpus, w.funcs[h.name].configs[u], {}) {
      var x :| x in ToNothing(h.list) && x.config == w.funcs[h.name].configs[u];
      Emptied(w.gpus, ToNothing(h.list), h.orders, x);
    }
    forall n | n in w.funcs && n != h.name ensures Linked(System(w.funcs[n], WorldStep(w, h).gpus)) {
      DeletionView(w, h, n);
    }
    forall n, u | n in w.funcs && n != h.name && u in w.funcs[n].configs
      ensures IsPlaced(w.gpus, w.funcs[n].configs[u])
    {
      GroupPlaced(w, n, u);
    }
    forall n, u | n in w.funcs && n != h.name && u in w.funcs[n].configs
      ensures Has(WorldStep(w, h).gpus, w.funcs[n].configs[u], ItemsOf(w.gpus, w.funcs[n].configs[u]))
    {
      GroupPlaced(w, n, u);
      DeletionOther(w, h, w.funcs[n].configs[u]);
    }
  }

  lemma GroupPlaced(w: World, n: string, u: string)
    requires WorldInv(w) && n in w.funcs && u in w.funcs[n].configs
    ensures IsPlaced(w.gpus, w.funcs[n].configs[u]) && w.funcs[n].configs[u].uuid == u
    ensures |ItemsOf(w.gpus, w.funcs[n].configs[u])| <= w.funcs[n].configs[u].allocatedReplica
  {
    hide AllOwned, Sum;
    assert Linked(View(w, n));
    KeyIsUuid(w.funcs[n], u);
  }

  lemma LinkedOwned(s: System)
    requires Linked(s)
    ensures AllOwned(s.gpus)
  {}

  lemma ArrivalView(w: World, n: string, h: Happening)
    requires WorldInv(w) && HappeningOk(w, h) && h.Arrival? && n in w.funcs
    ensures EventOk(View(w, n), EventOf(h))
    ensures Linked(System(w.funcs[n], WorldStep(w, h).gpus))
    ensures SystemStep(View(w, n), EventOf(h)) == System(w.funcs[n], WorldStep(w, h).gpus)
  {
    hide Linked, Inv, AllOwned;
    ViewLinked(w, n);
    ViewLinked(w, "");
    StepKeepsLinked(View(w, n), EventOf(h));
  }

  // ------------------------------------------------------------------ whole runs

  /** Runs from GPUs with nothing on them and no function. */
  ghost function RunWorld(gpus: Gpus, run: seq<Happening>): (r: Option<World>)
    requires Untouched(gpus)
    ensures r.Some? ==> WorldInv(r.value)
  {
    if run == [] then Some(World(map[], gpus))
    else
      var n := |run| - 1;
      var w := RunWorld(gpus, run[..n]);
      if w.None? || !HappeningOk(w.value, run[n]) then None
      else
        StepKeepsWorld(w.value, run[n]);
        Some(WorldStep(w.value, run[n]))
  }

  ghost predicate Untouched(gpus: Gpus) {
    AllOwned(gpus) && forall g :: g in gpus ==> gpus[g].held == map[]
  }

  // --------------------------------------------------------- who owns what is placed

  /** The groups that a failed scale-up leaves behind. */
  ghost function LeakedNow(s: System, e: Event): set<Config>
    requires Linked(s) && EventOk(s, e)
  {
    if e.Own? && WantsUp(s.func, e.tick.metrics) && e.tick.up.PodsFailed?
    then set c | c in KeptGroups(s.gpus, e.plans) else {}
  }

  ghost function LeakedBy(w: World, h: Happening): set<Config>
    requires WorldInv(w) && HappeningOk(w, h)
  {
    ViewLinked(w, Actor(h));
    if h.Deletion? then {} else LeakedNow(View(w, Actor(h)), EventOf(h))
  }

  /** All groups that failed scale-ups of a run left behind. */
  ghost function Leaked(gpus: Gpus, run: seq<Happening>): set<Config>
    requires Untouched(gpus) && RunWorld(gpus, run).Some?
  {
    if run == [] then {}
    else
      var n := |run| - 1;
      Leaked(gpus, run[..n]) + LeakedBy(RunWorld(gpus, run[..n]).value, run[n])
  }

  ghost predicate HeldBySome(w: World, c: Config) {
    exists n :: n in w.funcs && c.uuid in w.funcs[n].configs && w.funcs[n].configs[c.uuid] == c
  }

  /** A leaked group is placed with all its replicas, and no function holds it. */
  ghost predicate IsLeaked(w: World, c: Config) {
    && IsPlaced(w.gpus, c) && 0 < |ItemsOf(w.gpus, c)| == c.allocatedReplica
    && forall n :: n in w.funcs ==> c.uuid !in w.funcs[n].configs
  }

  /** A group with replicas placed is held by a function or leaked. */
  ghost predicate Owner(w: World, leaked: set<Config>, g: string, u: string, c: Config) {
    c.uuid == u && c.gpuUUID == g && (c in leaked || HeldBySome(w, c))
  }

  ghost predicate Accounted(w: World, leaked: set<Config>) {
    && (forall c :: c in leaked ==> IsLeaked(w, c))
    && (forall g, u :: g in w.gpus && u in w.gpus[g].held && w.gpus[g].held[u].items != {} ==>
          exists c :: Owner(w, leaked, g, u, c))
  }

  // ------------------------------------------- where the groups on the GPUs come from

  /** No group is new, and none has more items than before. */
  ghost predicate Within(after: Gpus, before: Gpus) {
    && after.Keys == before.Keys
    && (forall g, u :: g in after && u in after[g].held ==>
          u in before[g].held && after[g].held[u].items <= before[g].held[u].items)
  }

  lemma ApplyWithin(gpus: Gpus, g: string, op: Op)
    requires !op.CommitOp?
    ensures Within(Apply(gpus, g, op), gpus)
  {
    hide Owned, Release, Reduce, Taken, Enumerates;
  }

  lemma WithinTrans(a: Gpus, b: Gpus, c: Gpus)
    requires Within(a, b) && Within(b, c)
    ensures Within(a, c)
  {}

  lemma {:induction false} ReleaseWithin(gpus: Gpus, removed: seq<Config>, orders: map<string, seq<int>>)
    ensures Within(ReleaseGroups(gpus, removed, orders), gpus)
    decreases removed
  {
    hide Apply, Within;
    if removed == [] {
      WithinSelf(gpus);
    } else {
      var op := ReleaseOp(removed[0].uuid, OrderOf(orders, removed[0].uuid));
      var next := Apply(gpus, removed[0].gpuUUID, op);
      ApplyWithin(gpus, removed[0].gpuUUID, op);
      ReleaseWithin(next, removed[1..], orders);
      WithinTrans(ReleaseGroups(gpus, removed, orders), next, gpus);
    }
  }

  lemma WithinSelf(gpus: Gpus)
    ensures Within(gpus, gpus)
  {}

  lemma {:induction false} ReduceWithin(gpus: Gpus, updated: seq<ReduceInfo>, orders: map<string, seq<int>>)
    ensures Within(ReduceGroups(gpus, updated, orders), gpus)
    decreases updated
  {
    hide Apply, Within;
    if updated == [] {
      WithinSelf(gpus);
    } else {
      var c := updated[0].config;
      var op := ReduceOp(c.uuid, updated[0].newReplica, OrderOf(orders, c.uuid));
      var next := Apply(gpus, c.gpuUUID, op);
      ApplyWithin(gpus, c.gpuUUID, op);
      ReduceWithin(next, updated[1..], orders);
      WithinTrans(ReduceGroups(gpus, updated, orders), next, gpus);
    }
  }

  /** A group with replicas after some commits was there before, or is one of those kept. */
  ghost predicate Origin(gpus: Gpus, plans: seq<Config>, g: string, u: string) {
    || (g in gpus && u in gpus[g].held && g in CommitGroups(gpus, plans) && u in CommitGroups(gpus, plans)[g].held
        && CommitGroups(gpus, plans)[g].held[u] == gpus[g].held[u])
    || exists c :: c in KeptGroups(gpus, plans) && c.uuid == u && c.gpuUUID == g
  }

  lemma {:induction false} CommitOrigin(gpus: Gpus, plans: seq<Config>, g: string, u: string)
    requires AllOwned(gpus) && PlansOk(gpus, plans)
    requires g in CommitGroups(gpus, plans) && u in CommitGroups(gpus, plans)[g].held
    requires CommitGroups(gpus, plans)[g].held[u].items != {}
    ensures Origin(gpus, plans, g, u)
    decreases plans
  {
    hide Apply, Commit, AllOwned, PlansOk;
    if plans != [] {
      var p, rest := plans[0], plans[1..];
      var next := Apply(gpus, p.gpuUUID, CommitOp(p));
      PlansLater(gpus, plans);
      ApplyOwned(gpus, p.gpuUUID, CommitOp(p));
      CommitOrigin(next, rest, g, u);
      if c :| c in KeptGroups(next, rest) && c.uuid == u && c.gpuUUID == g {
        assert c in KeptGroups(gpus, plans);
      } else {
        assert next[g].held[u].items != {};
        FirstOrigin(gpus, plans, g, u);
      }
    }
  }

  lemma FirstOrigin(gpus: Gpus, plans: seq<Config>, g: string, u: string)
    requires AllOwned(gpus) && PlansOk(gpus, plans) && plans != []
    requires var next := Apply(gpus, plans[0].gpuUUID, CommitOp(plans[0]));
      g in next && u in next[g].held && next[g].held[u].items != {}
    ensures var next := Apply(gpus, plans[0].gpuUUID, CommitOp(plans[0]));
      || (g in gpus && u in gpus[g].held && next[g].held[u] == gpus[g].held[u])
      || exists c :: c in KeptGroups(gpus, plans) && c.uuid == u && c.gpuUUID == g
  {
    hide Inv, Partition, Placed, Booked, KeptGroups;
    var p := plans[0];
    assert p in plans;
    if g == p.gpuUUID && u == p.uuid {
      CommitIds(gpus[g].gpu, p);
      KeptHead(gpus, plans);
    }
  }

  lemma KeptHead(gpus: Gpus, plans: seq<Config>)
    requires plans != [] && plans[0].gpuUUID in gpus
    requires Commit(gpus[plans[0].gpuUUID].gpu, plans[0], {}).config.allocatedReplica > 0
    ensures var c := Commit(gpus[plans[0].gpuUUID].gpu, plans[0], {}).config;
      c in KeptGroups(gpus, plans) && c.uuid == plans[0].uuid && c.gpuUUID == plans[0].gpuUUID
  {}

  // ------------------------------------------------------- accounting for one step

  /** After a step, a group with replicas was there before and, if the acting function held it, still
      is held; or the function holds it now, or it has just been leaked. */
  ghost predicate Explained(s: System, e: Event, g: string, u: string)
    requires Linked(s) && EventOk(s, e)
  {
    || (g in s.gpus && u in s.gpus[g].held && s.gpus[g].held[u].items != {} &&
        (u in s.func.configs && s.func.configs[u].gpuUUID == g ==>
           u in SystemStep(s, e).func.configs && SystemStep(s, e).func.configs[u] == s.func.configs[u]))
    || (u in SystemStep(s, e).func.configs && SystemStep(s, e).func.configs[u].gpuUUID == g)
    || exists c :: c in LeakedNow(s, e) && c.uuid == u && c.gpuUUID == g
  }

  lemma UpExplained(s: System, e: Event, g: string, u: string)
    requires Linked(s) && EventOk(s, e) && e.Own? && WantsUp(s.func, e.tick.metrics)
    requires var after := SystemStep(s, e).gpus; g in after && u in after[g].held && after[g].held[u].items != {}
    ensures Explained(s, e, g, u)
  {
    hide AllOwned, PlansOk, KeptGroups, CommitGroups, Sum;
    CommitOrigin(s.gpus, e.plans, g, u);
    OwnFunc(s, e);
    if c :| c in KeptGroups(s.gpus, e.plans) && c.uuid == u && c.gpuUUID == g {
      if e.tick.up.Added? {
        AddedIn(s.func.configs, e.tick.up.configs, c);
      } else if e.tick.up.NoConfigs? {
        NothingKept(s.gpus);
      } else {
        assert c in LeakedNow(s, e);
      }
    } else if u in s.func.configs && e.tick.up.Added? {
      AddedKeeps(s.func.configs, e.tick.up.configs, u);
    }
  }

  lemma NothingKept(gpus: Gpus)
    ensures KeptGroups(gpus, []) == []
  {}

  lemma DownExplained(s: System, e: Event, g: string, u: string)
    requires Linked(s) && EventOk(s, e) && e.Own? && FiresDown(s.func, e.tick.metrics)
    requires var after := SystemStep(s, e).gpus; g in after && u in after[g].held && after[g].held[u].items != {}
    ensures Explained(s, e, g, u)
  {
    hide AllOwned, Sum, Removed, Updated, ReduceGroups, ReleaseGroups, FiresDown, Step;
    NeverBoth(s.func, e.tick.metrics);
    UpdatedShape(s.func, e.tick);
    var updated, removed := Updated(e.tick), Removed(e.tick);
    var mid := ReduceGroups(s.gpus, updated, e.orders);
    ReduceWithin(s.gpus, updated, e.orders);
    ReleaseWithin(mid, removed, e.orders);
    OwnFunc(s, e);
    DownKeys(s, e);
    if u in s.func.configs && s.func.configs[u].gpuUUID == g && u in Uuids(removed) {
      RemovedApart(s.func, e.tick);
      var c :| c in removed && c.uuid == u;
      RemovedGroupsLeaveGpus(s, e, c);
    }
  }

  lemma StepExplained(s: System, e: Event, g: string, u: string)
    requires Linked(s) && EventOk(s, e) && !e.Other?
    requires var after := SystemStep(s, e).gpus; g in after && u in after[g].held && after[g].held[u].items != {}
    ensures Explained(s, e, g, u)
  {
    if e.Own? && WantsUp(s.func, e.tick.metrics) {
      UpExplained(s, e, g, u);
    } else if e.Own? && FiresDown(s.func, e.tick.metrics) {
      DownExplained(s, e, g, u);
    }
  }

  lemma OldLeakStays(w: World, h: Happening, c: Config)
    requires WorldInv(w) && HappeningOk(w, h) && IsLeaked(w, c)
    ensures IsLeaked(WorldStep(w, h), c) && ItemsOf(WorldStep(w, h).gpus, c) == ItemsOf(w.gpus, c)
  {
    hide SystemStep, EventOk, Linked, AllOwned, ReduceGroups;
    ViewLinked(w, Actor(h));
    if h.Deletion? {
      DeletionOther(w, h, c);
    } else {
      OthersStay(View(w, Actor(h)), EventOf(h), c, ItemsOf(w.gpus, c));
    }
  }

  lemma HeldSomewhere(w: World, n: string, u: string)
    requires WorldInv(w)
    ensures n in w.funcs && u in w.funcs[n].configs ==> exists g :: g in w.gpus && u in w.gpus[g].held
  {
    hide AllOwned, Linked;
    if n in w.funcs {
      GroupSomewhere(View(w, n), u);
    }
  }

  lemma NewLeak(w: World, h: Happening, c: Config)
    requires WorldInv(w) && HappeningOk(w, h) && c in LeakedBy(w, h)
    ensures IsLeaked(WorldStep(w, h), c)
  {
    hide SystemStep, AllOwned, KeptGroups, FuncInv, Linked;
    ViewLinked(w, h.name);
    var s, e := View(w, h.name), EventOf(h);
    var items := FailedScaleUpOrphans(s, e, c);
    KeptFromPlan(s.gpus, e.plans, c);
    forall n | n in w.funcs && n != h.name ensures c.uuid !in w.funcs[n].configs {
      HeldSomewhere(w, n, c.uuid);
    }
  }

  lemma OwnerAfter(w: World, h: Happening, leaked: set<Config>, g: string, u: string) returns (c: Config)
    requires WorldInv(w) && HappeningOk(w, h) && !h.Deletion? && Accounted(w, leaked)
    requires var after := WorldStep(w, h).gpus; g in after && u in after[g].held && after[g].held[u].items != {}
    ensures Owner(WorldStep(w, h), leaked + LeakedBy(w, h), g, u, c)
  {
    hide SystemStep, EventOk, Linked, AllOwned, LeakedNow, IsLeaked;
    var name := Actor(h);
    ViewLinked(w, name);
    var s, e := View(w, name), EventOf(h);
    StepExplained(s, e, g, u);
    LedgerStaysBehind(s, e);
    if x :| x in LeakedNow(s, e) && x.uuid == u && x.gpuUUID == g {
      c := x;
    } else if u in SystemStep(s, e).func.configs && SystemStep(s, e).func.configs[u].gpuUUID == g {
      c := SystemStep(s, e).func.configs[u];
      KeyIsUuid(SystemStep(s, e).func, u);
      ActingHolds(w, h, u);
    } else {
      c :| Owner(w, leaked, g, u, c);
      if c !in leaked {
        var n :| n in w.funcs && c.uuid in w.funcs[n].configs && w.funcs[n].configs[c.uuid] == c;
        assert n in WorldStep(w, h).funcs && (n == name || WorldStep(w, h).funcs[n] == w.funcs[n]);
      }
    }
  }

  lemma ActingHolds(w: World, h: Happening, u: string)
    requires WorldInv(w) && HappeningOk(w, h) && !h.Deletion?
    requires Linked(View(w, Actor(h))) && EventOk(View(w, Actor(h)), EventOf(h))
    requires u in SystemStep(View(w, Actor(h)), EventOf(h)).func.configs
    requires SystemStep(View(w, Actor(h)), EventOf(h)).func.configs[u].uuid == u
    ensures HeldBySome(WorldStep(w, h), SystemStep(View(w, Actor(h)), EventOf(h)).func.configs[u])
  {
    hide Linked, Inv, AllOwned;
    if h.Turn? {
      assert h.name in WorldStep(w, h).funcs;
    } else {
      JoinStep(View(w, ""), EventOf(h));
      assert "" in w.funcs;
    }
  }

  /** A deletion takes the items of the function's groups and no group's owner. */
  lemma OwnerKept(w: World, h: Happening, leaked: set<Config>, g: string, u: string) returns (c: Config)
    requires WorldInv(w) && HappeningOk(w, h) && h.Deletion? && Accounted(w, leaked)
    requires var after := WorldStep(w, h).gpus; g in after && u in after[g].held && after[g].held[u].items != {}
    ensures Owner(WorldStep(w, h), leaked, g, u, c)
  {
    hide WorldInv, HappeningOk, IsLeaked, ReduceGroups, IsPlaced;
    ReduceWithin(w.gpus, ToNothing(h.list), h.orders);
    DeletionKeepsWorld(w, h);
    c :| Owner(w, leaked, g, u, c);
    if c !in leaked {
      var n :| n in w.funcs && c.uuid in w.funcs[n].configs && w.funcs[n].configs[c.uuid] == c;
      assert n != h.name;
      assert n in WorldStep(w, h).funcs;
    }
  }

  /** Every happening keeps the account, with what it leaks. */
  lemma StepAccounted(w: World, h: Happening, leaked: set<Config>)
    requires WorldInv(w) && HappeningOk(w, h) && Accounted(w, leaked)
    ensures Accounted(WorldStep(w, h), leaked + LeakedBy(w, h))
  {
    hide WorldInv, WorldStep, HappeningOk, LeakedBy, IsLeaked, Owner;
    forall c | c in leaked + LeakedBy(w, h) ensures IsLeaked(WorldStep(w, h), c) {
      if c in leaked {
        OldLeakStays(w, h, c);
      } else {
        NewLeak(w, h, c);
      }
    }
    var after := WorldStep(w, h).gpus;
    forall g, u | g in after && u in after[g].held && after[g].held[u].items != {}
      ensures exists c :: Owner(WorldStep(w, h), leaked + LeakedBy(w, h), g, u, c)
    {
      if h.Deletion? {
        var c := OwnerKept(w, h, leaked, g, u);
        DeletionLeaksNothing(w, h);
        assert leaked + LeakedBy(w, h) == leaked;
      } else {
        var c := OwnerAfter(w, h, leaked, g, u);
      }
    }
  }

  lemma DeletionLeaksNothing(w: World, h: Happening)
    requires WorldInv(w) && HappeningOk(w, h) && h.Deletion?
    ensures LeakedBy(w, h) == {}
  {}

  lemma {:induction false} RunAccounted(gpus: Gpus, run: seq<Happening>)
    requires Untouched(gpus) && RunWorld(gpus, run).Some?
    ensures Accounted(RunWorld(gpus, run).value, Leaked(gpus, run))
    decreases |run|
  {
    hide WorldInv, WorldStep, HappeningOk, LeakedBy, Accounted;
    if run == [] {
      NothingToAccount(gpus);
    } else {
      var n := |run| - 1;
      RunAccounted(gpus, run[..n]);
      StepAccounted(RunWorld(gpus, run[..n]).value, run[n], Leaked(gpus, run[..n]));
    }
  }

  lemma NothingToAccount(gpus: Gpus)
    requires Untouched(gpus)
    ensures Accounted(World(map[], gpus), {})
  {}

  // ------------------------------------------------------------------- the theorems

  ghost predicate HasOwner(w: World, leaked: set<Config>, c: Config) {
    c in leaked || HeldBySome(w, c)
  }

  lemma OwnerPlaced(w: World, leaked: set<Config>, c: Config)
    requires WorldInv(w) && Accounted(w, leaked) && HasOwner(w, leaked, c)
    ensures IsPlaced(w.gpus, c)
  {
    hide AllOwned;
    if c !in leaked {
      var n :| n in w.funcs && c.uuid in w.funcs[n].configs && w.funcs[n].configs[c.uuid] == c;
      assert Linked(View(w, n));
    }
  }

  /** The replicas of a group with an owner that are placed on a GPU. */
  ghost predicate OwnsId(w: World, leaked: set<Config>, g: string, id: int, c: Config) {
    HasOwner(w, leaked, c) && c.gpuUUID == g && IsPlaced(w.gpus, c) && id in ItemsOf(w.gpus, c)
  }

  lemma OwnedIsLive(w: World, leaked: set<Config>, g: string, id: int, c: Config)
    requires WorldInv(w) && OwnsId(w, leaked, g, id, c) && g in w.gpus
    ensures id in LiveIds(w.gpus, g)
  {
    hide HeldBySome, Linked, Inv;
    assert Owned(w.gpus[g]);
  }

  lemma LiveIffOwned(w: World, leaked: set<Config>, g: string, id: int)
    requires WorldInv(w) && Accounted(w, leaked) && g in w.gpus
    ensures id in LiveIds(w.gpus, g) <==> exists c :: OwnsId(w, leaked, g, id, c)
  {
    hide HeldBySome, IsLeaked, Linked, Inv;
    assert Owned(w.gpus[g]);
    if id in LiveIds(w.gpus, g) {
      var u :| u in w.gpus[g].held && id in w.gpus[g].held[u].items;
      assert w.gpus[g].held[u].items != {};
      var c :| Owner(w, leaked, g, u, c);
      OwnerPlaced(w, leaked, c);
      assert OwnsId(w, leaked, g, id, c);
    }
  }

  lemma OneOwner(w: World, leaked: set<Config>, g: string, id: int, c: Config, d: Config)
    requires WorldInv(w) && OwnsId(w, leaked, g, id, c) && OwnsId(w, leaked, g, id, d)
    ensures c == d
  {
    hide HeldBySome, Linked, Inv;
    assert Owned(w.gpus[g]);
  }

  /** Conservation over every run of all functions: on every GPU the live IDs are exactly the items of
      the groups that some function holds and of those that failed scale-ups left behind; each ID
      belongs to one such group, and no leaked group is held by a function. */
  lemma LiveIdsAccounted(gpus: Gpus, run: seq<Happening>, g: string)
    requires Untouched(gpus) && RunWorld(gpus, run).Some? && g in RunWorld(gpus, run).value.gpus
    ensures var w, leaked := RunWorld(gpus, run).value, Leaked(gpus, run);
      && (forall id :: id in LiveIds(w.gpus, g) <==> exists c :: OwnsId(w, leaked, g, id, c))
      && (forall id, c, d :: OwnsId(w, leaked, g, id, c) && OwnsId(w, leaked, g, id, d) ==> c == d)
      && (forall c :: c in leaked ==> IsLeaked(w, c) && !HeldBySome(w, c))
      && (forall c :: HeldBySome(w, c) ==> IsPlaced(w.gpus, c))
  {
    hide WorldInv, RunWorld, OwnsId, IsPlaced, Untouched, LiveIds;
    RunAccounted(gpus, run);
    var w, leaked := RunWorld(gpus, run).value, Leaked(gpus, run);
    forall id ensures id in LiveIds(w.gpus, g) <==> exists c :: OwnsId(w, leaked, g, id, c) {
      LiveIffOwned(w, leaked, g, id);
    }
    forall id, c, d | OwnsId(w, leaked, g, id, c) && OwnsId(w, leaked, g, id, d) ensures c == d {
      OneOwner(w, leaked, g, id, c, d);
    }
    forall c | HeldBySome(w, c) ensures IsPlaced(w.gpus, c) {
      OwnerPlaced(w, leaked, c);
    }
  }

  /** Every scale-up of a run that failed had no room for a single replica. */
  ghost predicate FailuresPlaceNothing(gpus: Gpus, run: seq<Happening>)
    requires Untouched(gpus) && RunWorld(gpus, run).Some?
  {
    run != [] ==>
      var n := |run| - 1;
      var w, h := RunWorld(gpus, run[..n]).value, run[n];
      && FailuresPlaceNothing(gpus, run[..n])
      && (h.Turn? && WantsUp(FuncOf(w, h.name), h.tick.metrics) && h.tick.up.PodsFailed? ==>
            NothingFits(w.gpus, h.plans))
  }

  lemma LeaksNothingIff(w: World, h: Happening)
    requires WorldInv(w) && HappeningOk(w, h)
    ensures LeakedBy(w, h) == {} <==>
      (h.Turn? && WantsUp(FuncOf(w, h.name), h.tick.metrics) && h.tick.up.PodsFailed? ==>
         NothingFits(w.gpus, h.plans))
  {
    hide SystemStep, EventOk, AllOwned, KeptGroups, NothingFits;
    if h.Turn? {
      ViewLinked(w, h.name);
      LinkedOwned(View(w, h.name));
      KeepsNothingIff(w.gpus, h.plans);
      var kept := KeptGroups(w.gpus, h.plans);
      if WantsUp(FuncOf(w, h.name), h.tick.metrics) && h.tick.up.PodsFailed? && kept != [] {
        assert kept[0] in LeakedBy(w, h);
      }
    }
  }

  /** Nothing is leaked in a run exactly if its failed scale-ups had no room for a single replica. */
  lemma {:induction false} NoLeakIff(gpus: Gpus, run: seq<Happening>)
    requires Untouched(gpus) && RunWorld(gpus, run).Some?
    ensures Leaked(gpus, run) == {} <==> FailuresPlaceNothing(gpus, run)
    decreases |run|
  {
    hide WorldInv, WorldStep, HappeningOk, LeakedBy, NothingFits;
    if run != [] {
      var n := |run| - 1;
      NoLeakIff(gpus, run[..n]);
      LeaksNothingIff(RunWorld(gpus, run[..n]).value, run[n]);
    }
  }

  /** The emptiness test of a GPU over every run: its packer is empty exactly if no function has a
      replica placed on it and nothing was leaked there. */
  lemma EmptyIffUnowned(gpus: Gpus, run: seq<Happening>, g: string)
    requires Untouched(gpus) && RunWorld(gpus, run).Some? && g in RunWorld(gpus, run).value.gpus
    ensures var w, leaked := RunWorld(gpus, run).value, Leaked(gpus, run);
      && (w.gpus[g].gpu.packer.shelves == [] <==> LiveIds(w.gpus, g) == {})
      && (LiveIds(w.gpus, g) == {} <==> forall id, c :: !OwnsId(w, leaked, g, id, c))
  {
    hide RunWorld, OwnsId, Untouched, Linked, IsLeaked, HeldBySome, Partition;
    LiveIdsAccounted(gpus, run, g);
    var w, leaked := RunWorld(gpus, run).value, Leaked(gpus, run);
    assert Owned(w.gpus[g]);
    EmptyMeansNoItems(w.gpus[g].gpu.packer);
    assert Contents(w.gpus[g].gpu.packer) == map[] <==> Contents(w.gpus[g].gpu.packer).Keys == {};
    forall id, c | OwnsId(w, leaked, g, id, c) ensures id in LiveIds(w.gpus, g) {
      OwnedIsLive(w, leaked, g, id, c);
    }
    if LiveIds(w.gpus, g) != {} {
      var id := SomeElement(LiveIds(w.gpus, g));
    }
  }
}

/** A run of all functions, as one of them sees it. */
module Views {
  import opened Cluster
  import opened Configs
  import opened FunctionScaler
  import opened GpuLedger
  import opened MapSums
  import opened Options
  import opened PlacedCapacity
  import opened ScaleDown
  import opened Shelves
  import opened Worlds

  /** The ticks of one function in a run, since it was last deleted. */
  ghost function TicksIn(run: seq<Happening>, name: string): seq<Tick> {
    if run == [] then []
    else
      var n := |run| - 1;
      var h := run[n];
      if h.Deletion? && h.name == name then []
      else TicksIn(run[..n], name) + (if h.Turn? && h.name == name then [h.tick] else [])
  }

  lemma SeeOther(gpus: Gpus, events: seq<Event>, s: System, g: string, op: Op) returns (more: seq<Event>)
    requires AllOwned(gpus) && ReachSystem(gpus, events) == Some(s) && OpUuid(op) !in s.func.configs
    ensures ReachSystem(gpus, more) == Some(System(s.func, Apply(s.gpus, g, op)))
    ensures TicksOf(more) == TicksOf(events)
  {
    hide AllOwned, Linked, Apply;
    var e := Other(g, op);
    more := events + [e];
    assert more[..|events|] == events;
  }

  lemma {:induction false} SeeCommits(gpus: Gpus, events: seq<Event>, s: System, plans: seq<Config>)
    returns (more: seq<Event>)
    requires AllOwned(gpus) && ReachSystem(gpus, events) == Some(s)
    requires forall p :: p in plans ==> p.uuid !in s.func.configs
    ensures ReachSystem(gpus, more) == Some(System(s.func, CommitGroups(s.gpus, plans)))
    ensures TicksOf(more) == TicksOf(events)
    decreases plans
  {
    hide ReachSystem, Apply, AllOwned, TicksOf;
    more := events;
    if plans != [] {
      assert plans[0] in plans;
      more := SeeOther(gpus, events, s, plans[0].gpuUUID, CommitOp(plans[0]));
      more := SeeCommits(gpus, more, System(s.func, Apply(s.gpus, plans[0].gpuUUID, CommitOp(plans[0]))), plans[1..]);
    }
  }

  lemma {:induction false} SeeReductions(
    gpus: Gpus, events: seq<Event>, s: System, updated: seq<ReduceInfo>, orders: map<string, seq<int>>)
    returns (more: seq<Event>)
    requires AllOwned(gpus) && ReachSystem(gpus, events) == Some(s)
    requires forall x :: x in updated ==> x.config.uuid !in s.func.configs
    ensures ReachSystem(gpus, more) == Some(System(s.func, ReduceGroups(s.gpus, updated, orders)))
    ensures TicksOf(more) == TicksOf(events)
    decreases updated
  {
    hide ReachSystem, Apply, AllOwned, TicksOf;
    more := events;
    if updated != [] {
      var c := updated[0].config;
      assert updated[0] in updated;
      var op := ReduceOp(c.uuid, updated[0].newReplica, OrderOf(orders, c.uuid));
      more := SeeOther(gpus, events, s, c.gpuUUID, op);
      more := SeeReductions(gpus, more, System(s.func, Apply(s.gpus, c.gpuUUID, op)), updated[1..], orders);
    }
  }

  lemma {:induction false} SeeReleases(
    gpus: Gpus, events: seq<Event>, s: System, removed: seq<Config>, orders: map<string, seq<int>>)
    returns (more: seq<Event>)
    requires AllOwned(gpus) && ReachSystem(gpus, events) == Some(s)
    requires forall c :: c in removed ==> c.uuid !in s.func.configs
    ensures ReachSystem(gpus, more) == Some(System(s.func, ReleaseGroups(s.gpus, removed, orders)))
    ensures TicksOf(more) == TicksOf(events)
    decreases removed
  {
    hide ReachSystem, Apply, AllOwned, TicksOf;
    more := events;
    if removed != [] {
      var c := removed[0];
      assert c in removed;
      var op := ReleaseOp(c.uuid, OrderOf(orders, c.uuid));
      more := SeeOther(gpus, events, s, c.gpuUUID, op);
      more := SeeReleases(gpus, more, System(s.func, Apply(s.gpus, c.gpuUUID, op)), removed[1..], orders);
    }
  }

  lemma SeeOwn(gpus: Gpus, events: seq<Event>, s: System, e: Event) returns (more: seq<Event>)
    requires AllOwned(gpus) && ReachSystem(gpus, events) == Some(s) && EventOk(s, e)
    ensures ReachSystem(gpus, more) == Some(SystemStep(s, e))
    ensures TicksOf(more) == TicksOf(events) + (if e.Own? then [e.tick] else [])
  {
    hide AllOwned, Linked, EventOk, SystemStep;
    more := events + [e];
    assert more[..|events|] == events;
  }

  /** The tick of another function, as a sequence of operations on the GPUs. */
  lemma SeeTurn(gpus: Gpus, events: seq<Event>, f: Func, s: System, e: Event) returns (more: seq<Event>)
    requires AllOwned(gpus) && ReachSystem(gpus, events) == Some(System(f, s.gpus))
    requires Linked(s) && EventOk(s, e) && e.Own? && f.configs.Keys !! s.func.configs.Keys
    requires WantsUp(s.func, e.tick.metrics) ==> forall p :: p in e.plans ==> p.uuid !in f.configs
    ensures ReachSystem(gpus, more) == Some(System(f, SystemStep(s, e).gpus))
    ensures TicksOf(more) == TicksOf(events)
  {
    hide ReachSystem, AllOwned, TicksOf, CommitGroups, ReduceGroups, ReleaseGroups, Removed, Updated, PlansOk, Sum;
    more := events;
    if WantsUp(s.func, e.tick.metrics) {
      more := SeeCommits(gpus, events, System(f, s.gpus), e.plans);
    } else if FiresDown(s.func, e.tick.metrics) {
      UpdatedShape(s.func, e.tick);
      RemovedApart(s.func, e.tick);
      more := SeeReductions(gpus, events, System(f, s.gpus), Updated(e.tick), e.orders);
      var mid := ReduceGroups(s.gpus, Updated(e.tick), e.orders);
      more := SeeReleases(gpus, more, System(f, mid), Removed(e.tick), e.orders);
    }
  }

  /** What happens to others, seen by a function whose groups it does not touch. */
  lemma SeeOthers(gpus: Gpus, events: seq<Event>, f: Func, w: World, h: Happening) returns (more: seq<Event>)
    requires AllOwned(gpus) && WorldInv(w) && HappeningOk(w, h)
    requires ReachSystem(gpus, events) == Some(System(f, w.gpus))
    requires f.configs.Keys !! FuncOf(w, Actor(h)).configs.Keys || h.Arrival?
    requires h.Turn? && WantsUp(FuncOf(w, h.name), h.tick.metrics) ==>
      forall p :: p in h.plans ==> p.uuid !in f.configs
    ensures ReachSystem(gpus, more) == Some(System(f, WorldStep(w, h).gpus))
    ensures TicksOf(more) == TicksOf(events)
  {
    hide ReachSystem, SystemStep, EventOk, Linked, AllOwned, TicksOf, ReduceGroups, IsPlaced;
    match h
    case Arrival(_) =>
      LinkedAfter(gpus, events);
      ArrivalSeen(w, h, f);
      more := SeeOwn(gpus, events, System(f, w.gpus), EventOf(h));
    case Turn(_, _, _, _) =>
      ViewLinked(w, h.name);
      more := SeeTurn(gpus, events, f, View(w, h.name), EventOf(h));
    case Deletion(_, list, orders) =>
      DeletionCalls(w, h);
      more := SeeReductions(gpus, events, System(f, w.gpus), ToNothing(list), orders);
  }

  lemma LinkedAfter(gpus: Gpus, events: seq<Event>)
    requires AllOwned(gpus) && ReachSystem(gpus, events).Some?
    ensures Linked(ReachSystem(gpus, events).value)
  {}

  lemma ArrivalSeen(w: World, h: Happening, f: Func)
    requires WorldInv(w) && HappeningOk(w, h) && h.Arrival? && Linked(System(f, w.gpus))
    ensures EventOk(System(f, w.gpus), EventOf(h))
    ensures SystemStep(System(f, w.gpus), EventOf(h)) == System(f, WorldStep(w, h).gpus)
  {
    hide Linked, Inv, AllOwned;
    ViewLinked(w, "");
  }

  lemma PlansFreshForAll(w: World, h: Happening, n: string)
    requires WorldInv(w) && HappeningOk(w, h) && h.Turn? && WantsUp(FuncOf(w, h.name), h.tick.metrics)
    ensures forall p :: p in h.plans ==> p.uuid !in FuncOf(w, n).configs
  {
    hide Linked, SystemStep, AllOwned;
    forall p | p in h.plans ensures p.uuid !in FuncOf(w, n).configs {
      HeldSomewhere(w, n, p.uuid);
    }
  }

  /** Somebody who never acts sees every run as interference only. */
  lemma {:induction false} Observer(gpus: Gpus, run: seq<Happening>) returns (events: seq<Event>)
    requires Untouched(gpus) && RunWorld(gpus, run).Some?
    ensures ReachSystem(gpus, events) == Some(System(NEW_FUNC, RunWorld(gpus, run).value.gpus))
    ensures TicksOf(events) == []
    decreases |run|
  {
    hide ReachSystem, WorldInv, WorldStep, HappeningOk, AllOwned, TicksOf;
    if run == [] {
      events := [];
      SeeNothing(gpus);
    } else {
      var n := |run| - 1;
      events := Observer(gpus, run[..n]);
      events := SeeOthers(gpus, events, NEW_FUNC, RunWorld(gpus, run[..n]).value, run[n]);
    }
  }

  lemma SeeStep(gpus: Gpus, w: World, h: Happening, name: string, events: seq<Event>) returns (more: seq<Event>)
    requires AllOwned(gpus) && WorldInv(w) && HappeningOk(w, h) && !(h.Deletion? && h.name == name)
    requires ReachSystem(gpus, events) == Some(View(w, name))
    ensures ReachSystem(gpus, more) == Some(View(WorldStep(w, h), name))
    ensures TicksOf(more) == TicksOf(events) + (if h.Turn? && h.name == name then [h.tick] else [])
  {
    hide ReachSystem, SystemStep, EventOk, Linked, AllOwned, TicksOf, ReduceGroups;
    if h.Turn? && h.name == name {
      ViewLinked(w, name);
      more := SeeOwn(gpus, events, View(w, name), EventOf(h));
    } else {
      if h.Turn? && WantsUp(FuncOf(w, h.name), h.tick.metrics) {
        PlansFreshForAll(w, h, name);
      }
      more := SeeOthers(gpus, events, FuncOf(w, name), w, h);
    }
  }

  lemma SeeNothing(gpus: Gpus)
    requires AllOwned(gpus)
    ensures ReachSystem(gpus, []) == Some(System(NEW_FUNC, gpus)) && TicksOf([]) == []
  {}

  lemma NewAfterDeletion(w: World, h: Happening)
    requires WorldInv(w) && HappeningOk(w, h) && h.Deletion?
    ensures View(WorldStep(w, h), h.name) == System(NEW_FUNC, WorldStep(w, h).gpus)
  {
    hide WorldInv, ReduceGroups;
  }

  /** Every run of all functions is, for each of them, a run of the single-function system with its own
      ticks since it was last deleted, in which the others are interference. So everything shown for that
      system holds for every function of every run, and a function's state depends on those ticks only. */
  lemma {:induction false} EveryFunctionRuns(gpus: Gpus, run: seq<Happening>, name: string) returns (events: seq<Event>)
    requires Untouched(gpus) && RunWorld(gpus, run).Some?
    ensures ReachSystem(gpus, events) == Some(View(RunWorld(gpus, run).value, name))
    ensures TicksOf(events) == TicksIn(run, name)
    ensures Reach(TicksIn(run, name)) == Some(FuncOf(RunWorld(gpus, run).value, name))
    decreases |run|
  {
    hide ReachSystem, WorldInv, WorldStep, HappeningOk, AllOwned, TicksOf;
    if run == [] {
      events := [];
      SeeNothing(gpus);
    } else {
      var n := |run| - 1;
      var w, h := RunWorld(gpus, run[..n]).value, run[n];
      if h.Deletion? && h.name == name {
        events := Observer(gpus, run);
        NewAfterDeletion(w, h);
      } else {
        events := EveryFunctionRuns(gpus, run[..n], name);
        events := SeeStep(gpus, w, h, name, events);
      }
    }
    RunOfTicks(gpus, events);
  }

  /** So for every function of every run: placed capacity is the recorded one minus what is missing;
      the two agree exactly if no group it still holds was shrunk; and a tick that does not scale up
      has its demand covered up to what is missing. */
  lemma EveryFunctionServed(gpus: Gpus, run: seq<Happening>, name: string, m: Metrics) returns (events: seq<Event>)
    requires Untouched(gpus) && RunWorld(gpus, run).Some?
    ensures ReachSystem(gpus, events) == Some(View(RunWorld(gpus, run).value, name))
    ensures TicksOf(events) == TicksIn(run, name)
    ensures Linked(View(RunWorld(gpus, run).value, name))
    ensures var s := View(RunWorld(gpus, run).value, name);
      && PlacedRPS(s) == Sum(s.func.configs, Rps) - Missing(s)
      && (PlacedRPS(s) == Sum(s.func.configs, Rps) <==> ShrunkHeld(gpus, events) == {})
      && (!WantsUp(s.func, m) ==> PredictedRate(m) * SCALE_FACTOR <= PlacedRPS(s) + Missing(s))
  {
    hide ReachSystem, ShrunkHeld, AllOwned, WorldInv, RunWorld, Linked, Sum, PlacedRPS, Missing, TicksOf;
    events := EveryFunctionRuns(gpus, run, name);
    PlacedEqualsRecorded(gpus, events);
    if !WantsUp(FuncOf(RunWorld(gpus, run).value, name), m) {
      NoScaleUpMeansEnough(gpus, events, m);
    }
  }
}

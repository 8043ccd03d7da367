/** Planning a scale-down: which replica groups to remove, and which to shrink, so that the
    recorded capacity stays at or above a target. */
module ScaleDown {
  import opened Arithmetic
  import opened Configs
  import opened MapSums

  datatype ReduceInfo = ReduceInfo(config: Config, newReplica: int, reducedDelta: real)

  ghost predicate Sorted(s: seq<Config>) {
    forall i, j :: 0 <= i < j < |s| ==> s[i].allocatedRPS <= s[j].allocatedRPS
  }

  // ------------------------------------------------------- reference definitions

  /** Length of the longest prefix that can go while the rest still reaches the target. */
  function Removable(s: seq<Config>, target: real): (k: nat)
    ensures k <= |s|
    ensures 0 < k ==> target <= Total(s[k..])
    ensures k < |s| ==> Total(s[k + 1..]) < target
  {
    if s == [] || Total(s[1..]) < target then 0
    else
      var k := Removable(s[1..], target);
      assert s[1..][k..] == s[k + 1..];
      assert k < |s[1..]| ==> s[1..][k + 1..] == s[k + 2..];
      assert k == 0 ==> s[k + 1..] == s[1..];
      k + 1
  }

  /** Replicas of one group that exceed the target when that group is all that is left. */
  function Surplus(c: Config, target: real): int
    requires c.qpsPerReplica != 0.0
  {
    ((c.allocatedRPS - target) / c.qpsPerReplica).Floor
  }

  /** The record of shrinking a group by `m` replicas. The field named `reducedDelta` holds the
      RPS of the replicas that remain, not of those that go. */
  function Reduced(c: Config, m: int): ReduceInfo {
    ReduceInfo(c, c.allocatedReplica - m, (c.allocatedReplica - m) as real * c.qpsPerReplica)
  }

  /** A group is shrunk only if it is the last one left and its surplus alone covers the target. */
  ghost function Shrink(s: seq<Config>, target: real): seq<ReduceInfo>
    requires AllConsistent(s)
  {
    if |s| == 0 || Removable(s, target) != |s| - 1 then []
    else
      var c := s[|s| - 1];
      assert Consistent(c);
      var m := Surplus(c, target);
      if 0 < m && target <= m as real * c.qpsPerReplica then
        [Reduced(c, m)]
      else []
  }

  // --------------------------------------------------------- arithmetic of a step

  lemma AtLeast(slack: real, q: real, n: int)
    requires 0.0 < q
    ensures n <= (slack / q).Floor <==> n as real * q <= slack
  {
    var x := slack / q;
    Quotient(slack, q);
    ScaledOrder(n as real, x, q);
    assert n <= x.Floor <==> n as real <= x;
  }

  lemma Remainder(n: int, m: int, q: real)
    ensures n as real * q - (n - m) as real * q == m as real * q
  {
    Distribute((n - m) as real, m as real, q);
    assert (n - m) as real + m as real == n as real;
  }

  lemma RecordedRPS(c: Config)
    requires Consistent(c)
    ensures c.allocatedRPS == c.allocatedReplica as real * c.qpsPerReplica && 0.0 < c.qpsPerReplica
  {}

  /** What the floor in the planner decides about one group, given the slack over the target. */
  lemma FloorDecides(c: Config, slack: real)
    requires Consistent(c)
    ensures 0.0 < c.qpsPerReplica
    ensures var m := (slack / c.qpsPerReplica).Floor;
      && (m >= c.allocatedReplica <==> slack >= c.allocatedRPS)
      && (0 < m <==> slack >= c.qpsPerReplica)
      && m as real * c.qpsPerReplica <= slack
      && c.allocatedRPS - (c.allocatedReplica - m) as real * c.qpsPerReplica == m as real * c.qpsPerReplica
  {
    hide Consistent;
    RecordedRPS(c);
    var q, n := c.qpsPerReplica, c.allocatedReplica;
    var m := (slack / q).Floor;
    AtLeast(slack, q, n);
    AtLeast(slack, q, 1);
    AtLeast(slack, q, m);
    Remainder(n, m, q);
  }

  lemma TwoRetained(s: seq<Config>, j: nat)
    requires AllConsistent(s) && 0 < j < |s|
    ensures s[0].allocatedRPS + s[j].allocatedRPS <= Total(s)
  {
    TotalSplit(s, j);
    TotalNonNegative(s[j..][1..]);
    TotalNonNegative(s[1..j]);
    assert s[..j][1..] == s[1..j];
  }

  /** Once two groups are left and the smaller cannot go, no surplus reaches the target. */
  lemma SurplusTooSmall(s: seq<Config>, target: real, j: nat)
    requires AllConsistent(s) && Sorted(s) && 0 < j < |s|
    requires Total(s) - target < s[0].allocatedRPS
    ensures Total(s) - target < target
    ensures Total(s) - target < s[j].allocatedRPS
  {
    TwoRetained(s, j);
  }

  lemma SuffixKeeps(s: seq<Config>, k: nat)
    requires AllConsistent(s) && Sorted(s) && k <= |s|
    ensures AllConsistent(s[k..]) && Sorted(s[k..])
  {}

  lemma LastAlone(s: seq<Config>)
    requires s != []
    ensures Total(s[|s| - 1..]) == s[|s| - 1].allocatedRPS
  {
    assert s[|s| - 1..] == [s[|s| - 1]];
  }

  /** The longest removable prefix, read forward: group `k` goes iff the rest reaches the target. */
  lemma NextRemovable(s: seq<Config>, target: real, k: nat)
    requires AllConsistent(s) && k < |s| && k <= Removable(s, target)
    ensures k < Removable(s, target) <==> target <= Total(s[k..]) - s[k].allocatedRPS
    ensures Total(s[k..]) == s[k].allocatedRPS + Total(s[k + 1..])
  {
    assert s[k..][1..] == s[k + 1..];
    var r := Removable(s, target);
    if k < r {
      assert s[k + 1..r] + s[r..] == s[k + 1..];
      TotalConcat(s[k + 1..r], s[r..]);
      TotalNonNegative(s[k + 1..r]);
    }
  }

  // ------------------------------------------------------------------ the planner

  /** Where the planning loop stands: `k` groups removed, group `i` under inspection, and if some
      group was passed over then its replicas were too coarse for the slack. */
  ghost predicate At(s: seq<Config>, target: real, k: nat, i: nat) {
    && AllConsistent(s) && Sorted(s)
    && k <= i < |s|
    && k <= Removable(s, target)
    && (k < i ==> k == Removable(s, target) && Slack(s, target, k) < s[k].qpsPerReplica)
  }

  ghost function Slack(s: seq<Config>, target: real, k: nat): real
    requires k <= |s|
  {
    Total(s[k..]) - target
  }

  lemma RemoveStep(s: seq<Config>, target: real, k: nat, i: nat)
    requires At(s, target, k, i) && s[i].allocatedRPS <= Slack(s, target, k)
    ensures i == k < Removable(s, target)
    ensures Total(s[k..]) - s[i].allocatedRPS == Total(s[k + 1..])
  {
    NextRemovable(s, target, k);
    assert s[k] in s;
    RpsPositive(s[k]);
    assert s[k].allocatedRPS <= s[i].allocatedRPS;
  }

  lemma KeepStep(s: seq<Config>, target: real, k: nat, i: nat)
    requires At(s, target, k, i) && Slack(s, target, k) < s[i].allocatedRPS
    ensures k == Removable(s, target)
    ensures Slack(s, target, k) < s[k].allocatedRPS
    ensures k + 1 < |s| ==> Slack(s, target, k) < target
  {
    NextRemovable(s, target, k);
    SuffixKeeps(s, k);
    assert s[k] in s;
    RpsPositive(s[k]);
    if k + 1 < |s| {
      SurplusTooSmall(s[k..], target, 1);
    }
  }

  lemma SlackOfLast(s: seq<Config>, target: real)
    requires s != [] && s[|s| - 1].qpsPerReplica != 0.0
    ensures var c := s[|s| - 1];
      && Slack(s, target, |s| - 1) == c.allocatedRPS - target
      && Total(s[|s| - 1..]) == c.allocatedRPS
      && Surplus(c, target) == (Slack(s, target, |s| - 1) / c.qpsPerReplica).Floor
  {
    LastAlone(s);
  }

  lemma ShrinkLast(s: seq<Config>, target: real, m: int)
    requires AllConsistent(s) && s != [] && Removable(s, target) == |s| - 1 && s[|s| - 1].qpsPerReplica != 0.0
    requires m == Surplus(s[|s| - 1], target) && 0 < m
    ensures var c := s[|s| - 1];
      Shrink(s, target) == if target <= m as real * c.qpsPerReplica then [Reduced(c, m)] else []
  {
    hide Removable, Total, Consistent, Surplus, Reduced;
  }

  lemma AtBounds(s: seq<Config>, target: real, k: nat, i: nat)
    requires At(s, target, k, i)
    ensures AllConsistent(s) && k <= i < |s|
  {}

  /** The guard of a partial reduction can hold on the last group only. */
  lemma ShrinkStep(s: seq<Config>, target: real, k: nat, i: nat, m: int)
    requires At(s, target, k, i) && Slack(s, target, k) < s[i].allocatedRPS
    requires 0.0 < s[i].qpsPerReplica
    requires m == (Slack(s, target, k) / s[i].qpsPerReplica).Floor && 0 < m
    ensures target <= m as real * s[i].qpsPerReplica ==>
      && i == k == |s| - 1
      && Shrink(s, target) == [Reduced(s[i], m)]
      && Total(s[k..]) == s[i].allocatedRPS
    ensures m as real * s[i].qpsPerReplica < target ==> Shrink(s, target) == []
  {
    hide *;
    AtBounds(s, target, k, i);
    KeepStep(s, target, k, i);
    AtLeast(Slack(s, target, k), s[i].qpsPerReplica, m);
    if k == |s| - 1 {
      SlackOfLast(s, target);
      ShrinkLast(s, target, m);
    } else {
      NoShrinkBefore(s, target, k);
    }
  }

  lemma NoShrinkBefore(s: seq<Config>, target: real, k: nat)
    requires AllConsistent(s) && k == Removable(s, target) && k < |s| - 1
    ensures Shrink(s, target) == []
  {
    hide Removable;
  }

  lemma PassStep(s: seq<Config>, target: real, k: nat, i: nat)
    requires At(s, target, k, i) && Slack(s, target, k) < s[i].qpsPerReplica
    ensures k == Removable(s, target) && Shrink(s, target) == []
    ensures Slack(s, target, k) < s[k].qpsPerReplica
  {
    assert s[i] in s && s[k] in s;
    RpsPositive(s[i]);
    KeepStep(s, target, k, i);
    if k == |s| - 1 {
      LastAlone(s);
      FloorDecides(s[k], Slack(s, target, k));
    }
  }

  /** The planning loop. The result is exactly the longest removable prefix and the shrinking of
      the last group; the early exits never cut it short. */
  method PlanScaleDown(s: seq<Config>, target: real)
    returns (toRemove: seq<Config>, toUpdate: seq<ReduceInfo>)
    requires AllConsistent(s) && Sorted(s)
    ensures toRemove == s[..Removable(s, target)]
    ensures toUpdate == Shrink(s, target)
  {
    hide Removable, Shrink, Total, Sorted, Surplus;
    var currentRPS := SumRPS(s);
    toRemove := [];
    toUpdate := [];
    ghost var k: nat := 0;   // groups removed so far
    var i: nat := 0;
    assert s[0..] == s;
    while i < |s|
      invariant k <= i <= |s|
      invariant toRemove == s[..k]
      invariant i < |s| ==> At(s, target, k, i) && currentRPS == Total(s[k..]) && toUpdate == []
      invariant k < i ==> k == Removable(s, target) && toUpdate == Shrink(s, target)
      invariant k == |s| ==> k == Removable(s, target) && toUpdate == []
    {
      var config := s[i];
      assert config in s;
      RpsPositive(config);
      var maxRemovableRPS := currentRPS - target;
      if currentRPS <= target {
        PassStep(s, target, k, i);
        break;
      }
      var maxRemovableReplicas := (maxRemovableRPS / config.qpsPerReplica).Floor;
      FloorDecides(config, maxRemovableRPS);
      if maxRemovableReplicas >= config.allocatedReplica {
        RemoveStep(s, target, k, i);
        // the else-branch of the source's inner test, a break, is dead
        assert currentRPS - config.allocatedRPS >= target by { NextRemovable(s, target, k); }
        currentRPS := currentRPS - config.allocatedRPS;
        toRemove := toRemove + [config];
        k := k + 1;
        i := i + 1;
        continue;
      }
      if maxRemovableReplicas > 0 {
        ShrinkStep(s, target, k, i, maxRemovableReplicas);
        KeepStep(s, target, k, i);
        var newReplica := config.allocatedReplica - maxRemovableReplicas;
        if newReplica < 1 {
          newReplica := 1;
        }
        assert newReplica == config.allocatedReplica - maxRemovableReplicas;
        var updatedRPS := newReplica as real * config.qpsPerReplica;
        var reducedDelta := currentRPS - (config.allocatedRPS - updatedRPS);
        if currentRPS - reducedDelta >= target {
          assert ReduceInfo(config, newReplica, reducedDelta) == Reduced(config, maxRemovableReplicas);
          currentRPS := currentRPS - reducedDelta;
          toUpdate := toUpdate + [ReduceInfo(config, newReplica, reducedDelta)];
        } else {
          break;
        }
      } else {
        PassStep(s, target, k, i);
      }
      i := i + 1;
    }
    AllGone(s, target);
  }

  lemma AllGone(s: seq<Config>, target: real)
    requires AllConsistent(s)
    ensures Removable(s, target) == |s| ==> Shrink(s, target) == []
    ensures s == [] ==> Removable(s, target) == 0
  {}

  method SumRPS(s: seq<Config>) returns (sum: real)
    ensures sum == Total(s)
  {
    sum := 0.0;
    for i := 0 to |s|
      invariant sum == Total(s[..i])
    {
      assert s[..i + 1] == s[..i] + [s[i]];
      TotalConcat(s[..i], [s[i]]);
      sum := sum + s[i].allocatedRPS;
    }
    assert s[..|s|] == s;
  }

  // -------------------------------------------------------------- API outcomes

  /** What happened to the cluster calls for one pod: not found and done both count as executed. */
  datatype Outcome = NotFound | GetFailed | CallFailed | Done

  predicate Executed(api: map<string, Outcome>, uuid: string) {
    uuid in api && (api[uuid].NotFound? || api[uuid].Done?)
  }

  function RemovedBy(api: map<string, Outcome>, toRemove: seq<Config>): seq<Config> {
    if toRemove == [] then []
    else (if Executed(api, toRemove[0].uuid) then [toRemove[0]] else []) + RemovedBy(api, toRemove[1..])
  }

  function UpdatedBy(api: map<string, Outcome>, toUpdate: seq<ReduceInfo>): seq<ReduceInfo> {
    if toUpdate == [] then []
    else (if Executed(api, toUpdate[0].config.uuid) then [toUpdate[0]] else []) + UpdatedBy(api, toUpdate[1..])
  }

  /** A planned removal takes effect exactly if the pod is gone already or was deleted; any other outcome
      of the call, or none, leaves the group, however often it is planned. */
  lemma {:induction false} RemovedExactly(api: map<string, Outcome>, toRemove: seq<Config>, c: Config)
    ensures multiset(RemovedBy(api, toRemove))[c]
         == if c.uuid in api && (api[c.uuid] == NotFound || api[c.uuid] == Done) then multiset(toRemove)[c] else 0
    ensures c in RemovedBy(api, toRemove) <==>
      c in toRemove && c.uuid in api && (api[c.uuid] == NotFound || api[c.uuid] == Done)
  {
    if toRemove != [] {
      var first, rest := toRemove[0], toRemove[1..];
      RemovedExactly(api, rest, c);
      assert toRemove == [first] + rest;
      assert RemovedBy(api, toRemove) == (if Executed(api, first.uuid) then [first] else []) + RemovedBy(api, rest);
      assert c in toRemove <==> c == first || c in rest;
    }
  }

  /** The same for planned reductions. */
  lemma {:induction false} UpdatedExactly(api: map<string, Outcome>, toUpdate: seq<ReduceInfo>, x: ReduceInfo)
    ensures multiset(UpdatedBy(api, toUpdate))[x]
         == if x.config.uuid in api && (api[x.config.uuid] == NotFound || api[x.config.uuid] == Done)
            then multiset(toUpdate)[x] else 0
    ensures x in UpdatedBy(api, toUpdate) <==>
      x in toUpdate && x.config.uuid in api && (api[x.config.uuid] == NotFound || api[x.config.uuid] == Done)
  {
    if toUpdate != [] {
      var first, rest := toUpdate[0], toUpdate[1..];
      UpdatedExactly(api, rest, x);
      assert toUpdate == [first] + rest;
      assert UpdatedBy(api, toUpdate) == (if Executed(api, first.config.uuid) then [first] else []) + UpdatedBy(api, rest);
      assert x in toUpdate <==> x == first || x in rest;
    }
  }

  /** RPS that goes away when groups are shrunk. */
  function Lost(updated: seq<ReduceInfo>): real {
    if updated == [] then 0.0
    else
      var u := updated[0];
      u.config.allocatedRPS - u.newReplica as real * u.config.qpsPerReplica + Lost(updated[1..])
  }

  /** Recorded RPS left after the executed part of a plan. */
  function RecordedLeft(s: seq<Config>, removed: seq<Config>, updated: seq<ReduceInfo>): real {
    Total(s) - Total(removed) - Lost(updated)
  }

  lemma {:induction false} RemovedIsPart(api: map<string, Outcome>, toRemove: seq<Config>)
    requires AllConsistent(toRemove)
    ensures multiset(RemovedBy(api, toRemove)) <= multiset(toRemove)
    ensures 0.0 <= Total(RemovedBy(api, toRemove)) <= Total(toRemove)
  {
    if toRemove != [] {
      var rest := toRemove[1..];
      assert toRemove[0] in toRemove;
      RpsPositive(toRemove[0]);
      assert AllConsistent(rest);
      RemovedIsPart(api, rest);
      assert toRemove == [toRemove[0]] + rest;
      if Executed(api, toRemove[0].uuid) {
        assert RemovedBy(api, toRemove)[1..] == RemovedBy(api, rest);
      } else {
        assert RemovedBy(api, toRemove) == RemovedBy(api, rest);
      }
    }
  }

  /** The plan shrinks at most one group, the last one, and only when all others are removed; what
      is left of it has at least one replica and covers the target, and so does what goes. */
  lemma ShrinkShape(s: seq<Config>, target: real)
    requires AllConsistent(s)
    ensures |Shrink(s, target)| <= 1
    ensures forall u :: u in Shrink(s, target) ==>
      && s != [] && Removable(s, target) == |s| - 1 && u.config == s[|s| - 1]
      && 1 <= u.newReplica < u.config.allocatedReplica
      && target <= u.newReplica as real * u.config.qpsPerReplica
      && u.reducedDelta == u.newReplica as real * u.config.qpsPerReplica
      && target <= u.config.allocatedRPS - u.reducedDelta
  {
    hide Removable, Total;
    if Shrink(s, target) != [] {
      var c := s[|s| - 1];
      assert c in s;
      PositiveTarget(s, target);
      ReducedFacts(c, target);
    }
  }

  lemma PositiveTarget(s: seq<Config>, target: real)
    requires s != [] && Removable(s, target) == |s| - 1
    ensures 0.0 < target
  {
    hide Removable;
    assert s[|s|..] == [];
  }

  /** What a surplus that covers a positive target means for the group. */
  lemma ReducedFacts(c: Config, target: real)
    requires Consistent(c) && 0.0 < target <= Surplus(c, target) as real * c.qpsPerReplica
    ensures var u := Reduced(c, Surplus(c, target));
      && 1 <= u.newReplica < c.allocatedReplica && 0 < Surplus(c, target)
      && target <= u.newReplica as real * c.qpsPerReplica == u.reducedDelta
      && target <= c.allocatedRPS - u.reducedDelta
      && target <= c.allocatedRPS
  {
    FloorDecides(c, c.allocatedRPS - target);
    PositiveFactor(Surplus(c, target), c.qpsPerReplica);
  }

  lemma PositiveFactor(m: int, q: real)
    requires 0.0 < q && 0.0 < m as real * q
    ensures 0 < m
  {
    ScaledOrder(m as real, 0.0, q);
  }

  /** The test a caller could make before planning: the surplus of the last group covers a
      positive target. */
  ghost predicate SurplusCovers(s: seq<Config>, target: real)
    requires AllConsistent(s)
  {
    s != [] && 0.0 < target &&
    (var c := s[|s| - 1];
     assert c in s;
     target <= Surplus(c, target) as real * c.qpsPerReplica)
  }

  /** A plan shrinks a group exactly if that test holds. */
  lemma ShrinkIffSurplusCovers(s: seq<Config>, target: real)
    requires AllConsistent(s)
    ensures Shrink(s, target) != [] <==> SurplusCovers(s, target)
  {
    hide Total, Removable;
    if SurplusCovers(s, target) {
      LastDecides(s, target);
    } else if Shrink(s, target) != [] {
      PositiveTarget(s, target);
    }
  }

  /** If the surplus of the last group covers the target, all other groups go and that one stays. */
  lemma LastDecides(s: seq<Config>, target: real)
    requires AllConsistent(s) && SurplusCovers(s, target)
    ensures Removable(s, target) == |s| - 1 && 0 < Surplus(s[|s| - 1], target)
  {
    hide Removable, Surplus;
    var n, k := |s| - 1, Removable(s, target);
    var c := s[n];
    assert c in s;
    ReducedFacts(c, target);
    LastAlone(s);
    assert s[|s|..] == [];
    if k < n {
      assert s[k + 1..] == s[k + 1..n] + s[n..];
      TotalConcat(s[k + 1..n], s[n..]);
      TotalNonNegative(s[k + 1..n]);
    }
  }

  /** Scale-down is safe: whatever subset of the cluster calls is executed, the recorded RPS left
      reaches the target if it did before; and if it did not, nothing is touched. */
  lemma ScaleDownIsSafe(s: seq<Config>, target: real, api: map<string, Outcome>)
    requires AllConsistent(s)
    ensures var removed := RemovedBy(api, s[..Removable(s, target)]);
            var updated := UpdatedBy(api, Shrink(s, target));
      && (target <= Total(s) ==> target <= RecordedLeft(s, removed, updated))
      && (Total(s) < target ==> removed == [] && updated == [])
  {
    hide Total, Removable, Shrink, RemovedBy, UpdatedBy, Lost;
    var k := Removable(s, target);
    NothingExecuted(api);
    RemovedIsPart(api, s[..k]);
    TotalNonNegative(s[..k]);
    TotalSplit(s, k);
    assert s[0..] == s;
    ShrinkShape(s, target);
    var u := Shrink(s, target);
    if u != [] {
      assert u[0] in u;
      assert s[k] in s;
      RpsPositive(s[k]);
      LastAlone(s);
      LostOne(api, u);
    }
  }

  lemma NothingExecuted(api: map<string, Outcome>)
    ensures RemovedBy(api, []) == [] && UpdatedBy(api, []) == [] && Lost([]) == 0.0
  {}

  lemma LostOne(api: map<string, Outcome>, u: seq<ReduceInfo>)
    requires |u| == 1
    ensures UpdatedBy(api, u) == if Executed(api, u[0].config.uuid) then u else []
    ensures Lost(u) == u[0].config.allocatedRPS - u[0].newReplica as real * u[0].config.qpsPerReplica
  {
    assert u == [u[0]];
  }

  // ---------------------------------------------------------------- optimality

  /** Sum over a set of positions. */
  ghost function ChosenRPS(s: seq<Config>, chosen: set<int>): real {
    if s == [] then 0.0
    else
      var n := |s| - 1;
      ChosenRPS(s[..n], chosen) + (if n in chosen then s[n].allocatedRPS else 0.0)
  }

  ghost predicate Positions(s: seq<Config>, chosen: set<int>) {
    forall i :: i in chosen ==> 0 <= i < |s|
  }

  lemma {:induction false} PositionsBound(n: nat, chosen: set<int>)
    requires forall i :: i in chosen ==> 0 <= i < n
    ensures |chosen| <= n
  {
    if n == 0 {
      if chosen != {} {
        var i := SomeElement(chosen);
      }
    } else {
      PositionsBound(n - 1, chosen - {n - 1});
    }
  }

  /** Exchange argument: no set of groups is cheaper than the prefix of the same size. */
  lemma {:induction false} PrefixIsCheapest(s: seq<Config>, chosen: set<int>)
    requires Sorted(s) && Positions(s, chosen)
    ensures |chosen| <= |s| && Total(s[..|chosen|]) <= ChosenRPS(s, chosen)
  {
    PositionsBound(|s|, chosen);
    if s == [] {
      assert chosen == {};
    } else {
      var n := |s| - 1;
      var init, rest := s[..n], chosen - {n};
      PrefixIsCheapest(init, rest);
      SameChoice(init, chosen, rest);
      if n in chosen {
        var m := |rest|;
        assert init[..m] == s[..m];
        assert s[..m + 1] == s[..m] + [s[m]];
        TotalConcat(s[..m], [s[m]]);
      } else {
        assert rest == chosen;
        assert init[..|chosen|] == s[..|chosen|];
      }
    }
  }

  lemma {:induction false} SameChoice(s: seq<Config>, a: set<int>, b: set<int>)
    requires forall i :: 0 <= i < |s| ==> (i in a <==> i in b)
    ensures ChosenRPS(s, a) == ChosenRPS(s, b)
  {
    if s != [] {
      SameChoice(s[..|s| - 1], a, b);
    }
  }

  /** Greedy optimality: any set of whole groups whose removal leaves the target has at most as
      many members as the removed prefix. */
  lemma GreedyRemovesMost(s: seq<Config>, target: real, chosen: set<int>)
    requires AllConsistent(s) && Sorted(s) && Positions(s, chosen)
    requires target <= Total(s) - ChosenRPS(s, chosen)
    ensures |chosen| <= Removable(s, target)
  {
    hide Total, ChosenRPS, Removable;
    var k := Removable(s, target);
    PrefixIsCheapest(s, chosen);
    if k < |chosen| {
      TotalSplit(s, |chosen|);
      assert s[k + 1..] == s[k + 1..|chosen|] + s[|chosen|..];
      TotalConcat(s[k + 1..|chosen|], s[|chosen|..]);
      TotalNonNegative(s[k + 1..|chosen|]);
    }
  }
}

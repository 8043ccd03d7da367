/** Planning replica groups: the search for the best (sm, quota) point of one GPU, the greedy pass
    over the GPUs, and the commit of what was planned. */
module ConfigFinder {
  import opened Arithmetic
  import opened Configs
  import opened GpuLedger
  import opened Options
  import opened Shelves
  import opened ShelfCapacity
  import opened ShelfRelease

  /** The measured throughput of one model; quotas are kept in percent. */
  datatype ProfileKey = ProfileKey(gpuType: string, sm: int, quotaPercent: int)

  type Profile = map<ProfileKey, real>

  /** The entry of the store for a point; 0 if there is none. */
  function Entry(profile: Profile, gpuType: string, sm: int, quota: real): (qps: real)
    ensures 0.0 <= qps
  {
    var key := ProfileKey(gpuType, sm, Round(quota * 100.0));
    if key in profile && profile[key] > 0.0 then profile[key] else 0.0
  }

  /** That is the stored value at the nearest percent, if it is positive. */
  lemma EntryAtPercent(profile: Profile, gpuType: string, sm: int, quota: real, percent: int)
    requires 0.0 <= quota && -0.5 <= quota * 100.0 - percent as real < 0.5
    ensures var key := ProfileKey(gpuType, sm, percent);
      && (key in profile && 0.0 < profile[key] ==> Entry(profile, gpuType, sm, quota) == profile[key])
      && (key !in profile || profile[key] <= 0.0 ==> Entry(profile, gpuType, sm, quota) == 0.0)
  {
    assert Round(quota * 100.0) == percent;
  }

  /** The multiples of `roundBy` around an SM percentage. */
  function LowerSM(sm: int, roundBy: int): int
    requires roundBy != 0
  {
    TruncatedDiv(sm, roundBy) * roundBy
  }

  function UpperSM(sm: int, roundBy: int): int
    requires roundBy != 0
  {
    if LowerSM(sm, roundBy) == sm then sm else LowerSM(sm, roundBy) + roundBy
  }

  /** They are the nearest multiples below and above. */
  lemma Neighbours(sm: int, roundBy: int)
    requires 0 <= sm && 0 < roundBy
    ensures exists k :: LowerSM(sm, roundBy) == k * roundBy
    ensures exists k :: UpperSM(sm, roundBy) == k * roundBy
    ensures sm - roundBy < LowerSM(sm, roundBy) <= sm <= UpperSM(sm, roundBy) < sm + roundBy
  {
    var q, rest := sm / roundBy, sm % roundBy;
    assert sm == q * roundBy + rest;
    assert LowerSM(sm, roundBy) == q * roundBy;
    assert UpperSM(sm, roundBy) == (if rest == 0 then q else q + 1) * roundBy;
  }

  /** The throughput at a point: its entry if there is one; otherwise, when rounding is asked for, a
      value between the entries at the neighbouring SM percentages, those that exist, and 0 exactly if
      neither does. */
  function GetQPS(profile: Profile, gpuType: string, sm: int, quota: real, roundBy: int): (qps: real)
    ensures 0.0 <= qps
    ensures var exact := Entry(profile, gpuType, sm, quota); 0.0 < exact || roundBy == 0 ==> qps == exact
    ensures roundBy != 0 && Entry(profile, gpuType, sm, quota) == 0.0 ==>
      var a := Entry(profile, gpuType, LowerSM(sm, roundBy), quota);
      var b := Entry(profile, gpuType, UpperSM(sm, roundBy), quota);
      && (qps == 0.0 <==> a == 0.0 && b == 0.0)
      && (qps <= a || qps <= b) && (0.0 < a <= qps || 0.0 < b <= qps || qps == 0.0)
      && (0.0 < a && 0.0 < b ==> qps - a == b - qps)
  {
    var exact := Entry(profile, gpuType, sm, quota);
    if exact > 0.0 || roundBy == 0 then exact
    else
      var lower := Entry(profile, gpuType, LowerSM(sm, roundBy), quota);
      var upper := Entry(profile, gpuType, UpperSM(sm, roundBy), quota);
      if lower > 0.0 && upper > 0.0 then (lower + upper) / 2.0
      else if lower > 0.0 then lower
      else upper
  }

  predicate FitsMemory(g: Gpu, memory: int) { memory <= g.totalMemory }

  predicate Fits(g: Gpu, sm: int, quota: real, memory: int) {
    sm <= 100 && memory <= AvailableMemory(g) && quota <= 1.0 && CanFit(g.packer, quota, sm)
  }

  // -------------------------------------------------------- one GPU: the search

  /** What a search looks at: profile, GPU, QPS still wanted, memory per replica. */
  datatype Search = Search(
    profile: Profile,
    gpu: Gpu,
    remainingQPS: real,
    memory: int,
    allocationType: AllocationType,
    uuid: string)

  ghost predicate GpuOk(g: Gpu) {
    Inv(g.packer) && g.packer.maxHeight == g.totalSM && 0 < g.totalSM
  }

  ghost predicate SearchOk(s: Search) {
    GpuOk(s.gpu) && 0 < s.memory
  }

  /** A grid point: an SM percentage and a quota in tenths. */
  datatype Point = Point(sm: int, tenths: int)

  function QuotaAt(tenths: int): real { tenths as real / 10.0 }

  function SmStart(s: Search): int { if s.allocationType.Exclusive? then s.gpu.totalSM else 1 }

  function TenthsStart(s: Search): int { if s.allocationType.Exclusive? then 10 else 1 }

  predicate InGrid(s: Search, p: Point) {
    SmStart(s) <= p.sm <= s.gpu.totalSM && TenthsStart(s) <= p.tenths <= 10
  }

  /** Scan order: by SM first, then by quota. */
  predicate Before(p: Point, q: Point) {
    p.sm < q.sm || (p.sm == q.sm && p.tenths < q.tenths)
  }

  function QpsAt(s: Search, p: Point): (qps: real)
    ensures 0.0 <= qps
  {
    GetQPS(s.profile, s.gpu.gpuType, p.sm, QuotaAt(p.tenths), 0)
  }

  predicate Feasible(s: Search, p: Point) {
    Fits(s.gpu, p.sm, QuotaAt(p.tenths), s.memory) && QpsAt(s, p) != 0.0
  }

  /** QPS per unit of SM times quota. */
  function EfficiencyOf(qps: real, sm: int, quota: real): real
    requires 0 < sm && 0.0 < quota
  {
    qps / (sm as real * quota)
  }

  function Efficiency(s: Search, p: Point): real
    requires 0 < p.sm && 0 < p.tenths
  {
    EfficiencyOf(QpsAt(s, p), p.sm, QuotaAt(p.tenths))
  }

  /** All replicas that the shelves and the reported memory allow. */
  function Possible(g: Gpu, sm: int, quota: real, memory: int): int
    requires 0 < memory
  {
    Min(MaxInsertable(g.packer, quota, sm), AvailableMemory(g) / memory)
  }

  lemma MemoryAllows(available: int, memory: int, room: int)
    requires 0 < memory
    ensures var n := Min(room, available / memory);
      n <= room && n * memory <= available && (n == room || available < (n + 1) * memory)
  {
    var q, rest := available / memory, available % memory;
    assert available == q * memory + rest;
    assert (q + 1) * memory == q * memory + memory;
    MulLe(Min(room, q), q, memory);
  }

  /** That is the largest count that neither rules out. */
  lemma PossibleIs(g: Gpu, sm: int, quota: real, memory: int)
    requires 0 < memory
    ensures var n, room := Possible(g, sm, quota, memory), MaxInsertable(g.packer, quota, sm);
      && n <= room && n * memory <= g.totalMemory - g.usageMemory
      && (n == room || g.totalMemory - g.usageMemory < (n + 1) * memory)
  {
    hide MaxInsertable;
    MemoryAllows(AvailableMemory(g), memory, MaxInsertable(g.packer, quota, sm));
  }

  /** Replicas planned: all that are possible, or as many as the remaining QPS calls for. */
  function PlannedReplicas(qps: real, possible: int, remaining: real): int
    requires qps != 0.0
  {
    if qps * possible as real > remaining then Ceiling(remaining / qps) else possible
  }

  function ConfigOf(s: Search, sm: int, quota: real, qps: real): Config
    requires 0 < s.memory && 0 < sm && 0.0 < quota && qps != 0.0
  {
    var n := PlannedReplicas(qps, Possible(s.gpu, sm, quota, s.memory), s.remainingQPS);
    Config(s.uuid, s.allocationType, s.gpu.uuid, quota, sm, s.memory, n, qps,
           qps * n as real, EfficiencyOf(qps, sm, quota), 0, 0.0)
  }

  function ConfigAt(s: Search, p: Point): Config
    requires 0 < s.memory && 0 < p.sm && 0 < p.tenths && QpsAt(s, p) != 0.0
  {
    ConfigOf(s, p.sm, QuotaAt(p.tenths), QpsAt(s, p))
  }

  /** The first point in scan order of maximal efficiency among the feasible ones. */
  ghost predicate IsBest(s: Search, best: Point) {
    && InGrid(s, best) && 0 < best.sm && Feasible(s, best)
    && forall p :: InGrid(s, p) && 0 < p.sm && Feasible(s, p) ==>
         && Efficiency(s, p) <= Efficiency(s, best)
         && (Before(p, best) ==> Efficiency(s, p) < Efficiency(s, best))
  }

  ghost predicate AnyFeasible(s: Search) {
    exists p :: InGrid(s, p) && Feasible(s, p)
  }

  // ------------------------------------------------- the same, on the numbers of a GPU

  /** The share of a GPU that one replica takes. */
  function Share(sm: int, quota: real): real { sm as real * quota }

  /** A replica with this SM percentage and this many tenths of quota fits now and has this throughput;
      an exclusive request takes the whole GPU. */
  ghost predicate Offers(s: Search, sm: int, k: int, qps: real) {
    && 1 <= sm <= s.gpu.totalSM && sm <= 100 && 1 <= k <= 10
    && (s.allocationType == Exclusive ==> sm == s.gpu.totalSM && k == 10)
    && s.memory <= s.gpu.totalMemory - s.gpu.usageMemory
    && Insert(s.gpu.packer, k as real / 10.0, sm).id.Some?
    && qps == GetQPS(s.profile, s.gpu.gpuType, sm, k as real / 10.0, 0) && 0.0 < qps
  }

  ghost predicate AnyOffer(s: Search) {
    exists sm, k, qps :: Offers(s, sm, k, qps)
  }

  /** A plan has more throughput for its share of the GPU than any offer, and as much only as later ones. */
  ghost predicate MostEfficient(s: Search, c: Config) {
    forall sm, k, qps :: Offers(s, sm, k, qps) ==>
      var share := Share(sm, k as real / 10.0);
      && qps * Share(c.smPartition, c.quotaReq) <= c.qpsPerReplica * share
      && (sm < c.smPartition || (sm == c.smPartition && k as real / 10.0 < c.quotaReq) ==>
            qps * Share(c.smPartition, c.quotaReq) < c.qpsPerReplica * share)
  }

  /** The number of replicas: what shelves and memory allow, or what the wanted QPS calls for. */
  ghost predicate RightCount(s: Search, c: Config) {
    var n, room := c.requiredReplica, MaxInsertable(s.gpu.packer, c.quotaReq, c.smPartition);
    var available := s.gpu.totalMemory - s.gpu.usageMemory;
    && 1 <= n <= room && n * s.memory <= available
    && c.satisfiableRPS == c.qpsPerReplica * n as real
    && (|| (c.satisfiableRPS <= s.remainingQPS && (n == room || available < (n + 1) * s.memory))
        || s.remainingQPS <= c.satisfiableRPS < s.remainingQPS + c.qpsPerReplica)
  }

  /** What a plan for a GPU is, field by field. */
  ghost predicate BestPlan(s: Search, c: Config) {
    && c.uuid == s.uuid && c.gpuUUID == s.gpu.uuid && c.memoryReq == s.memory
    && c.allocationType == s.allocationType && c.allocatedReplica == 0 && c.allocatedRPS == 0.0
    && (exists k :: Offers(s, c.smPartition, k, c.qpsPerReplica) && c.quotaReq == k as real / 10.0)
    && (s.allocationType == Exclusive ==> c.smPartition == s.gpu.totalSM && c.quotaReq == 1.0)
    && MostEfficient(s, c)
    && c.efficiencyScore * Share(c.smPartition, c.quotaReq) == c.qpsPerReplica
    && RightCount(s, c)
  }

  /** The points a search considers and finds feasible are what the GPU offers. */
  lemma FeasibleIsOffer(s: Search, sm: int, k: int, qps: real)
    requires SearchOk(s)
    ensures Offers(s, sm, k, qps) <==>
      InGrid(s, Point(sm, k)) && 0 < sm && Feasible(s, Point(sm, k)) && qps == QpsAt(s, Point(sm, k))
  {
    hide Inv, Insert, CanFit, GetQPS;
    PredictorsAgree(s.gpu.packer, k as real / 10.0, sm);
  }

  lemma ShareIsPositive(sm: int, tenths: int)
    requires 0 < sm && 0 < tenths
    ensures 0.0 < Share(sm, QuotaAt(tenths))
  {
    ScaleLt(0.0, sm as real, QuotaAt(tenths));
  }

  lemma EfficiencyOnNumbers(s: Search, p: Point, q: Point)
    requires 0 < p.sm && 0 < p.tenths && 0 < q.sm && 0 < q.tenths
    ensures Efficiency(s, q) <= Efficiency(s, p) <==>
      QpsAt(s, q) * Share(p.sm, QuotaAt(p.tenths)) <= QpsAt(s, p) * Share(q.sm, QuotaAt(q.tenths))
    ensures Efficiency(s, q) < Efficiency(s, p) <==>
      QpsAt(s, q) * Share(p.sm, QuotaAt(p.tenths)) < QpsAt(s, p) * Share(q.sm, QuotaAt(q.tenths))
  {
    hide QpsAt, Share, QuotaAt;
    ShareIsPositive(p.sm, p.tenths);
    ShareIsPositive(q.sm, q.tenths);
    EfficiencyIsRatio(s, p);
    EfficiencyIsRatio(s, q);
    CompareRatios(QpsAt(s, p), Share(p.sm, QuotaAt(p.tenths)), QpsAt(s, q), Share(q.sm, QuotaAt(q.tenths)));
  }

  lemma EfficiencyIsRatio(s: Search, p: Point)
    requires 0 < p.sm && 0 < p.tenths
    ensures Share(p.sm, QuotaAt(p.tenths)) != 0.0
    ensures Efficiency(s, p) == QpsAt(s, p) / Share(p.sm, QuotaAt(p.tenths))
  {
    ShareIsPositive(p.sm, p.tenths);
  }

  lemma OfferNoBetter(s: Search, p: Point, sm: int, k: int, qps: real)
    requires SearchOk(s) && IsBest(s, p) && Offers(s, sm, k, qps)
    ensures qps * Share(p.sm, QuotaAt(p.tenths)) <= QpsAt(s, p) * Share(sm, QuotaAt(k))
    ensures sm < p.sm || (sm == p.sm && QuotaAt(k) < QuotaAt(p.tenths)) ==>
      qps * Share(p.sm, QuotaAt(p.tenths)) < QpsAt(s, p) * Share(sm, QuotaAt(k))
  {
    hide Efficiency, QpsAt, Feasible, Offers, GpuOk, Share;
    FeasibleIsOffer(s, sm, k, qps);
    EfficiencyOnNumbers(s, p, Point(sm, k));
  }

  lemma BestIsMostEfficient(s: Search, p: Point)
    requires SearchOk(s) && IsBest(s, p)
    ensures MostEfficient(s, ConfigAt(s, p))
  {
    hide QpsAt, PlannedReplicas, Possible, Offers, GpuOk, IsBest, Share;
    BestInGrid(s, p);
    forall sm, k, qps | Offers(s, sm, k, qps)
      ensures var c, share := ConfigAt(s, p), Share(sm, k as real / 10.0);
        && qps * Share(c.smPartition, c.quotaReq) <= c.qpsPerReplica * share
        && (sm < c.smPartition || (sm == c.smPartition && k as real / 10.0 < c.quotaReq) ==>
              qps * Share(c.smPartition, c.quotaReq) < c.qpsPerReplica * share)
    {
      OfferNoBetter(s, p, sm, k, qps);
    }
  }

  lemma OffersIff(s: Search)
    requires SearchOk(s)
    ensures AnyOffer(s) <==> AnyFeasible(s)
  {
    hide Offers, Feasible, GpuOk, QpsAt;
    if sm, k, qps :| Offers(s, sm, k, qps) {
      FeasibleIsOffer(s, sm, k, qps);
    }
    if p :| InGrid(s, p) && Feasible(s, p) {
      GridIsPositive(s, p);
      FeasibleIsOffer(s, p.sm, p.tenths, QpsAt(s, p));
    }
  }

  lemma GridIsPositive(s: Search, p: Point)
    requires SearchOk(s) && InGrid(s, p)
    ensures 0 < p.sm && p == Point(p.sm, p.tenths)
  {
    hide Inv;
  }

  lemma BestInGrid(s: Search, p: Point)
    requires IsBest(s, p)
    ensures InGrid(s, p) && 0 < p.sm && 0 < p.tenths && Feasible(s, p) && QpsAt(s, p) != 0.0
  {}

  lemma EfficiencyTimesShare(qps: real, sm: int, tenths: int)
    requires 0 < sm && 0 < tenths
    ensures EfficiencyOf(qps, sm, QuotaAt(tenths)) * Share(sm, QuotaAt(tenths)) == qps
  {
    ShareIsPositive(sm, tenths);
    Quotient(qps, Share(sm, QuotaAt(tenths)));
  }

  /** The plan of the best point is that plan. */
  lemma BestIsBestPlan(s: Search, p: Point)
    requires SearchOk(s) && 0.0 < s.remainingQPS && IsBest(s, p)
    ensures BestPlan(s, ConfigAt(s, p))
  {
    hide QpsAt, PlannedReplicas, Possible, Feasible, Offers, GpuOk, MostEfficient, EfficiencyOf, QuotaAt, MaxInsertable;
    var qps := QpsAt(s, p);
    BestIsMostEfficient(s, p);
    FeasibleIsOffer(s, p.sm, p.tenths, qps);
    EfficiencyTimesShare(qps, p.sm, p.tenths);
    CountIsRight(s, p);
    QuotaIsTenths(p.tenths);
  }

  lemma QuotaIsTenths(k: int)
    ensures QuotaAt(k) == k as real / 10.0 && QuotaAt(10) == 1.0
  {}

  lemma CountIsRight(s: Search, p: Point)
    requires SearchOk(s) && 0.0 < s.remainingQPS && InGrid(s, p) && 0 < p.sm && Feasible(s, p)
    ensures RightCount(s, ConfigAt(s, p))
  {
    hide QpsAt, PlannedReplicas, EfficiencyOf, QuotaAt, MaxInsertable, Inv;
    FeasiblePossible(s, p);
    var possible := Possible(s.gpu, p.sm, QuotaAt(p.tenths), s.memory);
    ReplicasFit(QpsAt(s, p), possible, s.remainingQPS);
    PossibleIs(s.gpu, p.sm, QuotaAt(p.tenths), s.memory);
    MulLe(ConfigAt(s, p).requiredReplica, possible, s.memory);
  }

  /** There is only one such point. */
  lemma BestIsUnique(s: Search, a: Point, b: Point)
    requires IsBest(s, a) && IsBest(s, b)
    ensures a == b
  {
    assert Before(a, b) || Before(b, a) || a == b;
  }

  /** State of the scan: everything before `here` was looked at. */
  ghost predicate Scanned(s: Search, found: Option<Point>, here: Point) {
    match found
    case None => forall p :: InGrid(s, p) && Before(p, here) ==> !Feasible(s, p)
    case Some(best) =>
      && InGrid(s, best) && 0 < best.sm && Before(best, here) && Feasible(s, best)
      && forall p :: InGrid(s, p) && 0 < p.sm && Before(p, here) && Feasible(s, p) ==>
           && Efficiency(s, p) <= Efficiency(s, best)
           && (Before(p, best) ==> Efficiency(s, p) < Efficiency(s, best))
  }

  /** What the scan makes of one point. */
  function Pick(s: Search, found: Option<Point>, here: Point): Option<Point>
    requires 0 < here.sm && 0 < here.tenths
    requires found.Some? ==> 0 < found.value.sm && 0 < found.value.tenths
  {
    if !Feasible(s, here) then found
    else if found.None? || Efficiency(s, here) > Efficiency(s, found.value) then Some(here)
    else found
  }

  lemma ScanStep(s: Search, found: Option<Point>, here: Point)
    requires SearchOk(s) && InGrid(s, here) && Scanned(s, found, here)
    ensures Scanned(s, Pick(s, found, here), Point(here.sm, here.tenths + 1))
  {
    hide Feasible, Efficiency;
    var next := Point(here.sm, here.tenths + 1);
    assert forall p :: Before(p, next) <==> Before(p, here) || p == here;
  }

  lemma ScanRow(s: Search, found: Option<Point>, sm: int)
    requires Scanned(s, found, Point(sm, 11))
    ensures Scanned(s, found, Point(sm + 1, TenthsStart(s)))
  {
    hide Feasible, Efficiency;
    var a, b := Point(sm, 11), Point(sm + 1, TenthsStart(s));
    assert forall p :: InGrid(s, p) ==> (Before(p, a) <==> Before(p, b));
    assert found.Some? && InGrid(s, found.value) && Before(found.value, a) ==> Before(found.value, b);
  }

  lemma ScanDone(s: Search, found: Option<Point>)
    requires SearchOk(s) && Scanned(s, found, Point(s.gpu.totalSM + 1, TenthsStart(s)))
    ensures found.Some? ==> IsBest(s, found.value)
    ensures found.None? ==> forall p :: InGrid(s, p) ==> !Feasible(s, p)
  {
    hide Feasible, Efficiency;
    var stop := Point(s.gpu.totalSM + 1, TenthsStart(s));
    assert forall p :: InGrid(s, p) ==> Before(p, stop);
  }

  lemma ScanStart(s: Search)
    ensures Scanned(s, None, Point(SmStart(s), TenthsStart(s)))
  {}

  /** The config kept by the scan is the plan of the point it found. */
  ghost predicate Records(s: Search, found: Option<Point>, best: Option<Config>) {
    match found
    case None => best.None?
    case Some(p) =>
      && 0 < s.memory && 0 < p.sm && 0 < p.tenths && QpsAt(s, p) != 0.0
      && best == Some(ConfigAt(s, p))
  }

  function Better(best: Option<Config>, candidate: Option<Config>): Option<Config> {
    if candidate.Some? && (best.None? || candidate.value.efficiencyScore > best.value.efficiencyScore)
    then candidate else best
  }

  lemma PickRecords(s: Search, found: Option<Point>, here: Point, best: Option<Config>, candidate: Option<Config>)
    requires 0 < s.memory && 0 < here.sm && 0 < here.tenths
    requires Records(s, found, best)
    requires candidate.None? <==> !Feasible(s, here)
    requires candidate.Some? ==> Records(s, Some(here), candidate)
    ensures Records(s, Pick(s, found, here), Better(best, candidate))
  {}

  // ------------------------------------------------------- what a plan promises

  /** A plan for a GPU: at least one replica, and no more than the shelves and the memory allow. */
  ghost predicate PlannedOn(g: Gpu, c: Config, memory: int) {
    && 0 < memory == c.memoryReq && c.gpuUUID == g.uuid
    && 0.0 < c.qpsPerReplica && 0.0 < c.quotaReq <= 1.0 && 0 < c.smPartition <= g.totalSM
    && 1 <= c.requiredReplica <= Possible(g, c.smPartition, c.quotaReq, memory)
    && c.satisfiableRPS == c.qpsPerReplica * c.requiredReplica as real
  }

  /** Either the plan uses all possible replicas without exceeding the QPS still wanted, or it
      reaches that QPS with less than one replica too much. */
  ghost predicate Budgeted(g: Gpu, c: Config, memory: int, wanted: real)
    requires 0 < memory
  {
    || (c.requiredReplica == Possible(g, c.smPartition, c.quotaReq, memory) && c.satisfiableRPS <= wanted)
    || (wanted <= c.satisfiableRPS < wanted + c.qpsPerReplica)
  }

  lemma CeilingBounds(r: real, q: real, m: int)
    requires 0.0 < r && 0.0 < q && r < q * m as real
    ensures var n := Ceiling(r / q);
      && 1 <= n <= m
      && r <= q * n as real < r + q
  {
    QuotientBetween(r, q, m as real);
    CeilingScaled(r, q, Ceiling(r / q) as real);
  }

  lemma QuotientBetween(r: real, q: real, y: real)
    requires 0.0 < r && 0.0 < q && r < q * y
    ensures 0.0 < r / q < y
  {
    var a := q * y;
    QuotientUnique(a, q, y);
    QuotientOrder(a, r, q);
    QuotientUnique(0.0, q, 0.0);
    QuotientOrder(r, 0.0, q);
  }

  lemma CeilingScaled(r: real, q: real, y: real)
    requires 0.0 < q && y - 1.0 < r / q <= y
    ensures r <= q * y < r + q
  {
    var a := q * y;
    QuotientUnique(a, q, y);
    QuotientOrder(r, a, q);
    var b := r + q;
    QuotientTakeOne(b, q);
    assert b - q == r;
    QuotientOrder(b, a, q);
  }

  lemma ReplicasFit(qps: real, possible: int, remaining: real)
    requires 0.0 < qps && 1 <= possible && 0.0 < remaining
    ensures var n := PlannedReplicas(qps, possible, remaining);
      && 1 <= n <= possible
      && ((n == possible && qps * n as real <= remaining) || remaining <= qps * n as real < remaining + qps)
  {
    if qps * possible as real > remaining {
      CeilingBounds(remaining, qps, possible);
    }
  }

  /** A feasible point always admits at least one replica. */
  lemma FeasiblePossible(s: Search, p: Point)
    requires SearchOk(s) && InGrid(s, p) && 0 < p.sm && Feasible(s, p)
    ensures 0.0 < QuotaAt(p.tenths) <= 1.0
    ensures 1 <= Possible(s.gpu, p.sm, QuotaAt(p.tenths), s.memory)
  {
    hide Inv, MaxInsertable;
    PredictorsAgree(s.gpu.packer, QuotaAt(p.tenths), p.sm);
    DivMonotone(s.memory, AvailableMemory(s.gpu), s.memory);
    DivTakeOne(s.memory, s.memory);
  }

  lemma PlanFits(s: Search, p: Point)
    requires SearchOk(s) && 0.0 < s.remainingQPS && InGrid(s, p) && 0 < p.sm && Feasible(s, p)
    ensures PlannedOn(s.gpu, ConfigAt(s, p), s.memory)
    ensures Budgeted(s.gpu, ConfigAt(s, p), s.memory, s.remainingQPS)
  {
    hide PlannedReplicas, Possible;
    FeasiblePossible(s, p);
    ReplicasFit(QpsAt(s, p), Possible(s.gpu, p.sm, QuotaAt(p.tenths), s.memory), s.remainingQPS);
  }

  lemma PlanUuid(s: Search, p: Point)
    requires 0 < s.memory && 0 < p.sm && 0 < p.tenths && QpsAt(s, p) != 0.0
    ensures ConfigAt(s, p).uuid == s.uuid
  {}

  /** The body of the scan: the checks and the arithmetic for one point. */
  method Evaluate(s: Search, sm: int, quota: real, ghost here: Point) returns (candidate: Option<Config>)
    requires SearchOk(s) && InGrid(s, here) && here.sm == sm && quota == QuotaAt(here.tenths)
    ensures candidate.None? <==> !Feasible(s, here)
    ensures candidate.Some? ==> Records(s, Some(here), candidate)
  {
    if !Fits(s.gpu, sm, quota, s.memory) {
      return None;
    }
    var qpsPerReplica := GetQPS(s.profile, s.gpu.gpuType, sm, quota, 0);
    if qpsPerReplica == 0.0 {
      return None;
    }
    hide MaxInsertable, Inv, CanFit, GetQPS, ConfigOf;
    var config := PlanAt(s, sm, quota, qpsPerReplica);
    candidate := Some(config);
  }

  method PlanAt(s: Search, sm: int, quota: real, qpsPerReplica: real) returns (config: Config)
    requires 0 < s.memory && 0 < sm && 0.0 < quota && qpsPerReplica != 0.0
    ensures config == ConfigOf(s, sm, quota, qpsPerReplica)
  {
    hide MaxInsertable;
    var possibleReplicas := Min(MaxInsertable(s.gpu.packer, quota, sm), AvailableMemory(s.gpu) / s.memory);
    var achievableQPS := qpsPerReplica * possibleReplicas as real;
    if achievableQPS > s.remainingQPS {
      possibleReplicas := Ceiling(s.remainingQPS / qpsPerReplica);
      achievableQPS := qpsPerReplica * possibleReplicas as real;
    }
    var resourceUnits := sm as real * quota;
    var efficiency := qpsPerReplica / resourceUnits;
    config := Config(s.uuid, s.allocationType, s.gpu.uuid, quota, sm, s.memory,
                     possibleReplicas, qpsPerReplica, achievableQPS, efficiency, 0, 0.0);
  }

  /** The inner loop: one SM percentage, all quotas. */
  method ScanQuotas(s: Search, sm: int, best0: Option<Config>, ghost at0: Option<Point>)
    returns (best: Option<Config>, ghost at: Option<Point>)
    requires SearchOk(s) && SmStart(s) <= sm <= s.gpu.totalSM
    requires Scanned(s, at0, Point(sm, TenthsStart(s))) && Records(s, at0, best0)
    ensures Scanned(s, at, Point(sm + 1, TenthsStart(s))) && Records(s, at, best)
  {
    hide Feasible, Efficiency, Scanned, ConfigAt, QpsAt, Pick, Better, Inv;
    best, at := best0, at0;
    var quota := if s.allocationType.Exclusive? then 1.0 else 0.1;
    ghost var tenths := TenthsStart(s);
    while quota <= 1.0
      invariant TenthsStart(s) <= tenths <= 11 && quota == QuotaAt(tenths)
      invariant Scanned(s, at, Point(sm, tenths))
      invariant Records(s, at, best)
      decreases 11 - tenths
    {
      ghost var here := Point(sm, tenths);
      var candidate := Evaluate(s, sm, quota, here);
      PickRecords(s, at, here, best, candidate);
      best := Better(best, candidate);
      ScanStep(s, at, here);
      at := Pick(s, at, here);
      quota := quota + 0.1;
      tenths := tenths + 1;
    }
    ScanRow(s, at, sm);
  }

  /** The grid search. It returns nothing exactly when no QPS is wanted or no point is feasible, and
      otherwise the plan of the one best point. */
  method GetConfig(s: Search) returns (best: Option<Config>, ghost at: Option<Point>)
    requires SearchOk(s)
    ensures best.None? <==> s.remainingQPS <= 0.0 || !AnyOffer(s)
    ensures best.Some? ==> BestPlan(s, best.value)
    ensures best.None? <==> s.remainingQPS <= 0.0 || forall p :: InGrid(s, p) ==> !Feasible(s, p)
    ensures best.Some? ==> at.Some? && IsBest(s, at.value) && best.value == ConfigAt(s, at.value)
    ensures best.Some? ==> Found(s, best.value) && best.value.uuid == s.uuid
    ensures best.Some? ==> PlannedOn(s.gpu, best.value, s.memory)
    ensures best.Some? ==> Budgeted(s.gpu, best.value, s.memory, s.remainingQPS)
  {
    best, at := None, None;
    if s.remainingQPS <= 0.0 {
      return;
    }
    hide Feasible, Efficiency, InGrid, Scanned, ConfigAt, QpsAt, PlannedOn, Budgeted, Inv, AnyOffer, BestPlan;
    ScanStart(s);
    var sm := if s.allocationType.Exclusive? then s.gpu.totalSM else 1;
    while sm <= s.gpu.totalSM
      invariant SmStart(s) <= sm <= s.gpu.totalSM + 1
      invariant Scanned(s, at, Point(sm, TenthsStart(s)))
      invariant Records(s, at, best)
    {
      best, at := ScanQuotas(s, sm, best, at);
      sm := sm + 1;
    }
    ScanDone(s, at);
    OffersIff(s);
    if at.Some? {
      BestIsBestPlan(s, at.value);
      PlanFits(s, at.value);
      PlanUuid(s, at.value);
      assert FoundAt(s, at.value, best.value);
    }
  }

  // ------------------------------------------------------- many GPUs: the budget

  function Satisfied(configs: seq<Config>): real {
    if configs == [] then 0.0 else Satisfied(configs[..|configs| - 1]) + configs[|configs| - 1].satisfiableRPS
  }

  /** What one request asks of the GPUs. */
  datatype Request = Request(
    profile: Profile,
    qps: real,
    memory: int,
    allocationType: AllocationType)

  function SearchOn(r: Request, g: Gpu, remaining: real, uuid: string): Search {
    Search(r.profile, g, remaining, r.memory, r.allocationType, uuid)
  }

  /** A GPU on which the request could place something. */
  ghost predicate Usable(r: Request, g: Gpu) {
    && FitsMemory(g, r.memory)
    && AnyFeasible(SearchOn(r, g, r.qps, ""))
  }

  /** Where the pass stands after the first `tried` GPUs: the plans come from GPUs of that prefix in
      order, one each, and every usable GPU of the prefix has one. */
  ghost predicate Passed(r: Request, gpus: seq<Gpu>, tried: nat, configs: seq<Config>, source: seq<nat>) {
    && tried <= |gpus| && |source| == |configs|
    && (forall i :: 0 <= i < |configs| ==> source[i] < tried && PlannedOn(gpus[source[i]], configs[i], r.memory))
    && (forall i, j :: 0 <= i < j < |configs| ==> source[i] < source[j])
    && (forall k :: 0 <= k < tried && Usable(r, gpus[k]) ==> k in source)
    && (forall i :: 0 <= i < |configs| ==> Usable(r, gpus[source[i]]))
  }

  /** The budget: what is satisfied and what remains add up to the request; all plans but the last
      use everything their GPU offers at the chosen point; and an overshoot is less than one replica
      of the last plan. */
  ghost predicate Balanced(r: Request, gpus: seq<Gpu>, configs: seq<Config>, source: seq<nat>, remaining: real) {
    && 0 < r.memory && |source| == |configs|
    && Satisfied(configs) == r.qps - remaining
    && (forall i :: 0 <= i < |configs| ==> source[i] < |gpus|)
    && (forall i :: 0 <= i < |configs| && (i < |configs| - 1 || 0.0 < remaining) ==>
          configs[i].requiredReplica
          == Possible(gpus[source[i]], configs[i].smPartition, configs[i].quotaReq, r.memory))
    && (remaining < 0.0 && 0.0 < r.qps ==>
          configs != [] && -remaining < configs[|configs| - 1].qpsPerReplica)
  }

  ghost predicate FoundAt(s: Search, p: Point, c: Config) {
    0 < s.memory && 0.0 < s.remainingQPS && IsBest(s, p) && c == ConfigAt(s, p)
  }

  /** A plan that the search finds: that of its best point. */
  ghost predicate Found(s: Search, c: Config) {
    exists p :: FoundAt(s, p, c)
  }

  /** Every plan is the one the search finds on its GPU for the QPS still wanted at that time; as the
      best point is unique, this determines the plans up to their UUIDs. */
  ghost predicate Chosen(r: Request, gpus: seq<Gpu>, configs: seq<Config>, source: seq<nat>) {
    && |source| == |configs|
    && (configs != [] ==>
          var n := |configs| - 1;
          && Chosen(r, gpus, configs[..n], source[..n]) && source[n] < |gpus|
          && Found(SearchOn(r, gpus[source[n]], r.qps - Satisfied(configs[..n]), configs[n].uuid), configs[n]))
  }

  lemma ChosenTake(r: Request, gpus: seq<Gpu>, tried: nat, configs: seq<Config>, source: seq<nat>, c: Config)
    requires Chosen(r, gpus, configs, source) && tried < |gpus|
    requires Found(SearchOn(r, gpus[tried], r.qps - Satisfied(configs), c.uuid), c)
    ensures Chosen(r, gpus, configs + [c], source + [tried])
  {
    hide Found, Satisfied;
    assert (configs + [c])[..|configs|] == configs && (source + [tried])[..|configs|] == source;
  }

  /** The same plans, but for their UUIDs. */
  ghost predicate SamePlans(a: seq<Config>, b: seq<Config>) {
    |a| == |b| && forall i :: 0 <= i < |a| ==> b[i] == a[i].(uuid := b[i].uuid)
  }

  /** Two passes that draw on the same GPUs in the same order plan the same. */
  lemma {:induction false} ChosenDetermines(r: Request, gpus: seq<Gpu>, a: seq<Config>, b: seq<Config>, source: seq<nat>)
    requires Chosen(r, gpus, a, source) && Chosen(r, gpus, b, source)
    ensures SamePlans(a, b) && Satisfied(a) == Satisfied(b)
    decreases |a|
  {
    hide Found, SamePlans;
    if a != [] {
      var n := |a| - 1;
      ChosenDetermines(r, gpus, a[..n], b[..n], source[..n]);
      FoundSame(SearchOn(r, gpus[source[n]], r.qps - Satisfied(a[..n]), a[n].uuid), a[n], b[n]);
      SamePlansNext(a, b);
    } else {
      SamePlansNext(a, b);
    }
  }

  lemma SamePlansNext(a: seq<Config>, b: seq<Config>)
    requires |a| == |b|
    requires a != [] ==>
      var n := |a| - 1; SamePlans(a[..n], b[..n]) && b[n] == a[n].(uuid := b[n].uuid)
    ensures SamePlans(a, b)
  {
    forall i | 0 <= i < |a| ensures b[i] == a[i].(uuid := b[i].uuid) {
      if i < |a| - 1 { assert a[i] == a[..|a| - 1][i] && b[i] == b[..|a| - 1][i]; }
    }
  }

  lemma FoundSame(s: Search, a: Config, b: Config)
    requires Found(s, a) && Found(s.(uuid := b.uuid), b)
    ensures b == a.(uuid := b.uuid)
  {
    hide FoundAt;
    var t := s.(uuid := b.uuid);
    var p :| FoundAt(s, p, a);
    var q :| FoundAt(t, q, b);
    FoundRenamed(s, t, p, a);
    FoundOnce(t, p, q, a.(uuid := b.uuid), b);
  }

  /** What a pass finds on a GPU is that plan. */
  lemma FoundIsBestPlan(s: Search, c: Config)
    requires SearchOk(s) && Found(s, c)
    ensures BestPlan(s, c)
  {
    hide IsBest, ConfigAt, BestPlan, GpuOk;
    var p :| FoundAt(s, p, c);
    BestIsBestPlan(s, p);
  }

  /** The fields of a plan are determined by what it is. */
  lemma BestPlanIsUnique(s: Search, a: Config, b: Config)
    requires 0 < s.memory && BestPlan(s, a) && BestPlan(s, b)
    ensures a == b
  {
    hide Offers, Share, RightCount;
    var j :| Offers(s, a.smPartition, j, a.qpsPerReplica) && a.quotaReq == j as real / 10.0;
    var k :| Offers(s, b.smPartition, k, b.qpsPerReplica) && b.quotaReq == k as real / 10.0;
    assert a.smPartition == b.smPartition && a.quotaReq == b.quotaReq;
    OfferIsPositive(s, a.smPartition, j, a.qpsPerReplica);
    OfferIsPositive(s, b.smPartition, k, b.qpsPerReplica);
    SameShare(s, a, b, j);
    SameCount(s, a, b);
  }

  lemma OfferIsPositive(s: Search, sm: int, k: int, qps: real)
    requires Offers(s, sm, k, qps)
    ensures 0.0 < qps && qps == GetQPS(s.profile, s.gpu.gpuType, sm, k as real / 10.0, 0)
    ensures 0.0 < Share(sm, k as real / 10.0)
  {
    ShareIsPositive(sm, k);
  }

  lemma SameShare(s: Search, a: Config, b: Config, k: int)
    requires a.smPartition == b.smPartition && a.quotaReq == b.quotaReq && a.qpsPerReplica == b.qpsPerReplica
    requires 0.0 < Share(a.smPartition, a.quotaReq)
    requires a.efficiencyScore * Share(a.smPartition, a.quotaReq) == a.qpsPerReplica
    requires b.efficiencyScore * Share(b.smPartition, b.quotaReq) == b.qpsPerReplica
    ensures a.efficiencyScore == b.efficiencyScore
  {
    hide Share;
    var w := Share(a.smPartition, a.quotaReq);
    QuotientUnique(a.qpsPerReplica, w, a.efficiencyScore);
    QuotientUnique(a.qpsPerReplica, w, b.efficiencyScore);
  }

  lemma SameCount(s: Search, a: Config, b: Config)
    requires 0 < s.memory && RightCount(s, a) && RightCount(s, b)
    requires a.smPartition == b.smPartition && a.quotaReq == b.quotaReq && a.qpsPerReplica == b.qpsPerReplica
    requires 0.0 < a.qpsPerReplica
    ensures a.requiredReplica == b.requiredReplica && a.satisfiableRPS == b.satisfiableRPS
  {
    hide MaxInsertable;
    CountAtMost(s, a, b);
    CountAtMost(s, b, a);
  }

  lemma CountAtMost(s: Search, a: Config, b: Config)
    requires 0 < s.memory && RightCount(s, a) && RightCount(s, b)
    requires a.smPartition == b.smPartition && a.quotaReq == b.quotaReq && a.qpsPerReplica == b.qpsPerReplica
    requires 0.0 < a.qpsPerReplica
    ensures a.requiredReplica <= b.requiredReplica
  {
    hide MaxInsertable;
    var m, n, q := a.requiredReplica, b.requiredReplica, a.qpsPerReplica;
    if n < m {
      MulLe(n + 1, m, s.memory);
      OneMore(q, n, m);
    }
  }

  lemma OneMore(q: real, n: int, m: int)
    requires 0.0 < q && n < m
    ensures q * n as real + q <= q * m as real
  {
    ScaleLe((n + 1) as real, m as real, q);
  }

  lemma FoundOnce(s: Search, p: Point, q: Point, a: Config, b: Config)
    requires FoundAt(s, p, a) && FoundAt(s, q, b)
    ensures a == b
  {
    BestIsUnique(s, p, q);
  }

  lemma FoundRenamed(s: Search, t: Search, p: Point, c: Config)
    requires t == s.(uuid := t.uuid) && FoundAt(s, p, c)
    ensures FoundAt(t, p, c.(uuid := t.uuid))
  {
    hide MaxInsertable, CanFit, GetQPS;
    SameBest(s, t, p);
  }

  lemma SameBest(s: Search, t: Search, p: Point)
    requires t == s.(uuid := t.uuid) && IsBest(s, p)
    ensures IsBest(t, p)
  {
    assert forall q :: InGrid(s, q) <==> InGrid(t, q);
    assert forall q :: Feasible(s, q) <==> Feasible(t, q);
    assert forall q: Point :: 0 < q.sm && 0 < q.tenths ==> Efficiency(s, q) == Efficiency(t, q);
  }

  lemma UsableIff(r: Request, g: Gpu, s: Search)
    requires s == SearchOn(r, g, s.remainingQPS, s.uuid)
    ensures Usable(r, g) <==> FitsMemory(g, r.memory) && exists p :: InGrid(s, p) && Feasible(s, p)
  {
    var t := SearchOn(r, g, r.qps, "");
    assert forall p :: InGrid(s, p) <==> InGrid(t, p);
    assert forall p :: Feasible(s, p) <==> Feasible(t, p);
  }

  /** A GPU can serve a request: its total memory holds a replica and it offers some point. */
  ghost predicate Serves(r: Request, g: Gpu) {
    r.memory <= g.totalMemory && AnyOffer(SearchOn(r, g, r.qps, ""))
  }

  lemma UsableOnNumbers(r: Request, g: Gpu)
    requires GpuOk(g) && 0 < r.memory
    ensures Usable(r, g) <==> Serves(r, g)
  {
    hide AnyOffer, AnyFeasible, GpuOk;
    OffersIff(SearchOn(r, g, r.qps, ""));
  }

  lemma PassSkip(r: Request, gpus: seq<Gpu>, tried: nat, configs: seq<Config>, source: seq<nat>)
    requires Passed(r, gpus, tried, configs, source) && tried < |gpus| && !Usable(r, gpus[tried])
    ensures Passed(r, gpus, tried + 1, configs, source)
  {
    hide PlannedOn, Usable;
  }

  lemma PassTake(r: Request, gpus: seq<Gpu>, tried: nat, configs: seq<Config>, source: seq<nat>, c: Config)
    requires Passed(r, gpus, tried, configs, source) && tried < |gpus|
    requires Usable(r, gpus[tried]) && PlannedOn(gpus[tried], c, r.memory)
    ensures Passed(r, gpus, tried + 1, configs + [c], source + [tried])
  {
    hide PlannedOn, Usable;
    forall k | 0 <= k < tried + 1 && Usable(r, gpus[k]) ensures k in source + [tried] {
      if k == tried { assert (source + [tried])[|source|] == k; }
    }
  }

  lemma BudgetTake(r: Request, gpus: seq<Gpu>, tried: nat, configs: seq<Config>, source: seq<nat>, remaining: real, c: Config)
    requires Balanced(r, gpus, configs, source, remaining) && 0.0 < remaining
    requires tried < |gpus| && Budgeted(gpus[tried], c, r.memory, remaining)
    ensures Balanced(r, gpus, configs + [c], source + [tried], remaining - c.satisfiableRPS)
  {
    hide Possible;
    assert (configs + [c])[..|configs|] == configs;
  }

  lemma EmptyBalanced(r: Request, gpus: seq<Gpu>)
    requires 0 < r.memory
    ensures Balanced(r, gpus, [], [], r.qps) && Passed(r, gpus, 0, [], []) && Chosen(r, gpus, [], [])
  {}

  lemma RemainingIs(r: Request, gpus: seq<Gpu>, configs: seq<Config>, source: seq<nat>, remaining: real)
    requires Balanced(r, gpus, configs, source, remaining)
    ensures remaining == r.qps - Satisfied(configs)
  {}

  /** Every plan carries the UUID generated for it. */
  ghost predicate Named(configs: seq<Config>, source: seq<nat>, newUUID: nat -> string) {
    |source| == |configs| && forall i :: 0 <= i < |configs| ==> configs[i].uuid == newUUID(source[i])
  }

  lemma {:induction false} ChosenIsBest(r: Request, gpus: seq<Gpu>, configs: seq<Config>, source: seq<nat>, i: nat)
    requires 0 < r.memory && Chosen(r, gpus, configs, source) && i < |configs|
    requires forall g :: g in gpus ==> GpuOk(g)
    ensures source[i] < |gpus|
    ensures BestPlan(SearchOn(r, gpus[source[i]], r.qps - Satisfied(configs[..i]), configs[i].uuid), configs[i])
    decreases |configs|
  {
    hide Found, BestPlan, GpuOk, Satisfied;
    var n := |configs| - 1;
    if i < n {
      ChosenIsBest(r, gpus, configs[..n], source[..n], i);
      assert configs[..n][..i] == configs[..i];
    } else {
      assert gpus[source[n]] in gpus;
      FoundIsBestPlan(SearchOn(r, gpus[source[n]], r.qps - Satisfied(configs[..n]), configs[n].uuid), configs[n]);
    }
  }

  /** A plan of a pass: on a GPU whose total memory holds a replica, the one plan for what is still wanted. */
  ghost predicate PlannedBest(r: Request, gpus: seq<Gpu>, configs: seq<Config>, source: seq<nat>, i: nat)
    requires |source| == |configs| && i < |configs|
  {
    && source[i] < |gpus| && r.memory <= gpus[source[i]].totalMemory
    && BestPlan(SearchOn(r, gpus[source[i]], r.qps - Satisfied(configs[..i]), configs[i].uuid), configs[i])
  }

  lemma PlanIsBest(r: Request, gpus: seq<Gpu>, tried: nat, configs: seq<Config>, source: seq<nat>, i: nat)
    requires 0 < r.memory && forall g :: g in gpus ==> GpuOk(g)
    requires Passed(r, gpus, tried, configs, source) && Chosen(r, gpus, configs, source) && i < |configs|
    ensures PlannedBest(r, gpus, configs, source, i)
  {
    hide GpuOk, Chosen, AnyOffer, BestPlan, PlannedOn, Satisfied;
    ChosenIsBest(r, gpus, configs, source, i);
    assert gpus[source[i]] in gpus;
  }

  lemma PassOnNumbers(r: Request, gpus: seq<Gpu>, tried: nat, configs: seq<Config>, source: seq<nat>)
    requires 0 < r.memory && forall g :: g in gpus ==> GpuOk(g)
    requires if r.qps <= 0.0 then configs == [] else Passed(r, gpus, tried, configs, source)
    requires Chosen(r, gpus, configs, source)
    ensures forall g :: g in gpus ==> (Usable(r, g) <==> Serves(r, g))
    ensures |source| == |configs| && forall i :: 0 <= i < |configs| ==> PlannedBest(r, gpus, configs, source, i)
  {
    hide GpuOk, Usable, Serves, PlannedBest, Passed, Found;
    forall g | g in gpus ensures Usable(r, g) <==> Serves(r, g) {
      UsableOnNumbers(r, g);
    }
    forall i | 0 <= i < |configs| ensures PlannedBest(r, gpus, configs, source, i) {
      PlanIsBest(r, gpus, tried, configs, source, i);
    }
  }

  /** The greedy pass over sorted GPUs. An empty result is the error return. */
  method GetConfigs(r: Request, gpus: seq<Gpu>, newUUID: nat -> string)
    returns (configs: seq<Config>, remaining: real, ghost source: seq<nat>, ghost tried: nat)
    requires 0 < r.memory
    requires forall g :: g in gpus ==> GpuOk(g)
    ensures 0.0 < r.qps ==> Passed(r, gpus, tried, configs, source)
    ensures Balanced(r, gpus, configs, source, remaining)
    ensures 0.0 < r.qps && tried < |gpus| ==> remaining <= 0.0
    ensures configs == [] <==> r.qps <= 0.0 || forall g :: g in gpus ==> !Usable(r, g)
    ensures configs == [] <==> r.qps <= 0.0 || forall g :: g in gpus ==> !Serves(r, g)
    ensures |source| == |configs| && forall i :: 0 <= i < |configs| ==> PlannedBest(r, gpus, configs, source, i)
    ensures Chosen(r, gpus, configs, source)
    ensures Named(configs, source, newUUID)
  {
    hide PlannedOn, Usable, Possible, GpuOk, Budgeted, Balanced, Passed, InGrid, Feasible, IsBest, ConfigAt, Found, Chosen, AnyOffer, BestPlan, PlannedBest, Serves;
    EmptyBalanced(r, gpus);
    configs, remaining, source := [], r.qps, [];
    var i: nat := 0;
    while i < |gpus|
      invariant i <= |gpus|
      invariant r.qps <= 0.0 ==> configs == [] && source == [] && remaining == r.qps
      invariant 0.0 < r.qps ==> Passed(r, gpus, i, configs, source) && 0.0 < remaining
      invariant Balanced(r, gpus, configs, source, remaining)
      invariant Chosen(r, gpus, configs, source)
      invariant Named(configs, source, newUUID)
    {
      var g := gpus[i];
      assert g in gpus;
      if !FitsMemory(g, r.memory) {
        UsableIff(r, g, SearchOn(r, g, remaining, ""));
        if 0.0 < r.qps { PassSkip(r, gpus, i, configs, source); }
        i := i + 1;
        continue;
      }
      var s := SearchOn(r, g, remaining, newUUID(i));
      var best, at := GetConfig(s);
      UsableIff(r, g, s);
      if best.Some? {
        BudgetTake(r, gpus, i, configs, source, remaining, best.value);
        PassTake(r, gpus, i, configs, source, best.value);
        RemainingIs(r, gpus, configs, source, remaining);
        ChosenTake(r, gpus, i, configs, source, best.value);
        remaining := remaining - best.value.satisfiableRPS;
        configs := configs + [best.value];
        source := source + [i];
      } else if 0.0 < r.qps {
        PassSkip(r, gpus, i, configs, source);
      }
      i := i + 1;
      if remaining <= 0.0 {
        break;
      }
    }
    tried := i;
    EmptyPlan(r, gpus, i, configs, source, remaining);
    PassOnNumbers(r, gpus, i, configs, source);
  }

  lemma EmptyPlan(r: Request, gpus: seq<Gpu>, tried: nat, configs: seq<Config>, source: seq<nat>, remaining: real)
    requires r.qps <= 0.0 ==> configs == []
    requires 0.0 < r.qps ==> Passed(r, gpus, tried, configs, source)
    requires Balanced(r, gpus, configs, source, remaining)
    requires 0.0 < r.qps && tried < |gpus| ==> remaining <= 0.0
    ensures configs == [] <==> r.qps <= 0.0 || forall g :: g in gpus ==> !Usable(r, g)
  {
    hide PlannedOn, Usable, Possible;
    if 0.0 < r.qps {
      if configs == [] {
        assert tried == |gpus|;
        forall g | g in gpus ensures !Usable(r, g) {
          var k :| 0 <= k < |gpus| && gpus[k] == g;
        }
      } else {
        assert Usable(r, gpus[source[0]]) && gpus[source[0]] in gpus;
      }
    }
  }

  // ------------------------------------------------------------ plan and commit

  /** Plan equals commit: what was planned on a GPU is placed without error and with exactly the
      planned RPS, even after any removals from that GPU in between. */
  lemma PlanEqualsCommit(g: Gpu, c: Config, memory: int, order: seq<int>)
    requires GpuOk(g) && PlannedOn(g, c, memory)
    ensures Inv(RemoveRun(g.packer, order))
    ensures var r := Commit(g.(packer := RemoveRun(g.packer, order)), c, {});
      && r.ok
      && r.config.allocatedReplica == c.requiredReplica
      && r.config.allocatedRPS == c.satisfiableRPS
      && Consistent(r.config)
  {
    hide Inv, RemoveRun, MaxInsertable, Commit;
    var later := g.(packer := RemoveRun(g.packer, order));
    RemoveRunIsDrop(g.packer, order);
    RemoveRunNeverLowersCapacity(g.packer, order, c.quotaReq, c.smPartition);
    CommitPlacesWhatFits(later, c, {});
    CommitKeepsPlan(later, c, {});
  }

  lemma CommitKeepsPlan(g: Gpu, c: Config, items: set<int>)
    ensures var r := Commit(g, c, items);
      r.config == c.(allocatedReplica := r.config.allocatedReplica, allocatedRPS := r.config.allocatedRPS)
  {}

  /** A commit that placed anything records a consistent group. */
  lemma CommitIsConsistent(g: Gpu, c: Config)
    requires Inv(g.packer) && 0.0 < c.qpsPerReplica
    ensures var r := Commit(g, c, {}); 0 < r.config.allocatedReplica ==> Consistent(r.config)
  {
    hide Commit, Inv, MaxInsertable;
    CommitPlacesWhatFits(g, c, {});
    CommitKeepsPlan(g, c, {});
  }

  /** One config of the commit step: skipped when there is no GPU for it (node gone, provisioning
      failed), and dropped when nothing could be placed. */
  function Kept(c: Config, target: Option<Gpu>): seq<Config> {
    if target.None? then []
    else
      var r := Commit(target.value, c.(gpuUUID := target.value.uuid), {});
      if r.config.allocatedReplica > 0 then [r.config] else []
  }

  /** That is at most one group: the plan on the GPU it was committed to, with as many replicas as fit of
      those required, and their RPS; and none exactly if there is no GPU or no room for a replica. */
  lemma KeptIs(c: Config, target: Option<Gpu>)
    requires target.Some? ==> Inv(target.value.packer)
    ensures target.None? ==> Kept(c, target) == []
    ensures target.Some? ==>
      var n := Min(Max(0, c.requiredReplica), MaxInsertable(target.value.packer, c.quotaReq, c.smPartition));
      && (n == 0 ==> Kept(c, target) == [])
      && (n != 0 ==>
            && |Kept(c, target)| == 1
            && Kept(c, target)[0]
               == c.(gpuUUID := target.value.uuid, allocatedReplica := n, allocatedRPS := c.qpsPerReplica * n as real))
  {
    hide Commit, Inv, MaxInsertable;
    if target.Some? {
      var p := c.(gpuUUID := target.value.uuid);
      CommitPlacesWhatFits(target.value, p, {});
      CommitMemory(target.value, p, {});
      CommitKeepsPlan(target.value, p, {});
    }
  }

  function CommitAll(configs: seq<Config>, targets: seq<Option<Gpu>>): seq<Config>
    requires |configs| == |targets|
  {
    if configs == [] then []
    else
      var n := |configs| - 1;
      CommitAll(configs[..n], targets[..n]) + Kept(configs[n], targets[n])
  }

  /** The GPU after the commit of one config. */
  function AfterCommit(c: Config, target: Option<Gpu>): Option<Gpu> {
    if target.None? then None
    else Some(Commit(target.value, c.(gpuUUID := target.value.uuid), {}).gpu)
  }

  /** That is the same GPU with new items for as many replicas as were kept, and their memory booked. */
  lemma AfterCommitIs(c: Config, target: Option<Gpu>)
    requires 0 <= c.requiredReplica && (target.Some? ==> Inv(target.value.packer))
    ensures AfterCommit(c, target).Some? <==> target.Some?
    ensures target.Some? ==>
      var g, h := target.value, AfterCommit(c, target).value;
      var n := Min(c.requiredReplica, MaxInsertable(g.packer, c.quotaReq, c.smPartition));
      var added := h.packer.itemLocation.Keys - g.packer.itemLocation.Keys;
      && h == g.(allocationType := c.allocationType, usageMemory := g.usageMemory - c.memoryReq * n, packer := h.packer)
      && Inv(h.packer) && g.packer.itemLocation.Keys <= h.packer.itemLocation.Keys && |added| == n
  {
    hide Inv, MaxInsertable, Placed, Booked;
    if target.Some? {
      var p := c.(gpuUUID := target.value.uuid);
      CommitPlacesWhatFits(target.value, p, {});
      CommitMemory(target.value, p, {});
      CommitIds(target.value, p);
      assert AfterCommit(c, target).value.packer.itemLocation.Keys - target.value.packer.itemLocation.Keys
          == Commit(target.value, p, {}).items;
    }
  }

  /** The body of the commit loop. */
  method PrepareOne(planned: Config, target: Option<Gpu>) returns (kept: seq<Config>, after: Option<Gpu>)
    requires 0.0 < planned.qpsPerReplica
    requires target.Some? ==> Inv(target.value.packer)
    ensures kept == Kept(planned, target) && AllConsistent(kept)
    ensures after == AfterCommit(planned, target)
  {
    hide Commit, Inv;
    if target.None? {
      return [], None;
    }
    var config := planned.(gpuUUID := target.value.uuid);
    CommitIsConsistent(target.value, config);
    var r := Commit(target.value, config, {});
    kept, after := [], Some(r.gpu);
    if r.config.allocatedReplica > 0 {
      kept := [r.config];
    }
  }

  /** The commit loop over the plans, each with the GPU found or provisioned for it. */
  method PrepareConfigs(configs: seq<Config>, targets: seq<Option<Gpu>>)
    returns (newConfigs: seq<Config>, after: seq<Option<Gpu>>)
    requires |configs| == |targets|
    requires forall c :: c in configs ==> 0.0 < c.qpsPerReplica
    requires forall i :: 0 <= i < |targets| && targets[i].Some? ==> Inv(targets[i].value.packer)
    ensures newConfigs == CommitAll(configs, targets)
    ensures AllConsistent(newConfigs)
    ensures |after| == |targets|
    ensures forall i :: 0 <= i < |targets| ==> after[i] == AfterCommit(configs[i], targets[i])
  {
    hide Kept, AfterCommit, Inv;
    newConfigs, after := [], [];
    for i := 0 to |configs|
      invariant newConfigs == CommitAll(configs[..i], targets[..i])
      invariant AllConsistent(newConfigs)
      invariant |after| == i
      invariant forall j :: 0 <= j < i ==> after[j] == AfterCommit(configs[j], targets[j])
    {
      assert configs[..i + 1][..i] == configs[..i] && targets[..i + 1][..i] == targets[..i];
      assert configs[i] in configs;
      var kept, gpu := PrepareOne(configs[i], targets[i]);
      newConfigs, after := newConfigs + kept, after + [gpu];
    }
    assert configs[..|configs|] == configs && targets[..|targets|] == targets;
  }

  /** The GPU a plan is committed to: the one it was made on, possibly after removals. A virtual GPU
      is planned on an empty packer and provisioned with an equally empty one. */
  ghost predicate Arrives(g: Gpu, target: Option<Gpu>) {
    Inv(g.packer) && target.Some? && exists order :: target.value.packer == RemoveRun(g.packer, order)
  }

  lemma KeptAsPlanned(g: Gpu, c: Config, memory: int, target: Option<Gpu>)
    requires GpuOk(g) && PlannedOn(g, c, memory) && Arrives(g, target)
    ensures |Kept(c, target)| == 1
    ensures Kept(c, target)[0].allocatedReplica == c.requiredReplica
    ensures Kept(c, target)[0].allocatedRPS == c.satisfiableRPS
    ensures Kept(c, target)[0].uuid == c.uuid
  {
    hide Inv, RemoveRun, MaxInsertable, Commit;
    var order :| target.value.packer == RemoveRun(g.packer, order);
    var config := c.(gpuUUID := target.value.uuid);
    RemoveRunIsDrop(g.packer, order);
    RemoveRunNeverLowersCapacity(g.packer, order, c.quotaReq, c.smPartition);
    CommitPlacesWhatFits(target.value, config, {});
    CommitKeepsPlan(target.value, config, {});
  }

  /** A whole scale-up delivers its plan: if every GPU is as planned or has only lost items since,
      every plan is committed in full, and the committed RPS is the request minus the remainder. */
  lemma {:induction false} ScaleUpDeliversPlan(
    gpus: seq<Gpu>, configs: seq<Config>, source: seq<nat>, memory: int, targets: seq<Option<Gpu>>)
    requires |configs| == |targets| == |source|
    requires forall g :: g in gpus ==> GpuOk(g)
    requires forall i :: 0 <= i < |configs| ==>
      source[i] < |gpus| && PlannedOn(gpus[source[i]], configs[i], memory) && Arrives(gpus[source[i]], targets[i])
    ensures |CommitAll(configs, targets)| == |configs|
    ensures Total(CommitAll(configs, targets)) == Satisfied(configs)
    ensures forall i :: 0 <= i < |configs| ==>
      && CommitAll(configs, targets)[i].allocatedReplica == configs[i].requiredReplica
      && CommitAll(configs, targets)[i].uuid == configs[i].uuid
    decreases |configs|
  {
    hide GpuOk, PlannedOn, Arrives, Kept;
    if configs != [] {
      var n := |configs| - 1;
      ScaleUpDeliversPlan(gpus, configs[..n], source[..n], memory, targets[..n]);
      assert gpus[source[n]] in gpus;
      KeptAsPlanned(gpus[source[n]], configs[n], memory, targets[n]);
      TotalConcat(CommitAll(configs[..n], targets[..n]), Kept(configs[n], targets[n]));
    }
  }
}

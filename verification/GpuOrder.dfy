/** The order in which GPUs are offered to a request. */
module GpuOrder {
  import opened Arithmetic
  import opened Configs
  import opened ConfigFinder
  import opened GpuLedger
  import opened Insertion

  /** What the comparator looks at, most significant first. */
  datatype Key = Key(matches: bool, efficiency: real, balance: real, freeSM: int, freeMemory: int)

  /** The totals and costs the comparator divides by. */
  predicate Measurable(g: Gpu) {
    0 < g.costPerSecond && 0 < g.totalMemory && 0 < g.packer.maxHeight
  }

  function Abs(x: real): real { if x < 0.0 then -x else x }

  /** The distance between the share of SM in use and the share of memory in use. */
  function UseGap(g: Gpu): (gap: real)
    requires Measurable(g)
    ensures 0.0 <= gap
    ensures var sm := g.packer.usedHeight as real / g.packer.maxHeight as real;
            var memory := g.usageMemory as real / g.totalMemory as real;
      gap == sm - memory || gap == memory - sm
  {
    Abs(g.packer.usedHeight as real / g.packer.maxHeight as real - g.usageMemory as real / g.totalMemory as real)
  }

  function KeyOf(r: Request, g: Gpu): Key
    requires Measurable(g)
  {
    Key(g.allocationType == r.allocationType,
        GetQPS(r.profile, g.gpuType, g.totalSM, 1.0, 0) / g.costPerSecond as real,
        UseGap(g),
        g.packer.maxHeight - g.packer.usedHeight,
        g.totalMemory - g.usageMemory)
  }

  /** The comparator: matching type first, then higher efficiency, better balance, more free SM,
      less free memory. */
  predicate KeyLess(a: Key, b: Key) {
    if a.matches != b.matches then a.matches
    else if a.efficiency != b.efficiency then a.efficiency > b.efficiency
    else if a.balance != b.balance then a.balance < b.balance
    else if a.freeSM != b.freeSM then a.freeSM > b.freeSM
    else a.freeMemory < b.freeMemory
  }

  predicate Less(r: Request, a: Gpu, b: Gpu)
    requires Measurable(a) && Measurable(b)
  {
    KeyLess(KeyOf(r, a), KeyOf(r, b))
  }

  /** A strict weak order: irreflexive, transitive, and with transitive incomparability. */
  lemma LessIsStrictWeakOrder(r: Request, a: Gpu, b: Gpu, c: Gpu)
    requires Measurable(a) && Measurable(b) && Measurable(c)
    ensures !Less(r, a, a)
    ensures Less(r, a, b) && Less(r, b, c) ==> Less(r, a, c)
    ensures !Less(r, a, b) && !Less(r, b, c) ==> !Less(r, a, c)
  {}

  /** What it means on the GPUs that one may stand before another: it matches the requested type if the
      other does; among equals in that, its throughput for its cost is no less; among equals in that
      too, the gap between its uses is no larger, then its free SM no less, then its free memory no more. */
  ghost predicate MayPrecede(r: Request, a: Gpu, b: Gpu)
    requires Measurable(a) && Measurable(b)
  {
    var qa, qb := GetQPS(r.profile, a.gpuType, a.totalSM, 1.0, 0), GetQPS(r.profile, b.gpuType, b.totalSM, 1.0, 0);
    && (b.allocationType == r.allocationType ==> a.allocationType == r.allocationType)
    && ((a.allocationType == r.allocationType <==> b.allocationType == r.allocationType) ==>
          && qa * b.costPerSecond as real >= qb * a.costPerSecond as real
          && (qa * b.costPerSecond as real == qb * a.costPerSecond as real ==>
                && UseGap(a) <= UseGap(b)
                && (UseGap(a) == UseGap(b) ==>
                      && a.packer.maxHeight - a.packer.usedHeight >= b.packer.maxHeight - b.packer.usedHeight
                      && (a.packer.maxHeight - a.packer.usedHeight == b.packer.maxHeight - b.packer.usedHeight ==>
                            a.totalMemory - a.usageMemory <= b.totalMemory - b.usageMemory))))
  }

  /** The comparator says exactly that. */
  lemma LessOnGpus(r: Request, a: Gpu, b: Gpu)
    requires Measurable(a) && Measurable(b)
    ensures !Less(r, b, a) <==> MayPrecede(r, a, b)
  {
    hide GetQPS, UseGap;
    var qa, qb := GetQPS(r.profile, a.gpuType, a.totalSM, 1.0, 0), GetQPS(r.profile, b.gpuType, b.totalSM, 1.0, 0);
    CompareRatios(qb, b.costPerSecond as real, qa, a.costPerSecond as real);
  }

  ghost predicate AllMeasurable(gpus: seq<Gpu>) {
    forall g :: g in gpus ==> Measurable(g)
  }

  /** No element is less than one before it. */
  ghost predicate Ordered(r: Request, gpus: seq<Gpu>)
    requires AllMeasurable(gpus)
  {
    forall i, j :: 0 <= i < j < |gpus| ==> !Less(r, gpus[j], gpus[i])
  }

  /** Inserting before the first element that is greater keeps the order. */
  lemma InsertionOrders(r: Request, gpus: seq<Gpu>, g: Gpu, j: nat)
    requires AllMeasurable(gpus) && Measurable(g) && Ordered(r, gpus) && j <= |gpus|
    requires forall l :: 0 <= l < j ==> !Less(r, g, gpus[l])
    requires j < |gpus| ==> Less(r, g, gpus[j])
    ensures AllMeasurable(InsertAt(gpus, g, j)) && Ordered(r, InsertAt(gpus, g, j))
  {
    hide Measurable, KeyOf, KeyLess;
    var result := InsertAt(gpus, g, j);
    forall a, b | 0 <= a < b < |gpus| + 1
      ensures Measurable(result[a]) && Measurable(result[b]) && !Less(r, result[b], result[a])
    {
      InsertedAt(gpus, g, j, a);
      InsertedAt(gpus, g, j, b);
      if a == j {
        LessIsStrictWeakOrder(r, gpus[b - 1], g, gpus[j]);
        LessIsStrictWeakOrder(r, gpus[j], g, g);
        if b - 1 == j { LessIsStrictWeakOrder(r, gpus[j], g, gpus[j]); }
      }
    }
    forall x | x in result ensures Measurable(x) {
      InsertionPermutes(gpus, g, j);
      assert x in multiset(result);
    }
  }

  /** Sorting the GPUs; callers may rely on no more than an ordered permutation. */
  method SortGPUInfos(r: Request, gpus: seq<Gpu>) returns (sorted: seq<Gpu>)
    requires AllMeasurable(gpus)
    ensures multiset(sorted) == multiset(gpus)
    ensures AllMeasurable(sorted) && Ordered(r, sorted)
    ensures forall i, j :: 0 <= i < j < |sorted| ==> MayPrecede(r, sorted[i], sorted[j])
  {
    hide InsertAt, Less, Measurable, MayPrecede;
    sorted := [];
    for i := 0 to |gpus|
      invariant multiset(sorted) == multiset(gpus[..i])
      invariant AllMeasurable(sorted) && Ordered(r, sorted)
    {
      var g := gpus[i];
      assert g in gpus;
      var j := 0;
      while j < |sorted| && !Less(r, g, sorted[j])
        invariant 0 <= j <= |sorted|
        invariant forall l :: 0 <= l < j ==> !Less(r, g, sorted[l])
      {
        j := j + 1;
      }
      assert gpus[..i + 1] == gpus[..i] + [g];
      InsertionOrders(r, sorted, g, j);
      InsertionPermutes(sorted, g, j);
      sorted := InsertAt(sorted, g, j);
    }
    assert gpus[..|gpus|] == gpus;
    forall i, j | 0 <= i < j < |sorted| ensures MayPrecede(r, sorted[i], sorted[j]) {
      LessOnGpus(r, sorted[i], sorted[j]);
    }
  }

  /** In every ordered sequence the GPUs of the requested type come first. */
  lemma MatchingFirst(r: Request, gpus: seq<Gpu>, i: nat, j: nat)
    requires AllMeasurable(gpus) && Ordered(r, gpus) && i < j < |gpus|
    requires gpus[j].allocationType == r.allocationType
    ensures gpus[i].allocationType == r.allocationType
  {
    assert !Less(r, gpus[j], gpus[i]);
  }

  /** A plan draws on a GPU of another type only after every GPU of the requested type was tried,
      and then every one of those that is usable carries a plan too. */
  lemma NonMatchingOnlyAfterMatching(
    r: Request, gpus: seq<Gpu>, tried: nat, configs: seq<Config>, source: seq<nat>, i: nat, k: nat)
    requires AllMeasurable(gpus) && Ordered(r, gpus)
    requires Passed(r, gpus, tried, configs, source)
    requires i < |configs| && gpus[source[i]].allocationType != r.allocationType
    requires k < |gpus| && gpus[k].allocationType == r.allocationType
    ensures k < source[i] < tried
    ensures Usable(r, gpus[k]) ==> exists j :: 0 <= j < i && source[j] == k
  {
    hide PlannedOn, Usable, Measurable;
    if source[i] < k {
      MatchingFirst(r, gpus, source[i], k);
    }
    if Usable(r, gpus[k]) {
      var j :| 0 <= j < |source| && source[j] == k;
    }
  }
}

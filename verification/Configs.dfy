/** A replica group: one resource configuration and how many replicas of it were placed. */
module Configs {

  datatype AllocationType = NoType | Exclusive | FastPod | MPS

  datatype Config = Config(
    uuid: string,
    allocationType: AllocationType,
    gpuUUID: string,
    quotaReq: real,
    smPartition: int,
    memoryReq: int,
    requiredReplica: int,
    qpsPerReplica: real,
    satisfiableRPS: real,
    efficiencyScore: real,
    allocatedReplica: int,
    allocatedRPS: real)

  function Rps(c: Config): real { c.allocatedRPS }

  /** What a successful commit records: at least one replica, and the RPS of all of them. */
  predicate Consistent(c: Config) {
    && 0.0 < c.qpsPerReplica
    && 1 <= c.allocatedReplica
    && c.allocatedRPS == c.qpsPerReplica * c.allocatedReplica as real
  }

  function Total(configs: seq<Config>): real {
    if configs == [] then 0.0 else configs[0].allocatedRPS + Total(configs[1..])
  }

  lemma {:induction false} TotalConcat(a: seq<Config>, b: seq<Config>)
    ensures Total(a + b) == Total(a) + Total(b)
  {
    if a == [] {
      assert a + b == b;
    } else {
      assert (a + b)[1..] == a[1..] + b;
      TotalConcat(a[1..], b);
    }
  }

  lemma TotalSplit(s: seq<Config>, k: nat)
    requires k <= |s|
    ensures Total(s) == Total(s[..k]) + Total(s[k..])
  {
    assert s == s[..k] + s[k..];
    TotalConcat(s[..k], s[k..]);
  }

  ghost predicate AllConsistent(s: seq<Config>) {
    forall c :: c in s ==> Consistent(c)
  }

  lemma RpsPositive(c: Config)
    requires Consistent(c)
    ensures 0.0 < c.qpsPerReplica <= c.allocatedRPS
  {
    assert 1.0 * c.qpsPerReplica <= c.allocatedReplica as real * c.qpsPerReplica;
  }

  lemma {:induction false} TotalNonNegative(s: seq<Config>)
    requires AllConsistent(s)
    ensures 0.0 <= Total(s)
    ensures s != [] ==> 0.0 < Total(s)
  {
    if s != [] {
      assert s[0] in s;
      RpsPositive(s[0]);
      assert AllConsistent(s[1..]);
      TotalNonNegative(s[1..]);
    }
  }
}

/** Sums over the values of a map: the caches kept by the allocator (used width of a shelf,
    bytes held on a GPU, capacity of a function) all equal such a sum. */
module MapSums {

  ghost function Sum<K, V>(m: map<K, V>, f: V -> real): real
    decreases |m|
  {
    if m == map[] then 0.0
    else
      var k :| k in m;
      assert |m - {k}| < |m| by { RemoveSize(m, k); }
      f(m[k]) + Sum(m - {k}, f)
  }

  lemma RemoveSize<K, V>(m: map<K, V>, k: K)
    requires k in m
    ensures |m - {k}| == |m| - 1
  {
    assert (m - {k}).Keys == m.Keys - {k};
    assert |m.Keys| == |m| && |(m - {k}).Keys| == |m - {k}|;
  }

  lemma SomeElement<T>(s: set<T>) returns (x: T)
    requires s != {}
    ensures x in s
  {
    x :| x in s;
  }

  lemma SomeKey<K, V>(m: map<K, V>) returns (k: K)
    requires m != map[]
    ensures k in m
  {
    k :| k in m;
  }

  /** The sum does not depend on the order in which the keys are taken. */
  lemma {:induction false} SumRemove<K, V>(m: map<K, V>, f: V -> real, k: K)
    requires k in m
    ensures Sum(m, f) == f(m[k]) + Sum(m - {k}, f)
    decreases |m|
  {
    var j :| j in m && Sum(m, f) == f(m[j]) + Sum(m - {j}, f);
    if j != k {
      RemoveSize(m, j);
      SumRemove(m - {j}, f, k);
      RemoveSize(m, k);
      SumRemove(m - {k}, f, j);
      assert m - {j} - {k} == m - {k} - {j};
    }
  }

  lemma SumInsert<K, V>(m: map<K, V>, f: V -> real, k: K, v: V)
    requires k !in m
    ensures Sum(m[k := v], f) == Sum(m, f) + f(v)
  {
    SumRemove(m[k := v], f, k);
    assert m[k := v] - {k} == m;
  }

  lemma SumUpdate<K, V>(m: map<K, V>, f: V -> real, k: K, v: V)
    requires k in m
    ensures Sum(m[k := v], f) == Sum(m, f) - f(m[k]) + f(v)
  {
    SumRemove(m, f, k);
    SumRemove(m[k := v], f, k);
    assert m[k := v] - {k} == m - {k};
  }

  lemma {:induction false} SumNonNegative<K, V>(m: map<K, V>, f: V -> real)
    requires forall k :: k in m ==> 0.0 <= f(m[k])
    ensures 0.0 <= Sum(m, f)
    decreases |m|
  {
    if m != map[] {
      var k :| k in m;
      SumRemove(m, f, k);
      RemoveSize(m, k);
      SumNonNegative(m - {k}, f);
    }
  }

  /** Dropping keys never raises a sum of non-negative values. */
  lemma SumRestrict<K, V>(m: map<K, V>, f: V -> real, ks: set<K>)
    requires forall k :: k in m ==> 0.0 <= f(m[k])
    ensures 0.0 <= Sum(m - ks, f) <= Sum(m, f)
  {
    var kept := m - ks;
    var gone := m - kept.Keys;
    SumNonNegative(kept, f);
    SumNonNegative(gone, f);
    SumUnion(kept, gone, f);
    assert kept + gone == m;
  }

  lemma UnionRemove<K, V>(a: map<K, V>, b: map<K, V>, k: K)
    requires k in a && a.Keys !! b.Keys
    ensures (a + b) - {k} == (a - {k}) + b
    ensures k in a + b && (a + b)[k] == a[k]
    ensures (a - {k}).Keys !! b.Keys
  {}

  lemma {:induction false} SumUnion<K, V>(a: map<K, V>, b: map<K, V>, f: V -> real)
    requires a.Keys !! b.Keys
    ensures Sum(a + b, f) == Sum(a, f) + Sum(b, f)
    decreases |a|
  {
    if a == map[] {
      assert a + b == b;
    } else {
      var k := SomeKey(a);
      RemoveSize(a, k);
      UnionRemove(a, b, k);
      SumUnion(a - {k}, b, f);
      SumRemove(a, f, k);
      SumRemove(a + b, f, k);
    }
  }

  /** Sums over the same keys with the same values at every key are equal. */
  lemma {:induction false} SumSame<K, V, W>(m: map<K, V>, f: V -> real, n: map<K, W>, g: W -> real)
    requires m.Keys == n.Keys
    requires forall k :: k in m ==> f(m[k]) == g(n[k])
    ensures Sum(m, f) == Sum(n, g)
    decreases |m|
  {
    if m != map[] {
      var k := SomeKey(m);
      RemoveSize(m, k);
      SumRemove(m, f, k);
      SumRemove(n, g, k);
      assert (m - {k}).Keys == (n - {k}).Keys;
      SumSame(m - {k}, f, n - {k}, g);
    } else {
      assert n.Keys == {};
    }
  }

  /** A value-wise sum of two maps has the sum of their sums. */
  lemma {:induction false} SumAdd<K, V, W, X>(
    m: map<K, V>, f: V -> real, n: map<K, W>, g: W -> real, o: map<K, X>, h: X -> real)
    requires m.Keys == n.Keys == o.Keys
    requires forall k :: k in m ==> f(m[k]) == g(n[k]) + h(o[k])
    ensures Sum(m, f) == Sum(n, g) + Sum(o, h)
    decreases |m|
  {
    if m != map[] {
      var k := SomeKey(m);
      RemoveSize(m, k);
      SumRemove(m, f, k);
      SumRemove(n, g, k);
      SumRemove(o, h, k);
      assert (m - {k}).Keys == (n - {k}).Keys == (o - {k}).Keys;
      SumAdd(m - {k}, f, n - {k}, g, o - {k}, h);
    } else {
      assert n.Keys == {} && o.Keys == {};
    }
  }

  /** A sum of non-negative values vanishes exactly if every value does. */
  lemma SumZeroIff<K, V>(m: map<K, V>, f: V -> real)
    requires forall k :: k in m ==> 0.0 <= f(m[k])
    ensures Sum(m, f) == 0.0 <==> forall k :: k in m ==> f(m[k]) == 0.0
  {
    if k :| k in m && f(m[k]) != 0.0 {
      SumRemove(m, f, k);
      SumNonNegative(m - {k}, f);
    } else {
      SumAllZero(m, f);
    }
  }

  lemma {:induction false} SumAllZero<K, V>(m: map<K, V>, f: V -> real)
    requires forall k :: k in m ==> f(m[k]) == 0.0
    ensures Sum(m, f) == 0.0
    decreases |m|
  {
    if m != map[] {
      var k := SomeKey(m);
      RemoveSize(m, k);
      SumRemove(m, f, k);
      SumAllZero(m - {k}, f);
    }
  }
}

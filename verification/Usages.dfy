/** Resource vectors (agents, GPUs, replicas), Go's fixed-width integers, and sums over maps. */
module Usages {

  const MAX32: int := 0x7fff_ffff
  const MAX64: int := 0x7fff_ffff_ffff_ffff

  type i32 = x: int | -0x8000_0000 <= x <= 0x7fff_ffff
  type i64 = x: int | -0x8000_0000_0000_0000 <= x <= 0x7fff_ffff_ffff_ffff

  /** The size of a number that is no int32. */
  function Beyond32(x: int): nat {
    if x > MAX32 then x else if x < -0x8000_0000 then -x else 0
  }

  /** Conversion to int32 with two's complement wrap-around. */
  function Wrap32(x: int): (w: i32)
    ensures -0x8000_0000 <= x <= MAX32 ==> w == x
    decreases Beyond32(x)
  {
    if x > MAX32 then Wrap32(x - 0x1_0000_0000)
    else if x < -0x8000_0000 then Wrap32(x + 0x1_0000_0000)
    else x
  }

  function Wrap64(x: int): (w: i64)
    ensures -0x8000_0000_0000_0000 <= x <= MAX64 ==> w == x
    decreases if x > MAX64 then x else if x < -0x8000_0000_0000_0000 then -x else 0
  {
    if x > MAX64 then Wrap64(x - 0x1_0000_0000_0000_0000)
    else if x < -0x8000_0000_0000_0000 then Wrap64(x + 0x1_0000_0000_0000_0000)
    else x
  }

  datatype Usage = Usage(agents: int, gpus: int, replicas: int)

  const ZERO := Usage(0, 0, 0)

  function Add(u: Usage, v: Usage): Usage {
    Usage(u.agents + v.agents, u.gpus + v.gpus, u.replicas + v.replicas)
  }

  lemma AddAssociative(u: Usage, v: Usage, w: Usage)
    ensures Add(Add(u, v), w) == Add(u, Add(v, w))
  {
  }

  predicate Leq(u: Usage, v: Usage) {
    u.agents <= v.agents && u.gpus <= v.gpus && u.replicas <= v.replicas
  }

  function Larger(a: int, b: int): int {
    if a < b then b else a
  }

  /** The larger of each component. */
  function Max(u: Usage, v: Usage): Usage {
    Usage(Larger(u.agents, v.agents), Larger(u.gpus, v.gpus), Larger(u.replicas, v.replicas))
  }

  predicate NonNegative(u: Usage) {
    Leq(ZERO, u)
  }

  /** Each component is an int32. */
  predicate Fits(u: Usage) {
    && -0x8000_0000 <= u.agents <= MAX32 && -0x8000_0000 <= u.gpus <= MAX32
    && -0x8000_0000 <= u.replicas <= MAX32
  }

  function Wrapped(u: Usage): (w: Usage)
    ensures Fits(w)
    ensures Fits(u) ==> w == u
  {
    Usage(Wrap32(u.agents), Wrap32(u.gpus), Wrap32(u.replicas))
  }

  /** Wrapping early or late makes no difference to an accumulated sum. */
  lemma {:induction false} WrapAdd(a: int, b: int)
    ensures Wrap32(Wrap32(a) + b) == Wrap32(a + b)
    decreases Beyond32(a)
  {
    if a > MAX32 {
      WrapAdd(a - 0x1_0000_0000, b);
      WrapPeriod(a + b - 0x1_0000_0000);
    } else if a < -0x8000_0000 {
      WrapAdd(a + 0x1_0000_0000, b);
      WrapPeriod(a + b);
    }
  }

  lemma {:induction false} WrapPeriod(x: int)
    ensures Wrap32(x + 0x1_0000_0000) == Wrap32(x)
    decreases Beyond32(x)
  {
    if x <= MAX32 {
    } else {
      WrapPeriod(x - 0x1_0000_0000);
    }
  }

  lemma WrappedAdd(u: Usage, v: Usage)
    ensures Wrapped(Add(Wrapped(u), v)) == Wrapped(Add(u, v))
  {
    WrapAdd(u.agents, v.agents);
    WrapAdd(u.gpus, v.gpus);
    WrapAdd(u.replicas, v.replicas);
  }

  // ---------------------------------------------------------------------------
  // Sums over maps
  // ---------------------------------------------------------------------------

  /** The sum of all values of a map; the order of summation does not matter. */
  ghost function Total(m: map<string, Usage>): Usage
    decreases |m|
  {
    if m == map[] then ZERO
    else
      var k :| k in m;
      Add(m[k], Total(m - {k}))
  }

  lemma {:induction false} TotalSplit(m: map<string, Usage>, k: string)
    requires k in m
    ensures Total(m) == Add(m[k], Total(m - {k}))
    decreases |m|
  {
    var j :| j in m && Total(m) == Add(m[j], Total(m - {j}));
    if j == k {
    } else {
      var both := m - {j} - {k};
      assert m - {k} - {j} == both;
      TotalSplit(m - {j}, k);
      TotalSplit(m - {k}, j);
      assert Total(m - {j}) == Add(m[k], Total(both));
      assert Total(m - {k}) == Add(m[j], Total(both));
      assert Add(m[j], Add(m[k], Total(both))) == Add(m[k], Add(m[j], Total(both)));
    }
  }

  lemma TotalUpdate(m: map<string, Usage>, k: string, u: Usage)
    ensures Total(m[k := u]) == Add(u, Total(m - {k}))
  {
    TotalSplit(m[k := u], k);
    assert m[k := u] - {k} == m - {k};
  }

  /** The value a map gives a key, zero if none. */
  function At(m: map<string, Usage>, k: string): Usage {
    if k in m then m[k] else ZERO
  }

  lemma TotalWithout(m: map<string, Usage>, k: string)
    ensures Total(m) == Add(At(m, k), Total(m - {k}))
  {
    if k in m {
      TotalSplit(m, k);
    } else {
      assert m - {k} == m;
    }
  }

  lemma {:induction false} TotalNonNegative(m: map<string, Usage>)
    requires forall k :: k in m ==> NonNegative(m[k])
    ensures NonNegative(Total(m))
    decreases |m|
  {
    if m == map[] {
    } else {
      var k :| k in m;
      TotalSplit(m, k);
      TotalNonNegative(m - {k});
    }
  }

  lemma BoundSum(u: Usage, m: Usage, ua: Usage, a: Usage, ub: Usage, b: Usage)
    requires Leq(u, Add(ua, ub)) && Leq(m, Add(a, b))
    ensures Leq(Add(u, m), Add(Add(ua, a), Add(ub, b)))
  {
  }

  /**
   A map bounded key by key by two others has a bounded sum. With an empty second
   bound this is monotonicity.
   */
  lemma {:induction false} TotalBound(m: map<string, Usage>, a: map<string, Usage>, b: map<string, Usage>)
    requires forall k :: k in a ==> NonNegative(a[k])
    requires forall k :: k in b ==> NonNegative(b[k])
    requires forall k :: k in m ==> Leq(m[k], Add(At(a, k), At(b, k)))
    ensures Leq(Total(m), Add(Total(a), Total(b)))
    decreases |m|
  {
    if m == map[] {
      TotalNonNegative(a);
      TotalNonNegative(b);
    } else {
      var k :| k in m;
      TotalSplit(m, k);
      TotalWithout(a, k);
      TotalWithout(b, k);
      var m', a', b' := m - {k}, a - {k}, b - {k};
      forall j | j in m' ensures Leq(m'[j], Add(At(a', j), At(b', j))) {
        assert m'[j] == m[j] && At(a', j) == At(a, j) && At(b', j) == At(b, j);
      }
      TotalBound(m', a', b');
      BoundSum(m[k], Total(m'), At(a, k), Total(a'), At(b, k), Total(b'));
    }
  }

  lemma TotalMonotone(m: map<string, Usage>, a: map<string, Usage>)
    requires forall k :: k in a ==> NonNegative(a[k])
    requires forall k :: k in m ==> Leq(m[k], At(a, k))
    ensures Leq(Total(m), Total(a))
  {
    var none: map<string, Usage> := map[];
    assert forall k :: k in m ==> Add(At(a, k), At(none, k)) == At(a, k);
    TotalBound(m, a, none);
    assert Total(none) == ZERO;
  }
}

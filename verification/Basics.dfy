/** Shared vocabulary: optional values, order-free sums over finite maps, and the arithmetic of quotients. */
module Basics {

  datatype Option<+T> = None | Some(value: T) {
    function GetOr(default: T): T {
      if Some? then value else default
    }
  }

  function Min(a: real, b: real): real { if a <= b then a else b }

  function Max(a: real, b: real): real { if a >= b then a else b }

  function Abs(x: real): real { if x < 0.0 then -x else x }

  /** The sum of a map's values; no order of the keys is involved. */
  ghost function Sum<K(!new)>(m: map<K, real>): real {
    if m == map[] then 0.0 else
      var k :| k in m;
      m[k] + Sum(m - {k})
  }

  /** Any key may be taken out first, so a sum does not depend on a sweep order. */
  lemma {:induction false} SumRemove<K(!new)>(m: map<K, real>, k: K)
    requires k in m
    ensures Sum(m) == m[k] + Sum(m - {k})
    decreases m
  {
    var c :| c in m && Sum(m) == m[c] + Sum(m - {c});
    if c != k {
      SumRemove(m - {c}, k);
      SumRemove(m - {k}, c);
      assert m - {c} - {k} == m - {k} - {c};
    }
  }

  lemma SumAdd<K(!new)>(m: map<K, real>, k: K, v: real)
    requires k !in m
    ensures Sum(m[k := v]) == Sum(m) + v
  {
    SumRemove(m[k := v], k);
    assert m[k := v] - {k} == m;
  }

  lemma {:induction false} SumUnion<K(!new)>(m: map<K, real>, n: map<K, real>)
    requires m.Keys !! n.Keys
    ensures Sum(m + n) == Sum(m) + Sum(n)
    decreases n
  {
    if n == map[] {
      assert m + n == m;
    } else {
      var k :| k in n;
      SumRemove(n, k);
      SumRemove(m + n, k);
      assert (m + n) - {k} == m + (n - {k});
      SumUnion(m, n - {k});
    }
  }

  lemma {:induction false} SumNonPositive<K(!new)>(m: map<K, real>)
    requires forall k :: k in m ==> m[k] <= 0.0
    ensures Sum(m) <= 0.0
    decreases m
  {
    if m != map[] {
      var k :| k in m;
      SumRemove(m, k);
      SumNonPositive(m - {k});
    }
  }

  lemma Quotient(x: real, y: real)
    requires y != 0.0
    ensures (x / y) * y == x
  {
  }

  lemma Distribute(f: real, y: real)
    ensures (f + 1.0) * y == f * y + y
  {
  }

  /** The caller names the two products, so that nothing nonlinear is left to it. */
  lemma TimesMono(a: real, b: real, y: real, pa: real, pb: real)
    requires a <= b && 0.0 <= y && pa == a * y && pb == b * y
    ensures pa <= pb
  {
  }

  lemma Cancel(a: real, b: real, y: real, pa: real, pb: real)
    requires 0.0 < y && pa == a * y && pb == b * y && pa <= pb
    ensures a <= b
  {
    assert (b - a) * y >= 0.0;
  }

  lemma CancelStrictly(a: real, b: real, y: real, pa: real, pb: real)
    requires 0.0 < y && pa == a * y && pb == b * y && pa < pb
    ensures a < b
  {
    assert (b - a) * y > 0.0;
  }
}

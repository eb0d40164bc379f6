/** Definitions shared by every component: optional values, saturating 64-bit
    arithmetic, and sums over finite maps. */
module Common {

  datatype Option<+T> = None | Some(value: T)

  /** The largest value of an unsigned 64-bit counter. */
  const U64_MAX: nat := 0xFFFF_FFFF_FFFF_FFFF

  function Max(a: int, b: int): int {
    if a >= b then a else b
  }

  function Min(a: int, b: int): int {
    if a <= b then a else b
  }

  /** `u64::saturating_add`. */
  function SaturatingAdd(a: nat, b: nat): nat {
    if a + b > U64_MAX then U64_MAX else a + b
  }

  /** `u64::saturating_sub`. */
  function SaturatingSub(a: nat, b: nat): nat {
    if a < b then 0 else a - b
  }

  /** `AtomicU64::fetch_add` and `fetch_sub` wrap around at 2^64. */
  function Wrap(n: int): (r: nat)
    ensures 0 <= n <= U64_MAX ==> r == n
  {
    n % (U64_MAX + 1)
  }

  // --------------------------------------------------------------------- maps

  lemma SmallerWithout<K, V>(m: map<K, V>, k: K)
    requires k in m
    ensures |m - {k}| < |m|
  {
  }

  /** The entries of `m` at `keys`. */
  ghost function Restrict<K, V>(m: map<K, V>, keys: set<K>): map<K, V> {
    map k | k in m && k in keys :: m[k]
  }

  /** Entries handed from `a` over to `b` leave the union as it was. */
  lemma HandedOver<K, V>(a: map<K, V>, b: map<K, V>, keys: set<K>)
    requires a.Keys !! b.Keys
    ensures (a - keys) + (b + Restrict(a, keys)) == a + b
    ensures (a - keys).Keys !! (b + Restrict(a, keys)).Keys
  {
  }

  /** The sum of `weight` over all values of a finite map. */
  ghost function Sum<K, V>(m: map<K, V>, weight: V -> nat): nat
    decreases |m|
  {
    if m == map[] then 0
    else
      var k :| k in m;
      assert |m - {k}| < |m| by { SmallerWithout(m, k); }
      weight(m[k]) + Sum(m - {k}, weight)
  }

  /** Any key may be taken out first: the sum does not depend on the order. */
  lemma {:induction false} SumRemove<K, V>(m: map<K, V>, weight: V -> nat, k: K)
    requires k in m
    ensures Sum(m, weight) == weight(m[k]) + Sum(m - {k}, weight)
    decreases |m|
  {
    var c :| c in m && Sum(m, weight) == weight(m[c]) + Sum(m - {c}, weight);
    if c != k {
      SmallerWithout(m, c);
      SmallerWithout(m, k);
      SumRemove(m - {c}, weight, k);
      SumRemove(m - {k}, weight, c);
      assert m - {c} - {k} == m - {k} - {c};
    }
  }

  /** Writing one entry changes the sum by the difference in weight. */
  lemma SumUpdate<K, V>(m: map<K, V>, weight: V -> nat, k: K, v: V)
    ensures Sum(m[k := v], weight) + (if k in m then weight(m[k]) else 0) == Sum(m, weight) + weight(v)
  {
    SumRemove(m[k := v], weight, k);
    assert m[k := v] - {k} == m - {k};
    if k in m {
      SumRemove(m, weight, k);
    } else {
      assert m - {k} == m;
    }
  }

  /** Maps that agree in weight at every key have the same sum. */
  lemma {:induction false} SumAgrees<K, V>(a: map<K, V>, b: map<K, V>, weight: V -> nat)
    requires a.Keys == b.Keys && forall k :: k in a ==> weight(a[k]) == weight(b[k])
    ensures Sum(a, weight) == Sum(b, weight)
    decreases |a|
  {
    if a != map[] {
      var k :| k in a;
      SmallerWithout(a, k);
      SumRemove(a, weight, k);
      SumRemove(b, weight, k);
      SumAgrees(a - {k}, b - {k}, weight);
    } else {
      assert b == map[];
    }
  }

  /** A map splits into the part on `keys` and the rest. */
  lemma {:induction false} SumSplit<K, V>(m: map<K, V>, weight: V -> nat, keys: set<K>)
    ensures Sum(m, weight) == Sum(Restrict(m, keys), weight) + Sum(m - keys, weight)
    decreases |m|
  {
    if m == map[] {
      assert Restrict(m, keys) == map[] && m - keys == map[];
    } else {
      var k :| k in m;
      SmallerWithout(m, k);
      SumRemove(m, weight, k);
      SumSplit(m - {k}, weight, keys);
      if k in keys {
        SumRemove(Restrict(m, keys), weight, k);
        assert Restrict(m, keys) - {k} == Restrict(m - {k}, keys);
        assert (m - {k}) - keys == m - keys;
      } else {
        SumRemove(m - keys, weight, k);
        assert m - keys - {k} == (m - {k}) - keys;
        assert Restrict(m, keys) == Restrict(m - {k}, keys);
      }
    }
  }

  /** Two maps without a common key add up. */
  lemma SumUnion<K, V>(a: map<K, V>, b: map<K, V>, weight: V -> nat)
    requires a.Keys !! b.Keys
    ensures Sum(a + b, weight) == Sum(a, weight) + Sum(b, weight)
  {
    SumSplit(a + b, weight, a.Keys);
    assert Restrict(a + b, a.Keys) == a;
    assert (a + b) - a.Keys == b;
  }
}

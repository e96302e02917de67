/** Sums over the values of a finite map. */
module Sums {
  ghost function Total<K>(m: map<K, int>): int
    decreases |m|
  {
    if m == map[] then 0 else
    var k :| k in m;
    m[k] + Total(m - {k})
  }

  /** Any entry may be taken out first. */
  lemma {:induction false} TotalWithout<K>(m: map<K, int>, k: K)
    requires k in m
    ensures Total(m) == m[k] + Total(m - {k})
    decreases |m|
  {
    var first :| first in m && Total(m) == m[first] + Total(m - {first});
    if first != k {
      TotalWithout(m - {first}, k);
      TotalWithout(m - {k}, first);
      assert m - {first} - {k} == m - {k} - {first};
    }
  }

  lemma TotalAfterUpdate<K>(m: map<K, int>, k: K, v: int)
    ensures Total(m[k := v]) == Total(m) + v - (if k in m then m[k] else 0)
  {
    TotalWithout(m[k := v], k);
    assert m[k := v] - {k} == m - {k};
    if k in m {
      TotalWithout(m, k);
    } else {
      assert m - {k} == m;
    }
  }

  lemma {:induction false} TotalOfBounded<K>(m: map<K, int>, top: int)
    requires forall k :: k in m ==> 0 <= m[k] <= top
    ensures 0 <= Total(m) <= |m| * top
    decreases |m|
  {
    if m != map[] {
      hide Total;
      var k :| k in m;
      var rest := m - {k};
      TotalWithout(m, k);
      WithoutIsSmaller(m, k);
      TotalOfBounded(rest, top);
      Distribute(|rest|, top);
    }
  }

  lemma WithoutIsSmaller<K, V>(m: map<K, V>, k: K)
    requires k in m
    ensures |m| == |m - {k}| + 1
  {
    assert (m - {k}).Keys == m.Keys - {k};
  }

  lemma Distribute(n: int, top: int)
    ensures (n + 1) * top == n * top + top
  {
  }

  /** Numeric keys never run out. */
  lemma {:induction false} FreshNat(used: set<nat>) returns (n: nat)
    ensures n !in used && forall m :: m in used ==> m < n
  {
    if used == {} {
      n := 0;
    } else {
      var m :| m in used;
      var rest := FreshNat(used - {m});
      n := if m < rest then rest else m + 1;
      assert forall k :: k in used ==> k == m || k in used - {m};
    }
  }
}

/** Sums over a finite map, and sizes of sets and multisets. */
module Totals {

  ghost function Total<K(!new)>(m: map<K, nat>): nat {
    if m == map[] then 0 else var k :| k in m; m[k] + Total(m - {k})
  }

  lemma {:induction false} TotalSplit<K(!new)>(m: map<K, nat>, k: K)
    requires k in m
    ensures Total(m) == m[k] + Total(m - {k})
    decreases |m|
  {
    var j :| j in m && Total(m) == m[j] + Total(m - {j});
    if j != k {
      TotalSplit(m - {j}, k);
      TotalSplit(m - {k}, j);
      assert m - {j} - {k} == m - {k} - {j};
    }
  }

  lemma {:induction false} TotalMonotone<K(!new)>(a: map<K, nat>, b: map<K, nat>)
    requires a.Keys <= b.Keys && forall k | k in a :: a[k] == b[k]
    ensures Total(a) <= Total(b)
    decreases |a|
  {
    if a != map[] {
      var k :| k in a;
      TotalSplit(a, k);
      TotalSplit(b, k);
      TotalMonotone(a - {k}, b - {k});
    }
  }

  /** A multiset over `keys` holding each key at most `limit` times. */
  lemma {:induction false} BoundedSize<K(!new)>(m: multiset<K>, keys: set<K>, limit: nat)
    requires forall k | k in m :: k in keys && m[k] <= limit
    ensures |m| <= |keys| * limit
    decreases |keys|
  {
    if keys == {} {
      assert m == multiset{};
    } else {
      var k :| k in keys;
      BoundedSize(m[k := 0], keys - {k}, limit);
      assert |m| == |m[k := 0]| + m[k];
      assert |keys| == |keys - {k}| + 1;
      OneMore(|keys - {k}|, limit);
    }
  }

  lemma OneMore(n: nat, limit: nat)
    ensures (n + 1) * limit == n * limit + limit
  {
  }

  lemma {:induction false} SubsetSize<T>(a: set<T>, b: set<T>)
    requires a <= b
    ensures |a| <= |b|
  {
    assert b == a + (b - a);
  }

  /** An element at two places counts twice. */
  lemma {:induction false} Twice<T>(s: seq<T>, i: nat, j: nat)
    requires i < j < |s| && s[i] == s[j]
    ensures multiset(s)[s[i]] >= 2
  {
    assert s == s[..j] + [s[j]] + s[j + 1..];
    assert s[i] in s[..j];
  }
}

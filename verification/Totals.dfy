/** Sums over the values of a finite map. */
module Totals {

  ghost function Total<K(!new)>(m: map<K, real>): real {
    if m == map[] then 0.0
    else
      var k :| k in m;
      m[k] + Total(m - {k})
  }

  /** The sum does not depend on which entry is taken first. */
  lemma {:induction false} TotalTake<K(!new)>(m: map<K, real>, k: K)
    requires k in m
    ensures Total(m) == m[k] + Total(m - {k})
    decreases |m|
  {
    var first :| first in m && Total(m) == m[first] + Total(m - {first});
    if first != k {
      TotalTake(m - {first}, k);
      TotalTake(m - {k}, first);
      assert m - {first} - {k} == m - {k} - {first};
    }
  }

  lemma TotalWithout<K(!new)>(m: map<K, real>, k: K)
    ensures Total(m) == Total(m - {k}) + if k in m then m[k] else 0.0
  {
    if k in m {
      TotalTake(m, k);
    } else {
      assert m - {k} == m;
    }
  }

  ghost function Times(n: int, c: real): real {
    n as real * c
  }

  lemma NoTimes(c: real)
    ensures Times(0, c) == 0.0
  {
  }

  lemma OneMore(n: int, c: real)
    ensures Times(n + 1, c) == Times(n, c) + c
  {
    assert (n + 1) as real == n as real + 1.0;
  }

  lemma MoreTimes(n: int, n2: int, c: real)
    requires n <= n2 && c >= 0.0
    ensures Times(n, c) <= Times(n2, c)
  {
  }

  lemma {:induction false} TotalAtMost<K(!new)>(m: map<K, real>, c: real)
    requires forall k :: k in m ==> 0.0 <= m[k] <= c
    ensures 0.0 <= Total(m) <= Times(|m|, c)
    decreases |m|
  {
    hide Times;
    if m == map[] {
      NoTimes(c);
    } else {
      var k :| k in m;
      TotalTake(m, k);
      TotalAtMost(m - {k}, c);
      assert |m - {k}| == |m| - 1;
      OneMore(|m| - 1, c);
    }
  }

  lemma {:induction false} TotalMonotone<K(!new)>(a: map<K, real>, b: map<K, real>)
    requires a.Keys == b.Keys && forall k :: k in a ==> a[k] <= b[k]
    ensures Total(a) <= Total(b)
    decreases |a|
  {
    if k :| k in a {
      TotalTake(a, k);
      TotalTake(b, k);
      TotalMonotone(a - {k}, b - {k});
    }
  }

  lemma {:induction false} SubsetSize<K>(a: set<K>, b: set<K>)
    requires a <= b
    ensures |a| <= |b|
    decreases |a|
  {
    if a != {} {
      var k :| k in a;
      SubsetSize(a - {k}, b - {k});
    }
  }
}

/** Sums and cardinalities over finite maps. */
module Counting {

  ghost function Sum(m: map<string, int>): int {
    if m == map[] then 0 else
      var k :| k in m;
      m[k] + Sum(m - {k})
  }

  lemma {:induction false} SumSplit(m: map<string, int>, k: string)
    requires k in m
    ensures Sum(m) == m[k] + Sum(m - {k})
    decreases |m|
  {
    var j :| j in m && Sum(m) == m[j] + Sum(m - {j});
    if j != k {
      SumSplit(m - {j}, k);
      SumSplit(m - {k}, j);
      assert m - {j} - {k} == m - {k} - {j};
    }
  }

  lemma {:induction false} SumPlus(a: map<string, int>, b: map<string, int>, c: map<string, int>)
    requires a.Keys == b.Keys == c.Keys
    requires forall k | k in a :: a[k] + b[k] == c[k]
    ensures Sum(a) + Sum(b) == Sum(c)
    decreases |a|
  {
    if a == map[] {
      assert b == map[] && c == map[];
    } else {
      var k :| k in a;
      SumSplit(a, k);
      SumSplit(b, k);
      SumSplit(c, k);
      SumPlus(a - {k}, b - {k}, c - {k});
    }
  }

  lemma {:induction false} InjectiveFits<A, B>(m: map<A, B>, b: set<B>)
    requires forall x | x in m :: m[x] in b
    requires forall x, y | x in m && y in m && m[x] == m[y] :: x == y
    ensures |m| <= |b|
    decreases |m|
  {
    if m != map[] {
      var x :| x in m;
      var m', b' := m - {x}, b - {m[x]};
      InjectiveFits(m', b');
      assert m.Keys == m'.Keys + {x};
      assert |m| == |m.Keys| == |m'.Keys| + 1;
    }
  }
}

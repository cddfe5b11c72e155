/** Sums of the values of a dictionary, in whatever order its keys are visited. */
module MapSums {

  ghost function Total(m: map<nat, real>): real
    decreases |m|
  {
    if m == map[] then 0.0
    else
      var k :| k in m;
      m[k] + Total(m - {k})
  }

  lemma {:induction false} TotalRemove(m: map<nat, real>, k: nat)
    requires k in m
    ensures Total(m) == m[k] + Total(m - {k})
    decreases |m|
  {
    var j :| j in m && Total(m) == m[j] + Total(m - {j});
    if j != k {
      TotalRemove(m - {j}, k);
      TotalRemove(m - {k}, j);
      assert m - {j} - {k} == m - {k} - {j};
    }
  }

  lemma TotalUpdate(m: map<nat, real>, k: nat, v: real)
    ensures Total(m[k := v]) == Total(m) + v - (if k in m then m[k] else 0.0)
  {
    TotalRemove(m[k := v], k);
    if k in m {
      TotalRemove(m, k);
      assert m[k := v] - {k} == m - {k};
    } else {
      assert m[k := v] - {k} == m;
    }
  }

  lemma {:induction false} TotalAdds(x: map<nat, real>, y: map<nat, real>, z: map<nat, real>)
    requires x.Keys == y.Keys == z.Keys
    requires forall k :: k in z ==> z[k] == x[k] + y[k]
    ensures Total(z) == Total(x) + Total(y)
    decreases |z|
  {
    if z == map[] {
      assert x == map[] && y == map[];
    } else {
      var k :| k in z;
      TotalRemove(x, k);
      TotalRemove(y, k);
      TotalRemove(z, k);
      TotalAdds(x - {k}, y - {k}, z - {k});
    }
  }

  lemma {:induction false} TotalNonNegative(m: map<nat, real>)
    requires forall k :: k in m ==> m[k] >= 0.0
    ensures Total(m) >= 0.0
    ensures Total(m) == 0.0 <==> forall k :: k in m ==> m[k] == 0.0
    decreases |m|
  {
    if m != map[] {
      var k :| k in m;
      TotalRemove(m, k);
      var rest := m - {k};
      TotalNonNegative(rest);
      if forall j :: j in rest ==> rest[j] == 0.0 {
        assert forall j :: j in m && j != k ==> j in rest && rest[j] == m[j];
      }
    }
  }

  function Get(m: map<nat, real>, k: nat): real {
    if k in m then m[k] else 0.0
  }

  lemma WithoutKey(x: map<nat, real>, y: map<nat, real>, k: nat)
    requires forall j :: Get(x, j) == Get(y, j)
    ensures forall j :: Get(x - {k}, j) == Get(y - {k}, j)
  {
    forall j
      ensures Get(x - {k}, j) == Get(y - {k}, j)
    {
      assert Get(x, j) == Get(y, j);
    }
  }

  lemma {:induction false} SameTotals(x: map<nat, real>, y: map<nat, real>)
    requires forall k :: Get(x, k) == Get(y, k)
    ensures Total(x) == Total(y)
    decreases |x|
  {
    if x == map[] {
      forall k | k in y
        ensures y[k] == 0.0
      {
        assert Get(x, k) == Get(y, k);
      }
      TotalNonNegative(y);
    } else {
      var k :| k in x;
      TotalRemove(x, k);
      var rest := y - {k};
      WithoutKey(x, y, k);
      SameTotals(x - {k}, rest);
      assert Get(x, k) == Get(y, k);
      if k in y {
        TotalRemove(y, k);
      } else {
        assert rest == y;
      }
    }
  }
}

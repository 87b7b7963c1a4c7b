/** Sums over the values of a map, and counts of sets and lists. */
module Totals {

  ghost function MapTotal<K>(m: map<K, int>): int {
    if m == map[] then 0 else
    var k :| k in m;
    m[k] + MapTotal(m - {k})
  }

  lemma {:induction false} TotalWithout<K>(m: map<K, int>, k: K)
    requires k in m
    ensures MapTotal(m) == m[k] + MapTotal(m - {k})
  {
    var x :| x in m && MapTotal(m) == m[x] + MapTotal(m - {x});
    if x != k {
      TotalWithout(m - {x}, k);
      TotalWithout(m - {k}, x);
      assert m - {x} - {k} == m - {k} - {x};
    }
  }

  function Get<K>(m: map<K, int>, k: K): int { if k in m then m[k] else 0 }

  lemma TotalRemoved<K>(m: map<K, int>, k: K)
    ensures MapTotal(m - {k}) == MapTotal(m) - Get(m, k)
    ensures |m - {k}| == |m| - (if k in m then 1 else 0)
  {
    hide MapTotal;
    if k in m {
      TotalWithout(m, k);
      assert (m - {k}).Keys == m.Keys - {k};
    } else {
      assert m - {k} == m;
    }
  }

  lemma TotalUpdated<K>(m: map<K, int>, k: K, v: int)
    ensures MapTotal(m[k := v]) == MapTotal(m) - Get(m, k) + v
  {
    hide MapTotal;
    TotalWithout(m[k := v], k);
    TotalRemoved(m, k);
    assert m[k := v] - {k} == m - {k};
  }

  lemma SizeUpdated<K>(m: map<K, int>, k: K, v: int)
    ensures |m[k := v]| == |m| + (if k in m then 0 else 1)
  {
    assert m[k := v].Keys == m.Keys + {k};
  }

  function SeqTotal<K(==)>(ks: seq<K>, m: map<K, int>): int {
    if ks == [] then 0 else SeqTotal(ks[..|ks| - 1], m) + Get(m, ks[|ks| - 1])
  }

  predicate Distinct<K(==)>(ks: seq<K>) {
    forall i, j :: 0 <= i < j < |ks| ==> ks[i] != ks[j]
  }

  lemma WithoutLast<K>(ks: seq<K>, m: map<K, int>)
    requires ks != [] && Distinct(ks) && forall k :: k in ks <==> k in m
    ensures var init, k := ks[..|ks| - 1], ks[|ks| - 1];
      k in m && Distinct(init) && forall x :: x in init <==> x in m - {k}
  {
    var init, k := ks[..|ks| - 1], ks[|ks| - 1];
    assert ks == init + [k];
    assert k !in init;
    assert forall x :: x in ks <==> x in init || x == k;
  }

  /** Any list of a map's keys gives the same total. */
  lemma {:induction false} ListedTotal<K>(ks: seq<K>, m: map<K, int>)
    requires Distinct(ks) && forall k :: k in ks <==> k in m
    ensures SeqTotal(ks, m) == MapTotal(m) && |ks| == |m|
  {
    if ks == [] {
      assert m == map[];
    } else {
      hide MapTotal, Distinct;
      var init, k := ks[..|ks| - 1], ks[|ks| - 1];
      WithoutLast(ks, m);
      ListedTotal(init, m - {k});
      TotalRemoved(m, k);
      SameOn(init, m, m - {k});
    }
  }

  lemma {:induction false} SameOn<K>(ks: seq<K>, m: map<K, int>, n: map<K, int>)
    requires forall k :: k in ks ==> Get(m, k) == Get(n, k)
    ensures SeqTotal(ks, m) == SeqTotal(ks, n)
  {
    if ks != [] {
      assert ks[|ks| - 1] in ks;
      SameOn(ks[..|ks| - 1], m, n);
    }
  }

  lemma {:induction false} SubsetCount<K>(a: set<K>, b: set<K>)
    requires a <= b
    ensures |a| <= |b| && (|a| == |b| ==> a == b)
  {
    if a != {} {
      var x :| x in a;
      SubsetCount(a - {x}, b - {x});
      assert a == (a - {x}) + {x} && b == (b - {x}) + {x};
    }
  }
}

/** Sums of an integer-valued function over a finite set, used for token totals and locked collateral. */
module Sums {

  /** The sum of f over s; the order in which elements are taken does not matter (see SumRemove). */
  ghost function Sum<K(!new)>(s: set<K>, f: K -> int): int
  {
    if s == {} then 0
    else
      var k :| k in s;
      f(k) + Sum(s - {k}, f)
  }

  lemma {:induction false} SumRemove<K(!new)>(s: set<K>, f: K -> int, k: K)
    requires k in s
    ensures Sum(s, f) == f(k) + Sum(s - {k}, f)
    decreases s
  {
    var j :| j in s && Sum(s, f) == f(j) + Sum(s - {j}, f);
    if j != k {
      SumRemove(s - {j}, f, k);
      SumRemove(s - {k}, f, j);
      assert s - {j} - {k} == s - {k} - {j};
    }
  }

  lemma SumInsert<K(!new)>(s: set<K>, f: K -> int, k: K)
    requires k !in s
    ensures Sum(s + {k}, f) == f(k) + Sum(s, f)
  {
    SumRemove(s + {k}, f, k);
    assert s + {k} - {k} == s;
  }

  /** The sum depends only on the values of f inside s. */
  lemma {:induction false} SumCongruence<K(!new)>(s: set<K>, f: K -> int, g: K -> int)
    requires forall k | k in s :: f(k) == g(k)
    ensures Sum(s, f) == Sum(s, g)
    decreases s
  {
    if s != {} {
      var k :| k in s;
      SumRemove(s, f, k);
      SumRemove(s, g, k);
      SumCongruence(s - {k}, f, g);
    }
  }

  lemma {:induction false} SumNonNegative<K(!new)>(s: set<K>, f: K -> int)
    requires forall k | k in s :: f(k) >= 0
    ensures Sum(s, f) >= 0
    decreases s
  {
    if s != {} {
      var k :| k in s;
      SumRemove(s, f, k);
      SumNonNegative(s - {k}, f);
    }
  }

  /** Every single term of a sum of non-negative terms is at most the sum. */
  lemma SumBoundsTerm<K(!new)>(s: set<K>, f: K -> int, k: K)
    requires k in s
    requires forall j | j in s :: f(j) >= 0
    ensures f(k) <= Sum(s, f)
  {
    SumRemove(s, f, k);
    SumNonNegative(s - {k}, f);
  }

  /** Changing the function at one element changes the sum by the difference there. */
  lemma SumUpdate<K(!new)>(s: set<K>, f: K -> int, g: K -> int, k: K)
    requires k in s
    requires forall j | j in s && j != k :: f(j) == g(j)
    ensures Sum(s, g) == Sum(s, f) - f(k) + g(k)
  {
    SumRemove(s, f, k);
    SumRemove(s, g, k);
    SumCongruence(s - {k}, f, g);
  }

  lemma {:induction false} SumUnion<K(!new)>(s: set<K>, t: set<K>, f: K -> int)
    requires s !! t
    ensures Sum(s + t, f) == Sum(s, f) + Sum(t, f)
    decreases t
  {
    if t == {} {
      assert s + t == s;
    } else {
      var k :| k in t;
      SumRemove(s + t, f, k);
      SumRemove(t, f, k);
      assert s + t - {k} == s + (t - {k});
      SumUnion(s, t - {k}, f);
    }
  }

  // ----- amounts kept in a map

  /** A key that was never written reads as zero. */
  function ValueOf<K>(m: map<K, nat>, k: K): nat {
    if k in m then m[k] else 0
  }

  ghost function TotalOf<K(!new)>(m: map<K, nat>): int {
    Sum(m.Keys, (k: K) => ValueOf(m, k))
  }

  /** Writing one key moves the total by the difference. */
  lemma TotalWrite<K(!new)>(m: map<K, nat>, k: K, v: nat)
    ensures TotalOf(m[k := v]) == TotalOf(m) + v - ValueOf(m, k)
  {
    var after := m[k := v];
    var f, g := (j: K) => ValueOf(m, j), (j: K) => ValueOf(after, j);
    if k in m {
      assert after.Keys == m.Keys;
      SumUpdate(m.Keys, f, g, k);
    } else {
      assert after.Keys == m.Keys + {k};
      SumInsert(m.Keys, g, k);
      SumCongruence(m.Keys, f, g);
    }
  }

  lemma TotalNonNegative<K(!new)>(m: map<K, nat>)
    ensures TotalOf(m) >= 0
  {
    SumNonNegative(m.Keys, (k: K) => ValueOf(m, k));
  }

  lemma ValueAtMostTotal<K(!new)>(m: map<K, nat>, k: K)
    ensures ValueOf(m, k) <= TotalOf(m)
  {
    TotalNonNegative(m);
    if k in m {
      SumBoundsTerm(m.Keys, (j: K) => ValueOf(m, j), k);
    }
  }
}

/** Sums over finite sets, and how one changed summand moves them. */
module Sums {
  ghost function Sum<K>(s: set<K>, f: K -> int): int {
    if s == {} then 0
    else
      var k :| k in s;
      f(k) + Sum(s - {k}, f)
  }

  lemma {:induction false} SumRemove<K>(s: set<K>, f: K -> int, k: K)
    requires k in s
    ensures Sum(s, f) == f(k) + Sum(s - {k}, f)
    decreases |s|
  {
    var p :| p in s && Sum(s, f) == f(p) + Sum(s - {p}, f);
    if p != k {
      SumRemove(s - {p}, f, k);
      SumRemove(s - {k}, f, p);
      assert s - {p} - {k} == s - {k} - {p};
    }
  }

  lemma {:induction false} SumCongruent<K>(s: set<K>, f: K -> int, g: K -> int)
    requires forall k | k in s :: f(k) == g(k)
    ensures Sum(s, f) == Sum(s, g)
    decreases |s|
  {
    if s != {} {
      var k :| k in s;
      SumRemove(s, f, k);
      SumRemove(s, g, k);
      SumCongruent(s - {k}, f, g);
    }
  }

  /** Changing (or adding) the one summand `k`. */
  lemma SumUpdate<K>(s: set<K>, f: K -> int, g: K -> int, k: K)
    requires forall j | j in s && j != k :: f(j) == g(j)
    requires k in s || f(k) == 0
    ensures Sum(s + {k}, g) == Sum(s, f) - f(k) + g(k)
  {
    SumRemove(s + {k}, g, k);
    assert s + {k} - {k} == s - {k};
    SumCongruent(s - {k}, f, g);
    if k in s {
      SumRemove(s, f, k);
    } else {
      assert s - {k} == s;
    }
  }

  lemma {:induction false} SumNonNegative<K>(s: set<K>, f: K -> int)
    requires forall k | k in s :: f(k) >= 0
    ensures Sum(s, f) >= 0
    decreases |s|
  {
    if s != {} {
      var k :| k in s;
      SumRemove(s, f, k);
      SumNonNegative(s - {k}, f);
    }
  }

  /** Pointwise smaller summands give a smaller sum. */
  lemma {:induction false} SumMonotone<K>(s: set<K>, f: K -> int, g: K -> int)
    requires forall k | k in s :: f(k) <= g(k)
    ensures Sum(s, f) <= Sum(s, g)
    decreases |s|
  {
    if s != {} {
      var k :| k in s;
      SumRemove(s, f, k);
      SumRemove(s, g, k);
      SumMonotone(s - {k}, f, g);
    }
  }
}

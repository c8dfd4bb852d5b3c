/** Sums of reals over finite sets, the order-free form of a loop over a JavaScript
    Map or Set. */
module Sums {

  lemma SubsetSize<T>(a: set<T>, b: set<T>)
    requires a <= b
    ensures |a| <= |b|
  {
    assert b == a + (b - a);
  }

  ghost function SumOver<K(!new)>(ks: set<K>, f: K -> real): real
    decreases |ks|
  {
    if ks == {} then 0.0
    else
      var k :| k in ks;
      f(k) + SumOver(ks - {k}, f)
  }

  lemma {:induction false} SumRemove<K(!new)>(ks: set<K>, k: K, f: K -> real)
    requires k in ks
    ensures SumOver(ks, f) == f(k) + SumOver(ks - {k}, f)
    decreases |ks|
  {
    var j :| j in ks && SumOver(ks, f) == f(j) + SumOver(ks - {j}, f);
    if j != k {
      SumRemove(ks - {j}, k, f);
      SumRemove(ks - {k}, j, f);
      assert ks - {j} - {k} == ks - {k} - {j};
    }
  }

  lemma {:induction false} SumEqual<K(!new)>(ks: set<K>, f: K -> real, g: K -> real)
    requires forall k :: k in ks ==> f(k) == g(k)
    ensures SumOver(ks, f) == SumOver(ks, g)
    decreases |ks|
  {
    if ks != {} {
      var k :| k in ks;
      SumRemove(ks, k, f);
      SumRemove(ks, k, g);
      SumEqual(ks - {k}, f, g);
    }
  }

  lemma {:induction false} SumAdd<K(!new)>(ks: set<K>, f: K -> real, g: K -> real, h: K -> real)
    requires forall k :: k in ks ==> h(k) == f(k) + g(k)
    ensures SumOver(ks, h) == SumOver(ks, f) + SumOver(ks, g)
    decreases |ks|
  {
    if ks != {} {
      var k :| k in ks;
      SumRemove(ks, k, f);
      SumRemove(ks, k, g);
      SumRemove(ks, k, h);
      SumAdd(ks - {k}, f, g, h);
    }
  }

  lemma {:induction false} SumZero<K(!new)>(ks: set<K>, f: K -> real)
    requires forall k :: k in ks ==> f(k) == 0.0
    ensures SumOver(ks, f) == 0.0
    decreases |ks|
  {
    if ks != {} {
      var k :| k in ks;
      SumRemove(ks, k, f);
      SumZero(ks - {k}, f);
    }
  }

  /** A function that is zero off one point sums to its value there. */
  lemma SumPoint<K(!new)>(ks: set<K>, p: K, f: K -> real)
    requires p in ks && forall k :: k in ks && k != p ==> f(k) == 0.0
    ensures SumOver(ks, f) == f(p)
  {
    SumRemove(ks, p, f);
    SumZero(ks - {p}, f);
  }

  /** Multiplication, named so that proofs about sums can leave it unopened. */
  function Times(a: real, b: real): real { a * b }

  lemma Distribute(c: real, a: real, b: real)
    ensures Times(c, a + b) == Times(c, a) + Times(c, b)
    ensures Times(c, 0.0) == 0.0
  {
  }

  lemma {:induction false} SumScale<K(!new)>(ks: set<K>, c: real, f: K -> real, g: K -> real)
    requires forall k :: k in ks ==> g(k) == Times(c, f(k))
    ensures SumOver(ks, g) == Times(c, SumOver(ks, f))
    decreases |ks|
  {
    hide Times;
    if ks == {} {
      Distribute(c, 0.0, 0.0);
    } else {
      var k :| k in ks;
      SumRemove(ks, k, f);
      SumRemove(ks, k, g);
      SumScale(ks - {k}, c, f, g);
      Distribute(c, f(k), SumOver(ks - {k}, f));
    }
  }

  lemma {:induction false} SumDisjoint<K(!new)>(a: set<K>, b: set<K>, f: K -> real)
    requires a !! b
    ensures SumOver(a + b, f) == SumOver(a, f) + SumOver(b, f)
    decreases |a|
  {
    if a == {} {
      assert a + b == b;
    } else {
      var k :| k in a;
      SumRemove(a, k, f);
      SumRemove(a + b, k, f);
      SumDisjoint(a - {k}, b, f);
      assert a + b - {k} == (a - {k}) + b;
    }
  }

  /** A sum of terms that are not negative is zero only if every term is. */
  lemma {:induction false} SumNonNegative<K(!new)>(ks: set<K>, f: K -> real)
    requires forall k :: k in ks ==> 0.0 <= f(k)
    ensures 0.0 <= SumOver(ks, f)
    ensures SumOver(ks, f) == 0.0 <==> forall k :: k in ks ==> f(k) == 0.0
    decreases |ks|
  {
    if ks != {} {
      var k :| k in ks;
      SumRemove(ks, k, f);
      SumNonNegative(ks - {k}, f);
      assert forall j :: j in ks <==> j == k || j in ks - {k};
    }
  }
}

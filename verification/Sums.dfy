// Finite sums over sets, and the few laws the accounting proofs need.
module Sums {

  // Sum of f over s. The element picked at each step does not matter: see SumRemove.
  ghost function Sum<K(!new)>(s: set<K>, f: K -> int): int
    decreases |s|
  {
    if s == {} then 0
    else
      var k :| k in s;
      f(k) + Sum(s - {k}, f)
  }

  lemma {:induction false} SumRemove<K(!new)>(s: set<K>, f: K -> int, k: K)
    requires k in s
    ensures Sum(s, f) == f(k) + Sum(s - {k}, f)
    decreases |s|
  {
    var j :| j in s && Sum(s, f) == f(j) + Sum(s - {j}, f);
    if j != k {
      SumRemove(s - {j}, f, k);
      SumRemove(s - {k}, f, j);
      assert s - {j} - {k} == s - {k} - {j};
    }
  }

  lemma SumInsert<K(!new)>(s: set<K>, f: K -> int, k: K)
    requires k !in s
    ensures Sum(s + {k}, f) == f(k) + Sum(s, f)
  {
    SumRemove(s + {k}, f, k);
    assert s + {k} - {k} == s;
  }

  lemma {:induction false} SumAgree<K(!new)>(s: set<K>, f: K -> int, g: K -> int)
    requires forall k :: k in s ==> f(k) == g(k)
    ensures Sum(s, f) == Sum(s, g)
    decreases |s|
  {
    if s == {} {
    } else {
      var k :| k in s;
      SumRemove(s, f, k);
      SumRemove(s, g, k);
      SumAgree(s - {k}, f, g);
    }
  }

  // f and g differ at k only.
  lemma SumChange<K(!new)>(s: set<K>, f: K -> int, g: K -> int, k: K)
    requires k in s
    requires forall j :: j in s && j != k ==> f(j) == g(j)
    ensures Sum(s, g) == Sum(s, f) - f(k) + g(k)
  {
    SumRemove(s, f, k);
    SumRemove(s, g, k);
    SumAgree(s - {k}, f, g);
  }

  // Inserting or overwriting one key; outside s the function f counts as 0.
  lemma SumPut<K(!new)>(s: set<K>, f: K -> int, g: K -> int, k: K)
    requires forall j :: j in s && j != k ==> f(j) == g(j)
    requires k !in s ==> f(k) == 0
    ensures Sum(s + {k}, g) == Sum(s, f) - f(k) + g(k)
  {
    if k in s {
      assert s + {k} == s;
      SumChange(s, f, g, k);
    } else {
      SumInsert(s, g, k);
      SumAgree(s, f, g);
    }
  }

  lemma Distribute(c: int, a: int, b: int)
    ensures c * (a + b) == c * a + c * b
  {
  }

  // h = f + c * g, pointwise.
  lemma {:induction false} SumLinear<K(!new)>(s: set<K>, f: K -> int, g: K -> int, c: int, h: K -> int)
    requires forall k :: k in s ==> h(k) == f(k) + c * g(k)
    ensures Sum(s, h) == Sum(s, f) + c * Sum(s, g)
    decreases |s|
  {
    if s == {} {
    } else {
      var k :| k in s;
      SumRemove(s, f, k);
      SumRemove(s, g, k);
      SumRemove(s, h, k);
      SumLinear(s - {k}, f, g, c, h);
      Distribute(c, g(k), Sum(s - {k}, g));
    }
  }

  lemma {:induction false} SumNonNegative<K(!new)>(s: set<K>, f: K -> int)
    requires forall k :: k in s ==> 0 <= f(k)
    ensures 0 <= Sum(s, f)
    ensures forall k :: k in s ==> f(k) <= Sum(s, f)
    decreases |s|
  {
    forall k | k in s
      ensures f(k) <= Sum(s, f)
    {
      SumRemove(s, f, k);
      SumNonNegative(s - {k}, f);
    }
  }

  lemma {:induction false} SumAtMost<K(!new)>(s: set<K>, f: K -> int, g: K -> int)
    requires forall k :: k in s ==> f(k) <= g(k)
    ensures Sum(s, f) <= Sum(s, g)
    decreases |s|
  {
    if s == {} {
    } else {
      var k :| k in s;
      SumRemove(s, f, k);
      SumRemove(s, g, k);
      SumAtMost(s - {k}, f, g);
    }
  }

  lemma {:induction false} SumZero<K(!new)>(s: set<K>, f: K -> int)
    requires forall k :: k in s ==> f(k) == 0
    ensures Sum(s, f) == 0
    decreases |s|
  {
    if s == {} {
    } else {
      var k :| k in s;
      SumRemove(s, f, k);
      SumZero(s - {k}, f);
    }
  }

  // ---------- Sums over sequences ----------

  ghost function SumSeq<T>(xs: seq<T>, f: T -> int): int {
    if xs == [] then 0 else SumSeq(xs[..|xs| - 1], f) + f(xs[|xs| - 1])
  }

  lemma SumSeqAppend<T>(xs: seq<T>, x: T, f: T -> int)
    ensures SumSeq(xs + [x], f) == SumSeq(xs, f) + f(x)
  {
    assert (xs + [x])[..|xs|] == xs;
  }

  // d == a + m * b + k * c, element by element.
  lemma {:induction false} SumSeqCombine<T>(xs: seq<T>, a: T -> int, m: int, b: T -> int, k: int, c: T -> int,
                                            d: T -> int)
    requires forall x :: x in xs ==> d(x) == a(x) + m * b(x) + k * c(x)
    ensures SumSeq(xs, d) == SumSeq(xs, a) + m * SumSeq(xs, b) + k * SumSeq(xs, c)
  {
    if xs == [] {
    } else {
      var ys, x := xs[..|xs| - 1], xs[|xs| - 1];
      SumSeqCombine(ys, a, m, b, k, c, d);
      Distribute(m, SumSeq(ys, b), b(x));
      Distribute(k, SumSeq(ys, c), c(x));
    }
  }

  lemma {:induction false} SumSeqAtMost<T>(xs: seq<T>, a: T -> int, b: T -> int)
    requires forall x :: x in xs ==> a(x) <= b(x)
    ensures SumSeq(xs, a) <= SumSeq(xs, b)
  {
    if xs == [] {
    } else {
      SumSeqAtMost(xs[..|xs| - 1], a, b);
    }
  }

  lemma {:induction false} SumSeqUpdate<T>(xs: seq<T>, i: nat, x: T, f: T -> int)
    requires i < |xs|
    ensures SumSeq(xs[i := x], f) == SumSeq(xs, f) - f(xs[i]) + f(x)
  {
    var n := |xs| - 1;
    if i == n {
      assert xs[i := x][..n] == xs[..n];
    } else {
      SumSeqUpdate(xs[..n], i, x, f);
      assert xs[i := x][..n] == xs[..n][i := x];
    }
  }

  // A sum of terms that are not negative is zero exactly when every term is.
  lemma {:induction false} SumSeqZero<T>(xs: seq<T>, f: T -> int)
    requires forall x :: x in xs ==> 0 <= f(x)
    ensures 0 <= SumSeq(xs, f)
    ensures SumSeq(xs, f) == 0 <==> forall x :: x in xs ==> f(x) == 0
  {
    if xs == [] {
    } else {
      var ys, x := xs[..|xs| - 1], xs[|xs| - 1];
      SumSeqZero(ys, f);
      assert forall y :: y in xs <==> y in ys || y == x by {
        assert xs == ys + [x];
      }
    }
  }
}

/** Totals by key: what a loop that accumulates into a map computes, whatever the key. */
module Grouping {
  function Sum<T>(xs: seq<T>, w: T -> int): int {
    if xs == [] then 0 else Sum(xs[..|xs| - 1], w) + w(xs[|xs| - 1])
  }

  /** The total weight of the elements with one key. */
  function TotalOf<T, K(==)>(xs: seq<T>, key: T -> K, w: T -> int, k: K): int {
    if xs == [] then 0
    else TotalOf(xs[..|xs| - 1], key, w, k) + if key(xs[|xs| - 1]) == k then w(xs[|xs| - 1]) else 0
  }

  /** The keys in the order a Map would first see them. */
  function KeysOf<T, K(==)>(xs: seq<T>, key: T -> K): (ks: seq<K>)
    ensures forall i, j :: 0 <= i < j < |ks| ==> ks[i] != ks[j]
  {
    if xs == [] then []
    else
      var front, k := KeysOf(xs[..|xs| - 1], key), key(xs[|xs| - 1]);
      if k in front then front else front + [k]
  }

  function SumOver<K>(ks: seq<K>, total: K -> int): int {
    if ks == [] then 0 else SumOver(ks[..|ks| - 1], total) + total(ks[|ks| - 1])
  }

  lemma {:induction false} KeysOfHas<T, K>(xs: seq<T>, key: T -> K, k: K)
    ensures k in KeysOf(xs, key) <==> exists i :: 0 <= i < |xs| && key(xs[i]) == k
  {
    if xs != [] {
      var n := |xs| - 1;
      KeysOfHas(xs[..n], key, k);
      if exists i :: 0 <= i < n && key(xs[..n][i]) == k {
        var i :| 0 <= i < n && key(xs[..n][i]) == k;
        assert key(xs[i]) == k;
      }
      if exists i :: 0 <= i < |xs| && key(xs[i]) == k {
        var i :| 0 <= i < |xs| && key(xs[i]) == k;
        assert i == n || xs[..n][i] == xs[i];
      }
    }
  }

  lemma {:induction false} NoTotalWithoutKey<T, K>(xs: seq<T>, key: T -> K, w: T -> int, k: K)
    requires k !in KeysOf(xs, key)
    ensures TotalOf(xs, key, w, k) == 0
  {
    if xs != [] {
      NoTotalWithoutKey(xs[..|xs| - 1], key, w, k);
    }
  }

  /** Raising the total of one listed key by d raises the sum by d. */
  lemma {:induction false} SumOverRaised<K>(ks: seq<K>, total: K -> int, raised: K -> int, k: K, d: int)
    requires forall i, j :: 0 <= i < j < |ks| ==> ks[i] != ks[j]
    requires forall j :: j in ks ==> raised(j) == total(j) + if j == k then d else 0
    ensures SumOver(ks, raised) == SumOver(ks, total) + if k in ks then d else 0
  {
    if ks != [] {
      var front, last := ks[..|ks| - 1], ks[|ks| - 1];
      assert forall j :: j in ks <==> j in front || j == last;
      assert last !in front;
      SumOverRaised(front, total, raised, k, d);
    }
  }

  /** Nothing is lost or counted twice: the totals of the keys add up to the whole. */
  lemma {:induction false} TotalsAddUp<T(!new), K(!new)>(xs: seq<T>, key: T -> K, w: T -> int)
    ensures SumOver(KeysOf(xs, key), k => TotalOf(xs, key, w, k)) == Sum(xs, w)
  {
    if xs != [] {
      var front, x := xs[..|xs| - 1], xs[|xs| - 1];
      var total, raised := (k => TotalOf(front, key, w, k)), (k => TotalOf(xs, key, w, k));
      TotalsAddUp(front, key, w);
      var ks := KeysOf(front, key);
      SumOverRaised(ks, total, raised, key(x), w(x));
      if key(x) !in ks {
        NoTotalWithoutKey(front, key, w, key(x));
        var all := ks + [key(x)];
        assert all[..|ks|] == ks;
      }
    }
  }

  // ------------------------------------------------------------------ permutations

  lemma {:induction false} SumRemoves<T>(xs: seq<T>, w: T -> int, i: nat)
    requires i < |xs|
    ensures Sum(xs, w) == Sum(xs[..i] + xs[i + 1..], w) + w(xs[i])
  {
    var n := |xs| - 1;
    if i == n {
      assert xs[..i] + xs[i + 1..] == xs[..n];
    } else {
      SumRemoves(xs[..n], w, i);
      var rest := xs[..i] + xs[i + 1..];
      assert rest[..n - 1] == xs[..n][..i] + xs[..n][i + 1..];
      assert rest[n - 1] == xs[n];
    }
  }

  /** A sum does not depend on the order of its terms. */
  lemma {:induction false} SumPermutes<T>(xs: seq<T>, ys: seq<T>, w: T -> int)
    requires multiset(xs) == multiset(ys)
    ensures Sum(xs, w) == Sum(ys, w)
  {
    if xs == [] {
      assert |multiset(ys)| == 0;
    } else {
      var n := |xs| - 1;
      assert xs[n] in multiset(ys);
      var i :| 0 <= i < |ys| && ys[i] == xs[n];
      var rest := ys[..i] + ys[i + 1..];
      SumRemoves(ys, w, i);
      Removed(xs, ys, i);
      SumPermutes(xs[..n], rest, w);
    }
  }

  lemma Middle<T>(a: seq<T>, x: T, b: seq<T>)
    ensures multiset(a + [x] + b) == multiset(a + b) + multiset{x}
  {
    assert multiset(a + [x] + b) == multiset(a) + multiset{x} + multiset(b);
    assert multiset(a + b) == multiset(a) + multiset(b);
  }

  lemma Cancel<T>(m: multiset<T>, n: multiset<T>, x: T)
    requires m + multiset{x} == n + multiset{x}
    ensures m == n
  {
    assert m == (m + multiset{x}) - multiset{x};
  }

  lemma Removed<T>(xs: seq<T>, ys: seq<T>, i: nat)
    requires xs != [] && i < |ys| && ys[i] == xs[|xs| - 1] && multiset(xs) == multiset(ys)
    ensures multiset(xs[..|xs| - 1]) == multiset(ys[..i] + ys[i + 1..])
  {
    var front, x, a, b := xs[..|xs| - 1], ys[i], ys[..i], ys[i + 1..];
    Middle(front, x, []);
    Middle(a, x, b);
    assert xs == front + [x] + [] && front == front + [];
    assert ys == a + [x] + b;
    Cancel(multiset(front), multiset(a + b), x);
  }
}

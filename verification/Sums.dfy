/** Sums over finite maps, for statements of conservation. */
module Sums {
  ghost function Total<K>(m: map<K, int>): int
    decreases |m|
  {
    if m == map[] then 0
    else
      var k :| k in m;
      assert |m - {k}| < |m| by { assert m.Keys == (m - {k}).Keys + {k}; }
      m[k] + Total(m - {k})
  }

  lemma {:induction false} TotalRemove<K>(m: map<K, int>, k: K)
    requires k in m
    ensures Total(m) == m[k] + Total(m - {k})
    decreases |m|
  {
    var c :| c in m && Total(m) == m[c] + Total(m - {c});
    if c != k {
      assert |m - {c}| < |m| && |m - {k}| < |m| by {
        assert m.Keys == (m - {k}).Keys + {k};
        assert m.Keys == (m - {c}).Keys + {c};
      }
      TotalRemove(m - {c}, k);
      TotalRemove(m - {k}, c);
      assert m - {c} - {k} == m - {k} - {c};
    }
  }

  function Get<K>(m: map<K, int>, k: K): int {
    if k in m then m[k] else 0
  }

  lemma {:induction false} TotalUpdate<K>(m: map<K, int>, k: K, v: int)
    ensures Total(m[k := v]) == Total(m) - Get(m, k) + v
  {
    TotalRemove(m[k := v], k);
    assert m[k := v] - {k} == m - {k};
    if k in m { TotalRemove(m, k); } else { assert m - {k} == m; }
  }

  lemma {:induction false} TotalAdd<K>(m: map<K, int>, k: K, v: int, n: map<K, int>)
    requires n == m[k := Get(m, k) + v]
    ensures Total(n) == Total(m) + v
  {
    TotalUpdate(m, k, Get(m, k) + v);
  }

  /** Keeping only the positive entries never loses value, and gains some exactly when an entry
      is negative. */
  lemma {:induction false} TotalPositive<K>(m: map<K, int>)
    ensures Total(map k | k in m && m[k] > 0 :: m[k]) >= Total(m)
    ensures Total(map k | k in m && m[k] > 0 :: m[k]) == Total(m) <==> forall k | k in m :: m[k] >= 0
    decreases |m|
  {
    var pos := map k | k in m && m[k] > 0 :: m[k];
    if m == map[] {
      assert pos == map[];
    } else {
      var k :| k in m;
      assert |m - {k}| < |m| by { assert m.Keys == (m - {k}).Keys + {k}; }
      TotalPositive(m - {k});
      TotalRemove(m, k);
      var rest := map j | j in m - {k} && (m - {k})[j] > 0 :: (m - {k})[j];
      if m[k] > 0 {
        TotalRemove(pos, k);
        assert pos - {k} == rest;
      } else {
        assert pos == rest;
      }
      assert forall j | j in m :: j == k || j in m - {k};
    }
  }

  // ---------------------------------------------------------------- sums over listed keys

  ghost function SumOver<K>(f: K -> int, ks: seq<K>): int
    decreases |ks|
  {
    if ks == [] then 0 else SumOver(f, ks[..|ks| - 1]) + f(ks[|ks| - 1])
  }

  ghost predicate Distinct<K(!new)>(ks: seq<K>) {
    forall i, j | 0 <= i < j < |ks| :: ks[i] != ks[j]
  }

  lemma {:induction false} SumJoin<K>(f: K -> int, a: seq<K>, b: seq<K>)
    ensures SumOver(f, a + b) == SumOver(f, a) + SumOver(f, b)
    decreases |b|
  {
    if b == [] {
      assert a + b == a;
    } else {
      SumJoin(f, a, b[..|b| - 1]);
      assert (a + b)[..|a + b| - 1] == a + b[..|b| - 1];
    }
  }

  lemma {:induction false} SumDrop<K>(f: K -> int, ks: seq<K>, i: nat)
    requires i < |ks|
    ensures SumOver(f, ks) == SumOver(f, ks[..i] + ks[i + 1..]) + f(ks[i])
  {
    assert ks == ks[..i] + [ks[i]] + ks[i + 1..];
    SumJoin(f, ks[..i] + [ks[i]], ks[i + 1..]);
    SumJoin(f, ks[..i], ks[i + 1..]);
    assert (ks[..i] + [ks[i]])[..i] == ks[..i];
  }

  lemma {:induction false} SumZero<K>(f: K -> int, ks: seq<K>)
    requires forall k | k in ks :: f(k) == 0
    ensures SumOver(f, ks) == 0
    decreases |ks|
  {
    if ks != [] {
      assert forall k | k in ks[..|ks| - 1] :: k in ks;
      SumZero(f, ks[..|ks| - 1]);
      assert ks[|ks| - 1] in ks;
    }
  }

  /** Two lists without repetitions that agree wherever something is added have the same sum. */
  lemma {:induction false} SameSum<K(!new)>(f: K -> int, a: seq<K>, b: seq<K>)
    requires Distinct(a) && Distinct(b) && forall k | f(k) != 0 :: k in a <==> k in b
    ensures SumOver(f, a) == SumOver(f, b)
    decreases |a|
  {
    if a == [] {
      SumZero(f, b);
    } else {
      var n := |a| - 1;
      var k := a[n];
      assert k in a;
      if i :| 0 <= i < |b| && b[i] == k {
        SumDrop(f, b, i);
        Without(a[..n], a, n);
        Without(b[..i] + b[i + 1..], b, i);
        SameSum(f, a[..n], b[..i] + b[i + 1..]);
      } else {
        assert f(k) == 0;
        Without(a[..n], a, n);
        SameSum(f, a[..n], b);
      }
    }
  }

  lemma {:induction false} Without<K(!new)>(rest: seq<K>, ks: seq<K>, i: nat)
    requires Distinct(ks) && i < |ks| && rest == ks[..i] + ks[i + 1..]
    ensures Distinct(rest) && forall k :: k in rest <==> k in ks && k != ks[i]
  {
    forall k ensures k in rest <==> k in ks && k != ks[i] {
      if k in rest {
        var j :| 0 <= j < |rest| && rest[j] == k;
        assert rest[j] == ks[if j < i then j else j + 1];
      }
      if k in ks && k != ks[i] {
        var j :| 0 <= j < |ks| && ks[j] == k;
        assert rest[if j < i then j else j - 1] == k;
      }
    }
  }
}

/** Sums, minima and maxima over finite maps and sets.  None depends on an iteration order. */
module FiniteSums {
  import opened Model

  ghost function Total<K>(m: map<K, nat>): nat
    decreases |m|
  {
    if m == map[] then 0 else
      var k :| k in m;
      m[k] + Total(m - {k})
  }

  lemma {:induction false} TotalRemove<K>(m: map<K, nat>, k: K)
    requires k in m
    ensures Total(m) == m[k] + Total(m - {k})
    decreases |m|
  {
    var j :| j in m && Total(m) == m[j] + Total(m - {j});
    if j != k {
      TotalRemove(m - {j}, k);
      TotalRemove(m - {k}, j);
      assert m - {j} - {k} == m - {k} - {j};
    }
  }

  lemma {:induction false} TotalInsert<K>(m: map<K, nat>, k: K, v: nat)
    requires k !in m
    ensures Total(m[k := v]) == Total(m) + v
  {
    TotalRemove(m[k := v], k);
    assert m[k := v] - {k} == m;
  }

  /** A sum splits over a partition of its keys. */
  lemma {:induction false} TotalSplit<K>(m: map<K, nat>, a: map<K, nat>, b: map<K, nat>)
    requires a.Keys !! b.Keys && m.Keys == a.Keys + b.Keys
    requires forall k | k in m :: m[k] == if k in a then a[k] else b[k]
    ensures Total(m) == Total(a) + Total(b)
    decreases |b|
  {
    hide Total;
    if b.Keys == {} {
      assert m == a;
      TotalZero(b);
    } else {
      var k :| k in b;
      SplitWithout(m, a, b, k);
      TotalSplit(m - {k}, a, b - {k});
      TotalRemove(m, k);
      TotalRemove(b, k);
    }
  }

  lemma {:induction false} SplitWithout<K>(m: map<K, nat>, a: map<K, nat>, b: map<K, nat>, k: K)
    requires a.Keys !! b.Keys && m.Keys == a.Keys + b.Keys && k in b
    requires forall j | j in m :: m[j] == if j in a then a[j] else b[j]
    ensures k in m && m[k] == b[k] && (m - {k}).Keys == a.Keys + (b - {k}).Keys && a.Keys !! (b - {k}).Keys
    ensures forall j | j in m - {k} :: (m - {k})[j] == if j in a then a[j] else (b - {k})[j]
  {
  }

  lemma {:induction false} TotalPlus<K>(m: map<K, nat>, f: map<K, nat>, g: map<K, nat>)
    requires m.Keys == f.Keys == g.Keys
    requires forall k | k in m :: m[k] == f[k] + g[k]
    ensures Total(m) == Total(f) + Total(g)
    decreases |m|
  {
    if m != map[] {
      var k :| k in m;
      TotalPlus(m - {k}, f - {k}, g - {k});
      TotalRemove(m, k);
      TotalRemove(f, k);
      TotalRemove(g, k);
    } else {
      assert f == map[] && g == map[];
    }
  }

  /** Wrapping the summands does not change a wrapped sum. */
  lemma {:induction false} TotalCongruent<K>(m: map<K, nat>, w: map<K, nat>)
    requires m.Keys == w.Keys
    requires forall k | k in m :: w[k] == Wrap(m[k])
    ensures Wrap(Total(m)) == Wrap(Total(w))
    decreases |m|
  {
    hide Wrap;
    if m != map[] {
      var k :| k in m;
      TotalCongruent(m - {k}, w - {k});
      assert Total(m) == m[k] + Total(m - {k}) by { TotalRemove(m, k); }
      assert Total(w) == w[k] + Total(w - {k}) by { TotalRemove(w, k); }
      WrapSum(m[k], Total(w - {k}), Total(m - {k}));
    } else {
      assert w == map[];
    }
  }

  lemma {:induction false} TotalZero<K>(m: map<K, nat>)
    requires forall k | k in m :: m[k] == 0
    ensures Total(m) == 0
    decreases |m|
  {
    if m != map[] {
      var k :| k in m;
      TotalRemove(m, k);
      TotalZero(m - {k});
    }
  }

  /** If every positive entry of `g` is bounded by an entry of `h` that belongs to it alone, `g` adds
  up to at most `h`. */
  lemma {:induction false} TotalDominated<R(!new), K(!new)>(g: map<R, nat>, h: map<K, nat>, related: (R, K) -> bool)
    requires forall r | r in g && g[r] > 0 :: exists k :: k in h && related(r, k) && g[r] <= h[k]
    requires forall r, q, k | related(r, k) && related(q, k) :: r == q
    ensures Total(g) <= Total(h)
    decreases |g|
  {
    hide Total;
    if g.Keys == {} {
      TotalZero(g);
    } else {
      var r :| r in g;
      var g' := g - {r};
      TotalRemove(g, r);
      if g[r] == 0 {
        TotalDominated(g', h, related);
      } else {
        var k :| k in h && related(r, k) && g[r] <= h[k];
        TotalRemove(h, k);
        forall q | q in g' && g'[q] > 0 ensures exists j :: j in h - {k} && related(q, j) && g'[q] <= (h - {k})[j] {
          var j :| j in h && related(q, j) && g[q] <= h[j];
          assert j != k;
          assert j in h - {k};
        }
        TotalDominated(g', h - {k}, related);
      }
    }
  }

  lemma {:induction false} OneTotal<K>(m: map<K, nat>, k: K)
    requires m.Keys == {k}
    ensures Total(m) == m[k]
  {
    hide Total;
    TotalRemove(m, k);
    TotalZero(m - {k});
  }

  lemma {:induction false} TwoTotal<K>(m: map<K, nat>, r: K, q: K)
    requires m.Keys == {r, q} && r != q
    ensures Total(m) == m[r] + m[q]
  {
    hide Total;
    TotalRemove(m, r);
    OneTotal(m - {r}, q);
  }

  ghost function Restrict<K>(m: map<K, nat>, keys: set<K>): map<K, nat> {
    map k | k in m && k in keys :: m[k]
  }

  lemma {:induction false} TotalGrown<K>(was: map<K, nat>, next: map<K, nat>, deltas: map<K, nat>)
    requires deltas.Keys <= was.Keys && deltas.Keys <= next.Keys
    requires forall k | k in next :: next[k] == if k in deltas then was[k] + deltas[k] else 0
    ensures Total(next) == Total(Restrict(was, deltas.Keys)) + Total(deltas)
  {
    var grown, started := Restrict(next, deltas.Keys), Restrict(next, next.Keys - deltas.Keys);
    TotalZero(started);
    TotalSplit(next, grown, started);
    TotalPlus(grown, Restrict(was, deltas.Keys), deltas);
  }

  /** Entries that leave, entries that grow and entries that start at zero balance. */
  lemma {:induction false} Rebook<K>(was: map<K, nat>, next: map<K, nat>, gone: map<K, nat>, deltas: map<K, nat>)
    requires was.Keys == gone.Keys + deltas.Keys && gone.Keys !! deltas.Keys && deltas.Keys <= next.Keys
    requires forall k | k in gone :: gone[k] == was[k]
    requires forall k | k in next :: next[k] == if k in deltas then was[k] + deltas[k] else 0
    ensures Total(next) + Total(gone) == Total(was) + Total(deltas)
  {
    TotalGrown(was, next, deltas);
    TotalSplit(was, Restrict(was, deltas.Keys), gone);
  }

  ghost function RealTotal<K>(m: map<K, real>): real
    decreases |m|
  {
    if m == map[] then 0.0 else
      var k :| k in m;
      m[k] + RealTotal(m - {k})
  }

  lemma {:induction false} RealTotalRemove<K>(m: map<K, real>, k: K)
    requires k in m
    ensures RealTotal(m) == m[k] + RealTotal(m - {k})
    decreases |m|
  {
    var j :| j in m && RealTotal(m) == m[j] + RealTotal(m - {j});
    if j != k {
      RealTotalRemove(m - {j}, k);
      RealTotalRemove(m - {k}, j);
      assert m - {j} - {k} == m - {k} - {j};
    }
  }

  lemma {:induction false} RealTotalInsert<K>(m: map<K, real>, k: K, v: real)
    requires k !in m
    ensures RealTotal(m[k := v]) == RealTotal(m) + v
  {
    RealTotalRemove(m[k := v], k);
    assert m[k := v] - {k} == m;
  }

  ghost function Pick<T>(s: set<T>): (t: T)
    requires s != {}
    ensures t in s
  {
    var t :| t in s; t
  }

  ghost function MinTime(s: set<Time>): (r: Time)
    requires s != {}
    ensures r in s && forall t | t in s :: r <= t
    decreases |s|
  {
    var t := Pick(s);
    if s == {t} then t else
      var u := MinTime(s - {t});
      assert forall v | v in s :: v == t || v in s - {t};
      if t < u then t else u
  }

  ghost function MaxTime(s: set<Time>): (r: Time)
    requires s != {}
    ensures r in s && forall t | t in s :: t <= r
    decreases |s|
  {
    var t := Pick(s);
    if s == {t} then t else
      var u := MaxTime(s - {t});
      assert forall v | v in s :: v == t || v in s - {t};
      if t < u then u else t
  }

  /** An iteration order: every key, once. */
  ghost predicate Enumerates<K(!new)>(order: seq<K>, keys: set<K>) {
    && (forall k :: k in keys <==> k in order)
    && forall i, j | 0 <= i < j < |order| :: order[i] != order[j]
  }
}

/** tenant.go: drawing the clients of the tenants from the fullest engine pool. */
module Allocation {
  /** An order in which `range` may visit a map with these keys. */
  ghost predicate Enumerates(order: seq<string>, keys: set<string>) {
    (forall i, j :: 0 <= i < j < |order| ==> order[i] != order[j]) && (forall k :: k in keys <==> k in order)
  }

  // Sums over a map, whatever order its keys are visited in.

  ghost function Total(m: map<string, nat>): nat {
    if m == map[] then 0
    else
      var k :| k in m;
      m[k] + Total(m - {k})
  }

  lemma {:induction false} TotalWithout(m: map<string, nat>, k: string)
    requires k in m
    ensures Total(m) == m[k] + Total(m - {k})
    decreases |m|
  {
    var k0 :| k0 in m && Total(m) == m[k0] + Total(m - {k0});
    if k0 != k {
      TotalWithout(m - {k0}, k);
      TotalWithout(m - {k}, k0);
      assert m - {k0} - {k} == m - {k} - {k0};
    }
  }

  lemma TotalUpdate(m: map<string, nat>, k: string, v: nat)
    requires k in m
    ensures Total(m[k := v]) == Total(m) - m[k] + v
  {
    TotalWithout(m, k);
    TotalWithout(m[k := v], k);
    assert m[k := v] - {k} == m - {k};
  }

  lemma {:induction false} TotalMonotone(a: map<string, nat>, b: map<string, nat>)
    requires a.Keys == b.Keys && forall k :: k in a ==> a[k] <= b[k]
    ensures Total(a) <= Total(b)
    ensures (exists k :: k in a && a[k] < b[k]) ==> Total(a) < Total(b)
    decreases |a|
  {
    if a != map[] {
      var k :| k in a;
      var k0 :| k0 in a && ((exists j :: j in a && a[j] < b[j]) ==> a[k0] < b[k0]);
      TotalWithout(a, k0);
      TotalWithout(b, k0);
      TotalMonotone(a - {k0}, b - {k0});
    }
  }

  lemma {:induction false} TotalZero(m: map<string, nat>)
    ensures Total(m) == 0 <==> forall k :: k in m ==> m[k] == 0
    decreases |m|
  {
    if m != map[] {
      var k :| k in m;
      TotalWithout(m, k);
      var rest := m - {k};
      TotalZero(rest);
      assert forall j :: j in m ==> j == k || (j in rest && rest[j] == m[j]);
      assert forall j :: j in rest ==> j in m && rest[j] == m[j];
    }
  }

  // Greedy drawing, on sizes.

  /** One client is taken from a pool that no pool exceeds. */
  ghost predicate Draws(m: map<string, nat>, k: string, m': map<string, nat>) {
    k in m && m[k] > 0 && (forall j :: j in m ==> m[j] <= m[k]) && m' == m[k := m[k] - 1]
  }

  /** m' is what n greedy draws from m can leave. */
  ghost predicate Greedy(m: map<string, nat>, n: nat, m': map<string, nat>) {
    if n == 0 then m' == m
    else exists k, m1 :: Draws(m, k, m1) && Greedy(m1, n - 1, m')
  }

  /** n draws in any fashion. */
  ghost predicate AnyDraw(m: map<string, nat>, n: nat, m': map<string, nat>) {
    m'.Keys == m.Keys && (forall k :: k in m ==> k in m' && m'[k] <= m[k]) && Total(m') == Total(m) - n
  }

  /** Greedy drawing levels: what has been drawn from lies at most one below anything that is left. */
  ghost predicate Levelled(m: map<string, nat>, m': map<string, nat>)
    requires m'.Keys == m.Keys
  {
    forall k, j :: k in m && j in m && m'[k] < m[k] ==> m'[j] <= m'[k] + 1
  }

  lemma LevelledStep(m: map<string, nat>, k: string, m1: map<string, nat>, m': map<string, nat>)
    requires Draws(m, k, m1) && m'.Keys == m.Keys && Levelled(m1, m') && forall j :: j in m ==> m'[j] <= m1[j]
    ensures Levelled(m, m') && forall j :: j in m ==> m'[j] <= m[j]
  {}

  lemma {:induction false} GreedyShape(m: map<string, nat>, n: nat, m': map<string, nat>)
    requires Greedy(m, n, m')
    ensures AnyDraw(m, n, m') && Levelled(m, m')
  {
    if n != 0 {
      var k, m1 :| Draws(m, k, m1) && Greedy(m1, n - 1, m');
      GreedyShape(m1, n - 1, m');
      TotalUpdate(m, k, m[k] - 1);
      assert m1.Keys == m.Keys;
      LevelledStep(m, k, m1, m');
    }
  }

  /** Optimality: no way of drawing n clients leaves a smaller largest pool than greedy drawing does. */
  lemma GreedyIsOptimal(m: map<string, nat>, n: nat, greedy: map<string, nat>, other: map<string, nat>, k: string)
    requires Greedy(m, n, greedy) && AnyDraw(m, n, other) && k in greedy
    ensures exists j :: j in other && greedy[k] <= other[j]
  {
    GreedyShape(m, n, greedy);
    if forall j :: j in other ==> other[j] < greedy[k] {
      forall j | j in other ensures other[j] <= greedy[j] {
        assert greedy[j] < m[j] ==> greedy[k] <= greedy[j] + 1;
      }
      TotalMonotone(other, greedy);
      assert false;
    }
  }

  // Order independence.

  ghost function Level(m: map<string, nat>, v: int): set<string> {
    set k | k in m && m[k] == v
  }

  /** As many pools of every size: the multisets of sizes agree. */
  ghost predicate SameSizes(a: map<string, nat>, b: map<string, nat>) {
    forall v: int :: |Level(a, v)| == |Level(b, v)|
  }

  lemma LevelAfter(m: map<string, nat>, k: string, m': map<string, nat>, v: int)
    requires Draws(m, k, m')
    ensures |Level(m', v)| == |Level(m, v)| - (if v == m[k] then 1 else 0) + (if v == m[k] - 1 then 1 else 0)
  {
    if v == m[k] {
      assert Level(m', v) == Level(m, v) - {k};
    } else if v == m[k] - 1 {
      assert Level(m', v) == Level(m, v) + {k};
    } else {
      assert Level(m', v) == Level(m, v);
    }
  }

  lemma SameLargest(a: map<string, nat>, i: string, b: map<string, nat>, j: string)
    requires SameSizes(a, b) && i in a && j in b && (forall k :: k in b ==> b[k] <= b[j])
    ensures a[i] <= b[j]
  {
    assert i in Level(a, a[i]);
    assert |Level(b, a[i])| > 0;
    var k :| k in Level(b, a[i]);
  }

  lemma SameAfter(a: map<string, nat>, i: string, a': map<string, nat>, b: map<string, nat>, j: string, b': map<string,
                  nat>)
    requires SameSizes(a, b) && Draws(a, i, a') && Draws(b, j, b')
    ensures SameSizes(a', b')
  {
    SameLargest(a, i, b, j);
    SameLargest(b, j, a, i);
    forall v: int ensures |Level(a', v)| == |Level(b', v)| {
      LevelAfter(a, i, a', v);
      LevelAfter(b, j, b', v);
    }
  }

  /** Order independence: the multiset of sizes that n greedy draws leave does not depend on the order in which
      pools are looked at or ties are broken; it depends on the multiset of sizes before. */
  lemma {:induction false} GreedyOrderIndependent(a: map<string, nat>, b: map<string, nat>, n: nat,
                                                  a': map<string, nat>, b': map<string, nat>)
    requires SameSizes(a, b) && Greedy(a, n, a') && Greedy(b, n, b')
    ensures SameSizes(a', b')
  {
    if n != 0 {
      var i, a1 :| Draws(a, i, a1) && Greedy(a1, n - 1, a');
      var j, b1 :| Draws(b, j, b1) && Greedy(b1, n - 1, b');
      SameAfter(a, i, a1, b, j, b1);
      GreedyOrderIndependent(a1, b1, n - 1, a', b');
    }
  }

  lemma {:induction false} GreedyAppend(m: map<string, nat>, n: nat, m1: map<string, nat>, n': nat, m2: map<string,
                                        nat>)
    requires Greedy(m, n, m1) && Greedy(m1, n', m2)
    ensures Greedy(m, n + n', m2)
  {
    if n != 0 {
      var k, m0 :| Draws(m, k, m0) && Greedy(m0, n - 1, m1);
      GreedyAppend(m0, n - 1, m1, n', m2);
    }
  }
}

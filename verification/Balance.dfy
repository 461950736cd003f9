/** options.go: the choice of an engine pool for a request without a token. */
module Balance {
  import opened Allocation

  /** NoPool is the nil pool; Panics stands for rand.Intn(0). */
  datatype Pick = NoPool | Chosen(key: string) | Panics

  /** A pool as one call sees it: its status, and what the two calls of Size in the loop answer. Other
      goroutines may take or return clients between the two. */
  datatype Seen = Seen(live: bool, first: nat, second: nat)

  predicate AnyLive(pools: map<string, Seen>) {
    exists k :: k in pools && pools[k].live
  }

  /** Nothing changes while the call runs. */
  predicate Snapshot(pools: map<string, Seen>) {
    forall k :: k in pools ==> pools[k].first == pools[k].second
  }

  /** No live pool was seen larger. */
  predicate Fullest(pools: map<string, Seen>, key: string) {
    key in pools && pools[key].live && forall k :: k in pools && pools[k].live ==> pools[k].first <= pools[key].first
  }

  predicate AllEmpty(pools: map<string, Seen>) {
    forall k :: k in pools && pools[k].live ==> pools[k].second == 0
  }

  /** The part of the loop that has been run. */
  ghost predicate Scanned(pools: map<string, Seen>, order: seq<string>, i: nat, sumSize: nat, size: nat, index: string,
                          indexRand: seq<string>)
    requires i <= |order| && forall j :: 0 <= j < |order| ==> order[j] in pools
  {
    && (forall j :: 0 <= j < i && pools[order[j]].live ==> pools[order[j]].first <= size && order[j] in indexRand)
    && (forall j :: 0 <= j < |indexRand| ==> indexRand[j] in pools && pools[indexRand[j]].live)
    && (if indexRand != [] then index in pools && pools[index].live && pools[index].first == size else size == 0)
    && (sumSize == 0 <==> forall j :: 0 <= j < i && pools[order[j]].live ==> pools[order[j]].second == 0)
    && (sumSize != 0 ==> indexRand != [])
  }

  /** One live pool more. */
  lemma ScanOne(pools: map<string, Seen>, order: seq<string>, i: nat, sumSize: nat, size: nat, index: string,
                indexRand: seq<string>)
    requires i < |order| && (forall j :: 0 <= j < |order| ==> order[j] in pools) && pools[order[i]].live
    requires Scanned(pools, order, i, sumSize, size, index, indexRand)
    ensures var pool := pools[order[i]];
            Scanned(pools, order, i + 1, sumSize + pool.second, if size <= pool.first then pool.first else size,
                    if size <= pool.first then order[i] else index, indexRand + [order[i]])
  {
    var keys := indexRand + [order[i]];
    assert keys[|indexRand|] == order[i];
    assert forall k :: k in indexRand ==> k in keys;
    if indexRand == [] {
      assert size == 0;
    }
  }

  /** What the loop knows at its end, in terms of the map. */
  lemma ScannedAll(pools: map<string, Seen>, order: seq<string>, sumSize: nat, size: nat, index: string,
                   indexRand: seq<string>)
    requires Enumerates(order, pools.Keys) && Scanned(pools, order, |order|, sumSize, size, index, indexRand)
    ensures AnyLive(pools) <==> indexRand != []
    ensures sumSize == 0 <==> AllEmpty(pools)
    ensures indexRand != [] ==> Fullest(pools, index)
  {
    forall k | k in pools ensures k in order {}
    if indexRand != [] {
      assert indexRand[0] in pools && pools[indexRand[0]].live;
    }
  }

  lemma AnyIsFullest(pools: map<string, Seen>, key: string)
    requires AllEmpty(pools) && Snapshot(pools) && key in pools && pools[key].live
    ensures Fullest(pools, key)
  {}

  lemma Visits(pools: map<string, Seen>, order: seq<string>)
    requires Enumerates(order, pools.Keys)
    ensures |pools| > 0 ==> |order| > 0
    ensures forall j :: 0 <= j < |order| ==> order[j] in pools
  {
    if |pools| > 0 {
      var k :| k in pools.Keys;
      assert k in order;
    }
  }

  /** The loop over several pools. */
  method ScanLive(pools: map<string, Seen>, order: seq<string>)
    returns (sumSize: nat, size: nat, index: string, indexRand: seq<string>)
    requires Enumerates(order, pools.Keys)
    ensures AnyLive(pools) <==> indexRand != []
    ensures sumSize == 0 <==> AllEmpty(pools)
    ensures indexRand != [] ==> Fullest(pools, index)
    ensures forall j :: 0 <= j < |indexRand| ==> indexRand[j] in pools && pools[indexRand[j]].live
  {
    Visits(pools, order);
    sumSize, size, index, indexRand := 0, 0, "", [];
    for i := 0 to |order|
      invariant Scanned(pools, order, i, sumSize, size, index, indexRand)
    {
      var pool := pools[order[i]];
      if !pool.live {
        continue;
      }
      ScanOne(pools, order, i, sumSize, size, index, indexRand);
      sumSize := sumSize + pool.second;
      if size <= pool.first {
        size, index := pool.first, order[i];
      }
      indexRand := indexRand + [order[i]];
    }
    ScannedAll(pools, order, sumSize, size, index, indexRand);
  }

  /** balancePool. For every order in which the map is visited, and whatever the Size calls answer: without pools
      there is none to choose; a single pool is chosen even when it is not live; with two or more a live one is
      chosen, and the call panics exactly when none is live. The chosen pool is a fullest live one unless every
      second Size answered 0; on a snapshot it always is. `intn` is rand.Intn. */
  method BalancePool(pools: map<string, Seen>, order: seq<string>, intn: nat -> nat) returns (r: Pick)
    requires Enumerates(order, pools.Keys) && forall n :: n > 0 ==> intn(n) < n
    ensures r == NoPool <==> |pools| == 0
    ensures r == Panics <==> |pools| >= 2 && !AnyLive(pools)
    ensures r.Chosen? ==> r.key in pools && (|pools| >= 2 ==> pools[r.key].live)
    ensures r.Chosen? && |pools| >= 2 && !AllEmpty(pools) ==> Fullest(pools, r.key)
    ensures r.Chosen? && |pools| >= 2 && Snapshot(pools) ==> Fullest(pools, r.key)
  {
    var sumSize: nat, size: nat, index: string := 0, 0, "";
    if |pools| < 1 {
      return NoPool;
    }
    Visits(pools, order);
    if |pools| == 1 {
      for i := 0 to |order|
        invariant i > 0 ==> index in pools
      {
        index := order[i];
      }
    } else {
      var indexRand;
      sumSize, size, index, indexRand := ScanLive(pools, order);
      if sumSize == 0 {
        if |indexRand| == 0 {
          return Panics;
        }
        index := indexRand[intn(|indexRand|)];
        if Snapshot(pools) { AnyIsFullest(pools, index); }
      }
    }
    r := Chosen(index);
  }

}

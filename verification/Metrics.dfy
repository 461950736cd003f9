/** grpc.go: the rows that the metrics report for the pools and the tenants of one engine. */
module Metrics {
  import opened Wrappers
  import opened Allocation
  import L = Lifecycle
  import LP = LifecycleProof
  import LT = LifecycleTheorems

  /** A pool or tenant as one call sees it: `first` is the size behind GetConnCurrent, `second` the answer of
      Size after it. A tenant has an id and counts as live; the id of a pool is "". */
  datatype View = View(id: string, name: string, addr: string, live: bool, capacity: nat, first: nat, second: nat)

  datatype Row = Row(id: string, name: string, connCurrent: int, poolCurrentSize: int, poolSize: int, addr: string)

  /** The row tells id, name and address of the pool or tenant, its capacity, the size read second, and as connections
      in use what the first size leaves of the capacity, or none when the second size reaches it. */
  predicate Reports(r: Row, v: View) {
    && r.id == v.id && r.name == v.name && r.addr == v.addr && r.poolSize == v.capacity && r.poolCurrentSize == v.second
    && (v.second >= v.capacity ==> r.connCurrent == 0)
    && (v.second < v.capacity ==> r.connCurrent + v.first == v.capacity)
  }

  const ZERO_ROW := Row("", "", 0, 0, 0, "")

  /** Each live entry of the map has one row, under one of the keys; there are no other rows. */
  ghost predicate RowPerLive(views: map<string, View>, keys: seq<string>, rows: seq<Row>) {
    && |keys| == |rows|
    && (forall i, j :: 0 <= i < j < |keys| ==> keys[i] != keys[j])
    && (forall k :: k in keys <==> k in views && views[k].live)
    && (forall i :: 0 <= i < |rows| ==> keys[i] in views && Reports(rows[i], views[keys[i]]))
  }

  /** The part of the map that has been visited. */
  ghost function Seen(views: map<string, View>, order: seq<string>): map<string, View> {
    map k | k in views && k in order :: views[k]
  }

  lemma SeenNext(views: map<string, View>, order: seq<string>, i: nat)
    requires i < |order| && order[i] in views && (forall j :: 0 <= j < i ==> order[j] != order[i])
    ensures order[i] !in Seen(views, order[..i])
    ensures Seen(views, order[..i + 1]) == Seen(views, order[..i])[order[i] := views[order[i]]]
  {
    assert order[..i + 1] == order[..i] + [order[i]];
  }

  lemma OneRow(views: map<string, View>, keys: seq<string>, rows: seq<Row>, k: string, v: View, row: Row)
    requires RowPerLive(views, keys, rows) && k !in views && v.live && Reports(row, v)
    ensures RowPerLive(views[k := v], keys + [k], rows + [row])
  {
    var keys' := keys + [k];
    assert keys'[|keys|] == k;
    forall i, j | 0 <= i < j < |keys'| ensures keys'[i] != keys'[j] {
      assert keys[i] in keys;
    }
    forall j ensures j in keys' <==> j in views[k := v] && views[k := v][j].live {
      assert j in keys' <==> j in keys || j == k;
    }
  }

  /** The loop over a map, in whatever order it is visited. */
  method Rows(views: map<string, View>, order: seq<string>) returns (rows: seq<Row>)
    requires Enumerates(order, views.Keys)
    ensures exists keys :: RowPerLive(views, keys, rows)
  {
    rows := [];
    ghost var keys: seq<string> := [];
    for i := 0 to |order|
      invariant RowPerLive(Seen(views, order[..i]), keys, rows)
    {
      assert order[i] in views;
      var v := views[order[i]];
      SeenNext(views, order, i);
      if !v.live {
        continue;
      }
      var connCurrent := v.capacity - v.first;
      var poolCurrentSize := v.second;
      if poolCurrentSize >= v.capacity {
        connCurrent := 0;
      }
      var row := Row(v.id, v.name, connCurrent, poolCurrentSize, v.capacity, v.addr);
      OneRow(Seen(views, order[..i]), keys, rows, order[i], v, row);
      rows := rows + [row];
      keys := keys + [order[i]];
    }
    assert order[..|order|] == order;
    assert Seen(views, order) == views;
    assert RowPerLive(views, keys, rows);
  }

  /** GetAsrPoolMetricsData and GetTtsPoolMetricsData: the rows of the engine, and those of the tenants when
      tenants are enabled. */
  method PoolMetrics(poolStatus: bool, pools: map<string, View>, order: seq<string>,
                     tenantEnabled: bool, tenants: map<string, View>, tenantOrder: seq<string>)
    returns (engines: seq<Row>, tenantRows: Option<seq<Row>>, status: bool)
    requires Enumerates(order, pools.Keys) && Enumerates(tenantOrder, tenants.Keys)
    requires forall k :: k in tenants ==> tenants[k].live
    ensures status == poolStatus && (tenantRows.Some? <==> poolStatus && tenantEnabled)
    ensures !poolStatus ==> engines == [Row("", "", 0, 0, 0, "")]
    ensures poolStatus ==> exists keys :: RowPerLive(pools, keys, engines)
    ensures tenantRows.Some? ==> exists keys :: RowPerLive(tenants, keys, tenantRows.value)
  {
    status, tenantRows := poolStatus, None;
    if !poolStatus {
      engines := [ZERO_ROW];
      return;
    }
    engines := Rows(pools, order);
    if tenantEnabled {
      var rows := Rows(tenants, tenantOrder);
      tenantRows := Some(rows);
    }
  }

  /** The view of channel h when the two sizes are read in the states s1 and s2. */
  ghost predicate Shows(v: View, h: L.Home, s1: L.State, s2: L.State) {
    && h in s1.chans && h in s2.chans
    && v.capacity == s1.chans[h].cap == s2.chans[h].cap
    && v.first == s1.chans[h].Size() && v.second == s2.chans[h].Size()
  }

  /** Whatever happens between the two readings, the reported numbers lie between 0 and the size of the pool. */
  lemma RowInRange(clock: int, steps: seq<L.Step>, s1: L.State, more: seq<L.Step>, s2: L.State, h: L.Home, v: View,
                   row: Row)
    requires LT.Reached(clock, steps, s1) && LT.Reached(clock, more, s2) && Shows(v, h, s1, s2)
    requires Reports(row, v)
    ensures 0 <= row.connCurrent <= row.poolSize && 0 <= row.poolCurrentSize <= row.poolSize
  {
    LT.CountersInRange(clock, steps, s1, h);
    LT.CountersInRange(clock, more, s2, h);
  }

  /** Accounting: on a snapshot of a run every row adds up to the size of its pool or tenant, so setting connCurrent
      to zero changes nothing; and while the channel of a full-grown pool is open, connCurrent counts exactly the
      clients that are out: held, on their way back, being replaced, lost for good, or with a tenant. */
  lemma RowAddsUp(clock: int, steps: seq<L.Step>, s: L.State, h: L.Home, v: View, row: Row)
    requires LT.Reached(clock, steps, s) && Shows(v, h, s, s) && Reports(row, v)
    ensures row.connCurrent + row.poolCurrentSize == row.poolSize
    ensures row.connCurrent == s.chans[h].ConnCurrent()
    ensures LP.KnownMode(s.chans[h].mode) && !s.chans[h].closed && s.chans[h].created == s.chans[h].cap ==>
              row.connCurrent
              == |LT.Placed(s, h, LT.Held)| + |LT.Placed(s, h, LT.GoingBack)| + |LT.Placed(s, h, LT.Blocked)|
                 + |LP.DiallersOf(s, h)| + s.chans[h].retired + s.chans[h].moved
  {
    LT.CountersInRange(clock, steps, s, h);
    if LP.KnownMode(s.chans[h].mode) {
      LT.Conservation(clock, steps, s, h);
    }
  }
}

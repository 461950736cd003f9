/** tenant.go as it runs: the argmax loop over a map of pools, and the loops that fill the tenants. */
module Tenants {
  import opened Wrappers
  import opened Allocation
  import Text

  function Sizes(idle: map<string, seq<nat>>): map<string, nat> {
    map k | k in idle :: |idle[k]|
  }

  /** One order for each time the map is visited. */
  ghost predicate AnyOrders(orders: nat -> seq<string>, keys: set<string>) {
    forall n :: Enumerates(orders(n), keys)
  }

  /** All the clients in the channels of a map. */
  ghost function Clients(m: map<string, seq<nat>>): multiset<nat> {
    if m == map[] then multiset{}
    else
      var k :| k in m;
      multiset(m[k]) + Clients(m - {k})
  }

  lemma {:induction false} ClientsWithout(m: map<string, seq<nat>>, k: string)
    requires k in m
    ensures Clients(m) == multiset(m[k]) + Clients(m - {k})
    decreases |m|
  {
    var k0 :| k0 in m && Clients(m) == multiset(m[k0]) + Clients(m - {k0});
    if k0 != k {
      ClientsWithout(m - {k0}, k);
      ClientsWithout(m - {k}, k0);
      assert m - {k0} - {k} == m - {k} - {k0};
    }
  }

  lemma ClientsUpdate(m: map<string, seq<nat>>, k: string, q: seq<nat>)
    ensures Clients(m[k := q]) == multiset(q) + Clients(m - {k})
  {
    ClientsWithout(m[k := q], k);
    assert m[k := q] - {k} == m - {k};
  }

  lemma ClientsDrawn(m: map<string, seq<nat>>, k: string)
    requires k in m && m[k] != []
    ensures Clients(m) == Clients(m[k := m[k][1..]]) + multiset{m[k][0]}
  {
    ClientsWithout(m, k);
    ClientsUpdate(m, k, m[k][1..]);
    assert m[k] == [m[k][0]] + m[k][1..];
  }

  lemma DrawnSizes(m: map<string, seq<nat>>, k: string, m': map<string, seq<nat>>)
    requires k in m && m[k] != [] && (forall j :: j in m ==> |m[j]| <= |m[k]|) && m' == m[k := m[k][1..]]
    ensures Draws(Sizes(m), k, Sizes(m')) && Total(Sizes(m)) > 0
  {
    assert Sizes(m') == Sizes(m)[k := Sizes(m)[k] - 1];
    TotalWithout(Sizes(m), k);
  }

  /** What taking the head of a fullest pool does. */
  lemma TakenFrom(m: map<string, seq<nat>>, k: string, m': map<string, seq<nat>>)
    requires k in m && m[k] != [] && (forall j :: j in m ==> |m[j]| <= |m[k]|) && m' == m[k := m[k][1..]]
    ensures Draws(Sizes(m), k, Sizes(m')) && Clients(m) == Clients(m') + multiset{m[k][0]}
    ensures Total(Sizes(m)) > 0
  {
    ClientsDrawn(m, k);
    DrawnSizes(m, k, m');
  }

  lemma NothingIdle(m: map<string, seq<nat>>)
    requires forall k :: k in m ==> m[k] == []
    ensures Total(Sizes(m)) == 0
  {
    TotalZero(Sizes(m));
  }

  /** The facts a visit of the keys in some order has found hold of all keys. */
  lemma Visited(order: seq<string>, m: map<string, seq<nat>>, size: nat)
    requires Enumerates(order, m.Keys) && forall j :: 0 <= j < |order| ==> order[j] in m && |m[order[j]]| <= size
    ensures forall k :: k in m ==> |m[k]| <= size
  {
    forall k | k in m ensures |m[k]| <= size {
      assert k in order;
    }
  }

  ghost predicate TakesHead(m: map<string, seq<nat>>, k: string, m': map<string, seq<nat>>, c: nat) {
    k in m && m[k] != [] && m' == m[k := m[k][1..]] && c == m[k][0]
  }

  /** These draws, one after the other, take these clients from the heads of the pools. */
  ghost predicate Drawing(before: map<string, seq<nat>>, draws: seq<string>, after: map<string, seq<nat>>,
                          taken: seq<nat>)
    decreases |draws|
  {
    if draws == [] then after == before && taken == []
    else
      var n := |draws| - 1;
      && |taken| == n + 1
      && exists mid :: Drawing(before, draws[..n], mid, taken[..n]) && TakesHead(mid, draws[n], after, taken[n])
  }

  /** n clients have gone into a channel, greedily and without losing one. */
  ghost predicate Evenly(before: map<string, seq<nat>>, n: nat, after: map<string, seq<nat>>, channel: seq<nat>) {
    && |channel| == n && after.Keys == before.Keys && Greedy(Sizes(before), n, Sizes(after))
    && Clients(before) == Clients(after) + multiset(channel)
  }

  /** Clients have been drawn greedily, from these pools one after the other, into a channel. */
  ghost predicate Drawn(before: map<string, seq<nat>>, draws: seq<string>, after: map<string, seq<nat>>,
                        channel: seq<nat>)
  {
    Evenly(before, |draws|, after, channel) && Drawing(before, draws, after, channel)
  }

  lemma DrawingOne(m: map<string, seq<nat>>, draws: seq<string>, m1: map<string, seq<nat>>, taken: seq<nat>,
                   k: string, m2: map<string, seq<nat>>, c: nat)
    requires Drawing(m, draws, m1, taken) && TakesHead(m1, k, m2, c) && |taken| == |draws|
    ensures Drawing(m, draws + [k], m2, taken + [c])
  {
    assert (draws + [k])[..|draws|] == draws && (taken + [c])[..|draws|] == taken;
  }

  lemma OneMore(m: map<string, nat>, n: nat, m1: map<string, nat>, k: string, m2: map<string, nat>)
    requires Greedy(m, n, m1) && Draws(m1, k, m2)
    ensures Greedy(m, n + 1, m2)
  {
    assert Greedy(m2, 0, m2);
    assert Greedy(m1, 1, m2);
    GreedyAppend(m, n, m1, 1, m2);
  }

  lemma EvenlyOne(m: map<string, seq<nat>>, n: nat, m1: map<string, seq<nat>>, channel: seq<nat>, k: string,
                  c: nat, m2: map<string, seq<nat>>)
    requires Evenly(m, n, m1, channel) && Draws(Sizes(m1), k, Sizes(m2)) && m2.Keys == m1.Keys
    requires Clients(m1) == Clients(m2) + multiset{c}
    ensures Evenly(m, n + 1, m2, channel + [c])
  {
    OneMore(Sizes(m), n, Sizes(m1), k, Sizes(m2));
  }

  lemma DrawnOne(m: map<string, seq<nat>>, draws: seq<string>, m1: map<string, seq<nat>>, channel: seq<nat>, k: string,
                 c: nat, m2: map<string, seq<nat>>)
    requires Drawn(m, draws, m1, channel) && Draws(Sizes(m1), k, Sizes(m2)) && TakesHead(m1, k, m2, c)
    requires Clients(m1) == Clients(m2) + multiset{c}
    ensures Drawn(m, draws + [k], m2, channel + [c])
  {
    EvenlyOne(m, |draws|, m1, channel, k, c, m2);
    DrawingOne(m, draws, m1, channel, k, m2, c);
  }

  lemma TooFew(m: map<string, seq<nat>>, draws: seq<string>, m1: map<string, seq<nat>>, channel: seq<nat>)
    requires Drawn(m, draws, m1, channel) && Total(Sizes(m1)) == 0
    ensures Total(Sizes(m)) == |draws|
  {
    GreedyShape(Sizes(m), |draws|, Sizes(m1));
  }

  lemma Enough(m: map<string, seq<nat>>, draws: seq<string>, m1: map<string, seq<nat>>, channel: seq<nat>)
    requires Drawn(m, draws, m1, channel)
    ensures |draws| <= Total(Sizes(m))
  {
    GreedyShape(Sizes(m), |draws|, Sizes(m1));
  }

  /** The pools of one engine; `idle` maps a pool to the content of its channel. */
  class EnginePools {
    var idle: map<string, seq<nat>>

    constructor (idle: map<string, seq<nat>>)
      ensures this.idle == idle
    {
      this.idle := idle;
    }

    /** blanceAcquirePool: a client from a fullest pool, or none exactly when all pools are empty. */
    method BalanceAcquire(order: seq<string>) returns (r: Option<nat>, ghost k: string)
      requires Enumerates(order, idle.Keys)
      modifies this
      ensures r.None? <==> Total(Sizes(old(idle))) == 0
      ensures r.None? ==> idle == old(idle)
      ensures r.Some? ==>
                && Draws(Sizes(old(idle)), k, Sizes(idle)) && r.value == old(idle)[k][0]
                && idle == old(idle)[k := old(idle)[k][1..]]
                && Clients(old(idle)) == Clients(idle) + multiset{r.value}
    {
      var sumSize, size, index := 0, 0, "";
      for i := 0 to |order|
        invariant idle == old(idle)
        invariant 0 <= size && (sumSize == 0 <==> size == 0) && sumSize >= 0
        invariant forall j :: 0 <= j < i ==> order[j] in idle && |idle[order[j]]| <= size
        invariant size > 0 ==> index in idle && |idle[index]| == size
      {
        var pSize := |idle[order[i]]|;
        sumSize := sumSize + |idle[order[i]]|;
        if size < pSize {
          size, index := pSize, order[i];
        }
      }
      Visited(order, idle, size);
      k := index;
      if sumSize == 0 {
        NothingIdle(idle);
        return None, k;
      }
      TakenFrom(idle, index, idle[index := idle[index][1..]]);
      r := Some(idle[index][0]);
      idle := idle[index := idle[index][1..]];
    }

    /** One round of the loop below; `draws` are the pools drawn from so far. */
    method FillOne(order: seq<string>, channel: seq<nat>, ghost before: map<string, seq<nat>>, ghost draws: seq<string>)
      returns (r: Option<seq<nat>>, ghost k: string)
      requires Enumerates(order, idle.Keys) && Drawn(before, draws, idle, channel)
      modifies this
      ensures r.Some? ==> Drawn(before, draws + [k], idle, r.value)
      ensures r.None? ==> Total(Sizes(before)) == |draws|
    {
      ghost var now := idle;
      var client;
      client, k := BalanceAcquire(order);
      if client.None? {
        TooFew(before, draws, now, channel);
        return None, k;
      }
      DrawnOne(before, draws, now, channel, k, client.value, idle);
      r := Some(channel + [client.value]);
    }

    /** The loop that fills the channel of one tenant with n clients, or panics. It succeeds exactly when the
        pools hold n clients between them, and then has drawn greedily. */
    method Fill(n: nat, orders: nat -> seq<string>) returns (r: Option<seq<nat>>, ghost draws: seq<string>)
      requires AnyOrders(orders, idle.Keys)
      modifies this
      ensures r.Some? <==> n <= Total(Sizes(old(idle)))
      ensures r.Some? ==> |draws| == n && Drawn(old(idle), draws, idle, r.value)
    {
      var channel: seq<nat> := [];
      draws := [];
      for i := 0 to n
        invariant |draws| == i && Drawn(old(idle), draws, idle, channel)
      {
        var more;
        ghost var k;
        more, k := FillOne(orders(i), channel, old(idle), draws);
        if more.None? {
          return None, draws;
        }
        channel, draws := more.value, draws + [k];
      }
      Enough(old(idle), draws, idle, channel);
      r := Some(channel);
    }
  }

  // initTenantPool.

  /** One entry of TenantConfig: ENGINE_NAME, ENGINE_POOL_SIZE and SCENE_CODE. */
  datatype Entry = Entry(name: string, size: int, id: string)
  {
    /** The engine in lower case: whichever way its name is spelled. */
    function engine(): (r: string)
      ensures r == "asr" <==> Text.SpellsAs(name, "asr")
      ensures r == "tts" <==> Text.SpellsAs(name, "tts")
    {
      Text.LowerIff(name, "asr");
      Text.LowerIff(name, "tts");
      Text.Lower(name)
    }
  }

  /** What the entries of one engine ask for. */
  function Need(list: seq<Entry>, engine: string): nat {
    if list == [] then 0
    else
      var last := list[|list| - 1];
      Need(list[..|list| - 1], engine) + (if last.engine() == engine && last.size > 0 then last.size else 0)
  }

  /** Making a channel of negative size panics. */
  predicate SizesOk(list: seq<Entry>) {
    forall i :: 0 <= i < |list| ==> list[i].size >= 0
  }

  predicate DistinctCodes(list: seq<Entry>) {
    forall i, j :: 0 <= i < j < |list| && list[i].engine() == list[j].engine() ==> list[i].id != list[j].id
  }

  lemma {:induction false} NeedGrows(list: seq<Entry>, i: nat, engine: string)
    requires i <= |list|
    ensures Need(list[..i], engine) <= Need(list, engine)
    decreases |list|
  {
    if i == |list| {
      assert list[..i] == list;
    } else {
      NeedGrows(list[..|list| - 1], i, engine);
      assert list[..|list| - 1][..i] == list[..i];
    }
  }

  lemma NeedNext(list: seq<Entry>, i: nat, engine: string)
    requires i < |list| && list[i].size >= 0
    ensures Need(list[..i + 1], engine)
         == Need(list[..i], engine) + (if list[i].engine() == engine then list[i].size else 0)
  {
    assert list[..i + 1][..i] == list[..i];
  }

  ghost predicate Listed(list: seq<Entry>, engine: string, id: string) {
    exists i :: 0 <= i < |list| && list[i].engine() == engine && list[i].id == id
  }

  lemma ListedNext(list: seq<Entry>, e: Entry, engine: string, id: string)
    ensures Listed(list + [e], engine, id) <==> Listed(list, engine, id) || (e.engine() == engine && e.id == id)
  {
    var list' := list + [e];
    assert list'[|list|] == e;
    if Listed(list, engine, id) {
      var i :| 0 <= i < |list| && list[i].engine() == engine && list[i].id == id;
      assert list'[i] == list[i];
    }
  }

  lemma DistinctNext(list: seq<Entry>, e: Entry)
    requires DistinctCodes(list + [e])
    ensures DistinctCodes(list) && !Listed(list, e.engine(), e.id)
  {
    var list' := list + [e];
    assert list'[|list|] == e;
    forall i, j | 0 <= i < j < |list| && list[i].engine() == list[j].engine() ensures list[i].id != list[j].id {
      assert list'[i] == list[i] && list'[j] == list[j];
    }
    forall i | 0 <= i < |list| && list[i].engine() == e.engine() ensures list[i].id != e.id {
      assert list'[i] == list[i];
    }
  }

  /** Each listed tenant of the engine has a channel with as many clients as its entry says. */
  ghost predicate Filled(tenants: map<string, seq<nat>>, list: seq<Entry>, engine: string) {
    forall i :: 0 <= i < |list| && list[i].engine() == engine ==>
      list[i].id in tenants && |tenants[list[i].id]| == list[i].size
  }

  /** Where the allocation of one engine stands after some entries: its pools were `before`, `tenants` holds the
      channels made so far. */
  ghost predicate Allocated(before: map<string, seq<nat>>, idle: map<string, seq<nat>>, tenants: map<string, seq<nat>>,
                            list: seq<Entry>, engine: string)
  {
    && idle.Keys == before.Keys
    && Greedy(Sizes(before), Need(list, engine), Sizes(idle))
    && (forall id :: id in tenants ==> Listed(list, engine, id))
    && (DistinctCodes(list) ==> Filled(tenants, list, engine) && Clients(before) == Clients(idle) + Clients(tenants))
  }

  lemma ConservedNext(before: map<string, seq<nat>>, idle: map<string, seq<nat>>, tenants: map<string, seq<nat>>,
                      id: string, idle': map<string, seq<nat>>, channel: seq<nat>)
    requires Clients(before) == Clients(idle) + Clients(tenants) && id !in tenants
    requires Clients(idle) == Clients(idle') + multiset(channel)
    ensures Clients(before) == Clients(idle') + Clients(tenants[id := channel])
  {
    ClientsUpdate(tenants, id, channel);
    assert tenants - {id} == tenants;
  }

  lemma DrawnNext(before: map<string, seq<nat>>, idle: map<string, seq<nat>>, list: seq<Entry>, e: Entry,
                  engine: string,
                  idle': map<string, seq<nat>>)
    requires Greedy(Sizes(before), Need(list, engine), Sizes(idle)) && e.engine() == engine && e.size >= 0
    requires Greedy(Sizes(idle), e.size, Sizes(idle'))
    ensures Greedy(Sizes(before), Need(list + [e], engine), Sizes(idle'))
  {
    GreedyAppend(Sizes(before), Need(list, engine), Sizes(idle), e.size, Sizes(idle'));
    assert (list + [e])[..|list + [e]| - 1] == list;
    assert Need(list + [e], engine) == Need(list, engine) + e.size;
  }

  lemma FilledNext(tenants: map<string, seq<nat>>, list: seq<Entry>, e: Entry, engine: string, channel: seq<nat>)
    requires Filled(tenants, list, engine) && e.id !in tenants && |channel| == e.size
    ensures Filled(tenants[e.id := channel], list + [e], engine)
  {}

  lemma AllocatedNext(before: map<string, seq<nat>>, idle: map<string, seq<nat>>, tenants: map<string, seq<nat>>,
                      list: seq<Entry>, e: Entry, engine: string, draws: seq<string>, idle': map<string, seq<nat>>,
                      channel: seq<nat>)
    requires Allocated(before, idle, tenants, list, engine) && e.engine() == engine && e.size == |draws|
    requires Drawn(idle, draws, idle', channel)
    ensures Allocated(before, idle', tenants[e.id := channel], list + [e], engine)
  {
    DrawnNext(before, idle, list, e, engine, idle');
    forall id | id in tenants[e.id := channel] ensures Listed(list + [e], engine, id) {
      ListedNext(list, e, engine, id);
    }
    if DistinctCodes(list + [e]) {
      DistinctNext(list, e);
      ConservedNext(before, idle, tenants, e.id, idle', channel);
      FilledNext(tenants, list, e, engine, channel);
    }
  }

  lemma AllocatedOther(before: map<string, seq<nat>>, idle: map<string, seq<nat>>, tenants: map<string, seq<nat>>,
                       list: seq<Entry>, e: Entry, engine: string)
    requires Allocated(before, idle, tenants, list, engine) && e.engine() != engine
    ensures Allocated(before, idle, tenants, list + [e], engine)
  {
    assert (list + [e])[..|list|] == list;
    forall id | id in tenants ensures Listed(list + [e], engine, id) { ListedNext(list, e, engine, id); }
    if DistinctCodes(list + [e]) { DistinctNext(list, e); }
  }

  /** Not enough: an engine whose first entries leave too little cannot serve all entries. */
  lemma TooMuch(before: map<string, seq<nat>>, idle: map<string, seq<nat>>, tenants: map<string, seq<nat>>,
                list: seq<Entry>, i: nat, engine: string)
    requires i < |list| && list[i].engine() == engine && list[i].size >= 0
    requires Allocated(before, idle, tenants, list[..i], engine) && list[i].size > Total(Sizes(idle))
    ensures Need(list, engine) > Total(Sizes(before))
  {
    GreedyShape(Sizes(before), Need(list[..i], engine), Sizes(idle));
    NeedNext(list, i, engine);
    NeedGrows(list, i + 1, engine);
  }

  /** One entry of an engine, with its pools and the channels of its tenants so far. */
  method AddTenant(list: seq<Entry>, i: nat, pools: EnginePools, tenants: map<string, seq<nat>>,
                   orders: nat -> seq<string>, ghost before: map<string, seq<nat>>)
    returns (r: Option<map<string, seq<nat>>>, ghost draws: seq<string>)
    requires i < |list| && list[i].size >= 0 && AnyOrders(orders, pools.idle.Keys)
    requires Allocated(before, pools.idle, tenants, list[..i], list[i].engine())
    modifies pools
    ensures r.Some? ==> Allocated(before, pools.idle, r.value, list[..i + 1], list[i].engine())
    ensures r.Some? ==> list[i].id in r.value && r.value == tenants[list[i].id := r.value[list[i].id]]
    ensures r.Some? ==> |draws| == list[i].size == |r.value[list[i].id]|
                        && Drawing(old(pools.idle), draws, pools.idle, r.value[list[i].id])
    ensures r.None? ==> Need(list, list[i].engine()) > Total(Sizes(before))
  {
    ghost var idle := pools.idle;
    var e := list[i];
    var channel;
    channel, draws := pools.Fill(e.size, orders);
    if channel.None? {
      TooMuch(before, idle, tenants, list, i, e.engine());
      return None, draws;
    }
    AllocatedNext(before, idle, tenants, list[..i], e, e.engine(), draws, pools.idle, channel.value);
    assert list[..i + 1] == list[..i] + [e];
    r := Some(tenants[e.id := channel.value]);
  }

  lemma EnoughFor(before: map<string, seq<nat>>, idle: map<string, seq<nat>>, tenants: map<string, seq<nat>>,
                  list: seq<Entry>, engine: string)
    requires Allocated(before, idle, tenants, list, engine)
    ensures Total(Sizes(idle)) == Total(Sizes(before)) - Need(list, engine)
  {
    GreedyShape(Sizes(before), Need(list, engine), Sizes(idle));
  }

  lemma SkipEntry(before: map<string, seq<nat>>, idle: map<string, seq<nat>>, tenants: map<string, seq<nat>>,
                  list: seq<Entry>, i: nat, engine: string)
    requires i < |list| && list[i].engine() != engine && Allocated(before, idle, tenants, list[..i], engine)
    ensures Allocated(before, idle, tenants, list[..i + 1], engine)
  {
    AllocatedOther(before, idle, tenants, list[..i], list[i], engine);
    assert list[..i + 1] == list[..i] + [list[i]];
  }

  /** The entries can all be served: no size is negative, and for each engine the sizes of its tenants add up
      to no more than the idle clients of its pools. */
  ghost predicate Suffice(list: seq<Entry>, asr: map<string, seq<nat>>, tts: map<string, seq<nat>>) {
    SizesOk(list) && Need(list, "asr") <= Total(Sizes(asr)) && Need(list, "tts") <= Total(Sizes(tts))
  }

  /** The channels made so far for the tenants of the two engines. */
  datatype Channels = Channels(asr: map<string, seq<nat>>, tts: map<string, seq<nat>>)

  const NO_CHANNELS := Channels(map[], map[])

  ghost predicate Served(asr0: map<string, seq<nat>>, asr: map<string, seq<nat>>,
                         tts0: map<string, seq<nat>>, tts: map<string, seq<nat>>, tenants: Channels, list: seq<Entry>)
  {
    SizesOk(list) && Allocated(asr0, asr, tenants.asr, list, "asr") && Allocated(tts0, tts, tenants.tts, list, "tts")
  }

  lemma ServedAll(asr0: map<string, seq<nat>>, asr: map<string, seq<nat>>,
                  tts0: map<string, seq<nat>>, tts: map<string, seq<nat>>, tenants: Channels, list: seq<Entry>)
    requires Served(asr0, asr, tts0, tts, tenants, list)
    ensures Suffice(list, asr0, tts0)
    ensures Total(Sizes(asr)) == Total(Sizes(asr0)) - Need(list, "asr")
    ensures Total(Sizes(tts)) == Total(Sizes(tts0)) - Need(list, "tts")
  {
    EnoughFor(asr0, asr, tenants.asr, list, "asr");
    EnoughFor(tts0, tts, tenants.tts, list, "tts");
  }

  /** The pools and the channels at some moment. */
  datatype Allotment = Allotment(asr: map<string, seq<nat>>, tts: map<string, seq<nat>>, tenants: Channels)

  /** What one entry does: its tenant gets a channel with the clients that these draws take from the engine's pools. */
  ghost predicate Given(e: Entry, draws: seq<string>, a: Allotment, a': Allotment) {
    if e.engine() == "asr" then
      && e.id in a'.tenants.asr && a'.tts == a.tts && |draws| == e.size
      && a'.tenants == a.tenants.(asr := a.tenants.asr[e.id := a'.tenants.asr[e.id]])
      && Drawing(a.asr, draws, a'.asr, a'.tenants.asr[e.id])
    else if e.engine() == "tts" then
      && e.id in a'.tenants.tts && a'.asr == a.asr && |draws| == e.size
      && a'.tenants == a.tenants.(tts := a.tenants.tts[e.id := a'.tenants.tts[e.id]])
      && Drawing(a.tts, draws, a'.tts, a'.tenants.tts[e.id])
    else a' == a
  }

  /** The entries one after the other, with the draws of each. */
  ghost predicate Planned(list: seq<Entry>, plan: seq<seq<string>>, a: Allotment, a': Allotment)
    decreases |list|
  {
    if list == [] then plan == [] && a' == a
    else
      var n := |list| - 1;
      |plan| == n + 1 && exists mid :: Planned(list[..n], plan[..n], a, mid) && Given(list[n], plan[n], mid, a')
  }

  lemma PlannedOne(list: seq<Entry>, i: nat, plan: seq<seq<string>>, a: Allotment, mid: Allotment,
                   draws: seq<string>, a': Allotment)
    requires i < |list| && Planned(list[..i], plan, a, mid) && Given(list[i], draws, mid, a') && |plan| == i
    ensures Planned(list[..i + 1], plan + [draws], a, a')
  {
    assert list[..i + 1][..i] == list[..i] && (plan + [draws])[..i] == plan;
  }

  lemma SizesNext(list: seq<Entry>, i: nat)
    requires i < |list| && SizesOk(list[..i]) && list[i].size >= 0
    ensures SizesOk(list[..i + 1])
  {
    assert list[..i + 1] == list[..i] + [list[i]];
  }

  /** One entry: making its channel, and the switch on its engine. */
  method ServeEntry(list: seq<Entry>, i: nat, asr: EnginePools, tts: EnginePools, tenants: Channels,
                    asrOrders: nat -> seq<string>, ttsOrders: nat -> seq<string>,
                    ghost asr0: map<string, seq<nat>>, ghost tts0: map<string, seq<nat>>)
    returns (r: Option<Channels>, ghost draws: seq<string>)
    requires asr != tts && i < |list|
    requires AnyOrders(asrOrders, asr.idle.Keys)
    requires AnyOrders(ttsOrders, tts.idle.Keys)
    requires Served(asr0, asr.idle, tts0, tts.idle, tenants, list[..i])
    modifies asr, tts
    ensures r.Some? ==> Served(asr0, asr.idle, tts0, tts.idle, r.value, list[..i + 1])
    ensures r.Some? ==> Given(list[i], draws, Allotment(old(asr.idle), old(tts.idle), tenants),
                              Allotment(asr.idle, tts.idle, r.value))
    ensures r.None? ==> !Suffice(list, asr0, tts0)
  {
    draws := [];
    if list[i].size < 0 {
      return None, draws;
    }
    SizesNext(list, i);
    var more;
    if list[i].engine() == "asr" {
      SkipEntry(tts0, tts.idle, tenants.tts, list, i, "tts");
      more, draws := AddTenant(list, i, asr, tenants.asr, asrOrders, asr0);
      r := if more.Some? then Some(tenants.(asr := more.value)) else None;
    } else if list[i].engine() == "tts" {
      SkipEntry(asr0, asr.idle, tenants.asr, list, i, "asr");
      more, draws := AddTenant(list, i, tts, tenants.tts, ttsOrders, tts0);
      r := if more.Some? then Some(tenants.(tts := more.value)) else None;
    } else {
      SkipEntry(asr0, asr.idle, tenants.asr, list, i, "asr");
      SkipEntry(tts0, tts.idle, tenants.tts, list, i, "tts");
      r := Some(tenants);
    }
  }

  /** initTenantPool; None stands for one of its panics. It completes exactly when no size is negative and, for
      each engine, the sizes of its tenants add up to no more than the idle clients of its pools. Then every
      engine has been drawn from greedily for exactly that sum, and with distinct codes per engine every
      client is in an engine pool or in the channel of the one tenant it was given to, none is lost. */
  method InitTenantPool(list: seq<Entry>, asr: EnginePools, tts: EnginePools,
                        asrOrders: nat -> nat -> seq<string>, ttsOrders: nat -> nat -> seq<string>)
    returns (r: Option<Channels>, ghost plan: seq<seq<string>>)
    requires asr != tts
    requires forall i :: AnyOrders(asrOrders(i), asr.idle.Keys)
    requires forall i :: AnyOrders(ttsOrders(i), tts.idle.Keys)
    modifies asr, tts
    ensures r.Some? <==> Suffice(list, old(asr.idle), old(tts.idle))
    ensures r.Some? ==> Served(old(asr.idle), asr.idle, old(tts.idle), tts.idle, r.value, list)
    ensures r.Some? ==> Total(Sizes(asr.idle)) == Total(Sizes(old(asr.idle))) - Need(list, "asr")
                        && Total(Sizes(tts.idle)) == Total(Sizes(old(tts.idle))) - Need(list, "tts")
    ensures r.Some? ==> Planned(list, plan, Allotment(old(asr.idle), old(tts.idle), NO_CHANNELS),
                                Allotment(asr.idle, tts.idle, r.value))
  {
    var tenants := NO_CHANNELS;
    plan := [];
    ghost var start := Allotment(asr.idle, tts.idle, tenants);
    for i := 0 to |list|
      invariant Served(old(asr.idle), asr.idle, old(tts.idle), tts.idle, tenants, list[..i])
      invariant |plan| == i && Planned(list[..i], plan, start, Allotment(asr.idle, tts.idle, tenants))
    {
      ghost var mid := Allotment(asr.idle, tts.idle, tenants);
      var more;
      ghost var draws;
      more, draws := ServeEntry(list, i, asr, tts, tenants, asrOrders(i), ttsOrders(i), old(asr.idle), old(tts.idle));
      if more.None? {
        return None, plan;
      }
      tenants := more.value;
      PlannedOne(list, i, plan, start, mid, draws, Allotment(asr.idle, tts.idle, tenants));
      plan := plan + [draws];
    }
    assert list[..|list|] == list;
    ServedAll(old(asr.idle), asr.idle, old(tts.idle), tts.idle, tenants, list);
    r := Some(tenants);
  }
}

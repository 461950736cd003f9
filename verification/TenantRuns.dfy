/**
  The allocation of tenants in the lifecycle of the clients: what initTenantPool does is a run of CreateTenant and
  Allocate steps, after which every tenant has been given exactly its capacity, for good.
 */
module TenantRuns {
  import opened Wrappers
  import opened Tenants
  import opened Isolation
  import L = Lifecycle
  import LP = LifecycleProof
  import LT = LifecycleTheorems

  /** The engine pools as the lifecycle model has them; `ids` numbers the pools. */
  ghost predicate Shows(idle: map<string, seq<nat>>, ids: map<string, nat>, s: L.State) {
    && idle.Keys == ids.Keys && (forall k, j :: k in ids && j in ids && k != j ==> ids[k] != ids[j])
    && forall k :: k in idle ==>
         && L.PoolChan(ids[k]) in s.chans && !s.chans[L.PoolChan(ids[k])].closed
         && s.chans[L.PoolChan(ids[k])].queue == idle[k]
  }

  /** Tenant t has `created` of `cap` clients, and these are in its channel. */
  ghost predicate Holds(s: L.State, t: nat, channel: seq<nat>, cap: nat) {
    && L.TenantChan(t) in s.chans
    && var ch := s.chans[L.TenantChan(t)]; ch.queue == channel && ch.created == |channel| && ch.cap == cap
  }

  /** Only tenant t and the pools numbered by `ids` have changed. */
  ghost predicate Elsewhere(s: L.State, s': L.State, ids: map<string, nat>, t: nat) {
    && (forall h :: h in s'.chans ==> h in s.chans || h == L.TenantChan(t))
    && (forall h :: h in s.chans && h != L.TenantChan(t) && (h.PoolChan? ==> h.p !in ids.Values) ==>
          h in s'.chans && s'.chans[h] == s.chans[h])
  }

  lemma AllocateStep(s: L.State, idle: map<string, seq<nat>>, ids: map<string, nat>, k: string, t: nat, s': L.State)
    requires Shows(idle, ids, s) && k in idle && idle[k] != [] && L.DoAllocate(s, ids[k], t) == Some(s')
    ensures Shows(idle[k := idle[k][1..]], ids, s') && Elsewhere(s, s', ids, t)
    ensures L.TenantChan(t) in s'.chans
    ensures var ch, ch' := s.chans[L.TenantChan(t)], s'.chans[L.TenantChan(t)];
            ch'.queue == ch.queue + [idle[k][0]] && ch'.created == ch.created + 1 && ch'.cap == ch.cap
    ensures idle[k][0] in s'.clients && s'.clients[idle[k][0]].home == L.TenantChan(t)
  {}

  /** Drawing a client and sending it to its tenant is the Allocate step: in every reachable state it can be taken
      until the tenant is full, and it moves the head of the pool to the end of the tenant's channel. */
  lemma DrawIsAllocate(s: L.State, idle: map<string, seq<nat>>, ids: map<string, nat>, k: string, t: nat)
    returns (s': L.State)
    requires LT.Reachable(s) && Shows(idle, ids, s) && k in idle && idle[k] != []
    requires L.TenantChan(t) in s.chans && s.chans[L.TenantChan(t)].created < s.chans[L.TenantChan(t)].cap
    ensures L.Apply(s, L.Allocate(ids[k], t)) == Some(s') && LT.Reachable(s')
    ensures Shows(idle[k := idle[k][1..]], ids, s') && Elsewhere(s, s', ids, t)
    ensures L.TenantChan(t) in s'.chans
    ensures var ch, ch' := s.chans[L.TenantChan(t)], s'.chans[L.TenantChan(t)];
            ch'.queue == ch.queue + [idle[k][0]] && ch'.created == ch.created + 1 && ch'.cap == ch.cap
    ensures idle[k][0] in s'.clients && s'.clients[idle[k][0]].home == L.TenantChan(t)
  {
    var clock, before :| LT.Reached(clock, before, s);
    LT.AllocateNeverBlocks(clock, before, s, ids[k], t);
    s' := L.DoAllocate(s, ids[k], t).value;
    LT.ReachableStep(s, L.Allocate(ids[k], t), s');
    AllocateStep(s, idle, ids, k, t, s');
  }

  lemma OneMoreDraw(s: L.State, steps: seq<L.Step>, s1: L.State, mid: map<string, seq<nat>>, ids: map<string, nat>,
                    k: string, idle': map<string, seq<nat>>, taken: seq<nat>, c: nat, t: nat, cap: nat)
    returns (steps': seq<L.Step>, s': L.State)
    requires L.Run(s, steps) == Some(s1) && LT.Reachable(s1) && Shows(mid, ids, s1) && TakesHead(mid, k, idle', c)
    requires Holds(s1, t, taken, cap) && |taken| < cap && Elsewhere(s, s1, ids, t)
    ensures L.Run(s, steps') == Some(s') && LT.Reachable(s') && Shows(idle', ids, s') && Holds(s', t, taken + [c], cap)
    ensures Elsewhere(s, s', ids, t)
  {
    s' := DrawIsAllocate(s1, mid, ids, k, t);
    LT.RunSnoc(s, steps, s1, L.Allocate(ids[k], t), s');
    steps' := steps + [L.Allocate(ids[k], t)];
  }

  lemma LastDraw(m: map<string, seq<nat>>, draws: seq<string>, m': map<string, seq<nat>>, taken: seq<nat>)
    returns (mid: map<string, seq<nat>>)
    requires Drawing(m, draws, m', taken) && draws != []
    ensures var n := |draws| - 1;
            && |taken| == n + 1 && Drawing(m, draws[..n], mid, taken[..n]) && TakesHead(mid, draws[n], m', taken[n])
            && taken[..n] + [taken[n]] == taken
  {
    var n := |draws| - 1;
    mid :| Drawing(m, draws[..n], mid, taken[..n]) && TakesHead(mid, draws[n], m', taken[n]);
  }

  /** All the draws of one tenant. */
  lemma {:induction false} FillRun(s: L.State, idle: map<string, seq<nat>>, ids: map<string, nat>, draws: seq<string>,
                                   idle': map<string, seq<nat>>, taken: seq<nat>, t: nat, cap: nat)
    returns (steps: seq<L.Step>, s': L.State)
    requires LT.Reachable(s) && Shows(idle, ids, s) && Drawing(idle, draws, idle', taken) && |taken| == |draws| <= cap
    requires Holds(s, t, [], cap)
    ensures L.Run(s, steps) == Some(s') && LT.Reachable(s') && Shows(idle', ids, s') && Holds(s', t, taken, cap)
    ensures Elsewhere(s, s', ids, t)
    decreases |draws|
  {
    if draws == [] {
      steps, s' := [], s;
    } else {
      var n := |draws| - 1;
      var mid := LastDraw(idle, draws, idle', taken);
      steps, s' := FillRun(s, idle, ids, draws[..n], mid, taken[..n], t, cap);
      steps, s' := OneMoreDraw(s, steps, s', mid, ids, draws[n], idle', taken[..n], taken[n], t, cap);
    }
  }

  /** Tenants are numbered in the order of their entries; `next` is the number of the next one. */
  ghost predicate Unused(s: L.State, next: nat) {
    forall t: nat :: L.TenantChan(t) in s.chans ==> t < next
  }

  lemma CreateStep(s: L.State, t: nat, cap: nat) returns (s': L.State)
    requires LT.Reachable(s) && Unused(s, t) && cap <= L.MAX_INT32
    ensures L.Run(s, [L.CreateTenant(t, cap)]) == Some(s') && LT.Reachable(s') && Holds(s', t, [], cap)
    ensures forall h :: h in s.chans ==> h in s'.chans && s'.chans[h] == s.chans[h]
    ensures forall h :: h in s'.chans ==> h in s.chans || h == L.TenantChan(t)
  {
    s' := L.DoCreateTenant(s, t, cap).value;
    LT.ReachableStep(s, L.CreateTenant(t, cap), s');
  }

  /** One entry: the tenant's channel is created, and filled. */
  lemma EntryRun(s: L.State, idle: map<string, seq<nat>>, ids: map<string, nat>, draws: seq<string>,
                 idle': map<string, seq<nat>>, taken: seq<nat>, t: nat)
    returns (steps: seq<L.Step>, s': L.State)
    requires LT.Reachable(s) && Shows(idle, ids, s) && Drawing(idle, draws, idle', taken) && |taken| == |draws|
    requires Unused(s, t) && |draws| <= L.MAX_INT32
    ensures L.Run(s, steps) == Some(s') && LT.Reachable(s') && Shows(idle', ids, s') && Holds(s', t, taken, |taken|)
    ensures Elsewhere(s, s', ids, t) && Unused(s', t + 1)
  {
    var s1 := CreateStep(s, t, |draws|);
    var fills;
    fills, s' := FillRun(s1, idle, ids, draws, idle', taken, t, |draws|);
    LT.RunAppend(s, [L.CreateTenant(t, |draws|)], fills);
    steps := [L.CreateTenant(t, |draws|)] + fills;
  }

  // Both engines.

  /** The numbers of pools and tenants in the lifecycle. */
  datatype Numbers = Numbers(asr: map<string, nat>, tts: map<string, nat>,
                             asrTenants: map<string, nat>, ttsTenants: map<string, nat>)

  /** Every tenant has its channel, filled to its capacity. */
  ghost predicate AllHold(s: L.State, tenants: map<string, seq<nat>>, numbers: map<string, nat>, next: nat) {
    && numbers.Keys == tenants.Keys
    && forall id :: id in tenants ==> numbers[id] < next && Holds(s, numbers[id], tenants[id], |tenants[id]|)
  }

  /** The lifecycle's state s is that of this allotment. */
  ghost predicate Stands(s: L.State, a: Allotment, n: Numbers, next: nat) {
    && Shows(a.asr, n.asr, s) && Shows(a.tts, n.tts, s) && n.asr.Values !! n.tts.Values
    && AllHold(s, a.tenants.asr, n.asrTenants, next) && AllHold(s, a.tenants.tts, n.ttsTenants, next)
    && Unused(s, next)
  }

  lemma OthersHold(s: L.State, s': L.State, tenants: map<string, seq<nat>>, numbers: map<string, nat>,
                   ids: map<string, nat>, t: nat)
    requires AllHold(s, tenants, numbers, t) && Elsewhere(s, s', ids, t)
    ensures AllHold(s', tenants, numbers, t)
  {}

  lemma OneMoreHolds(s: L.State, tenants: map<string, seq<nat>>, numbers: map<string, nat>, id: string,
                     channel: seq<nat>, t: nat)
    requires AllHold(s, tenants, numbers, t) && Holds(s, t, channel, |channel|)
    ensures AllHold(s, tenants[id := channel], numbers[id := t], t + 1)
  {}

  lemma OthersShow(s: L.State, s': L.State, idle: map<string, seq<nat>>, mine: map<string, nat>,
                   ids: map<string, nat>, t: nat)
    requires Shows(idle, mine, s) && Elsewhere(s, s', ids, t) && mine.Values !! ids.Values
    ensures Shows(idle, mine, s')
  {
    forall k | k in idle ensures mine[k] !in ids.Values { assert mine[k] in mine.Values; }
  }

  lemma DrawingLength(m: map<string, seq<nat>>, draws: seq<string>, m': map<string, seq<nat>>, taken: seq<nat>)
    requires Drawing(m, draws, m', taken)
    ensures |taken| == |draws|
  {}

  /** What one entry does in the lifecycle. */
  lemma GivenRun(e: Entry, draws: seq<string>, a: Allotment, a': Allotment, s: L.State, n: Numbers, next: nat)
    returns (steps: seq<L.Step>, s': L.State, n': Numbers)
    requires Given(e, draws, a, a') && Stands(s, a, n, next) && LT.Reachable(s) && e.size <= L.MAX_INT32
    ensures L.Run(s, steps) == Some(s') && LT.Reachable(s') && Stands(s', a', n', next + 1)
  {
    if e.engine() == "asr" {
      var channel := a'.tenants.asr[e.id];
      DrawingLength(a.asr, draws, a'.asr, channel);
      steps, s' := EntryRun(s, a.asr, n.asr, draws, a'.asr, channel, next);
      n' := n.(asrTenants := n.asrTenants[e.id := next]);
      OthersHold(s, s', a.tenants.asr, n.asrTenants, n.asr, next);
      OthersHold(s, s', a.tenants.tts, n.ttsTenants, n.asr, next);
      OneMoreHolds(s', a.tenants.asr, n.asrTenants, e.id, channel, next);
      OthersShow(s, s', a.tts, n.tts, n.asr, next);
    } else if e.engine() == "tts" {
      var channel := a'.tenants.tts[e.id];
      DrawingLength(a.tts, draws, a'.tts, channel);
      steps, s' := EntryRun(s, a.tts, n.tts, draws, a'.tts, channel, next);
      n' := n.(ttsTenants := n.ttsTenants[e.id := next]);
      OthersHold(s, s', a.tenants.asr, n.asrTenants, n.tts, next);
      OthersHold(s, s', a.tenants.tts, n.ttsTenants, n.tts, next);
      OneMoreHolds(s', a.tenants.tts, n.ttsTenants, e.id, channel, next);
      OthersShow(s, s', a.asr, n.asr, n.tts, next);
    } else {
      steps, s', n' := [], s, n;
    }
  }

  ghost predicate SizesFit(list: seq<Entry>) {
    forall i :: 0 <= i < |list| ==> list[i].size <= L.MAX_INT32
  }

  /** What initTenantPool does is a run of the lifecycle, after which the channel of every tenant it keeps holds the
      clients of the tenant, as many as its capacity and as have ever been given to it. */
  lemma {:induction false} InitRun(list: seq<Entry>, plan: seq<seq<string>>, a: Allotment, a': Allotment,
                                   s: L.State, n: Numbers, next: nat)
    returns (steps: seq<L.Step>, s': L.State, n': Numbers)
    requires Planned(list, plan, a, a') && Stands(s, a, n, next) && LT.Reachable(s) && SizesFit(list)
    ensures L.Run(s, steps) == Some(s') && LT.Reachable(s') && Stands(s', a', n', next + |list|)
    decreases |list|
  {
    if list == [] {
      steps, s', n' := [], s, n;
    } else {
      var i := |list| - 1;
      var mid :| Planned(list[..i], plan[..i], a, mid) && Given(list[i], plan[i], mid, a');
      var s1, n1;
      steps, s1, n1 := InitRun(list[..i], plan[..i], a, mid, s, n, next);
      var more;
      more, s', n' := GivenRun(list[i], plan[i], mid, a', s1, n1, next + i);
      LT.RunAppend(s, steps, more);
      steps := steps + more;
    }
  }

  lemma AllUsed(s: L.State, tenants: map<string, seq<nat>>, numbers: map<string, nat>, next: nat,
                steps: seq<L.Step>, s': L.State)
    requires LT.Reachable(s) && AllHold(s, tenants, numbers, next) && L.Run(s, steps) == Some(s') && NoPoolClosed(s')
    ensures forall id :: id in tenants ==> ExactlyUsed(s', numbers[id], |tenants[id]|)
  {
    forall id | id in tenants ensures ExactlyUsed(s', numbers[id], |tenants[id]|) {
      FullTenant(s, steps, s', numbers[id]);
    }
  }

  /** So, with initTenantPool done in a new program state, in every later state in which no pool has been closed, the
      idle, held and returning clients of every tenant add up to its capacity, and GetConnCurrent is the number of
      those that are out. */
  lemma TenantsExact(list: seq<Entry>, plan: seq<seq<string>>, a: Allotment, a': Allotment, s: L.State, n: Numbers,
                     next: nat)
    returns (steps: seq<L.Step>, s1: L.State, n': Numbers)
    requires Planned(list, plan, a, a') && Stands(s, a, n, next) && LT.Reachable(s) && SizesFit(list)
    ensures L.Run(s, steps) == Some(s1) && Stands(s1, a', n', next + |list|)
    ensures forall more, s2 :: L.Run(s1, more) == Some(s2) && NoPoolClosed(s2) ==>
              && (forall id :: id in n'.asrTenants ==> ExactlyUsed(s2, n'.asrTenants[id], |a'.tenants.asr[id]|))
              && (forall id :: id in n'.ttsTenants ==> ExactlyUsed(s2, n'.ttsTenants[id], |a'.tenants.tts[id]|))
  {
    steps, s1, n' := InitRun(list, plan, a, a', s, n, next);
    forall more, s2 | L.Run(s1, more) == Some(s2) && NoPoolClosed(s2)
      ensures (forall id :: id in n'.asrTenants ==> ExactlyUsed(s2, n'.asrTenants[id], |a'.tenants.asr[id]|))
      ensures (forall id :: id in n'.ttsTenants ==> ExactlyUsed(s2, n'.ttsTenants[id], |a'.tenants.tts[id]|))
    {
      AllUsed(s1, a'.tenants.asr, n'.asrTenants, next + |list|, more, s2);
      AllUsed(s1, a'.tenants.tts, n'.ttsTenants, next + |list|, more, s2);
    }
  }

}

/** Slots that a pool loses for good: a connection destroyed without a replacement is never made up for. */
module Attrition {
  import opened Wrappers
  import opened Lifecycle
  import opened LifecycleProof
  import opened LifecycleTheorems

  /** The slots still in use: open connections, and replacements being dialled. */
  ghost function Alive(s: State, h: Home): nat {
    |OpenOf(s, h)| + |DiallersOf(s, h)|
  }

  /** The books of a pool in two states, one after the other. */
  ghost predicate Later(s: State, s': State, h: Home)
    requires h in s.chans
  {
    && h in s'.chans
    && var ch, ch' := s.chans[h], s'.chans[h];
       && ch'.mode == ch.mode && ch'.cap == ch.cap && (h.PoolChan? ==> ch'.created == ch.created)
       && ch'.retired >= ch.retired && ch'.moved >= ch.moved && ch'.created >= ch.created
  }

  lemma StepLater(s: State, step: Step, s': State, h: Home)
    requires Apply(s, step) == Some(s') && h in s.chans
    ensures Later(s, s', h)
  {}

  lemma {:induction false} RunLater(s: State, steps: seq<Step>, s': State, h: Home)
    requires Run(s, steps) == Some(s') && h in s.chans
    ensures Later(s, s', h)
    decreases |steps|
  {
    if steps != [] {
      var s1 := Apply(s, steps[0]).value;
      StepLater(s, steps[0], s1, h);
      RunLater(s1, steps[1..], s', h);
    }
  }

  /** A pool never grows back: from any reachable state on, the slots in use only become fewer, by as many as are
      retired or moved to tenants. */
  lemma NeverGrowsBack(s: State, steps: seq<Step>, s': State, h: Home)
    requires Reachable(s) && Run(s, steps) == Some(s') && h.PoolChan? && h in s.chans && KnownMode(s.chans[h].mode)
    ensures h in s'.chans && Later(s, s', h)
    ensures Alive(s', h) == Alive(s, h)
              - (s'.chans[h].retired - s.chans[h].retired) - (s'.chans[h].moved - s.chans[h].moved)
    ensures Alive(s', h) <= Alive(s, h)
  {
    ReachableInv(s);
    RunKeeps(s, steps, s');
    RunLater(s, steps, s', h);
    assert CountOk(s, h) && CountOk(s', h);
  }

  /** Every failed dialling of a replacement costs one slot. */
  lemma FailedDialCosts(s: State, g: nat, s': State)
    requires Reachable(s) && DoDialFail(s, g) == Some(s') && KnownMode(s.chans[s.gos[g].home].mode)
    ensures var h := s.gos[g].home; h in s'.chans && Alive(s', h) == Alive(s, h) - 1
  {
    ReachableInv(s);
    var h := s.gos[g].home;
    assert PointOk(s, s.gos[g]);
    ReachableStep(s, DialFail(g), s');
    NeverGrowsBack(s, [DialFail(g)], s', h);
  }

  /** A client that waits or is in someone's hands is open. */
  lemma WhoeverHasOne(s: State, h: Home)
    requires Inv(s) && h in s.chans
    ensures s.chans[h].queue != [] ==> OpenOf(s, h) != {}
    ensures forall g :: g in s.gos && s.gos[g].home == h && s.gos[g].hand.Some? ==> OpenOf(s, h) != {}
  {
    assert QueueOk(s, h);
    if s.chans[h].queue != [] { assert s.chans[h].queue[0] in OpenOf(s, h); }
    forall g | g in s.gos && s.gos[g].home == h && s.gos[g].hand.Some? ensures OpenOf(s, h) != {} {
      assert HandOk(s, g);
      assert s.gos[g].hand.value in OpenOf(s, h);
    }
  }

  // What costs slots while a pool is open: failed dialling, and nothing else.

  /** The step is a replacement for channel h that could not be dialled. */
  ghost predicate FailsFor(s: State, step: Step, h: Home) {
    step.DialFail? && step.g in s.gos && s.gos[step.g].home == h
  }

  ghost function FailedDials(s: State, steps: seq<Step>, h: Home): nat
    decreases |steps|
  {
    if steps == [] then 0
    else
      var next := Apply(s, steps[0]);
      (if FailsFor(s, steps[0], h) then 1 else 0) + (if next.None? then 0 else FailedDials(next.value, steps[1..], h))
  }

  lemma GoRetires(s: State, step: Step, s': State, h: Home)
    requires GoStep(step) && step.g in s.gos && Near(s, step.g, s.gos[step.g].home) && Apply(s, step) == Some(s')
    requires h.PoolChan? && h in s.chans && !s.chans[h].closed
    ensures h in s'.chans && s'.chans[h].retired == s.chans[h].retired + (if FailsFor(s, step, h) then 1 else 0)
  {}

  lemma OtherRetires(s: State, step: Step, s': State, h: Home)
    requires !GoStep(step) && Apply(s, step) == Some(s') && h in s.chans
    ensures h in s'.chans && s'.chans[h].retired == s.chans[h].retired
  {}

  lemma StepRetires(s: State, step: Step, s': State, h: Home)
    requires Inv(s) && Apply(s, step) == Some(s') && h.PoolChan? && h in s.chans && !s.chans[h].closed
    ensures h in s'.chans && s'.chans[h].retired == s.chans[h].retired + (if FailsFor(s, step, h) then 1 else 0)
  {
    if GoStep(step) {
      NearOf(s, step.g, s.gos[step.g].home);
      GoRetires(s, step, s', h);
    } else {
      OtherRetires(s, step, s', h);
    }
  }

  lemma ClosedStep(s: State, step: Step, s': State, h: Home)
    requires Apply(s, step) == Some(s') && h in s.chans && s.chans[h].closed
    ensures h in s'.chans && s'.chans[h].closed
  {}

  lemma {:induction false} StaysClosed(s: State, steps: seq<Step>, s': State, h: Home)
    requires Run(s, steps) == Some(s') && h in s.chans && s.chans[h].closed
    ensures h in s'.chans && s'.chans[h].closed
    decreases |steps|
  {
    if steps != [] {
      var s1 := Apply(s, steps[0]).value;
      ClosedStep(s, steps[0], s1, h);
      StaysClosed(s1, steps[1..], s', h);
    }
  }

  lemma {:induction false} RunRetires(s: State, steps: seq<Step>, s': State, h: Home)
    requires Inv(s) && Run(s, steps) == Some(s') && h.PoolChan? && h in s.chans && h in s'.chans && !s'.chans[h].closed
    ensures s'.chans[h].retired == s.chans[h].retired + FailedDials(s, steps, h)
    decreases |steps|
  {
    if steps != [] {
      if s.chans[h].closed { StaysClosed(s, steps, s', h); }
      var s1 := Apply(s, steps[0]).value;
      StepRetires(s, steps[0], s1, h);
      StepKeeps(s, steps[0], s1);
      RunRetires(s1, steps[1..], s', h);
    }
  }

  /** While a pool of a documented mode is open, it loses one slot by every replacement that cannot be dialled and one
      by every client given to a tenant, and none otherwise. */
  lemma LossIsFailedDials(s: State, steps: seq<Step>, s': State, h: Home)
    requires Reachable(s) && Run(s, steps) == Some(s') && h.PoolChan? && h in s.chans && KnownMode(s.chans[h].mode)
    requires h in s'.chans && !s'.chans[h].closed
    ensures Alive(s', h) == Alive(s, h) - FailedDials(s, steps, h) - (s'.chans[h].moved - s.chans[h].moved)
  {
    NeverGrowsBack(s, steps, s', h);
    ReachableInv(s);
    RunRetires(s, steps, s', h);
  }

  /** So, apart from clients given to tenants, an open pool keeps all its slots exactly when no dialling failed. */
  lemma KeepsAllIff(s: State, steps: seq<Step>, s': State, h: Home)
    requires Reachable(s) && Run(s, steps) == Some(s') && h.PoolChan? && h in s.chans && KnownMode(s.chans[h].mode)
    requires h in s'.chans && !s'.chans[h].closed && s'.chans[h].moved == s.chans[h].moved
    ensures Alive(s', h) == Alive(s, h) <==> FailedDials(s, steps, h) == 0
  {
    LossIsFailedDials(s, steps, s', h);
  }

  /** A pool that has come to no open connection and no dialler has none ever after: its channel stays empty, so
      no request is ever given a client of it. */
  lemma DeadStaysDead(s: State, steps: seq<Step>, s': State, h: Home)
    requires Reachable(s) && Run(s, steps) == Some(s') && h.PoolChan? && h in s.chans && KnownMode(s.chans[h].mode)
    requires OpenOf(s, h) == {} && DiallersOf(s, h) == {}
    ensures OpenOf(s', h) == {} && DiallersOf(s', h) == {}
    ensures h in s'.chans && s'.chans[h].queue == []
    ensures forall g :: g in s'.gos && s'.gos[g].home == h ==> s'.gos[g].hand == None
  {
    NeverGrowsBack(s, steps, s', h);
    ReachableInv(s);
    RunKeeps(s, steps, s');
    WhoeverHasOne(s', h);
  }

  // Such a pool exists, for every capacity, mode and idle time, without ever having been closed.

  /** Pool 0 is open, nobody is at work, and its idle clients are too old for reuse. */
  ghost predicate Stale(s: State, cap: nat, mode: int, idleDur: nat, q: seq<nat>) {
    && Reachable(s) && s.gos == map[]
    && PoolChan(0) in s.chans && s.chans[PoolChan(0)].queue == q && !s.chans[PoolChan(0)].closed
    && s.chans[PoolChan(0)].cap == cap && s.chans[PoolChan(0)].mode == mode && s.chans[PoolChan(0)].idleDur == idleDur
    && forall c :: c in q ==> c in s.clients && s.clients[c].timeUsed + idleDur <= s.clock
  }

  /** A request finds the head too old, destroys it and fails to dial. */
  lemma OneLost(s: State, cap: nat, mode: int, idleDur: nat, q: seq<nat>) returns (s': State)
    requires Stale(s, cap, mode, idleDur, q) && q != []
    ensures Stale(s', cap, mode, idleDur, q[1..])
  {
    var s1 := ReachesSelect(s);
    assert q[0] in q;
    var s2 := DoReceive(s1, 0).value;
    ReachableStep(s1, Receive(0), s2);
    s' := DoDialFail(s2, 0).value;
    ReachableStep(s2, DialFail(0), s');
    assert s'.gos == map[];
    assert forall c :: c in q[1..] ==> c in q;
  }

  lemma {:induction false} AllLost(s: State, cap: nat, mode: int, idleDur: nat, q: seq<nat>) returns (s': State)
    requires Stale(s, cap, mode, idleDur, q)
    ensures Stale(s', cap, mode, idleDur, [])
    decreases |q|
  {
    if q == [] {
      s' := s;
    } else {
      s' := OneLost(s, cap, mode, idleDur, q);
      s' := AllLost(s', cap, mode, idleDur, q[1..]);
    }
  }

  lemma FullOfStale(cap: nat, mode: int, idleDur: nat) returns (s: State, q: seq<nat>)
    requires 1 <= cap <= MAX_INT32
    ensures Stale(s, cap, mode, idleDur, q) && |q| == cap
  {
    var s1;
    s1, q := NewPool(cap, mode, idleDur);
    s := DoTick(s1, idleDur).value;
    ReachableStep(s1, Tick(idleDur), s);
  }

  /** A pool of any capacity, filled by initPool, can come to that state while it is open. */
  lemma CanDie(cap: nat, mode: int, idleDur: nat)
    requires 1 <= cap <= MAX_INT32
    ensures exists s :: Reachable(s) && PoolChan(0) in s.chans && !s.chans[PoolChan(0)].closed
                        && s.chans[PoolChan(0)].cap == cap && s.chans[PoolChan(0)].mode == mode
                        && s.chans[PoolChan(0)].idleDur == idleDur
                        && OpenOf(s, PoolChan(0)) == {} && DiallersOf(s, PoolChan(0)) == {}
  {
    var s0, q := FullOfStale(cap, mode, idleDur);
    var s := AllLost(s0, cap, mode, idleDur, q);
    ReachableInv(s);
    forall c | c in s.clients ensures c !in OpenOf(s, PoolChan(0)) { assert ClientOk(s, c); }
    assert OpenOf(s, PoolChan(0)) == {};
  }
}

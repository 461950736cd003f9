/** What becomes of the connections of a pool after Pool.Close. */
module Closing {
  import opened Wrappers
  import opened Lifecycle
  import opened LifecycleProof
  import opened LifecycleTheorems
  import opened Isolation

  /** At work on a channel: a request that dials or holds a client, or a Client.Close on its way. */
  predicate Busy(at: Point) {
    at.Dialling? || at.Holding? || at.Returning? || at.Tested? || at.Pushing?
  }

  ghost function BusyOf(s: State, h: Home): set<nat> {
    set g | g in s.gos && s.gos[g].home == h && Busy(s.gos[g].at)
  }

  /** Nothing goes on around channel h any more: a drain that still runs stands before the empty channel, every
      replacement has been dialled, and every client that a request had has been through Client.Close. */
  ghost predicate Quiet(s: State, h: Home) {
    && h in s.chans && (Draining(s, h) ==> s.chans[h].queue == [])
    && BusyOf(s, h) == {}
  }

  ghost function RacingOf(s: State, h: Home): set<nat> {
    set c | c in s.racing && c in s.clients && s.clients[c].home == h
  }

  /** A closed channel stays closed, and no client joins its racing ones. */
  lemma ClosedStep(s: State, step: Step, s': State, h: Home)
    requires Inv(s) && Apply(s, step) == Some(s') && h.PoolChan? && h in s.chans && s.chans[h].closed
    ensures h in s'.chans && s'.chans[h].closed && RacingOf(s', h) <= RacingOf(s, h)
  {
    StepFramed(s, step, s');
    forall c | c in RacingOf(s', h) ensures c in RacingOf(s, h) {
      if step.ClosePool? && c !in s.racing {
        assert c in MidReturn(s, PoolChan(step.p));
        MidReturnHome(s, PoolChan(step.p), c);
      }
    }
  }

  lemma {:induction false} ClosedRun(s: State, steps: seq<Step>, s': State, h: Home)
    requires Inv(s) && Run(s, steps) == Some(s') && h.PoolChan? && h in s.chans && s.chans[h].closed
    ensures h in s'.chans && s'.chans[h].closed && RacingOf(s', h) <= RacingOf(s, h)
    decreases |steps|
  {
    if steps != [] {
      var s1 := Apply(s, steps[0]).value;
      ClosedStep(s, steps[0], s1, h);
      StepKeeps(s, steps[0], s1);
      ClosedRun(s1, steps[1..], s', h);
    }
  }

  /** In a quiet state every open client of a closed pool is a racing one. */
  lemma QuietOpen(s: State, h: Home, c: nat)
    requires Inv(s) && Quiet(s, h) && h.PoolChan? && s.chans[h].closed && c in OpenOf(s, h)
    ensures c in RacingOf(s, h)
  {
    assert ClientOk(s, c);
    if c !in s.chans[h].queue {
      var o :| Owns(s, o, c);
      assert HandOk(s, o) && PointOk(s, s.gos[o]) && o !in BusyOf(s, h);
    }
  }

  lemma AllRacing(s: State, h: Home)
    requires Inv(s) && Quiet(s, h) && h.PoolChan? && s.chans[h].closed
    ensures OpenOf(s, h) <= RacingOf(s, h)
  {
    forall c | c in OpenOf(s, h) ensures c in RacingOf(s, h) { QuietOpen(s, h, c); }
  }

  /** When a pool is closed its racing clients are those between the test and the end of the send. */
  lemma JustRacing(s: State, p: nat, g: nat, closed: State)
    requires Reachable(s) && PoolChan(p) in s.chans && !s.chans[PoolChan(p)].closed
    requires Apply(s, ClosePool(p, g)) == Some(closed)
    ensures Inv(closed) && PoolChan(p) in closed.chans && closed.chans[PoolChan(p)].closed
    ensures RacingOf(closed, PoolChan(p)) <= MidReturn(s, PoolChan(p))
  {
    ReachableInv(s);
    StepKeeps(s, ClosePool(p, g), closed);
    assert RacingOf(s, PoolChan(p)) == {};
  }

  /** After Pool.Close: once all is quiet, the only connections that belong to the pool and are still open are those
      of clients that were between the IsClose test and the end of the send of their Client.Close when the pool was
      closed. If there were none, none is open. */
  lemma AfterClose(s: State, p: nat, g: nat, closed: State, after: seq<Step>, s': State)
    requires Reachable(s) && PoolChan(p) in s.chans && !s.chans[PoolChan(p)].closed
    requires Apply(s, ClosePool(p, g)) == Some(closed) && Run(closed, after) == Some(s') && Quiet(s', PoolChan(p))
    ensures OpenOf(s', PoolChan(p)) <= MidReturn(s, PoolChan(p))
    ensures MidReturn(s, PoolChan(p)) == {} ==> OpenOf(s', PoolChan(p)) == {}
  {
    JustRacing(s, p, g, closed);
    RunKeeps(closed, after, s');
    ClosedRun(closed, after, s', PoolChan(p));
    AllRacing(s', PoolChan(p));
  }

  /** A step of a goroutine changes nothing of the others and of other channels, and does not close or resize its
      own. */
  ghost predicate Local(s: State, g: nat, s': State) {
    && g in s.gos && s.gos[g].home in s.chans && s'.chans.Keys == s.chans.Keys
    && (forall d :: d != g ==> (d in s'.gos <==> d in s.gos) && (d in s.gos ==> s'.gos[d] == s.gos[d]))
    && (g in s'.gos ==> s'.gos[g].home == s.gos[g].home)
    && (forall h :: h in s.chans ==> s'.chans[h].closed == s.chans[h].closed && s'.chans[h].cap == s.chans[h].cap
                                     && (h != s.gos[g].home ==> s'.chans[h] == s.chans[h]))
  }

  lemma MoveLocal(s: State, g: nat, c: int, h: Home, s': State)
    requires Move(s, g, c, h, s') && g in s.gos
    ensures Local(s, g, s')
  {}

  lemma GoLocal(s: State, step: Step, s': State)
    requires Inv(s) && GoStep(step) && Apply(s, step) == Some(s')
    ensures Local(s, step.g, s') && Near(s, step.g, s.gos[step.g].home)
  {
    var h := s.gos[step.g].home;
    NearOf(s, step.g, h);
    var c := GoMoves(s, step, h, s');
    MoveLocal(s, step.g, c, h, s');
  }

  // The converse: every one of those clients can come to stay open. The run that shows it brings everything else
  // around the pool to its end first.

  ghost predicate Clears(s: State, h: Home, g: nat, o: nat, c: nat) {
    && h.PoolChan? && h in s.chans && s.chans[h].closed && s.chans[h].cap >= 1
    && g in s.gos && s.gos[g].at == DrainTest && s.gos[g].home == h
    && (forall d :: Drains(s, d, h) ==> d == g)
    && o in s.gos && s.gos[o].home == h && (s.gos[o].at == Tested || s.gos[o].at == Pushing) && s.gos[o].hand == Some(c)
  }

  /** Pool h is closed; g is the only goroutine that drains it, o is about to send client c to it. */
  ghost predicate Clearing(s: State, h: Home, g: nat, o: nat, c: nat) {
    Reachable(s) && Clears(s, h, g, o, c)
  }

  lemma LocalClears(s: State, d: nat, s': State, h: Home, g: nat, o: nat, c: nat)
    requires Clears(s, h, g, o, c) && Local(s, d, s') && s.gos[d].home == h && d != g && d != o
    requires forall d' :: Drains(s', d', h) ==> d' == g
    ensures Clears(s', h, g, o, c) && BusyOf(s', h) - {d} == BusyOf(s, h) - {d}
  {}

  lemma NoNewDrain(s: State, step: Step, s': State, h: Home, g: nat)
    requires GoStep(step) && !step.Drain? && Apply(s, step) == Some(s') && forall d :: Drains(s, d, h) ==> d == g
    ensures forall d :: Drains(s', d, h) ==> d == g
  {
    forall d | Drains(s', d, h) ensures d == g {
      assert Drains(s, d, h);
    }
  }

  /** A step of some other goroutine d of the pool, which is not to drain it. */
  lemma OtherClears(s: State, step: Step, s': State, h: Home, g: nat, o: nat, c: nat)
    requires Clearing(s, h, g, o, c) && GoStep(step) && Apply(s, step) == Some(s')
    requires step.g in s.gos && s.gos[step.g].home == h && step.g != g && step.g != o && !step.Drain?
    ensures Clearing(s', h, g, o, c) && Run(s, [step]) == Some(s')
    ensures BusyOf(s', h) - {step.g} == BusyOf(s, h) - {step.g}
    ensures step.g in s'.gos ==> s'.gos[step.g].home == h
  {
    ReachableInv(s);
    GoLocal(s, step, s');
    ReachableStep(s, step, s');
    NoNewDrain(s, step, s', h, g);
    LocalClears(s, step.g, s', h, g, o, c);
  }

  /** Two turns of the drain's loop, which take one client. */
  lemma TakesOne(s: State, h: Home, g: nat) returns (s1: State, s': State)
    requires h in s.chans && s.chans[h].queue != [] && s.chans[h].queue[0] in s.clients
    requires g in s.gos && s.gos[g].at == DrainTest && s.gos[g].home == h
    ensures Apply(s, Drain(g)) == Some(s1) && Apply(s1, Drain(g)) == Some(s')
    ensures s'.gos == s.gos && h in s'.chans && s'.chans[h].queue == s.chans[h].queue[1..]
    ensures s'.chans[h].cap == s.chans[h].cap && s'.chans[h].closed == s.chans[h].closed
  {
    s1 := DoDrain(s, g).value;
    s' := DoDrain(s1, g).value;
    assert s'.gos == s.gos;
  }

  lemma DrainsOne(s: State, h: Home, g: nat, o: nat, c: nat) returns (s': State)
    requires Clearing(s, h, g, o, c) && s.chans[h].queue != []
    ensures Clearing(s', h, g, o, c) && Run(s, [Drain(g), Drain(g)]) == Some(s')
    ensures s'.gos == s.gos && s'.chans[h].queue == s.chans[h].queue[1..] && s'.chans[h].cap == s.chans[h].cap
  {
    ReachableInv(s);
    assert QueueOk(s, h) && s.chans[h].queue[0] in s.chans[h].queue;
    var s1;
    s1, s' := TakesOne(s, h, g);
    ReachableStep(s, Drain(g), s1);
    ReachableStep(s1, Drain(g), s');
    RunSnoc(s, [Drain(g)], s1, Drain(g), s');
    assert [Drain(g)] + [Drain(g)] == [Drain(g), Drain(g)];
    assert forall d :: Drains(s', d, h) ==> Drains(s, d, h);
  }

  /** The rest of a Client.Close of a pool that is closed: the client is destroyed. */
  lemma ReturningEnds(s: State, h: Home, g: nat, o: nat, c: nat, d: nat) returns (s': State)
    requires Clearing(s, h, g, o, c) && d in BusyOf(s, h) && s.gos[d].at == Returning
    ensures Clearing(s', h, g, o, c) && Run(s, [TestClosed(d)]) == Some(s') && BusyOf(s', h) == BusyOf(s, h) - {d}
  {
    ReachableInv(s);
    assert HandOk(s, d) && PointOk(s, s.gos[d]) && ClientOk(s, s.gos[d].hand.value);
    s' := DoTestClosed(s, d).value;
    OtherClears(s, TestClosed(d), s', h, g, o, c);
  }

  lemma HoldingEnds(s: State, h: Home, g: nat, o: nat, c: nat, d: nat) returns (s': State)
    requires Clearing(s, h, g, o, c) && d in BusyOf(s, h) && s.gos[d].at == Holding
    ensures Clearing(s', h, g, o, c) && Run(s, [Finish(d)] + [TestClosed(d)]) == Some(s')
    ensures BusyOf(s', h) == BusyOf(s, h) - {d}
  {
    ReachableInv(s);
    assert HandOk(s, d) && PointOk(s, s.gos[d]);
    var s1 := DoFinish(s, d).value;
    OtherClears(s, Finish(d), s1, h, g, o, c);
    s' := ReturningEnds(s1, h, g, o, c, d);
    RunAppend(s, [Finish(d)], [TestClosed(d)]);
  }

  /** Dialling fails. */
  lemma DiallingEnds(s: State, h: Home, g: nat, o: nat, c: nat, d: nat) returns (s': State)
    requires Clearing(s, h, g, o, c) && d in BusyOf(s, h) && s.gos[d].at == Dialling
    ensures Clearing(s', h, g, o, c) && Run(s, [DialFail(d)]) == Some(s') && BusyOf(s', h) == BusyOf(s, h) - {d}
  {
    s' := DoDialFail(s, d).value;
    OtherClears(s, DialFail(d), s', h, g, o, c);
  }

  /** A Client.Close past its test blocks at the nil channel. */
  lemma TestedEnds(s: State, h: Home, g: nat, o: nat, c: nat, d: nat) returns (s': State)
    requires Clearing(s, h, g, o, c) && d in BusyOf(s, h) && d != o && s.gos[d].at == Tested
    ensures Clearing(s', h, g, o, c) && Run(s, [Load(d)]) == Some(s') && BusyOf(s', h) == BusyOf(s, h) - {d}
  {
    ReachableInv(s);
    assert HandOk(s, d) && PointOk(s, s.gos[d]);
    s' := DoLoad(s, d).value;
    OtherClears(s, Load(d), s', h, g, o, c);
  }

  lemma SendEnds(s: State, h: Home, g: nat, o: nat, c: nat, d: nat) returns (s': State)
    requires Clearing(s, h, g, o, c) && d in BusyOf(s, h) && d != o && s.gos[d].at == Pushing
    requires |s.chans[h].queue| < s.chans[h].cap
    ensures Clearing(s', h, g, o, c) && Run(s, [Push(d)]) == Some(s') && BusyOf(s', h) == BusyOf(s, h) - {d}
  {
    ReachableInv(s);
    assert PointOk(s, s.gos[d]);
    s' := DoPush(s, d).value;
    OtherClears(s, Push(d), s', h, g, o, c);
  }

  lemma WithinCap(s: State, h: Home)
    requires Reachable(s) && h in s.chans
    ensures |s.chans[h].queue| <= s.chans[h].cap
  {
    ReachableInv(s);
    assert QueueOk(s, h);
  }

  /** A send, after the drain has made room if there is none. */
  lemma PushingEnds(s: State, h: Home, g: nat, o: nat, c: nat, d: nat) returns (steps: seq<Step>, s': State)
    requires Clearing(s, h, g, o, c) && d in BusyOf(s, h) && d != o && s.gos[d].at == Pushing
    ensures Clearing(s', h, g, o, c) && Run(s, steps) == Some(s') && BusyOf(s', h) == BusyOf(s, h) - {d}
  {
    if |s.chans[h].queue| < s.chans[h].cap {
      s' := SendEnds(s, h, g, o, c, d);
      steps := [Push(d)];
    } else {
      WithinCap(s, h);
      var s1 := DrainsOne(s, h, g, o, c);
      assert BusyOf(s1, h) == BusyOf(s, h);
      s' := SendEnds(s1, h, g, o, c, d);
      RunAppend(s, [Drain(g), Drain(g)], [Push(d)]);
      steps := [Drain(g), Drain(g)] + [Push(d)];
    }
  }

  lemma OneEnds(s: State, h: Home, g: nat, o: nat, c: nat, d: nat) returns (steps: seq<Step>, s': State)
    requires Clearing(s, h, g, o, c) && d in BusyOf(s, h) && d != o
    ensures Clearing(s', h, g, o, c) && Run(s, steps) == Some(s') && BusyOf(s', h) == BusyOf(s, h) - {d}
  {
    match s.gos[d].at
    case Holding => s' := HoldingEnds(s, h, g, o, c, d); steps := [Finish(d)] + [TestClosed(d)];
    case Returning => s' := ReturningEnds(s, h, g, o, c, d); steps := [TestClosed(d)];
    case Pushing => steps, s' := PushingEnds(s, h, g, o, c, d);
    case Dialling => s' := DiallingEnds(s, h, g, o, c, d); steps := [DialFail(d)];
    case Tested => s' := TestedEnds(s, h, g, o, c, d); steps := [Load(d)];
  }

  lemma {:induction false} AllEnd(s: State, h: Home, g: nat, o: nat, c: nat) returns (steps: seq<Step>, s': State)
    requires Clearing(s, h, g, o, c)
    ensures Clearing(s', h, g, o, c) && Run(s, steps) == Some(s') && BusyOf(s', h) == {o}
    decreases |BusyOf(s, h)|
  {
    if d :| d in BusyOf(s, h) && d != o {
      var first, s1 := OneEnds(s, h, g, o, c, d);
      var rest;
      rest, s' := AllEnd(s1, h, g, o, c);
      RunAppend(s, first, rest);
      steps := first + rest;
    } else {
      steps, s' := [], s;
      assert BusyOf(s, h) == {o};
    }
  }

  lemma {:induction false} Empties(s: State, h: Home, g: nat, o: nat, c: nat) returns (steps: seq<Step>, s': State)
    requires Clearing(s, h, g, o, c) && BusyOf(s, h) == {o}
    ensures Clearing(s', h, g, o, c) && Run(s, steps) == Some(s') && BusyOf(s', h) == {o} && s'.chans[h].queue == []
    decreases |s.chans[h].queue|
  {
    if s.chans[h].queue == [] {
      steps, s' := [], s;
    } else {
      var s1 := DrainsOne(s, h, g, o, c);
      assert BusyOf(s1, h) == BusyOf(s, h);
      var rest;
      rest, s' := Empties(s1, h, g, o, c);
      RunAppend(s, [Drain(g), Drain(g)], rest);
      steps := [Drain(g), Drain(g)] + rest;
    }
  }

  lemma DrainStops(s: State, h: Home, g: nat, o: nat, c: nat) returns (s': State)
    requires Clearing(s, h, g, o, c) && BusyOf(s, h) == {o} && s.chans[h].queue == []
    ensures Run(s, [Drain(g)]) == Some(s') && !Draining(s', h) && BusyOf(s', h) == {o}
    ensures s' == s.(gos := s.gos - {g}) && Inv(s') && o in s'.gos
  {
    s' := DoDrain(s, g).value;
    ReachableStep(s, Drain(g), s');
    ReachableInv(s');
    forall d ensures !Drains(s', d, h) { assert d != g ==> !Drains(s, d, h); }
    assert g !in BusyOf(s, h);
  }

  /** The send can be made, or the goroutine comes to block. */
  lemma LastStep(s: State, h: Home, o: nat, c: nat) returns (step: Step, s': State)
    requires Inv(s) && h in s.chans && h.PoolChan? && s.chans[h].closed && s.chans[h].queue == [] && s.chans[h].cap >= 1
    requires o in s.gos && s.gos[o].home == h && (s.gos[o].at == Tested || s.gos[o].at == Pushing)
    requires s.gos[o].hand == Some(c)
    ensures (step == Load(o) || step == Push(o)) && Apply(s, step) == Some(s') && c in OpenOf(s', h)
  {
    assert HandOk(s, o);
    step := if s.gos[o].at == Tested then Load(o) else Push(o);
    s' := if s.gos[o].at == Tested then DoLoad(s, o).value else DoPush(s, o).value;
  }

  lemma LastQuiet(s: State, step: Step, s': State, h: Home, o: nat)
    requires (step == Load(o) || step == Push(o)) && Apply(s, step) == Some(s') && !Draining(s, h) && h in s.chans
    requires o in s.gos && s.gos[o].home == h && s.chans[h].closed && BusyOf(s, h) == {o}
    ensures Quiet(s', h)
  {
    forall d ensures !Drains(s', d, h) { assert !Drains(s, d, h); }
    forall d ensures d !in BusyOf(s', h) { assert d != o ==> d !in BusyOf(s, h); }
  }

  /** The drain ends, and then the client is sent after it, or its sender blocks. */
  lemma LastSend(s: State, h: Home, g: nat, o: nat, c: nat) returns (steps: seq<Step>, s': State)
    requires Clearing(s, h, g, o, c) && BusyOf(s, h) == {o} && s.chans[h].queue == []
    ensures Run(s, steps) == Some(s') && Quiet(s', h) && c in OpenOf(s', h)
  {
    var s1 := DrainStops(s, h, g, o, c);
    var step;
    step, s' := LastStep(s1, h, o, c);
    RunSnoc(s, [Drain(g)], s1, step, s');
    steps := [Drain(g)] + [step];
    LastQuiet(s1, step, s', h, o);
  }

  // Capacities.

  lemma CapStep(s: State, step: Step, s': State)
    requires Apply(s, step) == Some(s') && forall h :: h in s.chans && h.PoolChan? ==> s.chans[h].cap >= 1
    ensures forall h :: h in s'.chans && h.PoolChan? ==> s'.chans[h].cap >= 1
  {}

  lemma {:induction false} CapPositive(s: State, steps: seq<Step>, s': State)
    requires Run(s, steps) == Some(s') && forall h :: h in s.chans && h.PoolChan? ==> s.chans[h].cap >= 1
    ensures forall h :: h in s'.chans && h.PoolChan? ==> s'.chans[h].cap >= 1
    decreases |steps|
  {
    if steps != [] {
      var s1 := Apply(s, steps[0]).value;
      CapStep(s, steps[0], s1);
      CapPositive(s1, steps[1..], s');
    }
  }

  lemma ReachableCap(s: State, h: Home)
    requires Reachable(s) && h.PoolChan? && h in s.chans
    ensures s.chans[h].cap >= 1
  {
    var clock, steps :| Reached(clock, steps, s);
    CapPositive(Init(clock), steps, s);
  }

  /** Nobody drains an open pool. */
  lemma OpenUndrained(s: State, h: Home)
    requires Reachable(s) && h in s.chans && !s.chans[h].closed
    ensures forall d :: !Drains(s, d, h)
  {
    ReachableInv(s);
    assert forall d :: d in s.gos ==> PointOk(s, s.gos[d]);
  }

  lemma JustClosed(s: State, p: nat, g: nat, closed: State, o: nat, c: nat)
    requires PoolChan(p) in s.chans && !s.chans[PoolChan(p)].closed && s.chans[PoolChan(p)].cap >= 1
    requires DoClosePool(s, p, g) == Some(closed) && forall d :: !Drains(s, d, PoolChan(p))
    requires o in s.gos && (s.gos[o].at == Tested || s.gos[o].at == Pushing) && s.gos[o].home == PoolChan(p)
    requires s.gos[o].hand == Some(c)
    ensures Clears(closed, PoolChan(p), g, o, c)
  {
    forall d | Drains(closed, d, PoolChan(p)) ensures d == g {
      assert !Drains(s, d, PoolChan(p));
    }
  }

  /** What the pool looks like when it has just been closed. */
  lemma StartsClearing(s: State, p: nat, g: nat, closed: State, o: nat, c: nat)
    requires Reachable(s) && PoolChan(p) in s.chans && !s.chans[PoolChan(p)].closed
    requires Apply(s, ClosePool(p, g)) == Some(closed)
    requires o in s.gos && (s.gos[o].at == Tested || s.gos[o].at == Pushing) && s.gos[o].home == PoolChan(p)
    requires s.gos[o].hand == Some(c)
    ensures Clearing(closed, PoolChan(p), g, o, c)
  {
    ReachableStep(s, ClosePool(p, g), closed);
    ReachableCap(s, PoolChan(p));
    OpenUndrained(s, PoolChan(p));
    JustClosed(s, p, g, closed, o, c);
  }

  /** The pool has been closed, and then a run has led to a quiet state in which c is still open. */
  ghost predicate Outlives(closed: State, after: seq<Step>, s': State, h: Home, c: nat) {
    Run(closed, after) == Some(s') && Quiet(s', h) && c in OpenOf(s', h)
  }

  lemma CanOutlive(s: State, p: nat, g: nat, closed: State, c: nat)
    requires Reachable(s) && PoolChan(p) in s.chans && !s.chans[PoolChan(p)].closed
    requires Apply(s, ClosePool(p, g)) == Some(closed) && c in MidReturn(s, PoolChan(p))
    ensures exists after, s' :: Outlives(closed, after, s', PoolChan(p), c)
  {
    var h := PoolChan(p);
    var o :| && o in s.gos && (s.gos[o].at.Tested? || s.gos[o].at.Pushing?)
             && s.gos[o].home == h && s.gos[o].hand == Some(c);
    StartsClearing(s, p, g, closed, o, c);
    var steps1, s1 := AllEnd(closed, h, g, o, c);
    var steps2, s2 := Empties(s1, h, g, o, c);
    var steps3, s3 := LastSend(s2, h, g, o, c);
    RunAppend(closed, steps1, steps2);
    RunAppend(closed, steps1 + steps2, steps3);
    assert Outlives(closed, steps1 + steps2 + steps3, s3, h, c);
  }

  /** Exactly the clients between the IsClose test and the end of the send when the pool is closed can outlive it:
      for those, and for no others, there is a run to a quiet state in which they are still open. */
  lemma OutlivesIff(s: State, p: nat, g: nat, closed: State, c: nat)
    requires Reachable(s) && PoolChan(p) in s.chans && !s.chans[PoolChan(p)].closed
    requires Apply(s, ClosePool(p, g)) == Some(closed)
    ensures (exists after, s' :: Outlives(closed, after, s', PoolChan(p), c)) <==> c in MidReturn(s, PoolChan(p))
  {
    if c in MidReturn(s, PoolChan(p)) {
      CanOutlive(s, p, g, closed, c);
    } else {
      forall after, s' ensures !Outlives(closed, after, s', PoolChan(p), c) {
        if Run(closed, after) == Some(s') && Quiet(s', PoolChan(p)) { AfterClose(s, p, g, closed, after, s'); }
      }
    }
  }

  // For ever.

  lemma NotStranded(s: State, step: Step, s': State)
    requires GoStep(step) && Apply(s, step) == Some(s') && step.g in s.gos
    ensures !s.gos[step.g].at.Stranded?
  {}

  lemma LocalBlocked(s: State, d: nat, s': State, o: nat, c: nat)
    requires Local(s, d, s') && !s.gos[d].at.Stranded? && BlockedBy(s, o, c)
    ensures BlockedBy(s', o, c)
  {}

  lemma OtherBlocked(s: State, step: Step, s': State, o: nat, c: nat)
    requires !GoStep(step) && Apply(s, step) == Some(s') && BlockedBy(s, o, c)
    ensures BlockedBy(s', o, c)
  {}

  /** A goroutine blocked at a nil channel takes no step, and nobody else touches its client. */
  lemma BlockedStays(s: State, step: Step, s': State, o: nat, c: nat)
    requires Inv(s) && Apply(s, step) == Some(s') && BlockedBy(s, o, c)
    ensures BlockedBy(s', o, c)
  {
    if GoStep(step) {
      GoLocal(s, step, s');
      NotStranded(s, step, s');
      LocalBlocked(s, step.g, s', o, c);
    } else {
      OtherBlocked(s, step, s', o, c);
    }
  }

  /** Once a Client.Close is blocked at the nil channel its connection stays open in every later state. */
  lemma {:induction false} BlockedForever(s: State, steps: seq<Step>, s': State, o: nat, c: nat)
    requires Inv(s) && Run(s, steps) == Some(s') && BlockedBy(s, o, c)
    ensures BlockedBy(s', o, c) && c in s'.clients && s'.clients[c].open
    decreases |steps|
  {
    if steps == [] {
      assert HandOk(s, o);
    } else {
      var s1 := Apply(s, steps[0]).value;
      BlockedStays(s, steps[0], s1, o, c);
      StepKeeps(s, steps[0], s1);
      BlockedForever(s1, steps[1..], s', o, c);
    }
  }

  /** Goroutine o has passed the IsClose test and has not yet evaluated the channel, or is blocked at it. */
  ghost predicate Hanging(s: State, h: Home, o: nat, c: nat) {
    o in s.gos && s.gos[o].home == h && s.gos[o].hand == Some(c) && (s.gos[o].at.Tested? || s.gos[o].at.Stranded?)
  }

  lemma OwnHanging(s: State, step: Step, s': State, h: Home, c: nat)
    requires GoStep(step) && Near(s, step.g, h) && Apply(s, step) == Some(s') && h.PoolChan? && s.chans[h].closed
    requires step.g in s.gos && Hanging(s', h, step.g, c)
    ensures Hanging(s, h, step.g, c)
  {}

  lemma OtherHanging(s: State, step: Step, s': State, h: Home, o: nat, c: nat)
    requires !GoStep(step) && Apply(s, step) == Some(s') && Hanging(s', h, o, c)
    ensures Hanging(s, h, o, c)
  {}

  /** No Client.Close passes the test of a closed pool. */
  lemma HangingStep(s: State, step: Step, s': State, h: Home, o: nat, c: nat)
    requires Inv(s) && Apply(s, step) == Some(s') && h.PoolChan? && h in s.chans && s.chans[h].closed
    requires Hanging(s', h, o, c)
    ensures Hanging(s, h, o, c)
  {
    if GoStep(step) {
      GoLocal(s, step, s');
      if step.g == o { OwnHanging(s, step, s', h, c); }
    } else {
      OtherHanging(s, step, s', h, o, c);
    }
  }

  lemma {:induction false} HangingRun(s: State, steps: seq<Step>, s': State, h: Home, o: nat, c: nat)
    requires Inv(s) && Run(s, steps) == Some(s') && h.PoolChan? && h in s.chans && s.chans[h].closed
    requires Hanging(s', h, o, c)
    ensures Hanging(s, h, o, c)
    decreases |steps|
  {
    if steps != [] {
      var s1 := Apply(s, steps[0]).value;
      ClosedStep(s, steps[0], s1, h);
      StepKeeps(s, steps[0], s1);
      HangingRun(s1, steps[1..], s', h, o, c);
      HangingStep(s, steps[0], s1, h, o, c);
    }
  }

  /** Client c comes to be blocked by o in this run. */
  ghost predicate Blocks(closed: State, after: seq<Step>, s': State, o: nat, c: nat) {
    Run(closed, after) == Some(s') && BlockedBy(s', o, c)
  }

  lemma CanBlock(s: State, h: Home, o: nat, c: nat) returns (s': State)
    requires Inv(s) && h in s.chans && s.chans[h].closed
    requires o in s.gos && s.gos[o].home == h && s.gos[o].at == Tested && s.gos[o].hand == Some(c)
    ensures Blocks(s, [Load(o)], s', o, c) && s'.gos[o].home == h
  {
    assert HandOk(s, o);
    s' := DoLoad(s, o).value;
    RunSnoc(s, [], s, Load(o), s');
    assert [] + [Load(o)] == [Load(o)];
  }

  /** In an open pool nobody is blocked, so a goroutine that hangs when it is closed has just passed the test. */
  lemma ClosedHanging(s: State, p: nat, g: nat, closed: State, o: nat, c: nat)
    requires Reachable(s) && PoolChan(p) in s.chans && !s.chans[PoolChan(p)].closed
    requires Apply(s, ClosePool(p, g)) == Some(closed) && o in s.gos && s.gos[o].home == PoolChan(p)
    ensures Inv(closed) && PoolChan(p) in closed.chans && closed.chans[PoolChan(p)].closed
    ensures o in closed.gos && closed.gos[o] == s.gos[o]
    ensures Hanging(closed, PoolChan(p), o, c) <==> s.gos[o].at == Tested && s.gos[o].hand == Some(c)
  {
    ReachableInv(s);
    StepKeeps(s, ClosePool(p, g), closed);
    assert PointOk(s, s.gos[o]);
  }

  lemma NeverBlocks(closed: State, after: seq<Step>, s': State, h: Home, o: nat, c: nat)
    requires Inv(closed) && h.PoolChan? && h in closed.chans && closed.chans[h].closed && !Hanging(closed, h, o, c)
    ensures !(Blocks(closed, after, s', o, c) && s'.gos[o].home == h)
  {
    if Run(closed, after) == Some(s') && Hanging(s', h, o, c) { HangingRun(closed, after, s', h, o, c); }
  }

  /** Exactly a Client.Close that has passed its IsClose test and has not evaluated the channel when the pool is closed
      can block; and by BlockedForever its connection is then open for good. */
  lemma BlocksIff(s: State, p: nat, g: nat, closed: State, o: nat, c: nat)
    requires Reachable(s) && PoolChan(p) in s.chans && !s.chans[PoolChan(p)].closed
    requires Apply(s, ClosePool(p, g)) == Some(closed) && o in s.gos && s.gos[o].home == PoolChan(p)
    ensures (exists after, s' :: Blocks(closed, after, s', o, c) && s'.gos[o].home == PoolChan(p))
       <==> s.gos[o].at == Tested && s.gos[o].hand == Some(c)
  {
    ClosedHanging(s, p, g, closed, o, c);
    if s.gos[o].at == Tested && s.gos[o].hand == Some(c) {
      var s' := CanBlock(closed, PoolChan(p), o, c);
      assert Blocks(closed, [Load(o)], s', o, c);
    } else {
      forall after, s' ensures !(Blocks(closed, after, s', o, c) && s'.gos[o].home == PoolChan(p)) {
        NeverBlocks(closed, after, s', PoolChan(p), o, c);
      }
    }
  }

  /** Somebody may still receive from channel h: a drain, or a request that evaluated the channel before it was
      closed. */
  ghost predicate Reads(s: State, g: nat, h: Home) {
    g in s.gos && s.gos[g].home == h
    && (((s.gos[g].at.Selecting? || s.gos[g].at.Receiving?) && s.gos[g].ref)
        || s.gos[g].at.DrainTest? || s.gos[g].at.DrainTake?)
  }

  /** Client c is in the channel of a closed pool from which nobody can receive. */
  ghost predicate Left(s: State, h: Home, c: nat) {
    h.PoolChan? && h in s.chans && s.chans[h].closed && c in s.chans[h].queue && forall g :: !Reads(s, g, h)
  }

  lemma OwnReader(s: State, step: Step, s': State, h: Home)
    requires GoStep(step) && Apply(s, step) == Some(s') && step.g in s.gos && h in s.chans && s.chans[h].closed
    requires !Reads(s, step.g, h)
    ensures !Reads(s', step.g, h)
  {}

  lemma LeftInQueue(s: State, step: Step, s': State, h: Home, c: nat)
    requires GoStep(step) && Near(s, step.g, h) && Apply(s, step) == Some(s') && step.g in s.gos
    requires c in s.chans[h].queue && !Reads(s, step.g, h)
    ensures h in s'.chans && c in s'.chans[h].queue
  {}

  lemma LocalReads(s: State, d: nat, s': State, h: Home)
    requires Local(s, d, s') && !Reads(s', d, h) && forall g :: !Reads(s, g, h)
    ensures forall g :: !Reads(s', g, h)
  {
    forall g ensures !Reads(s', g, h) { assert !Reads(s, g, h); }
  }

  lemma LeftBehind(s: State, d: nat, s': State, h: Home, c: nat)
    requires Local(s, d, s') && Left(s, h, c) && c in s'.chans[h].queue && forall g :: !Reads(s', g, h)
    ensures Left(s', h, c)
  {}

  lemma GoLeaves(s: State, step: Step, s': State, h: Home, c: nat)
    requires Inv(s) && GoStep(step) && Apply(s, step) == Some(s') && Left(s, h, c)
    ensures Left(s', h, c)
  {
    GoLocal(s, step, s');
    assert !Reads(s, step.g, h);
    if s.gos[step.g].home == h { LeftInQueue(s, step, s', h, c); }
    OwnReader(s, step, s', h);
    LocalReads(s, step.g, s', h);
    LeftBehind(s, step.g, s', h, c);
  }

  lemma OtherLeaves(s: State, step: Step, s': State, h: Home, c: nat)
    requires !GoStep(step) && Apply(s, step) == Some(s') && Left(s, h, c)
    ensures Left(s', h, c)
  {
    forall g ensures !Reads(s', g, h) { assert !Reads(s, g, h); }
  }

  /** A client that was sent after the drain, when nobody can receive it any more, is open for good, too. */
  lemma {:induction false} LeftForever(s: State, steps: seq<Step>, s': State, h: Home, c: nat)
    requires Inv(s) && Run(s, steps) == Some(s') && Left(s, h, c)
    ensures Left(s', h, c) && c in s'.clients && s'.clients[c].open
    decreases |steps|
  {
    if steps == [] {
      assert QueueOk(s, h);
    } else {
      var s1 := Apply(s, steps[0]).value;
      if GoStep(steps[0]) { GoLeaves(s, steps[0], s1, h, c); } else { OtherLeaves(s, steps[0], s1, h, c); }
      StepKeeps(s, steps[0], s1);
      LeftForever(s1, steps[1..], s', h, c);
    }
  }

  // There are such clients.

  /** A request has got client 0 of a new pool. */
  lemma OneHeld(cap: nat, mode: int) returns (s: State)
    requires 1 <= cap <= MAX_INT32
    ensures Reachable(s) && PoolChan(0) in s.chans && s.chans[PoolChan(0)].cap == cap
    ensures s.chans[PoolChan(0)].mode == mode
    ensures !s.chans[PoolChan(0)].closed && s.gos == map[0 := Go(Holding, PoolChan(0), Some(0), 0, true)]
    ensures 0 in s.clients && s.clients[0].open && s.clients[0].pool == 0
  {
    var s1, ids := NewPool(cap, mode, 1);
    assert ids[0] in ids;
    var s2 := ReachesSelect(s1);
    s := DoReceive(s2, 0).value;
    ReachableStep(s2, Receive(0), s);
    assert s.gos == map[0 := Go(Holding, PoolChan(0), Some(0), 0, true)];
  }

  lemma OneReturned(s: State) returns (s': State)
    requires Reachable(s) && s.gos == map[0 := Go(Holding, PoolChan(0), Some(0), 0, true)]
    requires 0 in s.clients && s.clients[0].open && s.clients[0].pool == 0
    ensures Reachable(s') && s'.chans == s.chans
    ensures s'.gos == map[0 := Go(Returning, PoolChan(0), Some(0), s.clock, true)]
    ensures 0 in s'.clients && s'.clients[0].open && s'.clients[0].pool == 0
  {
    s' := DoFinish(s, 0).value;
    ReachableStep(s, Finish(0), s');
  }

  /** In a pool of any capacity and mode a Client.Close can come to stand right after its IsClose test. */
  lemma CanRace(cap: nat, mode: int)
    requires 1 <= cap <= MAX_INT32
    ensures exists s :: Reachable(s) && PoolChan(0) in s.chans && !s.chans[PoolChan(0)].closed
                        && s.chans[PoolChan(0)].cap == cap && s.chans[PoolChan(0)].mode == mode
                        && 0 in s.gos && s.gos[0].at == Tested && 0 in MidReturn(s, PoolChan(0))
  {
    var s1 := OneHeld(cap, mode);
    var s2 := OneReturned(s1);
    var s3 := DoTestClosed(s2, 0).value;
    ReachableStep(s2, TestClosed(0), s3);
    assert s3.gos[0].at == Tested && 0 in MidReturn(s3, PoolChan(0));
  }
}

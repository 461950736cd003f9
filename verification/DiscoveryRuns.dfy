/**
  Discovery in the lifecycle of the connections: the pools that discovery makes and releases are pools of the
  lifecycle, made by CreatePool steps and closed by ClosePool steps.
 */
module DiscoveryRuns {
  import opened Wrappers
  import opened Text
  import opened Reconcile
  import ReconcileTheorems
  import L = Lifecycle
  import LP = LifecycleProof
  import LT = LifecycleTheorems

  /** The pools of the state s are those that have been made, closed where the registry says so. */
  ghost predicate Mirrors(r: Registry, s: L.State) {
    && (forall id :: 0 <= id < |r.made| ==>
          && L.PoolChan(id) in s.chans && s.chans[L.PoolChan(id)].cap == r.made[id].capacity
          && s.chans[L.PoolChan(id)].closed == r.made[id].closed)
    && (forall p: nat :: L.PoolChan(p) in s.chans ==> p < |r.made|)
  }

  lemma {:induction false} Above(numbers: set<nat>) returns (n: nat)
    ensures forall m :: m in numbers ==> m < n
    decreases |numbers|
  {
    if numbers == {} {
      n := 0;
    } else {
      var m :| m in numbers;
      var below := Above(numbers - {m});
      n := if m < below then below else m + 1;
      assert forall k :: k in numbers ==> k == m || k in numbers - {m};
    }
  }

  lemma CloseStep(r: Registry, s: L.State, id: nat) returns (step: L.Step, s': L.State)
    requires Mirrors(r, s) && LT.Reachable(s) && id < |r.made|
    ensures L.Run(s, [step]) == Some(s') && LT.Reachable(s') && step.ClosePool? && step.p == id
    ensures Mirrors(r.(made := r.made[id := r.made[id].(closed := true)]), s')
  {
    var g := Above(s.gos.Keys);
    step := L.ClosePool(id, g);
    s' := L.DoClosePool(s, id, g).value;
    LT.ReachableStep(s, step, s');
  }

  /** ReleaseGrpcPool closes the pool that it takes out of the map. */
  lemma ReleaseRun(r: Registry, s: L.State, engine: string, scene: string) returns (steps: seq<L.Step>, s': L.State)
    requires Linked(r) && Mirrors(r, s) && LT.Reachable(s)
    ensures L.Run(s, steps) == Some(s') && LT.Reachable(s') && Mirrors(Release(r, engine, scene), s')
  {
    if Known(engine) && scene in PoolsOf(r, engine) {
      var step;
      step, s' := CloseStep(r, s, PoolsOf(r, engine)[scene]);
      steps := [step];
    } else {
      steps, s' := [], s;
    }
  }

  lemma CreateStep(s: L.State, p: nat, size: nat, mode: int, idle: nat, base: nat) returns (step: L.Step, s': L.State)
    requires L.PoolChan(p) !in s.chans && 1 <= size <= L.MAX_INT32 && forall c :: c in s.clients ==> c < base
    ensures L.Apply(s, step) == Some(s') && L.PoolChan(p) in s'.chans
    ensures s'.chans == s.chans[L.PoolChan(p) := s'.chans[L.PoolChan(p)]]
    ensures s'.chans[L.PoolChan(p)].cap == size && !s'.chans[L.PoolChan(p)].closed
  {
    var ids := seq(size, i => base + i);
    step := L.CreatePool(p, size, mode, idle, ids);
    s' := L.DoCreatePool(s, p, size, mode, idle, ids).value;
  }

  lemma StoreMirrors(r: Registry, s: L.State, want: Wanted, s': L.State)
    requires Linked(r) && Mirrors(r, s) && L.PoolChan(|r.made|) in s'.chans
    requires s'.chans == s.chans[L.PoolChan(|r.made|) := s'.chans[L.PoolChan(|r.made|)]]
    requires s'.chans[L.PoolChan(|r.made|)].cap == Int32(want.number) && !s'.chans[L.PoolChan(|r.made|)].closed
    ensures Mirrors(Store(r, want.engine, want.scene, Int32(want.number)), s')
  {}

  /** A new pool, all of whose connections have been dialled. */
  lemma StoreRun(r: Registry, s: L.State, e: Entry, want: Wanted) returns (steps: seq<L.Step>, s': L.State)
    requires Linked(r) && Mirrors(r, s) && LT.Reachable(s) && CanMake(e, Int32(want.number))
    ensures L.Run(s, steps) == Some(s') && LT.Reachable(s')
    ensures Mirrors(Store(r, want.engine, want.scene, Int32(want.number)), s')
  {
    var base := Above(s.clients.Keys);
    var step;
    step, s' := CreateStep(s, |r.made|, Int32(want.number), e.mode, e.idle, base);
    LT.ReachableStep(s, step, s');
    StoreMirrors(r, s, want, s');
    steps := [step];
  }

  lemma {:induction false} BuildRun(r: Registry, config: seq<Entry>, want: Wanted, dial: bool, s: L.State)
    returns (steps: seq<L.Step>, s': L.State)
    requires Linked(r) && Mirrors(r, s) && LT.Reachable(s) && Build(r, config, want, dial).Some?
    ensures L.Run(s, steps) == Some(s') && LT.Reachable(s') && Mirrors(Build(r, config, want, dial).value, s')
    decreases |config|
  {
    if config == [] {
      steps, s' := [], s;
    } else if Lower(config[0].name) != want.engine {
      steps, s' := BuildRun(r, config[1..], want, dial, s);
    } else {
      var s1;
      steps, s1 := StoreRun(r, s, config[0], want);
      var more;
      more, s' := BuildRun(Store(r, want.engine, want.scene, Int32(want.number)), config[1..], want, dial, s1);
      LT.RunAppend(s, steps, more);
      steps := steps + more;
    }
  }

  lemma VisitRun(r: Registry, config: seq<Entry>, svc: Service, s: L.State) returns (steps: seq<L.Step>, s': L.State)
    requires Linked(r) && Mirrors(r, s) && LT.Reachable(s) && Visit(r, config, svc).Some?
    ensures L.Run(s, steps) == Some(s') && LT.Reachable(s') && Mirrors(Visit(r, config, svc).value, s')
  {
    if !svc.live || Parse(svc.name).None? || Settled(r, Parse(svc.name).value) {
      steps, s' := [], s;
    } else {
      var want := Parse(svc.name).value;
      steps, s' := ReleaseRun(r, s, want.engine, want.scene);
      if Reachable(svc) {
        var s1, more := s', [];
        more, s' := BuildRun(Release(r, want.engine, want.scene), config, want, svc.dial, s1);
        LT.RunAppend(s, steps, more);
        steps := steps + more;
      }
    }
  }

  /** Whatever discovery does to its registry over any services, it does to the pools of the lifecycle: the pools it
      makes are created, and those it releases are closed. */
  lemma {:induction false} VisitsRun(r: Registry, config: seq<Entry>, svcs: seq<Service>, s: L.State)
    returns (steps: seq<L.Step>, s': L.State)
    requires Linked(r) && Mirrors(r, s) && LT.Reachable(s) && Visits(r, config, svcs).Some?
    ensures L.Run(s, steps) == Some(s') && LT.Reachable(s') && Mirrors(Visits(r, config, svcs).value, s')
    decreases |svcs|
  {
    if svcs == [] {
      steps, s' := [], s;
    } else {
      var s1;
      steps, s1 := VisitRun(r, config, svcs[0], s);
      var more;
      more, s' := VisitsRun(Visit(r, config, svcs[0]).value, config, svcs[1..], s1);
      LT.RunAppend(s, steps, more);
      steps := steps + more;
    }
  }

  ghost predicate SamePools(s: L.State, s': L.State) {
    forall p: nat :: (L.PoolChan(p) in s'.chans <==> L.PoolChan(p) in s.chans)
      && (L.PoolChan(p) in s.chans ==>
            var ch, ch' := s.chans[L.PoolChan(p)], s'.chans[L.PoolChan(p)];
            ch'.cap == ch.cap && ch'.closed == ch.closed)
  }

  lemma GoSamePools(s: L.State, step: L.Step, s': L.State)
    requires LP.GoStep(step) && L.Apply(s, step) == Some(s')
    ensures SamePools(s, s')
  {}

  lemma OtherSamePools(s: L.State, step: L.Step, s': L.State)
    requires !LP.GoStep(step) && !step.CreatePool? && !step.ClosePool? && L.Apply(s, step) == Some(s')
    ensures SamePools(s, s')
  {}

  /** No other step makes, closes or resizes a pool. */
  lemma StepMirrors(r: Registry, s: L.State, step: L.Step, s': L.State)
    requires Mirrors(r, s) && L.Apply(s, step) == Some(s') && !step.CreatePool? && !step.ClosePool?
    ensures Mirrors(r, s')
  {
    if LP.GoStep(step) { GoSamePools(s, step, s'); } else { OtherSamePools(s, step, s'); }
  }

  /** What requests, returns, drains and tenants do in between leaves the registry right. */
  lemma {:induction false} OthersMirror(r: Registry, s: L.State, steps: seq<L.Step>, s': L.State)
    requires Mirrors(r, s) && L.Run(s, steps) == Some(s')
    requires forall i :: 0 <= i < |steps| ==> !steps[i].CreatePool? && !steps[i].ClosePool?
    ensures Mirrors(r, s')
    decreases |steps|
  {
    if steps != [] {
      var s1 := L.Apply(s, steps[0]).value;
      StepMirrors(r, s, steps[0], s1);
      OthersMirror(r, s1, steps[1..], s');
    }
  }

  /** No pool of the lifecycle that is open has been lost: each is in the map of its engine under its scene. */
  lemma OpenPoolsKept(r: Registry, s: L.State, p: nat)
    requires ReconcileTheorems.Owned(r) && Mirrors(r, s) && L.PoolChan(p) in s.chans && !s.chans[L.PoolChan(p)].closed
    ensures p < |r.made| && Known(r.made[p].engine)
    ensures r.made[p].name in PoolsOf(r, r.made[p].engine) && PoolsOf(r, r.made[p].engine)[r.made[p].name] == p
  {}
}

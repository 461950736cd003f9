/** What a tenant keeps to itself. */
module Isolation {
  import opened Wrappers
  import opened Lifecycle
  import opened LifecycleProof
  import opened LifecycleTheorems
  import Attrition

  /** What no step changes. */
  ghost predicate Framed(s: State, step: Step, s': State) {
    && (!step.ClosePool? ==> s'.racing == s.racing)
    && (forall h :: h in s.chans ==> h in s'.chans && (s.chans[h].closed ==> s'.chans[h].closed))
    && (forall c :: c in s.clients && (step.Allocate? ==> s.clients[c].home != PoolChan(step.p)) ==>
          c in s'.clients && s'.clients[c].home == s.clients[c].home)
    && (forall c :: c in s.clients ==>
          c in s'.clients && (s'.clients[c].home == s.clients[c].home || s'.clients[c].home.TenantChan?))
    && (forall g :: g in s.gos && g in s'.gos ==> s'.gos[g].home == s.gos[g].home)
  }

  lemma MoveFramed(s: State, step: Step, s': State, c: int, h: Home)
    requires GoStep(step) && Move(s, step.g, c, h, s')
    ensures Framed(s, step, s')
  {}

  lemma OtherFramed(s: State, step: Step, s': State)
    requires Apply(s, step) == Some(s') && !GoStep(step)
    requires step.Allocate? && PoolChan(step.p) in s.chans ==> QueueOk(s, PoolChan(step.p))
    ensures Framed(s, step, s')
  {}

  lemma StepFramed(s: State, step: Step, s': State)
    requires Inv(s) && Apply(s, step) == Some(s')
    ensures Framed(s, step, s')
  {
    if GoStep(step) {
      NearOf(s, step.g, s.gos[step.g].home);
      var c := GoMoves(s, step, s.gos[step.g].home, s');
      MoveFramed(s, step, s', c, s.gos[step.g].home);
    } else {
      OtherFramed(s, step, s');
    }
  }

  /** A client never leaves its tenant, and a goroutine never changes the channel it works on. */
  lemma HomeIsPermanent(clock: int, steps: seq<Step>, s: State, step: Step, s': State)
    requires Reached(clock, steps, s) && Apply(s, step) == Some(s')
    ensures forall c :: c in s.clients && s.clients[c].open && s.clients[c].home.TenantChan? ==>
              c in s'.clients && s'.clients[c].home == s.clients[c].home
    ensures forall g :: g in s.gos && g in s'.gos ==> s'.gos[g].home == s.gos[g].home
  {
    ReachedInv(clock, steps, s);
    StepFramed(s, step, s');
  }

  ghost predicate NoPoolClosed(s: State) {
    forall p :: PoolChan(p) in s.chans ==> !s.chans[PoolChan(p)].closed
  }

  /** No client of a tenant is stuck at a nil channel. */
  lemma NothingBlocked(s: State, h: Home)
    requires Inv(s) && h.TenantChan?
    ensures Placed(s, h, Blocked) == {}
  {
    forall c | c in s.clients && s.clients[c].home == h ensures PlaceOf(s, c) != Blocked {
      PlaceIs(s, c, Blocked);
      forall g ensures !BlockedBy(s, g, c) {
        if Owns(s, g, c) { assert HandOk(s, g) && PointOk(s, s.gos[g]); }
      }
    }
  }

  /** Isolation: while the engine pools stay open, a client given to tenant t waits in t's channel or is in
      the hands of one goroutine that works for t, as a request or on its way back; and t's idle, held and
      returning clients add up to the clients it was given, so GetConnCurrent counts the outstanding ones. */
  lemma TenantIsolation(clock: int, steps: seq<Step>, s: State, t: nat)
    requires Reached(clock, steps, s) && NoPoolClosed(s) && TenantChan(t) in s.chans
    ensures forall c :: c in s.clients && s.clients[c].open && s.clients[c].home == TenantChan(t) ==>
              c in s.chans[TenantChan(t)].queue
              || exists g :: (HeldAt(s, g, c) || ReturnedBy(s, g, c)) && s.gos[g].home == TenantChan(t)
    ensures forall g :: g in s.gos && s.gos[g].home == TenantChan(t) && s.gos[g].hand.Some? ==>
              var c := s.gos[g].hand.value; c in s.clients && s.clients[c].home == TenantChan(t)
    ensures var ch := s.chans[TenantChan(t)];
            && |ch.queue| + |Placed(s, TenantChan(t), Held)| + |Placed(s, TenantChan(t), GoingBack)| == ch.created
            && (ch.created == ch.cap ==>
                  ch.ConnCurrent() == |Placed(s, TenantChan(t), Held)| + |Placed(s, TenantChan(t), GoingBack)|)
  {
    var h := TenantChan(t);
    ReachedInv(clock, steps, s);
    assert CountOk(s, h) && QueueOk(s, h);
    Conservation(clock, steps, s, h);
    assert s.chans[h].retired == 0;
    forall g | g in s.gos ensures HandOk(s, g) && PointOk(s, s.gos[g]) {}
    assert DiallersOf(s, h) == {};
    forall c | c in s.clients && s.clients[c].open && s.clients[c].home == h
      ensures c in s.chans[h].queue || exists g :: (HeldAt(s, g, c) || ReturnedBy(s, g, c)) && s.gos[g].home == h
    {
      assert ClientOk(s, c);
      if c !in s.chans[h].queue {
        var g :| Owns(s, g, c);
        assert HandOk(s, g) && PointOk(s, s.gos[g]);
        assert HeldAt(s, g, c) || ReturnedBy(s, g, c);
      }
    }
    NothingBlocked(s, h);
  }

  /** The clients of tenant t, cap in number, are idle, held or on their way back, and GetConnCurrent counts those
      out. */
  ghost predicate ExactlyUsed(s: State, t: nat, cap: nat) {
    && TenantChan(t) in s.chans
    && var ch, h := s.chans[TenantChan(t)], TenantChan(t);
       && ch.cap == cap && |ch.queue| + |Placed(s, h, Held)| + |Placed(s, h, GoingBack)| == cap
       && ch.ConnCurrent() == |Placed(s, h, Held)| + |Placed(s, h, GoingBack)|
  }

  /** A tenant that has been given all its clients keeps having been given them. */
  lemma GivenForGood(s: State, steps: seq<Step>, s': State, t: nat)
    requires Inv(s) && Run(s, steps) == Some(s') && TenantChan(t) in s.chans
    requires s.chans[TenantChan(t)].created == s.chans[TenantChan(t)].cap
    ensures TenantChan(t) in s'.chans
    ensures s'.chans[TenantChan(t)].created == s'.chans[TenantChan(t)].cap == s.chans[TenantChan(t)].cap
  {
    RunKeeps(s, steps, s');
    Attrition.RunLater(s, steps, s', TenantChan(t));
    assert CountOk(s', TenantChan(t));
  }

  /** Exact accounting: once a tenant has been given all its clients, in every later state with open pools they add up
      to its capacity. */
  lemma FullTenant(s: State, steps: seq<Step>, s': State, t: nat)
    requires Reachable(s) && Run(s, steps) == Some(s') && NoPoolClosed(s') && TenantChan(t) in s.chans
    requires s.chans[TenantChan(t)].created == s.chans[TenantChan(t)].cap
    ensures ExactlyUsed(s', t, s.chans[TenantChan(t)].cap)
  {
    var clock, before :| Reached(clock, before, s);
    ReachedInv(clock, before, s);
    GivenForGood(s, steps, s', t);
    RunAppend(Init(clock), before, steps);
    TenantIsolation(clock, before + steps, s', t);
  }
}

/** The order of the idle queue, and what the idle test of Acquire says about a reused client. */
module IdleOrder {
  import opened Wrappers
  import opened Lifecycle
  import opened LifecycleProof
  import opened LifecycleTheorems

  predicate Mid(at: Point) {
    at.Returning? || at.Tested? || at.Pushing?
  }

  // A client waiting in a channel is stamped with the time its latest Close was called.

  ghost predicate StampOk(s: State, c: nat)
    requires c in s.clients
  {
    s.clients[c].open && s.clients[c].home in s.chans && c in s.chans[s.clients[c].home].queue
    ==> s.clients[c].timeUsed == s.clients[c].returnedAt
  }

  ghost predicate HandStampOk(s: State, g: nat)
    requires g in s.gos
  {
    && s.gos[g].time <= s.clock
    && (Mid(s.gos[g].at) && s.gos[g].hand.Some? && s.gos[g].hand.value in s.clients ==>
          var r := s.clients[s.gos[g].hand.value];
          if s.gos[g].at.Pushing? then r.timeUsed == r.returnedAt else s.gos[g].time == r.returnedAt)
  }

  ghost predicate TimesOk(s: State, c: nat)
    requires c in s.clients
  {
    s.clients[c].timeUsed <= s.clock && s.clients[c].returnedAt <= s.clock
  }

  ghost predicate Stamped(s: State) {
    && (forall c :: c in s.clients ==> StampOk(s, c) && TimesOk(s, c))
    && (forall g :: g in s.gos ==> HandStampOk(s, g))
  }

  lemma MoveStamped(s: State, g: nat, c: int, h: Home, s': State)
    requires Ownership(s) && Stamped(s) && Moved(s, g, c, h, s') && s'.clock == s.clock
    requires c in s'.clients ==> StampOk(s', c) && TimesOk(s', c)
    requires g in s'.gos ==> HandStampOk(s', g)
    ensures Stamped(s')
  {
    forall d | d in s'.clients ensures StampOk(s', d) && TimesOk(s', d) {
      assert d != c ==> StampOk(s, d) && TimesOk(s, d);
    }
    forall g' | g' in s'.gos ensures HandStampOk(s', g') {
      if g' != g {
        NotElsewhere(s, g, c, h, s', g');
        assert HandStampOk(s, g') && HandOk(s, g');
      }
    }
  }

  ghost predicate StampStep(s: State, step: Step, s': State, c: int, h: Home) {
    && GoStep(step) && Apply(s, step) == Some(s') && Near(s, step.g, h) && Move(s, step.g, c, h, s')
    && step.g in s.gos && HandStampOk(s, step.g) && (c in s.clients ==> StampOk(s, c) && TimesOk(s, c))
  }

  lemma OwnerStamps(s: State, step: Step, s': State, c: int, h: Home)
    requires StampStep(s, step, s', c, h) && (step.Load? || step.Finish? || step.TestClosed? || step.Push?)
    ensures s'.clock == s.clock && (c in s'.clients ==> StampOk(s', c) && TimesOk(s', c))
    ensures step.g in s'.gos ==> HandStampOk(s', step.g)
  {}

  lemma OtherGoStamps(s: State, step: Step, s': State, c: int, h: Home)
    requires StampStep(s, step, s', c, h) && !(step.Load? || step.Finish? || step.TestClosed? || step.Push?)
    ensures s'.clock == s.clock && (c in s'.clients ==> StampOk(s', c) && TimesOk(s', c))
    ensures step.g in s'.gos ==> HandStampOk(s', step.g)
  {}

  lemma AllocateStamps(s: State, p: nat, t: nat, s': State)
    requires DoAllocate(s, p, t) == Some(s') && Ownership(s) && Stamped(s)
    ensures Stamped(s')
  {
    assert QueueOk(s, PoolChan(p));
    forall c | c in s'.clients ensures StampOk(s', c) && TimesOk(s', c) { assert StampOk(s, c) && TimesOk(s, c); }
    forall g | g in s'.gos ensures HandStampOk(s', g) { assert HandStampOk(s, g); }
  }

  lemma OtherStamps(s: State, step: Step, s': State)
    requires !GoStep(step) && !step.Allocate? && Apply(s, step) == Some(s') && Stamped(s)
    requires forall c :: c in s.clients ==> ClientOk(s, c)
    requires forall g :: g in s.gos ==> HandOk(s, g)
    ensures Stamped(s')
  {
    forall c | c in s'.clients ensures StampOk(s', c) && TimesOk(s', c) {
      assert c in s.clients ==> StampOk(s, c) && TimesOk(s, c) && ClientOk(s, c);
    }
    forall g | g in s'.gos ensures HandStampOk(s', g) { assert g in s.gos ==> HandStampOk(s, g) && HandOk(s, g); }
  }

  lemma StepStamps(s: State, step: Step, s': State)
    requires Inv(s) && Stamped(s) && Apply(s, step) == Some(s')
    ensures Stamped(s')
  {
    if GoStep(step) {
      var h := s.gos[step.g].home;
      NearOf(s, step.g, h);
      var c := GoMoves(s, step, h, s');
      if step.Load? || step.Finish? || step.TestClosed? || step.Push? {
        OwnerStamps(s, step, s', c, h);
      } else {
        OtherGoStamps(s, step, s', c, h);
      }
      MoveStamped(s, step.g, c, h, s');
    } else if step.Allocate? {
      AllocateStamps(s, step.p, step.t, s');
    } else {
      OtherStamps(s, step, s');
    }
  }

  lemma {:induction false} RunStamps(s: State, steps: seq<Step>, s': State)
    requires Inv(s) && Stamped(s) && Run(s, steps) == Some(s')
    ensures Stamped(s')
    decreases |steps|
  {
    if steps != [] {
      var s1 := Apply(s, steps[0]).value;
      StepStamps(s, steps[0], s1);
      StepKeeps(s, steps[0], s1);
      RunStamps(s1, steps[1..], s');
    }
  }

  /** The select of Acquire, in every run: the client at the head is reused exactly when idling is allowed
      and its latest Close (or its creation) lies less than idleDur before the moment the call began;
      otherwise it is destroyed and the request goes on to dial. */
  lemma ReusedIffRecent(clock: int, steps: seq<Step>, s: State, g: nat, s': State)
    requires Reached(clock, steps, s) && DoReceive(s, g) == Some(s') && s.gos[g].at.Selecting?
    ensures var ch, began := s.chans[s.gos[g].home], s.gos[g].time;
            var c := ch.queue[0];
            && began <= s.clock
            && (if ch.idleDur > 0 && began - s.clients[c].returnedAt < ch.idleDur then
                  s'.gos[g].at == Holding && s'.gos[g].hand == Some(c) && s'.clients[c].open
                  && s'.clients[c].timeUsed == began
                else
                  s'.gos[g].at == Dialling && s'.gos[g].hand == None && !s'.clients[c].open)
            && s'.chans[s.gos[g].home].queue == ch.queue[1..]
  {
    ReachedInv(clock, steps, s);
    InitOk(clock);
    RunStamps(Init(clock), steps, s);
    assert QueueOk(s, s.gos[g].home) && HandStampOk(s, g);
    assert StampOk(s, s.chans[s.gos[g].home].queue[0]);
  }

  // When the queues are sorted.

  ghost predicate QueueSorted(s: State, h: Home)
    requires h in s.chans
  {
    var q := s.chans[h].queue;
    forall i, j :: 0 <= i < j < |q| && q[i] in s.clients && q[j] in s.clients ==>
      s.clients[q[i]].timeUsed <= s.clients[q[j]].timeUsed
  }

  /** The idle queue of every pool is sorted by timeUsed. */
  ghost predicate PoolsSorted(s: State) {
    forall h :: h in s.chans && h.PoolChan? ==> QueueSorted(s, h)
  }

  /** The step sends a client to a pool in whose channel there is one that was given back later. */
  ghost predicate Overtaken(s: State, step: Step) {
    && step.Push? && step.g in s.gos && s.gos[step.g].at.Pushing?
    && s.gos[step.g].hand.Some? && s.gos[step.g].hand.value in s.clients
    && s.gos[step.g].home.PoolChan? && s.gos[step.g].home in s.chans
    && exists d :: d in s.chans[s.gos[step.g].home].queue && d in s.clients
                   && s.clients[d].returnedAt > s.clients[s.gos[step.g].hand.value].returnedAt
  }

  ghost predicate NeverOvertaken(s: State, steps: seq<Step>)
    decreases |steps|
  {
    steps == [] || (!Overtaken(s, steps[0])
                    && (var next := Apply(s, steps[0]); next.Some? ==> NeverOvertaken(next.value, steps[1..])))
  }

  ghost predicate AlwaysSorted(s: State, steps: seq<Step>)
    decreases |steps|
  {
    && PoolsSorted(s)
    && (steps != [] ==> var next := Apply(s, steps[0]); next.Some? ==> AlwaysSorted(next.value, steps[1..]))
  }

  lemma KeptSorted(s: State, s': State, h: Home)
    requires h in s.chans && h in s'.chans && QueueSorted(s, h)
    requires var q := s.chans[h].queue;
             s'.chans[h].queue == q || (q != [] && s'.chans[h].queue == q[1..])
    requires forall d :: d in s'.chans[h].queue ==>
               d in s.clients && d in s'.clients && s'.clients[d].timeUsed == s.clients[d].timeUsed
    ensures QueueSorted(s', h)
  {}

  lemma PopSorted(s: State, step: Step, s': State, c: int, h: Home)
    requires StampStep(s, step, s', c, h) && QueueSorted(s, h) && (step.Receive? || step.Drain?)
    ensures QueueSorted(s', h)
  {
    var q := s.chans[h].queue;
    if q != [] { Pop(q); }
    KeptSorted(s, s', h);
  }

  lemma SameSorted(s: State, step: Step, s': State, c: int, h: Home)
    requires StampStep(s, step, s', c, h) && QueueSorted(s, h) && !(step.Receive? || step.Drain? || step.Push?)
    ensures QueueSorted(s', h)
  {
    KeptSorted(s, s', h);
  }

  lemma PushedLast(s: State, g: nat, s': State, h: Home, c: nat)
    requires h in s.chans && h in s'.chans && s'.clients == s.clients && c in s.clients
    requires s'.chans[h].queue == s.chans[h].queue + [c] && QueueSorted(s, h)
    requires forall d :: d in s.chans[h].queue ==> d in s.clients && s.clients[d].timeUsed <= s.clients[c].timeUsed
    ensures QueueSorted(s', h)
  {
    var q := s.chans[h].queue;
    forall i, j | 0 <= i < j < |q + [c]| && (q + [c])[i] in s.clients && (q + [c])[j] in s.clients
      ensures s.clients[(q + [c])[i]].timeUsed <= s.clients[(q + [c])[j]].timeUsed
    {
      assert q[i] in q;
    }
  }

  /** A send keeps its queue sorted exactly when nobody there was given back later. */
  lemma PushSorted(s: State, g: nat, s': State, h: Home, c: nat)
    requires DoPush(s, g) == Some(s') && s.gos[g].home == h && s.gos[g].hand == Some(c) && c in s.clients
    requires QueueSorted(s, h) && QueueOk(s, h) && HandStampOk(s, g)
    requires forall d :: d in s.chans[h].queue ==> d in s.clients && StampOk(s, d)
    ensures QueueSorted(s', h)
       <==> forall d :: d in s.chans[h].queue ==> s.clients[d].returnedAt <= s.clients[c].returnedAt
  {
    var q := s.chans[h].queue;
    assert s'.chans[h].queue == q + [c];
    if QueueSorted(s', h) {
      forall d | d in q ensures s.clients[d].returnedAt <= s.clients[c].returnedAt {
        var i :| 0 <= i < |q| && q[i] == d;
        assert (q + [c])[i] == d && (q + [c])[|q|] == c;
      }
    }
    if forall d :: d in q ==> s.clients[d].returnedAt <= s.clients[c].returnedAt { PushedLast(s, g, s', h, c); }
  }

  /** The other channels are not touched by a move. */
  lemma ElsewhereSorted(s: State, g: nat, c: int, h: Home, s': State)
    requires Ownership(s) && PoolsSorted(s) && Moved(s, g, c, h, s')
    ensures forall h' :: h' in s'.chans && h'.PoolChan? && h' != h ==> QueueSorted(s', h')
  {
    forall h' | h' in s'.chans && h'.PoolChan? && h' != h ensures QueueSorted(s', h') {
      assert QueueSorted(s, h') && QueueOk(s, h');
    }
  }

  lemma GoSorted(s: State, step: Step, s': State, c: int, h: Home)
    requires StampStep(s, step, s', c, h) && Ownership(s) && PoolsSorted(s) && h == s.gos[step.g].home
    requires !step.Push?
    ensures PoolsSorted(s')
  {
    ElsewhereSorted(s, step.g, c, h, s');
    if h.PoolChan? {
      if step.Receive? || step.Drain? { PopSorted(s, step, s', c, h); } else { SameSorted(s, step, s', c, h); }
    }
  }

  /** What a send does to the queues of all pools. */
  lemma SendSorted(s: State, g: nat, s': State, h: Home, c: nat)
    requires DoPush(s, g) == Some(s') && s.gos[g].home == h && s.gos[g].hand == Some(c) && c in s.clients
    requires PoolsSorted(s) && QueueOk(s, h) && HandStampOk(s, g)
    requires forall d :: d in s.chans[h].queue ==> d in s.clients && StampOk(s, d)
    requires forall h' :: h' in s'.chans && h'.PoolChan? && h' != h ==> QueueSorted(s', h')
    ensures PoolsSorted(s') <==> !Overtaken(s, Push(g))
  {
    if h.PoolChan? { PushSorted(s, g, s', h, c); }
  }

  /** New and shortened queues. */
  lemma OpenSorted(s: State, step: Step, s': State)
    requires (step.CreatePool? || step.CreateTenant? || step.Allocate?) && PoolsSorted(s) && Apply(s, step) == Some(s')
    requires forall h :: h in s.chans ==> QueueOk(s, h)
    ensures PoolsSorted(s')
  {
    forall h | h in s'.chans && h.PoolChan? ensures QueueSorted(s', h) {
      if h in s.chans { assert QueueSorted(s, h) && QueueOk(s, h); }
    }
  }

  lemma RestSorted(s: State, step: Step, s': State)
    requires step.AcquirePool? || step.AcquireTenant? || step.ClosePool? || step.Tick?
    requires PoolsSorted(s) && Apply(s, step) == Some(s')
    ensures PoolsSorted(s')
  {
    forall h | h in s'.chans && h.PoolChan? ensures QueueSorted(s', h) { assert QueueSorted(s, h); }
  }

  /** One step keeps the queues sorted exactly when it lets nobody overtake. */
  lemma StepSorted(s: State, step: Step, s': State)
    requires Inv(s) && Stamped(s) && PoolsSorted(s) && Apply(s, step) == Some(s')
    ensures PoolsSorted(s') <==> !Overtaken(s, step)
  {
    if GoStep(step) {
      var h := s.gos[step.g].home;
      NearOf(s, step.g, h);
      var c := GoMoves(s, step, h, s');
      assert c in s.clients ==> StampOk(s, c) && TimesOk(s, c);
      if step.Push? {
        ElsewhereSorted(s, step.g, c, h, s');
        assert HandOk(s, step.g) && QueueOk(s, h) && PointOk(s, s.gos[step.g]);
        SendSorted(s, step.g, s', h, s.gos[step.g].hand.value);
      } else {
        GoSorted(s, step, s', c, h);
      }
    } else if step.CreatePool? || step.CreateTenant? || step.Allocate? {
      OpenSorted(s, step, s');
    } else {
      RestSorted(s, step, s');
    }
  }

  lemma {:induction false} RunSorted(s: State, steps: seq<Step>)
    requires Inv(s) && Stamped(s) && PoolsSorted(s) && Run(s, steps).Some?
    ensures AlwaysSorted(s, steps) <==> NeverOvertaken(s, steps)
    decreases |steps|
  {
    if steps != [] {
      var s1 := Apply(s, steps[0]).value;
      StepSorted(s, steps[0], s1);
      StepStamps(s, steps[0], s1);
      StepKeeps(s, steps[0], s1);
      if PoolsSorted(s1) { RunSorted(s1, steps[1..]); } else { assert !AlwaysSorted(s1, steps[1..]); }
    }
  }

  lemma InitSorted(clock: int)
    ensures Inv(Init(clock)) && Stamped(Init(clock)) && PoolsSorted(Init(clock))
  {
    InitOk(clock);
  }

  /** In every run, whatever is interleaved with what: the idle queue of every pool is sorted by timeUsed in every
      state exactly when no Client.Close sends its client behind one that was given back later. */
  lemma SortedIff(clock: int, steps: seq<Step>)
    requires Run(Init(clock), steps).Some?
    ensures AlwaysSorted(Init(clock), steps) <==> NeverOvertaken(Init(clock), steps)
  {
    InitSorted(clock);
    RunSorted(Init(clock), steps);
  }

  lemma {:induction false} SortedAtEnd(s: State, steps: seq<Step>, s': State)
    requires AlwaysSorted(s, steps) && Run(s, steps) == Some(s')
    ensures PoolsSorted(s')
    decreases |steps|
  {
    if steps != [] { SortedAtEnd(Apply(s, steps[0]).value, steps[1..], s'); }
  }

  /** In a sorted queue, if the client at the head passes the idle test of an Acquire, every client in it does. */
  lemma AllFresh(clock: int, steps: seq<Step>, s: State, h: Home, began: int)
    requires Reached(clock, steps, s) && NeverOvertaken(Init(clock), steps) && h in s.chans && h.PoolChan?
    requires s.chans[h].queue != [] && s.chans[h].queue[0] in s.clients
    requires IsFresh(s.chans[h].idleDur, s.clients[s.chans[h].queue[0]].timeUsed, began)
    ensures forall c :: c in s.chans[h].queue ==>
              c in s.clients && IsFresh(s.chans[h].idleDur, s.clients[c].timeUsed, began)
  {
    ReachedInv(clock, steps, s);
    SortedIff(clock, steps);
    SortedAtEnd(Init(clock), steps, s);
    assert QueueOk(s, h) && QueueSorted(s, h);
  }

  // One case in which nobody overtakes: Client.Close taken as one indivisible action.

  /** No other step is taken while a Client.Close is under way. */
  predicate AtomicStep(s: State, step: Step) {
    forall g :: g in s.gos && Mid(s.gos[g].at) ==> (step.TestClosed? || step.Load? || step.Push?) && step.g == g
  }

  ghost predicate AtomicRun(s: State, steps: seq<Step>)
    decreases |steps|
  {
    steps == [] || (AtomicStep(s, steps[0])
                    && (var next := Apply(s, steps[0]); next.Some? ==> AtomicRun(next.value, steps[1..])))
  }

  /** A Client.Close under way was called at the present time. */
  ghost predicate MidNow(s: State, g: nat)
    requires g in s.gos
  {
    Mid(s.gos[g].at) && s.gos[g].hand.Some? && s.gos[g].hand.value in s.clients ==>
      s.clients[s.gos[g].hand.value].returnedAt == s.clock
  }

  lemma GoNow(s: State, step: Step, s': State, c: int, h: Home)
    requires StampStep(s, step, s', c, h) && MidNow(s, step.g)
    ensures step.g in s'.gos ==> MidNow(s', step.g)
  {}

  /** No goroutine but the one that takes the step is in a Client.Close. */
  lemma OnlyMid(s: State, step: Step, s': State, c: int, h: Home)
    requires StampStep(s, step, s', c, h) && AtomicStep(s, step) && (step.g in s'.gos ==> MidNow(s', step.g))
    ensures forall g :: g in s'.gos ==> MidNow(s', g)
  {
    assert forall g :: g in s'.gos && g != step.g ==> g in s.gos && s'.gos[g] == s.gos[g];
  }

  lemma NobodyMid(s: State, step: Step, s': State)
    requires !GoStep(step) && AtomicStep(s, step) && Apply(s, step) == Some(s')
    ensures forall g :: g in s'.gos ==> MidNow(s', g)
  {
    assert forall g :: g in s.gos ==> !Mid(s.gos[g].at);
  }

  lemma StepNow(s: State, step: Step, s': State)
    requires Inv(s) && Stamped(s) && AtomicStep(s, step) && Apply(s, step) == Some(s')
    requires forall g :: g in s.gos ==> MidNow(s, g)
    ensures forall g :: g in s'.gos ==> MidNow(s', g)
  {
    if GoStep(step) {
      NearOf(s, step.g, s.gos[step.g].home);
      var c := GoMoves(s, step, s.gos[step.g].home, s');
      assert c in s.clients ==> StampOk(s, c) && TimesOk(s, c);
      GoNow(s, step, s', c, s.gos[step.g].home);
      OnlyMid(s, step, s', c, s.gos[step.g].home);
    } else {
      NobodyMid(s, step, s');
    }
  }

  lemma NotOvertakenNow(s: State, step: Step)
    requires Stamped(s) && forall g :: g in s.gos ==> MidNow(s, g)
    ensures !Overtaken(s, step)
  {
    assert forall c :: c in s.clients ==> TimesOk(s, c);
  }

  lemma {:induction false} AtomicRunNow(s: State, steps: seq<Step>)
    requires Inv(s) && Stamped(s) && AtomicRun(s, steps) && forall g :: g in s.gos ==> MidNow(s, g)
    ensures NeverOvertaken(s, steps)
    decreases |steps|
  {
    if steps != [] {
      NotOvertakenNow(s, steps[0]);
      if Apply(s, steps[0]).Some? {
        var s1 := Apply(s, steps[0]).value;
        StepNow(s, steps[0], s1);
        StepStamps(s, steps[0], s1);
        StepKeeps(s, steps[0], s1);
        AtomicRunNow(s1, steps[1..]);
      }
    }
  }

  /** When Client.Close is indivisible, every idle queue is sorted at all times. */
  lemma SortedQueue(clock: int, steps: seq<Step>)
    requires Run(Init(clock), steps).Some? && AtomicRun(Init(clock), steps)
    ensures AlwaysSorted(Init(clock), steps)
  {
    InitSorted(clock);
    AtomicRunNow(Init(clock), steps);
    SortedIff(clock, steps);
  }

  // A run in which a return overtakes an earlier one.

  lemma TwoIdle() returns (s: State)
    ensures Run(Init(0), [CreatePool(0, 2, STRICT_MODE, 10, [0, 1])]) == Some(s)
    ensures s.clock == 0 && s.gos == map[]
    ensures s.chans == map[PoolChan(0) := Chan(2, STRICT_MODE, 10, [0, 1], false, 2, 0, 0)]
    ensures s.clients == map[0 := Client(true, 0, PoolChan(0), 0, 0), 1 := Client(true, 0, PoolChan(0), 0, 0)]
  {
    var step := CreatePool(0, 2, STRICT_MODE, 10, [0, 1]);
    s := DoCreatePool(Init(0), 0, 2, STRICT_MODE, 10, [0, 1]).value;
    RunSnoc(Init(0), [], Init(0), step, s);
    assert [] + [step] == [step];
  }

  lemma TakesHead(s1: State, g: nat, rest: seq<nat>) returns (s: State)
    requires s1.chans == map[PoolChan(0) := Chan(2, STRICT_MODE, 10, [g] + rest, false, 2, 0, 0)]
    requires g in s1.clients && s1.clients[g].timeUsed == 0
    requires g in s1.gos && s1.gos[g] == Go(Selecting, PoolChan(0), None, 0, true)
    ensures Apply(s1, Receive(g)) == Some(s)
    ensures s == s1.(chans := map[PoolChan(0) := Chan(2, STRICT_MODE, 10, rest, false, 2, 0, 0)],
                     gos := s1.gos[g := Go(Holding, PoolChan(0), Some(g), 0, true)])
  {
    assert ([g] + rest)[1..] == rest;
    s := DoReceive(s1, g).value;
    assert s.clients == s1.clients;
  }

  /** A request takes the client at the head. */
  lemma Take(s0: State, steps: seq<Step>, s1: State, g: nat, rest: seq<nat>) returns (s: State)
    requires Run(s0, steps) == Some(s1) && s1.clock == 0 && g !in s1.gos
    requires s1.chans == map[PoolChan(0) := Chan(2, STRICT_MODE, 10, [g] + rest, false, 2, 0, 0)]
    requires g in s1.clients && s1.clients[g].timeUsed == 0
    ensures Run(s0, steps + [AcquirePool(g, 0)] + [Load(g)] + [Receive(g)]) == Some(s)
    ensures s == s1.(chans := map[PoolChan(0) := Chan(2, STRICT_MODE, 10, rest, false, 2, 0, 0)],
                     gos := s1.gos[g := Go(Holding, PoolChan(0), Some(g), 0, true)])
  {
    var s2 := Selects(s0, steps, s1, g);
    s := TakesHead(s2, g, rest);
    RunSnoc(s0, steps + [AcquirePool(g, 0)] + [Load(g)], s2, Receive(g), s);
  }

  /** Two requests have taken the two clients of a pool. */
  lemma TwoHeld() returns (steps: seq<Step>, s: State)
    ensures Run(Init(0), steps) == Some(s) && s.clock == 0
    ensures s.chans == map[PoolChan(0) := Chan(2, STRICT_MODE, 10, [], false, 2, 0, 0)]
    ensures s.gos.Keys == {0, 1} && s.clients.Keys == {0, 1}
    ensures forall g :: g in {0, 1} ==> s.gos[g] == Go(Holding, PoolChan(0), Some(g), 0, true)
    ensures forall c :: c in {0, 1} ==> s.clients[c] == Client(true, 0, PoolChan(0), 0, 0)
  {
    var s1 := TwoIdle();
    steps := [CreatePool(0, 2, STRICT_MODE, 10, [0, 1])];
    assert [0] + [1] == [0, 1] && [1] + [] == [1];
    s := Take(Init(0), steps, s1, 0, [1]);
    steps := steps + [AcquirePool(0, 0)] + [Load(0)] + [Receive(0)];
    s := Take(Init(0), steps, s, 1, []);
    steps := steps + [AcquirePool(1, 0)] + [Load(1)] + [Receive(1)];
  }

  /** The test and the stamp of a Client.Close, with nothing in between. */
  lemma ComesToSend(s0: State, steps: seq<Step>, s1: State, g: nat, now: int) returns (s: State)
    requires Run(s0, steps) == Some(s1) && g in s1.gos
    requires s1.gos[g] == Go(Returning, PoolChan(0), Some(g), now, true)
    requires PoolChan(0) in s1.chans && !s1.chans[PoolChan(0)].closed
    requires g in s1.clients && s1.clients[g].open && s1.clients[g].pool == 0
    ensures Run(s0, steps + [TestClosed(g)] + [Load(g)]) == Some(s)
    ensures s == s1.(clients := s1.clients[g := s1.clients[g].(timeUsed := now)],
                     gos := s1.gos[g := Go(Pushing, PoolChan(0), Some(g), now, true)])
  {
    var s2 := After(s0, steps, s1, TestClosed(g));
    assert s2.gos[g] == Go(Tested, PoolChan(0), Some(g), now, true);
    s := After(s0, steps + [TestClosed(g)], s2, Load(g));
  }

  /** The steps of a Client.Close after its clock reading, with nothing in between. */
  lemma PutBack(s0: State, steps: seq<Step>, s1: State, g: nat, q: seq<nat>, now: int) returns (s: State)
    requires Run(s0, steps) == Some(s1) && g in s1.gos
    requires s1.gos[g] == Go(Returning, PoolChan(0), Some(g), now, true)
    requires s1.chans == map[PoolChan(0) := Chan(2, STRICT_MODE, 10, q, false, 2, 0, 0)] && |q| < 2
    requires g in s1.clients && s1.clients[g].open && s1.clients[g].pool == 0
    ensures Run(s0, steps + [TestClosed(g)] + [Load(g)] + [Push(g)]) == Some(s)
    ensures s == s1.(chans := map[PoolChan(0) := Chan(2, STRICT_MODE, 10, q + [g], false, 2, 0, 0)],
                     clients := s1.clients[g := s1.clients[g].(timeUsed := now)], gos := s1.gos - {g})
  {
    var s2 := ComesToSend(s0, steps, s1, g, now);
    s := After(s0, steps + [TestClosed(g)] + [Load(g)], s2, Push(g));
    assert s.gos == s1.gos - {g};
  }

  /** Client 0 is given back at time 0, client 1 at time 1, and neither is in the channel yet. */
  lemma BothFinished() returns (steps: seq<Step>, s: State)
    ensures Run(Init(0), steps) == Some(s)
    ensures s.chans == map[PoolChan(0) := Chan(2, STRICT_MODE, 10, [], false, 2, 0, 0)]
    ensures 0 in s.gos && s.gos[0] == Go(Returning, PoolChan(0), Some(0), 0, true)
    ensures 1 in s.gos && s.gos[1] == Go(Returning, PoolChan(0), Some(1), 1, true)
    ensures forall c :: c in {0, 1} ==> c in s.clients && s.clients[c].open && s.clients[c].pool == 0
  {
    steps, s := TwoHeld();
    s := After(Init(0), steps, s, Finish(0));
    steps := steps + [Finish(0)];
    s := After(Init(0), steps, s, Tick(1));
    steps := steps + [Tick(1)];
    s := After(Init(0), steps, s, Finish(1));
    steps := steps + [Finish(1)];
  }

  /** The second of two returns comes first into the channel: a reachable queue need not be sorted. */
  lemma OvertakingHappens()
    ensures exists steps, s :: Reached(0, steps, s) && PoolChan(0) in s.chans && !QueueSorted(s, PoolChan(0))
  {
    var steps, s1 := BothFinished();
    var s2 := PutBack(Init(0), steps, s1, 1, [], 1);
    steps := steps + [TestClosed(1)] + [Load(1)] + [Push(1)];
    assert [] + [1] == [1] && [1] + [0] == [1, 0];
    var s3 := PutBack(Init(0), steps, s2, 0, [1], 0);
    steps := steps + [TestClosed(0)] + [Load(0)] + [Push(0)];
    assert Reached(0, steps, s3);
    var q := s3.chans[PoolChan(0)].queue;
    assert q[0] == 1 && q[1] == 0 && s3.clients[1].timeUsed == 1 && s3.clients[0].timeUsed == 0;
  }
}

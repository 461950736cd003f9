/** What the invariant means for the users of a pool, in every run of every interleaving. */
module LifecycleTheorems {
  import opened Wrappers
  import opened Lifecycle
  import opened LifecycleProof

  /** s is reached from the empty program by these steps. */
  ghost predicate Reached(clock: int, steps: seq<Step>, s: State) {
    Run(Init(clock), steps) == Some(s)
  }

  lemma ReachedInv(clock: int, steps: seq<Step>, s: State)
    requires Reached(clock, steps, s)
    ensures Inv(s)
  {
    InitOk(clock);
    RunKeeps(Init(clock), steps, s);
  }

  // Where a client can be.

  datatype Place =
    | Idle        // waiting in its channel
    | BeingDrained // in the channel of a closed pool whose drain still runs
    | LeftBehind  // in the channel of a closed pool whose drain has ended
    | Held        // with a request
    | GoingBack   // in the goroutine of Client.Close
    | Blocked     // in a goroutine of Client.Close that sends to a nil channel
    | Destroyed

  ghost predicate Waiting(s: State, c: nat)
    requires c in s.clients
  {
    s.clients[c].open && s.clients[c].home in s.chans && c in s.chans[s.clients[c].home].queue
  }

  ghost predicate HeldAt(s: State, g: nat, c: nat) {
    Owns(s, g, c) && s.gos[g].at.Holding?
  }

  ghost predicate ReturnedBy(s: State, g: nat, c: nat) {
    Owns(s, g, c) && (s.gos[g].at.Returning? || s.gos[g].at.Tested? || s.gos[g].at.Pushing?)
  }

  ghost predicate BlockedBy(s: State, g: nat, c: nat) {
    Owns(s, g, c) && s.gos[g].at.Stranded?
  }

  ghost predicate At(s: State, c: nat, place: Place)
    requires c in s.clients
  {
    match place
    case Idle => Waiting(s, c) && !s.chans[s.clients[c].home].closed
    case BeingDrained => Waiting(s, c) && s.chans[s.clients[c].home].closed && Draining(s, s.clients[c].home)
    case LeftBehind => Waiting(s, c) && s.chans[s.clients[c].home].closed && !Draining(s, s.clients[c].home)
    case Held => exists g :: HeldAt(s, g, c)
    case GoingBack => exists g :: ReturnedBy(s, g, c)
    case Blocked => exists g :: BlockedBy(s, g, c)
    case Destroyed => !s.clients[c].open
  }

  /** The place of a client, read off the program state. */
  ghost function PlaceOf(s: State, c: nat): Place
    requires c in s.clients
  {
    if !s.clients[c].open then Destroyed
    else if Waiting(s, c) then
      if !s.chans[s.clients[c].home].closed then Idle
      else if Draining(s, s.clients[c].home) then BeingDrained else LeftBehind
    else if exists g :: HeldAt(s, g, c) then Held
    else if exists g :: ReturnedBy(s, g, c) then GoingBack
    else Blocked
  }

  lemma PlaceIs(s: State, c: nat, place: Place)
    requires Inv(s) && c in s.clients
    ensures At(s, c, place) <==> place == PlaceOf(s, c)
  {
    assert ClientOk(s, c);
    assert forall g :: Owns(s, g, c) ==> HandOk(s, g) && PointOk(s, s.gos[g]);
    if s.clients[c].open && !Waiting(s, c) {
      var g :| Owns(s, g, c);
      assert HeldAt(s, g, c) || ReturnedBy(s, g, c) || BlockedBy(s, g, c);
    }
  }

  /** Ownership: a client is always in exactly one place; in its channel it stands once, and at most
      one goroutine has it. */
  lemma ExactlyOnePlace(clock: int, steps: seq<Step>, s: State, c: nat)
    requires Reached(clock, steps, s) && c in s.clients
    ensures exists place :: At(s, c, place) && forall other :: At(s, c, other) ==> other == place
    ensures forall h :: h in s.chans ==> NoDup(s.chans[h].queue) && (c in s.chans[h].queue ==> h == s.clients[c].home)
    ensures forall g, g' :: Owns(s, g, c) && Owns(s, g', c) ==> g == g'
  {
    ReachedInv(clock, steps, s);
    PlaceIs(s, c, PlaceOf(s, c));
    forall other | At(s, c, other) ensures other == PlaceOf(s, c) { PlaceIs(s, c, other); }
    forall h | h in s.chans ensures NoDup(s.chans[h].queue) && (c in s.chans[h].queue ==> h == s.clients[c].home) {
      assert QueueOk(s, h);
    }
  }

  ghost function Placed(s: State, h: Home, place: Place): set<nat> {
    set c | c in s.clients && s.clients[c].home == h && PlaceOf(s, c) == place
  }

  ghost function Part(f: map<nat, Place>, place: Place): set<nat> {
    set c | c in f && f[c] == place
  }

  ghost function Among(f: map<nat, Place>, places: seq<Place>): set<nat> {
    set c | c in f && f[c] in places
  }

  lemma OneMore(f: map<nat, Place>, places: seq<Place>, place: Place)
    requires place !in places
    ensures |Among(f, places + [place])| == |Among(f, places)| + |Part(f, place)|
  {
    assert Among(f, places + [place]) == Among(f, places) + Part(f, place);
    assert Among(f, places) !! Part(f, place);
  }

  lemma SixParts(f: map<nat, Place>)
    requires forall c :: c in f ==> f[c] != Destroyed
    ensures |Part(f, Idle)| + |Part(f, BeingDrained)| + |Part(f, LeftBehind)|
            + |Part(f, Held)| + |Part(f, GoingBack)| + |Part(f, Blocked)| == |f.Keys|
  {
    OneMore(f, [], Idle);
    OneMore(f, [Idle], BeingDrained);
    OneMore(f, [Idle, BeingDrained], LeftBehind);
    OneMore(f, [Idle, BeingDrained, LeftBehind], Held);
    OneMore(f, [Idle, BeingDrained, LeftBehind, Held], GoingBack);
    OneMore(f, [Idle, BeingDrained, LeftBehind, Held, GoingBack], Blocked);
    assert [] + [Idle] == [Idle];
    assert [Idle] + [BeingDrained] == [Idle, BeingDrained];
    assert [Idle, BeingDrained] + [LeftBehind] == [Idle, BeingDrained, LeftBehind];
    assert [Idle, BeingDrained, LeftBehind] + [Held] == [Idle, BeingDrained, LeftBehind, Held];
    assert [Idle, BeingDrained, LeftBehind, Held] + [GoingBack] == [Idle, BeingDrained, LeftBehind, Held, GoingBack];
    assert Among(f, []) == {};
    assert Among(f, [Idle, BeingDrained, LeftBehind, Held, GoingBack] + [Blocked]) == f.Keys;
  }

  /** What f says about the clients waiting in the channel ch. */
  ghost predicate KnowsWaiting(f: map<nat, Place>, ch: Chan) {
    && (forall c :: c in ch.queue ==> c in f)
    && (forall c :: c in f ==>
          && (f[c] == Idle <==> c in ch.queue && !ch.closed)
          && (f[c] == BeingDrained || f[c] == LeftBehind <==> c in ch.queue && ch.closed))
  }

  /** The clients waiting in a channel are its queue. */
  lemma WaitingCount(f: map<nat, Place>, ch: Chan)
    requires KnowsWaiting(f, ch) && NoDup(ch.queue)
    ensures |Part(f, Idle)| == ch.Size()
    ensures |Part(f, BeingDrained)| + |Part(f, LeftBehind)| == |ch.queue| - ch.Size()
  {
    CountDistinct(ch.queue);
    var rest := Part(f, BeingDrained) + Part(f, LeftBehind);
    if ch.closed {
      assert Part(f, Idle) == {} && Elements(ch.queue) == rest;
    } else {
      assert Elements(ch.queue) == Part(f, Idle) && rest == {};
    }
  }

  ghost function Places(s: State, h: Home): map<nat, Place> {
    map c | c in OpenOf(s, h) :: PlaceOf(s, c)
  }

  lemma PlacedIsPart(s: State, h: Home, place: Place)
    requires place != Destroyed
    ensures Placed(s, h, place) == Part(Places(s, h), place)
  {}

  lemma PlacesKnow(s: State, h: Home)
    requires h in s.chans && QueueOk(s, h)
    ensures Places(s, h).Keys == OpenOf(s, h) && KnowsWaiting(Places(s, h), s.chans[h])
    ensures forall c :: c in Places(s, h) ==> Places(s, h)[c] != Destroyed
  {}

  /** Conservation: in the documented modes the clients in the six open places, the replacements being
      dialled, the connections lost for good and the clients given to tenants add up to the clients
      ever put into the channel. */
  lemma Conservation(clock: int, steps: seq<Step>, s: State, h: Home)
    requires Reached(clock, steps, s) && h in s.chans && KnownMode(s.chans[h].mode)
    ensures |Placed(s, h, Idle)| + |Placed(s, h, BeingDrained)| + |Placed(s, h, LeftBehind)|
            + |Placed(s, h, Held)| + |Placed(s, h, GoingBack)| + |Placed(s, h, Blocked)|
            + |DiallersOf(s, h)| + s.chans[h].retired + s.chans[h].moved == s.chans[h].created <= s.chans[h].cap
    ensures |Placed(s, h, Idle)| == s.chans[h].Size()
    ensures |Placed(s, h, BeingDrained)| + |Placed(s, h, LeftBehind)| == |s.chans[h].queue| - s.chans[h].Size()
  {
    ReachedInv(clock, steps, s);
    assert CountOk(s, h) && QueueOk(s, h);
    PlacesKnow(s, h);
    SixParts(Places(s, h));
    WaitingCount(Places(s, h), s.chans[h]);
    PlacedIsPart(s, h, Idle);
    PlacedIsPart(s, h, BeingDrained);
    PlacedIsPart(s, h, LeftBehind);
    PlacedIsPart(s, h, Held);
    PlacedIsPart(s, h, GoingBack);
    PlacedIsPart(s, h, Blocked);
  }

  lemma Smaller(a: set<nat>, b: set<nat>)
    requires a <= b
    ensures |a| <= |b|
  {
    assert b == a + (b - a);
  }

  /** Whoever has a client in hand finds room for it in its channel. */
  lemma HasRoom(s: State, g: nat)
    requires Inv(s) && g in s.gos && s.gos[g].hand.Some? && s.gos[g].home in s.chans
    requires KnownMode(s.chans[s.gos[g].home].mode)
    ensures |s.chans[s.gos[g].home].queue| < s.chans[s.gos[g].home].cap
  {
    var h, c := s.gos[g].home, s.gos[g].hand.value;
    assert HandOk(s, g) && CountOk(s, h) && QueueOk(s, h);
    CountDistinct(s.chans[h].queue);
    Smaller(Elements(s.chans[h].queue) + {c}, OpenOf(s, h));
  }

  /** A send of Client.Close never finds the buffer full. */
  lemma PushNeverBlocks(clock: int, steps: seq<Step>, s: State, g: nat)
    requires Reached(clock, steps, s) && g in s.gos && s.gos[g].at.Pushing?
    requires s.gos[g].home in s.chans && KnownMode(s.chans[s.gos[g].home].mode)
    ensures |s.chans[s.gos[g].home].queue| < s.chans[s.gos[g].home].cap && DoPush(s, g).Some?
  {
    ReachedInv(clock, steps, s);
    assert HandOk(s, g) && PointOk(s, s.gos[g]);
    HasRoom(s, g);
  }

  /** The same for the send that gives a client to a tenant: it can be made as long as the tenant has not been
      given all its clients and the chosen pool has one idle. */
  lemma AllocateNeverBlocks(clock: int, steps: seq<Step>, s: State, p: nat, t: nat)
    requires Reached(clock, steps, s) && PoolChan(p) in s.chans && TenantChan(t) in s.chans
    requires !s.chans[PoolChan(p)].closed && s.chans[PoolChan(p)].queue != []
    requires s.chans[TenantChan(t)].created < s.chans[TenantChan(t)].cap
    ensures DoAllocate(s, p, t).Some?
  {
    ReachedInv(clock, steps, s);
    var h := TenantChan(t);
    assert QueueOk(s, PoolChan(p)) && s.chans[PoolChan(p)].queue[0] in s.chans[PoolChan(p)].queue;
    assert CountOk(s, h) && QueueOk(s, h);
    CountDistinct(s.chans[h].queue);
    Smaller(Elements(s.chans[h].queue), OpenOf(s, h));
  }

  /** Connections owned by a pool never outnumber its capacity, and its two counters stay in range, also
      after Close; hence the branch of LOOSE_MODE that would make an extra client is never entered. */
  lemma CountersInRange(clock: int, steps: seq<Step>, s: State, h: Home)
    requires Reached(clock, steps, s) && h in s.chans
    ensures KnownMode(s.chans[h].mode) ==> |OpenOf(s, h)| + s.chans[h].moved <= s.chans[h].cap
    ensures 0 <= s.chans[h].ConnCurrent() <= s.chans[h].cap <= MAX_INT32
    ensures !(s.chans[h].ConnCurrent() > s.chans[h].cap)
    ensures forall g :: g in s.gos ==> !s.gos[g].at.Overflowing?
  {
    ReachedInv(clock, steps, s);
    assert CountOk(s, h) && QueueOk(s, h);
    forall g | g in s.gos ensures !s.gos[g].at.Overflowing? { assert PointOk(s, s.gos[g]); }
  }

  // Runs, glued together.

  lemma {:induction false} RunAppend(s: State, steps: seq<Step>, more: seq<Step>)
    ensures Run(s, steps + more)
         == (var mid := Run(s, steps); if mid.None? then None else Run(mid.value, more))
    decreases |steps|
  {
    if steps == [] {
      assert steps + more == more;
    } else {
      assert (steps + more)[1..] == steps[1..] + more;
      var next := Apply(s, steps[0]);
      if next.Some? { RunAppend(next.value, steps[1..], more); }
    }
  }

  lemma RunSnoc(s: State, steps: seq<Step>, s1: State, step: Step, s2: State)
    requires Run(s, steps) == Some(s1) && Apply(s1, step) == Some(s2)
    ensures Run(s, steps + [step]) == Some(s2)
  {
    RunAppend(s, steps, [step]);
    assert [step][1..] == [];
  }

  /** The state one step later. */
  lemma After(s: State, steps: seq<Step>, s1: State, step: Step) returns (s2: State)
    requires Run(s, steps) == Some(s1) && Apply(s1, step).Some?
    ensures Apply(s1, step) == Some(s2) && Run(s, steps + [step]) == Some(s2)
  {
    s2 := Apply(s1, step).value;
    RunSnoc(s, steps, s1, step, s2);
  }

  /** A request enters Acquire and comes to its select. */
  lemma Selects(s0: State, steps: seq<Step>, s1: State, g: nat) returns (s: State)
    requires Run(s0, steps) == Some(s1) && g !in s1.gos && PoolChan(0) in s1.chans && !s1.chans[PoolChan(0)].closed
    ensures Run(s0, steps + [AcquirePool(g, 0)] + [Load(g)]) == Some(s)
    ensures s == s1.(gos := s1.gos[g := Go(Selecting, PoolChan(0), None, s1.clock, true)])
  {
    var s2 := After(s0, steps, s1, AcquirePool(g, 0));
    s := After(s0, steps + [AcquirePool(g, 0)], s2, Load(g));
  }

  ghost predicate Reachable(s: State) {
    exists clock, steps :: Reached(clock, steps, s)
  }

  lemma ReachableInv(s: State)
    requires Reachable(s)
    ensures Inv(s)
  {
    var clock, steps :| Reached(clock, steps, s);
    ReachedInv(clock, steps, s);
  }

  lemma ReachableStep(s: State, step: Step, s': State)
    requires Reachable(s) && Apply(s, step) == Some(s')
    ensures Reachable(s') && Run(s, [step]) == Some(s')
  {
    var clock, steps :| Reached(clock, steps, s);
    RunSnoc(Init(clock), steps, s, step, s');
    assert Reached(clock, steps + [step], s');
    RunSnoc(s, [], s, step, s');
    assert [] + [step] == [step];
  }

  /** A new pool, full. */
  lemma NewPool(cap: nat, mode: int, idleDur: nat) returns (s: State, ids: seq<nat>)
    requires 1 <= cap <= MAX_INT32
    ensures Reachable(s) && s.gos == map[] && s.clock == 0 && PoolChan(0) in s.chans
    ensures s.chans[PoolChan(0)] == Chan(cap, mode, idleDur, ids, false, cap, 0, 0) && |ids| == cap && ids[0] == 0
    ensures forall c :: c in ids ==> c in s.clients && s.clients[c] == Client(true, 0, PoolChan(0), 0, 0)
  {
    ids := seq(cap, i => i);
    assert Reached(0, [], Init(0));
    s := DoCreatePool(Init(0), 0, cap, mode, idleDur, ids).value;
    ReachableStep(Init(0), CreatePool(0, cap, mode, idleDur, ids), s);
  }

  /** A request on an otherwise idle pool comes to its select. */
  lemma ReachesSelect(s: State) returns (s': State)
    requires Reachable(s) && s.gos == map[] && PoolChan(0) in s.chans && !s.chans[PoolChan(0)].closed
    ensures Reachable(s') && s' == s.(gos := map[0 := Go(Selecting, PoolChan(0), None, s.clock, true)])
  {
    var s1 := DoAcquirePool(s, 0, 0).value;
    ReachableStep(s, AcquirePool(0, 0), s1);
    s' := DoLoad(s1, 0).value;
    ReachableStep(s1, Load(0), s');
  }

  lemma ReachableRun(s: State, steps: seq<Step>, s': State)
    requires Reachable(s) && Run(s, steps) == Some(s')
    ensures Reachable(s')
  {
    var clock, before :| Reached(clock, before, s);
    RunAppend(Init(clock), before, steps);
    assert Reached(clock, before + steps, s');
  }

  // A mode that is neither STRICT_MODE nor LOOSE_MODE falls out of the select and makes one client too many.

  /** A run in which a send of Client.Close to a pool of this mode and capacity finds the buffer full. */
  ghost predicate SendBlocks(mode: int, cap: nat, clock: int, steps: seq<Step>, s: State, g: nat) {
    && Reached(clock, steps, s)
    && g in s.gos && s.gos[g].at.Pushing? && s.gos[g].home.PoolChan? && s.gos[g].home in s.chans
    && var ch := s.chans[s.gos[g].home];
       ch.mode == mode && ch.cap == cap && |ch.queue| == cap && DoPush(s, g).None?
  }

  /** A full pool of such a mode sends a request whose context is done off to dial. */
  lemma DialRun(mode: int, cap: nat) returns (steps: seq<Step>, s: State)
    requires !KnownMode(mode) && 1 <= cap <= MAX_INT32
    ensures Reached(0, steps, s) && s.clock == 0 && s.gos == map[0 := Go(Dialling, PoolChan(0), None, 0, true)]
    ensures PoolChan(0) in s.chans && cap !in s.clients
            && var ch := s.chans[PoolChan(0)]; ch.mode == mode && ch.cap == cap && |ch.queue| == cap && !ch.closed
  {
    var s0 := Init(0);
    var ids := seq(cap, i => i);
    steps := [CreatePool(0, cap, mode, 0, ids)];
    var s1 := DoCreatePool(s0, 0, cap, mode, 0, ids).value;
    RunSnoc(s0, [], s0, steps[0], s1);
    assert [] + steps == steps;
    var s2 := Selects(s0, steps, s1, 0);
    steps := steps + [AcquirePool(0, 0)] + [Load(0)];
    s := After(s0, steps, s2, CtxDone(0));
    steps := steps + [CtxDone(0)];
  }

  /** From dialling to Client.Close. */
  lemma GiveBackRun(s0: State, steps: seq<Step>, s1: State, c: nat) returns (s: State)
    requires Run(s0, steps) == Some(s1) && s1.gos == map[0 := Go(Dialling, PoolChan(0), None, 0, true)]
    requires c !in s1.clients
    ensures Run(s0, steps + [DialOk(0, c)] + [Finish(0)]) == Some(s) && s.chans == s1.chans
    ensures 0 in s.gos && s.gos[0] == Go(Returning, PoolChan(0), Some(c), s1.clock, true)
    ensures c in s.clients && s.clients[c].open && s.clients[c].pool == 0
  {
    var s2 := After(s0, steps, s1, DialOk(0, c));
    assert s2.gos[0] == Go(Holding, PoolChan(0), Some(c), 0, true);
    s := After(s0, steps + [DialOk(0, c)], s2, Finish(0));
  }

  /** From there to the send of Client.Close. */
  lemma ReturnRun(s0: State, steps: seq<Step>, s1: State, c: nat) returns (steps': seq<Step>, s: State)
    requires Run(s0, steps) == Some(s1) && s1.gos == map[0 := Go(Dialling, PoolChan(0), None, 0, true)]
    requires PoolChan(0) in s1.chans && !s1.chans[PoolChan(0)].closed && c !in s1.clients
    ensures Run(s0, steps') == Some(s) && s.chans == s1.chans
    ensures 0 in s.gos && s.gos[0].at == Pushing && s.gos[0].home == PoolChan(0)
  {
    var s2 := GiveBackRun(s0, steps, s1, c);
    steps' := steps + [DialOk(0, c)] + [Finish(0)];
    var s3 := After(s0, steps', s2, TestClosed(0));
    steps' := steps' + [TestClosed(0)];
    assert s3.gos[0].at == Tested && s3.gos[0].hand == Some(c) && s3.clients[c].open;
    s := After(s0, steps', s3, Load(0));
    steps' := steps' + [Load(0)];
  }

  /** Exactly the modes outside the two documented ones let a returned client find the channel full. */
  lemma SendBlocksIff(mode: int, cap: nat)
    requires 1 <= cap <= MAX_INT32
    ensures (exists clock, steps, s, g :: SendBlocks(mode, cap, clock, steps, s, g)) <==> !KnownMode(mode)
  {
    if !KnownMode(mode) {
      var steps, s := DialRun(mode, cap);
      steps, s := ReturnRun(Init(0), steps, s, cap);
      assert SendBlocks(mode, cap, 0, steps, s, 0);
    } else if exists clock, steps, s, g :: SendBlocks(mode, cap, clock, steps, s, g) {
      var clock, steps, s, g :| SendBlocks(mode, cap, clock, steps, s, g);
      PushNeverBlocks(clock, steps, s, g);
    }
  }

  /** Goroutine g waits in the send of its Client.Close, because channel h is full. */
  ghost predicate SendWaits(s: State, g: nat, h: Home) {
    g in s.gos && s.gos[g].at.Pushing? && s.gos[g].home == h && h in s.chans && |s.chans[h].queue| >= s.chans[h].cap
  }

  /** The step takes a client out of channel h. */
  ghost predicate TakesFrom(s: State, step: Step, h: Home) {
    || (step.Receive? && step.g in s.gos && s.gos[step.g].home == h)
    || (step.Drain? && step.g in s.gos && s.gos[step.g].home == h && s.gos[step.g].at.DrainTake?)
    || (step.Allocate? && PoolChan(step.p) == h)
  }

  ghost predicate NobodyTakes(s: State, steps: seq<Step>, h: Home)
    decreases |steps|
  {
    steps == [] || (!TakesFrom(s, steps[0], h)
                    && (var next := Apply(s, steps[0]); next.Some? ==> NobodyTakes(next.value, steps[1..], h)))
  }

  lemma WaitsStep(s: State, step: Step, s': State, g: nat, h: Home)
    requires SendWaits(s, g, h) && Apply(s, step) == Some(s') && !TakesFrom(s, step, h)
    ensures SendWaits(s', g, h)
  {}

  /** A Client.Close that finds the buffer full waits as long as nobody takes a client out of the channel. */
  lemma {:induction false} WaitsOn(s: State, steps: seq<Step>, s': State, g: nat, h: Home)
    requires SendWaits(s, g, h) && Run(s, steps) == Some(s') && NobodyTakes(s, steps, h)
    ensures SendWaits(s', g, h)
    decreases |steps|
  {
    if steps != [] {
      var s1 := Apply(s, steps[0]).value;
      WaitsStep(s, steps[0], s1, g, h);
      WaitsOn(s1, steps[1..], s', g, h);
    }
  }
}

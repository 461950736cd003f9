/** The invariant of the lifecycle: ownership and counting over every interleaving. */
module LifecycleProof {
  import opened Wrappers
  import opened Lifecycle

  ghost predicate Owns(s: State, g: nat, c: int) {
    g in s.gos && s.gos[g].hand.Some? && s.gos[g].hand.value == c
  }

  ghost predicate IsOpen(s: State, c: int) {
    c in s.clients && s.clients[c].open
  }

  /** A channel holds distinct open clients whose home it is. */
  ghost predicate QueueOk(s: State, h: Home)
    requires h in s.chans
  {
    && |s.chans[h].queue| <= s.chans[h].cap <= MAX_INT32
    && NoDup(s.chans[h].queue)
    && forall c :: c in s.chans[h].queue ==> c in s.clients && s.clients[c].open && s.clients[c].home == h
  }

  /** An open client names channels that exist, and is in its channel or in someone's hands. */
  ghost predicate ClientOk(s: State, c: nat)
    requires c in s.clients
  {
    s.clients[c].open ==>
      && PoolChan(s.clients[c].pool) in s.chans && s.clients[c].home in s.chans
      && (s.clients[c].home.PoolChan? ==> s.clients[c].home == PoolChan(s.clients[c].pool))
      && (c in s.chans[s.clients[c].home].queue || exists g :: Owns(s, g, c))
  }

  /** The client in a goroutine's hands is open, at home where the goroutine works, and out of its channel. */
  ghost predicate HandOk(s: State, g: nat)
    requires g in s.gos
  {
    && s.gos[g].home in s.chans
    && (s.gos[g].hand.Some? ==>
          var c := s.gos[g].hand.value;
          c in s.clients && s.clients[c].open && s.clients[c].home == s.gos[g].home
          && c !in s.chans[s.gos[g].home].queue)
  }

  /** Every open client is in exactly one place. */
  ghost predicate Ownership(s: State) {
    && (forall h :: h in s.chans ==> QueueOk(s, h))
    && (forall c :: c in s.clients ==> ClientOk(s, c))
    && (forall g :: g in s.gos ==> HandOk(s, g))
    && (forall g, g', c :: Owns(s, g, c) && Owns(s, g', c) ==> g == g')
  }

  /** Which points have a client, which occur only at a pool, and which only at a closed one. */
  ghost predicate PointOk(s: State, go: Goroutine) {
    && !go.at.Overflowing?
    && (go.hand.Some? <==> Handed(go.at))
    && (go.at.Dialling? || go.at.Selecting? || go.at.Entered? ==> go.home.PoolChan?)
    && (go.at.Stranded? || go.at.DrainTest? || go.at.DrainTake? ==>
          go.home.PoolChan? && go.home in s.chans && s.chans[go.home].closed)
  }

  ghost function OpenOf(s: State, h: Home): set<nat> {
    set c | c in s.clients && s.clients[c].open && s.clients[c].home == h
  }

  ghost function DiallersOf(s: State, h: Home): set<nat> {
    set g | g in s.gos && s.gos[g].at.Dialling? && s.gos[g].home == h
  }

  /** The two documented modes; a tenant's channel has none of the extra branches. */
  predicate KnownMode(mode: int) {
    mode == STRICT_MODE || mode == LOOSE_MODE
  }

  /** Every client ever put in is open, being replaced, lost for good, or with a tenant. */
  ghost predicate CountOk(s: State, h: Home)
    requires h in s.chans
  {
    var ch := s.chans[h];
    && ch.created <= ch.cap
    && (h.TenantChan? ==> !ch.closed && KnownMode(ch.mode) && ch.moved == 0)
    && (KnownMode(ch.mode) ==> |OpenOf(s, h)| + |DiallersOf(s, h)| + ch.retired + ch.moved == ch.created)
  }

  ghost predicate Drains(s: State, g: nat, h: Home) {
    g in s.gos && s.gos[g].home == h && (s.gos[g].at.DrainTest? || s.gos[g].at.DrainTake?)
  }

  /** A goroutine of Pool.Close is still draining channel h. */
  ghost predicate Draining(s: State, h: Home) {
    exists g :: Drains(s, g, h)
  }

  /** Past the IsClose test of Client.Close and not yet in the channel. */
  predicate PastTest(at: Point) {
    at.Tested? || at.Pushing? || at.Stranded?
  }

  /** A closed channel keeps open clients only in front of a drain that still runs, or racing ones. */
  ghost predicate ClosingOk(s: State) {
    && (forall c :: c in s.racing ==>
          c in s.clients && s.clients[c].home in s.chans && s.chans[s.clients[c].home].closed)
    && (forall g :: g in s.gos && PastTest(s.gos[g].at) && s.gos[g].hand.Some?
                    && s.gos[g].home in s.chans && s.chans[s.gos[g].home].closed
          ==> s.gos[g].hand.value in s.racing)
    && (forall h, c :: h in s.chans && s.chans[h].closed && !Draining(s, h) && c in s.chans[h].queue ==> c in s.racing)
  }

  ghost predicate SomePoolClosed(s: State) {
    exists p :: PoolChan(p) in s.chans && s.chans[PoolChan(p)].closed
  }

  /** A tenant loses a client only because some pool was closed. */
  ghost predicate TenantsOk(s: State) {
    forall t :: TenantChan(t) in s.chans && s.chans[TenantChan(t)].retired > 0 ==> SomePoolClosed(s)
  }

  ghost predicate Inv(s: State) {
    && Ownership(s)
    && (forall g :: g in s.gos ==> PointOk(s, s.gos[g]))
    && (forall h :: h in s.chans ==> CountOk(s, h))
    && ClosingOk(s)
    && TenantsOk(s)
  }

  // Sequences without repetition.

  function Elements(q: seq<nat>): set<nat> {
    set c | c in q
  }

  lemma {:induction false} CountDistinct(q: seq<nat>)
    requires NoDup(q)
    ensures |Elements(q)| == |q|
  {
    if q != [] {
      var init, last := q[..|q| - 1], q[|q| - 1];
      CountDistinct(init);
      assert q == init + [last];
      assert last !in init;
      assert Elements(q) == Elements(init) + {last};
    }
  }

  lemma Pop(q: seq<nat>)
    requires q != [] && NoDup(q)
    ensures NoDup(q[1..]) && q[0] !in q[1..]
    ensures forall c :: c in q[1..] <==> c in q && c != q[0]
  {
    assert q == [q[0]] + q[1..];
  }

  lemma Append(q: seq<nat>, c: nat)
    requires NoDup(q) && c !in q
    ensures NoDup(q + [c])
    ensures forall d :: d in q + [c] <==> d in q || d == c
  {}

  // A move: goroutine g takes one step that touches at most client c and channel h. Most steps are
  // moves; c is -1 when no client is concerned.

  /** Only channel h changes; its queue changes at most by c. */
  ghost predicate ChansMoved(s: State, c: int, h: Home, s': State) {
    && h in s.chans && h in s'.chans && s'.chans == s.chans[h := s'.chans[h]]
    && var q, q' := s.chans[h].queue, s'.chans[h].queue;
       && NoDup(q') && |q'| <= s.chans[h].cap == s'.chans[h].cap
       && (forall d :: d in q' ==> d == c || d in q)
       && (forall d :: d in q ==> d == c || d in q')
  }

  /** Only client c changes; it keeps its home, which is h while it is open. */
  ghost predicate ClientsMoved(s: State, c: int, h: Home, s': State) {
    && (s'.clients == s.clients || (c in s'.clients && s'.clients == s.clients[c := s'.clients[c]]))
    && (c in s.clients ==> s'.clients[c].home == s.clients[c].home)
    && (IsOpen(s, c) ==> s.clients[c].home == h)
    && (IsOpen(s', c) ==> s'.clients[c].home == h && PoolChan(s'.clients[c].pool) in s.chans
                          && (h.PoolChan? ==> h == PoolChan(s'.clients[c].pool)))
  }

  /** Only goroutine g changes; it works on h, and c is all it may have in its hands. */
  ghost predicate GosMoved(s: State, g: nat, c: int, h: Home, s': State) {
    && (s'.gos == s.gos - {g} || (g in s'.gos && s'.gos == s.gos[g := s'.gos[g]]))
    && (g in s.gos ==> s.gos[g].home == h && (s.gos[g].hand.Some? ==> s.gos[g].hand.value == c))
    && (g in s'.gos ==> s'.gos[g].home == h && (s'.gos[g].hand.Some? ==> s'.gos[g].hand.value == c))
  }

  /** c leaves one place for another: before and after it is in the channel or in g's hands. */
  ghost predicate PlaceMoved(s: State, g: nat, c: int, h: Home, s': State)
    requires h in s.chans && h in s'.chans
  {
    && (IsOpen(s, c) ==> c in s.chans[h].queue || Owns(s, g, c))
    && (IsOpen(s', c) ==> (c in s'.chans[h].queue <==> !Owns(s', g, c)))
    && (!IsOpen(s', c) ==> c !in s'.chans[h].queue && !Owns(s', g, c))
  }

  ghost predicate Moved(s: State, g: nat, c: int, h: Home, s': State) {
    ChansMoved(s, c, h, s') && ClientsMoved(s, c, h, s') && GosMoved(s, g, c, h, s') && PlaceMoved(s, g, c, h, s')
  }

  lemma MovedQueues(s: State, g: nat, c: int, h: Home, s': State)
    requires ChansMoved(s, c, h, s') && ClientsMoved(s, c, h, s') && PlaceMoved(s, g, c, h, s')
    requires forall h' :: h' in s.chans ==> QueueOk(s, h')
    ensures forall h' :: h' in s'.chans ==> QueueOk(s', h')
  {
    forall h' | h' in s'.chans ensures QueueOk(s', h') { assert QueueOk(s, h'); }
  }

  lemma MovedClients(s: State, g: nat, c: int, h: Home, s': State)
    requires Moved(s, g, c, h, s')
    requires forall d :: d in s.clients ==> ClientOk(s, d)
    ensures forall d :: d in s'.clients ==> ClientOk(s', d)
  {
    forall d | d in s'.clients ensures ClientOk(s', d) {
      if d != c {
        assert ClientOk(s, d);
        if s.clients[d].open && d !in s.chans[s.clients[d].home].queue {
          var g' :| Owns(s, g', d);
          assert Owns(s', g', d);
        }
      }
    }
  }

  /** Nobody but g has the client that moves. */
  lemma NotElsewhere(s: State, g: nat, c: int, h: Home, s': State, g': nat)
    requires Moved(s, g, c, h, s') && Ownership(s)
    ensures Owns(s, g', c) ==> g' == g
  {
    if Owns(s, g', c) {
      assert HandOk(s, g') && IsOpen(s, c);
    }
  }

  lemma MovedHands(s: State, g: nat, c: int, h: Home, s': State)
    requires Moved(s, g, c, h, s') && Ownership(s)
    ensures forall g' :: g' in s'.gos ==> HandOk(s', g')
  {
    forall g' | g' in s'.gos ensures HandOk(s', g') {
      if g' != g {
        assert HandOk(s, g');
        if Owns(s, g', c) { NotElsewhere(s, g, c, h, s', g'); }
      }
    }
  }

  lemma MovedAlone(s: State, g: nat, c: int, h: Home, s': State)
    requires Moved(s, g, c, h, s') && Ownership(s)
    ensures forall g1, g2, d :: Owns(s', g1, d) && Owns(s', g2, d) ==> g1 == g2
  {
    forall g1, g2, d | Owns(s', g1, d) && Owns(s', g2, d) ensures g1 == g2 {
      NotElsewhere(s, g, c, h, s', g1);
      NotElsewhere(s, g, c, h, s', g2);
      assert g1 != g ==> Owns(s, g1, d);
      assert g2 != g ==> Owns(s, g2, d);
    }
  }

  /** What a move does to the books of its channel. */
  ghost predicate Booked(s: State, g: nat, c: int, h: Home, s': State)
    requires h in s.chans && h in s'.chans
  {
    var ch, ch' := s.chans[h], s'.chans[h];
    && ch'.mode == ch.mode && ch'.closed == ch.closed && ch'.created == ch.created && ch'.moved == ch.moved
    && (KnownMode(ch.mode) ==>
          (if IsOpen(s', c) then 1 else 0) + (if g in s'.gos && s'.gos[g].at.Dialling? then 1 else 0) + ch'.retired
          == (if IsOpen(s, c) then 1 else 0) + (if g in s.gos && s.gos[g].at.Dialling? then 1 else 0) + ch.retired)
  }

  lemma CardChange(before: set<nat>, after: set<nat>, x: int)
    requires forall y: nat :: y != x ==> (y in before <==> y in after)
    ensures |after| == |before| - (if x in before then 1 else 0) + (if x in after then 1 else 0)
  {
    if x in before && x !in after {
      assert after == before - {x};
    } else if x !in before && x in after {
      assert after == before + {x};
    } else {
      assert after == before;
    }
  }

  lemma MovedOpen(s: State, c: int, h: Home, s': State, h': Home)
    requires ClientsMoved(s, c, h, s')
    ensures |OpenOf(s', h')| == |OpenOf(s, h')| - (if IsOpen(s, c) && h' == h then 1 else 0)
                                + (if IsOpen(s', c) && h' == h then 1 else 0)
  {
    CardChange(OpenOf(s, h'), OpenOf(s', h'), c);
  }

  lemma MovedDiallers(s: State, g: nat, c: int, h: Home, s': State, h': Home)
    requires GosMoved(s, g, c, h, s')
    ensures |DiallersOf(s', h')| == |DiallersOf(s, h')|
                                    - (if g in s.gos && s.gos[g].at.Dialling? && h' == h then 1 else 0)
                                    + (if g in s'.gos && s'.gos[g].at.Dialling? && h' == h then 1 else 0)
  {
    CardChange(DiallersOf(s, h'), DiallersOf(s', h'), g);
  }

  lemma MovedCounts(s: State, g: nat, c: int, h: Home, s': State)
    requires Moved(s, g, c, h, s') && Booked(s, g, c, h, s')
    requires forall h' :: h' in s.chans ==> CountOk(s, h')
    ensures forall h' :: h' in s'.chans ==> CountOk(s', h')
  {
    forall h' | h' in s'.chans ensures CountOk(s', h') {
      assert CountOk(s, h');
      MovedOpen(s, c, h, s', h');
      MovedDiallers(s, g, c, h, s', h');
    }
  }

  /** What a move does around a closed channel. */
  ghost predicate MovedClosing(s: State, g: nat, c: int, h: Home, s': State)
    requires h in s.chans && h in s'.chans
  {
    && s'.racing == s.racing && s'.chans[h].closed == s.chans[h].closed
    && (s.chans[h].closed && g in s'.gos && PastTest(s'.gos[g].at) ==> c in s.racing)
    && (s.chans[h].closed && c in s'.chans[h].queue ==> c in s.chans[h].queue || c in s.racing)
    && (Drains(s, g, h) ==> Drains(s', g, h) || s'.chans[h].queue == [])
  }

  lemma MovedClosingOk(s: State, g: nat, c: int, h: Home, s': State)
    requires Moved(s, g, c, h, s') && MovedClosing(s, g, c, h, s') && ClosingOk(s)
    ensures ClosingOk(s')
  {
    forall h', d | h' in s'.chans && s'.chans[h'].closed && !Draining(s', h') && d in s'.chans[h'].queue
      ensures d in s'.racing
    {
      if Draining(s, h') {
        var g' :| Drains(s, g', h');
        assert g' != g ==> Drains(s', g', h');
      }
    }
  }

  lemma ClosedStays(s: State, s': State)
    requires forall h :: h in s.chans ==> h in s'.chans && (s.chans[h].closed ==> s'.chans[h].closed)
    ensures forall go :: PointOk(s, go) ==> PointOk(s', go)
    ensures SomePoolClosed(s) ==> SomePoolClosed(s')
  {
    if SomePoolClosed(s) {
      var p :| PoolChan(p) in s.chans && s.chans[PoolChan(p)].closed;
      assert PoolChan(p) in s'.chans && s'.chans[PoolChan(p)].closed;
    }
  }

  lemma MovedRest(s: State, g: nat, c: int, h: Home, s': State)
    requires ChansMoved(s, c, h, s') && GosMoved(s, g, c, h, s') && s'.chans[h].closed == s.chans[h].closed
    requires (forall g' :: g' in s.gos ==> PointOk(s, s.gos[g'])) && (g in s'.gos ==> PointOk(s, s'.gos[g]))
    requires TenantsOk(s) && (h.TenantChan? && s'.chans[h].retired > s.chans[h].retired ==> SomePoolClosed(s))
    ensures forall g' :: g' in s'.gos ==> PointOk(s', s'.gos[g'])
    ensures TenantsOk(s')
  {
    ClosedStays(s, s');
  }

  ghost predicate Move(s: State, g: nat, c: int, h: Home, s': State) {
    && Moved(s, g, c, h, s') && Booked(s, g, c, h, s') && MovedClosing(s, g, c, h, s')
    && (g in s'.gos ==> PointOk(s, s'.gos[g]))
    && (h.TenantChan? && s'.chans[h].retired > s.chans[h].retired ==> SomePoolClosed(s))
  }

  lemma MoveKeeps(s: State, g: nat, c: int, h: Home, s': State)
    requires Inv(s) && Move(s, g, c, h, s')
    ensures Inv(s')
  {
    assert Ownership(s') by {
      MovedQueues(s, g, c, h, s');
      MovedClients(s, g, c, h, s');
      MovedHands(s, g, c, h, s');
      MovedAlone(s, g, c, h, s');
    }
    MovedCounts(s, g, c, h, s');
    MovedClosingOk(s, g, c, h, s');
    MovedRest(s, g, c, h, s');
  }

  // The moves. What a step needs to know is what holds near its goroutine.

  ghost predicate Near(s: State, g: nat, h: Home) {
    && h in s.chans && QueueOk(s, h) && CountOk(s, h)
    && (s.chans[h].queue != [] ==> s.chans[h].queue[0] in s.clients && ClientOk(s, s.chans[h].queue[0]))
    && (g in s.gos ==>
          && s.gos[g].home == h && HandOk(s, g) && PointOk(s, s.gos[g])
          && (s.gos[g].hand.Some? ==>
                var c := s.gos[g].hand.value;
                c in s.clients && ClientOk(s, c) && Owns(s, g, c)
                && (PastTest(s.gos[g].at) && s.chans[h].closed ==> c in s.racing)))
  }

  lemma NearOf(s: State, g: nat, h: Home)
    requires Inv(s) && (if g in s.gos then h == s.gos[g].home else h in s.chans)
    ensures Near(s, g, h)
  {
    assert g in s.gos ==> HandOk(s, g);
    assert QueueOk(s, h);
  }

  lemma StartMoves(s: State, g: nat, h: Home, s': State)
    requires Near(s, g, h) && g !in s.gos && g in s'.gos
    requires s' == s.(gos := s.gos[g := s'.gos[g]]) && s'.gos[g].home == h && s'.gos[g].hand == None
    requires PointOk(s, s'.gos[g]) && !s'.gos[g].at.Dialling?
    ensures Move(s, g, -1, h, s')
  {}

  lemma LoadMoves(s: State, g: nat, h: Home, s': State)
    requires Near(s, g, h) && DoLoad(s, g) == Some(s')
    ensures exists c: int :: Move(s, g, c, h, s')
  {
    assert Move(s, g, if s.gos[g].hand.Some? then s.gos[g].hand.value else -1, h, s');
  }

  lemma CtxDoneMoves(s: State, g: nat, h: Home, s': State)
    requires Near(s, g, h) && DoCtxDone(s, g) == Some(s')
    ensures Move(s, g, -1, h, s')
  {}

  lemma ReceiveMoves(s: State, g: nat, h: Home, s': State)
    requires Near(s, g, h) && DoReceive(s, g) == Some(s')
    ensures Move(s, g, s.chans[h].queue[0], h, s')
  {
    Pop(s.chans[h].queue);
  }

  lemma DialOkMoves(s: State, g: nat, c: nat, h: Home, s': State)
    requires Near(s, g, h) && DoDialOk(s, g, c) == Some(s')
    ensures Move(s, g, c, h, s')
  {}

  lemma DialFailMoves(s: State, g: nat, h: Home, s': State)
    requires Near(s, g, h) && DoDialFail(s, g) == Some(s')
    ensures Move(s, g, -1, h, s')
  {}

  lemma FinishMoves(s: State, g: nat, h: Home, s': State)
    requires Near(s, g, h) && DoFinish(s, g) == Some(s')
    ensures Move(s, g, s.gos[g].hand.value, h, s')
  {}

  lemma TestClosedMoves(s: State, g: nat, h: Home, s': State)
    requires Near(s, g, h) && DoTestClosed(s, g) == Some(s')
    ensures Move(s, g, s.gos[g].hand.value, h, s')
  {}

  lemma PushMoves(s: State, g: nat, h: Home, s': State)
    requires Near(s, g, h) && DoPush(s, g) == Some(s')
    ensures Move(s, g, s.gos[g].hand.value, h, s')
  {
    Append(s.chans[h].queue, s.gos[g].hand.value);
  }

  lemma DrainMoves(s: State, g: nat, h: Home, s': State)
    requires Near(s, g, h) && DoDrain(s, g) == Some(s')
    ensures exists c: int :: Move(s, g, c, h, s')
  {
    if s.gos[g].at.DrainTest? {
      assert Move(s, g, -1, h, s');
    } else {
      Pop(s.chans[h].queue);
      assert Move(s, g, s.chans[h].queue[0], h, s');
    }
  }

  // The steps that are not moves.

  /** A new channel appears, with new clients in it. */
  ghost predicate Opened(s: State, h: Home, s': State) {
    && h !in s.chans && h in s'.chans && s'.chans == s.chans[h := s'.chans[h]]
    && s'.gos == s.gos && s'.racing == s.racing
    && var ch := s'.chans[h];
       && NoDup(ch.queue) && |ch.queue| == ch.created <= ch.cap <= MAX_INT32
       && !ch.closed && ch.retired == ch.moved == 0
       && (h.TenantChan? ==> KnownMode(ch.mode))
       && (forall c :: c in s.clients ==> c !in ch.queue && c in s'.clients && s'.clients[c] == s.clients[c])
       && (forall c :: c in s'.clients ==> c in s.clients || c in ch.queue)
       && (forall c :: c in ch.queue ==>
             c in s'.clients && s'.clients[c].open && s'.clients[c].home == h && h == PoolChan(s'.clients[c].pool))
  }

  lemma OpenedOwnership(s: State, h0: Home, s': State)
    requires Ownership(s) && Opened(s, h0, s')
    ensures Ownership(s')
  {
    forall h | h in s'.chans ensures QueueOk(s', h) { assert h in s.chans ==> QueueOk(s, h); }
    forall g | g in s'.gos ensures HandOk(s', g) { assert HandOk(s, g); }
    forall g1, g2, c | Owns(s', g1, c) && Owns(s', g2, c) ensures g1 == g2 { assert Owns(s, g1, c) && Owns(s, g2, c); }
    forall c | c in s'.clients ensures ClientOk(s', c) {
      if c in s.clients {
        assert ClientOk(s, c);
        assert forall g :: Owns(s, g, c) ==> Owns(s', g, c);
      }
    }
  }

  lemma OpenedCounts(s: State, h0: Home, s': State, h: Home)
    requires Opened(s, h0, s') && h in s'.chans
    requires h != h0 ==> CountOk(s, h)
    requires h == h0 ==> OpenOf(s, h) == {} && DiallersOf(s, h) == {}
    ensures CountOk(s', h)
  {
    assert DiallersOf(s', h) == DiallersOf(s, h);
    if h == h0 {
      CountDistinct(s'.chans[h].queue);
      assert forall c :: c in OpenOf(s', h) && c in s.clients ==> c in OpenOf(s, h);
      assert OpenOf(s', h) == Elements(s'.chans[h].queue);
    } else {
      assert OpenOf(s', h) == OpenOf(s, h);
    }
  }

  lemma SameDrains(s: State, s': State)
    requires s'.gos == s.gos
    ensures forall h :: Draining(s', h) <==> Draining(s, h)
  {
    forall h ensures Draining(s', h) <==> Draining(s, h) {
      assert forall g :: Drains(s', g, h) <==> Drains(s, g, h);
    }
  }

  lemma OpenedClosing(s: State, h0: Home, s': State)
    requires Opened(s, h0, s') && ClosingOk(s)
    requires forall g :: g in s.gos ==> HandOk(s, g)
    ensures ClosingOk(s')
  {
    SameDrains(s, s');
    assert forall g :: g in s.gos ==> HandOk(s, g);
  }

  lemma NothingYet(s: State, h: Home)
    requires Ownership(s) && h !in s.chans
    ensures OpenOf(s, h) == {} && DiallersOf(s, h) == {}
  {
    assert forall c :: c in s.clients ==> ClientOk(s, c);
    assert forall g :: g in s.gos ==> HandOk(s, g);
  }

  lemma OpenedKeeps(s: State, h0: Home, s': State)
    requires Inv(s) && Opened(s, h0, s')
    ensures Inv(s')
  {
    OpenedOwnership(s, h0, s');
    OpenedClosing(s, h0, s');
    NothingYet(s, h0);
    forall h | h in s'.chans ensures CountOk(s', h) { OpenedCounts(s, h0, s', h); }
    ClosedStays(s, s');
  }

  lemma AllocateOwnership(s: State, p: nat, t: nat, s': State)
    requires Ownership(s) && DoAllocate(s, p, t) == Some(s')
    ensures Ownership(s')
  {
    var from, to := PoolChan(p), TenantChan(t);
    var q := s.chans[from].queue;
    var c0 := q[0];
    assert QueueOk(s, from) && QueueOk(s, to) && ClientOk(s, c0);
    Pop(q);
    Append(s.chans[to].queue, c0);
    forall g ensures !Owns(s, g, c0) { assert g in s.gos ==> HandOk(s, g); }
    forall h | h in s'.chans ensures QueueOk(s', h) { assert QueueOk(s, h); }
    forall g | g in s'.gos ensures HandOk(s', g) {
      assert HandOk(s, g);
      assert s.gos[g].hand.Some? ==> Owns(s, g, s.gos[g].hand.value);
    }
    forall g1, g2, c | Owns(s', g1, c) && Owns(s', g2, c) ensures g1 == g2 { assert Owns(s, g1, c) && Owns(s, g2, c); }
    forall c | c in s'.clients ensures ClientOk(s', c) {
      assert ClientOk(s, c);
      assert forall g :: Owns(s, g, c) ==> Owns(s', g, c);
    }
  }

  lemma AllocateCounts(s: State, p: nat, t: nat, s': State, h: Home)
    requires DoAllocate(s, p, t) == Some(s') && h in s.chans && CountOk(s, h)
    requires var c := s.chans[PoolChan(p)].queue[0]; IsOpen(s, c) && s.clients[c].home == PoolChan(p)
    ensures CountOk(s', h)
  {
    CardChange(OpenOf(s, h), OpenOf(s', h), s.chans[PoolChan(p)].queue[0]);
    assert DiallersOf(s', h) == DiallersOf(s, h);
  }

  lemma AllocateClosing(s: State, p: nat, t: nat, s': State)
    requires DoAllocate(s, p, t) == Some(s') && ClosingOk(s) && !s.chans[TenantChan(t)].closed
    requires s.clients[s.chans[PoolChan(p)].queue[0]].home == PoolChan(p)
    ensures ClosingOk(s')
  {
    SameDrains(s, s');
  }

  lemma AllocateKeeps(s: State, p: nat, t: nat, s': State)
    requires Inv(s) && DoAllocate(s, p, t) == Some(s')
    ensures Inv(s')
  {
    assert QueueOk(s, PoolChan(p)) && CountOk(s, TenantChan(t));
    AllocateOwnership(s, p, t, s');
    AllocateClosing(s, p, t, s');
    forall h | h in s'.chans ensures CountOk(s', h) { AllocateCounts(s, p, t, s', h); }
    ClosedStays(s, s');
  }

  /** The clients called racing are home at the closing pool. */
  lemma MidReturnHome(s: State, h: Home, c: nat)
    requires Inv(s) && c in MidReturn(s, h)
    ensures c in s.clients && s.clients[c].home == h
  {
    var g :| g in s.gos && s.gos[g].home == h && s.gos[g].hand == Some(c);
    assert HandOk(s, g);
  }

  lemma ClosePoolClosing(s: State, p: nat, g: nat, s': State)
    requires ClosingOk(s) && DoClosePool(s, p, g) == Some(s') && s' != s
    requires forall c :: c in MidReturn(s, PoolChan(p)) ==> c in s.clients && s.clients[c].home == PoolChan(p)
    requires forall g' :: g' in s.gos ==> PointOk(s, s.gos[g'])
    ensures ClosingOk(s')
  {
    assert Drains(s', g, PoolChan(p));
    forall g' | g' in s'.gos && PastTest(s'.gos[g'].at) && s'.gos[g'].hand.Some?
                && s'.gos[g'].home in s'.chans && s'.chans[s'.gos[g'].home].closed
      ensures s'.gos[g'].hand.value in s'.racing
    {
      assert PointOk(s, s.gos[g']);
    }
    forall h, c | h in s'.chans && s'.chans[h].closed && !Draining(s', h) && c in s'.chans[h].queue
      ensures c in s'.racing
    {
      assert forall g' :: Drains(s, g', h) ==> Drains(s', g', h);
    }
  }

  lemma ClosePoolOwnership(s: State, p: nat, g: nat, s': State)
    requires Ownership(s) && DoClosePool(s, p, g) == Some(s') && s' != s
    ensures Ownership(s')
  {
    forall h | h in s'.chans ensures QueueOk(s', h) { assert QueueOk(s, h); }
    forall g' | g' in s'.gos ensures HandOk(s', g') { assert g' in s.gos ==> HandOk(s, g'); }
    forall g1, g2, c | Owns(s', g1, c) && Owns(s', g2, c) ensures g1 == g2 { assert Owns(s, g1, c) && Owns(s, g2, c); }
    forall c | c in s'.clients ensures ClientOk(s', c) {
      assert ClientOk(s, c);
      assert forall g' :: Owns(s, g', c) ==> Owns(s', g', c);
    }
  }

  lemma ClosePoolKeeps(s: State, p: nat, g: nat, s': State)
    requires Inv(s) && DoClosePool(s, p, g) == Some(s')
    ensures Inv(s')
  {
    if s' != s {
      var h0 := PoolChan(p);
      forall c | c in MidReturn(s, h0) ensures c in s.clients && s.clients[c].home == h0 { MidReturnHome(s, h0, c); }
      ClosePoolClosing(s, p, g, s');
      ClosePoolOwnership(s, p, g, s');
      forall h | h in s'.chans ensures CountOk(s', h) {
        assert CountOk(s, h);
        assert OpenOf(s', h) == OpenOf(s, h) && DiallersOf(s', h) == DiallersOf(s, h);
      }
      forall g' | g' in s'.gos ensures PointOk(s', s'.gos[g']) { assert g' != g ==> PointOk(s, s.gos[g']); }
      assert SomePoolClosed(s') by { assert PoolChan(p) in s'.chans && s'.chans[PoolChan(p)].closed; }
    }
  }

  lemma TickKeeps(s: State, d: nat, s': State)
    requires Inv(s) && DoTick(s, d) == Some(s')
    ensures Inv(s')
  {
    SameDrains(s, s');
    assert forall g, c :: Owns(s', g, c) <==> Owns(s, g, c);
    assert Ownership(s') by {
      forall h | h in s'.chans ensures QueueOk(s', h) { assert QueueOk(s, h); }
      forall g' | g' in s'.gos ensures HandOk(s', g') { assert HandOk(s, g'); }
      forall c | c in s'.clients ensures ClientOk(s', c) { assert ClientOk(s, c); }
    }
    forall h | h in s'.chans ensures CountOk(s', h) {
      assert CountOk(s, h);
      assert OpenOf(s', h) == OpenOf(s, h) && DiallersOf(s', h) == DiallersOf(s, h);
    }
    ClosedStays(s, s');
  }

  predicate GoStep(step: Step) {
    step.Load? || step.CtxDone? || step.Receive? || step.DialOk? || step.DialFail? || step.Finish?
    || step.TestClosed? || step.Push? || step.Drain?
  }

  /** Every step of a goroutine that exists is a move. */
  lemma GoMoves(s: State, step: Step, h: Home, s': State) returns (c: int)
    requires GoStep(step)
    requires Near(s, step.g, h) && Apply(s, step) == Some(s')
    ensures Move(s, step.g, c, h, s')
  {
    match step
    case Load(g) => LoadMoves(s, g, h, s'); c :| Move(s, g, c, h, s');
    case CtxDone(g) => CtxDoneMoves(s, g, h, s'); c := -1;
    case Receive(g) => ReceiveMoves(s, g, h, s'); c := s.chans[h].queue[0];
    case DialOk(g, c0) => DialOkMoves(s, g, c0, h, s'); c := c0;
    case DialFail(g) => DialFailMoves(s, g, h, s'); c := -1;
    case Finish(g) => FinishMoves(s, g, h, s'); c := s.gos[g].hand.value;
    case TestClosed(g) => TestClosedMoves(s, g, h, s'); c := s.gos[g].hand.value;
    case Push(g) => PushMoves(s, g, h, s'); c := s.gos[g].hand.value;
    case Drain(g) => DrainMoves(s, g, h, s'); c :| Move(s, g, c, h, s');
  }

  lemma GoKeeps(s: State, step: Step, s': State)
    requires GoStep(step) && Inv(s) && Apply(s, step) == Some(s')
    ensures Inv(s')
  {
    var h := s.gos[step.g].home;
    NearOf(s, step.g, h);
    var c := GoMoves(s, step, h, s');
    MoveKeeps(s, step.g, c, h, s');
  }

  lemma AcquireKeeps(s: State, g: nat, h: Home, s': State)
    requires Inv(s) && h in s.chans && g !in s.gos && g in s'.gos
    requires s' == s.(gos := s.gos[g := s'.gos[g]]) && s'.gos[g].home == h && s'.gos[g].hand == None
    requires PointOk(s, s'.gos[g]) && !s'.gos[g].at.Dialling?
    ensures Inv(s')
  {
    NearOf(s, g, h);
    StartMoves(s, g, h, s');
    MoveKeeps(s, g, -1, h, s');
  }

  lemma AcquirePoolKeeps(s: State, g: nat, p: nat, s': State)
    requires Inv(s) && DoAcquirePool(s, g, p) == Some(s')
    ensures Inv(s')
  {
    if s' != s { AcquireKeeps(s, g, PoolChan(p), s'); }
  }

  lemma AcquireTenantKeeps(s: State, g: nat, t: nat, s': State)
    requires Inv(s) && DoAcquireTenant(s, g, t) == Some(s')
    ensures Inv(s')
  {
    AcquireKeeps(s, g, TenantChan(t), s');
  }

  lemma CreatePoolKeeps(s: State, p: nat, cap: nat, mode: int, idleDur: int, ids: seq<nat>, s': State)
    requires Inv(s) && DoCreatePool(s, p, cap, mode, idleDur, ids) == Some(s')
    ensures Inv(s')
  {
    OpenedKeeps(s, PoolChan(p), s');
  }

  lemma CreateTenantKeeps(s: State, t: nat, cap: nat, s': State)
    requires Inv(s) && DoCreateTenant(s, t, cap) == Some(s')
    ensures Inv(s')
  {
    OpenedKeeps(s, TenantChan(t), s');
  }

  lemma OtherKeeps(s: State, step: Step, s': State)
    requires !GoStep(step) && Inv(s) && Apply(s, step) == Some(s')
    ensures Inv(s')
  {
    match step
    case CreatePool(p, cap, mode, idleDur, ids) => CreatePoolKeeps(s, p, cap, mode, idleDur, ids, s');
    case CreateTenant(t, cap) => CreateTenantKeeps(s, t, cap, s');
    case Allocate(p, t) => AllocateKeeps(s, p, t, s');
    case ClosePool(p, g) => ClosePoolKeeps(s, p, g, s');
    case Tick(d) => TickKeeps(s, d, s');
    case AcquirePool(g, p) => AcquirePoolKeeps(s, g, p, s');
    case AcquireTenant(g, t) => AcquireTenantKeeps(s, g, t, s');
  }

  /** One step of any goroutine keeps the invariant. */
  lemma StepKeeps(s: State, step: Step, s': State)
    requires Inv(s) && Apply(s, step) == Some(s')
    ensures Inv(s')
  {
    if GoStep(step) { GoKeeps(s, step, s'); } else { OtherKeeps(s, step, s'); }
  }

  /** The invariant holds in every reachable state of every interleaving. */
  lemma {:induction false} RunKeeps(s: State, steps: seq<Step>, s': State)
    requires Inv(s) && Run(s, steps) == Some(s')
    ensures Inv(s')
    decreases |steps|
  {
    if steps != [] {
      var s1 := Apply(s, steps[0]).value;
      StepKeeps(s, steps[0], s1);
      RunKeeps(s1, steps[1..], s');
    }
  }

  lemma InitOk(clock: int)
    ensures Inv(Init(clock))
  {}
}

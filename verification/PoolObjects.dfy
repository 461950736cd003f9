/**
  pool.go as objects: the channel, the client and the pool, with the fields the program updates.

  Each method is one call that no other goroutine interrupts. It is proved against the interleaving
  model: its effect on the objects is that of a run of lifecycle steps, so what holds of every run
  holds of these objects. `s` and `s'` are the model's state before and after the call.
 */
module PoolObjects {
  import opened Wrappers
  import L = Lifecycle
  import LP = LifecycleProof
  import LT = LifecycleTheorems

  class Channel {
    const cap: nat
    var buf: seq<Client>

    constructor (cap: nat)
      ensures this.cap == cap && buf == []
    {
      this.cap := cap;
      buf := [];
    }
  }

  ghost function Ids(buf: seq<Client>): (ids: seq<nat>)
    ensures |ids| == |buf| && forall i :: 0 <= i < |buf| ==> ids[i] == buf[i].id
  {
    seq(|buf|, i requires 0 <= i < |buf| => buf[i].id)
  }

  /** The steps that goroutine g takes in an Acquire of the pool or tenant with channel h, and time that passes. */
  predicate InAcquire(step: L.Step, g: nat, h: L.Home) {
    match step
    case Tick(_) => true
    case AcquirePool(g', p) => g' == g && L.PoolChan(p) == h
    case AcquireTenant(g', t) => g' == g && L.TenantChan(t) == h
    case Load(g') => g' == g
    case CtxDone(g') => g' == g
    case Receive(g') => g' == g
    case DialOk(g', _) => g' == g
    case DialFail(g') => g' == g
    case _ => false
  }

  predicate AllInAcquire(steps: seq<L.Step>, g: nat, h: L.Home) {
    forall i :: 0 <= i < |steps| ==> InAcquire(steps[i], g, h)
  }

  /** A client that a request holds. */
  ghost predicate IsHeld(s: L.State, g: nat, c: nat, h: L.Home) {
    g in s.gos && s.gos[g].at == L.Holding && s.gos[g].hand == Some(c) && s.gos[g].home == h && c in s.clients
  }

  /** A request enters Tenant.Acquire. */
  lemma TenantEnters(s: L.State, g: nat, t: nat) returns (s': L.State)
    requires LT.Reachable(s) && L.TenantChan(t) in s.chans && g !in s.gos
    ensures L.Run(s, [L.AcquireTenant(g, t)]) == Some(s') && LT.Reachable(s')
    ensures AllInAcquire([L.AcquireTenant(g, t)], g, L.TenantChan(t))
    ensures s' == s.(gos := s.gos[g := L.Go(L.Receiving, L.TenantChan(t), None, s.clock, true)])
  {
    s' := L.DoAcquireTenant(s, g, t).value;
    LT.ReachableStep(s, L.AcquireTenant(g, t), s');
  }

  lemma OneMore(s: L.State, steps: seq<L.Step>, s1: L.State, step: L.Step, s2: L.State, g: nat, h: L.Home)
    requires L.Run(s, steps) == Some(s1) && LT.Reachable(s1) && L.Apply(s1, step) == Some(s2)
    requires AllInAcquire(steps, g, h) && InAcquire(step, g, h)
    ensures L.Run(s, steps + [step]) == Some(s2) && LT.Reachable(s2) && AllInAcquire(steps + [step], g, h)
  {
    LT.RunSnoc(s, steps, s1, step, s2);
    LT.ReachableStep(s1, step, s2);
  }

  /** A receive without an idle test. */
  lemma TakeStep(s: L.State, g: nat, h: L.Home) returns (s': L.State)
    requires h in s.chans && s.chans[h].queue != [] && s.chans[h].queue[0] in s.clients
    requires g in s.gos && s.gos[g].at == L.Receiving && s.gos[g].home == h && s.gos[g].ref
    ensures L.Apply(s, L.Receive(g)) == Some(s') && s'.clients == s.clients && s'.clock == s.clock
    ensures var ch := s.chans[h];
            && s'.chans == s.chans[h := ch.(queue := ch.queue[1..])]
            && IsHeld(s', g, ch.queue[0], h)
  {
    s' := L.DoReceive(s, g).value;
  }

  lemma HeadKnown(s: L.State, h: L.Home)
    requires LT.Reachable(s) && h in s.chans && s.chans[h].queue != []
    ensures s.chans[h].queue[0] in s.clients && s.clients[s.chans[h].queue[0]].open
  {
    LT.ReachableInv(s);
    assert LP.QueueOk(s, h) && s.chans[h].queue[0] in s.chans[h].queue;
  }

  /** And receives. */
  lemma TenantTakes(s: L.State, s1: L.State, g: nat, t: nat) returns (s': L.State)
    requires L.Run(s, [L.AcquireTenant(g, t)]) == Some(s1) && LT.Reachable(s1)
    requires L.TenantChan(t) in s1.chans && s1.chans[L.TenantChan(t)].queue != []
    requires g in s1.gos && s1.gos[g].at == L.Receiving && s1.gos[g].home == L.TenantChan(t) && s1.gos[g].ref
    ensures L.Run(s, [L.AcquireTenant(g, t)] + [L.Receive(g)]) == Some(s') && LT.Reachable(s')
    ensures AllInAcquire([L.AcquireTenant(g, t)] + [L.Receive(g)], g, L.TenantChan(t))
    ensures var ch := s1.chans[L.TenantChan(t)];
            && s'.clients == s1.clients && s'.chans == s1.chans[L.TenantChan(t) := ch.(queue := ch.queue[1..])]
            && IsHeld(s', g, ch.queue[0], L.TenantChan(t))
  {
    HeadKnown(s1, L.TenantChan(t));
    s' := TakeStep(s1, g, L.TenantChan(t));
    OneMore(s, [L.AcquireTenant(g, t)], s1, L.Receive(g), s', g, L.TenantChan(t));
  }

  class Tenant {
    ghost const id: nat
    const clients: Channel

    constructor (ghost id: nat, capacity: nat)
      ensures this.id == id && fresh(clients) && clients.cap == capacity && clients.buf == []
    {
      this.id := id;
      clients := new Channel(capacity);
    }

    method Size() returns (n: nat)
      ensures n == |clients.buf|
    {
      n := |clients.buf|;
    }

    method GetConnCurrent() returns (n: int)
      ensures n == clients.cap - |clients.buf|
    {
      var size := Size();
      n := clients.cap - size;
    }

    /** Tenant.Acquire: the head of the channel, with no idle test; null means that the call waits. In the model
        it is goroutine g that then holds this client, and works for this tenant. */
    method Acquire(ghost g: nat, ghost s: L.State)
      returns (client: Client?, ghost steps: seq<L.Step>, ghost s': L.State)
      requires Shows(s) && LT.Reachable(s) && g !in s.gos
      modifies clients
      ensures client == null <==> old(clients.buf) == []
      ensures client != null ==> client == old(clients.buf)[0] && clients.buf == old(clients.buf)[1..]
      ensures client == null ==> clients.buf == old(clients.buf)
      ensures L.Run(s, steps) == Some(s') && LT.Reachable(s') && Shows(s') && s'.clients == s.clients
      ensures AllInAcquire(steps, g, L.TenantChan(id)) && g in s'.gos && s'.gos[g].home == L.TenantChan(id)
      ensures if client == null then s'.gos[g].at == L.Receiving
              else client.id in s.clients && IsHeld(s', g, client.id, L.TenantChan(id))
    {
      ghost var s1 := TenantEnters(s, g, id);
      if |clients.buf| == 0 {
        return null, [L.AcquireTenant(g, id)], s1;
      }
      s' := TenantTakes(s, s1, g, id);
      client := clients.buf[0];
      clients.buf := clients.buf[1..];
      steps := [L.AcquireTenant(g, id)] + [L.Receive(g)];
    }

    /** The model's state s shows this tenant's channel. */
    ghost predicate Shows(s: L.State)
      reads this, clients, clients.buf
    {
      && L.TenantChan(id) in s.chans
      && var k := s.chans[L.TenantChan(id)];
         k.cap == clients.cap && k.mode == L.STRICT_MODE && k.queue == Ids(clients.buf)
    }
  }

  lemma HeldFacts(s: L.State, g: nat, c: nat, h: L.Home)
    requires LT.Reachable(s) && IsHeld(s, g, c, h)
    ensures s.clients[c].open && s.clients[c].home == h && h in s.chans && L.PoolChan(s.clients[c].pool) in s.chans
    ensures h.PoolChan? ==> h == L.PoolChan(s.clients[c].pool)
    ensures h.TenantChan? ==> !s.chans[h].closed
    ensures forall h' :: h' in s.chans ==> c !in s.chans[h'].queue
  {
    LT.ReachableInv(s);
    assert LP.HandOk(s, g) && LP.ClientOk(s, c) && LP.CountOk(s, h);
    forall h' | h' in s.chans ensures c !in s.chans[h'].queue { assert LP.QueueOk(s, h'); }
  }

  /** One more step of a run. */
  lemma Then(s: L.State, steps: seq<L.Step>, s1: L.State, step: L.Step, s2: L.State)
    requires L.Run(s, steps) == Some(s1) && LT.Reachable(s1) && L.Apply(s1, step) == Some(s2)
    ensures L.Run(s, steps + [step]) == Some(s2) && LT.Reachable(s2)
  {
    LT.RunSnoc(s, steps, s1, step, s2);
    LT.ReachableStep(s1, step, s2);
  }

  /** What is known after the IsClose test of Client.Close. */
  ghost predicate AfterTest(s: L.State, g: nat, c: nat, h: L.Home, s': L.State)
    requires IsHeld(s, g, c, h) && h in s.chans && L.PoolChan(s.clients[c].pool) in s.chans
  {
    && s'.clients.Keys == s.clients.Keys && (forall d :: d in s.clients && d != c ==> s'.clients[d] == s.clients[d])
    && if s.chans[L.PoolChan(s.clients[c].pool)].closed then
         && g !in s'.gos && s'.clients[c] == s.clients[c].(open := false, returnedAt := s.clock)
         && s'.chans == s.chans[h := s.chans[h].(retired := s.chans[h].retired + 1)]
       else
         && s'.chans == s.chans && s'.clients[c] == s.clients[c].(returnedAt := s.clock)
         && g in s'.gos && s'.gos[g] == s.gos[g].(at := L.Tested, time := s.clock)
  }

  lemma TestSteps(s: L.State, g: nat, c: nat, h: L.Home) returns (s1: L.State, s': L.State)
    requires IsHeld(s, g, c, h) && s.clients[c].open && h in s.chans && L.PoolChan(s.clients[c].pool) in s.chans
    ensures L.Apply(s, L.Finish(g)) == Some(s1) && L.Apply(s1, L.TestClosed(g)) == Some(s')
    ensures AfterTest(s, g, c, h, s')
  {
    s1 := L.DoFinish(s, g).value;
    s' := L.DoTestClosed(s1, g).value;
  }

  /** The first steps of an uninterrupted Client.Close, up to its IsClose test. */
  lemma TestRun(s: L.State, g: nat, c: nat, h: L.Home) returns (s': L.State)
    requires LT.Reachable(s) && IsHeld(s, g, c, h)
    requires s.clients[c].open && h in s.chans && L.PoolChan(s.clients[c].pool) in s.chans
    ensures L.Run(s, [L.Finish(g), L.TestClosed(g)]) == Some(s') && LT.Reachable(s') && AfterTest(s, g, c, h, s')
  {
    var s1;
    s1, s' := TestSteps(s, g, c, h);
    LT.ReachableStep(s, L.Finish(g), s1);
    Then(s, [L.Finish(g)], s1, L.TestClosed(g), s');
  }

  /** What a send has come to: client c is in the channel h, or goroutine g waits because that is full. */
  ghost predicate Sent(s: L.State, g: nat, c: nat, h: L.Home, s': L.State)
    requires h in s.chans
  {
    if |s.chans[h].queue| < s.chans[h].cap then
      g !in s'.gos && s'.chans == s.chans[h := s.chans[h].(queue := s.chans[h].queue + [c])]
    else
      g in s'.gos && s'.gos[g].at == L.Pushing && s'.gos[g].hand == Some(c) && s'.chans == s.chans
  }

  /** A held client has room to go back to. */
  lemma RoomFor(s: L.State, g: nat, c: nat, h: L.Home)
    requires LT.Reachable(s) && IsHeld(s, g, c, h) && h in s.chans
    ensures LP.KnownMode(s.chans[h].mode) ==> |s.chans[h].queue| < s.chans[h].cap
  {
    if LP.KnownMode(s.chans[h].mode) {
      LT.ReachableInv(s);
      LT.HasRoom(s, g);
    }
  }

  /** Client.Close stamps the client and evaluates the channel. */
  lemma LoadStep(s: L.State, g: nat, c: nat, h: L.Home) returns (s': L.State)
    requires g in s.gos && s.gos[g].at == L.Tested && s.gos[g].hand == Some(c) && s.gos[g].home == h
    requires c in s.clients && s.clients[c].open && h in s.chans && !s.chans[h].closed
    ensures L.Apply(s, L.Load(g)) == Some(s') && s'.chans == s.chans
    ensures s'.clients == s.clients[c := s.clients[c].(timeUsed := s.gos[g].time)]
    ensures g in s'.gos && s'.gos[g] == s.gos[g].(at := L.Pushing)
  {
    s' := L.DoLoad(s, g).value;
  }

  /** The steps of an uninterrupted Client.Close after a negative test: load, stamp and send. */
  lemma SendRun(s: L.State, g: nat, c: nat, h: L.Home) returns (steps: seq<L.Step>, s': L.State)
    requires LT.Reachable(s) && g in s.gos && s.gos[g].at == L.Tested && s.gos[g].hand == Some(c) && s.gos[g].home == h
    requires c in s.clients && s.clients[c].open && h in s.chans && !s.chans[h].closed
    ensures L.Run(s, steps) == Some(s') && LT.Reachable(s') && Sent(s, g, c, h, s')
    ensures s'.clients == s.clients[c := s.clients[c].(timeUsed := s.gos[g].time)]
  {
    s' := LoadStep(s, g, c, h);
    steps := [L.Load(g)];
    LT.ReachableStep(s, L.Load(g), s');
    if |s.chans[h].queue| < s.chans[h].cap {
      var s1 := s';
      s' := L.DoPush(s1, g).value;
      Then(s, steps, s1, L.Push(g), s');
      steps := steps + [L.Push(g)];
    }
  }

  /** The whole of an uninterrupted Client.Close to an open pool. */
  lemma BackRun(s: L.State, g: nat, c: nat, h: L.Home) returns (steps: seq<L.Step>, s': L.State)
    requires LT.Reachable(s) && IsHeld(s, g, c, h) && h in s.chans && !s.chans[h].closed && s.clients[c].open
    requires L.PoolChan(s.clients[c].pool) in s.chans && !s.chans[L.PoolChan(s.clients[c].pool)].closed
    ensures L.Run(s, steps) == Some(s') && Sent(s, g, c, h, s')
    ensures s'.clients.Keys == s.clients.Keys && forall d :: d in s.clients && d != c ==> s'.clients[d] == s.clients[d]
    ensures s'.clients[c] == s.clients[c].(timeUsed := s.clock, returnedAt := s.clock)
  {
    var s1 := TestRun(s, g, c, h);
    steps, s' := SendRun(s1, g, c, h);
    LT.RunAppend(s, [L.Finish(g), L.TestClosed(g)], steps);
    steps := [L.Finish(g), L.TestClosed(g)] + steps;
  }

  /** StillSending: the buffer is full and the goroutine waits in its send. */
  datatype Returned = WasDestroyed | WentBack | StillSending

  /** `open` says that ClientConn is not nil. */
  class Client {
    ghost const id: nat
    var open: bool
    var timeUsed: int
    const timeInit: int
    var pool: Pool?
    var tenant: Tenant?

    constructor (ghost id: nat, pool: Pool, now: int)
      ensures this.id == id && open && timeUsed == timeInit == now && this.pool == pool && tenant == null
    {
      this.id := id;
      open, timeUsed, timeInit, this.pool, tenant := true, now, now, pool, null;
    }

    /** Destory */
    method Destroy()
      modifies this
      ensures !open && pool == null && timeUsed == old(timeUsed) && tenant == old(tenant)
    {
      open := false;
      pool := null;
    }

    ghost function TenantBuf(): seq<Client>
      reads this, tenant, if tenant == null then {} else {tenant.clients}
    {
      if tenant == null then [] else tenant.clients.buf
    }

    lemma NotQueued(owner: Pool, ch: Channel, s: L.State)
      requires owner.Shows(s, ch) && id !in s.chans[L.PoolChan(owner.id)].queue
      ensures forall i :: 0 <= i < |ch.buf| ==> ch.buf[i] != this && ch.buf[i].id != id
    {
      forall i | 0 <= i < |ch.buf| ensures ch.buf[i] != this && ch.buf[i].id != id {
        assert Ids(ch.buf)[i] in Ids(ch.buf);
      }
    }

    /** The stamp and the send. */
    method Send(now: int, ghost g: nat, ghost owner: Pool, ghost ch: Channel, ghost s: L.State, ghost s': L.State)
      returns (sent: bool)
      requires open && Agrees(s, owner) && owner.Shows(s, ch) && owner.clients == ch
      requires tenant != null ==> tenant.Shows(s) && tenant.clients != ch && |tenant.clients.buf| < tenant.clients.cap
      requires forall i :: 0 <= i < |ch.buf| ==> ch.buf[i] != this && ch.buf[i].id != id
      requires Sent(s, g, id, if tenant == null then L.PoolChan(owner.id) else L.TenantChan(tenant.id), s')
      requires s'.clients.Keys == s.clients.Keys
      requires (forall d :: d in s.clients && d != id ==> s'.clients[d] == s.clients[d])
      requires s'.clients[id].open && s'.clients[id].timeUsed == now
               && s'.clients[id].pool == s.clients[id].pool && s'.clients[id].home == s.clients[id].home
      modifies this, ch`buf, if tenant == null then {} else {tenant.clients}
      ensures sent == !(tenant == null && |old(ch.buf)| >= ch.cap)
      ensures tenant == old(tenant) && open && timeUsed == now && pool == old(pool)
      ensures ch.buf == old(ch.buf) + (if sent && tenant == null then [this] else [])
      ensures TenantBuf() == old(TenantBuf()) + (if sent && tenant != null then [this] else [])
      ensures Agrees(s', owner) && owner.Shows(s', ch) && (tenant != null ==> tenant.Shows(s'))
    {
      var p := pool;
      timeUsed := now;
      sent := true;
      if tenant != null {
        tenant.clients.buf := tenant.clients.buf + [this];
      } else if |p.clients.buf| < p.clients.cap {
        p.clients.buf := p.clients.buf + [this];
      } else {
        sent := false;
      }
    }

    /** Client.Close, of a client that goroutine g holds: destroyed when its pool is closed, else stamped
        and sent to the channel of its tenant or pool. The send waits exactly when the buffer is full, which happens
        to no tenant, and to no pool of a documented mode. */
    method Close(now: int, ghost g: nat, ghost owner: Pool, ghost ch: Channel, ghost s: L.State)
      returns (how: Returned, ghost steps: seq<L.Step>, ghost s': L.State)
      requires open && Agrees(s, owner) && owner.Shows(s, ch) && LT.Reachable(s) && s.clock == now
      requires IsHeld(s, g, id, if tenant == null then L.PoolChan(owner.id) else L.TenantChan(tenant.id))
      requires tenant != null ==> tenant.Shows(s) && tenant.clients != ch
      modifies this, ch`buf, if tenant == null then {} else {tenant.clients}
      ensures how == if owner.clients == null then WasDestroyed
                     else if old(tenant == null && |ch.buf| >= ch.cap) then StillSending else WentBack
      ensures LP.KnownMode(owner.mode) ==> how != StillSending
      ensures tenant == old(tenant) && if how == WasDestroyed then !open && pool == null else open && timeUsed == now
      ensures ch.buf == old(ch.buf) + (if how == WentBack && tenant == null then [this] else [])
      ensures TenantBuf() == old(TenantBuf()) + (if how == WentBack && tenant != null then [this] else [])
      ensures Agrees(s', owner) && owner.Shows(s', ch) && (tenant != null ==> tenant.Shows(s'))
      ensures L.Run(s, steps) == Some(s')
      ensures if how == StillSending then g in s'.gos && s'.gos[g].at == L.Pushing && s'.gos[g].hand == Some(id)
              else g !in s'.gos
    {
      ghost var h := if tenant == null then L.PoolChan(owner.id) else L.TenantChan(tenant.id);
      HeldFacts(s, g, id, h);
      NotQueued(owner, ch, s);
      var p := pool;
      var closed := p.IsClose();
      if closed {
        s' := TestRun(s, g, id, h);
        Destroy();
        return WasDestroyed, [L.Finish(g), L.TestClosed(g)], s';
      }
      RoomFor(s, g, id, h);
      steps, s' := BackRun(s, g, id, h);
      var sent := Send(now, g, owner, ch, s, s');
      how := if sent then WentBack else StillSending;
    }

    /** The record the model keeps of this client. */
    ghost predicate Agrees(s: L.State, owner: Pool)
      reads this
    {
      && id in s.clients
      && var r := s.clients[id];
         && r.open == open && r.timeUsed == timeUsed && r.pool == owner.id
         && (open ==> pool == owner)
         && r.home == (if tenant == null then L.PoolChan(owner.id) else L.TenantChan(tenant.id))
    }
  }

  lemma OnAndOn(s: L.State, steps: seq<L.Step>, s1: L.State, more: seq<L.Step>, s2: L.State, g: nat, h: L.Home)
    requires L.Run(s, steps) == Some(s1) && L.Run(s1, more) == Some(s2)
    requires AllInAcquire(steps, g, h) && AllInAcquire(more, g, h)
    ensures L.Run(s, steps + more) == Some(s2) && AllInAcquire(steps + more, g, h)
  {
    LT.RunAppend(s, steps, more);
  }

  /** Outside channel h nothing has changed: the other channels, and the open clients at home there. */
  ghost predicate SameElsewhere(s: L.State, s': L.State, h: L.Home) {
    && (forall h' :: h' in s.chans && h' != h ==> h' in s'.chans && s'.chans[h'] == s.chans[h'])
    && (forall c :: c in s.clients && s.clients[c].open && s.clients[c].home != h ==>
          c in s'.clients && s'.clients[c] == s.clients[c])
  }

  lemma MoveElsewhere(s: L.State, g: nat, c: int, h: L.Home, s': L.State)
    requires LP.Move(s, g, c, h, s')
    ensures SameElsewhere(s, s', h) && (g in s'.gos ==> s'.gos[g].home == h)
  {}

  lemma AcquireStepElsewhere(s: L.State, step: L.Step, s': L.State, g: nat, h: L.Home)
    requires LP.Inv(s) && L.Apply(s, step) == Some(s') && InAcquire(step, g, h) && (g in s.gos ==> s.gos[g].home == h)
    ensures SameElsewhere(s, s', h) && (g in s'.gos ==> s'.gos[g].home == h)
  {
    if LP.GoStep(step) {
      LP.NearOf(s, g, h);
      var c := LP.GoMoves(s, step, h, s');
      MoveElsewhere(s, g, c, h, s');
    }
  }

  /** An Acquire touches nothing but its own channel. */
  lemma {:induction false} AcquireElsewhere(s: L.State, steps: seq<L.Step>, s': L.State, g: nat, h: L.Home)
    requires LP.Inv(s) && L.Run(s, steps) == Some(s') && AllInAcquire(steps, g, h)
    requires (g in s.gos ==> s.gos[g].home == h)
    ensures SameElsewhere(s, s', h)
    decreases |steps|
  {
    if steps != [] {
      var s1 := L.Apply(s, steps[0]).value;
      assert InAcquire(steps[0], g, h);
      AcquireStepElsewhere(s, steps[0], s1, g, h);
      LP.StepKeeps(s, steps[0], s1);
      AcquireElsewhere(s1, steps[1..], s', g, h);
    }
  }

  lemma RunElsewhere(s: L.State, steps: seq<L.Step>, s': L.State, g: nat, h: L.Home)
    requires LT.Reachable(s) && g !in s.gos && L.Run(s, steps) == Some(s') && AllInAcquire(steps, g, h)
    ensures SameElsewhere(s, s', h) && LT.Reachable(s')
  {
    LT.ReachableInv(s);
    AcquireElsewhere(s, steps, s', g, h);
    LT.ReachableRun(s, steps, s');
  }

  lemma QueueHomes(s: L.State, h: L.Home)
    requires LT.Reachable(s) && h in s.chans
    ensures forall c :: c in s.chans[h].queue ==> c in s.clients && s.clients[c].open && s.clients[c].home == h
  {
    LT.ReachableInv(s);
    assert LP.QueueOk(s, h);
  }

  /** The clients in the channel of a pool are at home there. */
  lemma HomeInQueue(s: L.State, pool: Pool, ch: Channel)
    requires LT.Reachable(s) && pool.Shows(s, ch)
    ensures forall c :: c in ch.buf ==> c.id in s.clients && s.clients[c.id].home == L.PoolChan(pool.id)
  {
    QueueHomes(s, L.PoolChan(pool.id));
    forall c | c in ch.buf ensures c.id in s.clients && s.clients[c.id].home == L.PoolChan(pool.id) {
      var i :| 0 <= i < |ch.buf| && ch.buf[i] == c;
      assert Ids(ch.buf)[i] in Ids(ch.buf);
    }
  }

  /** The arm of the select that becomes ready. */
  datatype Arm = CtxDone | FromPool

  datatype Outcome = PoolClosed | NilClient | Got(client: Client) | DialFailed | Waiting

  class Pool {
    ghost const id: nat
    const capacity: nat
    const idleDur: int
    const mode: int
    var clients: Channel?
    var status: bool
    ghost const channel: Channel // the channel the pool was made with

    constructor (ghost id: nat, size: nat, idleDur: int, mode: int)
      ensures this.id == id && capacity == size && this.idleDur == idleDur && this.mode == mode && status
      ensures clients == channel && fresh(channel) && channel.cap == size && channel.buf == []
    {
      this.id := id;
      capacity, this.idleDur, this.mode := size, idleDur, mode;
      var ch := new Channel(size);
      clients, channel := ch, ch;
      status := true;
    }

    /** The model's state s shows this pool, whose channel object is ch. */
    ghost predicate Shows(s: L.State, ch: Channel)
      reads this, ch, ch.buf
    {
      && L.PoolChan(id) in s.chans
      && var k := s.chans[L.PoolChan(id)];
         && k.cap == capacity == ch.cap && k.mode == mode && k.idleDur == idleDur
         && k.closed == (clients == null) && (clients != null ==> clients == ch)
         && k.queue == Ids(ch.buf)
         && forall i :: 0 <= i < |ch.buf| ==> ch.buf[i].Agrees(s, this)
    }

    method IsClose() returns (closed: bool)
      ensures closed == (clients == null)
    {
      closed := clients == null;
    }

    method Size() returns (n: nat)
      ensures n == if clients == null then 0 else |clients.buf|
    {
      n := if clients == null then 0 else |clients.buf|;
    }

    method GetConnCurrent() returns (n: int)
      ensures n == capacity - (if clients == null then 0 else |clients.buf|)
    {
      var size := Size();
      n := capacity - size;
    }

    /** The head of the channel is not a second time in it. */
    lemma HeadIsAlone(s: L.State, ch: Channel)
      requires Shows(s, ch) && LP.QueueOk(s, L.PoolChan(id)) && ch.buf != []
      ensures forall i :: 1 <= i < |ch.buf| ==> ch.buf[i] != ch.buf[0] && ch.buf[i].id != ch.buf[0].id
    {
      assert L.NoDup(Ids(ch.buf));
      forall i | 1 <= i < |ch.buf| ensures ch.buf[i] != ch.buf[0] && ch.buf[i].id != ch.buf[0].id {
        assert Ids(ch.buf)[i] != Ids(ch.buf)[0];
      }
    }

    /** The receive of the select, with its idle test: the client at the head is reused or destroyed. */
    method TakeTested(began: int, ghost g: nat, ghost s: L.State, ghost ch: Channel)
      returns (client: Client, reused: bool, ghost s': L.State)
      requires Shows(s, ch) && LP.Near(s, g, L.PoolChan(id)) && clients != null && ch.buf != []
      requires g in s.gos && s.gos[g] == L.Go(L.Selecting, L.PoolChan(id), None, began, true)
      modifies ch, ch.buf[0]
      ensures client == old(ch.buf)[0] && ch.buf == old(ch.buf)[1..]
      ensures reused == L.IsFresh(idleDur, old(ch.buf[0].timeUsed), began)
      ensures L.Apply(s, L.Receive(g)) == Some(s') && Shows(s', ch) && s'.clock == s.clock
      ensures s'.clients.Keys == s.clients.Keys
      ensures g in s'.gos && s'.gos[g].home == L.PoolChan(id)
      ensures if reused then client.Agrees(s', this) && client.timeUsed == began && s'.gos[g].at == L.Holding
                             && s'.gos[g].hand == Some(client.id)
              else !client.open && s'.gos[g].at == L.Dialling
    {
      client := clients.buf[0];
      s' := L.DoReceive(s, g).value;
      HeadIsAlone(s, ch);
      clients.buf := clients.buf[1..];
      reused := idleDur > 0 && client.timeUsed + idleDur > began;
      if reused {
        client.timeUsed := began;
      } else {
        client.Destroy();
      }
    }

    // The steps that touch no object.

    static lemma NearPool(s: L.State, g: nat, p: nat)
      requires LT.Reachable(s) && L.PoolChan(p) in s.chans && (g in s.gos ==> s.gos[g].home == L.PoolChan(p))
      ensures LP.Near(s, g, L.PoolChan(p))
    {
      LT.ReachableInv(s);
      LP.NearOf(s, g, L.PoolChan(p));
    }

    lemma SameShows(s: L.State, s': L.State, ch: Channel)
      requires Shows(s, ch) && s'.chans == s.chans && s'.clients == s.clients
      ensures Shows(s', ch)
    {}

    /** The goroutine g of the call, waiting in the select. */
    ghost predicate InSelect(began: int, g: nat, s: L.State, ch: Channel)
      reads this, ch, ch.buf
    {
      && Shows(s, ch) && clients != null && g in s.gos
      && s.gos[g] == L.Go(L.Selecting, L.PoolChan(id), None, began, true)
    }

    /** The goroutine g of the call, about to dial. */
    ghost predicate AtDial(g: nat, s: L.State, ch: Channel)
      reads this, ch, ch.buf
    {
      Shows(s, ch) && g in s.gos && s.gos[g].at == L.Dialling && s.gos[g].home == L.PoolChan(id)
    }

    /** What an outcome of Acquire says about the goroutine of the call. */
    ghost predicate OutcomeShown(r: Outcome, g: nat, s: L.State)
      reads if r.Got? then {r.client} else {}
    {
      match r
      case PoolClosed => g !in s.gos
      case NilClient => g !in s.gos
      case DialFailed => g !in s.gos
      case Waiting => g in s.gos && (s.gos[g].at == L.Selecting || s.gos[g].at == L.Receiving)
      case Got(c) =>
        c.Agrees(s, this) && c.open && g in s.gos && s.gos[g].at == L.Holding && s.gos[g].hand == Some(c.id)
    }

    /** A goroutine enters Acquire and evaluates the operand of its select. */
    static lemma Enters(s: L.State, g: nat, p: nat) returns (s': L.State)
      requires LT.Reachable(s) && L.PoolChan(p) in s.chans && !s.chans[L.PoolChan(p)].closed && g !in s.gos
      ensures L.Run(s, [L.AcquirePool(g, p), L.Load(g)]) == Some(s') && LT.Reachable(s')
      ensures AllInAcquire([L.AcquirePool(g, p), L.Load(g)], g, L.PoolChan(p))
      ensures s'.chans == s.chans && s'.clients == s.clients && s'.clock == s.clock
      ensures g in s'.gos && s'.gos[g] == L.Go(L.Selecting, L.PoolChan(p), None, s.clock, true)
    {
      var s1 := L.DoAcquirePool(s, g, p).value;
      s' := L.DoLoad(s1, g).value;
      LT.ReachableStep(s, L.AcquirePool(g, p), s1);
      Then(s, [L.AcquirePool(g, p)], s1, L.Load(g), s');
    }

    /** LOOSE_MODE after ctx.Done: pool.clients is evaluated again. */
    static lemma Reloads(s: L.State, g: nat, p: nat) returns (s': L.State)
      requires LT.Reachable(s) && L.PoolChan(p) in s.chans && !s.chans[L.PoolChan(p)].closed
      requires s.chans[L.PoolChan(p)].mode == L.LOOSE_MODE
      requires g in s.gos && s.gos[g].at == L.Selecting && s.gos[g].home == L.PoolChan(p)
      ensures L.Run(s, [L.CtxDone(g), L.Load(g)]) == Some(s') && LT.Reachable(s')
      ensures AllInAcquire([L.CtxDone(g), L.Load(g)], g, L.PoolChan(p))
      ensures s'.chans == s.chans && s'.clients == s.clients && s'.clock == s.clock
      ensures g in s'.gos && s'.gos[g].at == L.Receiving && s'.gos[g].home == L.PoolChan(p) && s'.gos[g].ref
    {
      var s1 := L.DoCtxDone(s, g).value;
      assert !L.OverflowGuard(s.chans[L.PoolChan(p)]);
      s' := L.DoLoad(s1, g).value;
      LT.ReachableStep(s, L.CtxDone(g), s1);
      Then(s, [L.CtxDone(g)], s1, L.Load(g), s');
    }

    /** The guard of the branch that would make an extra client: it never lets anybody in. */
    method OverflowGuard()
    {
      var current := GetConnCurrent();
      if current > capacity && current <= 5 * capacity {
        assert false;
      }
    }

    /** LOOSE_MODE: the receive after that, if there is a client. */
    static lemma LooseRun(s: L.State, g: nat, p: nat) returns (steps: seq<L.Step>, s': L.State)
      requires LT.Reachable(s) && L.PoolChan(p) in s.chans && !s.chans[L.PoolChan(p)].closed
      requires s.chans[L.PoolChan(p)].mode == L.LOOSE_MODE
      requires g in s.gos && s.gos[g].at == L.Selecting && s.gos[g].home == L.PoolChan(p)
      ensures L.Run(s, steps) == Some(s') && LT.Reachable(s') && AllInAcquire(steps, g, L.PoolChan(p))
      ensures s'.clock == s.clock && s'.clients == s.clients && g in s'.gos
      ensures var ch := s.chans[L.PoolChan(p)];
              if ch.queue == [] then s'.chans == s.chans && s'.gos[g].at == L.Receiving
              else
                && s'.chans == s.chans[L.PoolChan(p) := ch.(queue := ch.queue[1..])]
                && s'.gos[g].at == L.Holding && s'.gos[g].hand == Some(ch.queue[0])
                && ch.queue[0] in s.clients && s.clients[ch.queue[0]].open
    {
      s' := Reloads(s, g, p);
      steps := [L.CtxDone(g), L.Load(g)];
      if s.chans[L.PoolChan(p)].queue != [] {
        var s1 := s';
        HeadKnown(s1, L.PoolChan(p));
        s' := TakeStep(s1, g, L.PoolChan(p));
        OneMore(s, steps, s1, L.Receive(g), s', g, L.PoolChan(p));
        steps := steps + [L.Receive(g)];
      }
    }

    /** The ctx.Done arm in LOOSE_MODE: the overflow guard, and a receive without the idle test. */
    method OnLoose(ghost began: int, ghost g: nat, ghost s: L.State, ghost ch: Channel)
      returns (r: Outcome, ghost steps: seq<L.Step>, ghost s': L.State)
      requires InSelect(began, g, s, ch) && LT.Reachable(s) && mode == L.LOOSE_MODE
      modifies ch
      ensures L.Run(s, steps) == Some(s') && LT.Reachable(s') && Shows(s', ch)
      ensures AllInAcquire(steps, g, L.PoolChan(id)) && s'.clock == s.clock && s'.clients == s.clients
      ensures r == if old(ch.buf) == [] then Waiting else Got(old(ch.buf)[0])
      ensures ch.buf == if old(ch.buf) == [] then [] else old(ch.buf)[1..]
      ensures OutcomeShown(r, g, s')
    {
      OverflowGuard();
      steps, s' := LooseRun(s, g, id);
      if |clients.buf| == 0 {
        return Waiting, steps, s';
      }
      var client := clients.buf[0];
      clients.buf := clients.buf[1..];
      r := Got(client);
    }

    /** The ctx.Done arm in another mode: the call ends or goes on to dial. */
    static lemma CtxDoneRun(s: L.State, g: nat, h: L.Home) returns (s': L.State)
      requires LT.Reachable(s) && h in s.chans && s.chans[h].mode != L.LOOSE_MODE
      requires g in s.gos && s.gos[g].at == L.Selecting && s.gos[g].home == h
      ensures L.Run(s, [L.CtxDone(g)]) == Some(s') && LT.Reachable(s')
      ensures s'.chans == s.chans && s'.clients == s.clients && s'.clock == s.clock
      ensures if s.chans[h].mode == L.STRICT_MODE then g !in s'.gos
              else g in s'.gos && s'.gos[g].at == L.Dialling && s'.gos[g].home == h
    {
      s' := L.DoCtxDone(s, g).value;
      LT.ReachableStep(s, L.CtxDone(g), s');
    }

    /** The ctx.Done arm; None when the call goes on to dial. */
    method OnCtxDone(ghost began: int, ghost g: nat, ghost s: L.State, ghost ch: Channel)
      returns (r: Option<Outcome>, ghost steps: seq<L.Step>, ghost s': L.State)
      requires InSelect(began, g, s, ch) && LT.Reachable(s)
      modifies ch
      ensures L.Run(s, steps) == Some(s') && LT.Reachable(s') && Shows(s', ch)
      ensures AllInAcquire(steps, g, L.PoolChan(id))
      ensures s'.clock == s.clock && s'.clients == s.clients
      ensures if mode == L.STRICT_MODE then r == Some(NilClient)
              else if mode == L.LOOSE_MODE then r == Some(if old(ch.buf) == [] then Waiting else Got(old(ch.buf)[0]))
              else r == None
      ensures ch.buf == if mode == L.LOOSE_MODE && old(ch.buf) != [] then old(ch.buf)[1..] else old(ch.buf)
      ensures if r.Some? then OutcomeShown(r.value, g, s') else AtDial(g, s', ch)
    {
      r := None;
      if mode == L.LOOSE_MODE {
        var outcome;
        outcome, steps, s' := OnLoose(began, g, s, ch);
        r := Some(outcome);
      } else {
        steps := [L.CtxDone(g)];
        s' := CtxDoneRun(s, g, L.PoolChan(id));
        SameShows(s, s', ch);
        if mode == L.STRICT_MODE {
          r := Some(NilClient);
        }
      }
    }

    /** The receiving arm; None when the head was too long idle and the call goes on to dial. */
    method OnReceive(began: int, ghost g: nat, ghost s: L.State, ghost ch: Channel)
      returns (r: Option<Outcome>, ghost steps: seq<L.Step>, ghost s': L.State)
      requires InSelect(began, g, s, ch) && LT.Reachable(s)
      modifies ch, ch.buf
      ensures L.Run(s, steps) == Some(s') && LT.Reachable(s') && Shows(s', ch)
      ensures AllInAcquire(steps, g, L.PoolChan(id))
      ensures s'.clock == s.clock && s'.clients.Keys == s.clients.Keys
      ensures if old(ch.buf) == [] then r == Some(Waiting) && ch.buf == []
              else && ch.buf == old(ch.buf)[1..]
                   && (if L.IsFresh(idleDur, old(ch.buf[0].timeUsed), began)
                       then r == Some(Got(old(ch.buf)[0])) && old(ch.buf)[0].timeUsed == began
                       else r == None && !old(ch.buf)[0].open)
      ensures if r.Some? then OutcomeShown(r.value, g, s') else AtDial(g, s', ch)
    {
      if |clients.buf| == 0 {
        return Some(Waiting), [], s;
      }
      NearPool(s, g, id);
      var client, reused;
      client, reused, s' := TakeTested(began, g, s, ch);
      LT.ReachableStep(s, L.Receive(g), s');
      steps := [L.Receive(g)];
      r := if reused then Some(Got(client)) else None;
    }

    /** Time passes. */
    static lemma Ticks(s: L.State, d: nat) returns (s': L.State)
      requires LT.Reachable(s)
      ensures L.Run(s, [L.Tick(d)]) == Some(s') && LT.Reachable(s')
      ensures s'.chans == s.chans && s'.clients == s.clients && s'.gos == s.gos && s'.clock == s.clock + d
    {
      s' := L.DoTick(s, d).value;
      LT.ReachableStep(s, L.Tick(d), s');
    }

    static lemma DialOkStep(s: L.State, g: nat, newId: nat, p: nat) returns (s': L.State)
      requires g in s.gos && s.gos[g].at == L.Dialling && s.gos[g].home == L.PoolChan(p) && newId !in s.clients
      ensures L.Apply(s, L.DialOk(g, newId)) == Some(s') && s'.chans == s.chans
      ensures g in s'.gos && s'.gos[g].at == L.Holding && s'.gos[g].hand == Some(newId)
      ensures s'.clients == s.clients[newId := L.Client(true, p, L.PoolChan(p), s.clock, s.clock)]
    {
      s' := L.DoDialOk(s, g, newId).value;
    }

    static lemma DialFailStep(s: L.State, g: nat, p: nat) returns (s': L.State)
      requires g in s.gos && s.gos[g].at == L.Dialling && s.gos[g].home == L.PoolChan(p) && L.PoolChan(p) in s.chans
      ensures L.Apply(s, L.DialFail(g)) == Some(s') && g !in s'.gos && s'.clients == s.clients
      ensures var ch := s.chans[L.PoolChan(p)]; s'.chans == s.chans[L.PoolChan(p) := ch.(retired := ch.retired + 1)]
    {
      s' := L.DoDialFail(s, g).value;
    }

    /** Time passes, and then goroutine g dials. */
    static lemma DialsOk(s: L.State, d: nat, g: nat, newId: nat, p: nat) returns (steps: seq<L.Step>, s': L.State)
      requires LT.Reachable(s) && g in s.gos && s.gos[g].at == L.Dialling && s.gos[g].home == L.PoolChan(p)
      requires newId !in s.clients
      ensures L.Run(s, steps) == Some(s') && LT.Reachable(s') && AllInAcquire(steps, g, L.PoolChan(p))
      ensures s'.chans == s.chans && g in s'.gos && s'.gos[g].at == L.Holding && s'.gos[g].hand == Some(newId)
      ensures s'.clients == s.clients[newId := L.Client(true, p, L.PoolChan(p), s.clock + d, s.clock + d)]
    {
      var s1 := Ticks(s, d);
      s' := DialOkStep(s1, g, newId, p);
      OneMore(s, [L.Tick(d)], s1, L.DialOk(g, newId), s', g, L.PoolChan(p));
      steps := [L.Tick(d)] + [L.DialOk(g, newId)];
    }

    static lemma DialsInVain(s: L.State, d: nat, g: nat, p: nat) returns (steps: seq<L.Step>, s': L.State)
      requires LT.Reachable(s) && g in s.gos && s.gos[g].at == L.Dialling && s.gos[g].home == L.PoolChan(p)
      requires L.PoolChan(p) in s.chans
      ensures L.Run(s, steps) == Some(s') && LT.Reachable(s') && AllInAcquire(steps, g, L.PoolChan(p))
      ensures g !in s'.gos && s'.clients == s.clients
      ensures var ch := s.chans[L.PoolChan(p)]; s'.chans == s.chans[L.PoolChan(p) := ch.(retired := ch.retired + 1)]
    {
      var s1 := Ticks(s, d);
      s' := DialFailStep(s1, g, p);
      OneMore(s, [L.Tick(d)], s1, L.DialFail(g), s', g, L.PoolChan(p));
      steps := [L.Tick(d)] + [L.DialFail(g)];
    }

    /** The end of Acquire: a replacement is dialled at a later time. */
    method Dial(later: int, dial: bool, ghost g: nat, ghost newId: nat, ghost s: L.State, ghost ch: Channel)
      returns (r: Outcome, ghost steps: seq<L.Step>, ghost s': L.State)
      requires AtDial(g, s, ch) && LT.Reachable(s) && s.clock <= later && newId !in s.clients
      ensures L.Run(s, steps) == Some(s') && LT.Reachable(s') && Shows(s', ch)
      ensures AllInAcquire(steps, g, L.PoolChan(id))
      ensures if dial then r.Got? && fresh(r.client) && r.client.timeInit == later else r == DialFailed
      ensures OutcomeShown(r, g, s')
    {
      if dial {
        steps, s' := DialsOk(s, later - s.clock, g, newId, id);
        var client := new Client(newId, this, later);
        r := Got(client);
      } else {
        steps, s' := DialsInVain(s, later - s.clock, g, id);
        r := DialFailed;
      }
    }

    /** What a call of Acquire leaves in the channel, given what it held and whether it was nil. */
    function Left(arm: Arm, before: seq<Client>, wasNil: bool): seq<Client> {
      if wasNil || before == [] || (arm == CtxDone && mode != L.LOOSE_MODE) then before else before[1..]
    }

    /** What a call of Acquire answers, given what the channel held and whether it was nil. */
    ghost predicate Answers(arm: Arm, began: int, dial: bool, before: seq<Client>, headUsed: int, wasNil: bool,
                            r: Outcome)
    {
      if wasNil then r == PoolClosed
      else if arm == CtxDone && mode == L.STRICT_MODE then r == NilClient
      else if arm == CtxDone && mode == L.LOOSE_MODE then r == if before == [] then Waiting else Got(before[0])
      else if arm == FromPool && before == [] then r == Waiting
      else if arm == FromPool && L.IsFresh(idleDur, headUsed, began) then r == Got(before[0])
      else if dial then r.Got? && r.client !in before else r == DialFailed
    }

    /** Acquire. `arm` is the arm of the select that becomes ready, `later` the time of a new connection,
        `dial` whether the factory succeeds; an outcome of Waiting means that the call has not returned.
        The effect is that of a run of the lifecycle by one goroutine g, which ends up holding the client
        returned, gone when none is returned, and waiting when the call waits. */
    method Acquire(arm: Arm, now: int, later: int, dial: bool,
                   ghost g: nat, ghost newId: nat, ghost s: L.State, ghost ch: Channel)
      returns (r: Outcome, ghost steps: seq<L.Step>, ghost s': L.State)
      requires Shows(s, ch) && LT.Reachable(s) && s.clock == now <= later && g !in s.gos && newId !in s.clients
      modifies ch, ch.buf
      ensures Answers(arm, now, dial, old(ch.buf), old(if ch.buf == [] then 0 else ch.buf[0].timeUsed),
                      old(clients) == null, r)
      ensures L.Run(s, steps) == Some(s') && Shows(s', ch) && OutcomeShown(r, g, s')
      ensures AllInAcquire(steps, g, L.PoolChan(id))
      ensures (arm == FromPool && old(clients) != null && old(ch.buf) != []
               && !L.IsFresh(idleDur, old(if ch.buf == [] then 0 else ch.buf[0].timeUsed), now))
              ==> !old(ch.buf)[0].open
      ensures ch.buf == Left(arm, old(ch.buf), old(clients) == null)
    {
      var closed := IsClose();
      if closed {
        return PoolClosed, [], s;
      }
      ghost var s1 := Enters(s, g, id);
      ghost var enter := [L.AcquirePool(g, id), L.Load(g)];
      SameShows(s, s1, ch);
      ghost var s2, more;
      var early: Option<Outcome>;
      if arm == CtxDone {
        early, more, s2 := OnCtxDone(now, g, s1, ch);
      } else {
        early, more, s2 := OnReceive(now, g, s1, ch);
      }
      OnAndOn(s, enter, s1, more, s2, g, L.PoolChan(id));
      if early.Some? {
        return early.value, enter + more, s2;
      }
      ghost var last;
      r, last, s' := Dial(later, dial, g, newId, s2, ch);
      OnAndOn(s, enter + more, s2, last, s', g, L.PoolChan(id));
      steps := enter + more + last;
    }

    /** Pool.Close up to the start of its goroutine, which gets the channel to drain. */
    method Close(ghost g: nat, ghost s: L.State, ghost ch: Channel) returns (detached: Channel?, ghost s': L.State)
      requires Shows(s, ch) && LT.Reachable(s) && g !in s.gos
      modifies this`clients, this`status
      ensures clients == null && L.Apply(s, L.ClosePool(id, g)) == Some(s') && Shows(s', ch)
      ensures if old(clients) == null then detached == null && status == old(status) && s' == s
              else detached == ch && !status && g in s'.gos && s'.gos[g].at == L.DrainTest
                   && s'.gos[g].home == L.PoolChan(id)
    {
      s' := L.DoClosePool(s, id, g).value;
      detached := clients;
      if detached != null {
        clients := null;
        status := false;
      }
    }

    /** The two steps of one turn: the length test and the receive. */
    static lemma DrainSteps(g: nat, s: L.State, h: L.Home) returns (s1: L.State, s': L.State)
      requires h in s.chans && s.chans[h].queue != [] && s.chans[h].queue[0] in s.clients
      requires g in s.gos && s.gos[g].at == L.DrainTest && s.gos[g].home == h
      ensures L.Apply(s, L.Drain(g)) == Some(s1) && L.Apply(s1, L.Drain(g)) == Some(s')
      ensures var ch := s.chans[h];
              && s'.clients == s.clients[ch.queue[0] := s.clients[ch.queue[0]].(open := false)]
              && s'.chans == s.chans[h := ch.(queue := ch.queue[1..], retired := ch.retired + 1)]
      ensures g in s'.gos && s'.gos[g].at == L.DrainTest && s'.gos[g].home == h
    {
      s1 := L.DoDrain(s, g).value;
      s' := L.DoDrain(s1, g).value;
    }

    static lemma DrainRun(g: nat, s: L.State, p: nat) returns (s': L.State)
      requires LT.Reachable(s) && L.PoolChan(p) in s.chans && s.chans[L.PoolChan(p)].queue != []
      requires g in s.gos && s.gos[g].at == L.DrainTest && s.gos[g].home == L.PoolChan(p)
      ensures L.Run(s, [L.Drain(g), L.Drain(g)]) == Some(s') && LT.Reachable(s') && LP.QueueOk(s, L.PoolChan(p))
      ensures var ch := s.chans[L.PoolChan(p)];
              && ch.queue[0] in s.clients
              && s'.clients == s.clients[ch.queue[0] := s.clients[ch.queue[0]].(open := false)]
              && s'.chans == s.chans[L.PoolChan(p) := ch.(queue := ch.queue[1..], retired := ch.retired + 1)]
      ensures g in s'.gos && s'.gos[g].at == L.DrainTest && s'.gos[g].home == L.PoolChan(p)
    {
      NearPool(s, g, p);
      var s1;
      s1, s' := DrainSteps(g, s, L.PoolChan(p));
      LT.ReachableStep(s, L.Drain(g), s1);
      Then(s, [L.Drain(g)], s1, L.Drain(g), s');
    }

    /** One turn of the loop of Pool.Close. */
    method DrainOne(detached: Channel, ghost g: nat, ghost s: L.State) returns (ghost s': L.State)
      requires Shows(s, detached) && clients == null && LT.Reachable(s) && detached.buf != []
      requires g in s.gos && s.gos[g].at == L.DrainTest && s.gos[g].home == L.PoolChan(id)
      modifies detached, detached.buf[0]
      ensures detached.buf == old(detached.buf)[1..] && !old(detached.buf)[0].open
      ensures L.Run(s, [L.Drain(g), L.Drain(g)]) == Some(s') && LT.Reachable(s') && Shows(s', detached)
      ensures g in s'.gos && s'.gos[g].at == L.DrainTest && s'.gos[g].home == L.PoolChan(id)
    {
      s' := DrainRun(g, s, id);
      HeadIsAlone(s, detached);
      var client := detached.buf[0];
      detached.buf := detached.buf[1..];
      client.Destroy();
    }

    lemma DrainEnds(g: nat, s: L.State, steps: seq<L.Step>, s1: L.State, detached: Channel) returns (s': L.State)
      requires L.Run(s, steps) == Some(s1) && LT.Reachable(s1) && Shows(s1, detached) && detached.buf == []
      requires g in s1.gos && s1.gos[g].at == L.DrainTest && s1.gos[g].home == L.PoolChan(id)
      ensures L.Run(s, steps + [L.Drain(g)]) == Some(s') && Shows(s', detached) && g !in s'.gos
    {
      s' := L.DoDrain(s1, g).value;
      Then(s, steps, s1, L.Drain(g), s');
      SameShows(s1, s', detached);
    }

    /** The goroutine of Pool.Close, run to its end: everything in the channel is destroyed. */
    method Drain(detached: Channel, ghost g: nat, ghost s: L.State)
      returns (ghost steps: seq<L.Step>, ghost s': L.State)
      requires Shows(s, detached) && clients == null && LT.Reachable(s)
      requires g in s.gos && s.gos[g].at == L.DrainTest && s.gos[g].home == L.PoolChan(id)
      modifies detached, detached.buf
      ensures detached.buf == [] && forall i :: 0 <= i < |old(detached.buf)| ==> !old(detached.buf)[i].open
      ensures L.Run(s, steps) == Some(s') && Shows(s', detached) && g !in s'.gos
    {
      steps, s' := [], s;
      ghost var all := detached.buf;
      ghost var n := 0;
      while |detached.buf| > 0
        invariant 0 <= n <= |all| && detached.buf == all[n..] && clients == null
        invariant forall i :: 0 <= i < n ==> !all[i].open
        invariant L.Run(s, steps) == Some(s') && LT.Reachable(s') && Shows(s', detached)
        invariant g in s'.gos && s'.gos[g].at == L.DrainTest && s'.gos[g].home == L.PoolChan(id)
        decreases |detached.buf|
      {
        assert detached.buf[0] == all[n];
        s' := DrainOne(detached, g, s');
        LT.RunAppend(s, steps, [L.Drain(g), L.Drain(g)]);
        steps, n := steps + [L.Drain(g), L.Drain(g)], n + 1;
      }
      s' := DrainEnds(g, s, steps, s', detached);
      steps := steps + [L.Drain(g)];
    }
  }

  // initPool.

  /** The smaller of the two: so many clients a pool starts with. */
  function Filled(init: int, size: int): (r: int)
    ensures r <= init && r <= size && (r == init || r == size)
  {
    if init > size then size else init
  }

  lemma Created(s: L.State, p: nat, cap: nat, mode: int, idleDur: int, ids: seq<nat>, firstId: nat)
    returns (s': L.State)
    requires L.PoolChan(p) !in s.chans && 1 <= cap <= L.MAX_INT32 && idleDur >= 0 && |ids| <= cap
    requires forall c :: c in s.clients ==> c < firstId
    requires forall i :: 0 <= i < |ids| ==> ids[i] == firstId + i
    ensures L.Apply(s, L.CreatePool(p, cap, mode, idleDur, ids)) == Some(s') && L.PoolChan(p) in s'.chans
    ensures s'.chans[L.PoolChan(p)] == L.Chan(cap, mode, idleDur, ids, false, |ids|, 0, 0)
    ensures forall c :: c in ids ==>
              c in s'.clients && s'.clients[c] == L.Client(true, p, L.PoolChan(p), s.clock, s.clock)
  {
    s' := L.DoCreatePool(s, p, cap, mode, idleDur, ids).value;
  }

  /** NewPool. `factory(i)` says whether the i-th dialling succeeds. A pool comes back exactly when the
      parameters are valid and the first min(init, size) diallings succeed; it then holds that many open
      clients, and the model takes a CreatePool step. */
  method InitPool(factory: Option<nat -> bool>, init: int, size: int, idleDur: int, maxLifeDur: int, mode: int,
                  now: int,
                  ghost p: nat, ghost firstId: nat, ghost s: L.State)
    returns (r: Option<Pool>, ghost s': L.State)
    requires L.PoolChan(p) !in s.chans && s.clock == now && size <= L.MAX_INT32
    requires forall c :: c in s.clients ==> c < firstId
    ensures r.Some? <==> factory.Some? && init >= 0 && size > 0 && idleDur >= 0 && maxLifeDur >= 0
                         && forall i :: 0 <= i < Filled(init, size) ==> factory.value(i)
    ensures r.Some? ==>
      && var pool := r.value;
         && fresh(pool) && pool.clients == pool.channel && fresh(pool.channel) && pool.status
         && |pool.clients.buf| == Filled(init, size)
         && L.Apply(s, L.CreatePool(p, size, mode, idleDur, Ids(pool.clients.buf))) == Some(s')
         && pool.Shows(s', pool.clients)
  {
    s' := s;
    if factory.None? {
      return None, s';
    }
    if init < 0 || size <= 0 || idleDur < 0 || maxLifeDur < 0 {
      return None, s';
    }
    var count := init;
    if count > size {
      count := size;
    }
    var pool := new Pool(p, size, idleDur, mode);
    var ch := pool.clients;
    for i := 0 to count
      invariant pool.clients == ch && pool.status && fresh(ch) && |ch.buf| == i
      invariant forall k :: 0 <= k < i ==> factory.value(k)
      invariant forall k :: 0 <= k < i ==>
                  && ch.buf[k].id == firstId + k && ch.buf[k].open && ch.buf[k].timeUsed == now
                  && ch.buf[k].pool == pool && ch.buf[k].tenant == null
    {
      if !factory.value(i) {
        return None, s';
      }
      var client := new Client(firstId + i, pool, now);
      ch.buf := ch.buf + [client];
    }
    s' := Created(s, p, size, mode, idleDur, Ids(ch.buf), firstId);
    r := Some(pool);
  }

}

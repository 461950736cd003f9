/**
  The connection pool of pool.go and the tenant channels of tenant.go, as goroutines interleaved
  step by step.

  The state is program state only: the channels, the clients, and for every goroutine the point it
  has reached and the client in its hands. A step is one indivisible action of one goroutine;
  what the environment decides (which goroutine runs, which arm of a select, whether dialling
  works) is the label of the step, so a run is a sequence of labels.
 */
module Lifecycle {
  import opened Wrappers

  const STRICT_MODE := 0
  const LOOSE_MODE := 1
  const MAX_INT32 := 0x7fff_ffff

  /** A channel: the one a pool is created with, or the one a tenant is created with. */
  datatype Home = PoolChan(p: nat) | TenantChan(t: nat)

  /** `pool` keeps naming the creating pool after Destory, when nothing reads it any more; `home` is the
      channel Client.Close sends to, the tenant's once `client.tenant` is set. `returnedAt` is history:
      the time of the latest Close call, or of creation. */
  datatype Client = Client(open: bool, pool: nat, home: Home, timeUsed: int, returnedAt: int)

  /** `queue` is the content of the channel object, which outlives the assignment of nil to
      `pool.clients` (`closed`). `created`, `retired` and `moved` are history: clients ever put in,
      connections lost for good, and clients taken by tenants. */
  datatype Chan = Chan(cap: nat, mode: int, idleDur: int, queue: seq<nat>, closed: bool,
                       created: nat, retired: nat, moved: nat)
  {
    /** Size: the length of a nil channel is 0. */
    function Size(): nat {
      if closed then 0 else |queue|
    }

    function ConnCurrent(): int {
      cap - Size()
    }
  }

  /** The points a goroutine can stand at. */
  datatype Point =
    | Entered      // Pool.Acquire, IsClose passed, clock read
    | Selecting    // Pool.Acquire, waiting in the select
    | Reloading    // LOOSE_MODE after ctx.Done, before its receive
    | Overflowing  // LOOSE_MODE after ctx.Done, inside the overflow guard
    | Receiving    // waiting in a receive that has no idle test
    | Dialling     // Pool.Acquire, about to call createClient
    | Holding      // a request with a client
    | Returning    // Client.Close, clock read, before its IsClose test
    | Tested       // Client.Close, IsClose said no
    | Pushing      // Client.Close, sending to the channel it evaluated
    | Stranded     // Client.Close, sending to a nil channel: blocked for ever
    | DrainTest    // the goroutine of Pool.Close, before its length test
    | DrainTake    // the goroutine of Pool.Close, before its receive

  /** `home` is the channel the goroutine works on, `hand` the client it alone has, `time` the clock
      reading it took, `ref` whether the channel operand it evaluated was not nil. */
  datatype Goroutine = Go(at: Point, home: Home, hand: Option<nat>, time: int, ref: bool)

  predicate Handed(at: Point) {
    at.Holding? || at.Returning? || at.Tested? || at.Pushing? || at.Stranded?
  }

  /** `racing` is history: clients whose Close had passed the IsClose test and had not yet pushed
      when their pool was closed. */
  datatype State = State(chans: map<Home, Chan>, clients: map<nat, Client>, gos: map<nat, Goroutine>,
                         clock: int, racing: set<nat>)

  datatype Step =
    | CreatePool(p: nat, cap: nat, mode: int, idleDur: int, ids: seq<nat>)
    | CreateTenant(t: nat, cap: nat)
    | Allocate(p: nat, t: nat)
    | AcquirePool(g: nat, p: nat)
    | AcquireTenant(g: nat, t: nat)
    | Load(g: nat)
    | CtxDone(g: nat)
    | Receive(g: nat)
    | DialOk(g: nat, c: nat)
    | DialFail(g: nat)
    | Finish(g: nat)
    | TestClosed(g: nat)
    | Push(g: nat)
    | ClosePool(p: nat, g: nat)
    | Drain(g: nat)
    | Tick(d: nat)

  function Init(clock: int): State {
    State(map[], map[], map[], clock, {})
  }

  predicate NoDup(q: seq<nat>) {
    forall i, j :: 0 <= i < j < |q| ==> q[i] != q[j]
  }

  /** The idle test of Acquire: true when the client may be reused. */
  predicate IsFresh(idleDur: int, timeUsed: int, now: int) {
    idleDur > 0 && timeUsed + idleDur > now
  }

  /** The guard of the LOOSE_MODE branch that makes an extra client. */
  predicate OverflowGuard(ch: Chan) {
    ch.ConnCurrent() > ch.cap && ch.ConnCurrent() <= 5 * ch.cap
  }

  /** A successful initPool: the first min(init, size) clients, all dialled, sit in the channel. */
  function DoCreatePool(s: State, p: nat, cap: nat, mode: int, idleDur: int, ids: seq<nat>): Option<State> {
    var h := PoolChan(p);
    if h in s.chans || !(1 <= cap <= MAX_INT32) || idleDur < 0 || |ids| > cap || !NoDup(ids)
       || exists i :: 0 <= i < |ids| && ids[i] in s.clients then None
    else
      Some(s.(chans := s.chans[h := Chan(cap, mode, idleDur, ids, false, |ids|, 0, 0)],
              clients := s.clients + map c | c in ids :: Client(true, p, h, s.clock, s.clock)))
  }

  function DoCreateTenant(s: State, t: nat, cap: nat): Option<State> {
    if TenantChan(t) in s.chans || cap > MAX_INT32 then None
    else Some(s.(chans := s.chans[TenantChan(t) := Chan(cap, STRICT_MODE, 0, [], false, 0, 0, 0)]))
  }

  /** One turn of the allocation loops of initTenantPool, once the pool has been chosen; the send waits
      while the buffer is full. */
  function DoAllocate(s: State, p: nat, t: nat): Option<State> {
    var from, to := PoolChan(p), TenantChan(t);
    if from !in s.chans || to !in s.chans then None
    else
      var pool, tenant := s.chans[from], s.chans[to];
      if pool.closed || pool.queue == [] || tenant.created >= tenant.cap || |tenant.queue| >= tenant.cap
         || pool.queue[0] !in s.clients then None
      else
        var c := pool.queue[0];
        Some(s.(chans := s.chans[from := pool.(queue := pool.queue[1..], moved := pool.moved + 1)]
                                [to := tenant.(queue := tenant.queue + [c], created := tenant.created + 1)],
                clients := s.clients[c := s.clients[c].(home := to)]))
  }

  /** Pool.Acquire up to the reading of the clock; a closed pool answers with an error at once. */
  function DoAcquirePool(s: State, g: nat, p: nat): Option<State> {
    var h := PoolChan(p);
    if h !in s.chans || g in s.gos then None
    else if s.chans[h].closed then Some(s)
    else Some(s.(gos := s.gos[g := Go(Entered, h, None, s.clock, false)]))
  }

  /** Tenant.Acquire: nothing ever sets the channel of a tenant to nil. */
  function DoAcquireTenant(s: State, g: nat, t: nat): Option<State> {
    var h := TenantChan(t);
    if h !in s.chans || g in s.gos then None
    else Some(s.(gos := s.gos[g := Go(Receiving, h, None, s.clock, true)]))
  }

  /** A goroutine evaluates the operand of its next channel operation; Client.Close stamps first. */
  function DoLoad(s: State, g: nat): Option<State> {
    if g !in s.gos || s.gos[g].home !in s.chans then None
    else
      var go := s.gos[g];
      var closed := s.chans[go.home].closed;
      match go.at
      case Entered => Some(s.(gos := s.gos[g := go.(at := Selecting, ref := !closed)]))
      case Reloading => Some(s.(gos := s.gos[g := go.(at := Receiving, ref := !closed)]))
      case Tested =>
        if go.hand.None? || go.hand.value !in s.clients then None
        else if !s.clients[go.hand.value].open then Some(s.(gos := s.gos - {g}))
        else
          var c := go.hand.value;
          Some(s.(clients := s.clients[c := s.clients[c].(timeUsed := go.time)],
                  gos := s.gos[g := go.(at := if closed then Stranded else Pushing)]))
      case _ => None
  }

  /** The ctx.Done arm of the select. */
  function DoCtxDone(s: State, g: nat): Option<State> {
    if g !in s.gos || !s.gos[g].at.Selecting? || s.gos[g].home !in s.chans then None
    else
      var ch := s.chans[s.gos[g].home];
      if ch.mode == STRICT_MODE then Some(s.(gos := s.gos - {g}))
      else
        var at := if ch.mode != LOOSE_MODE then Dialling else if OverflowGuard(ch) then Overflowing else Reloading;
        Some(s.(gos := s.gos[g := s.gos[g].(at := at)]))
  }

  /** A receive that finds a client in the channel. */
  function DoReceive(s: State, g: nat): Option<State> {
    if g !in s.gos || !(s.gos[g].at.Selecting? || s.gos[g].at.Receiving?) || !s.gos[g].ref then None
    else
      var go := s.gos[g];
      if go.home !in s.chans || s.chans[go.home].queue == [] || s.chans[go.home].queue[0] !in s.clients then None
      else
        var ch := s.chans[go.home];
        var c := ch.queue[0];
        var chans := s.chans[go.home := ch.(queue := ch.queue[1..])];
        var held := s.gos[g := go.(at := Holding, hand := Some(c))];
        if go.at.Receiving? then Some(s.(chans := chans, gos := held))
        else if IsFresh(ch.idleDur, s.clients[c].timeUsed, go.time) then
          Some(s.(chans := chans, gos := held, clients := s.clients[c := s.clients[c].(timeUsed := go.time)]))
        else
          Some(s.(chans := chans, gos := s.gos[g := go.(at := Dialling)],
                  clients := s.clients[c := s.clients[c].(open := false)]))
  }

  function DoDialOk(s: State, g: nat, c: nat): Option<State> {
    if g !in s.gos || !s.gos[g].at.Dialling? || !s.gos[g].home.PoolChan? || c in s.clients then None
    else
      var h := s.gos[g].home;
      Some(s.(clients := s.clients[c := Client(true, h.p, h, s.clock, s.clock)],
              gos := s.gos[g := s.gos[g].(at := Holding, hand := Some(c))]))
  }

  function DoDialFail(s: State, g: nat): Option<State> {
    if g !in s.gos || !s.gos[g].at.Dialling? || s.gos[g].home !in s.chans then None
    else
      var h := s.gos[g].home;
      Some(s.(chans := s.chans[h := s.chans[h].(retired := s.chans[h].retired + 1)], gos := s.gos - {g}))
  }

  /** The request calls Client.Close, whose goroutine reads the clock. */
  function DoFinish(s: State, g: nat): Option<State> {
    if g !in s.gos || !s.gos[g].at.Holding? || s.gos[g].hand.None? || s.gos[g].hand.value !in s.clients then None
    else
      var c := s.gos[g].hand.value;
      Some(s.(clients := s.clients[c := s.clients[c].(returnedAt := s.clock)],
              gos := s.gos[g := s.gos[g].(at := Returning, time := s.clock)]))
  }

  /** The IsClose test of Client.Close looks at the creating pool, also for a tenant's client. */
  function DoTestClosed(s: State, g: nat): Option<State> {
    if g !in s.gos || !s.gos[g].at.Returning? || s.gos[g].hand.None? || s.gos[g].hand.value !in s.clients then None
    else
      var go := s.gos[g];
      var c := go.hand.value;
      var pool := PoolChan(s.clients[c].pool);
      if !s.clients[c].open then Some(s.(gos := s.gos - {g}))
      else if pool !in s.chans || go.home !in s.chans then None
      else if s.chans[pool].closed then
        Some(s.(chans := s.chans[go.home := s.chans[go.home].(retired := s.chans[go.home].retired + 1)],
                clients := s.clients[c := s.clients[c].(open := false)],
                gos := s.gos - {g}))
      else Some(s.(gos := s.gos[g := go.(at := Tested)]))
  }

  /** The send of Client.Close; it waits while the buffer is full. */
  function DoPush(s: State, g: nat): Option<State> {
    if g !in s.gos || !s.gos[g].at.Pushing? || s.gos[g].hand.None? || s.gos[g].home !in s.chans then None
    else
      var h := s.gos[g].home;
      if |s.chans[h].queue| >= s.chans[h].cap then None
      else Some(s.(chans := s.chans[h := s.chans[h].(queue := s.chans[h].queue + [s.gos[g].hand.value])],
                   gos := s.gos - {g}))
  }

  /** The clients of channel h whose Close is between its IsClose test and the end of its send. */
  ghost function MidReturn(s: State, h: Home): set<nat> {
    set g | g in s.gos && (s.gos[g].at.Tested? || s.gos[g].at.Pushing?) && s.gos[g].home == h && s.gos[g].hand.Some?
      :: s.gos[g].hand.value
  }

  ghost function DoClosePool(s: State, p: nat, g: nat): Option<State> {
    var h := PoolChan(p);
    if h !in s.chans || g in s.gos then None
    else if s.chans[h].closed then Some(s)
    else Some(s.(chans := s.chans[h := s.chans[h].(closed := true)],
                 gos := s.gos[g := Go(DrainTest, h, None, s.clock, true)],
                 racing := s.racing + MidReturn(s, h)))
  }

  /** The goroutine of Pool.Close: test the length, then receive and destroy. */
  function DoDrain(s: State, g: nat): Option<State> {
    if g !in s.gos || !(s.gos[g].at.DrainTest? || s.gos[g].at.DrainTake?) || s.gos[g].home !in s.chans then None
    else
      var go := s.gos[g];
      var ch := s.chans[go.home];
      if go.at.DrainTest? then
        Some(s.(gos := if ch.queue == [] then s.gos - {g} else s.gos[g := go.(at := DrainTake)]))
      else if ch.queue == [] || ch.queue[0] !in s.clients then None
      else
        var c := ch.queue[0];
        Some(s.(chans := s.chans[go.home := ch.(queue := ch.queue[1..], retired := ch.retired + 1)],
                clients := s.clients[c := s.clients[c].(open := false)],
                gos := s.gos[g := go.(at := DrainTest)]))
  }

  function DoTick(s: State, d: nat): Option<State> {
    Some(s.(clock := s.clock + d))
  }

  /** One step; None when the step cannot be taken. */
  ghost function Apply(s: State, step: Step): Option<State> {
    match step
    case CreatePool(p, cap, mode, idleDur, ids) => DoCreatePool(s, p, cap, mode, idleDur, ids)
    case CreateTenant(t, cap) => DoCreateTenant(s, t, cap)
    case Allocate(p, t) => DoAllocate(s, p, t)
    case AcquirePool(g, p) => DoAcquirePool(s, g, p)
    case AcquireTenant(g, t) => DoAcquireTenant(s, g, t)
    case Load(g) => DoLoad(s, g)
    case CtxDone(g) => DoCtxDone(s, g)
    case Receive(g) => DoReceive(s, g)
    case DialOk(g, c) => DoDialOk(s, g, c)
    case DialFail(g) => DoDialFail(s, g)
    case Finish(g) => DoFinish(s, g)
    case TestClosed(g) => DoTestClosed(s, g)
    case Push(g) => DoPush(s, g)
    case ClosePool(p, g) => DoClosePool(s, p, g)
    case Drain(g) => DoDrain(s, g)
    case Tick(d) => DoTick(s, d)
  }

  /** A whole run: the state after the given steps, None when one of them cannot be taken. */
  ghost function Run(s: State, steps: seq<Step>): Option<State>
    decreases |steps|
  {
    if steps == [] then Some(s)
    else
      var next := Apply(s, steps[0]);
      if next.None? then None else Run(next.value, steps[1..])
  }
}

/** options.go: the stream director, which chooses where a request gets its client from. */
module Director {
  import opened Wrappers
  import opened Text
  import opened Allocation
  import Token
  import Balance
  import L = Lifecycle
  import LT = LifecycleTheorems
  import P = PoolObjects

  const GLOBAL_NETWORK_MODE := 2

  datatype Settings = Settings(netMode: int, asrAddr: string, ttsAddr: string, omp: bool, tenant: bool)

  /** The incoming metadata: the first value of :authority and of token. */
  datatype Metadata = Metadata(authority: Option<string>, token: Option<string>)

  /** `garbage` is what the base64 decoder yields besides its error when the token is malformed. */
  datatype Request = Request(fullMethodName: string, md: Option<Metadata>, garbage: string)

  /** The maps the director looks at. */
  datatype Pools = Pools(asr: map<string, Balance.Seen>, tts: map<string, Balance.Seen>,
                         asrTenants: set<string>, ttsTenants: set<string>)

  datatype Engine = ASR | TTS

  /** Whose Acquire is called; a nil pool has one, too. */
  datatype Target = PoolOf(engine: Engine, key: string) | TenantOf(engine: Engine, key: string) | NilPool

  datatype Reason = UnsupportedMethod | UnknownToken | UnknownPool | UnknownMethod | AcquireFailed

  /** What the director returns: a client, an error. Waits: a call of Acquire has not returned. */
  datatype Reply = Returned(client: P.Client?, err: Option<Reason>) | Waits | Panics

  // Where a request goes.

  datatype Route = Crash | Refuse(reason: Reason) | To(target: Target) | ToAny(engine: Engine)

  function ServerAddr(s: Settings, md: Metadata): Option<string> {
    if md.authority.None? then Some("")
    else if s.netMode != GLOBAL_NETWORK_MODE then md.authority
    else
      var addrPort := Split(md.authority.value, ':');
      if |addrPort| < 2 then None else Some(addrPort[1])
  }

  function PoolMap(p: Pools, engine: Engine): map<string, Balance.Seen> {
    if engine == ASR then p.asr else p.tts
  }

  function PoolKeys(p: Pools, engine: Engine): set<string> {
    PoolMap(p, engine).Keys
  }

  function TenantKeys(p: Pools, engine: Engine): set<string> {
    if engine == ASR then p.asrTenants else p.ttsTenants
  }

  /** strDecode, whose error is dropped. */
  function Decoded(token: string, garbage: string): string {
    var text := Token.Decode(token);
    if text.Some? then text.value else garbage
  }

  function EngineRoute(s: Settings, p: Pools, engine: Engine, token: Option<string>, garbage: string): Route {
    if !s.omp && !s.tenant then ToAny(engine)
    else if token.None? then Refuse(UnknownMethod)
    else
      var code := Token.EngineCode(Decoded(token.value, garbage));
      if code.None? then Refuse(UnknownToken)
      else if s.omp then
        if code.value in PoolKeys(p, engine) then To(PoolOf(engine, code.value)) else Refuse(UnknownPool)
      else
        if code.value in TenantKeys(p, engine) then To(TenantOf(engine, code.value)) else Refuse(UnknownPool)
  }

  function RouteOf(s: Settings, p: Pools, req: Request): Route {
    if "/ivc.v1.internal" <= req.fullMethodName then Refuse(UnsupportedMethod)
    else if req.md.None? then Refuse(UnknownMethod)
    else
      var addr := ServerAddr(s, req.md.value);
      if addr.None? then Crash
      else if addr.value == s.asrAddr then EngineRoute(s, p, ASR, req.md.value.token, req.garbage)
      else if addr.value == s.ttsAddr then EngineRoute(s, p, TTS, req.md.value.token, req.garbage)
      else Refuse(UnknownMethod)
  }

  /** rand.Intn(0) is reached: there are several pools and none is live. */
  predicate Unbalanced(p: Pools, engine: Engine) {
    |PoolMap(p, engine)| >= 2 && !Balance.AnyLive(PoolMap(p, engine))
  }

  /** What the balancer may answer. */
  predicate BalancedTo(p: Pools, engine: Engine, target: Target) {
    if |PoolMap(p, engine)| == 0 then target == NilPool
    else
      var pools := PoolMap(p, engine);
      && target.PoolOf? && target.engine == engine && target.key in pools
      && (|pools| >= 2 ==> pools[target.key].live)
      && (|pools| >= 2 && (Balance.Snapshot(pools) || !Balance.AllEmpty(pools)) ==> Balance.Fullest(pools, target.key))
  }

  /** The pair that a call of Acquire returns. Its error comes with a nil client; the one return that could give both
      lies behind the overflow guard, which no run gets past. */
  function ClientOf(o: P.Outcome): P.Client? {
    if o.Got? then o.client else null
  }

  function ErrorOf(o: P.Outcome): Option<Reason> {
    if o.PoolClosed? || o.DialFailed? then Some(AcquireFailed) else None
  }

  /** The two returns after Acquire. */
  function ReplyTo(o: P.Outcome): Reply {
    if o.Waiting? then Waits
    else if ClientOf(o) != null then Returned(ClientOf(o), ErrorOf(o))
    else Returned(null, Some(UnknownMethod))
  }

  /** What the outside decides about a call of Acquire: the arm that becomes ready, the time when the call begins, the
      time of a new connection, and whether it can be dialled. */
  datatype Chance = Chance(arm: P.Arm, now: int, later: int, dial: bool)

  /** Where goroutine g is when Acquire has ended so. */
  ghost predicate EndsAt(o: P.Outcome, g: nat, s: L.State) {
    match o
    case Got(c) =>
      && g in s.gos && s.gos[g].at == L.Holding && s.gos[g].hand == Some(c.id)
      && c.id in s.clients && s.clients[c.id].open
    case Waiting => g in s.gos && (s.gos[g].at == L.Selecting || s.gos[g].at == L.Receiving)
    case _ => g !in s.gos
  }

  /** Which calls of Acquire were made on a route, how they ended, and the reply: one at most, on what the route
      names; without a call the request is refused or the director panics. */
  ghost predicate Follows(route: Route, p: Pools, asked: seq<Target>, o: P.Outcome, r: Reply) {
    match route
    case Crash => r == Panics && asked == []
    case Refuse(reason) => r == Returned(null, Some(reason)) && asked == []
    case To(target) => r == ReplyTo(o) && asked == [target]
    case ToAny(engine) =>
      if Unbalanced(p, engine) then r == Panics && asked == []
      else |asked| == 1 && BalancedTo(p, engine, asked[0]) && r == ReplyTo(o)
  }

  /** The target of the one call of Acquire that a route leads to, or the reply without it. */
  ghost predicate Decides(route: Route, p: Pools, d: Result<Target, Reply>) {
    match route
    case Crash => d == Err(Panics)
    case Refuse(reason) => d == Err(Returned(null, Some(reason)))
    case To(target) => d == Ok(target)
    case ToAny(engine) =>
      if Unbalanced(p, engine) then d == Err(Panics) else d.Ok? && BalancedTo(p, engine, d.value)
  }

  /** A reply without a call of Acquire. */
  predicate IsRefusal(r: Reply) {
    r == Panics || (r.Returned? && r.client == null && r.err.Some?)
  }

  lemma DecidedReply(route: Route, p: Pools, d: Result<Target, Reply>, asked: seq<Target>, o: P.Outcome, r: Reply)
    requires Decides(route, p, d)
    requires if d.Ok? then r == ReplyTo(o) && asked == [d.value] else r == d.error && asked == []
    ensures Follows(route, p, asked, o, r)
  {}

  /** The director returns a client or an error, and not both; with a client g holds just that client, without one it
      holds none and has left Acquire. */
  ghost predicate Concludes(r: Reply, g: nat, s: L.State) {
    r.Returned? ==>
      && (r.client != null <==> r.err.None?)
      && (if r.client == null then g !in s.gos else EndsAt(P.Got(r.client), g, s))
  }

  ghost predicate Replies(s: Settings, p: Pools, req: Request, asked: seq<Target>, o: P.Outcome, r: Reply) {
    Follows(RouteOf(s, p, req), p, asked, o, r)
  }

  /** The reply carries a client or an error, and not both; the client is the one that the call of Acquire returned. */
  lemma ClientXorError(route: Route, p: Pools, asked: seq<Target>, o: P.Outcome, r: Reply)
    requires Follows(route, p, asked, o, r) && r.Returned?
    ensures r.client != null <==> r.err.None?
    ensures r.client != null ==> asked != [] && o == P.Got(r.client)
    ensures r.client == null && asked != [] ==> !o.Got? && !o.Waiting?
  {}

  /** The director, with the maps of pools and tenants as one request finds them; it only reads them. */
  class Gateway {
    const settings: Settings
    const asrPools: map<string, P.Pool>
    const ttsPools: map<string, P.Pool>
    const asrTenants: map<string, P.Tenant>
    const ttsTenants: map<string, P.Tenant>

    constructor (settings: Settings, asrPools: map<string, P.Pool>, ttsPools: map<string, P.Pool>,
                 asrTenants: map<string, P.Tenant>, ttsTenants: map<string, P.Tenant>)
      ensures this.settings == settings && this.asrPools == asrPools && this.ttsPools == ttsPools
      ensures this.asrTenants == asrTenants && this.ttsTenants == ttsTenants
    {
      this.settings, this.asrPools, this.ttsPools := settings, asrPools, ttsPools;
      this.asrTenants, this.ttsTenants := asrTenants, ttsTenants;
    }

    function PoolsOf(engine: Engine): map<string, P.Pool> {
      if engine == ASR then asrPools else ttsPools
    }

    function TenantsOf(engine: Engine): map<string, P.Tenant> {
      if engine == ASR then asrTenants else ttsTenants
    }

    /** The target is in the maps. */
    predicate Has(target: Target) {
      match target
      case PoolOf(engine, key) => key in PoolsOf(engine)
      case TenantOf(engine, key) => key in TenantsOf(engine)
      case NilPool => true
    }

    /** The maps as values; `seen` is what the balancer gets to see of the pools. */
    function Maps(seen: Engine -> map<string, Balance.Seen>): Pools {
      Pools(seen(ASR), seen(TTS), asrTenants.Keys, ttsTenants.Keys)
    }

    /** `seen` shows the pools of the map with their status; the sizes may change while the balancer looks. */
    predicate Sees(seen: Engine -> map<string, Balance.Seen>)
      reads asrPools.Values, ttsPools.Values
    {
      forall e ::
        && seen(e).Keys == PoolsOf(e).Keys
        && forall k :: k in seen(e) ==> seen(e)[k].live == PoolsOf(e)[k].status
    }

    ghost function AllPools(): set<P.Pool> {
      asrPools.Values + ttsPools.Values
    }

    ghost function AllTenants(): set<P.Tenant> {
      asrTenants.Values + ttsTenants.Values
    }

    /** The model's state s shows all pools and tenants. */
    ghost predicate Shows(s: L.State)
      reads *
    {
      (forall q :: q in AllPools() ==> q.Shows(s, q.channel)) && (forall t :: t in AllTenants() ==> t.Shows(s))
    }

    /** Different pools and tenants have different numbers, and channels of their own. */
    ghost predicate Apart() {
      && (forall p, q :: p in AllPools() && q in AllPools() && p != q ==> p.id != q.id && p.channel != q.channel)
      && (forall t, u :: t in AllTenants() && u in AllTenants() && t != u ==> t.id != u.id && t.clients != u.clients)
      && (forall q, t :: q in AllPools() && t in AllTenants() ==> q.channel != t.clients)
    }

    /** A request can be made: goroutine g and client newId are new, and the clock shows the time of the call. */
    ghost predicate Ready(s: L.State, chance: Chance, g: nat, newId: nat)
      reads *
    {
      && Apart() && Shows(s) && LT.Reachable(s)
      && s.clock == chance.now <= chance.later && g !in s.gos && newId !in s.clients
    }

    /** The channels and the clients in them. */
    ghost function Footprint(): set<object>
      reads *
    {
      (set q | q in AllPools() :: q.channel as object)
      + (set q, c | q in AllPools() && c in q.channel.buf :: c as object)
      + (set t | t in AllTenants() :: t.clients as object)
    }

    /** The clients in the channels of two pools are different ones. */
    lemma BufsApart(p: P.Pool, q: P.Pool, s: L.State)
      requires LT.Reachable(s) && p.Shows(s, p.channel) && q.Shows(s, q.channel) && p.id != q.id
      ensures forall c :: c in p.channel.buf ==> c !in q.channel.buf
    {
      P.HomeInQueue(s, p, p.channel);
      P.HomeInQueue(s, q, q.channel);
    }

    /** A pool is still shown after something has happened at another channel. */
    lemma StillShows(q: P.Pool, s: L.State, s': L.State, h: L.Home)
      requires q.Shows(s, q.channel) && LT.Reachable(s) && P.SameElsewhere(s, s', h) && h != L.PoolChan(q.id)
      ensures q.Shows(s', q.channel)
    {
      P.QueueHomes(s, L.PoolChan(q.id));
      forall i | 0 <= i < |q.channel.buf| ensures q.channel.buf[i].Agrees(s', q) {
        var c := q.channel.buf[i];
        assert c.Agrees(s, q) && c.id == P.Ids(q.channel.buf)[i] && c.id in s.chans[L.PoolChan(q.id)].queue;
      }
    }

    /** The clients in the channel of a pool are in no other. */
    lemma OthersApart(pool: P.Pool, s: L.State)
      requires Apart() && Shows(s) && LT.Reachable(s) && pool in AllPools()
      ensures forall q, c :: q in AllPools() && q != pool && c in q.channel.buf ==> c !in pool.channel.buf
    {
      forall q, c | q in AllPools() && q != pool && c in q.channel.buf ensures c !in pool.channel.buf {
        BufsApart(q, pool, s);
      }
    }

    /** After an Acquire by goroutine g of channel h, all that are not its pool or tenant are shown as before. */
    lemma OthersStillShow(s: L.State, steps: seq<L.Step>, s': L.State, g: nat, h: L.Home)
      requires LT.Reachable(s) && g !in s.gos && L.Run(s, steps) == Some(s') && P.AllInAcquire(steps, g, h)
      requires forall q :: q in AllPools() && L.PoolChan(q.id) != h ==> q.Shows(s, q.channel)
      requires forall t :: t in AllTenants() && L.TenantChan(t.id) != h ==> t.Shows(s)
      ensures forall q :: q in AllPools() && L.PoolChan(q.id) != h ==> q.Shows(s', q.channel)
      ensures forall t :: t in AllTenants() && L.TenantChan(t.id) != h ==> t.Shows(s')
    {
      P.RunElsewhere(s, steps, s', g, h);
      forall q | q in AllPools() && L.PoolChan(q.id) != h ensures q.Shows(s', q.channel) { StillShows(q, s, s', h); }
    }

    /** Acquire of a pool by itself. */
    static method AcquireOf(pool: P.Pool, chance: Chance, ghost g: nat, ghost newId: nat, ghost s: L.State)
      returns (o: P.Outcome, ghost steps: seq<L.Step>, ghost s': L.State)
      requires pool.Shows(s, pool.channel) && LT.Reachable(s)
      requires s.clock == chance.now <= chance.later && g !in s.gos && newId !in s.clients
      modifies pool.channel, pool.channel.buf
      ensures L.Run(s, steps) == Some(s') && EndsAt(o, g, s') && P.AllInAcquire(steps, g, L.PoolChan(pool.id))
      ensures o.Got? ==> o.client.open && o.client.pool == pool
      ensures pool.Shows(s', pool.channel)
      ensures pool.channel.buf == pool.Left(chance.arm, old(pool.channel.buf), old(pool.clients) == null)
    {
      o, steps, s' := pool.Acquire(chance.arm, chance.now, chance.later, chance.dial, g, newId, s, pool.channel);
    }

    /** Acquire of a pool in the maps, before anything is said of the new state of the others. */
    method AcquireApart(pool: P.Pool, chance: Chance, ghost g: nat, ghost newId: nat, ghost s: L.State)
      returns (o: P.Outcome, ghost steps: seq<L.Step>, ghost s': L.State)
      requires pool in AllPools() && Ready(s, chance, g, newId)
      modifies pool.channel, pool.channel.buf
      ensures L.Run(s, steps) == Some(s') && EndsAt(o, g, s') && P.AllInAcquire(steps, g, L.PoolChan(pool.id))
      ensures o.Got? ==> o.client.open && o.client.pool == pool
      ensures pool.Shows(s', pool.channel)
      ensures pool.channel.buf == pool.Left(chance.arm, old(pool.channel.buf), old(pool.clients) == null)
      ensures forall q :: q in AllPools() && q != pool ==> q.Shows(s, q.channel)
      ensures forall t :: t in AllTenants() ==> t.Shows(s)
    {
      OthersApart(pool, s);
      o, steps, s' := AcquireOf(pool, chance, g, newId, s);
    }

    /** Acquire of a pool in the maps. */
    method AcquirePool(pool: P.Pool, chance: Chance, ghost g: nat, ghost newId: nat, ghost s: L.State)
      returns (o: P.Outcome, ghost steps: seq<L.Step>, ghost s': L.State)
      requires pool in AllPools() && Ready(s, chance, g, newId)
      modifies pool.channel, pool.channel.buf
      ensures L.Run(s, steps) == Some(s') && EndsAt(o, g, s') && P.AllInAcquire(steps, g, L.PoolChan(pool.id))
      ensures o.Got? ==> o.client.open && o.client.pool == pool
      ensures Shows(s')
      ensures pool.channel.buf == pool.Left(chance.arm, old(pool.channel.buf), old(pool.clients) == null)
    {
      o, steps, s' := AcquireApart(pool, chance, g, newId, s);
      OthersStillShow(s, steps, s', g, L.PoolChan(pool.id));
    }

    /** What is left of a channel after a receive, if there was a client in it. */
    static function Rest(buf: seq<P.Client>): seq<P.Client> {
      if buf == [] then buf else buf[1..]
    }

    /** Acquire of a tenant in the maps. */
    method AcquireTenant(tenant: P.Tenant, ghost g: nat, ghost s: L.State)
      returns (o: P.Outcome, ghost steps: seq<L.Step>, ghost s': L.State)
      requires tenant in AllTenants() && Apart() && Shows(s) && LT.Reachable(s) && g !in s.gos
      modifies tenant.clients
      ensures L.Run(s, steps) == Some(s') && EndsAt(o, g, s') && P.AllInAcquire(steps, g, L.TenantChan(tenant.id))
      ensures g in s'.gos && s'.gos[g].home == L.TenantChan(tenant.id)
      ensures Shows(s')
      ensures tenant.clients.buf == Rest(old(tenant.clients.buf))
    {
      var client;
      client, steps, s' := tenant.Acquire(g, s);
      OthersStillShow(s, steps, s', g, L.TenantChan(tenant.id));
      if client == null {
        return P.Waiting, steps, s';
      }
      LT.ReachableRun(s, steps, s');
      P.HeldFacts(s', g, client.id, L.TenantChan(tenant.id));
      o := P.Got(client);
    }

    /** The pool, or the tenant, that a target names. */
    function PoolAt(target: Target): P.Pool? {
      if target.PoolOf? && Has(target) then PoolsOf(target.engine)[target.key] else null
    }

    function TenantAt(target: Target): P.Tenant? {
      if target.TenantOf? && Has(target) then TenantsOf(target.engine)[target.key] else null
    }

    ghost function PoolAsked(asked: seq<Target>): P.Pool? {
      if asked == [] then null else PoolAt(asked[0])
    }

    ghost function TenantAsked(asked: seq<Target>): P.Tenant? {
      if asked == [] then null else TenantAt(asked[0])
    }

    lemma PoolInFootprint(pool: P.Pool)
      requires pool in AllPools()
      ensures pool.channel as object in Footprint()
      ensures forall i :: 0 <= i < |pool.channel.buf| ==> pool.channel.buf[i] as object in Footprint()
    {
      forall i | 0 <= i < |pool.channel.buf| ensures pool.channel.buf[i] as object in Footprint() {
        assert pool.channel.buf[i] in pool.channel.buf;
      }
    }

    lemma TenantInFootprint(tenant: P.Tenant)
      requires tenant in AllTenants()
      ensures tenant.clients as object in Footprint()
    {}

    /** The channel of a target in the lifecycle. */
    ghost function HomeOf(target: Target): L.Home
      requires Has(target)
    {
      match target
      case PoolOf(engine, key) => L.PoolChan(PoolsOf(engine)[key].id)
      case TenantOf(engine, key) => L.TenantChan(TenantsOf(engine)[key].id)
      case NilPool => L.PoolChan(0)
    }

    /** A client that Acquire returned comes from its target: it belongs to that pool, or goroutine g works for that
        tenant. */
    ghost predicate Serves(target: Target, o: P.Outcome, g: nat, s: L.State)
      reads if o.Got? then {o.client} else {}
    {
      o.Got? ==>
        match target
        case NilPool => false
        case PoolOf(engine, key) =>
          var pools := if engine == ASR then asrPools else ttsPools;
          key in pools && o.client.open && o.client.pool == pools[key]
        case TenantOf(engine, key) =>
          var tenants := if engine == ASR then asrTenants else ttsTenants;
          key in tenants && g in s.gos && s.gos[g].home == L.TenantChan(tenants[key].id)
    }

    method AcquirePoolAt(engine: Engine, key: string, chance: Chance, ghost g: nat, ghost newId: nat, ghost s: L.State)
      returns (o: P.Outcome, ghost steps: seq<L.Step>, ghost s': L.State)
      requires key in PoolsOf(engine) && Ready(s, chance, g, newId)
      modifies Footprint()
      ensures L.Run(s, steps) == Some(s') && P.AllInAcquire(steps, g, HomeOf(PoolOf(engine, key))) && EndsAt(o, g, s')
      ensures Serves(PoolOf(engine, key), o, g, s') && Shows(s')
      ensures var pool := PoolsOf(engine)[key];
              pool.channel.buf == pool.Left(chance.arm, old(pool.channel.buf), old(pool.clients) == null)
      ensures forall q :: q in AllPools() && q != PoolsOf(engine)[key] ==> q.channel.buf == old(q.channel.buf)
      ensures forall t :: t in AllTenants() ==> t.clients.buf == old(t.clients.buf)
    {
      var pool := PoolsOf(engine)[key];
      PoolInFootprint(pool);
      o, steps, s' := AcquirePool(pool, chance, g, newId, s);
    }

    method AcquireTenantAt(engine: Engine, key: string, chance: Chance, ghost g: nat, ghost newId: nat,
                           ghost s: L.State)
      returns (o: P.Outcome, ghost steps: seq<L.Step>, ghost s': L.State)
      requires key in TenantsOf(engine) && Ready(s, chance, g, newId)
      modifies Footprint()
      ensures L.Run(s, steps) == Some(s') && P.AllInAcquire(steps, g, HomeOf(TenantOf(engine, key))) && EndsAt(o, g, s')
      ensures Serves(TenantOf(engine, key), o, g, s') && Shows(s')
      ensures forall q :: q in AllPools() ==> q.channel.buf == old(q.channel.buf)
      ensures var tenant := TenantsOf(engine)[key]; tenant.clients.buf == Rest(old(tenant.clients.buf))
      ensures forall t :: t in AllTenants() && t != TenantsOf(engine)[key] ==> t.clients.buf == old(t.clients.buf)
    {
      var tenant := TenantsOf(engine)[key];
      TenantInFootprint(tenant);
      o, steps, s' := AcquireTenant(tenant, g, s);
    }

    /** A call of Acquire on a target; a nil pool is closed. Afterwards the objects show the new state. */
    method Acquire(target: Target, chance: Chance, ghost g: nat, ghost newId: nat, ghost s: L.State)
      returns (o: P.Outcome, ghost steps: seq<L.Step>, ghost s': L.State)
      requires Has(target) && Ready(s, chance, g, newId)
      modifies Footprint()
      ensures L.Run(s, steps) == Some(s') && P.AllInAcquire(steps, g, HomeOf(target)) && EndsAt(o, g, s')
      ensures Serves(target, o, g, s') && Shows(s')
      ensures forall q :: q in AllPools() && q != PoolAt(target) ==> q.channel.buf == old(q.channel.buf)
      ensures forall t :: t in AllTenants() && t != TenantAt(target) ==> t.clients.buf == old(t.clients.buf)
      ensures var pool := PoolAt(target);
              pool != null ==>
                pool.channel.buf == pool.Left(chance.arm, old(pool.channel.buf), old(pool.clients) == null)
      ensures var tenant := TenantAt(target);
              tenant != null ==> tenant.clients.buf == Rest(old(tenant.clients.buf))
    {
      match target
      case NilPool =>
        o, steps, s' := P.PoolClosed, [], s;
      case PoolOf(engine, key) =>
        o, steps, s' := AcquirePoolAt(engine, key, chance, g, newId, s);
      case TenantOf(engine, key) =>
        o, steps, s' := AcquireTenantAt(engine, key, chance, g, newId, s);
    }

    /** What a reply rests on: the run of goroutine g, in which Acquire was called for the one target asked, if any. */
    ghost predicate Asked(asked: seq<Target>, o: P.Outcome, g: nat, s: L.State, steps: seq<L.Step>, s': L.State)
      reads if o.Got? then {o.client} else {}
    {
      && L.Run(s, steps) == Some(s')
      && if asked == [] then steps == []
         else
           && Has(asked[0]) && P.AllInAcquire(steps, g, HomeOf(asked[0]))
           && EndsAt(o, g, s') && Serves(asked[0], o, g, s')
    }

    /** The pool or tenant that the token names, or the reason of the refusal. */
    method Named(engine: Engine, token: string, garbage: string, ghost seen: Engine -> map<string, Balance.Seen>)
      returns (r: Result<Target, Reason>)
      requires Sees(seen) && (settings.omp || settings.tenant)
      ensures EngineRoute(settings, Maps(seen), engine, Some(token), garbage)
           == if r.Ok? then To(r.value) else Refuse(r.error)
      ensures r.Ok? ==> Has(r.value)
    {
      var text := Token.Decode(token);
      var engineCodes := if text.Some? then text.value else garbage;
      var engineCode := Split(engineCodes, '-');
      if |engineCode| < 2 {
        return Err(UnknownToken);
      }
      if settings.omp {
        if engineCode[1] !in PoolsOf(engine) {
          return Err(UnknownPool);
        }
        r := Ok(PoolOf(engine, engineCode[1]));
      } else {
        if engineCode[1] !in TenantsOf(engine) {
          return Err(UnknownPool);
        }
        r := Ok(TenantOf(engine, engineCode[1]));
      }
    }

    /** The branches for an engine: a token is needed when there is online configuration or when there are tenants;
        otherwise the balancer answers. */
    method Choose(engine: Engine, md: Metadata, garbage: string, seen: Engine -> map<string, Balance.Seen>,
                  order: seq<string>, intn: nat -> nat) returns (d: Result<Target, Reply>)
      requires Sees(seen) && Enumerates(order, seen(engine).Keys) && forall n :: n > 0 ==> intn(n) < n
      ensures Decides(EngineRoute(settings, Maps(seen), engine, md.token, garbage), Maps(seen), d)
      ensures d.Ok? ==> Has(d.value)
    {
      if settings.omp || settings.tenant {
        if md.token.None? {
          return Err(Returned(null, Some(UnknownMethod)));
        }
        var target := Named(engine, md.token.value, garbage, seen);
        if target.Err? {
          return Err(Returned(null, Some(target.error)));
        }
        d := Ok(target.value);
      } else {
        var pick := Balance.BalancePool(seen(engine), order, intn);
        match pick
        case Panics => d := Err(Panics);
        case NoPool => d := Ok(NilPool);
        case Chosen(key) => d := Ok(PoolOf(engine, key));
      }
    }

    /** The method name and the address: the engine asked for, or the reply when there is none. */
    method Resolve(req: Request, ghost seen: Engine -> map<string, Balance.Seen>) returns (r: Result<Engine, Reply>)
      requires Sees(seen)
      ensures r.Ok? ==> req.md.Some?
      ensures r.Ok? ==> RouteOf(settings, Maps(seen), req)
                        == EngineRoute(settings, Maps(seen), r.value, req.md.value.token, req.garbage)
      ensures r.Err? ==> Decides(RouteOf(settings, Maps(seen), req), Maps(seen), Err(r.error))
    {
      if "/ivc.v1.internal" <= req.fullMethodName {
        return Err(Returned(null, Some(UnsupportedMethod)));
      }
      if req.md.Some? {
        var md := req.md.value;
        var serverAddr := "";
        if md.authority.Some? {
          serverAddr := md.authority.value;
          if settings.netMode == GLOBAL_NETWORK_MODE {
            var addrPort := Split(md.authority.value, ':');
            if |addrPort| < 2 {
              return Err(Panics);
            }
            serverAddr := addrPort[1];
          }
        }
        if serverAddr == settings.asrAddr {
          return Ok(ASR);
        } else if serverAddr == settings.ttsAddr {
          return Ok(TTS);
        }
      }
      r := Err(Returned(null, Some(UnknownMethod)));
    }

    /** All that comes before the call of Acquire: on what it is called, or the reply without it. */
    method Decide(req: Request, seen: Engine -> map<string, Balance.Seen>, orders: Engine -> seq<string>,
                  intn: nat -> nat)
      returns (d: Result<Target, Reply>)
      requires Sees(seen) && (forall e :: Enumerates(orders(e), seen(e).Keys)) && forall n :: n > 0 ==> intn(n) < n
      ensures Decides(RouteOf(settings, Maps(seen), req), Maps(seen), d)
      ensures if d.Ok? then Has(d.value) else IsRefusal(d.error)
    {
      var engine := Resolve(req, seen);
      if engine.Err? {
        return Err(engine.error);
      }
      d := Choose(engine.value, req.md.value, req.garbage, seen, orders(engine.value), intn);
    }

    /** The call of Acquire, and the returns after it. */
    method Ask(d: Result<Target, Reply>, chance: Chance, ghost g: nat, ghost newId: nat, ghost s: L.State)
      returns (r: Reply, ghost asked: seq<Target>, ghost o: P.Outcome, ghost steps: seq<L.Step>, ghost s': L.State)
      requires (if d.Ok? then Has(d.value) else IsRefusal(d.error)) && Ready(s, chance, g, newId)
      modifies Footprint()
      ensures if d.Ok? then r == ReplyTo(o) && asked == [d.value] else r == d.error && asked == []
      ensures Asked(asked, o, g, s, steps, s') && Shows(s') && Concludes(r, g, s')
      ensures forall q :: q in AllPools() && q != PoolAsked(asked) ==> q.channel.buf == old(q.channel.buf)
      ensures forall t :: t in AllTenants() && t != TenantAsked(asked) ==> t.clients.buf == old(t.clients.buf)
    {
      if d.Err? {
        return d.error, [], P.NilClient, [], s;
      }
      var got;
      got, steps, s' := Acquire(d.value, chance, g, newId, s);
      r, asked, o := ReplyTo(got), [d.value], got;
    }

    /** GrpcProxyTransport. Acquire is called once at most, on what the route names; its effect is a run of the
        lifecycle by goroutine g, and afterwards the objects show the new state; the other pools and tenants keep what
        they have. When the director returns, it returns a client or an error, and not both; with a client g holds just
        that client, without one g holds none and has left Acquire. */
    method GrpcProxyTransport(req: Request, seen: Engine -> map<string, Balance.Seen>, orders: Engine -> seq<string>,
                              intn: nat -> nat, chance: Chance, ghost g: nat, ghost newId: nat, ghost s: L.State)
      returns (r: Reply, ghost asked: seq<Target>, ghost o: P.Outcome, ghost steps: seq<L.Step>, ghost s': L.State)
      requires Sees(seen) && (forall e :: Enumerates(orders(e), seen(e).Keys)) && forall n :: n > 0 ==> intn(n) < n
      requires Ready(s, chance, g, newId)
      modifies Footprint()
      ensures Replies(settings, Maps(seen), req, asked, o, r) && Asked(asked, o, g, s, steps, s') && Shows(s')
      ensures Concludes(r, g, s')
      ensures forall q :: q in AllPools() && q != PoolAsked(asked) ==> q.channel.buf == old(q.channel.buf)
      ensures forall t :: t in AllTenants() && t != TenantAsked(asked) ==> t.clients.buf == old(t.clients.buf)
    {
      ghost var p := Maps(seen);
      ghost var route := RouteOf(settings, p, req);
      var d := Decide(req, seen, orders, intn);
      r, asked, o, steps, s' := Ask(d, chance, g, newId, s);
      DecidedReply(route, p, d, asked, o, r);
    }
  }

  // What the reply guarantees.

  /** The address that a request is sent to: without an authority it is empty; in the global network mode it is the
      second part of the authority, between colons; in every other mode it is the whole authority. */
  ghost predicate AddressIs(s: Settings, md: Metadata, addr: string) {
    if md.authority.None? then addr == ""
    else if s.netMode != 2 then addr == md.authority.value
    else
      && ':' !in addr
      && exists host :: ':' !in host
           && (md.authority.value == host + ":" + addr
               || exists rest :: md.authority.value == host + ":" + addr + ":" + rest)
  }

  lemma PartsOfAuthority(host: string, addr: string, rest: string)
    requires ':' !in host && ':' !in addr
    ensures Split(host + ":" + addr, ':') == [host, addr]
    ensures Split(host + ":" + addr + ":" + rest, ':') == [host, addr] + Split(rest, ':')
  {
    SplitOne(host, ':');
    SplitOne(addr, ':');
    SplitAt(host, addr, ':');
    SplitAt(host + ":" + addr, rest, ':');
  }

  lemma SecondPart(authority: string, addr: string)
    ensures (|Split(authority, ':')| >= 2 && Split(authority, ':')[1] == addr)
       <==> ':' !in addr
            && exists host :: ':' !in host
                 && (authority == host + ":" + addr || exists rest :: authority == host + ":" + addr + ":" + rest)
  {
    var parts := Split(authority, ':');
    JoinOfSplit(authority, ':');
    if |parts| >= 2 && parts[1] == addr {
      assert ':' !in parts[0] && ':' !in parts[1];
      if |parts| == 2 {
        assert parts[1..] == [addr];
        assert authority == parts[0] + ":" + addr;
      } else {
        var rest := Join(parts[1..][1..], ':');
        assert authority == parts[0] + ":" + addr + ":" + rest;
      }
    }
    forall host | ':' !in host && ':' !in addr
                  && (authority == host + ":" + addr || exists rest :: authority == host + ":" + addr + ":" + rest)
      ensures |parts| >= 2 && parts[1] == addr
    {
      if authority == host + ":" + addr {
        PartsOfAuthority(host, addr, "");
      } else {
        var rest :| authority == host + ":" + addr + ":" + rest;
        PartsOfAuthority(host, addr, rest);
      }
    }
  }

  lemma AddressIff(s: Settings, md: Metadata, addr: string)
    ensures ServerAddr(s, md) == Some(addr) <==> AddressIs(s, md, addr)
  {
    if md.authority.Some? { SecondPart(md.authority.value, addr); }
  }

  /** The address decides the engine: the ASR proxy's address comes first, then that of TTS; any other is refused. */
  lemma AddressDecides(s: Settings, p: Pools, req: Request, addr: string)
    requires !("/ivc.v1.internal" <= req.fullMethodName) && req.md.Some? && AddressIs(s, req.md.value, addr)
    ensures RouteOf(s, p, req)
         == if addr == s.asrAddr then EngineRoute(s, p, ASR, req.md.value.token, req.garbage)
            else if addr == s.ttsAddr then EngineRoute(s, p, TTS, req.md.value.token, req.garbage)
            else Refuse(UnknownMethod)
  {
    AddressIff(s, req.md.value, addr);
  }

  /** So in the global network mode the port of host:port decides. */
  lemma PortDecides(s: Settings, p: Pools, req: Request, host: string, port: string)
    requires !("/ivc.v1.internal" <= req.fullMethodName) && req.md.Some?
    requires s.netMode == 2 && ':' !in host && ':' !in port
    requires req.md.value.authority == Some(host + ":" + port)
    ensures RouteOf(s, p, req)
         == if port == s.asrAddr then EngineRoute(s, p, ASR, req.md.value.token, req.garbage)
            else if port == s.ttsAddr then EngineRoute(s, p, TTS, req.md.value.token, req.garbage)
            else Refuse(UnknownMethod)
  {
    AddressDecides(s, p, req, port);
  }

  /** The two places where the director panics: an authority without a colon in the global network mode, and a
      balancer with several pools of which none is live. */
  lemma PanicsIff(s: Settings, p: Pools, req: Request, asked: seq<Target>, o: P.Outcome, r: Reply)
    requires Replies(s, p, req, asked, o, r)
    ensures r == Panics <==>
              && !("/ivc.v1.internal" <= req.fullMethodName) && req.md.Some?
              && var md := req.md.value;
                 || (s.netMode == 2 && md.authority.Some? && ':' !in md.authority.value)
                 || (!s.omp && !s.tenant
                     && exists addr :: AddressIs(s, md, addr)
                          && if addr == s.asrAddr then Unbalanced(p, ASR) else addr == s.ttsAddr && Unbalanced(p, TTS))
  {
    if req.md.Some? {
      var md := req.md.value;
      if md.authority.Some? { SplitCount(md.authority.value, ':'); }
      forall addr ensures ServerAddr(s, md) == Some(addr) <==> AddressIs(s, md, addr) { AddressIff(s, md, addr); }
      if ServerAddr(s, md).Some? { assert AddressIs(s, md, ServerAddr(s, md).value); }
    }
  }

  /** What is refused, and why: internal methods; requests without metadata; with online configuration or tenants,
      requests without a token, with a token that has no second part, or with one that names no pool, or no tenant. */
  lemma Refusals(s: Settings, p: Pools, req: Request, engine: Engine, token: string, code: string)
    ensures "/ivc.v1.internal" <= req.fullMethodName ==> RouteOf(s, p, req) == Refuse(UnsupportedMethod)
    ensures !("/ivc.v1.internal" <= req.fullMethodName) && req.md.None? ==> RouteOf(s, p, req) == Refuse(UnknownMethod)
    ensures s.omp || s.tenant ==>
              && EngineRoute(s, p, engine, None, req.garbage) == Refuse(UnknownMethod)
              && (Token.Decode(token).Some? && '-' !in Token.Decode(token).value ==>
                    EngineRoute(s, p, engine, Some(token), req.garbage) == Refuse(UnknownToken))
              && (Token.Selected(token) == Some(code)
                  && (if s.omp then code !in (if engine == ASR then p.asr.Keys else p.tts.Keys)
                      else code !in (if engine == ASR then p.asrTenants else p.ttsTenants)) ==>
                    EngineRoute(s, p, engine, Some(token), req.garbage) == Refuse(UnknownPool))
  {
    if Token.Decode(token).Some? { SplitCount(Token.Decode(token).value, '-'); }
  }

  /** A token that is no base64 is read as what the decoder yields before its error. */
  lemma MalformedToken(s: Settings, p: Pools, engine: Engine, token: string, user: string, code: string, rest: string)
    requires (s.omp || s.tenant) && Token.Decode(token).None? && '-' !in user && '-' !in code
    requires code in (if s.omp then (if engine == ASR then p.asr.Keys else p.tts.Keys)
                      else if engine == ASR then p.asrTenants else p.ttsTenants)
    ensures EngineRoute(s, p, engine, Some(token), user + "-" + code + "-" + rest)
         == To(if s.omp then PoolOf(engine, code) else TenantOf(engine, code))
    ensures EngineRoute(s, p, engine, Some(token), user) == Refuse(UnknownToken)
  {
    Token.TokenParts(user, code, rest);
    SplitOne(user, '-');
    SplitOne(code, '-');
  }

  /** Without online configuration and tenants the balancer of the engine answers, with or without a token. */
  lemma WithoutTokens(s: Settings, p: Pools, engine: Engine, token: Option<string>, garbage: string)
    ensures !s.omp && !s.tenant <==> EngineRoute(s, p, engine, token, garbage) == ToAny(engine)
  {}

  /** A call of Acquire that returns without a client, be it with an error or not, makes the method an unknown one. */
  lemma NoClientReply(o: P.Outcome)
    requires o == P.PoolClosed || o == P.NilClient || o == P.DialFailed
    ensures ReplyTo(o) == Returned(null, Some(UnknownMethod))
  {}

  /** A request of a user for a scene, with a token made by strEncode, that is sent to the address of an engine. */
  ghost predicate AsksFor(s: Settings, req: Request, engine: Engine, user: string, scene: string, rand: string) {
    && Token.IsBytes(user) && Token.IsBytes(scene) && Token.IsBytes(rand)
    && !("/ivc.v1.internal" <= req.fullMethodName) && req.md.Some?
    && AddressIs(s, req.md.value, if engine == ASR then s.asrAddr else s.ttsAddr)
    && (engine == TTS ==> s.ttsAddr != s.asrAddr)
    && req.md.value.token == Some(Token.Encode(Token.TokenText(user, scene, rand)))
  }

  /** Routing: with online configuration the director asks exactly the pool that the token selects, if the map of the
      engine has it, and without that exactly the tenant. */
  lemma RoutesByToken(s: Settings, p: Pools, req: Request, engine: Engine, user: string, scene: string, rand: string)
    requires AsksFor(s, req, engine, user, scene, rand) && (s.omp || s.tenant)
    ensures Token.Selected(req.md.value.token.value) == Some(Token.Routed(user, scene))
    ensures var code := Token.Routed(user, scene);
            && (s.omp && code in (if engine == ASR then p.asr.Keys else p.tts.Keys) ==>
                  RouteOf(s, p, req) == To(PoolOf(engine, code)))
            && (!s.omp && code in (if engine == ASR then p.asrTenants else p.ttsTenants) ==>
                  RouteOf(s, p, req) == To(TenantOf(engine, code)))
            && (code !in (if s.omp then (if engine == ASR then p.asr.Keys else p.tts.Keys)
                          else if engine == ASR then p.asrTenants else p.ttsTenants) ==>
                  RouteOf(s, p, req) == Refuse(UnknownPool))
  {
    Token.SelectedCode(user, scene, rand);
    AddressDecides(s, p, req, if engine == ASR then s.asrAddr else s.ttsAddr);
  }

  /** So a scene that has a pool, and a user without a dash: the request is served by that pool exactly when the scene
      has no dash either; and in the same way by its tenant when there is no online configuration. */
  lemma ServedByScene(s: Settings, p: Pools, req: Request, engine: Engine, user: string, scene: string, rand: string)
    requires AsksFor(s, req, engine, user, scene, rand) && '-' !in user
    ensures s.omp && scene in (if engine == ASR then p.asr.Keys else p.tts.Keys) ==>
              (RouteOf(s, p, req) == To(PoolOf(engine, scene)) <==> '-' !in scene)
    ensures !s.omp && s.tenant && scene in (if engine == ASR then p.asrTenants else p.ttsTenants) ==>
              (RouteOf(s, p, req) == To(TenantOf(engine, scene)) <==> '-' !in scene)
  {
    if s.omp || s.tenant {
      RoutesByToken(s, p, req, engine, user, scene, rand);
      Token.RoutesToScene(user, scene, rand);
    }
  }

  /** A user with a dash is routed by its own second part, for all scenes alike. */
  lemma UserDecides(s: Settings, p: Pools, req: Request, req': Request, engine: Engine,
                    user: string, scene: string, scene': string, rand: string, rand': string)
    requires AsksFor(s, req, engine, user, scene, rand) && AsksFor(s, req', engine, user, scene', rand')
    requires (s.omp || s.tenant) && '-' in user
    ensures RouteOf(s, p, req) == RouteOf(s, p, req')
  {
    RoutesByToken(s, p, req, engine, user, scene, rand);
    RoutesByToken(s, p, req', engine, user, scene', rand');
    SplitCount(user, '-');
  }
}

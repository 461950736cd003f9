/**
  grpc.go: the discovery loop that keeps the two maps of pools in step with the services it observes.

  A pool is named by its number of creation; `made` remembers every pool ever made, with the history of
  what became of it. What the cluster answers about a service comes with the service.
 */
module Reconcile {
  import opened Wrappers
  import opened Text

  /** One entry of the engine list of PoolConfig, with what initPool gets of it. */
  datatype Entry = Entry(name: string, idle: int, maxLife: int, mode: int)

  /** A service as one visit finds it: its name, whether it answers, the addresses of its endpoints, whether
      the chosen address answers, and whether the connections of a new pool can be dialled. */
  datatype Service = Service(name: string, live: bool, endpoints: seq<seq<string>>, podLive: bool, dial: bool)

  datatype Made = Made(capacity: int, closed: bool, engine: string, name: string)

  datatype Registry = Registry(asr: map<string, nat>, tts: map<string, nat>, made: seq<Made>)

  const EMPTY := Registry(map[], map[], [])

  // What one visit of a service does.

  datatype Wanted = Wanted(engine: string, number: int, scene: string)

  /** A service name: engine type, number of connections and scene code. */
  function Parse(name: string): Option<Wanted> {
    var parts := Split(name, '-');
    if |parts| != 3 || Atoi(parts[1]).None? then None
    else Some(Wanted(parts[0], Atoi(parts[1]).value, parts[2]))
  }

  predicate Known(engine: string) {
    engine == "asr" || engine == "tts"
  }

  function PoolsOf(r: Registry, engine: string): map<string, nat>
    requires Known(engine)
  {
    if engine == "asr" then r.asr else r.tts
  }

  function WithPools(r: Registry, engine: string, pools: map<string, nat>): Registry
    requires Known(engine)
  {
    if engine == "asr" then r.(asr := pools) else r.(tts := pools)
  }

  /** Every number in the maps names a pool that has been made. */
  predicate Linked(r: Registry) {
    && (forall k :: k in r.asr ==> r.asr[k] < |r.made|)
    && (forall k :: k in r.tts ==> r.tts[k] < |r.made|)
  }

  /** The capacity of the pool of a scene. */
  function CapOf(r: Registry, engine: string, scene: string): Option<int>
    requires Known(engine) && Linked(r)
  {
    if scene in PoolsOf(r, engine) then Some(r.made[PoolsOf(r, engine)[scene]].capacity) else None
  }

  /** ReleaseGrpcPool */
  function Release(r: Registry, engine: string, scene: string): (r': Registry)
    requires Linked(r)
    ensures Linked(r')
  {
    if !Known(engine) || scene !in PoolsOf(r, engine) then r
    else
      var id := PoolsOf(r, engine)[scene];
      WithPools(r, engine, PoolsOf(r, engine) - {scene}).(made := r.made[id := r.made[id].(closed := true)])
  }

  /** What initPool demands; the requests for connections are as many as the capacity. */
  predicate CanMake(e: Entry, size: int) {
    size > 0 && e.idle >= 0 && e.maxLife >= 0
  }

  function Store(r: Registry, engine: string, scene: string, capacity: int): (r': Registry)
    requires Linked(r)
    ensures Linked(r')
  {
    var r1 := r.(made := r.made + [Made(capacity, false, engine, scene)]);
    if Known(engine) then WithPools(r1, engine, PoolsOf(r, engine)[scene := |r.made|]) else r1
  }

  /** InitGrpcPoolByOmp; None when it ends the program. */
  function Build(r: Registry, config: seq<Entry>, want: Wanted, dial: bool): (r': Option<Registry>)
    requires Linked(r)
    ensures r'.Some? ==> Linked(r'.value)
    decreases |config|
  {
    if config == [] then Some(r)
    else if Lower(config[0].name) != want.engine then Build(r, config[1..], want, dial)
    else if !CanMake(config[0], Int32(want.number)) || !dial then None
    else Build(Store(r, want.engine, want.scene, Int32(want.number)), config[1..], want, dial)
  }

  /** The last of all addresses, "" when there is none. */
  function LastAddress(endpoints: seq<seq<string>>): string {
    if endpoints == [] then ""
    else
      var subset := endpoints[|endpoints| - 1];
      if subset != [] then subset[|subset| - 1] else LastAddress(endpoints[..|endpoints| - 1])
  }

  predicate Reachable(svc: Service) {
    LastAddress(svc.endpoints) != "" && svc.podLive
  }

  /** The pool of the scene has the wanted capacity. */
  predicate Settled(r: Registry, want: Wanted)
    requires Linked(r)
  {
    Known(want.engine) && CapOf(r, want.engine, want.scene) == Some(Int32(want.number))
  }

  /** One service; None when the program ends. */
  function Visit(r: Registry, config: seq<Entry>, svc: Service): (r': Option<Registry>)
    requires Linked(r)
    ensures r'.Some? ==> Linked(r'.value)
  {
    if !svc.live || Parse(svc.name).None? then Some(r)
    else
      var want := Parse(svc.name).value;
      if Settled(r, want) then Some(r)
      else
        var released := Release(r, want.engine, want.scene);
        if Reachable(svc) then Build(released, config, want, svc.dial) else Some(released)
  }

  /** One round over a list of services. */
  function Visits(r: Registry, config: seq<Entry>, svcs: seq<Service>): (r': Option<Registry>)
    requires Linked(r)
    ensures r'.Some? ==> Linked(r'.value)
    decreases |svcs|
  {
    if svcs == [] then Some(r)
    else
      var next := Visit(r, config, svcs[0]);
      if next.None? then None else Visits(next.value, config, svcs[1..])
  }

  // Several services, rounds after each other.

  lemma {:induction false} VisitsAppend(r: Registry, config: seq<Entry>, svcs: seq<Service>, more: seq<Service>)
    requires Linked(r)
    ensures Visits(r, config, svcs + more)
         == (var mid := Visits(r, config, svcs); if mid.None? then None else Visits(mid.value, config, more))
    decreases |svcs|
  {
    if svcs == [] {
      assert svcs + more == more;
    } else {
      assert (svcs + more)[1..] == svcs[1..] + more;
      var next := Visit(r, config, svcs[0]);
      if next.Some? { VisitsAppend(next.value, config, svcs[1..], more); }
    }
  }

  // Each scene by itself.

  /** The configuration has an entry for this engine. */
  predicate Configured(config: seq<Entry>, engine: string) {
    exists i :: 0 <= i < |config| && Lower(config[i].name) == engine
  }

  /** The service is live and speaks about this scene of this engine. */
  predicate Concerns(svc: Service, engine: string, scene: string) {
    svc.live && Parse(svc.name).Some? && Parse(svc.name).value.engine == engine && Parse(svc.name).value.scene == scene
  }

  function NumberOf(svc: Service): int
    requires Parse(svc.name).Some?
  {
    Int32(Parse(svc.name).value.number)
  }

  /** What a service does to the capacity of one scene. */
  function CapStep(cap: Option<int>, config: seq<Entry>, engine: string, scene: string, svc: Service): Option<int> {
    if !Concerns(svc, engine, scene) || cap == Some(NumberOf(svc)) then cap
    else if LastAddress(svc.endpoints) != "" && svc.podLive && Configured(config, engine) then Some(NumberOf(svc))
    else None
  }

  function CapRun(cap: Option<int>, config: seq<Entry>, engine: string, scene: string, svcs: seq<Service>): Option<int>
    decreases |svcs|
  {
    if svcs == [] then cap
    else CapRun(CapStep(cap, config, engine, scene, svcs[0]), config, engine, scene, svcs[1..])
  }

  lemma StoreCap(r: Registry, engine: string, scene: string, capacity: int, engine': string, scene': string)
    requires Linked(r) && Known(engine')
    ensures CapOf(Store(r, engine, scene, capacity), engine', scene')
         == if engine == engine' && scene == scene' then Some(capacity) else CapOf(r, engine', scene')
  {}

  lemma ConfiguredRest(config: seq<Entry>, engine: string)
    requires config != []
    ensures Configured(config, engine) <==> Lower(config[0].name) == engine || Configured(config[1..], engine)
  {
    if Configured(config, engine) && Lower(config[0].name) != engine {
      var i :| 0 <= i < |config| && Lower(config[i].name) == engine;
      assert config[1..][i - 1] == config[i];
    }
    if Configured(config[1..], engine) {
      var i :| 0 <= i < |config[1..]| && Lower(config[1..][i].name) == engine;
      assert config[1..][i] == config[i + 1];
    }
  }

  lemma {:induction false} BuildCap(r: Registry, config: seq<Entry>, want: Wanted, dial: bool, engine: string,
                                    scene: string)
    requires Linked(r) && Known(engine) && Build(r, config, want, dial).Some?
    ensures CapOf(Build(r, config, want, dial).value, engine, scene)
         == if engine == want.engine && scene == want.scene && Configured(config, engine) then Some(Int32(want.number))
            else CapOf(r, engine, scene)
    decreases |config|
  {
    if config != [] {
      ConfiguredRest(config, engine);
      if Lower(config[0].name) != want.engine {
        BuildCap(r, config[1..], want, dial, engine, scene);
      } else {
        StoreCap(r, want.engine, want.scene, Int32(want.number), engine, scene);
        BuildCap(Store(r, want.engine, want.scene, Int32(want.number)), config[1..], want, dial, engine, scene);
      }
    }
  }

  lemma ReleaseCap(r: Registry, engine: string, scene: string, engine': string, scene': string)
    requires Linked(r) && Known(engine')
    ensures CapOf(Release(r, engine, scene), engine', scene')
         == if engine == engine' && scene == scene' then None else CapOf(r, engine', scene')
  {}

  lemma VisitCap(r: Registry, config: seq<Entry>, svc: Service, engine: string, scene: string)
    requires Linked(r) && Known(engine) && Visit(r, config, svc).Some?
    ensures CapOf(Visit(r, config, svc).value, engine, scene)
         == CapStep(CapOf(r, engine, scene), config, engine, scene, svc)
  {
    if svc.live && Parse(svc.name).Some? {
      var want := Parse(svc.name).value;
      ReleaseCap(r, want.engine, want.scene, engine, scene);
      if !Settled(r, want) && Reachable(svc) {
        BuildCap(Release(r, want.engine, want.scene), config, want, svc.dial, engine, scene);
      }
    }
  }

  /** Scenes do not disturb each other: what a round does to the capacity of a scene follows from the services
      that concern it, one after the other. */
  lemma {:induction false} RoundByScene(r: Registry, config: seq<Entry>, svcs: seq<Service>, engine: string,
                                        scene: string)
    requires Linked(r) && Known(engine) && Visits(r, config, svcs).Some?
    ensures CapOf(Visits(r, config, svcs).value, engine, scene)
         == CapRun(CapOf(r, engine, scene), config, engine, scene, svcs)
    decreases |svcs|
  {
    if svcs != [] {
      VisitCap(r, config, svcs[0], engine, scene);
      RoundByScene(Visit(r, config, svcs[0]).value, config, svcs[1..], engine, scene);
    }
  }
}

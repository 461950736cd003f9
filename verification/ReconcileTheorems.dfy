/** What discovery achieves: no pool is lost, the pools come to agree with the services, and stay so. */
module ReconcileTheorems {
  import opened Wrappers
  import opened Text
  import opened Reconcile

  // What names say.

  /** The name has three parts without dashes, the second of which writes n. */
  ghost predicate Names(name: string, engine: string, n: int, scene: string) {
    exists number :: '-' !in engine && '-' !in number && '-' !in scene && name == Join([engine, number, scene], '-')
                     && Atoi(number) == Some(n)
  }

  /** Exactly such names are understood. */
  lemma ParseIff(name: string, want: Wanted)
    ensures Parse(name) == Some(want) <==> Names(name, want.engine, want.number, want.scene)
  {
    var parts := Split(name, '-');
    JoinOfSplit(name, '-');
    if Parse(name) == Some(want) {
      assert parts == [want.engine, parts[1], want.scene];
    }
    forall number | '-' !in want.engine && '-' !in number && '-' !in want.scene
                    && name == Join([want.engine, number, want.scene], '-')
      ensures parts == [want.engine, number, want.scene]
    {
      SplitOfJoin([want.engine, number, want.scene], '-');
    }
  }

  /** A service with any other name, or that does not answer, is passed over: no pool is closed or made. */
  lemma OtherNamesIgnored(r: Registry, config: seq<Entry>, svc: Service)
    requires Linked(r) && (!svc.live || forall engine, n, scene :: !Names(svc.name, engine, n, scene))
    ensures Visit(r, config, svc) == Some(r)
  {
    if Parse(svc.name).Some? { ParseIff(svc.name, Parse(svc.name).value); }
  }

  /** So a name of three parts whose second writes no number does nothing to the pool of its third. */
  lemma NoNumberIgnored(r: Registry, config: seq<Entry>, svc: Service, engine: string, number: string, scene: string)
    requires Linked(r) && '-' !in engine && '-' !in number && '-' !in scene
    requires svc.name == Join([engine, number, scene], '-') && forall digits, n :: !Writes(number, digits, n)
    ensures Visit(r, config, svc) == Some(r)
  {
    SplitOfJoin([engine, number, scene], '-');
    AtoiRefuses(number);
  }

  /** An entry is for an engine exactly when its name spells the engine's, but for capitals. */
  lemma ConfiguredIff(config: seq<Entry>, engine: string)
    requires forall i :: 0 <= i < |engine| ==> !('A' <= engine[i] <= 'Z')
    ensures Configured(config, engine) <==> exists i :: 0 <= i < |config| && SpellsAs(config[i].name, engine)
  {
    forall i | 0 <= i < |config| ensures Lower(config[i].name) == engine <==> SpellsAs(config[i].name, engine) {
      LowerIff(config[i].name, engine);
    }
  }

  // What becomes of a new pool.

  /** One of the entries for this engine is refused by initPool, which ends the program. */
  predicate AnyRefused(config: seq<Entry>, engine: string) {
    exists i :: 0 <= i < |config| && Lower(config[i].name) == engine && (config[i].idle < 0 || config[i].maxLife < 0)
  }

  lemma RefusedRest(config: seq<Entry>, engine: string)
    requires config != []
    ensures AnyRefused(config, engine)
       <==> (Lower(config[0].name) == engine && (config[0].idle < 0 || config[0].maxLife < 0))
            || AnyRefused(config[1..], engine)
  {
    if AnyRefused(config[1..], engine) {
      var i :| && 0 <= i < |config[1..]| && Lower(config[1..][i].name) == engine
               && (config[1..][i].idle < 0 || config[1..][i].maxLife < 0);
      assert config[1..][i] == config[i + 1];
    }
    forall i | 1 <= i < |config| ensures config[i] == config[1..][i - 1] {}
  }

  /** InitGrpcPoolByOmp ends the program exactly when there is an entry for the engine and one of them is refused, the
      size is not positive, or dialling fails. */
  lemma {:induction false} BuildDiesIff(r: Registry, config: seq<Entry>, want: Wanted, dial: bool)
    requires Linked(r)
    ensures Build(r, config, want, dial).None?
       <==> Configured(config, want.engine)
            && (AnyRefused(config, want.engine) || Int32(want.number) <= 0 || !dial)
    decreases |config|
  {
    if config != [] {
      ConfiguredRest(config, want.engine);
      RefusedRest(config, want.engine);
      if Lower(config[0].name) != want.engine {
        BuildDiesIff(r, config[1..], want, dial);
      } else if CanMake(config[0], Int32(want.number)) && dial {
        BuildDiesIff(Store(r, want.engine, want.scene, Int32(want.number)), config[1..], want, dial);
      }
    }
  }

  /** An entry that spells the engine's name, accepted, and connections that can be dialled: the scene gets a pool of
      int32 of the number. */
  lemma BuildsForSpelling(r: Registry, config: seq<Entry>, i: nat, want: Wanted)
    requires Linked(r) && Known(want.engine) && i < |config| && SpellsAs(config[i].name, want.engine)
    requires !AnyRefused(config, want.engine) && Int32(want.number) > 0
    ensures Build(r, config, want, true).Some?
    ensures CapOf(Build(r, config, want, true).value, want.engine, want.scene) == Some(Int32(want.number))
  {
    ConfiguredIff(config, want.engine);
    BuildDiesIff(r, config, want, true);
    BuildCap(r, config, want, true, want.engine, want.scene);
  }

  /** The names in use: all three spell the engine's. */
  lemma SpellingsOfAsr()
    ensures SpellsAs("ASR", "asr") && SpellsAs("Asr", "asr") && SpellsAs("asr", "asr") && !SpellsAs("tts", "asr")
  {
    assert "tts"[0] != "asr"[0];
  }

  /** The address chosen is the last one in the order of the lists; none when all lists are empty. */
  lemma {:induction false} LastAddressIs(before: seq<seq<string>>, subset: seq<string>, ip: string,
                                         after: seq<seq<string>>)
    requires forall i :: 0 <= i < |after| ==> after[i] == []
    ensures LastAddress(before + [subset + [ip]] + after) == ip
    ensures LastAddress(after) == ""
    decreases |after|
  {
    var all := before + [subset + [ip]] + after;
    if after == [] {
      assert all[|all| - 1] == subset + [ip];
    } else {
      LastAddressIs(before, subset, ip, after[..|after| - 1]);
      assert all[..|all| - 1] == before + [subset + [ip]] + after[..|after| - 1];
      assert all[|all| - 1] == [];
    }
  }

  // No open pool is lost.

  /** Every open pool is in the map of its engine under its scene, and the maps hold nothing else. */
  predicate Owned(r: Registry) {
    && Linked(r)
    && (forall id :: 0 <= id < |r.made| && !r.made[id].closed ==>
          var m := r.made[id]; Known(m.engine) && m.name in PoolsOf(r, m.engine) && PoolsOf(r, m.engine)[m.name] == id)
    && (forall k :: k in r.asr ==> var m := r.made[r.asr[k]]; !m.closed && m.engine == "asr" && m.name == k)
    && (forall k :: k in r.tts ==> var m := r.made[r.tts[k]]; !m.closed && m.engine == "tts" && m.name == k)
  }

  /** How many entries of the configuration are for this engine. */
  function Count(config: seq<Entry>, engine: string): nat {
    if config == [] then 0
    else (if Lower(config[0].name) == engine then 1 else 0) + Count(config[1..], engine)
  }

  /** Service names of this engine cannot lose a pool: there are none, or they end the program, or they make one
      pool for a map that exists. */
  predicate EngineOk(config: seq<Entry>, engine: string) {
    '-' in engine || AnyRefused(config, engine) || (Known(engine) && Count(config, engine) == 1)
  }

  predicate ConfigOk(config: seq<Entry>) {
    forall i :: 0 <= i < |config| ==> EngineOk(config, Lower(config[i].name))
  }

  lemma {:induction false} CountSome(config: seq<Entry>, engine: string)
    ensures Count(config, engine) > 0 <==> Configured(config, engine)
  {
    if config != [] {
      ConfiguredRest(config, engine);
      CountSome(config[1..], engine);
    }
  }

  lemma {:induction false} RefusedDies(r: Registry, config: seq<Entry>, want: Wanted, dial: bool)
    requires Linked(r) && AnyRefused(config, want.engine)
    ensures Build(r, config, want, dial).None?
    decreases |config|
  {
    var i :| 0 <= i < |config| && Lower(config[i].name) == want.engine && (config[i].idle < 0 || config[i].maxLife < 0);
    if i > 0 {
      assert config[1..][i - 1] == config[i];
      assert AnyRefused(config[1..], want.engine);
      if Lower(config[0].name) != want.engine {
        RefusedDies(r, config[1..], want, dial);
      } else {
        RefusedDies(Store(r, want.engine, want.scene, Int32(want.number)), config[1..], want, dial);
      }
    }
  }

  lemma StoreOwned(r: Registry, engine: string, scene: string, capacity: int)
    requires Owned(r) && Known(engine) && scene !in PoolsOf(r, engine)
    ensures Owned(Store(r, engine, scene, capacity))
  {}

  lemma {:induction false} BuildNothing(r: Registry, config: seq<Entry>, want: Wanted, dial: bool)
    requires Linked(r) && Count(config, want.engine) == 0
    ensures Build(r, config, want, dial) == Some(r)
    decreases |config|
  {
    if config != [] { BuildNothing(r, config[1..], want, dial); }
  }

  lemma {:induction false} BuildOwned(r: Registry, config: seq<Entry>, want: Wanted, dial: bool)
    requires Owned(r) && Known(want.engine) && want.scene !in PoolsOf(r, want.engine)
    requires Count(config, want.engine) == 1 && Build(r, config, want, dial).Some?
    ensures Owned(Build(r, config, want, dial).value)
    decreases |config|
  {
    if Lower(config[0].name) != want.engine {
      BuildOwned(r, config[1..], want, dial);
    } else {
      StoreOwned(r, want.engine, want.scene, Int32(want.number));
      BuildNothing(Store(r, want.engine, want.scene, Int32(want.number)), config[1..], want, dial);
    }
  }

  lemma ReleaseOwned(r: Registry, engine: string, scene: string)
    requires Owned(r)
    ensures Owned(Release(r, engine, scene))
    ensures Known(engine) ==> scene !in PoolsOf(Release(r, engine, scene), engine)
  {}

  lemma VisitOwned(r: Registry, config: seq<Entry>, svc: Service)
    requires Owned(r) && ConfigOk(config) && Visit(r, config, svc).Some?
    ensures Owned(Visit(r, config, svc).value)
  {
    if svc.live && Parse(svc.name).Some? {
      var want := Parse(svc.name).value;
      JoinOfSplit(svc.name, '-');
      ReleaseOwned(r, want.engine, want.scene);
      CountSome(config, want.engine);
      if !Settled(r, want) && Reachable(svc) {
        var released := Release(r, want.engine, want.scene);
        if !Configured(config, want.engine) {
          BuildNothing(released, config, want, svc.dial);
        } else if AnyRefused(config, want.engine) {
          RefusedDies(released, config, want, svc.dial);
        } else {
          BuildOwned(released, config, want, svc.dial);
        }
      }
    }
  }

  lemma {:induction false} VisitsOwned(r: Registry, config: seq<Entry>, svcs: seq<Service>)
    requires Owned(r) && ConfigOk(config) && Visits(r, config, svcs).Some?
    ensures Owned(Visits(r, config, svcs).value)
    decreases |svcs|
  {
    if svcs != [] {
      VisitOwned(r, config, svcs[0]);
      VisitsOwned(Visit(r, config, svcs[0]).value, config, svcs[1..]);
    }
  }

  /** Unless it ends the program, InitGrpcPoolByOmp makes one open pool for every entry of the engine. */
  lemma {:induction false} BuildAll(r: Registry, config: seq<Entry>, want: Wanted)
    requires Linked(r) && !AnyRefused(config, want.engine) && Int32(want.number) > 0
    ensures Build(r, config, want, true).Some?
    ensures var made := Build(r, config, want, true).value.made;
            && |made| == |r.made| + Count(config, want.engine) && r.made <= made
            && forall id :: |r.made| <= id < |made| ==>
                 made[id] == Made(Int32(want.number), false, want.engine, want.scene)
    decreases |config|
  {
    if config != [] {
      assert !AnyRefused(config[1..], want.engine) by {
        forall i | 0 <= i < |config[1..]| && Lower(config[1..][i].name) == want.engine
          ensures config[1..][i].idle >= 0 && config[1..][i].maxLife >= 0 {
          assert config[1..][i] == config[i + 1];
        }
      }
      if Lower(config[0].name) != want.engine {
        BuildAll(r, config[1..], want);
      } else {
        BuildAll(Store(r, want.engine, want.scene, Int32(want.number)), config[1..], want);
      }
    }
  }

  /** A name with one connection for scene x. */
  function ProbeName(engine: string): string {
    Join([engine, "1", "x"], '-')
  }

  /** A service of that name which can be reached. */
  function Probe(engine: string): Service {
    Service(ProbeName(engine), true, [["1"]], true, true)
  }

  lemma ProbeParses(engine: string)
    requires '-' !in engine
    ensures Parse(ProbeName(engine)) == Some(Wanted(engine, 1, "x"))
  {
    SplitOfJoin([engine, "1", "x"], '-');
    AtoiOfDecimal(1);
    assert Decimal(1) == "1";
  }

  lemma ProbeVisit(config: seq<Entry>, engine: string)
    requires '-' !in engine
    ensures Visits(EMPTY, config, [Probe(engine)]) == Build(EMPTY, config, Wanted(engine, 1, "x"), true)
  {
    ProbeParses(engine);
    var svc := Probe(engine);
    assert LastAddress([["1"]]) == "1";
    assert Release(EMPTY, engine, "x") == EMPTY;
    assert !Settled(EMPTY, Wanted(engine, 1, "x"));
    var r := Visit(EMPTY, config, svc);
    assert [svc][1..] == [];
  }

  lemma TwoForOneScene(r: Registry, engine: string)
    requires |r.made| > 0 && r.made[0] == Made(1, false, engine, "x")
    requires Known(engine) ==> |r.made| > 1 && r.made[1] == Made(1, false, engine, "x")
    ensures !Owned(r)
  {}

  /** One service is enough to lose a pool when the configuration is not as it should be. */
  lemma LosesPool(config: seq<Entry>, i: nat)
    requires i < |config| && !EngineOk(config, Lower(config[i].name))
    ensures exists svc :: Visits(EMPTY, config, [svc]).Some? && !Owned(Visits(EMPTY, config, [svc]).value)
  {
    var engine := Lower(config[i].name);
    assert Configured(config, engine);
    CountSome(config, engine);
    ProbeVisit(config, engine);
    BuildAll(EMPTY, config, Wanted(engine, 1, "x"));
    TwoForOneScene(Build(EMPTY, config, Wanted(engine, 1, "x"), true).value, engine);
    var svc := Probe(engine);
    assert Visits(EMPTY, config, [svc]).Some?;
  }

  /** The discovery loop never drops an open pool, over any sequence of service lists and probe results, exactly
      when every engine that a service name can have is configured once at most and has a map, or is refused. */
  lemma NoPoolLostIff(config: seq<Entry>)
    ensures (forall svcs :: Visits(EMPTY, config, svcs).Some? ==> Owned(Visits(EMPTY, config, svcs).value))
       <==> ConfigOk(config)
  {
    if ConfigOk(config) {
      forall svcs | Visits(EMPTY, config, svcs).Some? ensures Owned(Visits(EMPTY, config, svcs).value) {
        VisitsOwned(EMPTY, config, svcs);
      }
    } else {
      var i :| 0 <= i < |config| && !EngineOk(config, Lower(config[i].name));
      LosesPool(config, i);
    }
  }

  // The last service of a scene decides.

  lemma {:induction false} NoConcern(cap: Option<int>, config: seq<Entry>, engine: string, scene: string,
                                     svcs: seq<Service>)
    requires forall i :: 0 <= i < |svcs| ==> !Concerns(svcs[i], engine, scene)
    ensures CapRun(cap, config, engine, scene, svcs) == cap
    decreases |svcs|
  {
    if svcs != [] { NoConcern(cap, config, engine, scene, svcs[1..]); }
  }

  ghost predicate LastOf(svcs: seq<Service>, j: nat, engine: string, scene: string) {
    && j < |svcs| && Concerns(svcs[j], engine, scene)
    && forall i :: j < i < |svcs| ==> !Concerns(svcs[i], engine, scene)
  }

  /** After a round a scene that was spoken of has a pool of the size its last service names, or none. It has one
      exactly when it had that size just before, or the service was reachable and the engine is configured. */
  lemma LastServiceDecides(r: Registry, config: seq<Entry>, svcs: seq<Service>, j: nat, engine: string, scene: string)
    requires Linked(r) && Known(engine) && Visits(r, config, svcs).Some? && LastOf(svcs, j, engine, scene)
    ensures Visits(r, config, svcs[..j]).Some?
    ensures CapOf(Visits(r, config, svcs).value, engine, scene)
         == if CapOf(Visits(r, config, svcs[..j]).value, engine, scene) == Some(NumberOf(svcs[j]))
               || (LastAddress(svcs[j].endpoints) != "" && svcs[j].podLive && Configured(config, engine))
            then Some(NumberOf(svcs[j])) else None
  {
    assert svcs == svcs[..j] + svcs[j..];
    VisitsAppend(r, config, svcs[..j], svcs[j..]);
    var mid := Visits(r, config, svcs[..j]).value;
    RoundByScene(mid, config, svcs[j..], engine, scene);
    NoConcern(CapStep(CapOf(mid, engine, scene), config, engine, scene, svcs[j]),
              config, engine, scene, svcs[j..][1..]);
  }

  /** No pool is in the maps twice. */
  predicate Unshared(r: Registry) {
    && Linked(r)
    && (forall k, j :: k in r.asr && j in r.asr && k != j ==> r.asr[k] != r.asr[j])
    && (forall k, j :: k in r.tts && j in r.tts && k != j ==> r.tts[k] != r.tts[j])
    && (forall k, j :: k in r.asr && j in r.tts ==> r.asr[k] != r.tts[j])
  }

  ghost predicate SamePool(r: Registry, r': Registry, engine: string, scene: string)
    requires Known(engine) && Linked(r) && Linked(r')
  {
    && (scene in PoolsOf(r, engine) <==> scene in PoolsOf(r', engine))
    && (scene in PoolsOf(r, engine) ==>
          var id := PoolsOf(r, engine)[scene]; PoolsOf(r', engine)[scene] == id && r'.made[id] == r.made[id])
  }

  lemma StoreUntouched(r: Registry, want: Wanted, engine: string, scene: string)
    requires Unshared(r) && Known(engine) && !(want.engine == engine && want.scene == scene)
    ensures Unshared(Store(r, want.engine, want.scene, Int32(want.number)))
    ensures SamePool(r, Store(r, want.engine, want.scene, Int32(want.number)), engine, scene)
  {}

  lemma {:induction false} BuildUntouched(r: Registry, config: seq<Entry>, want: Wanted, dial: bool, engine: string,
                                          scene: string)
    requires Unshared(r) && Known(engine) && !(want.engine == engine && want.scene == scene)
    requires Build(r, config, want, dial).Some?
    ensures Unshared(Build(r, config, want, dial).value)
    ensures SamePool(r, Build(r, config, want, dial).value, engine, scene)
    decreases |config|
  {
    if config != [] {
      if Lower(config[0].name) != want.engine {
        BuildUntouched(r, config[1..], want, dial, engine, scene);
      } else {
        StoreUntouched(r, want, engine, scene);
        BuildUntouched(Store(r, want.engine, want.scene, Int32(want.number)), config[1..], want, dial, engine, scene);
      }
    }
  }

  lemma ReleaseUntouched(r: Registry, want: Wanted, engine: string, scene: string)
    requires Unshared(r) && Known(engine) && !(want.engine == engine && want.scene == scene)
    ensures Unshared(Release(r, want.engine, want.scene))
    ensures SamePool(r, Release(r, want.engine, want.scene), engine, scene)
  {}

  lemma VisitUntouched(r: Registry, config: seq<Entry>, svc: Service, engine: string, scene: string)
    requires Unshared(r) && Known(engine) && Visit(r, config, svc).Some? && !Concerns(svc, engine, scene)
    ensures Unshared(Visit(r, config, svc).value)
    ensures SamePool(r, Visit(r, config, svc).value, engine, scene)
  {
    if svc.live && Parse(svc.name).Some? {
      var want := Parse(svc.name).value;
      ReleaseUntouched(r, want, engine, scene);
      if !Settled(r, want) && Reachable(svc) {
        BuildUntouched(Release(r, want.engine, want.scene), config, want, svc.dial, engine, scene);
      }
    }
  }

  /** A scene that no service speaks of keeps its very pool, unchanged, or stays without; whatever the
      configuration, and whatever is done to the pools of other scenes. */
  lemma {:induction false} OthersUntouched(r: Registry, config: seq<Entry>, svcs: seq<Service>, engine: string,
                                           scene: string)
    requires Unshared(r) && Known(engine) && Visits(r, config, svcs).Some?
    requires forall i :: 0 <= i < |svcs| ==> !Concerns(svcs[i], engine, scene)
    ensures Unshared(Visits(r, config, svcs).value)
    ensures SamePool(r, Visits(r, config, svcs).value, engine, scene)
    decreases |svcs|
  {
    if svcs != [] {
      VisitUntouched(r, config, svcs[0], engine, scene);
      OthersUntouched(Visit(r, config, svcs[0]).value, config, svcs[1..], engine, scene);
    }
  }

  /** Some scene is not the one a service speaks of. */
  lemma AlwaysUnshared(r: Registry, config: seq<Entry>, svc: Service)
    requires Unshared(r) && Visit(r, config, svc).Some?
    ensures Unshared(Visit(r, config, svc).value)
  {
    var scene := if Parse(svc.name).Some? then Parse(svc.name).value.scene + "x" else "";
    assert Parse(svc.name).Some? ==> |scene| != |Parse(svc.name).value.scene|;
    VisitUntouched(r, config, svc, "asr", scene);
  }

  /** Whatever services have been visited since the start, no pool is in the maps twice. */
  lemma {:induction false} NeverShared(r: Registry, config: seq<Entry>, svcs: seq<Service>)
    requires Unshared(r) && Visits(r, config, svcs).Some?
    ensures Unshared(Visits(r, config, svcs).value)
    decreases |svcs|
  {
    if svcs != [] {
      AlwaysUnshared(r, config, svcs[0]);
      NeverShared(Visit(r, config, svcs[0]).value, config, svcs[1..]);
    }
  }

  // Convergence.

  /** The service is ignored, or its pool can be made: it is reachable, its engine has a map and entries, all of
      them accepted, the number fits, and the connections can be dialled. */
  predicate Ready(config: seq<Entry>, svc: Service) {
    !svc.live || Parse(svc.name).None?
    || var engine := Parse(svc.name).value.engine;
       && Reachable(svc) && svc.dial && NumberOf(svc) > 0
       && Known(engine) && Configured(config, engine) && !AnyRefused(config, engine)
  }

  predicate AllReady(config: seq<Entry>, svcs: seq<Service>) {
    forall i :: 0 <= i < |svcs| ==> Ready(config, svcs[i])
  }

  /** A visit would leave things as they are. */
  predicate Quiet(r: Registry, svc: Service)
    requires Linked(r)
  {
    svc.live && Parse(svc.name).Some? ==> Settled(r, Parse(svc.name).value)
  }

  /** A visit that is not quiet makes a pool. */
  lemma ReadyVisit(r: Registry, config: seq<Entry>, svc: Service)
    requires Linked(r) && Ready(config, svc)
    ensures Visit(r, config, svc).Some?
    ensures if Quiet(r, svc) then Visit(r, config, svc) == Some(r) else |Visit(r, config, svc).value.made| > |r.made|
  {
    if !Quiet(r, svc) {
      var want := Parse(svc.name).value;
      BuildAll(Release(r, want.engine, want.scene), config, want);
      CountSome(config, want.engine);
    }
  }

  /** A round of ready services does not end the program; it makes no pool exactly when every visit is quiet. */
  lemma {:induction false} ReadyVisits(r: Registry, config: seq<Entry>, svcs: seq<Service>)
    requires Linked(r) && AllReady(config, svcs)
    ensures Visits(r, config, svcs).Some? && |Visits(r, config, svcs).value.made| >= |r.made|
    ensures (forall i :: 0 <= i < |svcs| ==> Quiet(r, svcs[i])) ==> Visits(r, config, svcs) == Some(r)
    ensures |Visits(r, config, svcs).value.made| == |r.made| ==> forall i :: 0 <= i < |svcs| ==> Quiet(r, svcs[i])
    decreases |svcs|
  {
    if svcs != [] {
      ReadyVisit(r, config, svcs[0]);
      ReadyVisits(Visit(r, config, svcs[0]).value, config, svcs[1..]);
    }
  }

  lemma {:induction false} FindLast(svcs: seq<Service>, i: nat, engine: string, scene: string) returns (j: nat)
    requires i < |svcs| && Concerns(svcs[i], engine, scene)
    ensures LastOf(svcs, j, engine, scene) && i <= j
    decreases |svcs| - i
  {
    if exists k :: i < k < |svcs| && Concerns(svcs[k], engine, scene) {
      var k :| i < k < |svcs| && Concerns(svcs[k], engine, scene);
      j := FindLast(svcs, k, engine, scene);
    } else {
      j := i;
    }
  }

  /** Two services that speak of the same scene. */
  predicate SameScene(a: Service, b: Service) {
    && a.live && b.live && Parse(a.name).Some? && Parse(b.name).Some?
    && Parse(a.name).value.engine == Parse(b.name).value.engine
    && Parse(a.name).value.scene == Parse(b.name).value.scene
  }

  /** Services that speak of the same scene name the same number. */
  predicate Consistent(svcs: seq<Service>) {
    forall i, j :: 0 <= i < j < |svcs| && SameScene(svcs[i], svcs[j]) ==> NumberOf(svcs[i]) == NumberOf(svcs[j])
  }

  lemma Converged(r: Registry, config: seq<Entry>, svcs: seq<Service>, i: nat)
    requires Linked(r) && AllReady(config, svcs) && Consistent(svcs) && Visits(r, config, svcs).Some? && i < |svcs|
    ensures Quiet(Visits(r, config, svcs).value, svcs[i])
  {
    if svcs[i].live && Parse(svcs[i].name).Some? {
      var want := Parse(svcs[i].name).value;
      assert Ready(config, svcs[i]);
      var j := FindLast(svcs, i, want.engine, want.scene);
      LastServiceDecides(r, config, svcs, j, want.engine, want.scene);
      assert Ready(config, svcs[j]);
    }
  }

  /** Convergence: one round over ready and consistent services gives the scene of each a pool of the size that
      its name states. */
  lemma RoundConverges(r: Registry, config: seq<Entry>, svcs: seq<Service>, i: nat)
    requires Linked(r) && AllReady(config, svcs) && Consistent(svcs)
    requires i < |svcs| && svcs[i].live && Parse(svcs[i].name).Some?
    ensures Visits(r, config, svcs).Some?
    ensures var want := Parse(svcs[i].name).value;
            CapOf(Visits(r, config, svcs).value, want.engine, want.scene) == Some(Int32(want.number))
  {
    ReadyVisits(r, config, svcs);
    Converged(r, config, svcs, i);
    assert Ready(config, svcs[i]);
  }

  /** The same live service names, in the same order, with any answers of the probes besides. */
  predicate SameNames(svcs: seq<Service>, again: seq<Service>) {
    && |again| == |svcs|
    && forall i :: 0 <= i < |svcs| ==> again[i].name == svcs[i].name && (again[i].live ==> svcs[i].live)
  }

  /** Quiet services change nothing, whatever the probes say. */
  lemma {:induction false} QuietVisits(r: Registry, config: seq<Entry>, svcs: seq<Service>)
    requires Linked(r) && forall i :: 0 <= i < |svcs| ==> Quiet(r, svcs[i])
    ensures Visits(r, config, svcs) == Some(r)
    decreases |svcs|
  {
    if svcs != [] { QuietVisits(r, config, svcs[1..]); }
  }

  /** Fixpoint: after a round over ready and consistent services, every further round over the same names closes and
      makes no pool, whatever endpoints, pods and dialling answer then, and although services may have gone. */
  lemma LaterRoundsQuiet(r: Registry, config: seq<Entry>, svcs: seq<Service>, again: seq<Service>)
    requires Linked(r) && AllReady(config, svcs) && Consistent(svcs) && SameNames(svcs, again)
    ensures Visits(r, config, svcs).Some?
    ensures var r1 := Visits(r, config, svcs).value; Visits(r1, config, again) == Some(r1)
  {
    ReadyVisits(r, config, svcs);
    var r1 := Visits(r, config, svcs).value;
    forall i | 0 <= i < |again| ensures Quiet(r1, again[i]) { Converged(r, config, svcs, i); }
    QuietVisits(r1, config, again);
  }

  /** And consistency is needed: a second round over the same ready services is quiet exactly when they are
      consistent; otherwise every further round makes pools. */
  lemma SecondRoundQuiet(r: Registry, config: seq<Entry>, svcs: seq<Service>)
    requires Linked(r) && AllReady(config, svcs)
    ensures Visits(r, config, svcs).Some?
    ensures var r1 := Visits(r, config, svcs).value;
            && Visits(r1, config, svcs).Some?
            && (Consistent(svcs) ==> Visits(r1, config, svcs) == Some(r1))
            && (!Consistent(svcs) ==> |Visits(r1, config, svcs).value.made| > |r1.made|)
  {
    ReadyVisits(r, config, svcs);
    var r1 := Visits(r, config, svcs).value;
    ReadyVisits(r1, config, svcs);
    if Consistent(svcs) { LaterRoundsQuiet(r, config, svcs, svcs); }
  }

  /** A service name states its number: what is written in decimal between the dashes is what is read. */
  lemma NameStates(engine: string, n: nat, scene: string)
    requires '-' !in engine && '-' !in scene && n <= MAX_INT64
    ensures Parse(Join([engine, Decimal(n), scene], '-')) == Some(Wanted(engine, n, scene))
  {
    AtoiOfDecimal(n);
    SplitOfJoin([engine, Decimal(n), scene], '-');
  }

  /** So one round over ready and consistent services, one of which is called engine-n-scene, gives that scene a
      pool of n connections. */
  lemma RoundBuildsNumber(r: Registry, config: seq<Entry>, svcs: seq<Service>, i: nat, engine: string, n: nat,
                          scene: string)
    requires Linked(r) && AllReady(config, svcs) && Consistent(svcs) && i < |svcs| && svcs[i].live
    requires svcs[i].name == Join([engine, Decimal(n), scene], '-') && '-' !in engine && '-' !in scene
    requires 1 <= n <= 0x7fff_ffff
    ensures Known(engine) && Visits(r, config, svcs).Some?
    ensures CapOf(Visits(r, config, svcs).value, engine, scene) == Some(n)
  {
    NameStates(engine, n, scene);
    assert Ready(config, svcs[i]);
    RoundConverges(r, config, svcs, i);
  }
}

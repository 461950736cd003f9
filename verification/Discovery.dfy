/** grpc.go: discovery as it runs, over the maps it updates. */
module Discovery {
  import opened Wrappers
  import opened Text
  import opened Reconcile
  import opened ReconcileTheorems

  /** What a round has achieved. */
  lemma Achieved(r: Registry, config: seq<Entry>, svcs: seq<Service>)
    requires Linked(r)
    ensures Visits(r, config, svcs).Some? && Owned(r) && ConfigOk(config) ==> Owned(Visits(r, config, svcs).value)
    ensures AllReady(config, svcs) ==> Visits(r, config, svcs).Some?
    ensures AllReady(config, svcs) && Consistent(svcs) ==>
              forall i :: 0 <= i < |svcs| ==> Quiet(Visits(r, config, svcs).value, svcs[i])
  {
    if Visits(r, config, svcs).Some? && Owned(r) && ConfigOk(config) { VisitsOwned(r, config, svcs); }
    if AllReady(config, svcs) {
      ReadyVisits(r, config, svcs);
      if Consistent(svcs) {
        forall i | 0 <= i < |svcs| ensures Quiet(Visits(r, config, svcs).value, svcs[i]) {
          Converged(r, config, svcs, i);
        }
      }
    }
  }

  /** The loops over the subsets of the endpoints and over their addresses. */
  method LastIp(endpoints: seq<seq<string>>) returns (podIp: string)
    ensures podIp == LastAddress(endpoints)
  {
    podIp := "";
    for i := 0 to |endpoints|
      invariant podIp == LastAddress(endpoints[..i])
    {
      ghost var before := podIp;
      for j := 0 to |endpoints[i]|
        invariant podIp == if j == 0 then before else endpoints[i][j - 1]
      {
        podIp := endpoints[i][j];
      }
      assert endpoints[..i + 1][..i] == endpoints[..i];
    }
    assert endpoints[..|endpoints|] == endpoints;
  }

  class Gateway {
    const config: seq<Entry>
    var asrPools: map<string, nat>
    var ttsPools: map<string, nat>
    var made: seq<Made>

    constructor (config: seq<Entry>)
      ensures this.config == config && Reg() == EMPTY
    {
      this.config := config;
      asrPools, ttsPools, made := map[], map[], [];
    }

    /** The maps and the pools, as a value. */
    ghost function Reg(): Registry
      reads this
    {
      Registry(asrPools, ttsPools, made)
    }

    method ClosePool(id: nat)
      requires id < |made|
      modifies this`made
      ensures made == old(made)[id := old(made)[id].(closed := true)]
    {
      made := made[id := made[id].(closed := true)];
    }

    method ReleaseGrpcPool(poolName: string, engineType: string)
      requires Linked(Reg())
      modifies this
      ensures Reg() == Release(old(Reg()), Lower(engineType), poolName)
    {
      var engine := Lower(engineType);
      if engine == "asr" {
        if poolName in asrPools {
          ClosePool(asrPools[poolName]);
          asrPools := asrPools - {poolName};
        }
      } else if engine == "tts" {
        if poolName in ttsPools {
          ClosePool(ttsPools[poolName]);
          ttsPools := ttsPools - {poolName};
        }
      }
    }

    /** newGrpcPool, with int32(op.MaxActive) as its size; engine and scene are history. */
    method NewGrpcPool(e: Entry, size: int, dial: bool, engine: string, scene: string)
      returns (r: Option<nat>)
      modifies this`made
      ensures r.Some? <==> CanMake(e, size) && dial
      ensures r.Some? ==> r.value == |old(made)| && |made| == |old(made)| + 1 && old(made) <= made
      ensures r.Some? ==> made[r.value] == Made(size, false, engine, scene)
      ensures r.None? ==> made == old(made)
    {
      if e.idle < 0 || e.maxLife < 0 || size <= 0 || !dial {
        return None;
      }
      r := Some(|made|);
      made := made + [Made(size, false, engine, scene)];
    }

    /** InitGrpcPoolByOmp; false when it ends the program. */
    method InitGrpcPoolByOmp(engineType: string, engineCCNum: int, sceneCode: string, dial: bool) returns (ok: bool)
      requires Linked(Reg())
      modifies this
      ensures Build(old(Reg()), config, Wanted(engineType, engineCCNum, sceneCode), dial)
           == if ok then Some(Reg()) else None
    {
      ghost var want := Wanted(engineType, engineCCNum, sceneCode);
      for i := 0 to |config|
        invariant Linked(Reg())
        invariant Build(old(Reg()), config, want, dial) == Build(Reg(), config[i..], want, dial)
      {
        ghost var now := Reg();
        assert config[i..][1..] == config[i + 1..];
        if Lower(config[i].name) != engineType {
          continue;
        }
        var p := NewGrpcPool(config[i], Int32(engineCCNum), dial, engineType, sceneCode);
        if p.None? {
          return false;
        }
        if engineType == "asr" {
          asrPools := asrPools[sceneCode := p.value];
        } else if engineType == "tts" {
          ttsPools := ttsPools[sceneCode := p.value];
        }
        assert Reg() == Store(now, engineType, sceneCode, Int32(engineCCNum));
      }
      ok := true;
    }

    /** The switch on the engine: true when the pool of the scene has the wanted capacity and nothing is to do;
        otherwise its pool, if it has one, has been released. */
    method CheckPool(want: Wanted) returns (settled: bool)
      requires Linked(Reg())
      modifies this
      ensures settled == Settled(old(Reg()), want)
      ensures Reg() == if settled then old(Reg()) else Release(old(Reg()), want.engine, want.scene)
    {
      settled := false;
      assert Lower("asr") == "asr" && Lower("tts") == "tts";
      if want.engine == "asr" {
        if want.scene in asrPools {
          if made[asrPools[want.scene]].capacity == Int32(want.number) {
            settled := true;
          } else {
            ReleaseGrpcPool(want.scene, "asr");
          }
        }
      } else if want.engine == "tts" {
        if want.scene in ttsPools {
          if made[ttsPools[want.scene]].capacity == Int32(want.number) {
            settled := true;
          } else {
            ReleaseGrpcPool(want.scene, "tts");
          }
        }
      }
    }

    /** One turn of the loop over the services; false when the program ends. */
    method VisitService(svc: Service) returns (ok: bool)
      requires Linked(Reg())
      modifies this
      ensures Visit(old(Reg()), config, svc) == if ok then Some(Reg()) else None
    {
      ok := true;
      if svc.live {
        var data := Split(svc.name, '-');
        if |data| == 3 {
          var number := Atoi(data[1]);
          if number.None? {
            return;
          }
          var settled := CheckPool(Wanted(data[0], number.value, data[2]));
          if settled {
            return;
          }
          var podIp := LastIp(svc.endpoints);
          if podIp == "" {
            return;
          }
          if svc.podLive {
            ok := InitGrpcPoolByOmp(data[0], number.value, data[2], svc.dial);
          }
        }
      }
    }

    /** One round of initPoolFromExistEngine; false when the program ends. Discovery loses no open pool when the
        configuration is as it should be; over ready services the program goes on, and over consistent ones
        every scene then has the capacity that its service names. */
    method Round(svcs: seq<Service>) returns (ok: bool)
      requires Linked(Reg())
      modifies this
      ensures Visits(old(Reg()), config, svcs) == if ok then Some(Reg()) else None
      ensures ok && Owned(old(Reg())) && ConfigOk(config) ==> Owned(Reg())
      ensures AllReady(config, svcs) ==>
                ok && (Consistent(svcs) ==> forall i :: 0 <= i < |svcs| ==> Quiet(Reg(), svcs[i]))
    {
      ok := true;
      for i := 0 to |svcs|
        invariant Linked(Reg())
        invariant Visits(old(Reg()), config, svcs) == Visits(Reg(), config, svcs[i..])
      {
        assert svcs[i..][1..] == svcs[i + 1..];
        ok := VisitService(svcs[i]);
        if !ok {
          break;
        }
      }
      Achieved(old(Reg()), config, svcs);
    }
  }

}

# Verification of the gRPC connection pool and proxy

This project models the gateway's package `pkg/plugins/pool/grpc` in Dafny and proves what its design rests on:
who owns a connection, what the stream proxy delivers, how tenants get their share, how discovery keeps the pools
in step with the services, and where a token sends a request. `dafny verify dfyconfig.toml` checks everything.

## The parts

**Lifecycle of a connection** (`Lifecycle`, `LifecycleProof`, `LifecycleTheorems`, `Closing`, `Attrition`,
`Isolation`, `IdleOrder`, `PoolObjects`). `Lifecycle` is a step model of all goroutines that touch a pool: requests in
`Acquire`, the goroutine of `Client.Close`, the drain of `Pool.Close`, and the allocation of tenants. A step is one
action of one goroutine; which goroutine runs, which arm of a `select` is taken and whether dialling works is the
label of the step, so a theorem about `Run` is about every interleaving. `Client.Close` is four steps (clock,
`IsClose` test, stamp and evaluation of the channel operand, send), so a `Pool.Close` can come between any two of
them, and a send to a nil channel is a place of its own. `LifecycleProof` is the invariant; the theorems follow in the
other modules: `Closing` is about what outlives `Pool.Close`, `Attrition` about slots lost to failed dialling.
`PoolObjects` has the pool, client, tenant and channel as objects whose methods update their fields as the program
does. Each method is proved to have the effect of a run of lifecycle steps, so the theorems hold of the objects.

**Stream proxy** (`Proxy`, `Forward`). `Proxy` is the handler with its two forwarders and their error channels as a
protocol; `Forward` has the codec and the forwarder loops as they run on one reused frame, proved to be the
protocol's forwarders.

**Allocation and balancing** (`Allocation`, `Tenants`, `TenantRuns`, `Balance`). Drawing clients from the fullest pool
is stated as a relation on the pool sizes, for which optimality and independence of the map order are proved; the
loops of `tenant.go` are proved to draw in that way. The order in which `range` visits a map is a parameter about
which nothing is assumed. `TenantRuns` ties the allocation to the lifecycle: it is a run of its steps, after which
every tenant has exactly its capacity. `Balance` is the balancer for requests, whose two calls of `Size` may answer
differently.

**Discovery** (`Text`, `Reconcile`, `ReconcileTheorems`, `Discovery`, `DiscoveryRuns`). `Discovery.Gateway` runs the
loop over its maps; `Reconcile` gives its meaning as a function, about which the theorems are proved. `DiscoveryRuns`
shows that the pools it makes and releases are those of the lifecycle, created and closed by its steps.

**Routing** (`Token`, `Director`, `Metrics`). The base64 codec of section 4 of RFC 4648, the reading of the decoded
token, the director with the pool and tenant objects it acquires clients from, and the accounting rows of the metrics.

**Whole requests** (`Requests`). The lifecycle of the connections and the session of a handler as one machine, in which
any other goroutines take any steps between those of the request: what the director acquires is what the handler
gives back.

## What was found about the code

- The README describes LOOSE_MODE as making new connections once the pool is exhausted. The guard at `pool.go:132`
  asks for more outstanding connections than the capacity, which never happens, so that branch is dead
  (`LifecycleTheorems.CountersInRange`) and LOOSE_MODE waits for a connection instead.
- A pool mode other than 0 and 1 falls out of the `select` and dials while the channel is full; a returned client can
  then find the buffer full, exactly in those modes (`LifecycleTheorems.SendBlocksIff`), and waits as long as nobody
  takes a client out of the channel (`LifecycleTheorems.WaitsOn`).
- Exactly the connections whose `Client.Close` has passed its `IsClose` test, and has not ended its send, when the pool
  is closed can outlive the pool (`Closing.OutlivesIff`). Of these, one whose channel operand has not been evaluated can
  block at the nil channel, no other can (`Closing.BlocksIff`), and then stays open for ever (`Closing.BlockedForever`);
  one that is sent after the drain stays open for ever if no request still waits for it (`Closing.LeftForever`).
- An open pool of a documented mode loses a slot for good exactly when a connection found too old is destroyed and its
  replacement cannot be dialled (`Attrition.LossIsFailedDials`, `Attrition.KeepsAllIff`). A pool of any capacity can
  lose all, and then, in those modes, never gives out a client again (`Attrition.CanDie`, `Attrition.DeadStaysDead`).
- The idle queues are sorted by time of use exactly as long as no `Client.Close` sends its client behind one that was
  given back later (`IdleOrder.SortedIff`); this can happen (`IdleOrder.OvertakingHappens`).
- `balancePool` panics exactly when there are several pools and none is live (`Balance.BalancePool`).
- Discovery can lose track of an open pool exactly when the configuration names an engine twice, or names one that is
  neither `asr` nor `tts` and whose name a service can carry, unless initPool refuses one of the engine's entries, which
  ends the program instead (`ReconcileTheorems.NoPoolLostIff`).
- Discovery releases a pool before it looks for the endpoint of its replacement. A service of a new size that is
  without endpoint leaves its scene without a pool until a later round (`ReconcileTheorems.LastServiceDecides`).
- Two services for one scene with different numbers make every round release and rebuild its pool
  (`ReconcileTheorems.SecondRoundQuiet`).
- A dash in the user part of a token makes that part, not the scene, decide the route (`Director.UserDecides`).
- A token that is no base64 is not refused: the director drops the error of the decoder and routes by the bytes that came
  before it (`Director.MalformedToken`).

## Model

| member | source | states |
|---|---|---|
| LifecycleTheorems.ExactlyOnePlace | pkg/plugins/pool/grpc/pool.go:114-235 | in every reachable state of every interleaving a client is in exactly one place: idle, being drained, left behind, held, going back, blocked at a nil channel, or destroyed; it stands once in its channel and at most one goroutine has it |
| LifecycleTheorems.Conservation | pkg/plugins/pool/grpc/pool.go:62-235 | per channel, the clients in the six open places, the replacements being dialled, the connections lost for good and the clients moved to tenants add up to those ever created, in both documented modes |
| LifecycleTheorems.PushNeverBlocks | pkg/plugins/pool/grpc/pool.go:218-223 | in the documented modes a send of Client.Close never finds the buffer full |
| LifecycleTheorems.AllocateNeverBlocks | pkg/plugins/pool/grpc/tenant.go:66-73 | in every reachable state the send that gives a tenant a client finds room, as long as the tenant has not been given all its clients |
| LifecycleTheorems.CountersInRange | pkg/plugins/pool/grpc/pool.go:130-136 | open connections never exceed the capacity, GetConnCurrent lies between 0 and the capacity even after Close, and the overflow branch of LOOSE_MODE is never entered |
| LifecycleTheorems.SendBlocksIff | pkg/plugins/pool/grpc/pool.go:125-154 | a run in which a returned client finds the buffer full exists exactly for modes that are neither STRICT_MODE nor LOOSE_MODE |
| LifecycleTheorems.WaitsOn | pkg/plugins/pool/grpc/pool.go:218-223 | a Client.Close that finds the buffer full waits, and the buffer stays full, as long as no receive, drain or allocation takes from the channel |
| Closing.AfterClose | pkg/plugins/pool/grpc/pool.go:157-179 | once all is quiet around a closed pool, also if its drain is left waiting at the empty channel, the only connections of the pool still open, those given to tenants apart, are of clients that were between the IsClose test and the end of the send when Close ran; none if there were none |
| Closing.OutlivesIff | pkg/plugins/pool/grpc/pool.go:157-225 | for exactly those clients there is a run to a quiet state in which they are still open, in every reachable state, for every mode and capacity |
| Closing.BlocksIff | pkg/plugins/pool/grpc/pool.go:205-223 | exactly a Client.Close that has passed the IsClose test and not evaluated the channel when the pool is closed can block at the nil channel |
| Closing.BlockedForever | pkg/plugins/pool/grpc/pool.go:218-223 | once blocked, it stays so and its connection open in every later state |
| Closing.LeftForever | pkg/plugins/pool/grpc/pool.go:169-176 | a client sent after the drain, when nobody can receive it any more, stays in the channel and open in every later state |
| Closing.CanRace | pkg/plugins/pool/grpc/pool.go:200-223 | in a pool of any capacity and mode a Client.Close can come to stand right after its IsClose test |
| Attrition.NeverGrowsBack | pkg/plugins/pool/grpc/pool.go:146-153 | from any reachable state on, the slots in use of a pool of a documented mode, open or being dialled, become fewer by exactly those retired or moved to tenants |
| Attrition.FailedDialCosts | pkg/plugins/pool/grpc/pool.go:149-152 | every failed re-dial costs one slot |
| Attrition.LossIsFailedDials | pkg/plugins/pool/grpc/pool.go:146-153 | over every run after which a pool of a documented mode is still open, the slots in use become fewer by exactly the number of its failed re-dials and of the clients moved to tenants |
| Attrition.KeepsAllIff | pkg/plugins/pool/grpc/pool.go:146-153 | so, apart from clients given to tenants, an open pool keeps all its slots if and only if no re-dial failed |
| Attrition.DeadStaysDead | pkg/plugins/pool/grpc/pool.go:114-154 | a pool of a documented mode without open client and dialler has none in any later state, and its channel stays empty |
| Attrition.CanDie | pkg/plugins/pool/grpc/pool.go:137-152 | a full open pool of any capacity, mode and idle time can come to that |
| Isolation.HomeIsPermanent | pkg/plugins/pool/grpc/tenant.go:66-75 | a tenant's client stays with its tenant and a goroutine stays with the channel it works on |
| Isolation.TenantIsolation | pkg/plugins/pool/grpc/tenant.go:115-140 | while the engine pools stay open, a tenant's client is in the tenant's channel or with one goroutine that works for this tenant; idle, held and returning add up to what the tenant was given |
| Isolation.FullTenant | pkg/plugins/pool/grpc/tenant.go:115-140 | once a tenant has been given all its clients, in every later state with open pools they add up to its capacity, and GetConnCurrent counts exactly those that are out |
| IdleOrder.ReusedIffRecent | pkg/plugins/pool/grpc/pool.go:124-148 | in every run the head of the channel is reused exactly when idling is allowed and its latest Close lies less than idleDur before the call began; otherwise it is destroyed and a replacement is dialled |
| IdleOrder.SortedIff | pkg/plugins/pool/grpc/pool.go:200-225 | in every run, all idle queues are sorted by timeUsed in every state exactly when no Client.Close sends its client behind one that was given back later |
| IdleOrder.AllFresh | pkg/plugins/pool/grpc/pool.go:137-142 | then, if the client at the head passes the idle test, every client in the queue does |
| IdleOrder.SortedQueue | pkg/plugins/pool/grpc/pool.go:200-225 | in particular the queues are sorted when Client.Close is indivisible |
| IdleOrder.OvertakingHappens | pkg/plugins/pool/grpc/pool.go:200-225 | a reachable queue that is not sorted |
| PoolObjects.InitPool | pkg/plugins/pool/grpc/pool.go:62-94 | a pool comes back exactly when the parameters are valid and the first min(init, size) diallings succeed; it holds that many open clients, all distinct, and shows the model's state after a CreatePool step |
| PoolObjects.Pool.Acquire | pkg/plugins/pool/grpc/pool.go:114-154 | what a call answers in each mode, arm and content of the channel, what it leaves in the channel, and that its effect is a run of the lifecycle after which goroutine g holds the client returned |
| PoolObjects.Pool.Close | pkg/plugins/pool/grpc/pool.go:157-179 | the channel is detached once and only once, which is the ClosePool step |
| PoolObjects.Pool.Drain | pkg/plugins/pool/grpc/pool.go:169-176 | the drain destroys every client of the detached channel and ends, as a run of Drain steps |
| PoolObjects.Client.Close | pkg/plugins/pool/grpc/pool.go:200-225 | a client whose pool is closed is destroyed, any other is stamped and put at the end of the channel of its tenant, or else of its pool; it waits in its send exactly when the pool's buffer is full, which never happens in a documented mode; as a run of the lifecycle |
| PoolObjects.Tenant.Acquire | pkg/plugins/pool/grpc/tenant.go:116-122 | the head of the tenant's channel, without an idle test, is then held by the request, which works for this tenant |
| Proxy.LastLineUnreachable | pkg/plugins/pool/grpc/handler.go:72-91 | in every schedule the return after the loop is not reached; each forwarder sends one error, when it ends, and finds its slot empty |
| Proxy.DeliveredInOrder | pkg/plugins/pool/grpc/handler.go:94-140 | in both directions the payloads delivered are the first ones received, in order; at most one is missing, and none exactly when the forwarder ended on RecvMsg |
| Proxy.HeaderOnceFirst | pkg/plugins/pool/grpc/handler.go:97-118 | towards the caller the header comes once and before any message, towards the backend never |
| Proxy.NilMeansDelivered | pkg/plugins/pool/grpc/handler.go:82-88 | a nil result means that the backend direction ended with EOF, and that the caller has every backend message exactly if that EOF came from RecvMsg |
| Proxy.NilMeansAllDelivered | pkg/plugins/pool/grpc/handler.go:97-118 | so if Header, SendHeader and SendMsg never answer EOF there, a nil result means that the caller has every backend message, in order |
| Proxy.HalfClose | pkg/plugins/pool/grpc/handler.go:74-81 | in every schedule CloseSend has been called if and only if the EOF of the caller's direction has been taken, and the backend call cancelled if and only if another error of that direction has; the handler then returns just that error, as an internal one |
| Proxy.EarlyError | pkg/plugins/pool/grpc/handler.go:56-66 | a handler that returns before the forwarders run returns the very error of the director, or of opening the backend stream |
| Proxy.LateError | pkg/plugins/pool/grpc/handler.go:72-91 | one that returns later returns nil for the EOF of the backend direction, that direction's own error, or the other direction's as an internal one |
| Proxy.ClosedExactlyOnce | pkg/plugins/pool/grpc/handler.go:56-91 | a client handed over by the director is closed once on every way out of the handler and not before; without one nothing is closed |
| Proxy.HandlerProgress | pkg/plugins/pool/grpc/handler.go:72-90 | in the select loop, once a direction has ended and its error has not been taken, a receive is possible; that of the backend direction makes the handler return |
| Forward.RawCodec.PassThrough | pkg/plugins/pool/grpc/codec.go:31-48 | unmarshalling into a frame and marshalling it again gives back the same bytes, whatever the frame held |
| Forward.ForwardServerToClient | pkg/plugins/pool/grpc/handler.go:124-140 | the loop over one reused frame is the protocol's forwarder: it wrote the first payloads it read, in order, all of them exactly when it ended on RecvMsg; its error is the one that its last stream call returned |
| Forward.ForwardClientToServer | pkg/plugins/pool/grpc/handler.go:94-121 | the same with the backend's header first |
| Allocation.GreedyIsOptimal | pkg/plugins/pool/grpc/tenant.go:94-113 | no way of drawing n clients leaves a smaller largest pool than drawing from a fullest pool n times |
| Allocation.GreedyOrderIndependent | pkg/plugins/pool/grpc/tenant.go:94-113 | the multiset of sizes left does not depend on map order or on how ties are broken |
| Tenants.EnginePools.BalanceAcquire | pkg/plugins/pool/grpc/tenant.go:94-113 | none exactly when all pools are empty; else the head of a pool that no pool exceeds, and nothing else changes |
| Tenants.EnginePools.Fill | pkg/plugins/pool/grpc/tenant.go:66-73 | n clients are drawn exactly when the pools hold n between them, greedily and without losing one |
| Tenants.InitTenantPool | pkg/plugins/pool/grpc/tenant.go:29-91 | no panic exactly when no size is negative and each engine's sizes add up to no more than its idle clients, which drop by that sum; each tenant then has its size, each client is in one pool or one tenant |
| TenantRuns.DrawIsAllocate | pkg/plugins/pool/grpc/tenant.go:66-73 | in every reachable state a draw and its send are one step of the lifecycle: the head of the pool goes to the end of the tenant's channel and belongs to the tenant |
| TenantRuns.InitRun | pkg/plugins/pool/grpc/tenant.go:44-88 | what initTenantPool does is a run of the lifecycle, after which the channel of each tenant it keeps holds the tenant's clients, as many as its capacity and as were ever given to it |
| TenantRuns.TenantsExact | pkg/plugins/pool/grpc/tenant.go:29-140 | after it, in every later state with open pools, each tenant's idle, held and returning clients equal its capacity, and GetConnCurrent its outstanding ones |
| Balance.BalancePool | pkg/plugins/pool/grpc/options.go:123-180 | for every map order and whatever Size answers: nil without pools, the only pool even if it is down, else a live one; a panic exactly when several pools are all down; a fullest live one on a snapshot |
| Text.JoinOfSplit | pkg/plugins/pool/grpc/grpc.go:321 | splitting yields parts without separators that join to the string again |
| Text.SplitOfJoin | pkg/plugins/pool/grpc/grpc.go:321 | joining parts without separators and splitting gives back the parts |
| Text.LowerIff | pkg/plugins/pool/grpc/grpc.go:233-234 | exactly the spellings of a word, in capitals or not, are lowered to it |
| Text.AtoiIff | pkg/plugins/pool/grpc/grpc.go:327 | a number is read exactly from an optional sign and at least one digit, and only digits, that write it, within 64 bits |
| Text.ValueOfConcat | pkg/plugins/pool/grpc/grpc.go:327 | what a row of digits is worth, position by position |
| ReconcileTheorems.ParseIff | pkg/plugins/pool/grpc/grpc.go:321-330 | a service name is understood exactly when it is engine, number and scene joined by dashes, none of which has a dash, and the second writes a number |
| ReconcileTheorems.OtherNamesIgnored | pkg/plugins/pool/grpc/grpc.go:318-330 | a service with any other name, or that does not answer, closes and makes no pool |
| ReconcileTheorems.NoNumberIgnored | pkg/plugins/pool/grpc/grpc.go:327-330 | so engine-word-scene leaves the pool of its scene alone |
| ReconcileTheorems.NameStates | pkg/plugins/pool/grpc/grpc.go:321-330 | the number written in decimal in a service name is the number that discovery reads |
| Reconcile.RoundByScene | pkg/plugins/pool/grpc/grpc.go:318-407 | what a round does to one scene follows from the services of that scene alone, one after the other |
| ReconcileTheorems.ConfiguredIff | pkg/plugins/pool/grpc/grpc.go:226-236 | an entry is for an engine exactly when its name spells the engine's |
| ReconcileTheorems.BuildDiesIff | pkg/plugins/pool/grpc/grpc.go:226-294 | making pools ends the program exactly when there is an entry for the engine and one is refused, int32 of the number is not positive, or dialling fails |
| ReconcileTheorems.BuildsForSpelling | pkg/plugins/pool/grpc/grpc.go:226-294 | otherwise an entry that spells the engine's name, "ASR" for asr, say, gives the scene a pool of int32 of the number |
| ReconcileTheorems.LastAddressIs | pkg/plugins/pool/grpc/grpc.go:363-371 | the address dialled is the last one in the order of the lists |
| ReconcileTheorems.LastServiceDecides | pkg/plugins/pool/grpc/grpc.go:332-401 | after a round a scene has a pool of the size that its last service names, or none; exactly when it has one |
| ReconcileTheorems.OthersUntouched | pkg/plugins/pool/grpc/grpc.go:332-401 | a scene that no service names keeps its very pool, unchanged, or stays without, whatever the configuration |
| ReconcileTheorems.NeverShared | pkg/plugins/pool/grpc/grpc.go:281-291 | no pool is ever in the maps twice |
| ReconcileTheorems.NoPoolLostIff | pkg/plugins/pool/grpc/grpc.go:226-294 | over all sequences of services and probe results every open pool stays in its map under its scene, exactly when each engine that a service name can carry is configured once, has a map, or is refused |
| ReconcileTheorems.RoundConverges | pkg/plugins/pool/grpc/grpc.go:309-407 | one round over ready, consistent services gives each scene a pool of int32 of the number in its name |
| ReconcileTheorems.RoundBuildsNumber | pkg/plugins/pool/grpc/grpc.go:309-407 | so a service called engine-n-scene, with n from 1 to 2^31-1, gets a pool of n connections |
| ReconcileTheorems.LaterRoundsQuiet | pkg/plugins/pool/grpc/grpc.go:335-350 | after that every further round over the same names makes and closes nothing, whatever the probes answer then |
| ReconcileTheorems.SecondRoundQuiet | pkg/plugins/pool/grpc/grpc.go:335-350 | a second round over the same services changes nothing exactly when services of one scene name the same number; otherwise it makes pools again |
| Discovery.Gateway.ReleaseGrpcPool | pkg/plugins/pool/grpc/grpc.go:568-583 | the pool, if the engine's map has it, is closed and removed; nothing else changes |
| Discovery.Gateway.InitGrpcPoolByOmp | pkg/plugins/pool/grpc/grpc.go:226-294 | one pool per matching entry, stored under the scene if the engine has a map; or the program ends |
| Discovery.Gateway.VisitService | pkg/plugins/pool/grpc/grpc.go:318-407 | the effect of one service on the maps and pools, or the end of the program |
| Discovery.Gateway.Round | pkg/plugins/pool/grpc/grpc.go:309-407 | the effect of a round; no open pool is lost, and every scene of ready and consistent services has its capacity |
| DiscoveryRuns.VisitsRun | pkg/plugins/pool/grpc/grpc.go:318-407 | whatever discovery does over any services is a run of the lifecycle: the pools it makes are created, those it releases are closed |
| DiscoveryRuns.OthersMirror | pkg/plugins/pool/grpc/grpc.go:318-407 | what requests, returns, drains and tenants do in between leaves discovery's view of the pools right |
| DiscoveryRuns.OpenPoolsKept | pkg/plugins/pool/grpc/grpc.go:281-291 | every open pool of the lifecycle is in the map of its engine under its scene |
| Token.EncodesIff | pkg/plugins/pool/grpc/grpc.go:832-839 | s is the encoding of b exactly when it decodes to b, has no line ends and leaves no bits over; so decoding undoes encoding for all byte strings |
| Token.DecodeOfEncode | pkg/plugins/pool/grpc/grpc.go:832-839 | decoding undoes encoding for all byte strings |
| Token.DecodesIff | pkg/plugins/pool/grpc/grpc.go:837-839 | for any string: it decodes to b exactly when it is the encoding of b but for line ends and the bits that padding leaves over |
| Token.Alphabet | pkg/plugins/pool/grpc/grpc.go:832-839 | the alphabet in its order |
| Token.TestVectors | pkg/plugins/pool/grpc/grpc.go:832-839 | the test vectors of section 10 of RFC 4648 |
| Token.SelectedCode | pkg/plugins/pool/grpc/options.go:54-63 | which engine code the token of any user, scene and rand selects |
| Token.RoutesToScene | pkg/plugins/pool/grpc/options.go:54-74 | without a dash in the user the token selects its own scene exactly when the scene has none either; with one, exactly when the user's second part is the scene |
| Director.Gateway.Acquire | pkg/plugins/pool/grpc/options.go:66-80 | Acquire of the pool or tenant object named, as a run of the lifecycle, after which all objects show the new state, the channel asked has lost its head or nothing, as the arm and the mode say, and the other channels hold what they held: a client that comes back belongs to that pool, or its goroutine works for that tenant |
| Director.Gateway.GrpcProxyTransport | pkg/plugins/pool/grpc/options.go:31-120 | Acquire is called once at most, on the object that the route names, and the others keep what they have; the director returns a client or an error and never both, also after the nil, nil answer of a done context; with a client goroutine g holds just that, without one g has left Acquire; afterwards the objects show the new state; without tokens a fullest live pool is asked |
| Director.PanicsIff | pkg/plugins/pool/grpc/options.go:45-48 | the director panics exactly on an authority without colon in the global network mode, or when the engine of the address has several pools and none is live |
| Director.AddressDecides | pkg/plugins/pool/grpc/options.go:43-51 | the address decides the engine, ASR's first, any other is refused; it is the second of the authority's parts between colons in the global network mode, else the whole authority, and empty without one |
| Director.PortDecides | pkg/plugins/pool/grpc/options.go:43-51 | so in the global network mode it is the port of host:port that decides |
| Director.Refusals | pkg/plugins/pool/grpc/options.go:31-78 | internal methods, requests without metadata or token, tokens without a second part, and tokens that name no pool, or no tenant, are refused, each with its own error |
| Director.MalformedToken | pkg/plugins/pool/grpc/options.go:54-63 | a token that is no base64 is not refused: it routes by what the decoder yields before its error |
| Director.RoutesByToken | pkg/plugins/pool/grpc/options.go:43-78 | with online configuration exactly the pool that the token selects is asked, with tenants alone exactly the tenant; there being none, the request is refused |
| Director.ServedByScene | pkg/plugins/pool/grpc/options.go:52-74 | for a user without a dash, a scene with a pool, or with a tenant when there is no online configuration, is served by it exactly when the scene has no dash |
| Director.UserDecides | pkg/plugins/pool/grpc/options.go:60-74 | a user with a dash is routed alike for all scenes |
| Requests.ReleasedExactlyOnce | pkg/plugins/pool/grpc/handler.go:56-91 | whatever is interleaved with a request: when its handler has returned, just the client handed over by the director has been given back, by exactly one Close; until then the request holds it, open, in no channel and in nobody else's hands |
| Requests.ClosesWhatWasAcquired | pkg/plugins/pool/grpc/options.go:31-120 | director and handler together, with any steps of other goroutines before and after the director's reply: the clients closed are exactly those that the director's calls of Acquire returned, each once |
| Requests.EverySession | pkg/plugins/pool/grpc/handler.go:56-91 | every run of the proxy that can follow a reply of the director is the session of such a request |
| Metrics.PoolMetrics | pkg/plugins/pool/grpc/grpc.go:702-763 | one row for each live pool and each tenant, in any order, with its id, name, address, capacity and second size, and as connections in use what the first size leaves, or zero; one empty row when the engine is off |
| Metrics.RowInRange | pkg/plugins/pool/grpc/grpc.go:724-728 | whatever happens between the two readings, the reported numbers lie between 0 and the pool size |
| Metrics.RowAddsUp | pkg/plugins/pool/grpc/grpc.go:719-757 | on a snapshot of a run every row adds up to the pool size, the clamp changes nothing, and connCurrent counts exactly the clients that are out |

## Assumptions

Steps are sequentially consistent. The clock is monotone. Capacities lie in 1..2^31-1. Distinct scene codes are needed
only where a statement names them (`Tenants.DistinctCodes`); with a repeated code the later tenant replaces the
earlier one.

## Left out

- Dialling, TCP probes, the Kubernetes calls and the reading of configuration files: their results are parameters.
- gRPC streams: what RecvMsg, SendMsg, Header and SendHeader answer is up to the environment; trailers are not modelled.
- The HTTP proxy, logging, database and plugin start-up.
- `InitGrpcPool` for configured engine lists, and `InitPoolFromExistEngineForUpdate`, whose comparison of capacities is the reverse of the loop's.
- The cluster share of a capacity: it does not reach the pool that discovery makes. A node number of zero would end the program.
- `balanceTenantPool`: nothing calls it.
- Health checking: `pool.status` is what the environment says it is. Pool fields that nothing reads.
- Malformed tokens: the bytes decoded before the error are a parameter of the director.
- Races on maps and fields below the steps of the model; the two discovery loops, and discovery beside running requests, are taken one service at a time.
- PoolObjects.Pool.Acquire: one call that no other goroutine interrupts; interleavings are the subject of Lifecycle, of which it is a run. The same holds for the other methods of PoolObjects.
- PoolObjects.InitPool: connections that were dialled before a failing one are not closed, and the model does not record them.
- Forward.RawCodec.PassThrough: payloads are values; that a frame shares its bytes with the buffer it was read from is not modelled.
- Forward.ForwardServerToClient: the stream is one that fails in the end, because the method has to terminate; Proxy has no such bound.
- Tenants.InitTenantPool: clients are numbers and channels are sequences; TenantRuns ties them to the lifecycle. Tenants of an engine other than asr and tts get a channel that nothing keeps, and no number in TenantRuns.
- TenantRuns.TenantsExact: for sizes below 2^31; a larger one would be cut off in the tenant's capacity, not in its channel.
- Director.Gateway.GrpcProxyTransport: a call that no other goroutine interrupts, on the maps as it finds them; the balancer alone may see sizes change. In Requests everything may come in between. The return of a client with an error behind the overflow guard is not in the model, since LifecycleTheorems.CountersInRange shows that no run gets there.
- Text.Lower: letters beyond ASCII are left as they are.
- Discovery.Gateway.InitGrpcPoolByOmp: the options and gateway addresses it also sets are not modelled; a pool is a record of its capacity and of whether it is closed, which DiscoveryRuns ties to the lifecycle's pool.

/**
  One request from its director to the end of its handler, beside everything else that goes on: the lifecycle of
  the connections and the session of the handler as one machine. Goroutine g asks for a client in the director,
  holds it while the handler serves, and gives it back in the deferred Close.
 */
module Requests {
  import opened Wrappers
  import opened Proxy
  import L = Lifecycle
  import LP = LifecycleProof
  import LT = LifecycleTheorems
  import P = PoolObjects
  import D = Director

  /** As history, `got` has the clients that the director handed over, `given` those that the handler called Close
      on, and `trace` the steps of the lifecycle so far. */
  datatype Joint = Joint(life: L.State, session: Session, got: seq<nat>, given: seq<nat>, trace: seq<L.Step>)

  function Begin(s: L.State): Joint {
    Joint(s, START, [], [], [])
  }

  datatype Event =
    | Life(step: L.Step)  // a step of any goroutine; of g while it is in Acquire, or in its Client.Close
    | Reply(err: Err)     // the director returns, with this error if it has no client
    | Serve(call: Step)   // a step of the handler or its forwarders

  /** Goroutine g does not end its request by itself, asks for a client only in the director, and drains no pool. */
  predicate Allowed(step: L.Step, g: nat, directing: bool) {
    && step != L.Finish(g)
    && !(step.ClosePool? && step.g == g)
    && (step.AcquirePool? || step.AcquireTenant? ==> directing || step.g != g)
  }

  ghost function Live(g: nat, j: Joint, step: L.Step): Option<Joint> {
    if !Allowed(step, g, j.session.h == Directing) then None
    else
      var next := L.Apply(j.life, step);
      if next.None? then None else Some(j.(life := next.value, trace := j.trace + [step]))
  }

  /** The director returns once g is out of Acquire: with the client it holds, or with an error. */
  function Answer(g: nat, j: Joint, err: Err): Option<Joint> {
    if j.session.h != Directing then None
    else if g !in j.life.gos then
      Some(j.(session := Proxy.Apply(j.session, DirectorFails(err)).value))
    else if j.life.gos[g].at.Holding? && j.life.gos[g].hand.Some? then
      Some(j.(session := Proxy.Apply(j.session, DirectorHands).value, got := j.got + [j.life.gos[g].hand.value]))
    else None
  }

  /** A step of the session; the deferred Close is what g does when the handler returns. */
  function Served(g: nat, j: Joint, step: Step): Option<Joint> {
    if step.DirectorFails? || step.DirectorHands? then None
    else
      var next := Proxy.Apply(j.session, step);
      if next.None? then None
      else if next.value.closes == j.session.closes then Some(j.(session := next.value))
      else
        var life := L.DoFinish(j.life, g);
        if life.None? then None
        else
          Some(Joint(life.value, next.value, j.got, j.given + [j.life.gos[g].hand.value], j.trace + [L.Finish(g)]))
  }

  ghost function Happen(g: nat, j: Joint, event: Event): Option<Joint> {
    match event
    case Life(step) => Live(g, j, step)
    case Reply(err) => Answer(g, j, err)
    case Serve(call) => Served(g, j, call)
  }

  ghost function Play(g: nat, j: Joint, events: seq<Event>): Option<Joint>
    decreases |events|
  {
    if events == [] then Some(j)
    else
      var next := Happen(g, j, events[0]);
      if next.None? then None else Play(g, next.value, events[1..])
  }

  // What every event keeps.

  /** Where the request stands and what g has in its hands. */
  ghost predicate PhaseOk(g: nat, j: Joint) {
    if j.session.h == Directing || !j.session.acquired then j.got == [] && j.given == []
    else if j.session.h.Returned? then |j.got| == 1 && j.given == j.got
    else
      && |j.got| == 1 && j.given == []
      && g in j.life.gos && j.life.gos[g].at == L.Holding && j.life.gos[g].hand == Some(j.got[0])
  }

  function Finishes(trace: seq<L.Step>, g: nat): nat {
    multiset(trace)[L.Finish(g)]
  }

  ghost predicate JointOk(g: nat, s0: L.State, j: Joint) {
    && LP.Inv(j.life) && Proxy.Inv(j.session) && PhaseOk(g, j)
    && L.Run(s0, j.trace) == Some(j.life) && Finishes(j.trace, g) == |j.given|
  }

  lemma OneMoreStep(trace: seq<L.Step>, step: L.Step, g: nat)
    ensures Finishes(trace + [step], g) == Finishes(trace, g) + (if step == L.Finish(g) then 1 else 0)
  {}

  /** Whatever others do, a request keeps its client: the only step g can take is to finish. */
  lemma KeepsHolding(s: L.State, step: L.Step, s': L.State, g: nat)
    requires L.Apply(s, step) == Some(s') && g in s.gos && s.gos[g].at == L.Holding && step != L.Finish(g)
    ensures g in s'.gos && s'.gos[g] == s.gos[g]
  {}

  lemma LifeKeeps(g: nat, s0: L.State, j: Joint, step: L.Step, j': Joint)
    requires JointOk(g, s0, j) && Live(g, j, step) == Some(j')
    ensures JointOk(g, s0, j')
  {
    LP.StepKeeps(j.life, step, j'.life);
    LT.RunSnoc(s0, j.trace, j.life, step, j'.life);
    OneMoreStep(j.trace, step, g);
    if j.session.acquired && !j.session.h.Returned? && j.session.h != Directing {
      KeepsHolding(j.life, step, j'.life, g);
    }
  }

  lemma AnswerKeeps(g: nat, s0: L.State, j: Joint, err: Err, j': Joint)
    requires JointOk(g, s0, j) && Answer(g, j, err) == Some(j')
    ensures JointOk(g, s0, j')
  {
    Proxy.StepKeeps(j.session, if g in j.life.gos then DirectorHands else DirectorFails(err), j'.session);
  }

  /** In a session, only the way out of the handler closes the client. */
  lemma SessionStep(s: Session, step: Step, s': Session)
    requires Proxy.Inv(s) && Proxy.Apply(s, step) == Some(s') && !step.DirectorFails? && !step.DirectorHands?
    ensures Proxy.Inv(s') && s'.acquired == s.acquired
    ensures s'.h == Directing <==> s.h == Directing
    ensures s.h.Returned? ==> s'.h == s.h
    ensures s'.closes == s.closes + (if s.acquired && !s.h.Returned? && s'.h.Returned? then 1 else 0)
  {
    Proxy.StepKeeps(s, step, s');
  }

  /** The deferred Close, in the lifecycle. */
  lemma FinishKeeps(g: nat, s0: L.State, j: Joint, j': Joint)
    requires LP.Inv(j.life) && L.Run(s0, j.trace) == Some(j.life) && Finishes(j.trace, g) == |j.given|
    requires L.DoFinish(j.life, g) == Some(j'.life) && j'.trace == j.trace + [L.Finish(g)]
    requires |j'.given| == |j.given| + 1
    ensures LP.Inv(j'.life) && L.Run(s0, j'.trace) == Some(j'.life) && Finishes(j'.trace, g) == |j'.given|
  {
    LP.StepKeeps(j.life, L.Finish(g), j'.life);
    LT.RunSnoc(s0, j.trace, j.life, L.Finish(g), j'.life);
    OneMoreStep(j.trace, L.Finish(g), g);
  }

  lemma ServedPhase(g: nat, j: Joint, step: Step, j': Joint)
    requires Proxy.Inv(j.session) && PhaseOk(g, j) && Served(g, j, step) == Some(j')
    ensures PhaseOk(g, j')
  {
    SessionStep(j.session, step, j'.session);
  }

  lemma ServedKeeps(g: nat, s0: L.State, j: Joint, step: Step, j': Joint)
    requires JointOk(g, s0, j) && Served(g, j, step) == Some(j')
    ensures JointOk(g, s0, j')
  {
    SessionStep(j.session, step, j'.session);
    if j'.session.closes != j.session.closes { FinishKeeps(g, s0, j, j'); }
    ServedPhase(g, j, step, j');
  }

  lemma {:induction false} PlayKeeps(g: nat, s0: L.State, j: Joint, events: seq<Event>, j': Joint)
    requires JointOk(g, s0, j) && Play(g, j, events) == Some(j')
    ensures JointOk(g, s0, j')
    decreases |events|
  {
    if events != [] {
      var j1 := Happen(g, j, events[0]).value;
      match events[0] {
        case Life(step) => LifeKeeps(g, s0, j, step, j1);
        case Reply(err) => AnswerKeeps(g, s0, j, err, j1);
        case Serve(call) => ServedKeeps(g, s0, j, call, j1);
      }
      PlayKeeps(g, s0, j1, events[1..], j');
    }
  }

  lemma BeginOk(g: nat, s0: L.State)
    requires LP.Inv(s0)
    ensures JointOk(g, s0, Begin(s0))
  {
    assert Proxy.Run(START, []) == Some(START);
    Proxy.Kept([], START);
  }

  // Exactly-once release.

  lemma OnlyHolder(s: L.State, g: nat, c: nat)
    requires LP.Inv(s) && g in s.gos && s.gos[g].at == L.Holding && s.gos[g].hand == Some(c)
    ensures LT.HeldAt(s, g, c) && c in s.clients && s.clients[c].open && (forall o :: LP.Owns(s, o, c) ==> o == g)
    ensures forall h :: h in s.chans ==> c !in s.chans[h].queue
  {
    assert LP.HandOk(s, g) && LP.Owns(s, g, c);
    forall h | h in s.chans ensures c !in s.chans[h].queue { assert LP.QueueOk(s, h); }
  }

  lemma PlayOk(g: nat, s0: L.State, events: seq<Event>, j: Joint)
    requires LT.Reachable(s0) && Play(g, Begin(s0), events) == Some(j)
    ensures JointOk(g, s0, j)
  {
    LT.ReachableInv(s0);
    BeginOk(g, s0);
    PlayKeeps(g, s0, Begin(s0), events, j);
  }

  lemma PhaseMeans(g: nat, j: Joint)
    requires Proxy.Inv(j.session) && PhaseOk(g, j)
    ensures j.session.closes == |j.given| <= |j.got| <= 1
    ensures if j.session.h.Returned? then j.given == j.got else j.given == []
    ensures !j.session.h.Returned? && j.got != [] ==>
              g in j.life.gos && j.life.gos[g].at == L.Holding && j.life.gos[g].hand == Some(j.got[0])
  {}

  /** Whatever is interleaved with a request: when its handler has returned, Close has been called on just the
      client that the director handed over, if any, by exactly one Finish of g; and until then g holds this client,
      which is open, in no channel and in nobody else's hands. */
  lemma ReleasedExactlyOnce(g: nat, s0: L.State, events: seq<Event>, j: Joint)
    requires LT.Reachable(s0) && g !in s0.gos && Play(g, Begin(s0), events) == Some(j)
    ensures L.Run(s0, j.trace) == Some(j.life) && Finishes(j.trace, g) == j.session.closes == |j.given| <= |j.got| <= 1
    ensures if j.session.h.Returned? then j.given == j.got else j.given == []
    ensures !j.session.h.Returned? && j.got != [] ==>
              && LT.HeldAt(j.life, g, j.got[0]) && j.got[0] in j.life.clients && j.life.clients[j.got[0]].open
              && (forall o :: LP.Owns(j.life, o, j.got[0]) ==> o == g)
              && forall h :: h in j.life.chans ==> j.got[0] !in j.life.chans[h].queue
  {
    PlayOk(g, s0, events, j);
    PhaseMeans(g, j);
    if !j.session.h.Returned? && j.got != [] { OnlyHolder(j.life, g, j.got[0]); }
  }

  // The director's part: what GrpcProxyTransport does is how such a request begins.

  function Lives(steps: seq<L.Step>): (events: seq<Event>)
    ensures |events| == |steps|
  {
    seq(|steps|, i requires 0 <= i < |steps| => Life(steps[i]))
  }

  lemma {:induction false} PlayAppend(g: nat, j: Joint, events: seq<Event>, more: seq<Event>)
    ensures Play(g, j, events + more)
         == (var mid := Play(g, j, events); if mid.None? then None else Play(g, mid.value, more))
    decreases |events|
  {
    if events == [] {
      assert events + more == more;
    } else {
      assert (events + more)[1..] == events[1..] + more;
      var next := Happen(g, j, events[0]);
      if next.Some? { PlayAppend(g, next.value, events[1..], more); }
    }
  }

  /** An Acquire that nobody interrupts is such a beginning; with other goroutines' steps in between it is one, too. */
  lemma {:induction false} AcquirePlays(g: nat, h: L.Home, j: Joint, steps: seq<L.Step>, s': L.State)
    requires j.session.h == Directing && L.Run(j.life, steps) == Some(s') && P.AllInAcquire(steps, g, h)
    ensures Play(g, j, Lives(steps)) == Some(j.(life := s', trace := j.trace + steps))
    decreases |steps|
  {
    if steps == [] {
      assert j.trace + steps == j.trace;
    } else {
      assert P.InAcquire(steps[0], g, h);
      var j1 := Live(g, j, steps[0]).value;
      AcquirePlays(g, h, j1, steps[1..], s');
      assert Lives(steps)[1..] == Lives(steps[1..]);
      assert j.trace + [steps[0]] + steps[1..] == j.trace + steps;
    }
  }

  /** The clients that the calls of Acquire returned. */
  ghost function Acquired(r: D.Reply): seq<nat>
    requires r.Returned?
  {
    if r.client == null then [] else [r.client.id]
  }

  /** The director has come to this reply, whatever has happened meanwhile: what it asked answered with o, and goroutine
      g is where that leaves it; if nothing was asked, g has not been in Acquire. */
  ghost predicate Directed(s: D.Settings, p: D.Pools, req: D.Request, asked: seq<D.Target>, o: P.Outcome, r: D.Reply,
                           g: nat, life: L.State)
  {
    && D.Replies(s, p, req, asked, o, r) && r.Returned?
    && if asked == [] then g !in life.gos else D.EndsAt(o, g, life)
  }

  /** The reply of the director is the next event. */
  lemma DirectorReplies(s: D.Settings, p: D.Pools, req: D.Request, asked: seq<D.Target>, o: P.Outcome, r: D.Reply,
                        g: nat, j: Joint, err: Err) returns (j': Joint)
    requires j.session == START && Directed(s, p, req, asked, o, r, g, j.life)
    ensures Play(g, j, [Reply(err)]) == Some(j')
    ensures j'.got == j.got + Acquired(r) && j'.session.h != Directing
    ensures j'.session == Proxy.Apply(START, if r.client == null then DirectorFails(err) else DirectorHands).value
  {
    D.ClientXorError(D.RouteOf(s, p, req), p, asked, o, r);
    j' := Answer(g, j, err).value;
    assert Play(g, j', [Reply(err)][1..]) == Some(j');
  }

  lemma Onward(s: Session, step: Step, s': Session)
    requires Proxy.Apply(s, step) == Some(s') && s.h != Directing
    ensures step != DirectorHands && !step.DirectorFails? && s'.h != Directing
  {}

  lemma {:induction false} GotStays(g: nat, j: Joint, events: seq<Event>, j': Joint)
    requires Play(g, j, events) == Some(j') && j.session.h != Directing
    ensures j'.got == j.got
    decreases |events|
  {
    if events != [] {
      var j1 := Happen(g, j, events[0]).value;
      if events[0].Serve? && j1.session != j.session { Onward(j.session, events[0].call, j1.session); }
      GotStays(g, j1, events[1..], j');
    }
  }

  /** The events up to the director's reply, with any other goroutines' steps in between. */
  ghost predicate Begins(g: nat, s0: L.State, before: seq<Event>, j: Joint) {
    && LT.Reachable(s0) && g !in s0.gos
    && (forall i :: 0 <= i < |before| ==> before[i].Life?) && Play(g, Begin(s0), before) == Some(j)
  }

  lemma {:induction false} LivesOn(g: nat, j: Joint, events: seq<Event>, j': Joint)
    requires Play(g, j, events) == Some(j') && forall i :: 0 <= i < |events| ==> events[i].Life?
    ensures j'.session == j.session && j'.got == j.got
    decreases |events|
  {
    if events != [] { LivesOn(g, Happen(g, j, events[0]).value, events[1..], j'); }
  }

  /** Director and handler together: whatever happens besides, before the director's reply or after it, once the handler
      of a request has returned, the clients it has closed are exactly those that the director's calls of Acquire
      returned, each once: one, by a single Finish of g, when the director returned a client, none when it returned an
      error. */
  lemma ClosesWhatWasAcquired(s: D.Settings, p: D.Pools, req: D.Request, asked: seq<D.Target>, o: P.Outcome, r: D.Reply,
                              g: nat, s0: L.State, before: seq<Event>, j0: Joint, err: Err, after: seq<Event>, j: Joint)
    requires Begins(g, s0, before, j0) && Directed(s, p, req, asked, o, r, g, j0.life)
    requires Play(g, j0, [Reply(err)] + after) == Some(j) && j.session.h.Returned?
    ensures j.given == j.got == Acquired(r)
    ensures j.session.closes == Finishes(j.trace, g) == |Acquired(r)|
    ensures L.Run(s0, j.trace) == Some(j.life)
  {
    LivesOn(g, Begin(s0), before, j0);
    var j1 := DirectorReplies(s, p, req, asked, o, r, g, j0, err);
    PlayAppend(g, j0, [Reply(err)], after);
    GotStays(g, j1, after, j);
    PlayAppend(g, Begin(s0), before, [Reply(err)] + after);
    ReleasedExactlyOnce(g, s0, before + ([Reply(err)] + after), j);
  }

  function Serves(calls: seq<Step>): (events: seq<Event>)
    ensures |events| == |calls|
  {
    seq(|calls|, i requires 0 <= i < |calls| => Serve(calls[i]))
  }

  lemma CanFinish(s: L.State, g: nat)
    requires LP.Inv(s) && g in s.gos && s.gos[g].at == L.Holding && s.gos[g].hand.Some?
    ensures L.DoFinish(s, g).Some?
  {
    assert LP.HandOk(s, g);
  }

  lemma ServedSome(g: nat, j: Joint, call: Step, next: Session)
    requires Proxy.Apply(j.session, call) == Some(next) && !call.DirectorFails? && !call.DirectorHands?
    requires next.closes != j.session.closes ==> L.DoFinish(j.life, g).Some? && g in j.life.gos
    ensures Served(g, j, call).Some? && Served(g, j, call).value.session == next
  {}

  /** The handler is never kept from a step: when it returns with a client, g is there to finish. */
  lemma CanServe(g: nat, j: Joint, call: Step, next: Session)
    requires LP.Inv(j.life) && Proxy.Inv(j.session) && PhaseOk(g, j)
    requires j.session.h != Directing && Proxy.Apply(j.session, call) == Some(next)
    ensures Served(g, j, call).Some? && Served(g, j, call).value.session == next && next.h != Directing
  {
    Onward(j.session, call, next);
    SessionStep(j.session, call, next);
    if next.closes != j.session.closes { CanFinish(j.life, g); }
    ServedSome(g, j, call, next);
  }

  lemma CallPlays(g: nat, s0: L.State, j: Joint, call: Step) returns (j': Joint)
    requires JointOk(g, s0, j) && j.session.h != Directing && Proxy.Apply(j.session, call).Some?
    ensures Served(g, j, call) == Some(j') && JointOk(g, s0, j')
    ensures Proxy.Apply(j.session, call) == Some(j'.session) && j'.session.h != Directing
  {
    CanServe(g, j, call, Proxy.Apply(j.session, call).value);
    j' := Served(g, j, call).value;
    ServedKeeps(g, s0, j, call, j');
  }

  lemma FirstCall(s: Session, calls: seq<Step>, s': Session)
    requires Proxy.Run(s, calls) == Some(s') && calls != []
    ensures Proxy.Apply(s, calls[0]).Some? && Proxy.Run(Proxy.Apply(s, calls[0]).value, calls[1..]) == Some(s')
  {}

  lemma PlayFirst(g: nat, j: Joint, event: Event, j1: Joint, events: seq<Event>, j': Joint)
    requires Happen(g, j, event) == Some(j1) && Play(g, j1, events) == Some(j')
    ensures Play(g, j, [event] + events) == Some(j')
  {
    assert ([event] + events)[1..] == events;
  }

  lemma {:induction false} SessionPlays(g: nat, s0: L.State, j: Joint, calls: seq<Step>, session: Session)
    returns (j': Joint)
    requires JointOk(g, s0, j) && j.session.h != Directing && Proxy.Run(j.session, calls) == Some(session)
    ensures Play(g, j, Serves(calls)) == Some(j') && j'.session == session
    decreases |calls|
  {
    if calls == [] {
      j' := j;
    } else {
      FirstCall(j.session, calls, session);
      var j1 := CallPlays(g, s0, j, calls[0]);
      j' := SessionPlays(g, s0, j1, calls[1..], session);
      PlayFirst(g, j, Serve(calls[0]), j1, Serves(calls[1..]), j');
      assert Serves(calls) == [Serve(calls[0])] + Serves(calls[1..]);
    }
  }

  lemma PlaysOn(g: nat, s0: L.State, events: seq<Event>, j: Joint, calls: seq<Step>, session: Session)
    returns (j': Joint)
    requires LT.Reachable(s0) && Play(g, Begin(s0), events) == Some(j) && j.session.h != Directing
    requires Proxy.Run(j.session, calls) == Some(session)
    ensures Play(g, j, Serves(calls)) == Some(j') && j'.session == session
  {
    PlayOk(g, s0, events, j);
    j' := SessionPlays(g, s0, j, calls, session);
  }

  /** Every session that can follow the director's reply is the session of such a request, so what holds of those
      holds of every run of the proxy: the handler closes as many clients as the director acquired. */
  lemma EverySession(s: D.Settings, p: D.Pools, req: D.Request, asked: seq<D.Target>, o: P.Outcome, r: D.Reply,
                     g: nat, s0: L.State, before: seq<Event>, j0: Joint, err: Err, calls: seq<Step>, session: Session)
    returns (j: Joint)
    requires Begins(g, s0, before, j0) && Directed(s, p, req, asked, o, r, g, j0.life)
    requires calls != [] && calls[0] == (if r.client == null then DirectorFails(err) else DirectorHands)
    requires Proxy.Run(START, calls) == Some(session) && session.h.Returned?
    ensures Play(g, j0, [Reply(err)] + Serves(calls[1..])) == Some(j) && j.session == session
    ensures j.given == j.got == Acquired(r) && session.closes == Finishes(j.trace, g) == |Acquired(r)|
  {
    LivesOn(g, Begin(s0), before, j0);
    var j1 := DirectorReplies(s, p, req, asked, o, r, g, j0, err);
    FirstCall(START, calls, session);
    PlayAppend(g, Begin(s0), before, [Reply(err)]);
    j := PlaysOn(g, s0, before + [Reply(err)], j1, calls[1..], session);
    PlayAppend(g, j0, [Reply(err)], Serves(calls[1..]));
    ClosesWhatWasAcquired(s, p, req, asked, o, r, g, s0, before, j0, err, Serves(calls[1..]), j);
  }
}

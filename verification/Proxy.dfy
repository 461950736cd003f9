/**
  The stream proxy of handler.go: two forwarder goroutines, the handler that waits for them, and the
  two error channels of one slot between them. Stream calls are answered by the environment; the
  answers label the steps, so a run is a sequence of labels.
 */
module Proxy {
  import opened Wrappers

  type Bytes = seq<bv8>

  /** A non-nil error of a stream call. */
  datatype Err = EOF | Failure(code: int)

  /** What a forwarder puts on its outgoing stream. */
  datatype Out = Header(md: int) | Message(data: Bytes)

  /** The answer of the environment to the stream call a forwarder is in. */
  datatype Answer =
    | Received(data: Bytes)
    | GotHeader(md: int)
    | Done                  // SendHeader or SendMsg succeeded
    | Failed(err: Err)

  datatype Point = AtRecv | AtHeader | AtSendHeader | AtSend | Reporting | Ended

  /** A forwarder: where it stands, its loop counter, its one frame, the header it fetched; and as history
      everything received and put out, the error it reports and the call that returned it. */
  datatype Fwd = Fwd(at: Point, i: nat, frame: Bytes, md: int, received: seq<Bytes>, out: seq<Out>,
                     err: Err, cause: Point)

  const FRESH := Fwd(AtRecv, 0, [], 0, [], [], EOF, AtRecv)

  /** One stream call of a forwarder; `headers` says whether it forwards the header first. */
  function Call(headers: bool, f: Fwd, a: Answer): Option<Fwd> {
    if f.at.Reporting? || f.at.Ended? then None
    else if a.Failed? then Some(f.(at := Reporting, err := a.err, cause := f.at))
    else
      match (f.at, a)
      case (AtRecv, Received(data)) =>
        Some(f.(at := if headers && f.i == 0 then AtHeader else AtSend, frame := data, received := f.received + [data]))
      case (AtHeader, GotHeader(md)) => Some(f.(at := AtSendHeader, md := md))
      case (AtSendHeader, Done) => Some(f.(at := AtSend, out := f.out + [Header(f.md)]))
      case (AtSend, Done) => Some(f.(at := AtRecv, i := f.i + 1, out := f.out + [Message(f.frame)]))
      case _ => None
  }

  /** A whole forwarder, up to where the answers lead it. */
  function Calls(headers: bool, f: Fwd, answers: seq<Answer>): Option<Fwd>
    decreases |answers|
  {
    if answers == [] then Some(f)
    else
      var next := Call(headers, f, answers[0]);
      if next.None? then None else Calls(headers, next.value, answers[1..])
  }

  function Messages(data: seq<Bytes>): (out: seq<Out>)
    ensures |out| == |data|
  {
    seq(|data|, i requires 0 <= i < |data| => Message(data[i]))
  }

  /** The payloads among what was put out. */
  function Payloads(out: seq<Out>): seq<Bytes> {
    if out == [] then []
    else Payloads(out[..|out| - 1]) + (if out[|out| - 1].Message? then [out[|out| - 1].data] else [])
  }

  /** How many of the received messages are not put out yet. */
  function Behind(f: Fwd): nat {
    if f.at == AtRecv || ((f.at.Reporting? || f.at.Ended?) && f.cause == AtRecv) then 0 else 1
  }

  /** In order and byte for byte: what is out is what was received but for the last `Behind`, after a
      header if headers are forwarded and one has been sent. */
  ghost predicate InOrder(headers: bool, f: Fwd) {
    && |f.received| == f.i + Behind(f)
    && !f.cause.Reporting? && !f.cause.Ended?
    && (f.at == AtHeader || f.at == AtSendHeader || f.at == AtSend ==>
          f.received != [] && f.frame == f.received[|f.received| - 1])
    && (!headers ==> f.at != AtHeader && f.at != AtSendHeader && f.out == Messages(f.received[..f.i]))
    && (headers ==>
          if f.i == 0 && f.out == [] then
            f.at != AtSend
          else
            f.out == [Header(f.md)] + Messages(f.received[..f.i])
            && f.at != AtHeader && f.at != AtSendHeader && (f.i == 0 ==> f.at != AtRecv))
  }

  lemma FreshInOrder(headers: bool)
    ensures InOrder(headers, FRESH)
  {}

  lemma CallInOrder(headers: bool, f: Fwd, a: Answer, f': Fwd)
    requires InOrder(headers, f) && Call(headers, f, a) == Some(f')
    ensures InOrder(headers, f')
  {
    if a.Received? {
      assert f'.received[..f.i] == f.received[..f.i];
    } else if f.at == AtSend && a.Done? {
      assert Messages(f.received[..f.i]) + [Message(f.frame)] == Messages(f.received[..f'.i]);
    } else if f.at == AtSendHeader && a.Done? {
      assert Messages(f.received[..0]) == [];
    }
  }

  lemma {:induction false} PayloadsOfMessages(data: seq<Bytes>, before: seq<Out>)
    ensures Payloads(before + Messages(data)) == Payloads(before) + data
  {
    if data == [] {
      assert before + Messages(data) == before;
    } else {
      var init := data[..|data| - 1];
      PayloadsOfMessages(init, before);
      assert before + Messages(data) == (before + Messages(init)) + [Message(data[|data| - 1])];
      assert data == init + [data[|data| - 1]];
    }
  }

  lemma NoPayload(md: int)
    ensures Payloads([Header(md)]) == []
  {
    assert [Header(md)][..0] == [];
  }

  /** What forwarding in order means: the payloads put out are the first ones received; at most one is
      missing, none exactly when the forwarder waits for the next message or ended because RecvMsg failed. */
  lemma Delivered(headers: bool, f: Fwd)
    requires InOrder(headers, f)
    ensures Payloads(f.out) == f.received[..f.i] && |f.received| - 1 <= f.i <= |f.received|
    ensures Payloads(f.out) == f.received <==> Behind(f) == 0
  {
    var data := f.received[..f.i];
    if !headers {
      PayloadsOfMessages(data, []);
      assert [] + Messages(data) == Messages(data);
    } else if f.i != 0 || f.out != [] {
      PayloadsOfMessages(data, [Header(f.md)]);
      NoPayload(f.md);
    } else {
      assert data == [];
    }
    assert data == f.received <==> f.i == |f.received|;
  }

  // The session: handler and forwarders.

  datatype Status = Nil | Plain(err: Err) | Internal(err: Err) | NeverReached

  datatype Handler =
    | Directing           // calling the director
    | Opening             // the director has handed over a client, Close is deferred
    | Looping(round: nat) // in the select loop
    | Returned(status: Status)

  /** `s2cChan` and `c2sChan` are the error channels of one slot. As history, `closes` counts the calls of
      Close on the client, `taken` the receives from s2cChan, `sends2c` and `sendc2s` the sends. */
  datatype Session = Session(h: Handler, s2c: Fwd, c2s: Fwd, s2cChan: seq<Err>, c2sChan: seq<Err>,
                             running: bool, closeSend: bool, cancelled: bool, acquired: bool,
                             closes: nat, taken: nat, sendS2c: nat, sendC2s: nat)

  const START := Session(Directing, FRESH, FRESH, [], [], false, false, false, false, 0, 0, 0, 0)

  datatype Step =
    | DirectorFails(err: Err)
    | DirectorHands
    | StreamFails(err: Err)
    | StreamOpens
    | CallS2c(a: Answer)
    | CallC2s(a: Answer)
    | ReportS2c
    | ReportC2s
    | TakeS2c
    | TakeC2s
    | LoopEnds

  /** The handler returns; the deferred Close runs if the client had been handed over. */
  function Return(s: Session, status: Status): Session {
    s.(h := Returned(status), closes := s.closes + (if s.acquired then 1 else 0))
  }

  function Apply(s: Session, step: Step): Option<Session> {
    match step
    case DirectorFails(err) => if s.h != Directing then None else Some(Return(s, Plain(err)))
    case DirectorHands => if s.h != Directing then None else Some(s.(h := Opening, acquired := true))
    case StreamFails(err) => if s.h != Opening then None else Some(Return(s, Plain(err)))
    case StreamOpens => if s.h != Opening then None else Some(s.(h := Looping(0), running := true))
    case CallS2c(a) =>
      if !s.running then None
      else (match Call(false, s.s2c, a) case None => None case Some(f) => Some(s.(s2c := f)))
    case CallC2s(a) =>
      if !s.running then None
      else (match Call(true, s.c2s, a) case None => None case Some(f) => Some(s.(c2s := f)))
    case ReportS2c =>
      if s.s2c.at != Reporting || |s.s2cChan| >= 1 then None
      else Some(s.(s2c := s.s2c.(at := Ended), s2cChan := s.s2cChan + [s.s2c.err], sendS2c := s.sendS2c + 1))
    case ReportC2s =>
      if s.c2s.at != Reporting || |s.c2sChan| >= 1 then None
      else Some(s.(c2s := s.c2s.(at := Ended), c2sChan := s.c2sChan + [s.c2s.err], sendC2s := s.sendC2s + 1))
    case TakeS2c =>
      if !s.h.Looping? || s.h.round >= 2 || s.s2cChan == [] then None
      else
        var s' := s.(s2cChan := s.s2cChan[1..], taken := s.taken + 1);
        if s.s2cChan[0] == EOF then Some(s'.(h := Looping(s.h.round + 1), closeSend := true))
        else Some(Return(s'.(cancelled := true), Internal(s.s2cChan[0])))
    case TakeC2s =>
      if !s.h.Looping? || s.h.round >= 2 || s.c2sChan == [] then None
      else
        var s' := s.(c2sChan := s.c2sChan[1..]);
        Some(Return(s', if s.c2sChan[0] != EOF then Plain(s.c2sChan[0]) else Nil))
    case LoopEnds =>
      if !s.h.Looping? || s.h.round < 2 then None else Some(Return(s, NeverReached))
  }

  function Run(s: Session, steps: seq<Step>): Option<Session>
    decreases |steps|
  {
    if steps == [] then Some(s)
    else
      var next := Apply(s, steps[0]);
      if next.None? then None else Run(next.value, steps[1..])
  }

  /** A forwarder sends its error once, when it ends, into the empty slot. */
  ghost predicate SlotOk(f: Fwd, ch: seq<Err>, sends: nat, taken: nat) {
    && sends == (if f.at == Ended then 1 else 0)
    && |ch| + taken == sends
    && (ch != [] ==> ch[0] == f.err)
  }

  /** Before the forwarders run nothing has happened in them. */
  ghost predicate BeforeOk(s: Session) {
    !s.running ==> s.s2c.at == AtRecv && s.c2s.at == AtRecv && !s.h.Looping?
  }

  ghost predicate LoopOk(s: Session) {
    s.h.Looping? ==>
      && s.running && s.acquired && s.h.round == s.taken && !s.cancelled
      && |s.c2sChan| == s.sendC2s
      && (s.taken == 1 ==> s.s2c.err == EOF)
  }

  ghost predicate ReturnOk(s: Session) {
    s.h.Returned? ==>
      && s.h.status != NeverReached
      && (s.h.status == Nil ==> s.running && s.c2s.at == Ended && s.c2s.err == EOF)
      && (s.h.status.Internal? ==>
            s.cancelled && s.h.status.err != EOF && s.s2c.at == Ended && s.s2c.err == s.h.status.err)
      && (s.h.status.Plain? && s.running ==> s.h.status.err != EOF && s.c2s.at == Ended && s.c2s.err == s.h.status.err)
  }

  ghost predicate CountsOk(s: Session) {
    && SlotOk(s.s2c, s.s2cChan, s.sendS2c, s.taken)
    && s.sendC2s == (if s.c2s.at == Ended then 1 else 0) && |s.c2sChan| <= s.sendC2s
    && (s.c2sChan != [] ==> s.c2sChan[0] == s.c2s.err)
    && s.closes == (if s.h.Returned? && s.acquired then 1 else 0)
    && (s.closeSend <==> s.taken == 1 && s.s2c.err == EOF)
    && (s.cancelled <==> s.taken == 1 && s.s2c.err != EOF)
    && (s.cancelled <==> s.h.Returned? && s.h.status.Internal?)
    && (s.h == Directing ==> !s.running && !s.acquired) && (s.h == Opening ==> !s.running && s.acquired)
  }

  ghost predicate Inv(s: Session) {
    && InOrder(false, s.s2c) && InOrder(true, s.c2s)
    && BeforeOk(s) && LoopOk(s) && ReturnOk(s) && CountsOk(s)
  }

  lemma CallFrame(headers: bool, f: Fwd, a: Answer, f': Fwd)
    requires InOrder(headers, f) && Call(headers, f, a) == Some(f')
    ensures InOrder(headers, f') && f.at != Ended && f.at != Reporting && f'.at != Ended
  {
    CallInOrder(headers, f, a, f');
  }

  lemma ForwarderStepKeeps(s: Session, step: Step, s': Session)
    requires step.CallS2c? || step.CallC2s?
    requires Inv(s) && Apply(s, step) == Some(s')
    ensures Inv(s')
  {
    if step.CallS2c? { CallFrame(false, s.s2c, step.a, s'.s2c); } else { CallFrame(true, s.c2s, step.a, s'.c2s); }
  }

  lemma ReportStepKeeps(s: Session, step: Step, s': Session)
    requires step.ReportS2c? || step.ReportC2s?
    requires Inv(s) && Apply(s, step) == Some(s')
    ensures Inv(s')
  {}

  lemma HandlerStepKeeps(s: Session, step: Step, s': Session)
    requires !(step.CallS2c? || step.CallC2s? || step.ReportS2c? || step.ReportC2s?)
    requires Inv(s) && Apply(s, step) == Some(s')
    ensures Inv(s')
  {}

  lemma StepKeeps(s: Session, step: Step, s': Session)
    requires Inv(s) && Apply(s, step) == Some(s')
    ensures Inv(s') && s'.acquired == (s.acquired || step == DirectorHands)
    ensures s'.taken > 0 <==> s.taken > 0 || step == TakeS2c
  {
    if step.CallS2c? || step.CallC2s? { ForwarderStepKeeps(s, step, s'); }
    else if step.ReportS2c? || step.ReportC2s? { ReportStepKeeps(s, step, s'); }
    else { HandlerStepKeeps(s, step, s'); }
  }

  lemma {:induction false} RunKeeps(s: Session, steps: seq<Step>, s': Session)
    requires Inv(s) && Run(s, steps) == Some(s')
    ensures Inv(s') && s'.acquired == (s.acquired || DirectorHands in steps)
    ensures s'.taken > 0 <==> s.taken > 0 || TakeS2c in steps
    decreases |steps|
  {
    if steps != [] {
      var s1 := Apply(s, steps[0]).value;
      StepKeeps(s, steps[0], s1);
      RunKeeps(s1, steps[1..], s');
      assert steps == [steps[0]] + steps[1..];
    }
  }

  /** A forwarder that has done nothing. */
  lemma UnusedInOrder(headers: bool, f: Fwd)
    requires f.at == AtRecv && f.i == 0 && f.received == [] && f.out == [] && f.cause == AtRecv
    ensures InOrder(headers, f)
  {}

  /** A session in which nothing has happened. */
  lemma UnusedKeeps(s0: Session, steps: seq<Step>, s: Session)
    requires s0.h == Directing && !s0.running && !s0.acquired && !s0.closeSend && !s0.cancelled
    requires s0.s2c == s0.c2s && s0.s2c.at == AtRecv && s0.s2c.i == 0 && s0.s2c.received == [] && s0.s2c.out == []
    requires s0.s2c.cause == AtRecv && s0.s2cChan == [] && s0.c2sChan == []
    requires s0.closes == s0.taken == s0.sendS2c == s0.sendC2s == 0
    requires Run(s0, steps) == Some(s)
    ensures Inv(s) && s.acquired == (DirectorHands in steps) && (s.taken > 0 <==> TakeS2c in steps)
  {
    UnusedInOrder(false, s0.s2c);
    UnusedInOrder(true, s0.c2s);
    RunKeeps(s0, steps, s);
  }

  lemma Kept(steps: seq<Step>, s: Session)
    requires Run(START, steps) == Some(s)
    ensures Inv(s) && s.acquired == (DirectorHands in steps) && (s.taken > 0 <==> TakeS2c in steps)
  {
    UnusedKeeps(START, steps, s);
  }

  // What holds in every schedule of the handler and the two forwarders.

  /** The return after the loop is never reached; a forwarder sends one error, when it ends, and when it is about
      to, its slot is empty, so it is not kept waiting. */
  lemma LastLineUnreachable(steps: seq<Step>, s: Session)
    requires Run(START, steps) == Some(s)
    ensures s.h != Returned(NeverReached) && (s.h.Looping? ==> s.h.round < 2)
    ensures s.sendS2c == (if s.s2c.at == Ended then 1 else 0) && s.sendC2s == (if s.c2s.at == Ended then 1 else 0)
    ensures s.s2c.at == Reporting ==> Apply(s, ReportS2c).Some?
    ensures s.c2s.at == Reporting ==> Apply(s, ReportC2s).Some?
  {
    Kept(steps, s);
  }

  /** In both directions the payloads delivered are, in order, the first ones received; at most one is missing,
      and none is if the forwarder ended because RecvMsg failed. */
  lemma DeliveredInOrder(steps: seq<Step>, s: Session)
    requires Run(START, steps) == Some(s)
    ensures Payloads(s.s2c.out) <= s.s2c.received && |s.s2c.received| - |Payloads(s.s2c.out)| <= 1
    ensures Payloads(s.c2s.out) <= s.c2s.received && |s.c2s.received| - |Payloads(s.c2s.out)| <= 1
    ensures s.s2c.at == Ended ==> (Payloads(s.s2c.out) == s.s2c.received <==> s.s2c.cause == AtRecv)
    ensures s.c2s.at == Ended ==> (Payloads(s.c2s.out) == s.c2s.received <==> s.c2s.cause == AtRecv)
  {
    Kept(steps, s);
    Delivered(false, s.s2c);
    Delivered(true, s.c2s);
  }

  /** Towards the caller the header comes at most once and before any message, exactly once if there is one;
      towards the backend it never comes. */
  lemma HeaderOnceFirst(steps: seq<Step>, s: Session)
    requires Run(START, steps) == Some(s)
    ensures s.c2s.out != [] ==> s.c2s.out[0].Header?
    ensures forall i :: 1 <= i < |s.c2s.out| ==> s.c2s.out[i].Message?
    ensures forall i :: 0 <= i < |s.s2c.out| ==> s.s2c.out[i].Message?
  {
    Kept(steps, s);
  }

  /** When the handler returns nil the backend direction has ended with EOF; the caller then has every backend
      message exactly if that EOF came from RecvMsg. */
  lemma NilMeansDelivered(steps: seq<Step>, s: Session)
    requires Run(START, steps) == Some(s) && s.h == Returned(Nil)
    ensures s.c2s.at == Ended && s.c2s.err == EOF
    ensures Payloads(s.c2s.out) == s.c2s.received <==> s.c2s.cause == AtRecv
  {
    Kept(steps, s);
    Delivered(true, s.c2s);
  }

  /** Towards the caller, Header, SendHeader and SendMsg never answer with EOF. */
  predicate EofOnlyFromRecv(s: Session, steps: seq<Step>)
    decreases |steps|
  {
    steps == []
    || ((steps[0] == CallC2s(Failed(EOF)) ==> s.c2s.at == AtRecv)
        && (var next := Apply(s, steps[0]); next.Some? ==> EofOnlyFromRecv(next.value, steps[1..])))
  }

  predicate EofIsRecv(f: Fwd) {
    (f.at.Reporting? || f.at.Ended?) && f.err == EOF ==> f.cause == AtRecv
  }

  lemma EofStep(s: Session, step: Step, s': Session)
    requires Apply(s, step) == Some(s') && EofIsRecv(s.c2s)
    requires step == CallC2s(Failed(EOF)) ==> s.c2s.at == AtRecv
    ensures EofIsRecv(s'.c2s)
  {}

  lemma {:induction false} EofRun(s: Session, steps: seq<Step>, s': Session)
    requires Run(s, steps) == Some(s') && EofIsRecv(s.c2s) && EofOnlyFromRecv(s, steps)
    ensures EofIsRecv(s'.c2s)
    decreases |steps|
  {
    if steps != [] {
      var s1 := Apply(s, steps[0]).value;
      EofStep(s, steps[0], s1);
      EofRun(s1, steps[1..], s');
    }
  }

  /** So if only RecvMsg ever answers with EOF, a nil result means that every backend message was sent to the
      caller, in order. */
  lemma NilMeansAllDelivered(steps: seq<Step>, s: Session)
    requires Run(START, steps) == Some(s) && s.h == Returned(Nil) && EofOnlyFromRecv(START, steps)
    ensures s.c2s.at == Ended && s.c2s.err == EOF && Payloads(s.c2s.out) == s.c2s.received
  {
    NilMeansDelivered(steps, s);
    EofRun(START, steps, s);
  }

  /** The sending half towards the backend is closed exactly when the handler has taken the EOF of the caller's
      direction; the backend call is cancelled exactly when that direction ended with another error, which the handler
      has taken and returns. */
  lemma HalfClose(steps: seq<Step>, s: Session)
    requires Run(START, steps) == Some(s)
    ensures s.closeSend <==> TakeS2c in steps && s.s2c.err == EOF
    ensures s.closeSend ==> s.s2c.at == Ended && (s.s2c.cause == AtRecv ==> Payloads(s.s2c.out) == s.s2c.received)
    ensures s.cancelled <==> TakeS2c in steps && s.s2c.err != EOF
    ensures s.cancelled <==> s.h.Returned? && s.h.status.Internal?
    ensures s.cancelled ==> s.s2c.at == Ended && s.h.status == Internal(s.s2c.err)
  {
    Kept(steps, s);
    Delivered(false, s.s2c);
  }

  lemma ReturnedStep(s: Session, step: Step, s': Session)
    requires Apply(s, step) == Some(s') && s.h.Returned?
    ensures s'.h == s.h && s'.acquired == s.acquired && s'.running == s.running
  {}

  lemma {:induction false} ReturnedStays(s: Session, steps: seq<Step>, s': Session)
    requires Run(s, steps) == Some(s') && s.h.Returned?
    ensures s'.h == s.h && s'.acquired == s.acquired && s'.running == s.running
    decreases |steps|
  {
    if steps != [] {
      var s1 := Apply(s, steps[0]).value;
      ReturnedStep(s, steps[0], s1);
      ReturnedStays(s1, steps[1..], s');
    }
  }

  lemma RunningStep(s: Session, step: Step, s': Session)
    requires Apply(s, step) == Some(s') && s.running
    ensures s'.running
  {}

  lemma {:induction false} RunningStays(s: Session, steps: seq<Step>, s': Session)
    requires Run(s, steps) == Some(s') && s.running
    ensures s'.running
    decreases |steps|
  {
    if steps != [] {
      var s1 := Apply(s, steps[0]).value;
      RunningStep(s, steps[0], s1);
      RunningStays(s1, steps[1..], s');
    }
  }

  /** Nothing has come from the forwarders yet. */
  predicate Untouched(s: Session) {
    !s.running && s.s2c.at == AtRecv && s.c2s.at == AtRecv
  }

  lemma OpeningFails(s: Session, steps: seq<Step>, s': Session)
    requires s.h == Opening && Untouched(s) && Run(s, steps) == Some(s') && s'.h.Returned? && !s'.running
    ensures steps != [] && steps[0].StreamFails? && s'.h.status == Plain(steps[0].err)
  {
    var s1 := Apply(s, steps[0]).value;
    if steps[0].StreamFails? { ReturnedStays(s1, steps[1..], s'); } else { RunningStays(s1, steps[1..], s'); }
  }

  lemma DirectingFails(s: Session, steps: seq<Step>, s': Session)
    requires s.h == Directing && Untouched(s) && Run(s, steps) == Some(s') && s'.h.Returned? && !s'.running
    ensures steps != []
    ensures if steps[0].DirectorFails? then s'.h.status == Plain(steps[0].err)
            else |steps| > 1 && steps[1].StreamFails? && s'.h.status == Plain(steps[1].err)
  {
    var s1 := Apply(s, steps[0]).value;
    if steps[0].DirectorFails? { ReturnedStays(s1, steps[1..], s'); } else { OpeningFails(s1, steps[1..], s'); }
  }

  /** A handler that returns before the forwarders run returns the error of the director, or, with the client handed
      over, that of opening the backend stream. */
  lemma EarlyError(steps: seq<Step>, s: Session)
    requires Run(START, steps) == Some(s) && s.h.Returned? && !s.running
    ensures steps != []
    ensures if steps[0].DirectorFails? then s.h.status == Plain(steps[0].err)
            else |steps| > 1 && steps[1].StreamFails? && s.h.status == Plain(steps[1].err)
  {
    DirectingFails(START, steps, s);
  }

  /** A handler that returns later returns nil for the EOF of the backend direction, that direction's other error as it
      is, or the caller's direction's other error as an internal one. */
  lemma LateError(steps: seq<Step>, s: Session)
    requires Run(START, steps) == Some(s) && s.h.Returned? && s.running
    ensures s.h.status
         == if s.cancelled then Internal(s.s2c.err) else if s.c2s.err == EOF then Nil else Plain(s.c2s.err)
    ensures s.cancelled || s.c2s.at == Ended
  {
    Kept(steps, s);
  }

  /** Exactly-once release: a client handed over by the director is closed once on every way out of the
      handler, and not before; without one nothing is closed. */
  lemma ClosedExactlyOnce(steps: seq<Step>, s: Session)
    requires Run(START, steps) == Some(s)
    ensures s.closes == if s.h.Returned? && DirectorHands in steps then 1 else 0
  {
    Kept(steps, s);
  }

  /** The handler does not wait in vain: once the backend direction has ended, or the caller's has and its error
      has not been taken, a receive is possible; the first always makes it return. */
  lemma HandlerProgress(steps: seq<Step>, s: Session)
    requires Run(START, steps) == Some(s) && s.h.Looping?
    ensures s.c2s.at == Ended ==>
              && Apply(s, TakeC2s).Some?
              && Apply(s, TakeC2s).value.h == Returned(if s.c2s.err == EOF then Nil else Plain(s.c2s.err))
    ensures s.s2c.at == Ended && s.taken == 0 ==>
              && Apply(s, TakeS2c).Some?
              && (s.s2c.err != EOF ==> Apply(s, TakeS2c).value.h == Returned(Internal(s.s2c.err)))
  {
    Kept(steps, s);
  }
}

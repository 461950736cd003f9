/** codec.go and the two forwarder loops of handler.go, as they run on their streams. */
module Forward {
  import opened Wrappers
  import opened Proxy

  /** The message the proxy passes on without looking inside. */
  class Frame {
    var payload: Bytes

    constructor ()
      ensures payload == []
    {
      payload := [];
    }
  }

  /** Any other message, known to the parent codec only. */
  class Foreign {
    var value: int
  }

  datatype Value = IsFrame(frame: Frame) | IsForeign(foreign: Foreign)

  class RawCodec {
    const parentMarshal: int -> Result<Bytes, Err>
    const parentUnmarshal: Bytes -> Result<int, Err>

    constructor (parentMarshal: int -> Result<Bytes, Err>, parentUnmarshal: Bytes -> Result<int, Err>) {
      this.parentMarshal, this.parentUnmarshal := parentMarshal, parentUnmarshal;
    }

    /** A frame is its payload; anything else is the parent's business. */
    method Marshal(v: Value) returns (r: Result<Bytes, Err>)
      ensures r == if v.IsFrame? then Ok(v.frame.payload) else parentMarshal(v.foreign.value)
    {
      match v
      case IsFrame(frame) => r := Ok(frame.payload);
      case IsForeign(foreign) => r := parentMarshal(foreign.value);
    }

    method Unmarshal(data: Bytes, v: Value) returns (err: Option<Err>)
      modifies if v.IsFrame? then {v.frame as object} else {v.foreign}
      ensures v.IsFrame? ==> err == None && v.frame.payload == data
      ensures v.IsForeign? ==>
                match parentUnmarshal(data)
                case Ok(value) => err == None && v.foreign.value == value
                case Err(e) => err == Some(e) && v.foreign.value == old(v.foreign.value)
    {
      match v
      case IsFrame(frame) =>
        frame.payload := data;
        err := None;
      case IsForeign(foreign) =>
        var r := parentUnmarshal(data);
        match r
        case Ok(value) =>
          foreign.value := value;
          err := None;
        case Err(e) => err := Some(e);
    }

    /** On frames the codec is transparent: what is unmarshalled is marshalled again unchanged, whatever the
        frame held before. */
    method PassThrough(data: Bytes, frame: Frame) returns (r: Result<Bytes, Err>)
      modifies frame
      ensures r == Ok(data)
    {
      var _ := Unmarshal(data, IsFrame(frame));
      r := Marshal(IsFrame(frame));
    }
  }

  /** The stream a forwarder reads: what its n-th RecvMsg and its Header return. */
  class Source {
    const recv: nat -> Result<Bytes, Err>
    const header: Result<int, Err>
    var next: nat

    constructor (recv: nat -> Result<Bytes, Err>, header: Result<int, Err>)
      ensures next == 0
    {
      this.recv, this.header, next := recv, header, 0;
    }

    method RecvMsg(codec: RawCodec, frame: Frame) returns (err: Option<Err>)
      modifies this`next, frame
      ensures next == old(next) + 1
      ensures match recv(old(next))
              case Ok(data) => err == None && frame.payload == data
              case Err(e) => err == Some(e) && frame.payload == old(frame.payload)
    {
      var r := recv(next);
      next := next + 1;
      match r
      case Ok(data) => err := codec.Unmarshal(data, IsFrame(frame));
      case Err(e) => err := Some(e);
    }
  }

  /** The stream a forwarder writes: whether its n-th SendMsg and its SendHeader fail, and what it was given. */
  class Sink {
    const send: nat -> Option<Err>
    const sendHeader: Option<Err>
    var next: nat
    var out: seq<Out>

    constructor (send: nat -> Option<Err>, sendHeader: Option<Err>)
      ensures next == 0 && out == []
    {
      this.send, this.sendHeader, next, out := send, sendHeader, 0, [];
    }

    method SendHeader(md: int) returns (err: Option<Err>)
      modifies this`out
      ensures err == sendHeader && out == old(out) + (if err.None? then [Header(md)] else [])
    {
      err := sendHeader;
      if err.None? { out := out + [Header(md)]; }
    }

    method SendMsg(codec: RawCodec, frame: Frame) returns (err: Option<Err>)
      modifies this
      ensures next == old(next) + 1 && err == send(old(next))
      ensures out == old(out) + (if err.None? then [Message(frame.payload)] else [])
    {
      err := send(next);
      next := next + 1;
      if err.None? {
        var r := codec.Marshal(IsFrame(frame));
        out := out + [Message(r.value)];
      }
    }
  }

  lemma {:induction false} CallsAppend(headers: bool, f: Fwd, answers: seq<Answer>, f1: Fwd, a: Answer, f2: Fwd)
    requires Calls(headers, f, answers) == Some(f1) && Call(headers, f1, a) == Some(f2)
    ensures Calls(headers, f, answers + [a]) == Some(f2)
    decreases |answers|
  {
    if answers == [] {
      assert ([] + [a])[1..] == [];
      assert Calls(headers, f2, []) == Some(f2);
    } else {
      CallsAppend(headers, Call(headers, f, answers[0]).value, answers[1..], f1, a, f2);
      assert (answers + [a])[1..] == answers[1..] + [a];
    }
  }

  lemma {:induction false} CallsInOrder(headers: bool, f: Fwd, answers: seq<Answer>, f': Fwd)
    requires InOrder(headers, f) && Calls(headers, f, answers) == Some(f')
    ensures InOrder(headers, f')
    decreases |answers|
  {
    if answers != [] {
      var f1 := Call(headers, f, answers[0]).value;
      CallInOrder(headers, f, answers[0], f1);
      CallsInOrder(headers, f1, answers[1..], f');
    }
  }

  /** Where a forwarder stands in the protocol after some answers, what it has read and what it has written. */
  ghost predicate Stands(headers: bool, answers: seq<Answer>, f: Fwd, src: Source, dst: Sink)
    reads src, dst
  {
    && Calls(headers, FRESH, answers) == Some(f)
    && dst.out == f.out
    && (forall k :: 0 <= k < |f.received| ==> src.recv(k) == Ok(f.received[k]))
  }

  /** The error that a forwarder reports is the one that its last stream call returned: of RecvMsg after all that
      was received, of Header, of SendHeader, or of SendMsg after all that was sent. */
  ghost predicate Blamed(f: Fwd, src: Source, dst: Sink) {
    match f.cause
    case AtRecv => src.recv(|f.received|) == Err(f.err)
    case AtHeader => src.header == Err(f.err)
    case AtSendHeader => dst.sendHeader == Some(f.err)
    case AtSend => dst.send(f.i) == Some(f.err)
    case _ => false
  }

  /** One more answer of the environment. */
  lemma Answered(headers: bool, answers: seq<Answer>, f: Fwd, a: Answer) returns (answers': seq<Answer>, f': Fwd)
    requires Calls(headers, FRESH, answers) == Some(f) && Call(headers, f, a).Some?
    ensures Call(headers, f, a) == Some(f') && Calls(headers, FRESH, answers') == Some(f')
  {
    answers', f' := answers + [a], Call(headers, f, a).value;
    CallsAppend(headers, FRESH, answers, f, a, f');
  }

  /** What a forwarder that has ended has delivered. */
  lemma Outcome(headers: bool, answers: seq<Answer>, f: Fwd, out: seq<Out>)
    requires Calls(headers, FRESH, answers) == Some(f) && f.at == Reporting && out == f.out
    ensures Payloads(out) <= f.received && (Payloads(out) == f.received <==> f.cause == AtRecv)
    ensures headers && out != [] ==> out[0] == Header(f.md)
  {
    FreshInOrder(headers);
    CallsInOrder(headers, FRESH, answers, f);
    Delivered(headers, f);
  }

  /** The SendMsg at the end of a turn of either loop. */
  method ForwardMessage(headers: bool, dst: Sink, codec: RawCodec, frame: Frame, ghost answers: seq<Answer>,
                        ghost f: Fwd)
    returns (e: Option<Err>, ghost answers': seq<Answer>, ghost f': Fwd)
    requires Calls(headers, FRESH, answers) == Some(f) && f.at == AtSend && dst.out == f.out && f.frame == frame.payload
    requires dst.next == f.i
    modifies dst
    ensures Calls(headers, FRESH, answers') == Some(f') && dst.out == f'.out && f'.received == f.received
    ensures f'.md == f.md
    ensures if e.Some? then f'.at == Reporting && f'.err == e.value && dst.out == old(dst.out)
                            && f'.cause == AtSend && dst.send(f'.i) == e
            else f'.at == AtRecv && f'.i == f.i + 1 == dst.next && dst.out == old(dst.out) + [Message(frame.payload)]
  {
    e := dst.SendMsg(codec, frame);
    answers', f' := Answered(headers, answers, f, if e.Some? then Failed(e.value) else Done);
  }

  /** The RecvMsg at the start of a turn of either loop. */
  method ReadMessage(headers: bool, src: Source, codec: RawCodec, frame: Frame, ghost answers: seq<Answer>,
                     ghost f: Fwd)
    returns (e: Option<Err>, ghost answers': seq<Answer>, ghost f': Fwd)
    requires Calls(headers, FRESH, answers) == Some(f) && f.at == AtRecv
    modifies src`next, frame
    ensures Calls(headers, FRESH, answers') == Some(f') && f'.out == f.out && f'.md == f.md
    ensures src.next == old(src.next) + 1
    ensures src.recv(old(src.next)) == (if e.Some? then Err(e.value) else Ok(frame.payload))
    ensures f'.received == f.received + (if e.Some? then [] else [frame.payload])
    ensures e.Some? ==> f'.at == Reporting && f'.err == e.value && f'.cause == AtRecv
    ensures e.None? ==>
              f'.at == (if headers && f.i == 0 then AtHeader else AtSend) && f'.i == f.i && f'.frame == frame.payload
  {
    e := src.RecvMsg(codec, frame);
    answers', f' := Answered(headers, answers, f, if e.Some? then Failed(e.value) else Received(frame.payload));
  }

  /** forwardServerToClient: the loop ends with the error it puts into its channel. It is the protocol's forwarder,
      so what it wrote is the first messages it read, in order, all of them when it ended on RecvMsg; and the error
      is the one that ended it. The stream is one that fails in the end, at the latest at receive `bound`. */
  method ForwardServerToClient(src: Source, dst: Sink, codec: RawCodec, ghost bound: nat)
    returns (err: Err, ghost answers: seq<Answer>, ghost f: Fwd)
    requires src.next == 0 && dst.next == 0 && dst.out == [] && src.recv(bound).Err?
    modifies src, dst
    ensures Stands(false, answers, f, src, dst) && f.at == Reporting && f.err == err && Blamed(f, src, dst)
    ensures Payloads(dst.out) <= f.received && (Payloads(dst.out) == f.received <==> f.cause == AtRecv)
  {
    var frame := new Frame();
    answers, f := [], FRESH;
    var i := 0;
    while true
      invariant Stands(false, answers, f, src, dst) && f.at == AtRecv
      invariant f.i == i == |f.received| == src.next == dst.next <= bound
      decreases bound - i
    {
      var e;
      e, answers, f := ReadMessage(false, src, codec, frame, answers, f);
      if e.Some? {
        err := e.value;
        break;
      }
      e, answers, f := ForwardMessage(false, dst, codec, frame, answers, f);
      if e.Some? {
        err := e.value;
        break;
      }
      i := i + 1;
    }
    Outcome(false, answers, f, dst.out);
  }

  /** The header part of forwardClientToServer. */
  method ForwardHeader(src: Source, dst: Sink, ghost answers: seq<Answer>, ghost f: Fwd)
    returns (e: Option<Err>, ghost answers': seq<Answer>, ghost f': Fwd)
    requires Calls(true, FRESH, answers) == Some(f) && f.at == AtHeader && dst.out == f.out
    modifies dst`out
    ensures Calls(true, FRESH, answers') == Some(f') && dst.out == f'.out
    ensures f'.received == f.received && f'.i == f.i && f'.frame == f.frame
    ensures if e.Some? then f'.at == Reporting && f'.err == e.value && Blamed(f', src, dst) else f'.at == AtSend
    ensures dst.out == old(dst.out) + (if e.Some? then [] else [Header(f'.md)])
    ensures if src.header.Ok? then f'.md == src.header.value else e.Some? && f'.md == f.md
  {
    if src.header.Err? {
      e := Some(src.header.error);
      answers', f' := Answered(true, answers, f, Failed(e.value));
      return;
    }
    answers', f' := Answered(true, answers, f, GotHeader(src.header.value));
    e := dst.SendHeader(src.header.value);
    answers', f' := Answered(true, answers', f', if e.Some? then Failed(e.value) else Done);
  }

  /** One turn of the loop of forwardClientToServer; an error ends the loop. */
  method ReplyTurn(src: Source, dst: Sink, codec: RawCodec, frame: Frame, i: nat, ghost answers: seq<Answer>,
                   ghost f: Fwd)
    returns (e: Option<Err>, ghost answers': seq<Answer>, ghost f': Fwd)
    requires Stands(true, answers, f, src, dst) && f.at == AtRecv && f.i == i == |f.received| == src.next == dst.next
    requires i != 0 || dst.out != [] ==> src.header == Ok(f.md)
    modifies src`next, dst, frame
    ensures Stands(true, answers', f', src, dst)
    ensures dst.out != [] ==> src.header == Ok(f'.md)
    ensures if e.Some? then f'.at == Reporting && f'.err == e.value && Blamed(f', src, dst)
            else && f'.at == AtRecv && f'.i == i + 1 == |f'.received| == src.next == dst.next
                 && src.recv(i).Ok? && src.header == Ok(f'.md)
  {
    e, answers', f' := ReadMessage(true, src, codec, frame, answers, f);
    if e.Some? {
      return;
    }
    if i == 0 {
      e, answers', f' := ForwardHeader(src, dst, answers', f');
      if e.Some? {
        return;
      }
    }
    e, answers', f' := ForwardMessage(true, dst, codec, frame, answers', f');
  }

  /** forwardClientToServer: as above, but the header of the backend is fetched and sent before the first message. */
  method ForwardClientToServer(src: Source, dst: Sink, codec: RawCodec, ghost bound: nat)
    returns (err: Err, ghost answers: seq<Answer>, ghost f: Fwd)
    requires src.next == 0 && dst.next == 0 && dst.out == [] && src.recv(bound).Err?
    modifies src, dst
    ensures Stands(true, answers, f, src, dst) && f.at == Reporting && f.err == err && Blamed(f, src, dst)
    ensures Payloads(dst.out) <= f.received && (Payloads(dst.out) == f.received <==> f.cause == AtRecv)
    ensures dst.out != [] ==> src.header.Ok? && dst.out[0] == Header(src.header.value)
  {
    var frame := new Frame();
    answers, f := [], FRESH;
    var i := 0;
    while true
      invariant Stands(true, answers, f, src, dst) && f.at == AtRecv
      invariant f.i == i == |f.received| == src.next == dst.next <= bound
      invariant i != 0 || dst.out != [] ==> src.header == Ok(f.md)
      decreases bound - i
    {
      var e;
      e, answers, f := ReplyTurn(src, dst, codec, frame, i, answers, f);
      if e.Some? {
        err := e.value;
        break;
      }
      i := i + 1;
    }
    Outcome(true, answers, f, dst.out);
  }
}

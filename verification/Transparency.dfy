/** A remote call from end to end: stub, request bytes, dispatch, result bytes, and back. */
module Transparency {
  import opened Outcomes
  import opened Wire
  import opened Framing
  import opened RetResults
  import opened Messages
  import opened Builder

  /** The side that executes a call: how it reads a frame, and what `execute_controller` makes of an
      error. The server uses error id -1, the client 1; the text is each side's own. */
  datatype Callee = Callee(isServer: bool, describe: Error -> bytes) {
    function ErrorId(): i32 { if isServer then -1 else 1 }

    function Read(frame: bytes): Result<Inbound> {
      if isServer then ServerInbound(frame) else ClientInbound(frame)
    }
  }

  /** An implemented interface and the codec of its values. */
  datatype Service<!V, !Ty> = Service(codec: Codec<V, Ty>, handlers: Handlers<V>, funcs: seq<FuncInfo<Ty>>)

  function ExecuteController(callee: Callee, result: Result<RetResult>): RetResult {
    match result
    case Ok(r) => r
    case Err(e) => Failure(callee.ErrorId(), callee.describe(e))
  }

  /** What the caller ends up with: nothing for the first two call types, a value for the third. */
  datatype Returned<V> = Nothing | Value(v: V)

  /** `check`, then `deserialize` of the first argument. */
  function CallerResult<V, Ty>(c: Codec<V, Ty>, kind: StubKind, ty: Ty, payload: bytes): Result<Returned<V>> {
    var (decoded, _) :- Decode(payload);
    var r :- Check(decoded);
    if kind.CheckRun? then Ok(Nothing)
    else if r.arguments == [] then Err(IndexError)
    else match c.unpack(ty, r.arguments[0])
      case None => Err(DecodeError)
      case Some((v, _)) => Ok(Value(v))
  }

  /** The frame a byte stream starts with. */
  function FirstFrame(b: bytes): Result<bytes> {
    if ParseFrames(b) == [] then Err(Eof) else Ok(ParseFrames(b)[0])
  }

  /** What one request frame made its receiver do: which function ran, and what was sent back. */
  datatype Served<V> = Served(ran: Option<(nat, seq<V>)>, reply: Option<bytes>)

  /** The receiver of a request frame. Call type 0 runs without a reply; an unknown one runs nothing. */
  function Serve<V, Ty>(callee: Callee, service: Service<V, Ty>, request: bytes): Served<V> {
    match FirstFrame(request)
    case Err(e) => Served(None, None)
    case Ok(frame) =>
      match callee.Read(frame)
      case Ok(Call(tt, cmd, serial, data)) =>
        if tt > 2 then Served(None, None) else
        var reaction := Dispatch(service.codec, service.handlers, service.funcs, tt, cmd, data);
        Served(reaction.ran,
               if tt == 0 then None
               else Some(Frame(ResultBody(serial, ExecuteController(callee, reaction.result)))))
      case _ => Served(None, None)
  }

  /** The caller's reader on the reply: the serial it is for, and what the stub returns. */
  function Receive<V, Ty>(callee: Callee, c: Codec<V, Ty>, kind: StubKind, ty: Ty, reply: bytes)
    : Result<(i64, Result<Returned<V>>)>
  {
    var frame :- FirstFrame(reply);
    var m :- Callee(!callee.isServer, callee.describe).Read(frame);
    if m.ResultOf? then Ok((m.ofSerial, CallerResult(c, kind, ty, m.payload))) else Err(DecodeError)
  }

  /** Calling the implementation directly: its outcome, with an error as the wrapper renders it. */
  function Direct<V, Ty>(callee: Callee, service: Service<V, Ty>, kind: StubKind, i: nat, args: seq<V>)
    : Result<Returned<V>>
  {
    match service.handlers(i, args)
    case Err(e) => Err(CallError(callee.ErrorId(), Text(callee.describe(e))))
    case Ok(v) => Ok(if kind.CheckRun? then Nothing else Value(v))
  }

  /** The value the caller is to get, if any, can be serialised. */
  predicate Survives<V, Ty>(service: Service<V, Ty>, kind: StubKind, i: nat, args: seq<V>) {
    var outcome := service.handlers(i, args);
    kind.CallValue? && outcome.Ok? ==> service.codec.pack(outcome.value).Some?
  }

  /** A call that a caller may make of the i-th function: well-typed, serialisable arguments, and a
      request that fits a frame. */
  ghost predicate CallableWith<V, Ty>(service: Service<V, Ty>, i: nat, args: seq<V>, packed: seq<bytes>) {
    && i < |service.funcs|
    && service.funcs[i].tt < 3
    && |args| == |service.funcs[i].argTypes|
    && |args| < 0x8000_0000
    && (forall k :: 0 <= k < |args| ==> service.codec.hasType(service.funcs[i].argTypes[k], args[k]))
    && PackAll(service.codec, args) == Some(packed)
  }

  ghost predicate DistinctTags<Ty>(funcs: seq<FuncInfo<Ty>>) {
    forall j, k :: 0 <= j < k < |funcs| ==> funcs[j].tag != funcs[k].tag
  }

  /** What the dispatcher answers to the i-th function's stub. */
  function Answered<V, Ty>(callee: Callee, service: Service<V, Ty>, i: nat, args: seq<V>): RetResult
    requires i < |service.funcs|
  {
    ExecuteController(callee, Completed(service.codec, service.funcs[i].tt, service.handlers(i, args)))
  }

  lemma OneFrame(body: bytes)
    requires Framable(body)
    ensures FirstFrame(Frame(body)) == Ok(body)
  {
    StreamFraming([body]);
    assert [body][1..] == [];
    assert Frames([body]) == Frame(body) + Frames([]) && Frames([]) == [];
    assert Frame(body) + [] == Frame(body);
  }

  lemma DispatchedAsMeant<V(!new), Ty(!new)>(service: Service<V, Ty>, i: nat, args: seq<V>, packed: seq<bytes>)
    requires RoundTrips(service.codec) && DistinctTags(service.funcs) && CallableWith(service, i, args, packed)
    ensures var f := service.funcs[i];
      Dispatch(service.codec, service.handlers, service.funcs, f.tt, f.tag, ArgsField(packed))
      == Reaction(Some((i, args)), Completed(service.codec, f.tt, service.handlers(i, args)))
  {
    hide LE, FromLE, UnpackAll, PackAll, RoundTrips, Concat;
    var f := service.funcs[i];
    DistinctTagsFound(service.funcs, i);
    I32AsU32(|packed|);
    U32RoundTrip(|packed|, Concat(packed));
    ArgumentsRoundTrip(service.codec, f.argTypes, args, packed);
  }

  /** A stub's request makes the callee run exactly the function and arguments the caller meant, once,
      and answer under the caller's serial. */
  lemma RequestRunsAsMeant<V(!new), Ty(!new)>(
      callee: Callee, service: Service<V, Ty>, stub: Stub, i: nat, args: seq<V>, packed: seq<bytes>, serial: i64)
    requires RoundTrips(service.codec) && DistinctTags(service.funcs) && CallableWith(service, i, args, packed)
    requires StubFor(service.funcs[i]) == Ok(stub)
    requires Framable(CallBody(stub.kind.Tt(), stub.tag, serial, packed))
    ensures Serve(callee, service, Frame(CallBody(stub.kind.Tt(), stub.tag, serial, packed)))
         == Served(Some((i, args)),
                   if stub.kind.RunNotErr? then None
                   else Some(Frame(ResultBody(serial, Answered(callee, service, i, args)))))
  {
    hide LE, FromLE, ParseFrames, CallBody, Dispatch, ServerInbound, ClientInbound, RoundTrips, ArgsField, ResultBody;
    var body := CallBody(stub.kind.Tt(), stub.tag, serial, packed);
    OneFrame(body);
    CallRoundTrip(stub.kind.Tt(), stub.tag, serial, packed);
    DispatchedAsMeant(service, i, args, packed);
  }

  lemma ReplyReadsBack<V(!new), Ty(!new)>(
      callee: Callee, service: Service<V, Ty>, kind: StubKind, ty: Ty, serial: i64, r: RetResult)
    requires Encodable(r) && |r.arguments| < 0x8000_0000 && Framable(ResultBody(serial, r))
    ensures Receive(callee, service.codec, kind, ty, Frame(ResultBody(serial, r)))
         == Ok((serial, CallerResult(service.codec, kind, ty, Payload(r))))
  {
    hide LE, FromLE, ParseFrames, ServerInbound, ClientInbound, ResultBody, Payload, Decode;
    OneFrame(ResultBody(serial, r));
    ResultMessageRoundTrip(serial, r);
  }

  /** What the caller makes of the answer is what a direct call gives, unless the value was dropped
      because it cannot be serialised: then it is an index error. */
  lemma AnswerMeansDirect<V(!new), Ty(!new)>(
      callee: Callee, service: Service<V, Ty>, kind: StubKind, ty: Ty, i: nat, args: seq<V>)
    requires RoundTrips(service.codec) && i < |service.funcs| && kind.Tt() == service.funcs[i].tt && !kind.RunNotErr?
    requires Encodable(Answered(callee, service, i, args))
    requires var o := service.handlers(i, args); o.Ok? ==> service.codec.hasType(ty, o.value)
    ensures CallerResult(service.codec, kind, ty, Payload(Answered(callee, service, i, args)))
         == if Survives(service, kind, i, args) then Direct(callee, service, kind, i, args) else Err(IndexError)
  {
    hide LE, FromLE, Payload, Decode, RoundTrips;
    var r := Answered(callee, service, i, args);
    ResultRoundTrip(r, []);
    assert Payload(r) + [] == Payload(r);
    var o := service.handlers(i, args);
    if o.Ok? && kind.CallValue? && service.codec.pack(o.value).Some? {
      UnpackPacked(service.codec, ty, o.value);
    }
  }

  lemma UnpackPacked<V(!new), Ty(!new)>(c: Codec<V, Ty>, ty: Ty, v: V)
    requires RoundTrips(c) && c.hasType(ty, v) && c.pack(v).Some?
    ensures c.unpack(ty, c.pack(v).value) == Some((v, []))
  {
    assert c.pack(v).value + [] == c.pack(v).value;
    assert c.unpack(ty, c.pack(v).value + []) == Some((v, []));
  }

  /** RPC transparency, for every interface with distinct tags, every function of it and every
      well-typed call, in either direction: the stub's request runs that function with those arguments
      and nothing else, and the stub returns what calling the implementation directly returns exactly if
      the returned value, where one is asked for, can be serialised; otherwise it returns an index error.
      A handler's error arrives as the call error with the wrapper's id and text. */
  lemma RpcTransparency<V(!new), Ty(!new)>(
      callee: Callee, service: Service<V, Ty>, stub: Stub, ty: Ty, i: nat, args: seq<V>, packed: seq<bytes>,
      serial: i64)
    returns (returned: Result<Returned<V>>)
    requires RoundTrips(service.codec) && DistinctTags(service.funcs) && CallableWith(service, i, args, packed)
    requires StubFor(service.funcs[i]) == Ok(stub) && !stub.kind.RunNotErr?
    requires Framable(CallBody(stub.kind.Tt(), stub.tag, serial, packed))
    requires var o := service.handlers(i, args); o.Ok? ==> service.codec.hasType(ty, o.value)
    requires var r := Answered(callee, service, i, args); Encodable(r) && Framable(ResultBody(serial, r))
    ensures var served := Serve(callee, service, Frame(CallBody(stub.kind.Tt(), stub.tag, serial, packed)));
      && served.ran == Some((i, args))
      && served.reply.Some?
      && Receive(callee, service.codec, stub.kind, ty, served.reply.value) == Ok((serial, returned))
    ensures returned == Direct(callee, service, stub.kind, i, args) <==> Survives(service, stub.kind, i, args)
    ensures !Survives(service, stub.kind, i, args) ==> returned == Err(IndexError)
  {
    hide LE, FromLE, CallBody, Serve, Receive, RoundTrips, ResultBody, CallerResult, Framable;
    RequestRunsAsMeant(callee, service, stub, i, args, packed, serial);
    ReplyReadsBack(callee, service, stub.kind, ty, serial, Answered(callee, service, i, args));
    AnswerMeansDirect(callee, service, stub.kind, ty, i, args);
    returned := CallerResult(service.codec, stub.kind, ty, Payload(Answered(callee, service, i, args)));
  }

  /** How a handler's error arrives: as the call error with id -1 from a server and 1 from a client, and
      the text the wrapper rendered, byte for byte. */
  lemma HandlerErrorArrives<V(!new), Ty(!new)>(
      callee: Callee, service: Service<V, Ty>, kind: StubKind, ty: Ty, i: nat, args: seq<V>, e: Error)
    requires i < |service.funcs| && kind.Tt() == service.funcs[i].tt && !kind.RunNotErr?
    requires service.handlers(i, args) == Err(e) && |callee.describe(e)| < TWO_32
    ensures match CallerResult(service.codec, kind, ty, Payload(Answered(callee, service, i, args)))
      case Err(CallError(id, msg)) =>
        && id == (if callee.isServer then -1 else 1)
        && |msg| == |callee.describe(e)| && forall k :: 0 <= k < |msg| ==> msg[k] == callee.describe(e)[k] as int
      case _ => false
  {
    hide LE, FromLE, Payload, Decode;
    var r := Answered(callee, service, i, args);
    ResultRoundTrip(r, []);
    assert Payload(r) + [] == Payload(r);
  }

  /** A call of a type above 2 runs nothing and is not answered, on either side. */
  lemma UnknownTypeIsIgnored<V, Ty>(
      callee: Callee, service: Service<V, Ty>, tt: byte, cmd: i32, serial: i64, args: seq<bytes>)
    requires tt > 2 && |args| < 0x8000_0000 && Framable(CallBody(tt, cmd, serial, args))
    ensures Serve(callee, service, Frame(CallBody(tt, cmd, serial, args))) == Served(None, None)
  {
    hide LE, FromLE, ParseFrames, CallBody, Dispatch, ServerInbound, ClientInbound;
    OneFrame(CallBody(tt, cmd, serial, args));
    CallRoundTrip(tt, cmd, serial, args);
  }
}

/** The protocol's messages: their bytes, the methods that build them, and the readers that tell
    them apart on either side of a connection. */
module Messages {
  import opened Outcomes
  import opened Wire
  import opened Framing
  import opened RetResults

  // ----- what each message is -----

  /** The one message that travels without a frame. */
  function VerifyMessage(name: bytes, key: bytes, session: i64): bytes {
    PutI32(1000) + (PutBuf(name) + (PutBuf(key) + PutI64(session)))
  }

  function SessionIdRequest(): bytes { PutI32(2000) }

  function SessionIdBody(session: i64): bytes { PutI32(2000) + PutI64(session) }

  function KeyVerifyBody(isError: bool, msg: bytes): bytes {
    PutI32(1000) + (PutBool(isError) + (PutBuf(msg) + PutU8(1)))
  }

  function Concat(blobs: seq<bytes>): bytes {
    if blobs == [] then [] else blobs[0] + Concat(blobs[1..])
  }

  /** Argument count, then the packed arguments back to back. */
  function ArgsField(args: seq<bytes>): bytes
    requires |args| < 0x8000_0000
  {
    PutI32(|args|) + Concat(args)
  }

  function CallBody(tt: byte, cmd: i32, serial: i64, args: seq<bytes>): bytes
    requires |args| < 0x8000_0000
  {
    PutU32(2400) + (PutU8(tt) + (PutI32(cmd) + (PutI64(serial) + ArgsField(args))))
  }

  /** What a client puts on the wire for a body: mode 0 sends it bare. */
  function InMode(mode: byte, body: bytes): bytes {
    if mode == 0 then body else Frame(body)
  }

  // ----- building them -----

  /** Bytes 0..4 overwritten with the total length. */
  function BackPatched(data: bytes): bytes
    requires |data| >= 4
  {
    PutU32(U32(|data|)) + data[4..]
  }

  /** Reserving four zero bytes and patching them later gives the same frame as prefixing the
      finished body. */
  lemma BackPatchIsFrame(body: bytes)
    ensures BackPatched(PutU32(0) + body) == Frame(body)
  {
    hide LE, FromLE;
    SplitAppend(PutU32(0), body);
  }

  lemma {:induction false} ConcatAppend(blobs: seq<bytes>, blob: bytes)
    ensures Concat(blobs + [blob]) == Concat(blobs) + blob
  {
    if blobs == [] {
      assert blobs + [blob] == [blob] && Concat([blob]) == blob + Concat([]);
    } else {
      assert (blobs + [blob])[1..] == blobs[1..] + [blob];
      ConcatAppend(blobs[1..], blob);
      Assoc(blobs[0], Concat(blobs[1..]), blob);
    }
  }

  /** Writes the argument list behind what is already in the buffer. */
  method WriteArguments(start: bytes, args: seq<bytes>) returns (data: bytes)
    ensures data == start + PutArgs(args)
  {
    hide LE;
    data := start;
    for i := 0 to |args|
      invariant data == start + PutArgs(args[..i])
    {
      assert args[..i + 1] == args[..i] + [args[i]];
      PutArgsAppend(args[..i], args[i]);
      Assoc(start, PutArgs(args[..i]), PutBuf(args[i]));
      data := data + PutBuf(args[i]);
    }
    assert args[..|args|] == args;
  }

  /** The field writes common to both sides' result builders. */
  method WriteResult(start: bytes, serial: i64, result: RetResult) returns (data: bytes)
    ensures data == start + ResultBody(serial, result)
  {
    hide LE, PutArgs;
    data := start + PutU32(2500);
    data := data + PutI64(serial);
    assert data == start + (PutU32(2500) + PutI64(serial));
    if result.isError {
      data := data + PutBool(true);
      data := data + PutI32(result.errorId);
      data := data + PutBuf(result.msg);
      Assoc4(start, PutU32(2500) + PutI64(serial), PutBool(true), PutI32(result.errorId), PutBuf(result.msg));
    } else {
      data := data + PutBool(false);
      data := data + PutU32(U32(|result.arguments|));
      data := WriteArguments(data, result.arguments);
      Assoc4(start, PutU32(2500) + PutI64(serial), PutBool(false), PutU32(U32(|result.arguments|)),
             PutArgs(result.arguments));
    }
  }

  lemma Assoc4<T>(start: seq<T>, a: seq<T>, b: seq<T>, c: seq<T>, d: seq<T>)
    ensures ((start + a) + b + c) + d == start + (a + ((b + c) + d))
  {
  }

  /** The server's `get_result_buff`: four bytes reserved, then patched. */
  method ServerResultBuff(serial: i64, result: RetResult) returns (data: bytes)
    ensures data == Frame(ResultBody(serial, result))
  {
    hide LE, ResultBody;
    data := PutU32(0);
    data := WriteResult(data, serial, result);
    BackPatchIsFrame(ResultBody(serial, result));
    data := PutU32(U32(|data|)) + data[4..];
  }

  /** The client's `get_result_buff`: the same body, framed only outside mode 0. */
  method ClientResultBuff(serial: i64, result: RetResult, mode: byte) returns (data: bytes)
    ensures data == InMode(mode, ResultBody(serial, result))
  {
    hide LE, ResultBody;
    data := WriteResult([], serial, result);
    assert data == ResultBody(serial, result);
    if mode != 0 {
      data := PutU32(U32(|data| + 4)) + data;
    }
  }

  method SessionIdMessage(session: i64) returns (data: bytes)
    ensures data == Frame(SessionIdBody(session))
  {
    hide LE;
    data := PutU32(0);
    data := data + PutI32(2000);
    data := data + PutI64(session);
    assert data == PutU32(0) + SessionIdBody(session);
    BackPatchIsFrame(SessionIdBody(session));
    data := PutU32(U32(|data|)) + data[4..];
  }

  method KeyVerifyMessage(isError: bool, msg: bytes) returns (data: bytes)
    ensures data == Frame(KeyVerifyBody(isError, msg))
  {
    hide LE;
    data := PutU32(0);
    data := data + PutI32(1000);
    data := data + PutBool(isError);
    data := data + PutBuf(msg);
    data := data + PutU8(1);
    assert data == PutU32(0) + KeyVerifyBody(isError, msg);
    BackPatchIsFrame(KeyVerifyBody(isError, msg));
    data := PutU32(U32(|data|)) + data[4..];
  }

  method VerifyBuff(name: bytes, key: bytes, session: i64) returns (data: bytes)
    ensures data == VerifyMessage(name, key, session)
  {
    hide LE;
    data := PutI32(1000);
    data := data + PutBuf(name);
    data := data + PutBuf(key);
    data := data + PutI64(session);
    assert data == VerifyMessage(name, key, session);
  }

  method SessionIdBuff(mode: byte) returns (data: bytes)
    ensures data == InMode(mode, SessionIdRequest())
  {
    data := PutI32(2000);
    if mode != 0 {
      data := PutU32(U32(|data| + 4)) + data;
    }
  }

  method WriteCall(start: bytes, tt: byte, cmd: i32, serial: i64, args: seq<bytes>) returns (data: bytes)
    requires |args| < 0x8000_0000
    ensures data == start + CallBody(tt, cmd, serial, args)
  {
    hide LE;
    data := start + PutU32(2400);
    data := data + PutU8(tt);
    data := data + PutI32(cmd);
    data := data + PutI64(serial);
    data := data + PutI32(|args|);
    ghost var head := PutU32(2400) + (PutU8(tt) + (PutI32(cmd) + (PutI64(serial) + PutI32(|args|))));
    assert data == start + head;
    for i := 0 to |args|
      invariant data == start + head + Concat(args[..i])
    {
      assert args[..i + 1] == args[..i] + [args[i]];
      ConcatAppend(args[..i], args[i]);
      Assoc(start + head, Concat(args[..i]), args[i]);
      data := data + args[i];
    }
    assert args[..|args|] == args;
    Assoc5(start, PutU32(2400), PutU8(tt), PutI32(cmd), PutI64(serial), PutI32(|args|), Concat(args));
  }

  lemma Assoc5<T>(start: seq<T>, a: seq<T>, b: seq<T>, c: seq<T>, d: seq<T>, e: seq<T>, f: seq<T>)
    ensures start + (a + (b + (c + (d + e)))) + f == start + (a + (b + (c + (d + (e + f)))))
  {
  }

  /** The client's `call!`: the bare body, framed at send time according to the mode. */
  method ClientCallBuff(tt: byte, cmd: i32, serial: i64, args: seq<bytes>, mode: byte) returns (data: bytes)
    requires |args| < 0x8000_0000
    ensures data == InMode(mode, CallBody(tt, cmd, serial, args))
  {
    hide LE, CallBody;
    data := WriteCall([], tt, cmd, serial, args);
    assert data == CallBody(tt, cmd, serial, args);
    if mode != 0 {
      data := PutU32(U32(|data| + 4)) + data;
    }
  }

  /** The server's `call_peer!`: always framed, by back-patching. */
  method ServerCallBuff(tt: byte, cmd: i32, serial: i64, args: seq<bytes>) returns (data: bytes)
    requires |args| < 0x8000_0000
    ensures data == Frame(CallBody(tt, cmd, serial, args))
  {
    hide LE, CallBody;
    data := WriteCall(PutU32(0), tt, cmd, serial, args);
    BackPatchIsFrame(CallBody(tt, cmd, serial, args));
    data := PutU32(U32(|data|)) + data[4..];
  }

  // ----- telling them apart -----

  /** What a received frame asks of its receiver. The first two arrive at a client only, the third
      at a server only. */
  datatype Inbound =
    | Verified(isError: bool, msg: bytes, framed: bool)
    | SessionId(session: i64)
    | WantSessionId
    | Call(tt: byte, cmd: i32, serial: i64, data: bytes)
    | ResultOf(ofSerial: i64, payload: bytes)
    | UnknownCommand(command: i32)

  function TakeCall(b: bytes): Result<Inbound> {
    var (tt, t) :- TakeU8(b);
    var (cmd, t1) :- TakeI32(t);
    var (serial, data) :- TakeI64(t1);
    Ok(Call(tt, cmd, serial, data))
  }

  function TakeResult(b: bytes): Result<Inbound> {
    var (serial, payload) :- TakeI64(b);
    Ok(ResultOf(serial, payload))
  }

  /** The client switches to framed traffic when exactly one byte, equal to 1, follows the text. */
  function TakeVerified(b: bytes): Result<Inbound> {
    var (isError, t) :- TakeBool(b);
    var (msg, rest) :- TakeBuf(t);
    Ok(Verified(isError, msg, !isError && |rest| == 1 && rest[0] == 1))
  }

  function ServerInbound(frame: bytes): Result<Inbound> {
    var (cmd, t) :- TakeI32(frame);
    if cmd == 2000 then Ok(WantSessionId)
    else if cmd == 2400 then TakeCall(t)
    else if cmd == 2500 then TakeResult(t)
    else Ok(UnknownCommand(cmd))
  }

  function ClientInbound(frame: bytes): Result<Inbound> {
    var (cmd, t) :- TakeI32(frame);
    if cmd == 1000 then TakeVerified(t)
    else if cmd == 2000 then var (session, _) :- TakeI64(t); Ok(SessionId(session))
    else if cmd == 2400 then TakeCall(t)
    else if cmd == 2500 then TakeResult(t)
    else Ok(UnknownCommand(cmd))
  }

  lemma CallFieldsRoundTrip(tt: byte, cmd: i32, serial: i64, data: bytes)
    ensures TakeCall(PutU8(tt) + (PutI32(cmd) + (PutI64(serial) + data))) == Ok(Call(tt, cmd, serial, data))
  {
    hide LE, FromLE;
    FieldsRoundTrip(PutI32(cmd) + (PutI64(serial) + data));
    I32RoundTrip(cmd, PutI64(serial) + data);
    I64RoundTrip(serial, data);
  }

  /** Either side reads a call as exactly the call that was written. */
  lemma CallRoundTrip(tt: byte, cmd: i32, serial: i64, args: seq<bytes>)
    requires |args| < 0x8000_0000
    ensures ServerInbound(CallBody(tt, cmd, serial, args)) == Ok(Call(tt, cmd, serial, ArgsField(args)))
    ensures ClientInbound(CallBody(tt, cmd, serial, args)) == Ok(Call(tt, cmd, serial, ArgsField(args)))
  {
    hide LE, FromLE, TakeCall, ArgsField;
    var t := PutU8(tt) + (PutI32(cmd) + (PutI64(serial) + ArgsField(args)));
    I32AsU32(2400);
    I32RoundTrip(2400, t);
    CallFieldsRoundTrip(tt, cmd, serial, ArgsField(args));
  }

  /** Either side reads a result as the serial and payload that were written. */
  lemma ResultMessageRoundTrip(serial: i64, r: RetResult)
    ensures ServerInbound(ResultBody(serial, r)) == Ok(ResultOf(serial, Payload(r)))
    ensures ClientInbound(ResultBody(serial, r)) == Ok(ResultOf(serial, Payload(r)))
  {
    hide LE, FromLE, Payload;
    I32AsU32(2500);
    Assoc(PutU32(2500), PutI64(serial), Payload(r));
    I32RoundTrip(2500, PutI64(serial) + Payload(r));
    I64RoundTrip(serial, Payload(r));
  }

  /** The server's answer to a good key is what makes the client frame its traffic from then on. */
  lemma KeyVerifyRoundTrip(isError: bool, msg: bytes)
    requires |msg| < TWO_32
    ensures ClientInbound(KeyVerifyBody(isError, msg)) == Ok(Verified(isError, msg, !isError))
  {
    hide LE, FromLE;
    var t := PutBool(isError) + (PutBuf(msg) + PutU8(1));
    I32RoundTrip(1000, t);
    FieldsRoundTrip(PutBuf(msg) + PutU8(1));
    BufRoundTrip(msg, PutU8(1));
  }

  lemma SessionIdRoundTrip(session: i64)
    ensures ServerInbound(SessionIdRequest()) == Ok(WantSessionId)
    ensures ClientInbound(SessionIdBody(session)) == Ok(SessionId(session))
  {
    hide LE, FromLE;
    assert PutI32(2000) + [] == PutI32(2000);
    I32RoundTrip(2000, []);
    I32RoundTrip(2000, PutI64(session));
    assert PutI64(session) + [] == PutI64(session);
    I64RoundTrip(session, []);
  }

  /** What is taken off a reader, put back. */
  lemma TakenPutBack(b: bytes)
    ensures TakeU8(b).Ok? ==> PutU8(TakeU8(b).value.0) + TakeU8(b).value.1 == b
    ensures TakeI32(b).Ok? ==> PutI32(TakeI32(b).value.0) + TakeI32(b).value.1 == b
    ensures TakeI64(b).Ok? ==> PutI64(TakeI64(b).value.0) + TakeI64(b).value.1 == b
    ensures TakeU32(b).Ok? ==> PutU32(TakeU32(b).value.0) + TakeU32(b).value.1 == b
  {
    hide LE, FromLE;
    Pow256Widths();
    if |b| >= 1 { assert b[..1] == [b[0]]; }
    if |b| >= 4 { LEOfFromLE(b[..4]); }
    if |b| >= 8 { LEOfFromLE(b[..8]); }
  }

  /** A frame is a call, for either side, exactly if it is the bytes of one: command 2400, call type, tag,
      serial, and whatever arguments. */
  lemma CallExactly(frame: bytes, tt: byte, cmd: i32, serial: i64, data: bytes)
    ensures ServerInbound(frame) == Ok(Call(tt, cmd, serial, data))
      <==> frame == PutI32(2400) + (PutU8(tt) + (PutI32(cmd) + (PutI64(serial) + data)))
    ensures ClientInbound(frame) == Ok(Call(tt, cmd, serial, data))
      <==> frame == PutI32(2400) + (PutU8(tt) + (PutI32(cmd) + (PutI64(serial) + data)))
  {
    hide LE, FromLE, TakeI32, TakeU8, TakeI64, TakeBool, TakeBuf, PutI32, PutI64, PutU8;
    I32RoundTrip(2400, PutU8(tt) + (PutI32(cmd) + (PutI64(serial) + data)));
    CallFieldsRoundTrip(tt, cmd, serial, data);
    TakenPutBack(frame);
    if TakeI32(frame).Ok? {
      var t := TakeI32(frame).value.1;
      TakenPutBack(t);
      if TakeU8(t).Ok? {
        TakenPutBack(TakeU8(t).value.1);
        if TakeI32(TakeU8(t).value.1).Ok? {
          TakenPutBack(TakeI32(TakeU8(t).value.1).value.1);
        }
      }
    }
  }

  /** Likewise for a result: command 2500, serial, and whatever payload. */
  lemma ResultExactly(frame: bytes, serial: i64, payload: bytes)
    ensures ServerInbound(frame) == Ok(ResultOf(serial, payload))
      <==> frame == PutI32(2500) + (PutI64(serial) + payload)
    ensures ClientInbound(frame) == Ok(ResultOf(serial, payload))
      <==> frame == PutI32(2500) + (PutI64(serial) + payload)
  {
    hide LE, FromLE, TakeI32, TakeU8, TakeI64, TakeBool, TakeBuf, PutI32, PutI64, PutU8;
    I32RoundTrip(2500, PutI64(serial) + payload);
    I64RoundTrip(serial, payload);
    TakenPutBack(frame);
    if TakeI32(frame).Ok? {
      TakenPutBack(TakeI32(frame).value.1);
    }
  }

  /** The client frames its traffic from a key answer on exactly if the answer is positive and one byte,
      equal to 1, follows the text. */
  lemma FramedExactly(isError: bool, msg: bytes, rest: bytes)
    requires |msg| < TWO_32
    ensures ClientInbound(PutI32(1000) + (PutBool(isError) + (PutBuf(msg) + rest)))
         == Ok(Verified(isError, msg, !isError && rest == [1]))
  {
    hide LE, FromLE, PutBuf;
    I32RoundTrip(1000, PutBool(isError) + (PutBuf(msg) + rest));
    FieldsRoundTrip(PutBuf(msg) + rest);
    BufRoundTrip(msg, rest);
  }

  /** The verify message as `get_peer_token` reads it off the bare stream. */
  function TakeVerify(b: bytes): Result<((bytes, bytes, i64), bytes)> {
    var (cmd, t) :- TakeI32(b);
    if cmd != 1000 then Err(DecodeError) else
    var (name, t1) :- TakeBuf(t);
    var (key, t2) :- TakeBuf(t1);
    var (session, rest) :- TakeI64(t2);
    Ok(((name, key, session), rest))
  }

  lemma VerifyRoundTrip(name: bytes, key: bytes, session: i64, t: bytes)
    requires |name| < TWO_32 && |key| < TWO_32
    ensures TakeVerify(VerifyMessage(name, key, session) + t) == Ok(((name, key, session), t))
  {
    hide LE, FromLE, PutBuf;
    var k := PutBuf(key) + PutI64(session);
    Assoc(PutI32(1000), PutBuf(name) + k, t);
    Assoc(PutBuf(name), k, t);
    Assoc(PutBuf(key), PutI64(session), t);
    I32RoundTrip(1000, PutBuf(name) + (k + t));
    BufRoundTrip(name, k + t);
    BufRoundTrip(key, PutI64(session) + t);
    I64RoundTrip(session, t);
  }

  /** A frame asks for the session id exactly if it starts with command 2000, and gives it to a client
      exactly if the id follows that. */
  lemma SessionExactly(frame: bytes, session: i64)
    ensures ServerInbound(frame) == Ok(WantSessionId) <==> |frame| >= 4 && frame[..4] == PutI32(2000)
    ensures ClientInbound(frame) == Ok(SessionId(session))
      <==> |frame| >= 12 && frame[..4] == PutI32(2000) && frame[4..12] == PutI64(session)
  {
    hide LE, FromLE, TakeU8, TakeI32, TakeI64, TakeBool, TakeBuf, PutI32, PutI64, PutU8;
    FirstFour(frame, 2000);
    if |frame| >= 4 {
      FirstEight(frame[4..], session);
      assert |frame| >= 12 ==> frame[4..][..8] == frame[4..12];
    }
  }

  lemma FirstFour(b: bytes, x: i32)
    ensures TakeI32(b).Ok? <==> |b| >= 4
    ensures |b| >= 4 ==> TakeI32(b).value.1 == b[4..] && (TakeI32(b).value.0 == x <==> b[..4] == PutI32(x))
  {
    hide LE, FromLE;
    TakenPutBack(b);
    if |b| >= 4 {
      assert b == b[..4] + b[4..];
      I32RoundTrip(x, b[4..]);
    }
  }

  lemma FirstEight(b: bytes, x: i64)
    ensures TakeI64(b).Ok? <==> |b| >= 8
    ensures |b| >= 8 ==> TakeI64(b).value.1 == b[8..] && (TakeI64(b).value.0 == x <==> b[..8] == PutI64(x))
  {
    hide LE, FromLE;
    TakenPutBack(b);
    if |b| >= 8 {
      assert b == b[..8] + b[8..];
      I64RoundTrip(x, b[8..]);
    }
  }

  /** A stream starts with a verify message exactly if it is command 1000, name, key and session id in that
      order, whatever follows. */
  lemma VerifyExactly(b: bytes, name: bytes, key: bytes, session: i64, rest: bytes)
    requires |name| < TWO_32 && |key| < TWO_32
    ensures TakeVerify(b) == Ok(((name, key, session), rest))
      <==> b == PutI32(1000) + (PutBuf(name) + (PutBuf(key) + (PutI64(session) + rest)))
  {
    hide LE, FromLE, TakeI32, TakeI64, TakeBuf, PutBuf, PutI32, PutI64;
    I32RoundTrip(1000, PutBuf(name) + (PutBuf(key) + (PutI64(session) + rest)));
    BufRoundTrip(name, PutBuf(key) + (PutI64(session) + rest));
    BufRoundTrip(key, PutI64(session) + rest);
    I64RoundTrip(session, rest);
    if TakeVerify(b) == Ok(((name, key, session), rest)) {
      TakenPutBack(b);
      var t := TakeI32(b).value.1;
      BufPutBack(t);
      BufPutBack(TakeBuf(t).value.1);
      TakenPutBack(TakeBuf(TakeBuf(t).value.1).value.1);
    }
  }

  lemma BufPutBack(b: bytes)
    ensures TakeBuf(b).Ok? ==> PutBuf(TakeBuf(b).value.0) + TakeBuf(b).value.1 == b
  {
    hide LE, FromLE;
    TakenPutBack(b);
    if TakeBuf(b).Ok? {
      var (n, t) := TakeU32(b).value;
      Assoc(PutU32(n), TakeBuf(b).value.0, TakeBuf(b).value.1);
    }
  }

  // ----- the receive loops -----

  /** What acting on the n-th message comes to: sending may fail, and so may handing over a result
      nobody waits for any more. */
  type Acts = nat -> Result<()>

  function ServerActed(m: Inbound, act: Result<()>): Result<()> {
    if m.WantSessionId? || m.ResultOf? then act else Ok(())
  }

  /** What the server's loop makes of a sequence of frames: it stops at the first undecodable one, or
      where acting on one fails. */
  function ServerReads(frames: seq<bytes>, acts: Acts, k: nat): (seq<Inbound>, Result<()>) {
    if frames == [] then ([], Ok(())) else
    match ServerInbound(frames[0])
    case Err(e) => ([], Err(e))
    case Ok(m) =>
      if ServerActed(m, acts(k)).Err? then ([m], ServerActed(m, acts(k))) else
      var (ms, end) := ServerReads(frames[1..], acts, k + 1); ([m] + ms, end)
  }

  lemma ServerStep(frames: seq<bytes>, acts: Acts, k: nat)
    requires frames != []
    ensures var (seen, end) := ServerReads(frames, acts, k);
      match ServerInbound(frames[0])
      case Err(e) => seen == [] && end == Err(e)
      case Ok(m) =>
        if (m.WantSessionId? || m.ResultOf?) && acts(k).Err? then seen == [m] && end.Err?
        else
          && seen == [m] + ServerReads(frames[1..], acts, k + 1).0
          && end == ServerReads(frames[1..], acts, k + 1).1
  {
  }

  /** So it acts on a prefix of the frames' messages, and on all of them exactly if every frame decodes,
      and neither answering a question for the session id nor handing over a result fails. */
  lemma {:induction false} ServerReadsExactly(frames: seq<bytes>, acts: Acts, k: nat)
    ensures var (seen, end) := ServerReads(frames, acts, k);
      && |seen| <= |frames|
      && (forall i :: 0 <= i < |seen| ==> ServerInbound(frames[i]) == Ok(seen[i]))
      && (end.Ok? <==> forall i :: 0 <= i < |frames| ==>
            match ServerInbound(frames[i])
            case Err(_) => false
            case Ok(WantSessionId) => acts(k + i).Ok?
            case Ok(ResultOf(_, _)) => acts(k + i).Ok?
            case Ok(_) => true)
      && (end.Ok? ==> |seen| == |frames|)
  {
    hide ServerInbound, ServerActed;
    if frames != [] {
      var rest := frames[1..];
      ServerReadsExactly(rest, acts, k + 1);
      assert forall i :: 0 < i < |frames| ==> frames[i] == rest[i - 1] && acts(k + i) == acts(k + 1 + (i - 1));
      ServerStep(frames, acts, k);
    }
  }

  /** And where it stops, it ends with the error that stopped it: that of the frame, or of acting on it. */
  lemma {:induction false} ServerStopsAt(frames: seq<bytes>, acts: Acts, k: nat, j: nat)
    requires j < |frames|
    requires forall i :: 0 <= i < j ==>
      match ServerInbound(frames[i])
      case Err(_) => false
      case Ok(WantSessionId) => acts(k + i).Ok?
      case Ok(ResultOf(_, _)) => acts(k + i).Ok?
      case Ok(_) => true
    ensures var (seen, end) := ServerReads(frames, acts, k);
      match ServerInbound(frames[j])
      case Err(e) => |seen| == j && end == Err(e)
      case Ok(WantSessionId) => acts(k + j).Err? ==> |seen| == j + 1 && end == acts(k + j)
      case Ok(ResultOf(_, _)) => acts(k + j).Err? ==> |seen| == j + 1 && end == acts(k + j)
      case Ok(_) => |seen| > j
  {
    hide ServerInbound;
    var rest := frames[1..];
    if j > 0 {
      assert forall i :: 0 < i <= j ==> frames[i] == rest[i - 1] && acts(k + i) == acts(k + 1 + (i - 1));
      assert ServerInbound(frames[0]).Ok?;
      ServerStopsAt(rest, acts, k + 1, j - 1);
    }
  }

  method ReadServerFrame(dr: DataOwnedReader) returns (r: Result<Inbound>)
    requires dr.Valid()
    modifies dr
    ensures r == ServerInbound(old(dr.Rest()))
  {
    hide LE, FromLE;
    var cmd :- dr.ReadI32();
    if cmd == 2000 {
      r := Ok(WantSessionId);
    } else if cmd == 2400 {
      var tt :- dr.ReadU8();
      var callCmd :- dr.ReadI32();
      var serial :- dr.ReadI64();
      r := Ok(Call(tt, callCmd, serial, dr.Rest()));
    } else if cmd == 2500 {
      var serial :- dr.ReadI64();
      r := Ok(ResultOf(serial, dr.Rest()));
    } else {
      r := Ok(UnknownCommand(cmd));
    }
  }

  lemma ServerReadsFrom(frames: seq<bytes>, acts: Acts, k: nat)
    requires k < |frames|
    ensures ServerReads(frames[k..], acts, k)
         == match ServerInbound(frames[k])
            case Err(e) => ([], Err(e))
            case Ok(m) =>
              if ServerActed(m, acts(k)).Err? then ([m], ServerActed(m, acts(k))) else
              ([m] + ServerReads(frames[k + 1..], acts, k + 1).0, ServerReads(frames[k + 1..], acts, k + 1).1)
  {
    assert frames[k..][0] == frames[k] && frames[k..][1..] == frames[k + 1..];
  }

  /** The server's `data_reading`: the messages it acts on, in order, and how the loop ends. They
      depend on the bytes of the stream and on how acting on the messages goes, not on how the network
      split the bytes. */
  method DataReading(reader: ReadHalf, acts: Acts) returns (seen: seq<Inbound>, end: Result<()>)
    modifies reader
    ensures (seen, end) == ServerReads(ParseFrames(old(reader.Stream())), acts, 0)
  {
    hide LE, FromLE, TakeFrame, ServerInbound, ServerActed;
    ghost var all := ParseFrames(reader.Stream());
    var k := 0;
    assert all[0..] == all && [] + ServerReads(all, acts, 0).0 == ServerReads(all, acts, 0).0;
    seen, end := [], Ok(());
    var next := reader.ReadBuff();
    while next.Ok?
      invariant k <= |all| && end == Ok(())
      invariant next.Ok? ==> all[k..] == [next.value] + ParseFrames(reader.Stream())
      invariant next.Err? ==> all[k..] == []
      invariant ServerReads(all, acts, 0) == (seen + ServerReads(all[k..], acts, k).0, ServerReads(all[k..], acts, k).1)
      decreases |all| - k
    {
      var dr := new DataOwnedReader(next.value);
      var m := ReadServerFrame(dr);
      ServerReadsFrom(all, acts, k);
      if m.Err? {
        assert seen + [] == seen;
        return seen, Err(m.error);
      }
      var acted := ServerActed(m.value, acts(k));
      if acted.Err? {
        return seen + [m.value], acted;
      }
      Assoc(seen, [m.value], ServerReads(all[k + 1..], acts, k + 1).0);
      seen := seen + [m.value];
      k := k + 1;
      next := reader.ReadBuff();
    }
    assert seen + [] == seen;
  }

  /** How the client's loop ends: the stream ran out, the loop broke off, or the reader panicked. */
  datatype ClientEnd = StreamEnded | BrokenOff | Failed(error: Error)

  /** Whether the client's loop goes on after a message: a refusal or an unknown command ends it, a
      call of an unknown type panics, and asking for the session id may fail to send. */
  function After(m: Inbound, act: Result<()>): Option<ClientEnd> {
    match m
    case Verified(isError, _, _) =>
      if isError then Some(BrokenOff) else if act.Err? then Some(Failed(act.error)) else None
    case Call(tt, _, _, _) => if tt > 2 then Some(Failed(Panic)) else None
    case UnknownCommand(_) => Some(BrokenOff)
    case _ => None
  }

  function ClientReads(frames: seq<bytes>, acts: Acts, k: nat): (seq<Inbound>, ClientEnd) {
    if frames == [] then ([], StreamEnded) else
    match ClientInbound(frames[0])
    case Err(e) => ([], Failed(e))
    case Ok(m) =>
      if After(m, acts(k)).Some? then ([m], After(m, acts(k)).value) else
      var (ms, end) := ClientReads(frames[1..], acts, k + 1); ([m] + ms, end)
  }

  /** It acts on a prefix of the frames' messages, and runs to the end of the stream exactly if every
      frame decodes and none is a refusal, a positive key answer whose act fails, a call of a type above
      2, or an unknown command. */
  lemma {:induction false} ClientReadsExactly(frames: seq<bytes>, acts: Acts, k: nat)
    ensures var (seen, end) := ClientReads(frames, acts, k);
      && |seen| <= |frames|
      && (forall i :: 0 <= i < |seen| ==> ClientInbound(frames[i]) == Ok(seen[i]))
      && (end == StreamEnded <==> forall i :: 0 <= i < |frames| ==>
            match ClientInbound(frames[i])
            case Err(_) => false
            case Ok(Verified(isError, _, _)) => !isError && acts(k + i).Ok?
            case Ok(Call(tt, _, _, _)) => tt <= 2
            case Ok(UnknownCommand(_)) => false
            case Ok(_) => true)
      && (end == StreamEnded ==> |seen| == |frames|)
  {
    hide ClientInbound;
    if frames != [] {
      var rest := frames[1..];
      ClientReadsExactly(rest, acts, k + 1);
      assert forall i :: 0 < i < |frames| ==> frames[i] == rest[i - 1] && acts(k + i) == acts(k + 1 + (i - 1));
      assert ClientReads(frames, acts, k).1 == StreamEnded ==> ClientReads(rest, acts, k + 1).1 == StreamEnded;
    }
  }

  /** And the first message to stop it decides the end: a refusal and an unknown command break it off, a
      call of a type above 2 panics, a failed act or an undecodable frame ends it with that error. */
  lemma {:induction false} ClientStopsAt(frames: seq<bytes>, acts: Acts, k: nat, j: nat)
    requires j < |frames|
    requires forall i :: 0 <= i < j ==>
      match ClientInbound(frames[i])
      case Err(_) => false
      case Ok(Verified(isError, _, _)) => !isError && acts(k + i).Ok?
      case Ok(Call(tt, _, _, _)) => tt <= 2
      case Ok(UnknownCommand(_)) => false
      case Ok(_) => true
    ensures var (seen, end) := ClientReads(frames, acts, k);
      match ClientInbound(frames[j])
      case Err(e) => |seen| == j && end == Failed(e)
      case Ok(Verified(true, _, _)) => |seen| == j + 1 && end == BrokenOff
      case Ok(Verified(false, _, _)) => acts(k + j).Err? ==> |seen| == j + 1 && end == Failed(acts(k + j).error)
      case Ok(Call(tt, _, _, _)) => tt > 2 ==> |seen| == j + 1 && end == Failed(Panic)
      case Ok(UnknownCommand(_)) => |seen| == j + 1 && end == BrokenOff
      case Ok(_) => |seen| > j
  {
    hide ClientInbound;
    var rest := frames[1..];
    if j > 0 {
      assert forall i :: 0 < i <= j ==> frames[i] == rest[i - 1] && acts(k + i) == acts(k + 1 + (i - 1));
      assert ClientInbound(frames[0]).Ok?;
      ClientStopsAt(rest, acts, k + 1, j - 1);
    }
  }

  method ReadClientFrame(dr: DataOwnedReader) returns (r: Result<Inbound>)
    requires dr.Valid()
    modifies dr
    ensures r == ClientInbound(old(dr.Rest()))
  {
    hide LE, FromLE;
    var cmd :- dr.ReadI32();
    if cmd == 1000 {
      var isError :- dr.ReadBool();
      var msg :- dr.ReadBuf();
      var framed := false;
      if !isError && |dr.data| - dr.offset == 1 {
        var mode := dr.ReadU8();
        framed := mode == Ok(1);
      }
      r := Ok(Verified(isError, msg, framed));
    } else if cmd == 2000 {
      var session :- dr.ReadI64();
      r := Ok(SessionId(session));
    } else if cmd == 2400 {
      var tt :- dr.ReadU8();
      var callCmd :- dr.ReadI32();
      var serial :- dr.ReadI64();
      r := Ok(Call(tt, callCmd, serial, dr.Rest()));
    } else if cmd == 2500 {
      var serial :- dr.ReadI64();
      r := Ok(ResultOf(serial, dr.Rest()));
    } else {
      r := Ok(UnknownCommand(cmd));
    }
  }

  lemma ClientReadsFrom(frames: seq<bytes>, acts: Acts, k: nat)
    requires k < |frames|
    ensures ClientReads(frames[k..], acts, k)
         == match ClientInbound(frames[k])
            case Err(e) => ([], Failed(e))
            case Ok(m) =>
              if After(m, acts(k)).Some? then ([m], After(m, acts(k)).value)
              else ([m] + ClientReads(frames[k + 1..], acts, k + 1).0, ClientReads(frames[k + 1..], acts, k + 1).1)
  {
    assert frames[k..][0] == frames[k] && frames[k..][1..] == frames[k + 1..];
  }

  lemma StopsEarly(m: Inbound, act: Result<()>)
    ensures After(m, act) != Some(StreamEnded)
  {
  }

  /** A stream that ends inside a length ends the loop quietly, one that ends inside a frame does not. */
  function AtEnd(end: ClientEnd, rest: bytes): ClientEnd {
    if end == StreamEnded && |rest| >= 4 then Failed(Eof) else end
  }

  /** Reading a length and then a body is taking a frame. */
  lemma LengthThenBody(b: bytes)
    ensures match TakeU32(b)
      case Err(_) => ParseFrames(b) == []
      case Ok((n, t)) =>
        match TakeRaw(t, BodyLength(n))
        case Err(e) => ParseFrames(b) == [] && Remainder(b) == b && |b| >= 4 && e == Eof
        case Ok((body, rest)) =>
          ParseFrames(b) == [body] + ParseFrames(rest) && Remainder(b) == Remainder(rest) && |rest| < |b|
  {
    hide LE, FromLE, BodyLength;
  }

  lemma ShortEnd(b: bytes)
    ensures TakeU32(b).Err? ==> Remainder(b) == b && |b| < 4
  {
    hide LE, FromLE;
  }

  /** The client's `read_buffer` loop: the messages it acts on, in order, and how it ends. */
  method ReadBuffer(reader: ReadHalf, acts: Acts) returns (seen: seq<Inbound>, end: ClientEnd)
    modifies reader
    ensures seen == ClientReads(ParseFrames(old(reader.Stream())), acts, 0).0
    ensures end == AtEnd(ClientReads(ParseFrames(old(reader.Stream())), acts, 0).1, Remainder(old(reader.Stream())))
  {
    hide LE, FromLE, ClientInbound, After, BodyLength, TakeU32, TakeRaw, TakeFrame, ParseFrames, Remainder;
    ghost var start, at := reader.Stream(), reader.Stream();
    ghost var all := ParseFrames(start);
    var k := 0;
    assert all[0..] == all && [] + ClientReads(all, acts, 0).0 == ClientReads(all, acts, 0).0;
    seen, end := [], StreamEnded;
    var header := reader.ReadU32Le();
    while header.Ok?
      invariant k <= |all| && end == StreamEnded
      invariant ParseFrames(at) == all[k..] && Remainder(at) == Remainder(start)
      invariant match TakeU32(at)
                case Ok((n, rest)) => header == Ok(n) && reader.Stream() == rest
                case Err(e) => header == Err(e)
      invariant ClientReads(all, acts, 0) == (seen + ClientReads(all[k..], acts, k).0, ClientReads(all[k..], acts, k).1)
      decreases |at|
    {
      LengthThenBody(at);
      var body := reader.ReadExact(BodyLength(header.value));
      if body.Err? {
        assert seen + [] == seen;
        return seen, Failed(body.error);
      }
      assert all[k..] == [body.value] + ParseFrames(reader.Stream());
      var dr := new DataOwnedReader(body.value);
      var m := ReadClientFrame(dr);
      ClientReadsFrom(all, acts, k);
      if m.Err? {
        assert seen + [] == seen;
        return seen, Failed(m.error);
      }
      var stop := After(m.value, acts(k));
      if stop.Some? {
        StopsEarly(m.value, acts(k));
        return seen + [m.value], stop.value;
      }
      Assoc(seen, [m.value], ClientReads(all[k + 1..], acts, k + 1).0);
      seen := seen + [m.value];
      k := k + 1;
      at := reader.Stream();
      header := reader.ReadU32Le();
    }
    ShortEnd(at);
    LengthThenBody(at);
    assert seen + [] == seen;
  }
}

/** `RetResult`, its encoding on the wire, and the reader that decodes it. */
module RetResults {
  import opened Outcomes
  import opened Wire
  import opened Framing

  datatype RetResult = RetResult(isError: bool, errorId: i32, msg: bytes, arguments: seq<bytes>)

  function Success(): RetResult {
    RetResult(false, 0, Ascii("Success"), [])
  }

  function Failure(errorId: i32, msg: bytes): RetResult {
    RetResult(true, errorId, msg, [])
  }

  function PutArgs(args: seq<bytes>): bytes {
    if args == [] then [] else PutBuf(args[0]) + PutArgs(args[1..])
  }

  /** The part of a result message that `RetResult::from` reads. */
  function Payload(r: RetResult): bytes {
    if r.isError then
      PutBool(true) + PutI32(r.errorId) + PutBuf(r.msg)
    else
      PutBool(false) + PutU32(U32(|r.arguments|)) + PutArgs(r.arguments)
  }

  function ResultBody(serial: i64, r: RetResult): bytes {
    PutU32(2500) + PutI64(serial) + Payload(r)
  }

  function TakeArgs(b: bytes, n: nat): Result<(seq<bytes>, bytes)> {
    if n == 0 then Ok(([], b)) else
    var (arg, t) :- TakeBuf(b);
    var (args, rest) :- TakeArgs(t, n - 1);
    Ok(([arg] + args, rest))
  }

  /** An argument count that is negative as `i32` cannot be allocated. */
  function DecodeSucceeded(b: bytes): Result<(RetResult, bytes)> {
    var (n, t) :- TakeI32(b);
    if n < 0 then Err(Panic) else
    var (args, rest) :- TakeArgs(t, n);
    Ok((RetResult(false, 0, Ascii("success"), args), rest))
  }

  function DecodeFailed(b: bytes): Result<(RetResult, bytes)> {
    var (id, t) :- TakeI32(b);
    var (msg, rest) :- TakeBuf(t);
    Ok((RetResult(true, id, msg, []), rest))
  }

  function Decode(b: bytes): Result<(RetResult, bytes)> {
    var (isError, t) :- TakeBool(b);
    if isError then DecodeFailed(t) else DecodeSucceeded(t)
  }

  /** What survives the wire: errors lose their arguments, successes get a fixed message. */
  function Normalised(r: RetResult): RetResult {
    if r.isError then r.(arguments := []) else RetResult(false, 0, Ascii("success"), r.arguments)
  }

  /** Every length fits its `u32` prefix. */
  predicate Encodable(r: RetResult) {
    if r.isError then |r.msg| < TWO_32
    else |r.arguments| < TWO_32 && forall i :: 0 <= i < |r.arguments| ==> |r.arguments[i]| < TWO_32
  }

  lemma {:induction false} ArgsRoundTrip(args: seq<bytes>, t: bytes)
    requires forall i :: 0 <= i < |args| ==> |args[i]| < TWO_32
    ensures TakeArgs(PutArgs(args) + t, |args|) == Ok((args, t))
  {
    hide LE, FromLE;
    if args == [] {
      assert PutArgs(args) + t == t;
    } else {
      Assoc(PutBuf(args[0]), PutArgs(args[1..]), t);
      BufRoundTrip(args[0], PutArgs(args[1..]) + t);
      ArgsRoundTrip(args[1..], t);
      HeadTail(args);
    }
  }

  lemma ErrorRoundTrip(r: RetResult, t: bytes)
    requires r.isError && |r.msg| < TWO_32
    ensures Decode(Payload(r) + t) == Ok((Normalised(r), t))
  {
    hide LE, FromLE;
    Assoc(PutBool(true), PutI32(r.errorId), PutBuf(r.msg));
    Assoc(PutBool(true), PutI32(r.errorId) + PutBuf(r.msg), t);
    Assoc(PutI32(r.errorId), PutBuf(r.msg), t);
    FieldsRoundTrip(PutI32(r.errorId) + (PutBuf(r.msg) + t));
    I32RoundTrip(r.errorId, PutBuf(r.msg) + t);
    BufRoundTrip(r.msg, t);
  }

  /** The count field as the decoder's `i32` sees it. */
  lemma CountField(n: nat, t: bytes)
    requires n < TWO_32
    ensures TakeI32(PutU32(n) + t) == Ok((if n < 0x8000_0000 then n else n - TWO_32, t))
  {
    Pow256Widths();
    FromLEOfLE(n, 4);
    TakeRawOfAppend(PutU32(n), t);
  }

  lemma SucceededFields(args: seq<bytes>, t: bytes)
    requires |args| < TWO_32 && forall i :: 0 <= i < |args| ==> |args[i]| < TWO_32
    ensures DecodeSucceeded(PutU32(|args|) + (PutArgs(args) + t))
         == if |args| < 0x8000_0000 then Ok((RetResult(false, 0, Ascii("success"), args), t)) else Err(Panic)
  {
    hide LE, FromLE, PutArgs;
    CountField(|args|, PutArgs(args) + t);
    ArgsRoundTrip(args, t);
  }

  lemma SuccessDecode(r: RetResult, t: bytes)
    requires !r.isError && Encodable(r)
    ensures Decode(Payload(r) + t)
         == if |r.arguments| < 0x8000_0000 then Ok((Normalised(r), t)) else Err(Panic)
  {
    hide LE, FromLE, PutArgs, DecodeSucceeded;
    var n, args := PutU32(|r.arguments|), PutArgs(r.arguments);
    Assoc(PutBool(false), n, args);
    Assoc(PutBool(false), n + args, t);
    Assoc(n, args, t);
    FieldsRoundTrip(n + (args + t));
    SucceededFields(r.arguments, t);
  }

  /** A result survives the wire, consuming exactly the bytes written, precisely when it is an
      error or its argument count is not negative as `i32`. */
  lemma ResultRoundTrip(r: RetResult, t: bytes)
    requires Encodable(r)
    ensures Decode(Payload(r) + t) == Ok((Normalised(r), t))
      <==> r.isError || |r.arguments| < 0x8000_0000
  {
    if r.isError {
      ErrorRoundTrip(r, t);
    } else {
      SuccessDecode(r, t);
    }
  }

  /** `check`: an error result becomes the call error with its id and message. */
  function Check(r: RetResult): Result<RetResult> {
    if r.isError then Err(CallError(r.errorId, Text(r.msg))) else Ok(r)
  }

  function Text(b: bytes): (t: seq<int>)
    ensures |t| == |b| && forall i :: 0 <= i < |b| ==> t[i] == b[i] as int
  {
    seq(|b|, i requires 0 <= i < |b| => b[i] as int)
  }

  /** A reader over a received frame: bytes and a cursor. */
  class DataOwnedReader {
    const data: bytes
    var offset: nat

    ghost predicate Valid()
      reads this
    {
      offset <= |data|
    }

    constructor (data: bytes)
      ensures Valid() && this.data == data && Rest() == data
    {
      this.data, offset := data, 0;
    }

    function Rest(): bytes
      requires Valid()
      reads this
    {
      data[offset..]
    }

    method Read(k: nat) returns (r: Result<bytes>)
      requires Valid()
      modifies this
      ensures Valid()
      ensures match TakeRaw(old(Rest()), k)
              case Ok((h, rest)) => r == Ok(h) && Rest() == rest
              case Err(e) => r == Err(e)
    {
      if |data| - offset < k {
        return Err(Eof);
      }
      assert Rest()[..k] == data[offset..offset + k] && Rest()[k..] == data[offset + k..];
      r, offset := Ok(data[offset..offset + k]), offset + k;
    }

    method ReadBool() returns (r: Result<bool>)
      requires Valid()
      modifies this
      ensures Valid()
      ensures match TakeBool(old(Rest()))
              case Ok((v, rest)) => r == Ok(v) && Rest() == rest
              case Err(e) => r == Err(e)
    {
      var h :- Read(1);
      r := Ok(h[0] != 0);
    }

    method ReadU8() returns (r: Result<byte>)
      requires Valid()
      modifies this
      ensures Valid()
      ensures match TakeU8(old(Rest()))
              case Ok((v, rest)) => r == Ok(v) && Rest() == rest
              case Err(e) => r == Err(e)
    {
      var h :- Read(1);
      r := Ok(h[0]);
    }

    method ReadI32() returns (r: Result<i32>)
      requires Valid()
      modifies this
      ensures Valid()
      ensures match TakeI32(old(Rest()))
              case Ok((v, rest)) => r == Ok(v) && Rest() == rest
              case Err(e) => r == Err(e)
    {
      var h :- Read(4);
      r := Ok(AsI32(h));
    }

    method ReadI64() returns (r: Result<i64>)
      requires Valid()
      modifies this
      ensures Valid()
      ensures match TakeI64(old(Rest()))
              case Ok((v, rest)) => r == Ok(v) && Rest() == rest
              case Err(e) => r == Err(e)
    {
      var h :- Read(8);
      r := Ok(AsI64(h));
    }

    method ReadBuf() returns (r: Result<bytes>)
      requires Valid()
      modifies this
      ensures Valid()
      ensures match TakeBuf(old(Rest()))
              case Ok((v, rest)) => r == Ok(v) && Rest() == rest
              case Err(e) => r == Err(e)
    {
      var h :- Read(4);
      r := Read(FromLE(h));
    }
  }

  method ReadArgs(dr: DataOwnedReader, len: nat) returns (r: Result<seq<bytes>>)
    requires dr.Valid()
    modifies dr
    ensures dr.Valid()
    ensures match TakeArgs(old(dr.Rest()), len)
            case Ok((args, rest)) => r == Ok(args) && dr.Rest() == rest
            case Err(e) => r == Err(e)
  {
    hide LE, FromLE, TakeBuf;
    ghost var all := TakeArgs(dr.Rest(), len);
    var buffs: seq<bytes> := [];
    assert forall args: seq<bytes> :: buffs + args == args;
    for i := 0 to len
      invariant dr.Valid() && |buffs| == i
      invariant match TakeArgs(dr.Rest(), len - i)
                case Ok((args, rest)) => all == Ok((buffs + args, rest))
                case Err(e) => all == Err(e)
    {
      var arg :- dr.ReadBuf();
      assert forall args: seq<bytes> :: buffs + ([arg] + args) == (buffs + [arg]) + args;
      buffs := buffs + [arg];
    }
    assert buffs + [] == buffs;
    r := Ok(buffs);
  }

  /** `RetResult::from`: the cursor advances field by field, arguments are pushed in a loop. */
  method From(dr: DataOwnedReader) returns (r: Result<RetResult>)
    requires dr.Valid()
    modifies dr
    ensures dr.Valid()
    ensures match Decode(old(dr.Rest()))
            case Ok((v, rest)) => r == Ok(v) && dr.Rest() == rest
            case Err(e) => r == Err(e)
  {
    hide LE, FromLE, TakeBuf, TakeArgs;
    var isError :- dr.ReadBool();
    if isError {
      var id :- dr.ReadI32();
      var msg :- dr.ReadBuf();
      return Ok(RetResult(true, id, msg, []));
    }
    var len :- dr.ReadI32();
    if len < 0 {
      return Err(Panic);
    }
    var buffs :- ReadArgs(dr, len);
    r := Ok(RetResult(false, 0, Ascii("success"), buffs));
  }

  lemma {:induction false} PutArgsAppend(args: seq<bytes>, arg: bytes)
    ensures PutArgs(args + [arg]) == PutArgs(args) + PutBuf(arg)
  {
    if args == [] {
      assert args + [arg] == [arg];
      assert PutArgs([]) + PutBuf(arg) == PutBuf(arg) + PutArgs([]);
    } else {
      assert (args + [arg])[1..] == args[1..] + [arg];
      PutArgsAppend(args[1..], arg);
      Assoc(PutBuf(args[0]), PutArgs(args[1..]), PutBuf(arg));
    }
  }
}

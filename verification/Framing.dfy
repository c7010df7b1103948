/** Length-prefixed frames and the stream readers that cut a byte stream back into them. */
module Framing {
  import opened Outcomes
  import opened Wire

  /** A frame: `len + 4` as `u32`, then the body. */
  function Frame(body: bytes): bytes { PutU32(U32(|body| + 4)) + body }

  function Frames(ps: seq<bytes>): bytes {
    if ps == [] then [] else Frame(ps[0]) + Frames(ps[1..])
  }

  predicate Framable(body: bytes) { |body| + 4 < TWO_32 }

  predicate AllFramable(ps: seq<bytes>) { forall i :: 0 <= i < |ps| ==> Framable(ps[i]) }

  /** The body length a header announces: `len - 4` in `u32` arithmetic. */
  function BodyLength(header: nat): (n: nat)
    ensures 4 <= header < TWO_32 ==> n == header - 4
    ensures header < 4 ==> n == header + 0xFFFF_FFFC
  {
    U32(header + TWO_32 - 4)
  }

  function TakeFrame(b: bytes): (r: Result<(bytes, bytes)>)
    ensures r.Ok? ==> |r.value.1| < |b|
  {
    var (header, t) :- TakeU32(b);
    TakeRaw(t, BodyLength(header))
  }

  /** The read loop's meaning on a whole stream: frames until one is incomplete. */
  function ParseFrames(b: bytes): seq<bytes>
    decreases |b|
  {
    match TakeFrame(b)
    case Err(_) => []
    case Ok((body, rest)) => [body] + ParseFrames(rest)
  }

  /** What is left behind the last complete frame. */
  function Remainder(b: bytes): bytes
    decreases |b|
  {
    match TakeFrame(b)
    case Err(_) => b
    case Ok((_, rest)) => Remainder(rest)
  }

  lemma HeaderRoundTrip(body: bytes)
    requires Framable(body)
    ensures Frame(body) == PutU32(|body| + 4) + body && BodyLength(|body| + 4) == |body|
  {
    hide LE, FromLE;
  }

  lemma FrameRoundTrip(body: bytes, t: bytes)
    requires Framable(body)
    ensures TakeFrame(Frame(body) + t) == Ok((body, t))
  {
    hide LE, FromLE;
    Assoc(PutU32(|body| + 4), body, t);
    HeaderRoundTrip(body);
    U32RoundTrip(|body| + 4, body + t);
    TakeRawOfAppend(body, t);
  }

  lemma ParseOneFrame(body: bytes, t: bytes)
    requires Framable(body)
    ensures ParseFrames(Frame(body) + t) == [body] + ParseFrames(t)
  {
    FrameRoundTrip(body, t);
  }

  /** Frames come back exactly, whatever follows them. */
  lemma {:induction false} ParseFramesAppend(ps: seq<bytes>, t: bytes)
    requires AllFramable(ps)
    ensures ParseFrames(Frames(ps) + t) == ps + ParseFrames(t)
  {
    if ps == [] {
      assert Frames(ps) + t == t;
      assert ps + ParseFrames(t) == ParseFrames(t);
    } else {
      var later := Frames(ps[1..]) + t;
      Assoc(Frame(ps[0]), Frames(ps[1..]), t);
      ParseOneFrame(ps[0], later);
      ParseFramesAppend(ps[1..], t);
      Assoc([ps[0]], ps[1..], ParseFrames(t));
      HeadTail(ps);
    }
  }

  lemma StreamFraming(ps: seq<bytes>)
    requires AllFramable(ps)
    ensures ParseFrames(Frames(ps)) == ps
  {
    ParseFramesAppend(ps, []);
    assert Frames(ps) + [] == Frames(ps);
  }

  /** A proper prefix of a single frame is no frame at all. */
  lemma PartialFrame(body: bytes, cut: nat)
    requires Framable(body) && cut < |Frame(body)|
    ensures ParseFrames(Frame(body)[..cut]) == []
  {
    hide LE, FromLE;
    if cut >= 4 {
      PrefixOfAppend(PutU32(|body| + 4), body, cut);
      U32RoundTrip(|body| + 4, body[..cut - 4]);
    }
  }

  lemma PrefixOfAppend<T>(a: seq<T>, b: seq<T>, cut: nat)
    requires |a| <= cut <= |a + b|
    ensures (a + b)[..cut] == a + b[..cut - |a|]
  {
  }

  lemma {:induction false} FramesSnoc(ps: seq<bytes>, p: bytes)
    ensures Frames(ps + [p]) == Frames(ps) + Frame(p)
  {
    hide LE, FromLE;
    if ps == [] {
      assert ps + [p] == [p] && Frames([p]) == Frame(p) + Frames([]);
    } else {
      assert (ps + [p])[1..] == ps[1..] + [p];
      FramesSnoc(ps[1..], p);
      Assoc(Frame(ps[0]), Frames(ps[1..]), Frame(p));
    }
  }

  /** A stream cut anywhere yields its longest run of complete frames: `m` frames, where the first
      `m` fit into the cut and the next one does not. */
  lemma {:induction false} TruncatedStream(ps: seq<bytes>, cut: nat) returns (m: nat)
    requires AllFramable(ps) && cut <= |Frames(ps)|
    ensures m <= |ps|
    ensures ParseFrames(Frames(ps)[..cut]) == ps[..m]
    ensures |Frames(ps[..m])| <= cut
    ensures m < |ps| ==> cut < |Frames(ps[..m + 1])|
    decreases |ps|
  {
    hide LE, FromLE;
    if ps == [] {
      m := 0;
      assert Frames(ps)[..cut] == [];
    } else if cut < |Frame(ps[0])| {
      m := 0;
      assert Frames(ps)[..cut] == Frame(ps[0])[..cut];
      PartialFrame(ps[0], cut);
      FramesOfPrefix(ps, 0);
    } else {
      var n := |Frame(ps[0])|;
      var k := TruncatedStream(ps[1..], cut - n);
      m := k + 1;
      CutInTail(ps[0], Frames(ps[1..]), cut);
      FramesOfPrefix(ps, k);
      assert ps[..m] == [ps[0]] + ps[1..][..k];
      if m < |ps| {
        FramesOfPrefix(ps, m);
      }
    }
  }

  lemma CutInTail(body: bytes, t: bytes, cut: nat)
    requires Framable(body) && |Frame(body)| <= cut <= |Frame(body) + t|
    ensures ParseFrames((Frame(body) + t)[..cut]) == [body] + ParseFrames(t[..cut - |Frame(body)|])
  {
    PrefixOfAppend(Frame(body), t, cut);
    ParseOneFrame(body, t[..cut - |Frame(body)|]);
  }

  lemma FramesOfPrefix(ps: seq<bytes>, k: nat)
    requires k < |ps|
    ensures Frames(ps[..k + 1]) == Frame(ps[0]) + Frames(ps[1..][..k])
  {
    assert ps[..k + 1][1..] == ps[1..][..k];
  }

  function Flatten(chunks: seq<bytes>): bytes {
    if chunks == [] then [] else chunks[0] + Flatten(chunks[1..])
  }

  /** The read half of a connection: bytes already received, and the chunks still to arrive before
      the peer closes. */
  class ReadHalf {
    var buffered: bytes
    var arriving: seq<bytes>

    constructor (chunks: seq<bytes>)
      ensures Stream() == Flatten(chunks)
    {
      buffered, arriving := [], chunks;
    }

    /** Everything the peer will have sent, however it is split. */
    ghost function Stream(): bytes
      reads this
    {
      buffered + Flatten(arriving)
    }

    method ReadExact(n: nat) returns (r: Result<bytes>)
      modifies this
      ensures match TakeRaw(old(Stream()), n)
              case Ok((data, rest)) => r == Ok(data) && Stream() == rest
              case Err(e) => r == Err(e)
    {
      while |buffered| < n && arriving != []
        invariant Stream() == old(Stream())
        decreases |arriving|
      {
        assert Stream() == (buffered + arriving[0]) + Flatten(arriving[1..]);
        buffered, arriving := buffered + arriving[0], arriving[1..];
      }
      if |buffered| < n {
        return Err(Eof);
      }
      assert Stream()[..n] == buffered[..n] && Stream()[n..] == buffered[n..] + Flatten(arriving);
      r, buffered := Ok(buffered[..n]), buffered[n..];
    }

    method ReadU32Le() returns (r: Result<nat>)
      modifies this
      ensures match TakeU32(old(Stream()))
              case Ok((n, rest)) => r == Ok(n) && Stream() == rest
              case Err(e) => r == Err(e)
    {
      var data :- ReadExact(4);
      r := Ok(FromLE(data));
    }

    method ReadI32Le() returns (r: Result<i32>)
      modifies this
      ensures match TakeI32(old(Stream()))
              case Ok((v, rest)) => r == Ok(v) && Stream() == rest
              case Err(e) => r == Err(e)
    {
      var data :- ReadExact(4);
      r := Ok(AsI32(data));
    }

    method ReadI64Le() returns (r: Result<i64>)
      modifies this
      ensures match TakeI64(old(Stream()))
              case Ok((v, rest)) => r == Ok(v) && Stream() == rest
              case Err(e) => r == Err(e)
    {
      var data :- ReadExact(8);
      r := Ok(AsI64(data));
    }

    method ReadString() returns (r: Result<bytes>)
      modifies this
      ensures match TakeBuf(old(Stream()))
              case Ok((s, rest)) => r == Ok(s) && Stream() == rest
              case Err(e) => r == Err(e)
    {
      var len :- ReadU32Le();
      r := ReadExact(len);
    }

    method ReadBuff() returns (r: Result<bytes>)
      modifies this
      ensures match TakeFrame(old(Stream()))
              case Ok((body, rest)) => r == Ok(body) && Stream() == rest
              case Err(e) => r == Err(e)
    {
      var header :- ReadU32Le();
      r := ReadExact(U32(header + TWO_32 - 4));
    }

    /** The `while let Ok(..) = read_buff()` loop: however the stream is chunked, it sees the same
        frames. */
    method ReadFrames() returns (frames: seq<bytes>)
      modifies this
      ensures frames == ParseFrames(old(Stream()))
    {
      frames := [];
      var more := true;
      while more
        invariant more ==> frames + ParseFrames(Stream()) == ParseFrames(old(Stream()))
        invariant !more ==> frames == ParseFrames(old(Stream()))
        decreases more, if more then |Stream()| else 0
      {
        var r := ReadBuff();
        match r
        case Ok(body) => frames := frames + [body];
        case Err(_) => more := false;
      }
    }
  }
}

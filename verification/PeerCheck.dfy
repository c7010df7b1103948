/** The server's check of a new connection: `get_peer_token` up to the session id. */
module PeerCheck {
  import opened Outcomes
  import opened Wire
  import opened Framing
  import opened Messages

  datatype ServerOption = ServerOption(serviceName: bytes, verifyKey: bytes)

  /** The server's answer to a verify attempt: an error and its text, or success. */
  datatype Answer = Answer(isError: bool, msg: bytes)

  function Judge(option: ServerOption, name: bytes, key: bytes): Answer {
    if !NameFits(option, name) then Answer(true, Ascii("service name error"))
    else if !KeyFits(option, key) then Answer(true, Ascii("service verify key error"))
    else Answer(false, Ascii("verify success"))
  }

  predicate NameFits(option: ServerOption, name: bytes) { option.serviceName == [] || name == option.serviceName }

  predicate KeyFits(option: ServerOption, key: bytes) { option.verifyKey == [] || key == option.verifyKey }

  /** What the server answers to the start of a stream, complete or not: it refuses as soon as it has
      read something that does not fit, and says nothing to a stream that ends before. */
  function AnswerTo(option: ServerOption, b: bytes): (answer: Option<Answer>)
    ensures answer.Some? ==> |answer.value.msg| < 100
  {
    match TakeI32(b)
    case Err(_) => None
    case Ok((cmd, t)) =>
      if cmd != 1000 then Some(Answer(true, Ascii("not verify key"))) else
      match TakeBuf(t)
      case Err(_) => None
      case Ok((name, t1)) =>
        if !NameFits(option, name) then Some(Answer(true, Ascii("service name error"))) else
        match TakeBuf(t1)
        case Err(_) => None
        case Ok((key, _)) => Some(Judge(option, name, key))
  }

  /** A whole verify message is answered by name and key alone, whatever follows it: refused if the server
      has a service name and this is another, else if the server has a key and this is another, else
      accepted. */
  lemma VerifyMessageIsJudged(option: ServerOption, name: bytes, key: bytes, session: i64, t: bytes)
    requires |name| < TWO_32 && |key| < TWO_32
    ensures AnswerTo(option, VerifyMessage(name, key, session) + t) == Some(
      if option.serviceName != [] && name != option.serviceName then Answer(true, Ascii("service name error"))
      else if option.verifyKey != [] && key != option.verifyKey then Answer(true, Ascii("service verify key error"))
      else Answer(false, Ascii("verify success")))
  {
    hide LE, FromLE, TakeBuf, Ascii, VerifyMessage;
    VerifyRoundTrip(name, key, session, t);
  }

  /** A wrong name is refused before the key has been read, whatever comes after it. */
  lemma WrongNameIsRefused(option: ServerOption, name: bytes, t: bytes)
    requires |name| < TWO_32 && option.serviceName != [] && name != option.serviceName
    ensures AnswerTo(option, PutI32(1000) + (PutBuf(name) + t)) == Some(Answer(true, Ascii("service name error")))
  {
    hide LE, FromLE, PutBuf, Ascii;
    I32RoundTrip(1000, PutBuf(name) + t);
    BufRoundTrip(name, t);
  }

  /** Another command than 1000 is refused before anything else has been read. */
  lemma OtherCommandIsRefused(option: ServerOption, cmd: i32, t: bytes)
    ensures AnswerTo(option, PutI32(cmd) + t) == Some(Answer(true, Ascii("not verify key"))) <==> cmd != 1000
  {
    hide LE, FromLE, TakeBuf, PutI32;
    I32RoundTrip(cmd, t);
    OtherTexts();
  }

  lemma OtherTexts()
    ensures |Ascii("not verify key")| != |Ascii("service name error")|
    ensures |Ascii("not verify key")| != |Ascii("service verify key error")|
  {
  }

  ghost predicate StartsWith(b: bytes, name: bytes, key: bytes, t: bytes) {
    |name| < TWO_32 && |key| < TWO_32 && b == PutI32(1000) + (PutBuf(name) + (PutBuf(key) + t))
  }

  /** Of all streams, complete or not, exactly those are accepted that start with a name and a key that fit. */
  lemma AcceptsExactly(option: ServerOption, b: bytes)
    ensures AnswerTo(option, b) == Some(Answer(false, Ascii("verify success")))
      <==> exists name, key, t :: StartsWith(b, name, key, t)
             && (option.serviceName == [] || name == option.serviceName)
             && (option.verifyKey == [] || key == option.verifyKey)
    ensures AnswerTo(option, b).Some? && !AnswerTo(option, b).value.isError
      <==> AnswerTo(option, b) == Some(Answer(false, Ascii("verify success")))
  {
    hide LE, FromLE, PutBuf, TakeBuf, TakeI32, PutI32, Ascii;
    forall name, key, t | StartsWith(b, name, key, t)
      ensures AnswerTo(option, b) == if NameFits(option, name) then Some(Judge(option, name, key))
                                     else Some(Answer(true, Ascii("service name error")))
    {
      I32RoundTrip(1000, PutBuf(name) + (PutBuf(key) + t));
      BufRoundTrip(name, PutBuf(key) + t);
      BufRoundTrip(key, t);
    }
    TakenPutBack(b);
    if TakeI32(b).Ok? && TakeI32(b).value.0 == 1000 {
      Fields(b);
    }
  }

  lemma Fields(b: bytes)
    requires TakeI32(b).Ok? && TakeI32(b).value.0 == 1000
    ensures var t := TakeI32(b).value.1;
      TakeBuf(t).Ok? && TakeBuf(TakeBuf(t).value.1).Ok? ==>
        var (key, rest) := TakeBuf(TakeBuf(t).value.1).value;
        StartsWith(b, TakeBuf(t).value.0, key, rest)
  {
    hide LE, FromLE, PutBuf, TakeI32, PutI32;
    TakenPutBack(b);
    var t := TakeI32(b).value.1;
    BufPutBack(t);
    if TakeBuf(t).Ok? {
      BufPutBack(TakeBuf(t).value.1);
    }
  }

  lemma CutBuf(b: bytes, cut: nat)
    requires |b| < TWO_32 && cut < |PutBuf(b)|
    ensures TakeBuf(PutBuf(b)[..cut]).Err?
  {
    hide LE, FromLE;
    if cut >= 4 {
      PrefixOfAppend(PutU32(|b|), b, cut);
      U32RoundTrip(|b|, b[..cut - 4]);
    }
  }

  /** A stream that ends inside a name and key that fit is not answered at all. */
  lemma IncompleteIsNotAnswered(option: ServerOption, name: bytes, key: bytes, cut: nat)
    requires |name| < TWO_32 && |key| < TWO_32 && (option.serviceName == [] || name == option.serviceName)
    requires cut < |PutI32(1000) + (PutBuf(name) + PutBuf(key))|
    ensures AnswerTo(option, (PutI32(1000) + (PutBuf(name) + PutBuf(key)))[..cut]) == None
  {
    hide LE, FromLE, PutBuf, TakeBuf, Ascii;
    var fields := PutBuf(name) + PutBuf(key);
    if cut >= 4 {
      PrefixOfAppend(PutI32(1000), fields, cut);
      I32RoundTrip(1000, fields[..cut - 4]);
      if cut - 4 < |PutBuf(name)| {
        assert fields[..cut - 4] == PutBuf(name)[..cut - 4];
        CutBuf(name, cut - 4);
      } else {
        PrefixOfAppend(PutBuf(name), PutBuf(key), cut - 4);
        var n := cut - 4 - |PutBuf(name)|;
        BufRoundTrip(name, PutBuf(key)[..n]);
        CutBuf(key, n);
      }
    }
  }

  /** `get_peer_token` up to the session id: each check answers before the next field is read. A session
      id comes out exactly of a whole message whose name and key fit, and then exactly that message has
      been consumed. */
  method CheckPeer(reader: ReadHalf, option: ServerOption) returns (answer: Option<Answer>, session: Result<i64>)
    modifies reader
    ensures answer == AnswerTo(option, old(reader.Stream()))
    ensures session.Ok? <==>
      && TakeVerify(old(reader.Stream())).Ok?
      && (option.serviceName == [] || TakeVerify(old(reader.Stream())).value.0.0 == option.serviceName)
      && (option.verifyKey == [] || TakeVerify(old(reader.Stream())).value.0.1 == option.verifyKey)
    ensures session.Ok? ==>
      && session.value == TakeVerify(old(reader.Stream())).value.0.2
      && reader.Stream() == TakeVerify(old(reader.Stream())).value.1
  {
    hide LE, FromLE, TakeBuf, Ascii;
    answer, session := None, Err(Eof);
    var cmd := reader.ReadI32Le();
    if cmd.Err? { return; }
    if cmd.value != 1000 {
      return Some(Answer(true, Ascii("not verify key"))), Err(DecodeError);
    }
    var name := reader.ReadString();
    if name.Err? { return; }
    if option.serviceName != [] && name.value != option.serviceName {
      return Some(Answer(true, Ascii("service name error"))), Err(DecodeError);
    }
    var key := reader.ReadString();
    if key.Err? { return; }
    if option.verifyKey != [] && key.value != option.verifyKey {
      return Some(Answer(true, Ascii("service verify key error"))), Err(DecodeError);
    }
    answer := Some(Answer(false, Ascii("verify success")));
    session := reader.ReadI64Le();
  }
}

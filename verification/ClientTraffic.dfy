/** What a client's connections carry, exactly as far as the server can read it, and whose connection the
    client object uses. */
module ClientTraffic {
  import opened Outcomes
  import opened Wire
  import opened Framing
  import opened RetResults
  import opened Messages
  import opened PeerCheck
  import opened Handshake

  // ----- what the server can read -----

  function Bodies(ws: seq<Write>): seq<bytes> {
    if ws == [] then [] else [RequestBody(ws[0].m)] + Bodies(ws[1..])
  }

  predicate AllFramed(ws: seq<Write>) { forall i :: 0 <= i < |ws| ==> ws[i].mode != 0 }

  /** The first byte of a field. */
  lemma FirstByte(n: nat)
    requires n < TWO_32
    ensures |PutU32(n)| == 4 && PutU32(n)[0] as int == n % 256
  {
    assert LE(n, 4) == [(n % 256) as byte] + LE(n / 256, 3);
  }

  /** A command taken for a length: the frame it makes starts four bytes later. */
  lemma TakenFrame(cmd: nat, rest: bytes)
    requires 4 <= cmd < TWO_32
    ensures TakeFrame(PutU32(cmd) + rest) == TakeRaw(rest, cmd - 4)
  {
    hide LE, FromLE;
    U32RoundTrip(cmd, rest);
  }

  lemma ShiftDiffers(h: bytes, x: bytes, rest: bytes, n: nat, j: nat)
    requires j < |x| && n <= |x + rest| && (h + x)[j] != x[j] && h != []
    ensures (x + rest)[..n] != h + x
  {
    if n > j {
      assert (x + rest)[..n][j] == x[j];
    }
  }

  /** A body taken off where it does not repeat itself four bytes on is not read as itself. */
  lemma NotItself(cmd: nat, x: bytes, rest: bytes, j: nat)
    requires 4 <= cmd < TWO_32 && j < |x| && (PutU32(cmd) + x)[j] != x[j]
    ensures var b := PutU32(cmd) + x; ParseFrames(b + rest) == [] || ParseFrames(b + rest)[0] != b
  {
    hide LE, FromLE;
    FirstByte(cmd);
    Assoc(PutU32(cmd), x, rest);
    TakenFrame(cmd, x + rest);
    if cmd - 4 <= |x + rest| {
      ShiftDiffers(PutU32(cmd), x, rest, cmd - 4, j);
    }
  }

  /** Whatever follows it, a bare message is never read as the frame of itself: its command would be the
      length, so every byte would have to equal the one four places on. */
  lemma BareIsMisread(m: ClientMessage, rest: bytes)
    ensures var ps := ParseFrames(RequestBody(m) + rest); ps == [] || ps[0] != RequestBody(m)
  {
    hide LE, FromLE, PutArgs, Concat, ParseFrames;
    match m
    case AskSession =>
      I32AsU32(2000);
      ShortBody(rest);
    case Ask(tt, cmd, serial, args) =>
      FirstByte(2400);
      NotItself(2400, PutU8(tt) + (PutI32(cmd) + (PutI64(serial) + ArgsField(args))), rest, 0);
    case Tell(serial, result) =>
      var x := PutI64(serial) + Payload(result);
      Assoc(PutU32(2500), PutI64(serial), Payload(result));
      FirstByte(2500);
      var b := PutU32(2500) + x;
      assert x[8] == Payload(result)[0] && b[0] as int == 196;
      NotItself(2500, x, rest, if b[0] != x[0] then 0 else if b[4] != x[4] then 4 else 8);
  }

  lemma ShortBody(rest: bytes)
    ensures ParseFrames(PutU32(2000) + rest) == [] || ParseFrames(PutU32(2000) + rest)[0] != PutU32(2000)
  {
    hide LE, FromLE;
    FirstByte(2000);
    TakenFrame(2000, rest);
  }

  lemma {:induction false} FramedIsRead(ws: seq<Write>)
    requires AllFit(ws)
    ensures ParseFrames(Wires(ws)) == Bodies(ws) <==> AllFramed(ws)
  {
    hide RequestBody, ParseFrames, Frame;
    if ws == [] {
      NothingIsRead();
    } else {
      var b, rest := RequestBody(ws[0].m), Wires(ws[1..]);
      assert forall i :: 0 < i < |ws| ==> ws[i] == ws[1..][i - 1];
      FramedIsRead(ws[1..]);
      assert AllFramed(ws) <==> ws[0].mode != 0 && AllFramed(ws[1..]);
      if ws[0].mode != 0 {
        ParseOneFrame(b, rest);
        assert ([b] + ParseFrames(rest))[1..] == ParseFrames(rest) && ([b] + Bodies(ws[1..]))[1..] == Bodies(ws[1..]);
      } else {
        BareIsMisread(ws[0].m, rest);
      }
    }
  }

  lemma NothingIsRead()
    ensures ParseFrames([]) == []
  {
  }

  /** What the server reads off a connection is what the client meant: its verify message, then the bodies
      of all it wrote, in order. */
  predicate ReadsAsMeant(s: Client, l: Link) {
    && TakeVerify(l.sent).Ok?
    && TakeVerify(l.sent).value.0 == (s.name, s.key, l.session)
    && ParseFrames(TakeVerify(l.sent).value.1) == Bodies(l.later)
  }

  /** In every run, over reconnects and overlapping connections, whoever calls when: a connection that has
      written nothing before its verify message reads as meant, by what `get_peer_token` and then
      `data_reading` consume, exactly if everything after it was written in a mode other than 0. */
  lemma ReadsAsMeantExactly(states: seq<Client>, actions: seq<Action>, n: nat, c: nat)
    requires Run(states, actions) && n < |states| && c < |states[n].links|
    requires states[n].links[c].announced && states[n].links[c].early == []
    ensures ReadsAsMeant(states[n], states[n].links[c]) <==> AllFramed(states[n].links[c].later)
  {
    hide LE, FromLE, ParseFrames, Wires, VerifyMessage, TakeVerify, AllFit, Run;
    RunInv(states, actions, n);
    var s, l := states[n], states[n].links[c];
    LinkIsOk(s, c);
    EarlyNothing(l);
    VerifyRoundTrip(s.name, s.key, l.session, Wires(l.later));
    FramedIsRead(l.later);
  }

  lemma EarlyNothing(l: Link)
    requires l.early == []
    ensures forall b: bytes :: Wires(l.early) + b == b
  {
  }

  /** A connection that has carried a call before its verify message, as a reconnected client's can, is
      refused outright, unless that call is framed and happens to be 996 bytes long. */
  lemma EarlyCallIsRefused(states: seq<Client>, actions: seq<Action>, n: nat, c: nat)
    requires Run(states, actions) && n < |states| && c < |states[n].links| && states[n].links[c].early != []
    ensures var s, l := states[n], states[n].links[c];
      var body := RequestBody(l.early[0].m);
      && (AnswerTo(s.server, l.sent) == Some(Answer(true, Ascii("not verify key")))
          <==> l.early[0].mode == 0 || |body| + 4 != 1000)
      && (l.early[0].mode == 0 || |body| + 4 != 1000 ==> TakeVerify(l.sent).Err? && !ReadsAsMeant(s, l))
  {
    hide LE, FromLE, VerifyMessage, Run, TakeBuf;
    RunInv(states, actions, n);
    var s, l := states[n], states[n].links[c];
    LinkIsOk(s, c);
    var w := l.early[0];
    var behind := if l.announced then VerifyMessage(s.name, s.key, l.session) + Wires(l.later) else [];
    var tail := Wires(l.early[1..]) + behind;
    Assoc(OnWire(w), Wires(l.early[1..]), behind);
    assert l.sent == OnWire(w) + tail;
    FirstField(w, tail);
    OtherTexts();
  }

  /** What the server takes for the command of the first message. */
  lemma FirstField(w: Write, tail: bytes)
    requires w.m.Ask? && Framable(RequestBody(w.m))
    ensures TakeI32(OnWire(w) + tail).Ok?
    ensures TakeI32(OnWire(w) + tail).value.0 == 1000 <==> w.mode != 0 && |RequestBody(w.m)| + 4 == 1000
  {
    hide LE, FromLE, ArgsField;
    var body := RequestBody(w.m);
    if w.mode == 0 {
      var x := PutU8(w.m.tt) + (PutI32(w.m.cmd) + (PutI64(w.m.serial) + ArgsField(w.m.args)));
      Assoc(PutU32(2400), x, tail);
      CountField(2400, x + tail);
    } else {
      HeaderRoundTrip(body);
      Assoc(PutU32(|body| + 4), body, tail);
      CountField(|body| + 4, body + tail);
    }
  }

  ghost predicate Reachable(s: Client) {
    exists states, actions :: Run(states, actions) && states[|actions|] == s
  }

  lemma Onward(s: Client, a: Action, t: Client)
    requires Reachable(s) && Enabled(s, a) && t == Apply(s, a)
    ensures Reachable(t)
  {
    hide Apply, Enabled, IsInit;
    var states, actions :| Run(states, actions) && states[|actions|] == s;
    var states', actions' := states + [t], actions + [a];
    assert Run(states', actions') && states'[|actions'|] == t;
  }

  /** A client of a server that accepts everyone, with one connection. */
  function OneLink(name: bytes, key: bytes, l: Link): Client {
    Client(name, key, ServerOption([], []), 0, 0, [l], Some(0))
  }

  function Announced(head: bytes): Link { NewLink().(announced := true, sent := head) }

  lemma FirstAnnounced(name: bytes, key: bytes)
    requires |name| < TWO_32 && |key| < TWO_32
    ensures Reachable(OneLink(name, key, Announced(VerifyMessage(name, key, 0))))
  {
    var s0 := Client(name, key, ServerOption([], []), 0, 0, [], None);
    var states: seq<Client>, actions: seq<Action> := [s0], [];
    assert Run(states, actions);
    assert Reachable(s0);
    hide Reachable, VerifyMessage;
    assert [] + VerifyMessage(name, key, 0) == VerifyMessage(name, key, 0);
    Onward(s0, Open, OneLink(name, key, NewLink()));
    Onward(OneLink(name, key, NewLink()), Announce(0), OneLink(name, key, Announced(VerifyMessage(name, key, 0))));
  }

  function Welcome(): Answer { Answer(false, Ascii("verify success")) }

  lemma EveryoneIsWelcome(name: bytes, key: bytes)
    requires |name| < TWO_32 && |key| < TWO_32
    ensures AnswerTo(ServerOption([], []), VerifyMessage(name, key, 0)) == Some(Welcome())
  {
    hide VerifyMessage, AnswerTo, Ascii;
    VerifyMessageIsJudged(ServerOption([], []), name, key, 0, []);
    assert VerifyMessage(name, key, 0) + [] == VerifyMessage(name, key, 0);
  }

  /** A client that has connected once: its connection verified, in mode 1. */
  lemma FirstConnection(name: bytes, key: bytes) returns (s: Client)
    requires |name| < TWO_32 && |key| < TWO_32
    ensures Reachable(s) && s.mode == 1 && |s.links| == 1 && s.links[0].reading && !s.links[0].cleaned
  {
    FirstAnnounced(name, key);
    EveryoneIsWelcome(name, key);
    hide Reachable, VerifyMessage, AnswerTo, Welcome;
    var l := Announced(VerifyMessage(name, key, 0));
    var judged := l.(judged := true, arriving := [KeyVerify(Welcome())]);
    var s2, s3 := OneLink(name, key, l), OneLink(name, key, judged);
    assert [] + [KeyVerify(Welcome())] == [KeyVerify(Welcome())];
    Onward(s2, JudgePeer(0), s3);
    WelcomeIsRead(s3);
    hide Apply;
    s := Apply(s3, Read(0));
    Onward(s3, Read(0), s);
  }

  lemma WelcomeIsRead(s: Client)
    requires |s.links| == 1 && s.links[0].announced && s.links[0].reading && s.links[0].holdsSender
    requires s.links[0].arriving == [KeyVerify(Welcome())] && !s.links[0].cleaned
    ensures Enabled(s, Read(0))
    ensures var u := Apply(s, Read(0));
      u.mode == 1 && |u.links| == 1 && u.links[0].reading && !u.links[0].cleaned
  {
    hide ClientInbound, KeyVerifyBody, OnWire, Ascii;
    KeyVerifyRoundTrip(false, Welcome().msg);
  }

  function Reopened(s: Client): Client
    requires |s.links| == 1
  {
    s.(links := [Stopped(s.links[0]).(cleaned := true), NewLink()], net := Some(1))
  }

  lemma Reconnected(s: Client)
    requires Reachable(s) && |s.links| == 1 && s.links[0].reading && !s.links[0].cleaned
    ensures Reachable(Reopened(s))
  {
    hide Reachable;
    var ended := Stopped(s.links[0]);
    var s4 := s.(links := [ended]);
    var s5 := s4.(links := [ended.(cleaned := true)], net := None);
    assert s.links[0 := ended] == [ended];
    Onward(s, ReaderEnds(0), s4);
    Onward(s4, Clean(0), s5);
    Onward(s5, Open, Reopened(s));
  }

  /** The condition on early calls is met: once a client has connected, its mode stays 1 for good, so
      after a reconnect a call can reach the new connection, framed, before the verify message does. The
      server then refuses the connection. */
  lemma ReconnectedCallsEarly(name: bytes, key: bytes, m: ClientMessage) returns (s: Client)
    requires |name| < TWO_32 && |key| < TWO_32 && m.Ask? && Framable(RequestBody(m)) && |RequestBody(m)| != 996
    ensures Reachable(s) && s.net == Some(1) && |s.links| == 2 && s.links[1].early == [Write(m, 1)]
    ensures AnswerTo(s.server, s.links[1].sent) == Some(Answer(true, Ascii("not verify key")))
  {
    hide RequestBody, OnWire, AnswerTo, VerifyMessage, Ascii, Reachable;
    var s3 := FirstConnection(name, key);
    Reconnected(s3);
    var s6 := Reopened(s3);
    assert [] + [Write(m, 1)] == [Write(m, 1)];
    s := s6.(links := [s6.links[0], Written(NewLink(), Write(m, 1))]);
    Onward(s6, Send(1, m), s);
    EarlyIsRefused(s, 1);
  }

  lemma EarlyIsRefused(s: Client, c: nat)
    requires Reachable(s) && c < |s.links| && s.links[c].early != []
    requires s.links[c].early[0].mode == 0 || |RequestBody(s.links[c].early[0].m)| != 996
    ensures AnswerTo(s.server, s.links[c].sent) == Some(Answer(true, Ascii("not verify key")))
  {
    var states, actions :| Run(states, actions) && states[|actions|] == s;
    RunStarts(states, actions);
    hide Run, AnswerTo;
    EarlyCallIsRefused(states, actions, |actions|, c);
  }

  // ----- callers that wait for the Connect function -----

  /** Nobody calls on a connection before its Connect function has been started. */
  ghost predicate Patient(states: seq<Client>, actions: seq<Action>)
    requires Run(states, actions)
  {
    forall k :: 0 <= k < |actions| && actions[k].Send? ==>
      states[k].links[actions[k].c].task != NotSpawned
  }

  predicate Polite(s: Client) {
    forall c :: 0 <= c < |s.links| ==> s.links[c].early == [] && AllFramed(s.links[c].later)
  }

  lemma PoliteLink(l: Link, w: Write)
    requires l.early == [] && AllFramed(l.later) && l.announced && w.mode != 0
    ensures Written(l, w).early == [] && AllFramed(Written(l, w).later)
  {
    hide OnWire;
  }

  lemma NothingFramed()
    ensures AllFramed([])
  {
  }

  lemma ReadIsPolite(s: Client, c: nat)
    requires Polite(s) && Enabled(s, Read(c))
    ensures Polite(Apply(s, Read(c)))
  {
    hide ClientInbound, BodyOf, OnWire, AllFramed;
    VerifiedMeansFramed(s.links[c].arriving[0]);
    var l := s.links[c].(arriving := s.links[c].arriving[1..]);
    PoliteLink(l, Write(AskSession, 1));
  }

  lemma PoliteStep(s: Client, a: Action)
    requires Inv(s) && Polite(s) && Enabled(s, a)
    requires a.Send? ==> s.links[a.c].task != NotSpawned
    ensures Polite(Apply(s, a))
  {
    hide AnswerTo, VerifyMessage, OnWire, DoRead, AllFit, Expected, RequestBody, AllFramed;
    match a
    case Read(c) => ReadIsPolite(s, c);
    case Open => NothingFramed();
    case Send(c, m) =>
      LinkIsOk(s, c);
      PoliteLink(s.links[c], Write(m, s.mode));
    case _ =>
  }

  /** In every run whose callers wait for the Connect function, every announced connection reads as meant. */
  lemma {:induction false} ModeAgreement(states: seq<Client>, actions: seq<Action>, n: nat, c: nat)
    requires Run(states, actions) && Patient(states, actions)
    requires n < |states| && c < |states[n].links| && states[n].links[c].announced
    ensures ReadsAsMeant(states[n], states[n].links[c])
  {
    hide ReadsAsMeant, AllFramed, Run;
    PatientIsPolite(states, actions, n);
    ReadsAsMeantExactly(states, actions, n, c);
  }

  lemma {:induction false} PatientIsPolite(states: seq<Client>, actions: seq<Action>, n: nat)
    requires Run(states, actions) && Patient(states, actions) && n < |states|
    ensures Polite(states[n])
  {
    hide Run, Apply, Inv, Polite;
    RunStarts(states, actions);
    if n > 0 {
      PatientIsPolite(states, actions, n - 1);
      RunInv(states, actions, n - 1);
      RunStep(states, actions, n - 1);
      PoliteStep(states[n - 1], actions[n - 1]);
    } else {
      NoLinksPolite(states[0]);
    }
  }

  lemma NoLinksPolite(s: Client)
    requires s.links == []
    ensures Polite(s)
  {
  }

  // ----- whose connection the client uses -----

  /** The steps that take the client's connection away. */
  predicate Takes(a: Action) { a.Close? || a.Clean? }

  /** Step `i` opened connection `c`, and none since has taken the client's connection away. */
  ghost predicate OpenedAndKept(states: seq<Client>, actions: seq<Action>, i: nat, n: nat, c: nat) {
    && i < n <= |actions| < |states|
    && actions[i] == Open && c == |states[i].links|
    && forall j :: i < j < n ==> !Takes(actions[j])
  }

  lemma NetStep(s: Client, a: Action)
    requires Enabled(s, a)
    ensures Apply(s, a).net == if a.Open? then Some(|s.links|) else if Takes(a) then None else s.net
    ensures |Apply(s, a).links| == |s.links| + (if a.Open? then 1 else 0)
    ensures a.Open? ==> s.net.None?
  {
    hide AnswerTo, Written, AfterRead, ClientInbound, VerifyMessage, RequestBody;
  }

  /** In every run the client uses a connection exactly from its opening until some reader has cleaned
      up, its own or another's, or the client was closed. */
  lemma {:induction false} CurrentExactly(states: seq<Client>, actions: seq<Action>, n: nat, c: nat)
    requires Run(states, actions) && n < |states|
    ensures states[n].net == Some(c) <==> exists i: nat :: OpenedAndKept(states, actions, i, n, c)
    decreases n
  {
    hide Run, Apply, Enabled;
    RunStarts(states, actions);
    if n > 0 {
      var m := n - 1;
      RunStep(states, actions, m);
      CurrentExactly(states, actions, m, c);
      NetStep(states[m], actions[m]);
      if i: nat :| OpenedAndKept(states, actions, i, m, c) {
        assert !Takes(actions[m]) ==> OpenedAndKept(states, actions, i, n, c);
      }
      if i: nat :| OpenedAndKept(states, actions, i, n, c) {
        assert i < m ==> OpenedAndKept(states, actions, i, m, c);
      }
      if actions[m] == Open && c == |states[m].links| {
        assert OpenedAndKept(states, actions, m, n, c);
      }
    }
  }

  /** Every reader that has yet to clean up is that of the client's own connection. */
  predicate OwnReaders(s: Client) {
    forall c :: 0 <= c < |s.links| && !s.links[c].cleaned ==> s.net == Some(c)
  }

  lemma ReadCleansNothing(s: Client, c: nat, d: nat)
    requires Enabled(s, Read(c)) && d < |s.links|
    ensures |Apply(s, Read(c)).links| == |s.links|
    ensures s.links[d].cleaned ==> Apply(s, Read(c)).links[d].cleaned
  {
    hide AfterRead, ClientInbound, BodyOf;
    var l := s.links[c];
    CleanedStays(l.(arriving := l.arriving[1..]), s.mode, s.session, ClientInbound(BodyOf(l.arriving[0])));
  }

  lemma CleanedStays(l: Link, mode: byte, session: i64, m: Result<Inbound>)
    ensures l.cleaned ==> AfterRead(l, mode, session, m).0.cleaned
  {
    hide OnWire;
  }

  lemma OwnReadersStep(s: Client, a: Action)
    requires OwnReaders(s) && Enabled(s, a) && a != Close
    ensures OwnReaders(Apply(s, a))
  {
    hide OnWire, AnswerTo, DoRead, VerifyMessage;
    NetStep(s, a);
    if a.Read? {
      forall d: nat | d < |s.links| ensures s.links[d].cleaned ==> Apply(s, a).links[d].cleaned {
        ReadCleansNothing(s, a.c, d);
      }
    }
  }

  /** As long as the client is not closed, a reader cleans up after its own connection only. */
  lemma {:induction false} CleansOwnOnly(states: seq<Client>, actions: seq<Action>, n: nat, c: nat)
    requires Run(states, actions) && n < |states| && (forall i :: 0 <= i < n ==> actions[i] != Close)
    ensures OwnReaders(states[n])
    ensures Enabled(states[n], Clean(c)) ==> states[n].net == Some(c)
    decreases n
  {
    hide Run, Apply;
    RunStarts(states, actions);
    if n > 0 {
      RunStep(states, actions, n - 1);
      CleansOwnOnly(states, actions, n - 1, c);
      OwnReadersStep(states[n - 1], actions[n - 1]);
    }
  }

  /** After a close it need not: a client closed and connected again loses its new connection when the
      reader of the old one cleans up. */
  lemma CleanTakesNewer(name: bytes, key: bytes, server: ServerOption)
      returns (states: seq<Client>, actions: seq<Action>)
    requires |name| < TWO_32 && |key| < TWO_32
    ensures Run(states, actions) && actions == [Open, Close, Open, ReaderEnds(0), Clean(0)]
    ensures states[4].net == Some(1) && states[5].net == None
    ensures |states[5].links| == 2 && states[5].links[1] == NewLink()
  {
    hide DoRead, Judged, Written, VerifyMessage, AnswerTo;
    var s0 := Client(name, key, server, 0, 0, [], None);
    var s1 := s0.(links := [NewLink()], net := Some(0));
    var s2 := s1.(net := None);
    var s3 := s2.(links := [NewLink(), NewLink()], net := Some(1));
    var s4 := s3.(links := [Stopped(NewLink()), NewLink()]);
    var s5 := s4.(links := [Stopped(NewLink()).(cleaned := true), NewLink()], net := None);
    states, actions := [s0, s1, s2, s3, s4, s5], [Open, Close, Open, ReaderEnds(0), Clean(0)];
    assert Enabled(s0, Open) && Apply(s0, Open) == s1;
    assert Enabled(s1, Close) && Apply(s1, Close) == s2;
    assert Enabled(s2, Open) && Apply(s2, Open) == s3;
    assert Enabled(s3, ReaderEnds(0)) && Apply(s3, ReaderEnds(0)) == s4;
    assert Enabled(s4, Clean(0)) && Apply(s4, Clean(0)) == s5;
  }
}

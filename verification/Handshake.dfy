/** Connecting: the verify message, the switch to framed traffic, and the verdict a connecting client
    waits for. One client object, any number of connections one after another or overlapping. */
module Handshake {
  import opened Outcomes
  import opened Wire
  import opened Framing
  import opened RetResults
  import opened Messages
  import opened PeerCheck

  // ----- connections of a client -----

  datatype Verdict = Verdict(ok: bool, msg: bytes)

  /** The spawned future that runs the Connect function and reports. */
  datatype Task = NotSpawned | Running | Finished(ok: bool)

  /** What the server puts on a connection once it has a peer. */
  datatype AnyMessage =
    | KeyVerify(answer: Answer)
    | GiveSession(id: i64)
    | CallPeer(tt: byte, cmd: i32, serial: i64, args: seq<bytes>)
    | Reply(ofSerial: i64, result: RetResult)

  type ServerMessage = m: AnyMessage |
    (m.KeyVerify? ==> |m.answer.msg| < TWO_32) && (m.CallPeer? ==> |m.args| < 0x8000_0000)
    witness GiveSession(0)

  function BodyOf(m: ServerMessage): bytes {
    match m
    case KeyVerify(a) => KeyVerifyBody(a.isError, a.msg)
    case GiveSession(id) => SessionIdBody(id)
    case CallPeer(tt, cmd, serial, args) => CallBody(tt, cmd, serial, args)
    case Reply(serial, result) => ResultBody(serial, result)
  }

  /** What a client writes besides the verify message: its own calls, results of the server's calls, and
      the question for the session id. */
  datatype AnyRequest =
    | AskSession
    | Ask(tt: byte, cmd: i32, serial: i64, args: seq<bytes>)
    | Tell(ofSerial: i64, result: RetResult)

  type ClientMessage = m: AnyRequest | m.Ask? ==> m.tt < 3 && |m.args| < 0x8000_0000
    witness AskSession

  function RequestBody(m: ClientMessage): bytes {
    match m
    case AskSession => SessionIdRequest()
    case Ask(tt, cmd, serial, args) => CallBody(tt, cmd, serial, args)
    case Tell(serial, result) => ResultBody(serial, result)
  }

  /** A message and the mode the client was in when it wrote it. */
  datatype Write = Write(m: ClientMessage, mode: byte)

  function OnWire(w: Write): bytes { InMode(w.mode, RequestBody(w.m)) }

  function Wires(ws: seq<Write>): bytes {
    if ws == [] then [] else OnWire(ws[0]) + Wires(ws[1..])
  }

  predicate AllFit(ws: seq<Write>) { forall i :: 0 <= i < |ws| ==> Framable(RequestBody(ws[i].m)) }

  /** One connection. `sent` is every byte the client wrote; `session`, `early` and `later` are history:
      the session id it announced, and what it wrote before and after that. `verified` remembers a
      positive answer. `holdsSender` says the reader still owns the verdict channel; `cleaned`, that it has
      done its `clean_connect`, or never will because it panicked. */
  datatype Link = Link(
    announced: bool,
    session: i64,
    sent: bytes,
    early: seq<Write>,
    later: seq<Write>,
    judged: bool,
    arriving: seq<ServerMessage>,
    reading: bool,
    holdsSender: bool,
    task: Task,
    verified: bool,
    verdicts: seq<Verdict>,
    cleaned: bool)

  /** `net` is the connection the client object uses. */
  datatype Client = Client(
    name: bytes, key: bytes, server: ServerOption, mode: byte, session: i64, links: seq<Link>, net: Option<nat>)

  function NewLink(): Link { Link(false, 0, [], [], [], false, [], true, true, NotSpawned, false, [], false) }

  predicate IsInit(s: Client) {
    |s.name| < TWO_32 && |s.key| < TWO_32 && s.mode == 0 && s.links == [] && s.net == None
  }

  datatype Action =
    | Open
    | Announce(c: nat)
    | JudgePeer(c: nat)
    | ServerSends(c: nat, m: ServerMessage)
    | Read(c: nat)
    | ReaderEnds(c: nat)
    | Clean(c: nat)
    | Close
    | ConnectDone(c: nat, ok: bool, msg: bytes)
    | Send(c: nat, request: ClientMessage)

  /** A client opens a connection only while it has none, and may call on it from that moment on. Results
      and the question for the session id are written by the reader and its handlers. */
  predicate Enabled(s: Client, a: Action) {
    match a
    case Open => s.net.None?
    case Announce(c) => c < |s.links| && s.links[c].reading && !s.links[c].announced
    case JudgePeer(c) => c < |s.links| && !s.links[c].judged && AnswerTo(s.server, s.links[c].sent).Some?
    case ServerSends(c, _) => c < |s.links| && s.links[c].judged
    case Read(c) => c < |s.links| && s.links[c].reading && s.links[c].announced && s.links[c].arriving != []
    case ReaderEnds(c) => c < |s.links| && s.links[c].reading
    case Clean(c) => c < |s.links| && !s.links[c].reading && !s.links[c].cleaned
    case Close => true
    case ConnectDone(c, _, _) => c < |s.links| && s.links[c].task == Running
    case Send(c, m) =>
      c < |s.links| && Framable(RequestBody(m)) && (m.Ask? || (m.Tell? && s.links[c].announced))
  }

  /** The reader gives up; a verdict channel it still holds is closed unused. */
  function Stopped(l: Link): Link { l.(reading := false, holdsSender := false) }

  /** What the client writes on a connection besides the verify message. */
  function Written(l: Link, w: Write): Link {
    if l.announced then l.(sent := l.sent + OnWire(w), later := l.later + [w])
    else l.(sent := l.sent + OnWire(w), early := l.early + [w])
  }

  function Judged(s: Client, l: Link): Link {
    match AnswerTo(s.server, l.sent)
    case Some(answer) => l.(judged := true, arriving := l.arriving + [KeyVerify(answer)])
    case None => l
  }

  /** One turn of `read_buffer`: what a message does to its link, the framing mode and the session id. */
  function AfterRead(l: Link, mode: byte, session: i64, m: Result<Inbound>): (Link, byte, i64) {
    match m
    case Ok(Verified(false, _, framed)) =>
      var newMode := if framed then 1 else mode;
      var w := Written(l, Write(AskSession, newMode)).(verified := true);
      (if l.holdsSender then w.(holdsSender := false, task := Running) else w, newMode, session)
    case Ok(Verified(true, msg, _)) =>
      (Stopped(if l.holdsSender then l.(verdicts := l.verdicts + [Verdict(false, msg)]) else l), mode, session)
    case Ok(SessionId(id)) => (l, mode, id)
    case Ok(Call(tt, _, _, _)) => (if tt > 2 then Stopped(l).(cleaned := true) else l, mode, session)
    case Ok(ResultOf(_, _)) => (l, mode, session)
    case _ => (Stopped(l), mode, session)
  }

  function DoRead(s: Client, c: nat): Client
    requires c < |s.links| && s.links[c].arriving != []
  {
    var l := s.links[c].(arriving := s.links[c].arriving[1..]);
    var (link, mode, session) := AfterRead(l, s.mode, s.session, ClientInbound(BodyOf(s.links[c].arriving[0])));
    s.(mode := mode, session := session, links := s.links[c := link])
  }

  function Apply(s: Client, a: Action): Client
    requires Enabled(s, a)
  {
    match a
    case Open => s.(links := s.links + [NewLink()], net := Some(|s.links|))
    case Announce(c) =>
      var l := s.links[c];
      s.(links := s.links[c :=
           l.(announced := true, session := s.session, sent := l.sent + VerifyMessage(s.name, s.key, s.session))])
    case JudgePeer(c) => s.(links := s.links[c := Judged(s, s.links[c])])
    case ServerSends(c, m) => s.(links := s.links[c := s.links[c].(arriving := s.links[c].arriving + [m])])
    case Read(c) => DoRead(s, c)
    case ReaderEnds(c) => s.(links := s.links[c := Stopped(s.links[c])])
    case Clean(c) => s.(links := s.links[c := s.links[c].(cleaned := true)], net := None)
    case Close => s.(net := None)
    case ConnectDone(c, ok, msg) =>
      s.(links := s.links[c := s.links[c].(task := Finished(ok), verdicts := s.links[c].verdicts + [Verdict(ok, msg)])])
    case Send(c, m) => s.(links := s.links[c := Written(s.links[c], Write(m, s.mode))])
  }

  ghost predicate Run(states: seq<Client>, actions: seq<Action>) {
    && |states| == |actions| + 1
    && IsInit(states[0])
    && forall i :: 0 <= i < |actions| ==>
         Enabled(states[i], actions[i]) && states[i + 1] == Apply(states[i], actions[i])
  }

  lemma RunStep(states: seq<Client>, actions: seq<Action>, k: nat)
    requires Run(states, actions) && k < |actions|
    ensures |states| == |actions| + 1
    ensures Enabled(states[k], actions[k]) && states[k + 1] == Apply(states[k], actions[k])
  {
    hide Apply, Enabled, IsInit;
  }

  lemma RunStarts(states: seq<Client>, actions: seq<Action>)
    requires Run(states, actions)
    ensures |states| == |actions| + 1 && IsInit(states[0])
  {
    hide Apply, Enabled, IsInit;
  }

  // ----- what every step keeps -----

  function Expected(name: bytes, key: bytes, l: Link): bytes {
    Wires(l.early) + if l.announced then VerifyMessage(name, key, l.session) + Wires(l.later) else []
  }

  predicate LinkFits(name: bytes, key: bytes, mode: byte, l: Link) {
    && l.sent == Expected(name, key, l)
    && AllFit(l.early) && AllFit(l.later)
    && (forall i :: 0 <= i < |l.early| ==> l.early[i].m.Ask?)
    && (!l.announced ==> l.later == [] && l.task == NotSpawned)
    && (l.task != NotSpawned ==> mode == 1 && l.verified)
    && (l.holdsSender ==> l.reading && l.task == NotSpawned && l.verdicts == [])
    && (l.task == Running ==> l.verdicts == [])
    && (l.task.Finished? ==> |l.verdicts| == 1 && l.verdicts[0].ok == l.task.ok)
    && (l.task == NotSpawned ==> |l.verdicts| <= 1 && forall k :: 0 <= k < |l.verdicts| ==> !l.verdicts[k].ok)
  }

  predicate LinkOk(s: Client, l: Link) { LinkFits(s.name, s.key, s.mode, l) }

  predicate Inv(s: Client) {
    && |s.name| < TWO_32 && |s.key| < TWO_32
    && forall c :: 0 <= c < |s.links| ==> LinkOk(s, s.links[c])
  }

  lemma {:induction false} WiresSnoc(ws: seq<Write>, w: Write)
    ensures Wires(ws + [w]) == Wires(ws) + OnWire(w)
  {
    hide OnWire;
    if ws == [] {
      assert ws + [w] == [w] && Wires([w]) == OnWire(w) + Wires([]);
    } else {
      assert (ws + [w])[1..] == ws[1..] + [w];
      WiresSnoc(ws[1..], w);
      Assoc(OnWire(ws[0]), Wires(ws[1..]), OnWire(w));
    }
  }

  lemma WrittenExpected(name: bytes, key: bytes, l: Link, w: Write)
    requires l.sent == Expected(name, key, l) && AllFit(l.early) && AllFit(l.later) && Framable(RequestBody(w.m))
    requires !l.announced ==> l.later == []
    ensures var u := Written(l, w); u.sent == Expected(name, key, u) && AllFit(u.early) && AllFit(u.later)
  {
    hide Wires, OnWire, VerifyMessage, RequestBody, Framable;
    WiresSnoc(l.early, w);
    WiresSnoc(l.later, w);
    var head := VerifyMessage(name, key, l.session);
    Assoc(Wires(l.early), head + Wires(l.later), OnWire(w));
    Assoc(head, Wires(l.later), OnWire(w));
    assert Wires(l.early) + [] == Wires(l.early) && Wires(l.early + [w]) + [] == Wires(l.early + [w]);
  }

  /** The answer of this server always carries the mode byte, so reading it turns framing on. */
  lemma VerifiedMeansFramed(m: ServerMessage)
    ensures match ClientInbound(BodyOf(m))
            case Ok(Verified(isError, _, framed)) => framed == !isError
            case _ => true
  {
    hide LE, FromLE, ClientInbound, KeyVerifyBody, CallBody, ResultBody, SessionIdBody;
    match m
    case KeyVerify(a) => KeyVerifyRoundTrip(a.isError, a.msg);
    case GiveSession(id) => SessionIdRoundTrip(id);
    case CallPeer(tt, cmd, serial, args) => CallRoundTrip(tt, cmd, serial, args);
    case Reply(serial, result) => ResultMessageRoundTrip(serial, result);
  }

  /** A change to one link keeps the others if the mode does not fall back. */
  lemma OneLinkChanged(s: Client, c: nat, u: Client)
    requires Inv(s) && c < |s.links| == |u.links| && (s.mode == 1 ==> u.mode == 1)
    requires u.name == s.name && u.key == s.key && u.links == s.links[c := u.links[c]]
    requires LinkOk(u, u.links[c])
    ensures Inv(u)
  {
    hide Expected, AllFit;
    forall d | 0 <= d < |u.links| ensures LinkOk(u, u.links[d]) {
      assert LinkOk(s, s.links[d]);
    }
  }

  lemma SessionRequestFits()
    ensures Framable(SessionIdRequest())
  {
    hide LE;
  }

  lemma AfterReadFits(name: bytes, key: bytes, l: Link, mode: byte, session: i64, m: Result<Inbound>)
    requires LinkFits(name, key, mode, l) && l.announced && l.reading
    requires match m case Ok(Verified(isError, _, framed)) => framed == !isError case _ => true
    ensures var (u, newMode, _) := AfterRead(l, mode, session, m);
      LinkFits(name, key, newMode, u) && (mode == 1 ==> newMode == 1)
  {
    hide Wires, VerifyMessage, AllFit, OnWire, SessionIdRequest, Framable;
    SessionRequestFits();
    WrittenExpected(name, key, l, Write(AskSession, 1));
  }

  lemma ReadKeeps(s: Client, c: nat)
    requires Inv(s) && Enabled(s, Read(c))
    ensures Inv(Apply(s, Read(c)))
  {
    hide LinkFits, AfterRead, ClientInbound, BodyOf, Inv;
    LinkIsOk(s, c);
    var l := s.links[c].(arriving := s.links[c].arriving[1..]);
    assert LinkFits(s.name, s.key, s.mode, l) by { PoppedFits(s, s.links[c]); }
    VerifiedMeansFramed(s.links[c].arriving[0]);
    AfterReadFits(s.name, s.key, l, s.mode, s.session, ClientInbound(BodyOf(s.links[c].arriving[0])));
    OneLinkChanged(s, c, Apply(s, Read(c)));
  }

  lemma PoppedFits(s: Client, l: Link)
    requires LinkOk(s, l) && l.announced && l.arriving != []
    ensures LinkFits(s.name, s.key, s.mode, l.(arriving := l.arriving[1..]))
  {
    hide Wires, VerifyMessage, AllFit;
  }

  lemma LinkIsOk(s: Client, c: nat)
    requires Inv(s) && c < |s.links|
    ensures LinkOk(s, s.links[c])
  {
  }

  lemma SendKeeps(s: Client, c: nat, m: ClientMessage)
    requires Inv(s) && Enabled(s, Send(c, m))
    ensures Inv(Apply(s, Send(c, m)))
  {
    hide Expected, AllFit, OnWire, RequestBody, Framable, Inv;
    LinkIsOk(s, c);
    WrittenExpected(s.name, s.key, s.links[c], Write(m, s.mode));
    OneLinkChanged(s, c, Apply(s, Send(c, m)));
  }

  lemma AnnounceKeeps(s: Client, c: nat)
    requires Inv(s) && Enabled(s, Announce(c))
    ensures Inv(Apply(s, Announce(c)))
  {
    hide VerifyMessage, AllFit, Inv;
    LinkIsOk(s, c);
    var l, head := s.links[c], VerifyMessage(s.name, s.key, s.session);
    assert l.sent == Wires(l.early) && head + Wires([]) == head;
    OneLinkChanged(s, c, Apply(s, Announce(c)));
  }

  lemma StepKeepsInv(s: Client, a: Action)
    requires Inv(s) && Enabled(s, a)
    ensures Inv(Apply(s, a))
  {
    hide Wires, VerifyMessage, AnswerTo, AllFit, Inv;
    match a
    case Open => OpenKeeps(s);
    case Announce(c) => AnnounceKeeps(s, c);
    case Read(c) => ReadKeeps(s, c);
    case Send(c, m) => SendKeeps(s, c, m);
    case JudgePeer(c) => LinkIsOk(s, c); OneLinkChanged(s, c, Apply(s, a));
    case ServerSends(c, m) => LinkIsOk(s, c); OneLinkChanged(s, c, Apply(s, a));
    case Clean(c) => LinkIsOk(s, c); OneLinkChanged(s, c, Apply(s, a));
    case Close => CloseKeeps(s);
    case ReaderEnds(c) => LinkIsOk(s, c); OneLinkChanged(s, c, Apply(s, a));
    case ConnectDone(c, ok, msg) => LinkIsOk(s, c); OneLinkChanged(s, c, Apply(s, a));
  }

  lemma CloseKeeps(s: Client)
    requires Inv(s)
    ensures Inv(s.(net := None))
  {
    forall c | 0 <= c < |s.links| ensures LinkOk(s.(net := None), s.links[c]) {
      LinkIsOk(s, c);
    }
  }

  lemma OpenKeeps(s: Client)
    requires Inv(s) && s.net.None?
    ensures Inv(Apply(s, Open))
  {
    hide VerifyMessage;
    var u := Apply(s, Open);
    forall c | 0 <= c < |s.links| ensures LinkOk(u, u.links[c]) {
      LinkIsOk(s, c);
    }
  }

  lemma {:induction false} RunInv(states: seq<Client>, actions: seq<Action>, n: nat)
    requires Run(states, actions) && n < |states|
    ensures Inv(states[n])
  {
    hide Run, Apply, Enabled, LinkFits;
    RunStarts(states, actions);
    if n > 0 {
      RunInv(states, actions, n - 1);
      RunStep(states, actions, n - 1);
      StepKeepsInv(states[n - 1], actions[n - 1]);
    }
  }

  // ----- the verdict -----

  /** What `connect_network` returns to the caller that opened the connection: pending while somebody
      can still send a verdict, an error once nobody can. */
  datatype Wait = Pending | Connected | Refused(msg: bytes) | Abandoned

  function WaitFor(l: Link): Wait {
    if l.verdicts != [] then
      var v := l.verdicts[|l.verdicts| - 1];
      if v.ok then Connected else Refused(v.msg)
    else if l.holdsSender || l.task == Running then Pending
    else Abandoned
  }

  /** At most one verdict is sent on a connection even if verify messages repeat; success means the
      server's verification and the Connect function both succeeded; if the reader ends before any
      verdict and no Connect function is running, the wait fails, so it never hangs. */
  lemma ConnectVerdict(states: seq<Client>, actions: seq<Action>, n: nat, c: nat)
    requires Run(states, actions) && n < |states| && c < |states[n].links|
    ensures var l := states[n].links[c];
      && |l.verdicts| <= 1
      && (WaitFor(l) == Connected <==> l.task == Finished(true))
      && (WaitFor(l) == Connected ==> l.verified && states[n].mode == 1)
      && (!l.reading && l.task != Running ==> WaitFor(l) != Pending)
      && (!l.reading && l.task == NotSpawned ==> WaitFor(l) == Abandoned || WaitFor(l).Refused?)
  {
    hide Run, Expected, AllFit;
    RunInv(states, actions, n);
    LinkIsOk(states[n], c);
  }
}

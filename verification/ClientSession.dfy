/** What each message does to a client, which session it announces, and how its wait for a connection
    comes out. */
module ClientSession {
  import opened Outcomes
  import opened Wire
  import opened Framing
  import opened RetResults
  import opened Messages
  import opened PeerCheck
  import opened Handshake
  import opened ClientTraffic

  // ----- what each message does -----

  /** The client reads a server's message as what the server wrote. */
  lemma ReadAsWritten(m: ServerMessage)
    ensures match m
      case KeyVerify(a) => ClientInbound(BodyOf(m)) == Ok(Verified(a.isError, a.msg, !a.isError))
      case GiveSession(id) => ClientInbound(BodyOf(m)) == Ok(SessionId(id))
      case CallPeer(tt, cmd, serial, args) =>
        ClientInbound(BodyOf(m)).Ok? && ClientInbound(BodyOf(m)).value.Call? && ClientInbound(BodyOf(m)).value.tt == tt
      case Reply(serial, result) => ClientInbound(BodyOf(m)).Ok? && ClientInbound(BodyOf(m)).value.ResultOf?
  {
    hide LE, FromLE, ClientInbound, KeyVerifyBody, CallBody, ResultBody, SessionIdBody;
    match m
    case KeyVerify(a) => KeyVerifyRoundTrip(a.isError, a.msg);
    case GiveSession(id) => SessionIdRoundTrip(id);
    case CallPeer(tt, cmd, serial, args) => CallRoundTrip(tt, cmd, serial, args);
    case Reply(serial, result) => ResultMessageRoundTrip(serial, result);
  }

  /** A refusal ends the reader and is the verdict if none was given; a positive answer turns framing on,
      asks for the session id in one frame and starts the Connect function if it was not started; a session
      id is kept; a call of a type above 2 makes the reader panic, others and results go on. */
  lemma EachMessageDoes(s: Client, c: nat)
    requires Enabled(s, Read(c))
    ensures var u, l := Apply(s, Read(c)), s.links[c].(arriving := s.links[c].arriving[1..]);
      && |u.links| == |s.links|
      && (forall d :: 0 <= d < |s.links| && d != c ==> u.links[d] == s.links[d])
      && match s.links[c].arriving[0]
         case KeyVerify(a) =>
           && u.session == s.session
           && u.mode == (if a.isError then s.mode else 1)
           && u.links[c] ==
              if a.isError then
                l.(reading := false, holdsSender := false,
                   verdicts := l.verdicts + if l.holdsSender then [Verdict(false, a.msg)] else [])
              else
                l.(sent := l.sent + Frame(SessionIdRequest()), later := l.later + [Write(AskSession, 1)],
                   verified := true, holdsSender := false, task := if l.holdsSender then Running else l.task)
         case GiveSession(id) => u.session == id && u.mode == s.mode && u.links[c] == l
         case CallPeer(tt, _, _, _) =>
           && u.session == s.session && u.mode == s.mode
           && u.links[c] == if tt > 2 then l.(reading := false, holdsSender := false, cleaned := true) else l
         case Reply(_, _) => u.session == s.session && u.mode == s.mode && u.links[c] == l
  {
    hide ClientInbound, BodyOf, SessionIdRequest, Frame;
    ReadAsWritten(s.links[c].arriving[0]);
    assert s.links[c].verdicts + [] == s.links[c].verdicts;
  }

  /** How the wait comes out: a refused connection with the server's text, an accepted one as the Connect
      function says. */
  lemma VerdictFollows(states: seq<Client>, actions: seq<Action>, n: nat, c: nat, answer: Answer, ok: bool, msg: bytes)
    requires Run(states, actions) && n < |states| && Enabled(states[n], Read(c)) && states[n].links[c].holdsSender
    requires |answer.msg| < TWO_32 && states[n].links[c].arriving[0] == KeyVerify(answer)
    ensures var u := Apply(states[n], Read(c));
      && c < |u.links|
      && (answer.isError ==> WaitFor(u.links[c]) == Refused(answer.msg))
      && (!answer.isError ==>
            && WaitFor(u.links[c]) == Pending && Enabled(u, ConnectDone(c, ok, msg))
            && WaitFor(Apply(u, ConnectDone(c, ok, msg)).links[c]) == if ok then Connected else Refused(msg))
  {
    hide Run, DoRead, Expected, AllFit;
    RunInv(states, actions, n);
    LinkIsOk(states[n], c);
    EachMessageDoes(states[n], c);
  }

  /** A reader that ends before any answer leaves nobody waiting: the wait ends as abandoned. */
  lemma EndedUnanswered(states: seq<Client>, actions: seq<Action>, n: nat, c: nat)
    requires Run(states, actions) && n < |states| && c < |states[n].links|
    requires Enabled(states[n], ReaderEnds(c)) && states[n].links[c].holdsSender
    ensures var u := Apply(states[n], ReaderEnds(c)); c < |u.links| && WaitFor(u.links[c]) == Abandoned
  {
    hide Run, Expected, AllFit;
    RunInv(states, actions, n);
    LinkIsOk(states[n], c);
  }

  // ----- the session -----

  /** Step `j` takes a session id off some link. */
  predicate GivenAt(states: seq<Client>, actions: seq<Action>, j: nat) {
    && j < |actions| && j < |states| && actions[j].Read? && actions[j].c < |states[j].links|
    && states[j].links[actions[j].c].arriving != []
    && states[j].links[actions[j].c].arriving[0].GiveSession?
  }

  function IdAt(states: seq<Client>, actions: seq<Action>, j: nat): i64
    requires GivenAt(states, actions, j)
  {
    states[j].links[actions[j].c].arriving[0].id
  }

  /** `id` was the last session id taken before state `n`, or the initial one if none was. */
  ghost predicate LastGiven(states: seq<Client>, actions: seq<Action>, n: nat, id: i64)
    requires |states| > 0
  {
    || (exists j: nat :: j < n && GivenAt(states, actions, j) && IdAt(states, actions, j) == id
          && forall k: nat :: j < k < n ==> !GivenAt(states, actions, k))
    || (id == states[0].session && forall k: nat :: k < n ==> !GivenAt(states, actions, k))
  }

  lemma SessionStep(s: Client, a: Action)
    requires Enabled(s, a)
    ensures Apply(s, a).session
         == if a.Read? && s.links[a.c].arriving[0].GiveSession? then s.links[a.c].arriving[0].id else s.session
  {
    hide DoRead, AnswerTo, VerifyMessage, OnWire, BodyOf;
    if a.Read? {
      EachMessageDoes(s, a.c);
    }
  }

  /** In every run the client's session is the id it was given last, on whichever connection. */
  lemma {:induction false} SessionIsLastGiven(states: seq<Client>, actions: seq<Action>, n: nat)
    requires Run(states, actions) && n <= |actions|
    ensures |states| > n && LastGiven(states, actions, n, states[n].session)
    decreases n
  {
    hide Run, Apply;
    RunStarts(states, actions);
    if n > 0 {
      var m := n - 1;
      SessionIsLastGiven(states, actions, m);
      RunStep(states, actions, m);
      SessionStep(states[m], actions[m]);
      if GivenAt(states, actions, m) {
        assert IdAt(states, actions, m) == states[n].session;
      } else {
        assert states[n].session == states[m].session;
      }
    }
  }

  lemma AnnounceStep(s: Client, a: Action, c: nat)
    requires Enabled(s, a) && c < |Apply(s, a).links| && Apply(s, a).links[c].announced
    ensures a == Announce(c) ==> Apply(s, a).links[c].session == s.session
    ensures a != Announce(c) ==>
      c < |s.links| && s.links[c].announced && Apply(s, a).links[c].session == s.links[c].session
  {
    hide DoRead, BodyOf, AnswerTo, VerifyMessage, OnWire, RequestBody;
    if a.Read? {
      EachMessageDoes(s, a.c);
    }
  }

  lemma {:induction false} AnnouncedAt(states: seq<Client>, actions: seq<Action>, n: nat, c: nat) returns (k: nat)
    requires Run(states, actions) && n < |states| && c < |states[n].links| && states[n].links[c].announced
    ensures k < n && actions[k] == Announce(c) && states[n].links[c].session == states[k].session
    decreases n
  {
    hide Run, Apply, Enabled;
    RunStarts(states, actions);
    RunStep(states, actions, n - 1);
    AnnounceStep(states[n - 1], actions[n - 1], c);
    if actions[n - 1] == Announce(c) {
      k := n - 1;
    } else {
      k := AnnouncedAt(states, actions, n - 1, c);
    }
  }

  /** In every run, what the server reads of an announced connection's verify message, if nothing was
      written before it, is the client's name and key and the session id that was last taken, on whichever
      connection, before that connection was announced. */
  lemma AnnouncesLastSession(states: seq<Client>, actions: seq<Action>, n: nat, c: nat) returns (k: nat)
    requires Run(states, actions) && n < |states| && c < |states[n].links|
    requires states[n].links[c].announced && states[n].links[c].early == []
    ensures k < n && actions[k] == Announce(c)
    ensures var s, l := states[n], states[n].links[c];
      && TakeVerify(l.sent).Ok?
      && TakeVerify(l.sent).value.0.0 == s.name && TakeVerify(l.sent).value.0.1 == s.key
      && LastGiven(states, actions, k, TakeVerify(l.sent).value.0.2)
  {
    hide LE, FromLE, Wires, VerifyMessage, TakeVerify, AllFit, Run, LastGiven;
    RunStarts(states, actions);
    RunInv(states, actions, n);
    var s, l := states[n], states[n].links[c];
    LinkIsOk(s, c);
    EarlyNothing(l);
    VerifyRoundTrip(s.name, s.key, l.session, Wires(l.later));
    k := AnnouncedAt(states, actions, n, c);
    SessionIsLastGiven(states, actions, k);
  }

  // ----- the mode -----

  /** Step `j` takes a positive key answer off some link. */
  predicate AcceptedAt(states: seq<Client>, actions: seq<Action>, j: nat) {
    && j < |actions| && j < |states| && actions[j].Read? && actions[j].c < |states[j].links|
    && states[j].links[actions[j].c].arriving != []
    && states[j].links[actions[j].c].arriving[0].KeyVerify?
    && !states[j].links[actions[j].c].arriving[0].answer.isError
  }

  lemma ModeStep(s: Client, a: Action)
    requires Enabled(s, a)
    ensures Apply(s, a).mode
         == if a.Read? && s.links[a.c].arriving[0].KeyVerify? && !s.links[a.c].arriving[0].answer.isError then 1
            else s.mode
  {
    hide DoRead, AnswerTo, VerifyMessage, OnWire, BodyOf;
    if a.Read? {
      EachMessageDoes(s, a.c);
    }
  }

  /** In every run the mode is 0 until a reader has taken the first positive key answer, off whichever
      connection, and 1 from then on, over every reconnect. */
  lemma {:induction false} ModeExactly(states: seq<Client>, actions: seq<Action>, n: nat)
    requires Run(states, actions) && n <= |actions|
    ensures |states| > n && (states[n].mode == 0 || states[n].mode == 1)
    ensures states[n].mode == 1 <==> exists j: nat :: j < n && AcceptedAt(states, actions, j)
    decreases n
  {
    hide Run, Apply;
    RunStarts(states, actions);
    if n > 0 {
      ModeExactly(states, actions, n - 1);
      RunStep(states, actions, n - 1);
      ModeStep(states[n - 1], actions[n - 1]);
      assert AcceptedAt(states, actions, n - 1) ==> states[n].mode == 1;
    }
  }

  lemma SendStep(s: Client, c: nat, m: ClientMessage)
    requires Enabled(s, Send(c, m))
    ensures var u := Apply(s, Send(c, m));
      && c < |s.links| == |u.links|
      && u.links[c].sent == s.links[c].sent
         + (if s.mode == 0 then RequestBody(m) else PutU32(|RequestBody(m)| + 4) + RequestBody(m))
      && forall d :: 0 <= d < |s.links| && d != c ==> u.links[d] == s.links[d]
  {
    OnWireIs(m, s.mode);
    hide OnWire, RequestBody, PutU32, DoRead, Judged, AnswerTo, VerifyMessage;
  }

  lemma OnWireIs(m: ClientMessage, mode: byte)
    requires Framable(RequestBody(m))
    ensures OnWire(Write(m, mode))
         == if mode == 0 then RequestBody(m) else PutU32(|RequestBody(m)| + 4) + RequestBody(m)
  {
    hide RequestBody, PutU32;
    HeaderRoundTrip(RequestBody(m));
  }

  /** In every run a write goes out bare if no positive key answer has been read, and as one frame
      otherwise. */
  lemma WritesInMode(states: seq<Client>, actions: seq<Action>, n: nat, c: nat, m: ClientMessage)
    requires Run(states, actions) && n < |actions| && actions[n] == Send(c, m)
    ensures |states| == |actions| + 1 && c < |states[n].links| == |states[n + 1].links|
    ensures states[n + 1].links[c].sent == states[n].links[c].sent
         + if exists j: nat :: j < n && AcceptedAt(states, actions, j)
           then PutU32(|RequestBody(m)| + 4) + RequestBody(m) else RequestBody(m)
    ensures forall d :: 0 <= d < |states[n].links| && d != c ==> states[n + 1].links[d] == states[n].links[d]
  {
    RunStep(states, actions, n);
    SendStep(states[n], c, m);
    hide Run, Apply, RequestBody, PutU32, AcceptedAt;
    ModeExactly(states, actions, n);
  }

  // ----- messages arrive in order -----

  /** What a step puts on connection `c`: an answer to the verify message, or a message of the session. */
  function PutBy(s: Client, a: Action, c: nat): seq<ServerMessage> {
    match a
    case ServerSends(d, m) => if d == c then [m] else []
    case JudgePeer(d) =>
      if d == c && c < |s.links| && AnswerTo(s.server, s.links[c].sent).Some?
      then [KeyVerify(AnswerTo(s.server, s.links[c].sent).value)] else []
    case _ => []
  }

  /** What a step takes off it. */
  function TakenBy(s: Client, a: Action, c: nat): seq<ServerMessage> {
    if a == Read(c) && Arriving(s, c) != [] then [Arriving(s, c)[0]] else []
  }

  function Arriving(s: Client, c: nat): seq<ServerMessage> {
    if c < |s.links| then s.links[c].arriving else []
  }

  /** What the steps before state `n` have put on connection `c`. */
  function Put(states: seq<Client>, actions: seq<Action>, n: nat, c: nat): seq<ServerMessage>
    requires n <= |actions| && n < |states|
  {
    if n == 0 then [] else Put(states, actions, n - 1, c) + PutBy(states[n - 1], actions[n - 1], c)
  }

  /** What they have taken off it. */
  function Taken(states: seq<Client>, actions: seq<Action>, n: nat, c: nat): seq<ServerMessage>
    requires n <= |actions| && n < |states|
  {
    if n == 0 then [] else Taken(states, actions, n - 1, c) + TakenBy(states[n - 1], actions[n - 1], c)
  }

  lemma ReadTakes(s: Client, c: nat, d: nat)
    requires Enabled(s, Read(c))
    ensures Arriving(Apply(s, Read(c)), d) == if d == c then s.links[c].arriving[1..] else Arriving(s, d)
  {
    hide Apply, Frame, SessionIdRequest;
    EachMessageDoes(s, c);
  }

  lemma OthersKeep(s: Client, a: Action, c: nat)
    requires Enabled(s, a) && !a.Read?
    ensures Arriving(s, c) + PutBy(s, a, c) == Arriving(Apply(s, a), c)
  {
    hide DoRead, AnswerTo, VerifyMessage, OnWire;
  }

  lemma StepInOrder(s: Client, a: Action, c: nat)
    requires Enabled(s, a)
    ensures Arriving(s, c) + PutBy(s, a, c) == TakenBy(s, a, c) + Arriving(Apply(s, a), c)
  {
    hide Apply;
    if a.Read? {
      ReadTakes(s, a.c, c);
    } else {
      OthersKeep(s, a, c);
    }
  }

  /** In every run, what the client has taken off a connection, followed by what is still on its way, is
      exactly what the server has put on it, in order. */
  lemma {:induction false} MessagesInOrder(states: seq<Client>, actions: seq<Action>, n: nat, c: nat)
    requires Run(states, actions) && n <= |actions| && n < |states|
    ensures Put(states, actions, n, c) == Taken(states, actions, n, c) + Arriving(states[n], c)
    decreases n
  {
    hide Run, Apply, PutBy, TakenBy;
    RunStarts(states, actions);
    if n > 0 {
      var m := n - 1;
      MessagesInOrder(states, actions, m, c);
      RunStep(states, actions, m);
      StepInOrder(states[m], actions[m], c);
      var taken := Taken(states, actions, m, c);
      Assoc(taken, Arriving(states[m], c), PutBy(states[m], actions[m], c));
      Assoc(taken, TakenBy(states[m], actions[m], c), Arriving(states[n], c));
    }
  }
}

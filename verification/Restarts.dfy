/** A client that is restarted and resumes its session: a new client object with a new serial counter,
    while handlers begun for the old one still run on the server and answer on whatever connection their
    token has by then. This says when a caller can get the reply to another object's call. */
module Restarts {
  import opened Outcomes
  import opened Wire
  import opened TimedQueue
  import opened Requests
  import opened CM = CallMachine
  import CI = CallInvariant

  /** The calls of the current object, and what is left of earlier objects' calls. `own` are the current
      object's connections, `used` those of all objects so far. */
  datatype World = World(client: State, stale: seq<Item>, own: set<Conn>, used: set<Conn>)

  predicate Begins(w: World) {
    IsInit(w.client) && w.stale == [] && w.own == {} && w.used == {}
  }

  datatype Move =
    | Do(a: Action)
    | Restart
    | StaleDeliver(k: nat)
    | StaleFinish(k: nat, payload: bytes)
    | StaleReturn(k: nat)
    | StaleLose(k: nat)

  /** Every connection is opened once, by one object, and only that object reads it; a token's peer is
      some opened connection. */
  predicate Possible(w: World, m: Move) {
    match m
    case Do(a) =>
      && Enabled(w.client, a)
      && (a.SetNet? && a.net.Some? ==> a.net.value !in w.used)
      && (a.SetPeer? && a.peer.Some? ==> a.peer.value in w.used)
      && (a.Return? ==> w.client.flight[a.k].conn in w.own)
    case Restart => true
    case StaleDeliver(k) => k < |w.stale| && w.stale[k].OnRequestWire? && Oldest(w.stale, k)
    case StaleFinish(k, _) => k < |w.stale| && w.stale[k].Executing?
    case StaleReturn(k) => k < |w.stale| && w.stale[k].OnReplyWire? && w.stale[k].conn in w.own && Oldest(w.stale, k)
    case StaleLose(k) => k < |w.stale| && !w.stale[k].Executing? && Newest(w.stale, k)
  }

  /** A new object: nothing pending, serials from 1 again. Time and the token's peer go on. */
  function NewObject(s: State): State {
    CM.State(s.limit, s.now, 1, None, s.peer, [], Table(map[], []), Idle, s.now, s.now, [], [], [])
  }

  function DoStaleFinish(w: World, k: nat, payload: bytes): World
    requires k < |w.stale| && w.stale[k].Executing?
  {
    var m := w.stale[k];
    w.(stale := Without(w.stale, k)
       + if TwoWay(m.req) && w.client.peer.Some? then
           [OnReplyWire(m.owner, m.serial, w.client.peer.value, payload)] else [])
  }

  function Moved(w: World, m: Move): World
    requires Possible(w, m)
  {
    match m
    case Do(a) =>
      var opens := if a.SetNet? && a.net.Some? then {a.net.value} else {};
      w.(client := Apply(w.client, a), own := w.own + opens, used := w.used + opens)
    case Restart => World(NewObject(w.client), w.stale + w.client.flight, {}, w.used)
    case StaleDeliver(k) =>
      w.(stale := w.stale[k := Executing(w.stale[k].owner, w.stale[k].serial, w.stale[k].req)])
    case StaleFinish(k, payload) => DoStaleFinish(w, k, payload)
    case StaleReturn(k) =>
      w.(stale := Without(w.stale, k), client := Answer(w.client, w.stale[k].serial, Ok(w.stale[k].payload)))
    case StaleLose(k) => w.(stale := Without(w.stale, k))
  }

  ghost predicate Running(worlds: seq<World>, moves: seq<Move>) {
    && |worlds| == |moves| + 1
    && Begins(worlds[0])
    && forall i :: 0 <= i < |moves| ==> Possible(worlds[i], moves[i]) && worlds[i + 1] == Moved(worlds[i], moves[i])
  }

  lemma RunningStep(worlds: seq<World>, moves: seq<Move>, k: nat)
    requires Running(worlds, moves) && k < |moves|
    ensures |worlds| == |moves| + 1
    ensures Possible(worlds[k], moves[k]) && worlds[k + 1] == Moved(worlds[k], moves[k])
  {
    hide Moved, Possible, Begins;
  }

  lemma RunningStarts(worlds: seq<World>, moves: seq<Move>)
    requires Running(worlds, moves)
    ensures |worlds| == |moves| + 1 && Begins(worlds[0])
  {
    hide Moved, Possible, Begins;
  }

  // ----- without a stray reply -----

  /** A reply to an earlier object's call reaches a caller of the current one. */
  predicate Strays(w: World, m: Move) {
    m.StaleReturn? && m.k < |w.stale| && w.stale[m.k].serial in w.client.table.dict
  }

  lemma NewObjectInv(s: State)
    ensures CI.Inv(NewObject(s))
  {
  }

  lemma AnswerNobody(s: State, serial: int, reply: Reply)
    requires serial !in s.table.dict
    ensures Answer(s, serial, reply) == s
  {
    assert s.table.dict - {serial} == s.table.dict;
  }

  lemma MoveKeepsInv(w: World, m: Move)
    requires Possible(w, m) && !Strays(w, m) && (m == Restart || CI.Inv(w.client))
    ensures CI.Inv(Moved(w, m).client)
  {
    hide CI.Inv, Apply, Enabled;
    match m
    case Do(a) => CI.StepKeepsInv(w.client, a);
    case Restart => NewObjectInv(w.client);
    case StaleReturn(k) => AnswerNobody(w.client, w.stale[k].serial, Ok(w.stale[k].payload));
    case _ =>
  }

  /** Since the object's start, at `r`, no stray reply has reached its callers. */
  lemma {:induction false} InvUnlessStray(worlds: seq<World>, moves: seq<Move>, r: nat, n: nat)
    requires Running(worlds, moves) && r <= n <= |moves| && (r == 0 || moves[r - 1] == Restart)
    requires forall k :: r <= k < n ==> !Strays(worlds[k], moves[k])
    ensures CI.Inv(worlds[n].client)
    decreases n
  {
    hide Running, Moved, Possible, Strays, CI.Inv;
    RunningStarts(worlds, moves);
    if r < n {
      InvUnlessStray(worlds, moves, r, n - 1);
      RunningStep(worlds, moves, n - 1);
      MoveKeepsInv(worlds[n - 1], moves[n - 1]);
    } else if r == 0 {
      StartInv(worlds[0]);
    } else {
      RunningStep(worlds, moves, r - 1);
      NoStrayAtRestart(worlds[r - 1]);
      MoveKeepsInv(worlds[r - 1], Restart);
    }
  }

  lemma StartInv(w: World)
    requires Begins(w)
    ensures CI.Inv(w.client)
  {
    CI.InitInv(w.client);
  }

  lemma NoStrayAtRestart(w: World)
    ensures Possible(w, Restart) && !Strays(w, Restart)
  {
  }

  /** So in every run, with any number of restarts, a caller whose object no stray reply has reached gets
      what the one execution of its own request produced, or an error of its own. */
  lemma OutcomeIsOwnUnlessStray(worlds: seq<World>, moves: seq<Move>, r: nat, n: nat, i: nat)
    requires Running(worlds, moves) && r <= n <= |moves| && (r == 0 || moves[r - 1] == Restart)
    requires forall k :: r <= k < n ==> !Strays(worlds[k], moves[k])
    requires i < |worlds[n].client.callers|
    requires worlds[n].client.callers[i].phase.Done? && TwoWay(worlds[n].client.callers[i].req)
    ensures var s, c := worlds[n].client, worlds[n].client.callers[i];
      match c.phase.outcome
      case Ok(payload) => c.stage == Ended(payload) && Start(i, c.serial, c.req) in s.started
      case Err(e) => e == NotConnect || e == NetError || e == SerialTimeOut(c.serial)
  {
    hide Running;
    RunningStarts(worlds, moves);
    InvUnlessStray(worlds, moves, r, n);
    assert CI.CallerOk(worlds[n].client.callers[i]);
  }

  // ----- when a stray reply can come -----

  /** An earlier object's call that can still be answered to the current object under `serial`. */
  predicate CanStray(m: Item, serial: int, own: set<Conn>) {
    m.serial == serial && if m.OnReplyWire? then m.conn in own else TwoWay(m.req)
  }

  predicate Threatened(w: World, serial: int) {
    exists k :: 0 <= k < |w.stale| && CanStray(w.stale[k], serial, w.own)
  }

  predicate RepliesIn(flight: seq<Item>, used: set<Conn>) {
    forall k :: 0 <= k < |flight| && flight[k].OnReplyWire? ==> flight[k].conn in used
  }

  /** Replies are only on connections that some object has opened. */
  predicate ConnsOk(w: World) {
    && RepliesIn(w.stale, w.used) && RepliesIn(w.client.flight, w.used)
    && (w.client.peer.Some? ==> w.client.peer.value in w.used)
  }

  lemma RepliesWithout(flight: seq<Item>, k: nat, used: set<Conn>)
    requires RepliesIn(flight, used) && k < |flight|
    ensures RepliesIn(Without(flight, k), used)
  {
  }

  lemma FlightAfter(s: State, a: Action, used: set<Conn>)
    requires Enabled(s, a) && RepliesIn(s.flight, used) && (s.peer.Some? ==> s.peer.value in used)
    ensures RepliesIn(Apply(s, a).flight, used)
    ensures Apply(s, a).peer == if a.SetPeer? then a.peer else s.peer
  {
    hide Due, Oldest, Newest;
  }

  lemma MoveKeepsConns(w: World, m: Move)
    requires ConnsOk(w) && Possible(w, m)
    ensures ConnsOk(Moved(w, m))
  {
    hide Apply, Enabled, Oldest, Newest;
    match m
    case Do(a) => FlightAfter(w.client, a, w.used);
    case StaleFinish(k, payload) => RepliesWithout(w.stale, k, w.used);
    case StaleReturn(k) => RepliesWithout(w.stale, k, w.used);
    case StaleLose(k) => RepliesWithout(w.stale, k, w.used);
    case _ =>
  }

  lemma {:induction false} RunConns(worlds: seq<World>, moves: seq<Move>, n: nat)
    requires Running(worlds, moves) && n <= |moves|
    ensures ConnsOk(worlds[n])
  {
    hide Running, Moved, Possible, ConnsOk;
    RunningStarts(worlds, moves);
    if n > 0 {
      RunConns(worlds, moves, n - 1);
      RunningStep(worlds, moves, n - 1);
      MoveKeepsConns(worlds[n - 1], moves[n - 1]);
    } else {
      NoConns(worlds[0]);
    }
  }

  lemma NoConns(w: World)
    requires Begins(w)
    ensures ConnsOk(w)
  {
  }

  /** Without a restart no threat arises that was not there. */
  lemma UnthreatenedStays(w: World, m: Move, serial: int)
    requires ConnsOk(w) && Possible(w, m) && m != Restart && !Threatened(w, serial)
    ensures !Threatened(Moved(w, m), serial)
  {
    hide Apply, Enabled, Oldest, Newest, Answer;
    var u := Moved(w, m);
    forall j | 0 <= j < |u.stale| ensures !CanStray(u.stale[j], serial, u.own) {
      if m.StaleFinish? || m.StaleReturn? || m.StaleLose? {
        assert !CanStray(w.stale[m.k], serial, w.own);
        if j < |w.stale| - 1 {
          WithoutIsPart(w.stale, m.k, j);
          assert !CanStray(w.stale[if j < m.k then j else j + 1], serial, w.own);
        }
      } else {
        assert !CanStray(w.stale[j], serial, w.own);
      }
    }
  }

  ghost predicate Leads(w: World, moves: seq<Move>, u: World)
    decreases |moves|
  {
    if moves == [] then w == u
    else Possible(w, moves[0]) && Leads(Moved(w, moves[0]), moves[1..], u)
  }

  predicate StrayAt(u: World, k: nat, serial: int) {
    Possible(u, StaleReturn(k)) && Strays(u, StaleReturn(k)) && u.stale[k].serial == serial
  }

  /** From here, without another restart, the caller that waits under `serial` gets a stray reply. */
  ghost predicate StrayAhead(w: World, serial: int) {
    exists moves, u, k: nat :: Leads(w, moves, u) && Restart !in moves && StrayAt(u, k, serial)
  }

  lemma ThreatWasThere(w: World, m: Move, serial: int)
    requires ConnsOk(w) && Possible(w, m) && m != Restart && Threatened(Moved(w, m), serial)
    ensures Threatened(w, serial)
  {
    hide ConnsOk, Threatened, Moved, Possible;
    if !Threatened(w, serial) {
      UnthreatenedStays(w, m, serial);
    }
  }

  lemma {:induction false} ThreatLeads(w: World, moves: seq<Move>, u: World, serial: int)
    requires ConnsOk(w) && Threatened(u, serial) && Leads(w, moves, u) && Restart !in moves
    ensures Threatened(w, serial)
    decreases |moves|
  {
    hide ConnsOk, Threatened, Moved, Possible;
    if moves != [] {
      MoveKeepsConns(w, moves[0]);
      ThreatLeads(Moved(w, moves[0]), moves[1..], u, serial);
      ThreatWasThere(w, moves[0], serial);
    }
  }

  lemma AheadAfter(w: World, m: Move, serial: int)
    requires Possible(w, m) && m != Restart && StrayAhead(Moved(w, m), serial)
    ensures StrayAhead(w, serial)
  {
    hide Moved, Possible, StrayAt;
    var moves, u, k: nat :| Leads(Moved(w, m), moves, u) && Restart !in moves && StrayAt(u, k, serial);
    assert ([m] + moves)[1..] == moves;
    assert Leads(w, [m] + moves, u);
  }

  lemma AheadNow(w: World, k: nat)
    requires Possible(w, StaleReturn(k)) && Strays(w, StaleReturn(k))
    ensures StrayAhead(w, w.stale[k].serial)
  {
    assert Leads(w, [], w) && StrayAt(w, k, w.stale[k].serial);
  }

  /** A reply on its way to the current object arrives, once those before it on its wire have. */
  lemma {:induction false} ReplyArrives(w: World, k: nat)
    requires k < |w.stale| && w.stale[k].OnReplyWire? && w.stale[k].conn in w.own
    requires w.stale[k].serial in w.client.table.dict
    ensures StrayAhead(w, w.stale[k].serial)
    decreases |w.stale|
  {
    hide Oldest, StrayAhead;
    var j := FirstOnWire(w.stale, k);
    if w.stale[j].serial == w.stale[k].serial {
      AheadNow(w, j);
    } else {
      var u := Moved(w, StaleReturn(j));
      WithoutIsPart(w.stale, j, k - 1);
      AnswerLeavesOthers(w.client, w.stale[j].serial, w.stale[k].serial, Ok(w.stale[j].payload));
      ReplyArrives(u, k - 1);
      AheadAfter(w, StaleReturn(j), w.stale[k].serial);
    }
  }

  lemma AnswerLeavesOthers(s: State, serial: int, other: int, reply: Reply)
    requires other in s.table.dict && serial != other
    ensures other in Answer(s, serial, reply).table.dict
  {
  }

  lemma {:induction false} FreshConn(used: set<Conn>) returns (c: Conn)
    ensures forall d :: d in used ==> d < c
  {
    if used == {} {
      c := 0;
    } else {
      var d :| d in used;
      var b := FreshConn(used - {d});
      assert forall x :: x in used ==> x == d || x in used - {d};
      c := if d < b then b else d + 1;
    }
  }

  /** A handler of an earlier object ends after the token has got a connection of the current one. */
  lemma HandlerAnswers(w: World, k: nat)
    requires ConnsOk(w) && k < |w.stale| && w.stale[k].Executing? && TwoWay(w.stale[k].req)
    requires w.stale[k].serial in w.client.table.dict
    ensures StrayAhead(w, w.stale[k].serial)
  {
    hide StrayAhead, Oldest, Newest, ConnsOk;
    var serial := w.stale[k].serial;
    var c := FreshConn(w.used);
    var open, attach := Do(SetNet(Some(c))), Do(SetPeer(Some(c)));
    var w1 := Moved(w, open);
    var w2 := Moved(w1, attach);
    var w3 := Moved(w2, StaleFinish(k, []));
    var last := |w3.stale| - 1;
    assert w3.stale[last] == OnReplyWire(w.stale[k].owner, serial, c, []);
    ReplyArrives(w3, last);
    AheadAfter(w2, StaleFinish(k, []), serial);
    AheadAfter(w1, attach, serial);
    AheadAfter(w, open, serial);
  }

  /** A request of an earlier object is begun, once those before it on its wire have been. */
  lemma {:induction false} RequestAnswers(w: World, k: nat, i: nat)
    requires ConnsOk(w) && i <= k < |w.stale| && w.stale[k].OnRequestWire? && TwoWay(w.stale[k].req)
    requires forall j :: 0 <= j < i ==> !SameWire(w.stale[j], w.stale[k])
    requires w.stale[k].serial in w.client.table.dict
    ensures StrayAhead(w, w.stale[k].serial)
    decreases k - i
  {
    hide StrayAhead, ConnsOk;
    if i == k || SameWire(w.stale[i], w.stale[k]) {
      assert Oldest(w.stale, i);
      var u := Moved(w, StaleDeliver(i));
      MoveKeepsConns(w, StaleDeliver(i));
      if i == k {
        HandlerAnswers(u, k);
      } else {
        RequestAnswers(u, k, i + 1);
      }
      AheadAfter(w, StaleDeliver(i), w.stale[k].serial);
    } else {
      RequestAnswers(w, k, i + 1);
    }
  }

  lemma StrayIsThreat(w: World, serial: int)
    requires ConnsOk(w) && StrayAhead(w, serial)
    ensures Threatened(w, serial)
  {
    hide ConnsOk;
    var moves, u, k: nat :| Leads(w, moves, u) && Restart !in moves && StrayAt(u, k, serial);
    assert CanStray(u.stale[k], serial, u.own);
    ThreatLeads(w, moves, u, serial);
  }

  /** A caller that waits under a serial can still get the reply to an earlier object's call exactly if a
      two-way call with that serial is left of an earlier object: on its way to the server, being handled
      there, or answered onto a connection of the current object. */
  lemma StrayExactly(w: World, serial: int)
    requires ConnsOk(w) && serial in w.client.table.dict
    ensures StrayAhead(w, serial) <==> Threatened(w, serial)
  {
    hide ConnsOk;
    if Threatened(w, serial) {
      var k: nat :| k < |w.stale| && CanStray(w.stale[k], serial, w.own);
      match w.stale[k]
      case OnRequestWire(_, _, _, _) => RequestAnswers(w, k, 0);
      case Executing(_, _, _) => HandlerAnswers(w, k);
      case OnReplyWire(_, _, _, _) => ReplyArrives(w, k);
    } else if StrayAhead(w, serial) {
      StrayIsThreat(w, serial);
    }
  }

  /** The same at any point of any run. */
  lemma StrayExactlyInRuns(worlds: seq<World>, moves: seq<Move>, n: nat, serial: int)
    requires Running(worlds, moves) && n <= |moves| && serial in worlds[n].client.table.dict
    ensures StrayAhead(worlds[n], serial) <==> Threatened(worlds[n], serial)
  {
    hide Running, StrayAhead, Threatened;
    RunningStarts(worlds, moves);
    RunConns(worlds, moves, n);
    StrayExactly(worlds[n], serial);
  }

  /** In every run, once the last frame that could become one is lost, no stray reply under its serial can
      come any more to the current object. */
  lemma LastThreatLost(worlds: seq<World>, moves: seq<Move>, n: nat, k: nat, serial: int)
    requires Running(worlds, moves) && n < |moves| && moves[n] == StaleLose(k)
    requires k < |worlds[n].stale| && serial in worlds[n].client.table.dict
    requires forall j :: 0 <= j < |worlds[n].stale| && j != k ==> !CanStray(worlds[n].stale[j], serial, worlds[n].own)
    ensures !StrayAhead(worlds[n + 1], serial)
  {
    RunningStep(worlds, moves, n);
    var w := worlds[n];
    forall j | 0 <= j < |Without(w.stale, k)| ensures !CanStray(Without(w.stale, k)[j], serial, w.own) {
      WithoutIsPart(w.stale, k, j);
    }
    hide Running, StrayAhead;
    StrayExactlyInRuns(worlds, moves, n + 1, serial);
  }

  // ----- a run in which it can -----

  ghost predicate Reachable(w: World) {
    exists worlds, moves :: Running(worlds, moves) && worlds[|moves|] == w
  }

  lemma Onward(w: World, m: Move, u: World)
    requires Reachable(w) && Possible(w, m) && u == Moved(w, m)
    ensures Reachable(u)
  {
    hide Moved, Possible, Begins;
    var worlds, moves :| Running(worlds, moves) && worlds[|moves|] == w;
    var worlds', moves' := worlds + [u], moves + [m];
    assert Running(worlds', moves') && worlds'[|moves'|] == u;
  }

  /** An object at time 0 whose one caller made a two-way call, on connection `conn`, its peer. */
  function OneCaller(limit: nat, conn: Conn, peer: Option<Conn>, c: Caller, table: Table<nat>, flight: seq<Item>,
                     started: seq<Start>): State
  {
    CM.State(limit, 0, 2, Some(conn), peer, [c], table, Idle, 0, 0, flight, started, [])
  }

  /** Nothing has been called yet. */
  function Before(limit: nat, net: Option<Conn>, peer: Option<Conn>, own: set<Conn>): World {
    World(CM.State(limit, 0, 1, net, peer, [], Table(map[], []), Idle, 0, 0, [], [], []), [], own, own)
  }

  lemma AtTheStart(limit: nat)
    ensures Reachable(Before(limit, None, None, {}))
  {
    var worlds: seq<World>, moves: seq<Move> := [Before(limit, None, None, {})], [];
    assert Running(worlds, moves);
  }

  lemma Opened(limit: nat)
    ensures Reachable(Before(limit, Some(0), Some(0), {0}))
  {
    AtTheStart(limit);
    hide Reachable;
    assert {} + {0} == {0} && {0} + {} == {0};
    Onward(Before(limit, None, None, {}), Do(SetNet(Some(0))), Before(limit, Some(0), None, {0}));
    Onward(Before(limit, Some(0), None, {0}), Do(SetPeer(Some(0))), Before(limit, Some(0), Some(0), {0}));
  }

  lemma Connected(limit: nat, req: Request)
    requires 0 < req.tt < 3
    ensures var c := Caller(1, req, Drawn, None, Unsent, None);
      Reachable(World(OneCaller(limit, 0, Some(0), c, Table(map[], []), [], []), [], {0}, {0}))
  {
    Opened(limit);
    hide Reachable;
    var c := Caller(1, req, Drawn, None, Unsent, None);
    assert [] + [c] == [c] && {0} + {} == {0};
    Onward(Before(limit, Some(0), Some(0), {0}), Do(Draw(req)),
           World(OneCaller(limit, 0, Some(0), c, Table(map[], []), [], []), [], {0}, {0}));
  }

  lemma Registers(w: World, c: Caller)
    requires Reachable(w) && w.client.callers == [c] && c.phase == Drawn && TwoWay(c.req)
    requires w.client.net.Some? && w.client.table == Table(map[], [])
    ensures Reachable(w.(client := w.client.(callers := [c.(phase := Inserted(w.client.net.value))],
                                             table := Table(map[c.serial := 0], []))))
  {
    hide Reachable;
    assert map[][c.serial := 0] == map[c.serial := 0];
    Onward(w, Do(Insert(0)), w.(client := w.client.(callers := [c.(phase := Inserted(w.client.net.value))],
                                                    table := Table(map[c.serial := 0], []))));
  }

  lemma Stamped1(w: World, c: Caller)
    requires Reachable(w) && w.client.callers == [c] && c.phase.Inserted? && w.client.sweeper.Idle?
    ensures Reachable(w.(client := w.client.(callers := [c.(phase := Stamped(c.phase.net))],
                                             table := Enqueued(w.client.table, c.serial, w.client.now))))
  {
    hide Reachable;
    Onward(w, Do(Stamp(0)), w.(client := w.client.(callers := [c.(phase := Stamped(c.phase.net))],
                                                   table := Enqueued(w.client.table, c.serial, w.client.now))));
  }

  lemma SentAndBegun(w: World, c: Caller) returns (u: World)
    requires Reachable(w) && w.client.callers == [c] && c.phase.Stamped? && TwoWay(c.req) && w.client.flight == []
    ensures Reachable(u) && u.stale == w.stale && u.own == w.own && u.used == w.used
    ensures u.client.flight == [Executing(0, c.serial, c.req)] && u.client.limit == w.client.limit
    ensures u.client.now == w.client.now && u.client.peer == w.client.peer
  {
    hide Reachable;
    var m := OnRequestWire(0, c.serial, c.phase.net, c.req);
    var sent := c.(stage := Sent, phase := Waiting);
    var v := w.(client := w.client.(callers := [sent], flight := [m]));
    assert [] + [m] == [m];
    Onward(w, Do(Send(0)), v);
    u := Moved(v, Do(Deliver(0)));
    Onward(v, Do(Deliver(0)), u);
  }

  lemma FirstBegun(limit: nat, req: Request) returns (w: World)
    requires 0 < req.tt < 3
    ensures Reachable(w) && w.stale == [] && w.used == {0}
    ensures w.client.flight == [Executing(0, 1, req)] && w.client.limit == limit
    ensures w.client.now == 0 && w.client.peer == Some(0)
  {
    hide Reachable;
    Connected(limit, req);
    var c := Caller(1, req, Drawn, None, Unsent, None);
    var w0 := World(OneCaller(limit, 0, Some(0), c, Table(map[], []), [], []), [], {0}, {0});
    Registers(w0, c);
    var inserted := c.(phase := Inserted(0));
    var w1 := w0.(client := w0.client.(callers := [inserted], table := Table(map[1 := 0], [])));
    Stamped1(w1, inserted);
    var w2 := w1.(client := w1.client.(callers := [inserted.(phase := Stamped(0))],
                                       table := Enqueued(w1.client.table, 1, 0)));
    w := SentAndBegun(w2, inserted.(phase := Stamped(0)));
  }

  /** A client makes a call and is restarted while the server handles it; the new object makes another
      call, which again gets serial 1. It can be answered with the result of the first. */
  lemma NewCallerGetsOldReply(limit: nat, first: Request, second: Request) returns (w: World)
    requires 0 < first.tt < 3 && 0 < second.tt < 3
    ensures Reachable(w) && w.client.callers == [Caller(1, second, Inserted(1), None, Unsent, None)]
    ensures w.stale == [Executing(0, 1, first)] && StrayAhead(w, 1)
  {
    hide Reachable, StrayAhead;
    var begun := FirstBegun(limit, first);
    var fresh1 := World(NewObject(begun.client), [Executing(0, 1, first)], {}, {0});
    assert [] + [Executing(0, 1, first)] == [Executing(0, 1, first)];
    Onward(begun, Restart, fresh1);
    var c := Caller(1, second, Drawn, None, Unsent, None);
    var open := World(fresh1.client.(net := Some(1)), [Executing(0, 1, first)], {1}, {0, 1});
    var drawn := open.(client := OneCaller(limit, 1, Some(0), c, Table(map[], []), [], []));
    assert {} + {1} == {1} && {0} + {1} == {0, 1};
    Onward(fresh1, Do(SetNet(Some(1))), open);
    Onward(open, Do(Draw(second)), drawn);
    Registers(drawn, c);
    w := drawn.(client := drawn.client.(callers := [c.(phase := Inserted(1))], table := Table(map[1 := 0], [])));
    HandlerAnswers(w, 0);
  }
}

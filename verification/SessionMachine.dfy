/** Sessions on the server: tokens, the connection handlers that hold them and the sweep that reaps
    them, as a state machine. A handler is one run of the server's input event. The sweep awaits the
    token's actor between checking a token and removing it, and again while the token's Closed function
    runs, so checking, removing and clearing the controller are three steps. */
module SessionMachine {
  import opened Outcomes
  import opened TimedQueue

  /** `peer` is the handler whose connection the token currently uses. */
  datatype Token = Token(sid: int, peer: Option<nat>, hasController: bool)

  /** After `get_peer_token`; after `set_peer(Some)`; after `set_peer(None)`; after `peer_disconnect`;
      or ended early because the Disconnect function failed. */
  datatype Phase = Attached | Serving | Detached | Queued | Failed

  datatype Handler = Handler(token: nat, phase: Phase, alive: bool)

  /** `Emptying`: the token is out of the map, its Closed function runs, its controller is still set. */
  datatype Sweeper = Idle | Sweeping | Condemned(token: nat, entry: Entry) | Emptying(token: nat)

  /** One use of the Closed function by the sweep. */
  datatype Closing = Closing(token: nat, entry: Entry, at: nat)

  /** `closed` and `pushed` are history: Closed calls, and every entry ever queued with its handler. */
  datatype State = State(
    save: nat,
    now: nat,
    tokens: seq<Token>,
    dict: map<int, nat>,
    queue: seq<Entry>,
    sweeper: Sweeper,
    sweepStart: nat,
    lastSweep: nat,
    handlers: seq<Handler>,
    closed: seq<Closing>,
    pushed: seq<(nat, Entry)>)

  predicate IsInit(s: State) {
    && s.now == 0 && s.tokens == [] && s.dict == map[] && s.queue == [] && s.sweeper == Idle
    && s.sweepStart == 0 && s.lastSweep == 0 && s.handlers == [] && s.closed == [] && s.pushed == []
  }

  datatype Action =
    | Create(sid: int)
    | Resume(sid: int)
    | Attach(h: nat)
    | Drop(h: nat)
    | Detach(h: nat)
    | Enqueue(h: nat)
    | FailDisconnect(h: nat)
    | Pop
    | Remove
    | Clear
    | Tick(d: nat)

  predicate InPhase(s: State, h: nat, p: Phase) {
    h < |s.handlers| && s.handlers[h].phase == p && s.handlers[h].token < |s.tokens|
  }

  /** Creating, looking up and queueing are actor steps of the manager, so they wait for the sweep.
      Session ids come from a nanosecond clock and are taken to be new. */
  predicate Enabled(s: State, a: Action) {
    match a
    case Create(sid) => s.sweeper.Idle? && forall t :: 0 <= t < |s.tokens| ==> s.tokens[t].sid != sid
    case Resume(sid) => s.sweeper.Idle? && sid in s.dict
    case Attach(h) => InPhase(s, h, Attached)
    case Drop(h) => h < |s.handlers|
    case Detach(h) => InPhase(s, h, Serving)
    case Enqueue(h) => InPhase(s, h, Detached) && s.sweeper.Idle?
    case FailDisconnect(h) => InPhase(s, h, Detached) && s.tokens[s.handlers[h].token].hasController
    case Pop => s.sweeper.Idle? || s.sweeper.Sweeping?
    case Remove => s.sweeper.Condemned? && s.sweeper.token < |s.tokens|
    case Clear => s.sweeper.Emptying? && s.sweeper.token < |s.tokens|
    case Tick(_) => true
  }

  function AtPhase(s: State, h: nat, p: Phase): seq<Handler>
    requires h < |s.handlers|
  {
    s.handlers[h := s.handlers[h].(phase := p)]
  }

  function WithPeer(s: State, t: nat, peer: Option<nat>): seq<Token>
    requires t < |s.tokens|
  {
    s.tokens[t := s.tokens[t].(peer := peer)]
  }

  /** `is_disconnect`: no peer, or a peer whose socket is gone. */
  predicate Disconnected(s: State, t: nat) {
    t < |s.tokens| ==>
      match s.tokens[t].peer
      case None => true
      case Some(h) => h < |s.handlers| ==> !s.handlers[h].alive
  }

  function DoPop(s: State): State {
    var start := if s.sweeper.Idle? then s.now else s.sweepStart;
    if s.queue == [] || !Due(s.now, Last(s.queue), s.save) then
      s.(sweeper := Idle, sweepStart := start, lastSweep := start)
    else
      var e := Last(s.queue);
      s.(queue := Front(s.queue), sweepStart := start,
         sweeper := if e.key in s.dict && Disconnected(s, s.dict[e.key]) then Condemned(s.dict[e.key], e) else Sweeping)
  }

  function DoRemove(s: State): State
    requires Enabled(s, Remove)
  {
    s.(dict := s.dict - {s.sweeper.entry.key},
       closed := s.closed + [Closing(s.sweeper.token, s.sweeper.entry, s.now)],
       sweeper := Emptying(s.sweeper.token))
  }

  function DoEnqueue(s: State, h: nat): State
    requires InPhase(s, h, Detached)
  {
    var sid := s.tokens[s.handlers[h].token].sid;
    s.(handlers := AtPhase(s, h, Queued),
       queue := Pushed(s.queue, sid, s.now),
       pushed := s.pushed + [(h, Entry(sid, s.now))])
  }

  function Apply(s: State, a: Action): State
    requires Enabled(s, a)
  {
    match a
    case Create(sid) =>
      s.(tokens := s.tokens + [Token(sid, None, true)],
         dict := s.dict[sid := |s.tokens|],
         handlers := s.handlers + [Handler(|s.tokens|, Attached, true)])
    case Resume(sid) => s.(handlers := s.handlers + [Handler(s.dict[sid], Attached, true)])
    case Attach(h) =>
      s.(handlers := AtPhase(s, h, Serving), tokens := WithPeer(s, s.handlers[h].token, Some(h)))
    case Drop(h) => s.(handlers := s.handlers[h := s.handlers[h].(alive := false)])
    case Detach(h) =>
      s.(handlers := AtPhase(s, h, Detached), tokens := WithPeer(s, s.handlers[h].token, None))
    case Enqueue(h) => DoEnqueue(s, h)
    case FailDisconnect(h) => s.(handlers := AtPhase(s, h, Failed))
    case Pop => DoPop(s)
    case Remove => DoRemove(s)
    case Clear =>
      var t := s.sweeper.token;
      s.(tokens := s.tokens[t := s.tokens[t].(hasController := false)], sweeper := Sweeping)
    case Tick(d) => s.(now := s.now + d)
  }

  ghost predicate Run(states: seq<State>, actions: seq<Action>) {
    && |states| == |actions| + 1
    && IsInit(states[0])
    && forall i :: 0 <= i < |actions| ==>
         Enabled(states[i], actions[i]) && states[i + 1] == Apply(states[i], actions[i])
  }

  ghost predicate Leads(s: State, actions: seq<Action>, t: State)
    decreases |actions|
  {
    if actions == [] then s == t
    else Enabled(s, actions[0]) && Leads(Apply(s, actions[0]), actions[1..], t)
  }

  lemma RunStep(states: seq<State>, actions: seq<Action>, k: nat)
    requires Run(states, actions) && k < |actions|
    ensures |states| == |actions| + 1
    ensures Enabled(states[k], actions[k]) && states[k + 1] == Apply(states[k], actions[k])
  {
    hide Apply, Enabled, IsInit;
  }

  lemma RunStarts(states: seq<State>, actions: seq<Action>)
    requires Run(states, actions)
    ensures |states| == |actions| + 1 && IsInit(states[0])
  {
    hide Apply, Enabled, IsInit;
  }

  /** Some run, good in every state, ends in `s`. */
  ghost predicate Reachable(good: State -> bool, s: State) {
    exists states, actions :: Run(states, actions) && states[|actions|] == s
      && forall k :: 0 <= k < |states| ==> good(states[k])
  }

  lemma Onward(good: State -> bool, s: State, a: Action, t: State)
    requires Reachable(good, s) && Enabled(s, a) && t == Apply(s, a) && good(t)
    ensures Reachable(good, t)
  {
    hide Apply, Enabled, IsInit;
    var states, actions :| Run(states, actions) && states[|actions|] == s
      && forall k :: 0 <= k < |states| ==> good(states[k]);
    var states', actions' := states + [t], actions + [a];
    assert Run(states', actions') && states'[|actions'|] == t;
  }

  function Empty(save: nat): State {
    State(save, 0, [], map[], [], Idle, 0, 0, [], [], [])
  }

  lemma FromEmpty(good: State -> bool, save: nat)
    requires good(Empty(save))
    ensures Reachable(good, Empty(save))
  {
    var states: seq<State>, actions: seq<Action> := [Empty(save)], [];
    assert Run(states, actions);
  }
}

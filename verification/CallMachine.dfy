/** Calls in flight between one client object and one server token, as a state machine. Every step
    is one actor step, one channel event or one tick of the clock; steps interleave freely. */
module CallMachine {
  import opened Outcomes
  import opened Wire
  import opened TimedQueue
  import opened Requests

  datatype Request = Request(tt: byte, cmd: i32, args: bytes)

  /** Call type 0 is fire-and-forget; 1 and 2 are answered. */
  predicate TwoWay(r: Request) { r.tt != 0 }

  /** Where a caller is in `call` or `run`. Between `Inserted` and `Stamped` its sender is in the map
      but the request manager has not seen the serial yet. */
  datatype Phase =
    | Drawn
    | Inserted(net: Conn)
    | Stamped(net: Conn)
    | Waiting
    | Done(outcome: Reply)

  /** How far the request itself has come (history). */
  datatype Stage = Unsent | Sent | Begun | Ended(payload: bytes)

  /** `cell` is the receiving end of the oneshot channel. `stage` and `used` are history: what became
      of the request, and what its sender was used for. */
  datatype Caller = Caller(
    serial: int,
    req: Request,
    phase: Phase,
    cell: Option<Reply>,
    stage: Stage,
    used: Option<Reply>)

  /** A request or reply frame on a connection, or a spawned handler. `owner` is history: the caller
      for whom the request was made. Only the serial travels. */
  datatype Item =
    | OnRequestWire(owner: nat, serial: int, conn: Conn, req: Request)
    | Executing(owner: nat, serial: int, req: Request)
    | OnReplyWire(owner: nat, serial: int, conn: Conn, payload: bytes)

  /** One execution of a handler begun, with the caller it was begun for. */
  datatype Start = Start(owner: nat, serial: int, req: Request)

  /** `check` runs as one long actor step of the request manager that awaits the client's actor. */
  datatype Sweeper = Idle | Sweeping | Firing(entry: Entry)

  /** The last two fields are history: handlers started and senders used, in order. */
  datatype State = State(
    limit: nat,
    now: nat,
    nextSerial: int,
    net: Option<Conn>,
    peer: Option<Conn>,
    callers: seq<Caller>,
    table: Table<nat>,
    sweeper: Sweeper,
    sweepStart: nat,
    lastSweep: nat,
    flight: seq<Item>,
    started: seq<Start>,
    settled: seq<(nat, Reply)>)

  predicate IsInit(s: State) {
    && s.now == 0 && s.nextSerial == 1 && s.net == None && s.peer == None && s.callers == []
    && s.table == Table(map[], []) && s.sweeper == Idle && s.sweepStart == 0 && s.lastSweep == 0
    && s.flight == [] && s.started == [] && s.settled == []
  }

  datatype Action =
    | Draw(req: Request)
    | Insert(i: nat)
    | Stamp(i: nat)
    | Send(i: nat)
    | SendFails(i: nat)
    | Wake(i: nat)
    | Deliver(k: nat)
    | Finish(k: nat, payload: bytes)
    | Return(k: nat)
    | Lose(k: nat)
    | Pop
    | Fire
    | Tick(d: nat)
    | SetNet(net: Option<Conn>)
    | SetPeer(peer: Option<Conn>)

  predicate SameWire(a: Item, b: Item) {
    || (a.OnRequestWire? && b.OnRequestWire? && a.conn == b.conn)
    || (a.OnReplyWire? && b.OnReplyWire? && a.conn == b.conn)
  }

  /** Channels are first in, first out; a broken one loses frames from its end. */
  predicate Oldest(flight: seq<Item>, k: nat)
    requires k < |flight|
  {
    forall j :: 0 <= j < k ==> !SameWire(flight[j], flight[k])
  }

  predicate Newest(flight: seq<Item>, k: nat)
    requires k < |flight|
  {
    forall j :: k < j < |flight| ==> !SameWire(flight[j], flight[k])
  }

  function Without<T>(s: seq<T>, k: nat): seq<T>
    requires k < |s|
  {
    s[..k] + s[k + 1..]
  }

  predicate InPhase(s: State, i: nat, stamped: bool) {
    i < |s.callers| && if stamped then s.callers[i].phase.Stamped? else s.callers[i].phase.Inserted?
  }

  predicate Enabled(s: State, a: Action) {
    match a
    case Draw(req) => req.tt < 3 && s.nextSerial < 0x7FFF_FFFF_FFFF_FFFF
    case Insert(i) => i < |s.callers| && s.callers[i].phase.Drawn?
    case Stamp(i) => InPhase(s, i, false) && s.sweeper.Idle?
    case Send(i) => InPhase(s, i, true)
    case SendFails(i) => InPhase(s, i, true)
    case Wake(i) => i < |s.callers| && s.callers[i].phase.Waiting? && s.callers[i].cell.Some?
    case Deliver(k) => k < |s.flight| && s.flight[k].OnRequestWire? && Oldest(s.flight, k)
    case Finish(k, _) => k < |s.flight| && s.flight[k].Executing?
    case Return(k) => k < |s.flight| && s.flight[k].OnReplyWire? && Oldest(s.flight, k)
    case Lose(k) => k < |s.flight| && !s.flight[k].Executing? && Newest(s.flight, k)
    case Pop => !s.sweeper.Firing?
    case Fire => s.sweeper.Firing?
    case Tick(_) => true
    case SetNet(_) => true
    case SetPeer(_) => true
  }

  function AtPhase(s: State, i: nat, p: Phase): State
    requires i < |s.callers|
  {
    s.(callers := s.callers[i := s.callers[i].(phase := p)])
  }

  /** `call`'s first step, or the whole actor step of `run`. */
  function DoInsert(s: State, i: nat): State
    requires i < |s.callers|
  {
    var c := s.callers[i];
    if s.net.None? then AtPhase(s, i, Done(Err(NotConnect)))
    else if !TwoWay(c.req) then AtPhase(s, i, Stamped(s.net.value))
    else if c.serial in s.table.dict then AtPhase(s, i, Done(Err(SerialHave)))
    else AtPhase(s, i, Inserted(s.net.value)).(table := Registered(s.table, c.serial, i))
  }

  function DoSend(s: State, i: nat): State
    requires InPhase(s, i, true)
  {
    var c := s.callers[i];
    s.(callers := s.callers[i := c.(stage := Sent, phase := if TwoWay(c.req) then Waiting else Done(Ok([])))],
       flight := s.flight + [OnRequestWire(i, c.serial, c.phase.net, c.req)])
  }

  /** A sender is used: its caller's cell is filled unless the caller has already left. */
  function Answer(s: State, serial: int, reply: Reply): State {
    if serial !in s.table.dict || s.table.dict[serial] >= |s.callers| then
      s.(table := Settled(s.table, serial))
    else
      var i := s.table.dict[serial];
      var c := s.callers[i];
      s.(table := Settled(s.table, serial),
         callers := s.callers[i := c.(cell := if c.phase.Done? then c.cell else Some(reply), used := Some(reply))],
         settled := s.settled + [(i, reply)])
  }

  function Marked(s: State, owner: nat, stage: Stage): seq<Caller> {
    if owner < |s.callers| then s.callers[owner := s.callers[owner].(stage := stage)] else s.callers
  }

  function DoDeliver(s: State, k: nat): State
    requires k < |s.flight| && s.flight[k].OnRequestWire?
  {
    var m := s.flight[k];
    s.(flight := s.flight[k := Executing(m.owner, m.serial, m.req)],
       callers := Marked(s, m.owner, Begun),
       started := s.started + [Start(m.owner, m.serial, m.req)])
  }

  /** A handler ends; its result goes to whatever connection the token has now. */
  function DoFinish(s: State, k: nat, payload: bytes): State
    requires k < |s.flight| && s.flight[k].Executing?
  {
    var m := s.flight[k];
    s.(flight := Without(s.flight, k)
         + (if TwoWay(m.req) && s.peer.Some? then [OnReplyWire(m.owner, m.serial, s.peer.value, payload)] else []),
       callers := Marked(s, m.owner, Ended(payload)))
  }

  /** One turn of the sweep loop up to the point where it has to wait for the client's actor. */
  function DoPop(s: State): State {
    var start := if s.sweeper.Idle? then s.now else s.sweepStart;
    if s.table.queue == [] || !Due(s.now, Last(s.table.queue), s.limit) then
      s.(sweeper := Idle, sweepStart := start, lastSweep := start)
    else
      s.(sweeper := Firing(Last(s.table.queue)), sweepStart := start,
         table := s.table.(queue := Front(s.table.queue)))
  }

  function Apply(s: State, a: Action): State
    requires Enabled(s, a)
  {
    match a
    case Draw(req) =>
      s.(nextSerial := s.nextSerial + 1, callers := s.callers + [Caller(s.nextSerial, req, Drawn, None, Unsent, None)])
    case Insert(i) => DoInsert(s, i)
    case Stamp(i) =>
      AtPhase(s, i, Stamped(s.callers[i].phase.net)).(table := Enqueued(s.table, s.callers[i].serial, s.now))
    case Send(i) => DoSend(s, i)
    case SendFails(i) => AtPhase(s, i, Done(Err(NetError)))
    case Wake(i) => AtPhase(s, i, Done(s.callers[i].cell.value))
    case Deliver(k) => DoDeliver(s, k)
    case Finish(k, payload) => DoFinish(s, k, payload)
    case Return(k) =>
      Answer(s.(flight := Without(s.flight, k)), s.flight[k].serial, Ok(s.flight[k].payload))
    case Lose(k) => s.(flight := Without(s.flight, k))
    case Pop => DoPop(s)
    case Fire => Answer(s.(sweeper := Sweeping), s.sweeper.entry.key, TimeOut(s.sweeper.entry.key))
    case Tick(d) => s.(now := s.now + d)
    case SetNet(net) => s.(net := net)
    case SetPeer(peer) => s.(peer := peer)
  }

  /** A run: states and the actions between them. */
  ghost predicate Run(states: seq<State>, actions: seq<Action>) {
    && |states| == |actions| + 1
    && IsInit(states[0])
    && forall i :: 0 <= i < |actions| ==>
         Enabled(states[i], actions[i]) && states[i + 1] == Apply(states[i], actions[i])
  }

  lemma RunStep(states: seq<State>, actions: seq<Action>, k: nat)
    requires Run(states, actions) && k < |actions|
    ensures |states| == |actions| + 1
    ensures Enabled(states[k], actions[k]) && states[k + 1] == Apply(states[k], actions[k])
  {
    hide Apply, Enabled, IsInit;
  }

  lemma RunStarts(states: seq<State>, actions: seq<Action>)
    requires Run(states, actions)
    ensures |states| == |actions| + 1 && IsInit(states[0])
  {
    hide Apply, Enabled, IsInit;
  }

  lemma WithoutIsPart(flight: seq<Item>, k: nat, j: nat)
    requires k < |flight| && j < |Without(flight, k)|
    ensures Without(flight, k)[j] == flight[if j < k then j else j + 1]
  {
  }

  /** The first of several on one wire. */
  lemma {:induction false} FirstOnWire(flight: seq<Item>, k: nat) returns (j: nat)
    requires k < |flight| && !flight[k].Executing?
    ensures j <= k && (j == k || SameWire(flight[j], flight[k])) && Oldest(flight, j)
  {
    j := k;
    if !Oldest(flight, k) {
      var i :| 0 <= i < k && SameWire(flight[i], flight[k]);
      j := FirstOnWire(flight, i);
    }
  }
}

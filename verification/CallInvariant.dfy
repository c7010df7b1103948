/** What every step of the call machine keeps. */
module CallInvariant {
  import opened Outcomes
  import opened Wire
  import opened TimedQueue
  import opened Requests
  import opened CallMachine

  /** Serials are drawn in order and never reused. */
  predicate CallersOk(s: State) {
    && s.nextSerial == |s.callers| + 1
    && forall i :: 0 <= i < |s.callers| ==> s.callers[i].serial == i + 1
  }

  /** How a caller's phase, its request's stage, its cell and its sender's use fit together. */
  predicate CallerOk(c: Caller) {
    && c.req.tt < 3
    && (c.phase.Drawn? || c.phase.Inserted? || c.phase.Stamped? ==> c.stage == Unsent)
    && (c.phase.Waiting? ==> c.stage != Unsent && TwoWay(c.req))
    && (c.phase.Inserted? ==> TwoWay(c.req))
    && (c.cell.Some? ==> c.cell == c.used)
    && (c.used.Some? ==> TwoWay(c.req) && !c.phase.Drawn?)
    && (c.used.Some? && c.used.value.Ok? ==> c.stage == Ended(c.used.value.value))
    && (c.used.Some? && c.used.value.Err? ==> c.used.value == TimeOut(c.serial))
    && (c.phase.Done? ==>
          || c.phase.outcome == Err(NotConnect)
          || c.phase.outcome == Err(NetError)
          || (if TwoWay(c.req) then c.used == Some(c.phase.outcome) else c.phase.outcome == Ok([])))
  }

  predicate EachCallerOk(s: State) {
    forall i :: 0 <= i < |s.callers| ==> CallerOk(s.callers[i])
  }

  /** A waiting sender belongs to the caller that drew the serial, and has not been used. */
  predicate SenderOk(callers: seq<Caller>, serial: int, i: nat) {
    && i < |callers|
    && callers[i].serial == serial
    && !callers[i].phase.Drawn?
    && TwoWay(callers[i].req)
    && callers[i].used == None
  }

  predicate DictFits(callers: seq<Caller>, dict: map<int, nat>) {
    forall serial :: serial in dict ==> SenderOk(callers, serial, dict[serial])
  }

  predicate DictOk(s: State) { DictFits(s.callers, s.table.dict) }

  /** Where an item is tells how far its caller's request has come. */
  predicate ItemOk(callers: seq<Caller>, m: Item) {
    && m.owner < |callers|
    && callers[m.owner].serial == m.serial
    && match m
       case OnRequestWire(i, _, _, req) => callers[i].stage == Sent && callers[i].req == req
       case Executing(i, _, req) => callers[i].stage == Begun && callers[i].req == req
       case OnReplyWire(i, _, _, payload) => callers[i].stage == Ended(payload)
  }

  predicate FlightFits(callers: seq<Caller>, flight: seq<Item>) {
    && (forall k :: 0 <= k < |flight| ==> ItemOk(callers, flight[k]))
    && (forall j, k :: 0 <= j < k < |flight| ==> flight[j].owner != flight[k].owner)
  }

  predicate FlightOk(s: State) { FlightFits(s.callers, s.flight) }

  predicate HasBegun(c: Caller) { c.stage.Begun? || c.stage.Ended? }

  predicate StartOk(callers: seq<Caller>, e: Start) {
    && e.owner < |callers|
    && callers[e.owner].serial == e.serial
    && callers[e.owner].req == e.req
    && HasBegun(callers[e.owner])
  }

  predicate StartedFits(callers: seq<Caller>, started: seq<Start>) {
    && (forall m :: 0 <= m < |started| ==> StartOk(callers, started[m]))
    && (forall l, m :: 0 <= l < m < |started| ==> started[l].owner != started[m].owner)
  }

  predicate StartedOk(s: State) { StartedFits(s.callers, s.started) }

  /** Every request that began left its mark in the log. */
  predicate LoggedOk(s: State) {
    forall i :: 0 <= i < |s.callers| && HasBegun(s.callers[i]) ==>
      Start(i, s.callers[i].serial, s.callers[i].req) in s.started
  }

  predicate SettledFits(callers: seq<Caller>, settled: seq<(nat, Reply)>) {
    && (forall m :: 0 <= m < |settled| ==>
          settled[m].0 < |callers| && callers[settled[m].0].used == Some(settled[m].1))
    && (forall l, m :: 0 <= l < m < |settled| ==> settled[l].0 != settled[m].0)
  }

  predicate SettledOk(s: State) { SettledFits(s.callers, s.settled) }

  predicate IsStamped(c: Caller) { !c.phase.Drawn? && !c.phase.Inserted? }

  predicate StampedKey(s: State, key: int) {
    && 1 <= key < s.nextSerial
    && forall i :: 0 <= i < |s.callers| && s.callers[i].serial == key ==> IsStamped(s.callers[i])
  }

  /** Entries are ordered by age, each for a caller that has been stamped, no serial twice. */
  predicate QueueOk(s: State) {
    && Sorted(s.table.queue, s.now)
    && (forall j :: 0 <= j < |s.table.queue| ==> StampedKey(s, s.table.queue[j].key))
    && (forall j, k :: 0 <= j < k < |s.table.queue| ==> s.table.queue[j].key != s.table.queue[k].key)
  }

  /** No waiting sender is forgotten: it is queued, about to be queued, or about to be fired. */
  predicate IsPending(s: State, serial: int) {
    && serial in s.table.dict
    && (|| serial in Keys(s.table.queue)
        || (s.table.dict[serial] < |s.callers| && s.callers[s.table.dict[serial]].phase.Inserted?)
        || (s.sweeper.Firing? && s.sweeper.entry.key == serial))
  }

  predicate PendingOk(s: State) {
    forall serial :: serial in s.table.dict ==> IsPending(s, serial)
  }

  predicate Inv(s: State) {
    && CallersOk(s)
    && EachCallerOk(s)
    && DictOk(s)
    && FlightOk(s)
    && StartedOk(s)
    && LoggedOk(s)
    && SettledOk(s)
    && QueueOk(s)
    && PendingOk(s)
  }

  lemma KeepsCallers(s: State, a: Action)
    requires CallersOk(s) && Enabled(s, a)
    ensures CallersOk(Apply(s, a))
  {
    hide Due, Oldest, Newest;
  }

  lemma OneCallerOk(callers: seq<Caller>, i: nat, c: Caller)
    requires forall j :: 0 <= j < |callers| ==> CallerOk(callers[j])
    requires i < |callers| && CallerOk(c)
    ensures var updated := callers[i := c]; forall j :: 0 <= j < |updated| ==> CallerOk(updated[j])
  {
    hide CallerOk;
  }

  lemma CallerAfterInsert(s: State, i: nat)
    requires CallersOk(s) && EachCallerOk(s) && DictOk(s) && Enabled(s, Insert(i))
    ensures EachCallerOk(DoInsert(s, i))
  {
    var serial := s.callers[i].serial;
    assert CallerOk(s.callers[i]);
    assert serial in s.table.dict ==> SenderOk(s.callers, serial, s.table.dict[serial]);
    OneCallerOk(s.callers, i, DoInsert(s, i).callers[i]);
  }

  lemma CallerAfterAnswer(s: State, serial: int, reply: Reply)
    requires EachCallerOk(s) && DictOk(s)
    requires serial in s.table.dict && s.table.dict[serial] < |s.callers| ==>
      if reply.Ok? then s.callers[s.table.dict[serial]].stage == Ended(reply.value) else reply == TimeOut(serial)
    ensures EachCallerOk(Answer(s, serial, reply))
  {
    if serial in s.table.dict && s.table.dict[serial] < |s.callers| {
      var i := s.table.dict[serial];
      assert SenderOk(s.callers, serial, i) && CallerOk(s.callers[i]);
      OneCallerOk(s.callers, i, Answer(s, serial, reply).callers[i]);
    }
  }

  lemma CallerMarked(s: State, owner: nat, stage: Stage)
    requires EachCallerOk(s) && stage != Unsent
    requires owner < |s.callers| && (s.callers[owner].stage.Sent? || s.callers[owner].stage.Begun?)
    ensures EachCallerOk(s.(callers := Marked(s, owner, stage)))
  {
    assert CallerOk(s.callers[owner]);
    OneCallerOk(s.callers, owner, s.callers[owner].(stage := stage));
  }

  lemma CallerStepped(s: State, a: Action, i: nat)
    requires EachCallerOk(s) && Enabled(s, a)
    requires a == Stamp(i) || a == Send(i) || a == SendFails(i) || a == Wake(i)
    ensures EachCallerOk(Apply(s, a))
  {
    assert CallerOk(s.callers[i]);
    OneCallerOk(s.callers, i, Apply(s, a).callers[i]);
  }

  lemma KeepsEachCaller(s: State, a: Action)
    requires CallersOk(s) && EachCallerOk(s) && DictOk(s) && FlightOk(s) && Enabled(s, a)
    ensures EachCallerOk(Apply(s, a))
  {
    hide CallerOk, DictFits, Due, Oldest, Newest;
    match a
    case Draw(req) => FreshCallerOk(s, req);
    case Insert(i) => CallerAfterInsert(s, i);
    case Stamp(i) => CallerStepped(s, a, i);
    case Send(i) => CallerStepped(s, a, i);
    case SendFails(i) => CallerStepped(s, a, i);
    case Wake(i) => CallerStepped(s, a, i);
    case Deliver(k) =>
      assert ItemOk(s.callers, s.flight[k]);
      CallerMarked(s, s.flight[k].owner, Begun);
    case Finish(k, payload) =>
      assert ItemOk(s.callers, s.flight[k]);
      CallerMarked(s, s.flight[k].owner, Ended(payload));
    case Return(k) => ReplyIsOwn(s, k);
      CallerAfterAnswer(s.(flight := Without(s.flight, k)), s.flight[k].serial, Ok(s.flight[k].payload));
    case Fire => CallerAfterAnswer(s.(sweeper := Sweeping), s.sweeper.entry.key, TimeOut(s.sweeper.entry.key));
    case _ =>
  }

  lemma FreshCallerOk(s: State, req: Request)
    requires EachCallerOk(s) && Enabled(s, Draw(req))
    ensures EachCallerOk(Apply(s, Draw(req)))
  {
  }

  /** A reply on the wire is for the caller that waits under its serial. */
  lemma ReplyIsOwn(s: State, k: nat)
    requires CallersOk(s) && DictOk(s) && FlightOk(s) && k < |s.flight| && s.flight[k].OnReplyWire?
    ensures var m := s.flight[k];
      m.serial in s.table.dict && s.table.dict[m.serial] < |s.callers| ==>
        s.callers[s.table.dict[m.serial]].stage == Ended(m.payload)
  {
    var m := s.flight[k];
    assert ItemOk(s.callers, m);
    if m.serial in s.table.dict {
      assert SenderOk(s.callers, m.serial, s.table.dict[m.serial]);
      assert s.callers[m.owner].serial == s.callers[s.table.dict[m.serial]].serial;
    }
  }

  lemma DictChanged(callers: seq<Caller>, dict: map<int, nat>, i: nat, c: Caller)
    requires DictFits(callers, dict) && i < |callers|
    requires c.serial == callers[i].serial && c.req == callers[i].req && c.used == callers[i].used && !c.phase.Drawn?
    ensures DictFits(callers[i := c], dict)
  {
    forall serial | serial in dict ensures SenderOk(callers[i := c], serial, dict[serial]) {
      assert SenderOk(callers, serial, dict[serial]);
    }
  }

  lemma DictAfterAnswer(s: State, serial: int, reply: Reply)
    requires DictOk(s)
    ensures DictOk(Answer(s, serial, reply))
  {
    forall k | k in s.table.dict && k != serial ensures SenderOk(Answer(s, serial, reply).callers, k, s.table.dict[k]) {
      assert SenderOk(s.callers, k, s.table.dict[k]);
    }
  }

  lemma DictAfterInsert(s: State, i: nat)
    requires DictOk(s) && EachCallerOk(s) && i < |s.callers| && s.callers[i].phase.Drawn?
    ensures DictOk(DoInsert(s, i))
  {
    assert CallerOk(s.callers[i]);
    DictChanged(s.callers, s.table.dict, i, DoInsert(s, i).callers[i]);
  }

  lemma DictAfterDraw(s: State, req: Request)
    requires DictOk(s) && Enabled(s, Draw(req))
    ensures DictOk(Apply(s, Draw(req)))
  {
    forall k | k in s.table.dict ensures SenderOk(Apply(s, Draw(req)).callers, k, s.table.dict[k]) {
      assert SenderOk(s.callers, k, s.table.dict[k]);
    }
  }

  lemma DictMarked(s: State, owner: nat, stage: Stage)
    requires DictOk(s)
    ensures DictFits(Marked(s, owner, stage), s.table.dict)
  {
    forall k | k in s.table.dict ensures SenderOk(Marked(s, owner, stage), k, s.table.dict[k]) {
      assert SenderOk(s.callers, k, s.table.dict[k]);
    }
  }

  lemma KeepsDict(s: State, a: Action)
    requires EachCallerOk(s) && DictOk(s) && Enabled(s, a)
    ensures DictOk(Apply(s, a))
  {
    hide DictFits, CallerOk, Due, Oldest, Newest;
    match a
    case Draw(req) => DictAfterDraw(s, req);
    case Insert(i) => DictAfterInsert(s, i);
    case Stamp(i) => DictChanged(s.callers, s.table.dict, i, Apply(s, a).callers[i]);
    case Send(i) => DictChanged(s.callers, s.table.dict, i, Apply(s, a).callers[i]);
    case SendFails(i) => DictChanged(s.callers, s.table.dict, i, Apply(s, a).callers[i]);
    case Wake(i) => DictChanged(s.callers, s.table.dict, i, Apply(s, a).callers[i]);
    case Deliver(k) => DictMarked(s, s.flight[k].owner, Begun);
    case Finish(k, payload) => DictMarked(s, s.flight[k].owner, Ended(payload));
    case Return(k) =>
      DictAfterAnswer(s.(flight := Without(s.flight, k)), s.flight[k].serial, Ok(s.flight[k].payload));
    case Fire => DictAfterAnswer(s.(sweeper := Sweeping), s.sweeper.entry.key, TimeOut(s.sweeper.entry.key));
    case _ =>
  }

  predicate SameRequest(c: Caller, d: Caller) {
    c.serial == d.serial && c.req == d.req && c.stage == d.stage
  }

  lemma FitsWithout(callers: seq<Caller>, flight: seq<Item>, k: nat)
    requires FlightFits(callers, flight) && k < |flight|
    ensures FlightFits(callers, Without(flight, k))
    ensures forall j :: 0 <= j < |Without(flight, k)| ==> Without(flight, k)[j].owner != flight[k].owner
  {
    hide ItemOk;
    forall j | 0 <= j < |Without(flight, k)|
      ensures Without(flight, k)[j] == flight[if j < k then j else j + 1]
    {
    }
  }

  lemma FitsChanged(callers: seq<Caller>, flight: seq<Item>, i: nat, c: Caller)
    requires FlightFits(callers, flight) && i < |callers|
    requires SameRequest(c, callers[i]) || forall k :: 0 <= k < |flight| ==> flight[k].owner != i
    ensures FlightFits(callers[i := c], flight)
  {
    forall k | 0 <= k < |flight| ensures ItemOk(callers[i := c], flight[k]) {
      assert ItemOk(callers, flight[k]);
    }
  }

  lemma FitsAppended(callers: seq<Caller>, flight: seq<Item>, m: Item)
    requires FlightFits(callers, flight) && ItemOk(callers, m)
    requires forall k :: 0 <= k < |flight| ==> flight[k].owner != m.owner
    ensures FlightFits(callers, flight + [m])
  {
    hide ItemOk;
  }

  lemma FlightAfterDeliver(s: State, k: nat)
    requires FlightOk(s) && k < |s.flight| && s.flight[k].OnRequestWire?
    ensures FlightOk(DoDeliver(s, k))
  {
    var m := s.flight[k];
    var callers, flight := Marked(s, m.owner, Begun), s.flight[k := Executing(m.owner, m.serial, m.req)];
    assert ItemOk(s.callers, m);
    forall j | 0 <= j < |flight| ensures ItemOk(callers, flight[j]) {
      assert ItemOk(s.callers, s.flight[j]);
      if j < k {
        assert s.flight[j].owner != m.owner;
      }
    }
  }

  lemma FlightAfterFinish(s: State, k: nat, payload: bytes)
    requires FlightOk(s) && k < |s.flight| && s.flight[k].Executing?
    ensures FlightOk(DoFinish(s, k, payload))
  {
    var m := s.flight[k];
    assert ItemOk(s.callers, m);
    var callers, rest := Marked(s, m.owner, Ended(payload)), Without(s.flight, k);
    FitsWithout(s.callers, s.flight, k);
    FitsChanged(s.callers, rest, m.owner, s.callers[m.owner].(stage := Ended(payload)));
    if TwoWay(m.req) && s.peer.Some? {
      FitsAppended(callers, rest, OnReplyWire(m.owner, m.serial, s.peer.value, payload));
    } else {
      assert rest + [] == rest;
    }
  }

  lemma FlightAfterSend(s: State, i: nat)
    requires EachCallerOk(s) && FlightOk(s) && InPhase(s, i, true)
    ensures FlightOk(DoSend(s, i))
  {
    var c := s.callers[i];
    var sent := c.(stage := Sent, phase := if TwoWay(c.req) then Waiting else Done(Ok([])));
    assert CallerOk(c);
    forall k | 0 <= k < |s.flight| ensures s.flight[k].owner != i {
      assert ItemOk(s.callers, s.flight[k]);
    }
    FitsChanged(s.callers, s.flight, i, sent);
    FitsAppended(s.callers[i := sent], s.flight, OnRequestWire(i, c.serial, c.phase.net, c.req));
  }

  lemma FlightAfterAnswer(s: State, serial: int, reply: Reply)
    requires FlightOk(s)
    ensures FlightOk(Answer(s, serial, reply))
  {
    if serial in s.table.dict && s.table.dict[serial] < |s.callers| {
      var i := s.table.dict[serial];
      FitsChanged(s.callers, s.flight, i, Answer(s, serial, reply).callers[i]);
    }
  }

  lemma KeepsFlight(s: State, a: Action)
    requires EachCallerOk(s) && FlightOk(s) && Enabled(s, a)
    ensures FlightOk(Apply(s, a))
  {
    hide FlightFits, CallerOk;
    match a
    case Draw(req) => FlightAfterDraw(s, a);
    case Insert(i) => FitsChanged(s.callers, s.flight, i, Apply(s, a).callers[i]);
    case Stamp(i) => FitsChanged(s.callers, s.flight, i, Apply(s, a).callers[i]);
    case Send(i) => FlightAfterSend(s, i);
    case SendFails(i) => FitsChanged(s.callers, s.flight, i, Apply(s, a).callers[i]);
    case Wake(i) => FitsChanged(s.callers, s.flight, i, Apply(s, a).callers[i]);
    case Deliver(k) => FlightAfterDeliver(s, k);
    case Finish(k, payload) => FlightAfterFinish(s, k, payload);
    case Return(k) =>
      FitsWithout(s.callers, s.flight, k);
      FlightAfterAnswer(s.(flight := Without(s.flight, k)), s.flight[k].serial, Ok(s.flight[k].payload));
    case Lose(k) => FitsWithout(s.callers, s.flight, k);
    case Fire => FlightAfterAnswer(s.(sweeper := Sweeping), s.sweeper.entry.key, TimeOut(s.sweeper.entry.key));
    case _ =>
  }

  lemma FlightAfterDraw(s: State, a: Action)
    requires FlightOk(s) && Enabled(s, a) && a.Draw?
    ensures FlightOk(Apply(s, a))
  {
    forall k | 0 <= k < |s.flight| ensures ItemOk(Apply(s, a).callers, s.flight[k]) {
      assert ItemOk(s.callers, s.flight[k]);
    }
  }

  lemma StartedChanged(callers: seq<Caller>, started: seq<Start>, i: nat, c: Caller)
    requires StartedFits(callers, started) && i < |callers|
    requires c.serial == callers[i].serial && c.req == callers[i].req && (HasBegun(callers[i]) ==> HasBegun(c))
    ensures StartedFits(callers[i := c], started)
  {
    forall m | 0 <= m < |started| ensures StartOk(callers[i := c], started[m]) {
      assert StartOk(callers, started[m]);
    }
  }

  lemma StartedAfterDeliver(s: State, k: nat)
    requires FlightOk(s) && StartedOk(s) && k < |s.flight| && s.flight[k].OnRequestWire?
    ensures StartedOk(DoDeliver(s, k))
  {
    var m := s.flight[k];
    assert ItemOk(s.callers, m);
    forall l | 0 <= l < |s.started| ensures s.started[l].owner != m.owner {
      assert StartOk(s.callers, s.started[l]);
    }
    StartedChanged(s.callers, s.started, m.owner, s.callers[m.owner].(stage := Begun));
  }

  lemma StartedAfterDraw(s: State, req: Request)
    requires StartedOk(s) && Enabled(s, Draw(req))
    ensures StartedOk(Apply(s, Draw(req)))
  {
    forall m | 0 <= m < |s.started| ensures StartOk(Apply(s, Draw(req)).callers, s.started[m]) {
      assert StartOk(s.callers, s.started[m]);
    }
  }

  lemma StartedAfterAnswer(s: State, serial: int, reply: Reply)
    requires StartedOk(s)
    ensures StartedOk(Answer(s, serial, reply))
  {
    if serial in s.table.dict && s.table.dict[serial] < |s.callers| {
      var i := s.table.dict[serial];
      StartedChanged(s.callers, s.started, i, Answer(s, serial, reply).callers[i]);
    }
  }

  lemma KeepsStarted(s: State, a: Action)
    requires EachCallerOk(s) && FlightOk(s) && StartedOk(s) && Enabled(s, a)
    ensures StartedOk(Apply(s, a))
  {
    hide StartedFits, FlightFits, Due, Oldest, Newest;
    match a
    case Draw(req) => StartedAfterDraw(s, req);
    case Insert(i) => StartedChanged(s.callers, s.started, i, Apply(s, a).callers[i]);
    case Stamp(i) => StartedChanged(s.callers, s.started, i, Apply(s, a).callers[i]);
    case Send(i) =>
      assert CallerOk(s.callers[i]);
      StartedChanged(s.callers, s.started, i, Apply(s, a).callers[i]);
    case SendFails(i) => StartedChanged(s.callers, s.started, i, Apply(s, a).callers[i]);
    case Wake(i) => StartedChanged(s.callers, s.started, i, Apply(s, a).callers[i]);
    case Deliver(k) => StartedAfterDeliver(s, k);
    case Finish(k, payload) =>
      if s.flight[k].owner < |s.callers| {
        StartedChanged(s.callers, s.started, s.flight[k].owner, Apply(s, a).callers[s.flight[k].owner]);
      }
    case Return(k) =>
      StartedAfterAnswer(s.(flight := Without(s.flight, k)), s.flight[k].serial, Ok(s.flight[k].payload));
    case Fire => StartedAfterAnswer(s.(sweeper := Sweeping), s.sweeper.entry.key, TimeOut(s.sweeper.entry.key));
    case _ =>
  }

  lemma KeepsLogged(s: State, a: Action)
    requires CallersOk(s) && EachCallerOk(s) && FlightOk(s) && LoggedOk(s) && Enabled(s, a)
    ensures LoggedOk(Apply(s, a))
  {
    hide Due, Oldest, Newest;
  }

  lemma SettledChanged(callers: seq<Caller>, settled: seq<(nat, Reply)>, i: nat, c: Caller)
    requires SettledFits(callers, settled) && i < |callers| && c.used == callers[i].used
    ensures SettledFits(callers[i := c], settled)
  {
  }

  lemma SettledAfterAnswer(s: State, serial: int, reply: Reply)
    requires DictOk(s) && SettledOk(s)
    ensures SettledOk(Answer(s, serial, reply))
  {
    if serial in s.table.dict {
      assert SenderOk(s.callers, serial, s.table.dict[serial]);
    }
  }

  lemma SettledAfterDraw(s: State, req: Request)
    requires SettledOk(s) && Enabled(s, Draw(req))
    ensures SettledOk(Apply(s, Draw(req)))
  {
  }

  lemma KeepsSettled(s: State, a: Action)
    requires DictOk(s) && SettledOk(s) && Enabled(s, a)
    ensures SettledOk(Apply(s, a))
  {
    hide DictFits, SettledFits, Due, Oldest, Newest;
    match a
    case Draw(req) => SettledAfterDraw(s, req);
    case Insert(i) => SettledChanged(s.callers, s.settled, i, Apply(s, a).callers[i]);
    case Stamp(i) => SettledChanged(s.callers, s.settled, i, Apply(s, a).callers[i]);
    case Send(i) => SettledChanged(s.callers, s.settled, i, Apply(s, a).callers[i]);
    case SendFails(i) => SettledChanged(s.callers, s.settled, i, Apply(s, a).callers[i]);
    case Wake(i) => SettledChanged(s.callers, s.settled, i, Apply(s, a).callers[i]);
    case Deliver(k) => SettledMarked(s, s.flight[k].owner, Begun);
    case Finish(k, payload) => SettledMarked(s, s.flight[k].owner, Ended(payload));
    case Return(k) =>
      SettledAfterAnswer(s.(flight := Without(s.flight, k)), s.flight[k].serial, Ok(s.flight[k].payload));
    case Fire => SettledAfterAnswer(s.(sweeper := Sweeping), s.sweeper.entry.key, TimeOut(s.sweeper.entry.key));
    case _ =>
  }

  lemma SettledMarked(s: State, owner: nat, stage: Stage)
    requires SettledOk(s)
    ensures SettledFits(Marked(s, owner, stage), s.settled)
  {
    if owner < |s.callers| {
      SettledChanged(s.callers, s.settled, owner, s.callers[owner].(stage := stage));
    }
  }

  /** Callers only move on; new ones have new serials. */
  predicate Advance(s: State, t: State) {
    && s.nextSerial <= t.nextSerial
    && |s.callers| <= |t.callers|
    && (forall i :: 0 <= i < |s.callers| ==>
          t.callers[i].serial == s.callers[i].serial && (IsStamped(s.callers[i]) ==> IsStamped(t.callers[i])))
    && (forall i :: |s.callers| <= i < |t.callers| ==> t.callers[i].serial >= s.nextSerial)
  }

  lemma StepsAdvance(s: State, a: Action)
    requires Enabled(s, a)
    ensures Advance(s, Apply(s, a))
  {
    hide Due;
  }

  lemma KeyStaysStamped(s: State, t: State, key: int)
    requires Advance(s, t) && StampedKey(s, key)
    ensures StampedKey(t, key)
  {
  }

  lemma QueueAfterStamp(s: State, i: nat)
    requires CallersOk(s) && QueueOk(s) && Enabled(s, Stamp(i))
    ensures QueueOk(Apply(s, Stamp(i)))
  {
    var t := Apply(s, Stamp(i));
    StepsAdvance(s, Stamp(i));
    assert t.table.queue == [Entry(s.callers[i].serial, s.now)] + s.table.queue;
    forall j | 0 <= j < |s.table.queue|
      ensures StampedKey(t, s.table.queue[j].key) && s.table.queue[j].key != s.callers[i].serial
    {
      KeyStaysStamped(s, t, s.table.queue[j].key);
    }
  }

  lemma KeepsQueue(s: State, a: Action)
    requires CallersOk(s) && QueueOk(s) && Enabled(s, a)
    ensures QueueOk(Apply(s, a))
  {
    hide Due, Enqueued, StampedKey, Advance;
    if a.Stamp? {
      QueueAfterStamp(s, a.i);
    } else {
      var t := Apply(s, a);
      StepsAdvance(s, a);
      assert t.table.queue <= s.table.queue && s.now <= t.now;
      forall j | 0 <= j < |t.table.queue| ensures StampedKey(t, t.table.queue[j].key) {
        KeyStaysStamped(s, t, s.table.queue[j].key);
      }
    }
  }

  lemma KeepsPending(s: State, a: Action)
    requires DictOk(s) && PendingOk(s) && Enabled(s, a)
    ensures PendingOk(Apply(s, a))
  {
    hide Due, Oldest, Newest;
  }

  lemma InitInv(s: State)
    requires IsInit(s)
    ensures Inv(s)
  {
  }

  lemma StepKeepsInv(s: State, a: Action)
    requires Inv(s) && Enabled(s, a)
    ensures Inv(Apply(s, a))
  {
    hide Apply, Enabled, CallersOk, EachCallerOk, DictOk, FlightOk, StartedOk, LoggedOk, SettledOk, QueueOk, PendingOk;
    KeepsCallers(s, a);
    KeepsEachCaller(s, a);
    KeepsDict(s, a);
    KeepsFlight(s, a);
    KeepsStarted(s, a);
    KeepsLogged(s, a);
    KeepsSettled(s, a);
    KeepsQueue(s, a);
    KeepsPending(s, a);
  }

  /** The invariant holds in every state of every run. */
  lemma {:induction false} RunInv(states: seq<State>, actions: seq<Action>, n: nat)
    requires Run(states, actions) && n < |states|
    ensures Inv(states[n])
  {
    hide Run, Apply, Enabled, IsInit, Inv;
    RunStarts(states, actions);
    if n == 0 {
      InitInv(states[0]);
    } else {
      RunInv(states, actions, n - 1);
      RunStep(states, actions, n - 1);
      StepKeepsInv(states[n - 1], actions[n - 1]);
    }
  }
}

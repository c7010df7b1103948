/** What can still happen to a call, and what a finished one came to: that a call gets its reply, that it
    is told when it has timed out, and exactly when it is refused. */
module CallProgress {
  import opened Outcomes
  import opened Wire
  import opened TimedQueue
  import opened Requests
  import opened CallMachine
  import opened CallInvariant
  import opened CallTheorems

  lemma LeadsCons(s: State, a: Action, rest: seq<Action>, t: State)
    requires Enabled(s, a) && Leads(Apply(s, a), rest, t)
    ensures Leads(s, [a] + rest, t)
  {
    assert ([a] + rest)[1..] == rest;
  }

  lemma LeadsTo(s: State)
    ensures Leads(s, [], s)
  {
  }

  // ----- what is sent back -----

  /** In every run, a handler that ends puts exactly one reply on its token's connection if the call type
      is 1 or 2 and the token has one, under the caller's serial and with the handler's result; otherwise
      none. */
  lemma FinishReplies(states: seq<State>, actions: seq<Action>, n: nat, k: nat, payload: bytes)
    requires Run(states, actions) && n < |states| && Enabled(states[n], Finish(k, payload))
    ensures var s, m := states[n], states[n].flight[k];
      && (m.req.tt == 0 || m.req.tt == 1 || m.req.tt == 2)
      && Apply(s, Finish(k, payload)).flight == s.flight[..k] + s.flight[k + 1..]
         + if (m.req.tt == 1 || m.req.tt == 2) && s.peer.Some?
           then [OnReplyWire(m.owner, m.serial, s.peer.value, payload)] else []
  {
    RunInv(states, actions, n);
    var s := states[n];
    assert ItemOk(s.callers, s.flight[k]);
    assert CallerOk(s.callers[s.flight[k].owner]);
  }

  // ----- a call can succeed -----

  /** The caller waits for its reply, and nobody has used its sender. */
  predicate Waits(s: State, i: nat) {
    i < |s.callers| && s.callers[i].phase.Waiting? && s.callers[i].serial in s.table.dict
  }

  lemma WaitsForIts(s: State, i: nat)
    requires Inv(s) && Waits(s, i)
    ensures s.table.dict[s.callers[i].serial] == i && TwoWay(s.callers[i].req)
  {
    var serial := s.callers[i].serial;
    assert SenderOk(s.callers, serial, s.table.dict[serial]);
  }

  /** Another's reply leaves the caller waiting. */
  lemma ReturnLeaves(s: State, j: nat, i: nat)
    requires Inv(s) && Waits(s, i) && Enabled(s, Return(j)) && s.flight[j].owner != i
    ensures Waits(Apply(s, Return(j)), i) && Apply(s, Return(j)).callers[i].serial == s.callers[i].serial
  {
    WaitsForIts(s, i);
    assert ItemOk(s.callers, s.flight[j]);
    assert s.flight[j].serial in s.table.dict ==>
      SenderOk(s.callers, s.flight[j].serial, s.table.dict[s.flight[j].serial]);
  }

  lemma OwnReturn(s: State, k: nat, i: nat) returns (t: State)
    requires Inv(s) && Waits(s, i) && Enabled(s, Return(k)) && s.flight[k].owner == i
    ensures Leads(s, [Return(k)] + ([Wake(i)] + []), t)
    ensures i < |t.callers| && t.callers[i].phase == Done(Ok(s.flight[k].payload))
  {
    WaitsForIts(s, i);
    assert ItemOk(s.callers, s.flight[k]);
    var u := Apply(s, Return(k));
    assert u.callers[i].cell == Some(Ok(s.flight[k].payload)) && u.callers[i].phase.Waiting?;
    t := Apply(u, Wake(i));
    LeadsTo(t);
    hide Leads, Apply, Enabled;
    LeadsCons(u, Wake(i), [], t);
    LeadsCons(s, Return(k), [Wake(i)] + [], t);
  }

  /** A reply on its way arrives, after those before it on its wire. */
  lemma {:induction false} ReplyComes(s: State, k: nat, i: nat) returns (steps: seq<Action>, t: State)
    requires Inv(s) && Waits(s, i) && k < |s.flight| && s.flight[k].OnReplyWire? && s.flight[k].owner == i
    ensures Leads(s, steps, t)
    ensures i < |t.callers| && t.callers[i].phase == Done(Ok(s.flight[k].payload))
    decreases |s.flight|
  {
    var j := FirstOnWire(s.flight, k);
    if j == k {
      t := OwnReturn(s, k, i);
      steps := [Return(k)] + ([Wake(i)] + []);
    } else {
      var u := Apply(s, Return(j));
      StepKeepsInv(s, Return(j));
      OthersFirst(s, j, k);
      ReturnLeaves(s, j, i);
      hide Inv, Apply, Enabled, Leads, Waits;
      var rest;
      rest, t := ReplyComes(u, k - 1, i);
      steps := [Return(j)] + rest;
      LeadsCons(s, Return(j), rest, t);
    }
  }

  lemma OthersFirst(s: State, j: nat, k: nat)
    requires Inv(s) && j < k < |s.flight| && Enabled(s, Return(j))
    ensures s.flight[j].owner != s.flight[k].owner
    ensures var u := Apply(s, Return(j)); |u.flight| == |s.flight| - 1 && u.flight[k - 1] == s.flight[k]
  {
    WithoutIsPart(s.flight, j, k - 1);
  }

  /** A handler ends with whatever result, and the caller gets it. */
  lemma HandlerEnds(s: State, k: nat, i: nat, payload: bytes) returns (steps: seq<Action>, t: State)
    requires Inv(s) && Waits(s, i) && k < |s.flight| && s.flight[k].Executing? && s.flight[k].owner == i
    requires s.peer.Some?
    ensures Leads(s, steps, t) && i < |t.callers| && t.callers[i].phase == Done(Ok(payload))
  {
    WaitsForIts(s, i);
    assert ItemOk(s.callers, s.flight[k]);
    var u := Apply(s, Finish(k, payload));
    StepKeepsInv(s, Finish(k, payload));
    var last := |u.flight| - 1;
    assert u.flight[last] == OnReplyWire(i, s.flight[k].serial, s.peer.value, payload);
    assert Waits(u, i);
    hide Inv, Apply, Enabled, Leads, Waits;
    var rest;
    rest, t := ReplyComes(u, last, i);
    steps := [Finish(k, payload)] + rest;
    LeadsCons(s, Finish(k, payload), rest, t);
  }

  lemma DeliverLeaves(s: State, j: nat, i: nat)
    requires Inv(s) && Waits(s, i) && Enabled(s, Deliver(j))
    ensures Waits(Apply(s, Deliver(j)), i) && Inv(Apply(s, Deliver(j)))
    ensures Apply(s, Deliver(j)).peer == s.peer
    ensures Apply(s, Deliver(j)).flight
         == s.flight[j := Executing(s.flight[j].owner, s.flight[j].serial, s.flight[j].req)]
  {
    StepKeepsInv(s, Deliver(j));
  }

  /** A request is begun, after those before it on its wire, handled and answered. */
  lemma {:induction false} RequestIsAnswered(s: State, k: nat, m: nat, i: nat, payload: bytes)
    returns (steps: seq<Action>, t: State)
    requires Inv(s) && Waits(s, i) && m <= k < |s.flight| && s.flight[k].OnRequestWire? && s.flight[k].owner == i
    requires s.peer.Some? && forall j :: 0 <= j < m ==> !SameWire(s.flight[j], s.flight[k])
    ensures Leads(s, steps, t) && i < |t.callers| && t.callers[i].phase == Done(Ok(payload))
    decreases k - m
  {
    if m == k || SameWire(s.flight[m], s.flight[k]) {
      assert Oldest(s.flight, m);
      DeliverLeaves(s, m, i);
      var u := Apply(s, Deliver(m));
      hide Inv, Apply, Enabled, Leads, Waits;
      var rest;
      if m == k {
        rest, t := HandlerEnds(u, k, i, payload);
      } else {
        rest, t := RequestIsAnswered(u, k, m + 1, i, payload);
      }
      steps := [Deliver(m)] + rest;
      LeadsCons(s, Deliver(m), rest, t);
    } else {
      steps, t := RequestIsAnswered(s, k, m + 1, i, payload);
    }
  }

  lemma InsertRegisters(s: State, i: nat)
    requires Inv(s) && Enabled(s, Insert(i)) && TwoWay(s.callers[i].req) && s.net.Some?
    ensures var v := Apply(s, Insert(i));
      && v.callers == s.callers[i := s.callers[i].(phase := Inserted(s.net.value))]
      && s.callers[i].serial in v.table.dict && v.flight == s.flight && v.peer == s.peer && v.sweeper == s.sweeper
  {
    var serial := s.callers[i].serial;
    assert serial in s.table.dict ==> SenderOk(s.callers, serial, s.table.dict[serial]);
  }

  lemma StampAndSend(s: State, i: nat) returns (u: State)
    requires Inv(s) && Enabled(s, Stamp(i)) && TwoWay(s.callers[i].req) && s.callers[i].serial in s.table.dict
    ensures Leads(s, [Stamp(i)] + ([Send(i)] + []), u) && Inv(u) && Waits(u, i) && u.peer == s.peer
    ensures u.flight
         == s.flight + [OnRequestWire(i, s.callers[i].serial, s.callers[i].phase.net, s.callers[i].req)]
  {
    var w := Apply(s, Stamp(i));
    StepKeepsInv(s, Stamp(i));
    u := Apply(w, Send(i));
    StepKeepsInv(w, Send(i));
    LeadsTo(u);
    hide Inv, Leads;
    LeadsCons(w, Send(i), [], u);
    LeadsCons(s, Stamp(i), [Send(i)] + [], u);
  }

  lemma Registers(s: State, i: nat) returns (u: State)
    requires Inv(s) && i < |s.callers| && s.callers[i].phase.Drawn? && TwoWay(s.callers[i].req)
    requires s.net.Some? && s.sweeper.Idle?
    ensures Leads(s, [Insert(i)] + ([Stamp(i)] + ([Send(i)] + [])), u) && Inv(u) && Waits(u, i) && u.peer == s.peer
    ensures u.flight == s.flight + [OnRequestWire(i, s.callers[i].serial, s.net.value, s.callers[i].req)]
  {
    InsertRegisters(s, i);
    StepKeepsInv(s, Insert(i));
    var v := Apply(s, Insert(i));
    hide Inv, Leads, Apply, Waits;
    u := StampAndSend(v, i);
    LeadsCons(s, Insert(i), [Stamp(i)] + ([Send(i)] + []), u);
  }

  lemma {:induction false} LeadsTrans(s: State, a: seq<Action>, t: State, b: seq<Action>, u: State)
    requires Leads(s, a, t) && Leads(t, b, u)
    ensures Leads(s, a + b, u)
    decreases |a|
  {
    hide Apply, Enabled;
    if a == [] {
      assert a + b == b;
    } else {
      LeadsTrans(Apply(s, a[0]), a[1..], t, b, u);
      assert (a + b)[1..] == a[1..] + b;
    }
  }

  /** In every run, a call about to begin, with the client connected and its token reachable, can come to
      any result its handler gives: it is registered, sent, handled and answered, whatever else is in
      flight. So can a call already sent, being handled, or answered. */
  lemma CallCanSucceed(states: seq<State>, actions: seq<Action>, n: nat, i: nat, payload: bytes)
    returns (steps: seq<Action>, t: State)
    requires Run(states, actions) && n < |states| && i < |states[n].callers|
    requires states[n].callers[i].phase.Drawn? && TwoWay(states[n].callers[i].req)
    requires states[n].net.Some? && states[n].peer.Some? && states[n].sweeper.Idle?
    ensures Leads(states[n], steps, t) && i < |t.callers| && t.callers[i].phase == Done(Ok(payload))
  {
    RunInv(states, actions, n);
    hide Run, Inv, Apply, Enabled, Leads, Waits;
    var s := states[n];
    var u := Registers(s, i);
    var rest;
    rest, t := RequestIsAnswered(u, |s.flight|, 0, i, payload);
    steps := ([Insert(i)] + ([Stamp(i)] + ([Send(i)] + []))) + rest;
    LeadsTrans(s, [Insert(i)] + ([Stamp(i)] + ([Send(i)] + [])), u, rest, t);
  }

  /** The same from any point at which the caller waits and its call is still about; `payload` is what the
      handler gives, or has given. */
  lemma WaitingCanSucceed(states: seq<State>, actions: seq<Action>, n: nat, i: nat, k: nat, payload: bytes)
    returns (steps: seq<Action>, t: State)
    requires Run(states, actions) && n < |states| && Waits(states[n], i)
    requires k < |states[n].flight| && states[n].flight[k].owner == i
    requires if states[n].flight[k].OnReplyWire? then states[n].flight[k].payload == payload else states[n].peer.Some?
    ensures Leads(states[n], steps, t) && i < |t.callers| && t.callers[i].phase == Done(Ok(payload))
  {
    RunInv(states, actions, n);
    hide Run, Inv, Apply, Enabled, Leads, Waits;
    match states[n].flight[k]
    case OnRequestWire(_, _, _, _) => steps, t := RequestIsAnswered(states[n], k, 0, i, payload);
    case Executing(_, _, _) => steps, t := HandlerEnds(states[n], k, i, payload);
    case OnReplyWire(_, _, _, _) => steps, t := ReplyComes(states[n], k, i);
  }

  /** A call of type 0 is done once it has been sent. */
  lemma OneWaySucceeds(s: State, i: nat) returns (t: State)
    requires i < |s.callers| && s.callers[i].phase.Drawn? && s.callers[i].req.tt == 0 && s.net.Some?
    ensures Leads(s, [Insert(i)] + ([Send(i)] + []), t)
    ensures i < |t.callers| && t.callers[i].phase == Done(Ok([]))
    ensures t.flight == s.flight + [OnRequestWire(i, s.callers[i].serial, s.net.value, s.callers[i].req)]
  {
    var u := Apply(s, Insert(i));
    t := Apply(u, Send(i));
    LeadsTo(t);
    LeadsCons(u, Send(i), [], t);
    LeadsCons(s, Insert(i), [Send(i)] + [], t);
  }

  // ----- a call that is not answered is told so -----

  lemma FireTells(s: State, i: nat) returns (t: State)
    requires Inv(s) && Waits(s, i) && s.sweeper.Firing? && s.sweeper.entry.key == s.callers[i].serial
    ensures Leads(s, [Fire] + ([Wake(i)] + []), t)
    ensures i < |t.callers| && t.callers[i].phase == Done(Err(SerialTimeOut(s.callers[i].serial)))
  {
    WaitsForIts(s, i);
    var u := Apply(s, Fire);
    t := Apply(u, Wake(i));
    LeadsTo(t);
    hide Leads, Apply, Enabled;
    LeadsCons(u, Wake(i), [], t);
    LeadsCons(s, Fire, [Wake(i)] + [], t);
  }

  lemma FireLeaves(s: State, i: nat)
    requires Inv(s) && Waits(s, i) && s.sweeper.Firing? && s.sweeper.entry.key != s.callers[i].serial
    ensures Waits(Apply(s, Fire), i) && Apply(s, Fire).callers[i].serial == s.callers[i].serial
    ensures Apply(s, Fire).table.queue == s.table.queue && Apply(s, Fire).now == s.now
    ensures Apply(s, Fire).sweeper == Sweeping && Apply(s, Fire).limit == s.limit
  {
    WaitsForIts(s, i);
    var key := s.sweeper.entry.key;
    assert key in s.table.dict ==> SenderOk(s.callers, key, s.table.dict[key]);
  }

  /** Once everything queued is overdue, a sweep tells a waiting caller that its own serial timed out. */
  lemma {:induction false} TimeoutComes(s: State, i: nat) returns (steps: seq<Action>, t: State)
    requires Inv(s) && Waits(s, i) && !s.sweeper.Firing?
    requires forall e :: e in s.table.queue ==> Due(s.now, e, s.limit)
    ensures Leads(s, steps, t)
    ensures i < |t.callers| && t.callers[i].phase == Done(Err(SerialTimeOut(s.callers[i].serial)))
    decreases |s.table.queue|
  {
    IsQueued(s, i);
    var u := Popped(s, i);
    hide Inv, Apply, Enabled, Leads, Waits, Due;
    var rest;
    if u.sweeper.entry.key == s.callers[i].serial {
      t := FireTells(u, i);
      rest := [Fire] + ([Wake(i)] + []);
    } else {
      FireLeaves(u, i);
      var v := Apply(u, Fire);
      FireKeeps(u);
      var later;
      later, t := TimeoutComes(v, i);
      rest := [Fire] + later;
      FireLeads(u, later, t);
    }
    steps := [Pop] + rest;
    PopLeads(s, u, rest, t);
  }

  lemma IsQueued(s: State, i: nat)
    requires Inv(s) && Waits(s, i) && !s.sweeper.Firing?
    ensures s.table.queue != []
  {
    WaitsForIts(s, i);
    assert IsPending(s, s.callers[i].serial);
  }

  lemma Popped(s: State, i: nat) returns (u: State)
    requires Inv(s) && Waits(s, i) && !s.sweeper.Firing? && s.table.queue != []
    requires forall e :: e in s.table.queue ==> Due(s.now, e, s.limit)
    ensures Enabled(s, Pop) && u == Apply(s, Pop) && Inv(u) && Waits(u, i) && u.sweeper == Firing(Last(s.table.queue))
    ensures u.callers == s.callers && u.now == s.now && u.limit == s.limit && u.table.queue == Front(s.table.queue)
    ensures forall e :: e in u.table.queue ==> Due(s.now, e, s.limit)
  {
    hide Due;
    assert Last(s.table.queue) in s.table.queue;
    StepKeepsInv(s, Pop);
    u := Apply(s, Pop);
    assert forall e :: e in Front(s.table.queue) ==> e in s.table.queue;
  }

  lemma FireKeeps(s: State)
    requires Inv(s) && s.sweeper.Firing?
    ensures Inv(Apply(s, Fire))
  {
    StepKeepsInv(s, Fire);
  }

  lemma FireLeads(s: State, rest: seq<Action>, t: State)
    requires s.sweeper.Firing? && Leads(Apply(s, Fire), rest, t)
    ensures Leads(s, [Fire] + rest, t)
  {
    LeadsCons(s, Fire, rest, t);
  }

  lemma PopLeads(s: State, u: State, rest: seq<Action>, t: State)
    requires Enabled(s, Pop) && u == Apply(s, Pop) && Leads(u, rest, t)
    ensures Leads(s, [Pop] + rest, t)
  {
    LeadsCons(s, Pop, rest, t);
  }

  lemma DueByThen(now: nat, later: nat, e: Entry, limit: nat)
    requires e.at <= now && later >= now + limit * 1_000_000 && AgeMs(later, e) < WRAP
    ensures Due(later, e, limit)
  {
  }

  /** In every run, a caller that waits while nothing answers it is told that its own serial timed out once
      the timeout has passed, as long as no age reaches 2^32 ms by then. */
  lemma WaitingTimesOut(states: seq<State>, actions: seq<Action>, n: nat, i: nat) returns (steps: seq<Action>, t: State)
    requires Run(states, actions) && n < |states| && Waits(states[n], i) && !states[n].sweeper.Firing?
    requires forall e :: e in states[n].table.queue ==>
      AgeMs(states[n].now + states[n].limit * 1_000_000, e) < WRAP
    ensures Leads(states[n], [Tick(states[n].limit * 1_000_000)] + steps, t)
    ensures i < |t.callers| && t.callers[i].phase == Done(Err(SerialTimeOut(states[n].callers[i].serial)))
  {
    RunInv(states, actions, n);
    var s := states[n];
    var u := Apply(s, Tick(s.limit * 1_000_000));
    StepKeepsInv(s, Tick(s.limit * 1_000_000));
    StampedBefore(s);
    forall e | e in u.table.queue ensures Due(u.now, e, u.limit) {
      DueByThen(s.now, u.now, e, s.limit);
    }
    assert Waits(u, i);
    hide Inv, Run, Apply, Enabled, Leads, Waits, Due, AgeMs;
    steps, t := TimeoutComes(u, i);
    TickLeads(s, u, s.limit * 1_000_000, steps, t);
  }

  lemma TickLeads(s: State, u: State, d: nat, rest: seq<Action>, t: State)
    requires u == Apply(s, Tick(d)) && Leads(u, rest, t)
    ensures Leads(s, [Tick(d)] + rest, t)
  {
    LeadsCons(s, Tick(d), rest, t);
  }

  lemma StampedBefore(s: State)
    requires Inv(s)
    ensures forall e :: e in s.table.queue ==> e.at <= s.now
  {
  }

  // ----- a lost frame -----

  /** A sent call of which nothing is about any more: it is waiting, or has been told that it timed out. */
  predicate NothingAbout(s: State, i: nat) {
    && i < |s.callers| && TwoWay(s.callers[i].req)
    && (forall k :: 0 <= k < |s.flight| ==> s.flight[k].owner != i)
    && (s.callers[i].used.Some? ==> s.callers[i].used.value.Err?)
    && (s.callers[i].phase.Waiting? || s.callers[i].phase == Done(TimeOut(s.callers[i].serial)))
  }

  lemma LosesItsOwn(s: State, k: nat)
    requires Inv(s) && Enabled(s, Lose(k)) && Waits(s, s.flight[k].owner)
    ensures Apply(s, Lose(k)).flight == s.flight[..k] + s.flight[k + 1..]
    ensures NothingAbout(Apply(s, Lose(k)), s.flight[k].owner)
  {
    hide Newest;
    var i := s.flight[k].owner;
    WaitsForIts(s, i);
    assert SenderOk(s.callers, s.callers[i].serial, i);
    forall j | 0 <= j < |Without(s.flight, k)| ensures Without(s.flight, k)[j].owner != i {
      WithoutIsPart(s.flight, k, j);
    }
  }

  lemma OwnersRemain(flight: seq<Item>, k: nat, i: nat)
    requires k < |flight| && forall j :: 0 <= j < |flight| ==> flight[j].owner != i
    ensures forall j :: 0 <= j < |Without(flight, k)| ==> Without(flight, k)[j].owner != i
  {
  }

  lemma NobodyElses(s: State, k: nat, i: nat)
    requires Inv(s) && Enabled(s, Return(k)) && i < |s.callers| && s.flight[k].owner != i
    ensures s.flight[k].serial in s.table.dict ==> s.table.dict[s.flight[k].serial] != i
  {
    hide Oldest;
    assert ItemOk(s.callers, s.flight[k]);
    var serial := s.flight[k].serial;
    assert serial in s.table.dict ==> SenderOk(s.callers, serial, s.table.dict[serial]);
  }

  lemma NothingAnswers(s: State, serial: int, reply: Reply, i: nat)
    requires NothingAbout(s, i) && (reply.Ok? && serial in s.table.dict ==> s.table.dict[serial] != i)
    ensures NothingAbout(Answer(s, serial, reply), i)
    ensures Answer(s, serial, reply).callers[i].serial == s.callers[i].serial
  {
  }

  lemma NothingReturns(s: State, k: nat, i: nat)
    requires Inv(s) && NothingAbout(s, i) && Enabled(s, Return(k))
    ensures NothingAbout(Apply(s, Return(k)), i) && Apply(s, Return(k)).callers[i].serial == s.callers[i].serial
  {
    NobodyElses(s, k, i);
    OwnersRemain(s.flight, k, i);
    assert NothingAbout(s.(flight := Without(s.flight, k)), i);
    hide Inv, NothingAbout, Answer, Oldest, Without;
    NothingAnswers(s.(flight := Without(s.flight, k)), s.flight[k].serial, Ok(s.flight[k].payload), i);
  }

  lemma NothingComes(s: State, a: Action, i: nat)
    requires Inv(s) && NothingAbout(s, i) && Enabled(s, a)
    ensures NothingAbout(Apply(s, a), i) && Apply(s, a).callers[i].serial == s.callers[i].serial
  {
    if a.Return? {
      hide Inv, Apply, Enabled, NothingAbout;
      NothingReturns(s, a.k, i);
    } else if a.Fire? {
      hide Inv, Answer;
      NothingAnswers(s.(sweeper := Sweeping), s.sweeper.entry.key, TimeOut(s.sweeper.entry.key), i);
    } else {
      OthersBringNothing(s, a, i);
    }
  }

  lemma OthersBringNothing(s: State, a: Action, i: nat)
    requires EachCallerOk(s) && NothingAbout(s, i) && Enabled(s, a) && !a.Return? && !a.Fire?
    ensures NothingAbout(Apply(s, a), i) && Apply(s, a).callers[i].serial == s.callers[i].serial
  {
    hide Oldest, Newest, Due, Without;
    assert CallerOk(s.callers[i]);
    match a
    case Finish(k, _) => OwnersRemain(s.flight, k, i);
    case Lose(k) => OwnersRemain(s.flight, k, i);
    case _ =>
  }

  lemma {:induction false} NothingEverComes(states: seq<State>, actions: seq<Action>, n: nat, m: nat, i: nat)
    requires Run(states, actions) && n <= m <= |actions| && NothingAbout(states[n], i)
    ensures NothingAbout(states[m], i) && states[m].callers[i].serial == states[n].callers[i].serial
    decreases m
  {
    hide Run, Apply, Enabled, Inv;
    if n < m {
      NothingEverComes(states, actions, n, m - 1, i);
      RunStep(states, actions, m - 1);
      RunInv(states, actions, m - 1);
      NothingComes(states[m - 1], actions[m - 1], i);
    }
  }

  /** In every run, losing a frame loses that one only, and the caller whose request or reply it was never
      gets a value: in every later state it waits, or has been told that its own serial timed out. */
  lemma LostCallNeverSucceeds(states: seq<State>, actions: seq<Action>, n: nat, m: nat, k: nat)
    requires Run(states, actions) && n < m <= |actions| && actions[n] == Lose(k)
    requires k < |states[n].flight| && Waits(states[n], states[n].flight[k].owner)
    ensures states[n + 1].flight == states[n].flight[..k] + states[n].flight[k + 1..]
    ensures var i := states[n].flight[k].owner;
      && i < |states[m].callers|
      && (states[m].callers[i].phase.Waiting?
          || states[m].callers[i].phase == Done(Err(SerialTimeOut(states[n].callers[i].serial))))
  {
    RunInv(states, actions, n);
    RunStep(states, actions, n);
    LosesItsOwn(states[n], k);
    var i := states[n].flight[k].owner;
    assert states[n + 1].callers[i].serial == states[n].callers[i].serial;
    hide Run, Inv, Apply, Enabled;
    NothingEverComes(states, actions, n + 1, m, i);
  }

  // ----- exactly when a call is refused -----

  predicate OwnStep(a: Action, i: nat) {
    a == Insert(i) || a == Stamp(i) || a == Send(i) || a == SendFails(i) || a == Wake(i)
  }

  lemma OthersKeepPhase(s: State, a: Action, i: nat)
    requires Enabled(s, a) && i < |s.callers| && !OwnStep(a, i)
    ensures i < |Apply(s, a).callers| && Apply(s, a).callers[i].phase == s.callers[i].phase
  {
    hide Due, Oldest, Newest;
  }

  lemma OwnStepRefuses(s: State, a: Action, i: nat)
    requires Inv(s) && Enabled(s, a) && OwnStep(a, i)
    ensures i < |s.callers| == |Apply(s, a).callers|
    ensures Apply(s, a).callers[i].phase == Done(Err(NotConnect)) <==> a == Insert(i) && s.net.None?
    ensures Apply(s, a).callers[i].phase == Done(Err(NetError)) <==> a == SendFails(i)
    ensures !s.callers[i].phase.Done?
  {
    hide DictFits, FlightOk, StartedOk, LoggedOk, SettledOk, QueueOk, PendingOk;
    assert CallerOk(s.callers[i]);
  }

  lemma DrawnIsNotDone(s: State, a: Action, i: nat)
    requires Enabled(s, a) && |s.callers| <= i < |Apply(s, a).callers|
    ensures Apply(s, a).callers[i].phase == Drawn && !OwnStep(a, i)
  {
    hide Due, Oldest, Newest;
  }

  lemma RefusedStep(s: State, a: Action, i: nat)
    requires Inv(s) && Enabled(s, a) && i < |Apply(s, a).callers|
    ensures Apply(s, a).callers[i].phase == Done(Err(NotConnect)) <==>
      || (i < |s.callers| && s.callers[i].phase == Done(Err(NotConnect)))
      || (a == Insert(i) && s.net.None?)
    ensures Apply(s, a).callers[i].phase == Done(Err(NetError)) <==>
      || (i < |s.callers| && s.callers[i].phase == Done(Err(NetError)))
      || a == SendFails(i)
  {
    hide Inv, Apply, Enabled;
    if i >= |s.callers| {
      DrawnIsNotDone(s, a, i);
    } else if OwnStep(a, i) {
      OwnStepRefuses(s, a, i);
    } else {
      OthersKeepPhase(s, a, i);
    }
  }

  /** In every run a call ends as not connected exactly if the client had no connection when the call
      registered, and with a network error exactly if its send failed. */
  lemma {:induction false} RefusedExactly(states: seq<State>, actions: seq<Action>, n: nat, i: nat)
    requires Run(states, actions) && n <= |actions| && i < |states[n].callers|
    ensures states[n].callers[i].phase == Done(Err(NotConnect))
      <==> exists k :: 0 <= k < n && actions[k] == Insert(i) && states[k].net.None?
    ensures states[n].callers[i].phase == Done(Err(NetError))
      <==> exists k :: 0 <= k < n && actions[k] == SendFails(i)
    decreases n
  {
    hide Run, Apply, Enabled, Inv, IsInit;
    RunStarts(states, actions);
    if n > 0 {
      var m := n - 1;
      RunInv(states, actions, m);
      RunStep(states, actions, m);
      RefusedStep(states[m], actions[m], i);
      if i < |states[m].callers| {
        RefusedExactly(states, actions, m, i);
      } else {
        NotYetDrawn(states, actions, m, i);
      }
    } else {
      NobodyYet(states[0]);
    }
  }

  lemma NobodyYet(s: State)
    requires IsInit(s)
    ensures s.callers == []
  {
  }

  /** A caller's own steps come after its draw. */
  lemma {:induction false} NotYetDrawn(states: seq<State>, actions: seq<Action>, n: nat, i: nat)
    requires Run(states, actions) && n <= |actions| && i >= |states[n].callers|
    ensures forall k :: 0 <= k < n ==> actions[k] != Insert(i) && actions[k] != SendFails(i)
    decreases n
  {
    hide Run, Apply, Enabled;
    RunStarts(states, actions);
    if n > 0 {
      RunStep(states, actions, n - 1);
      CallersGrow(states[n - 1], actions[n - 1], i);
      NotYetDrawn(states, actions, n - 1, i);
    }
  }

  lemma CallersGrow(s: State, a: Action, i: nat)
    requires Enabled(s, a) && i >= |Apply(s, a).callers|
    ensures i >= |s.callers| && a != Insert(i) && a != SendFails(i)
  {
    hide Due, Oldest, Newest;
  }
}

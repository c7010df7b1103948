/** What sessions can rely on over whole runs of the session machine. */
module SessionTheorems {
  import opened Outcomes
  import opened TimedQueue
  import opened SessionMachine
  import opened SessionInvariant

  // ----- closing -----

  /** Closed is called once for a session, exactly when its token leaves the map, and only with a
      disconnect of that session at least `session_save_time` ms in the past; the controller is there
      until Closed has returned. */
  lemma ClosedOnceAndWhenDue(states: seq<State>, actions: seq<Action>, n: nat, t: nat)
    requires Run(states, actions) && n < |states| && t < |states[n].tokens|
    ensures var s := states[n];
      && (s.tokens[t].sid !in s.dict <==> exists m :: 0 <= m < |s.closed| && s.closed[m].token == t)
      && (s.tokens[t].hasController <==> s.tokens[t].sid in s.dict || s.sweeper == Emptying(t))
      && (forall l, m :: 0 <= l < m < |s.closed| ==> s.closed[l].token != s.closed[m].token)
      && (forall m :: 0 <= m < |s.closed| && s.closed[m].token == t ==>
            AgeMs(s.closed[m].at, s.closed[m].entry) >= s.save && PushedFor(s, t, s.closed[m].entry))
  {
    RunInv(states, actions, n);
    assert LiveToken(states[n], t);
    var s := states[n];
    forall m | 0 <= m < |s.closed| && s.closed[m].token == t
      ensures s.tokens[t].sid !in s.dict && Expired(s.closed[m].at, s.closed[m].entry, s.save) &&
        PushedFor(s, t, s.closed[m].entry)
    {
      assert ClosingOk(s, s.closed[m]);
      var l :| 0 <= l < |s.pushed| && s.pushed[l].1 == s.closed[m].entry;
      SameSid(s, s.handlers[s.pushed[l].0].token, t);
    }
  }

  /** Some handler of this very token went through to `peer_disconnect` and left this entry. */
  predicate PushedFor(s: State, t: nat, e: Entry) {
    exists m :: 0 <= m < |s.pushed| && s.pushed[m].1 == e
      && s.pushed[m].0 < |s.handlers| && s.handlers[s.pushed[m].0].token == t
  }

  lemma SameSid(s: State, t: nat, u: nat)
    requires TokensOk(s) && t < |s.tokens| && u < |s.tokens| && s.tokens[t].sid == s.tokens[u].sid
    ensures t == u
  {
  }

  /** A token's peer is always a handler that is serving that token. */
  lemma PeerIsServing(states: seq<State>, actions: seq<Action>, n: nat, t: nat)
    requires Run(states, actions) && n < |states| && t < |states[n].tokens| && states[n].tokens[t].peer.Some?
    ensures var s, h := states[n], states[n].tokens[t].peer.value;
      h < |s.handlers| && s.handlers[h] == Handler(t, Serving, s.handlers[h].alive)
  {
    RunInv(states, actions, n);
    assert PeerOk(states[n], t);
  }

  // ----- the resumable window -----

  /** From `since` on, every disconnect of the session on record is at least that recent. */
  predicate Window(s: State, sid: int, t: nat, since: nat) {
    && sid in s.dict && s.dict[sid] == t
    && (forall e :: e in s.queue && e.key == sid ==> e.at >= since)
    && (s.sweeper.Condemned? && s.sweeper.entry.key == sid ==> s.sweeper.entry.at >= since)
  }

  lemma WindowStep(s: State, a: Action, sid: int, t: nat, since: nat)
    requires TokensOk(s) && CondemnedOk(s) && Enabled(s, a) && Window(s, sid, t, since)
    requires since <= s.now && s.now < since + s.save * 1_000_000
    ensures Window(Apply(s, a), sid, t, since)
  {
    hide Due, Disconnected, WasPushed;
    var u := Apply(s, a);
    forall e | e in u.queue && e.key == sid ensures e.at >= since {
      assert e in s.queue || e.at == s.now;
    }
    if a.Remove? {
      ExpiredIsDeadline(s.now, s.sweeper.entry, s.save);
    } else if a.Pop? && u.sweeper.Condemned? {
      assert Last(s.queue) in s.queue;
    }
  }

  lemma StepKeepsSave(s: State, a: Action)
    requires Enabled(s, a)
    ensures Apply(s, a).save == s.save && Apply(s, a).now >= s.now
  {
    hide Due, Disconnected;
  }

  lemma {:induction false} RunKeepsSave(states: seq<State>, actions: seq<Action>, n: nat, m: nat)
    requires Run(states, actions) && n <= m < |states|
    ensures states[m].save == states[n].save && states[m].now >= states[n].now
    decreases m
  {
    hide Run, Apply, Enabled;
    RunStarts(states, actions);
    if n < m {
      RunKeepsSave(states, actions, n, m - 1);
      RunStep(states, actions, m - 1);
      StepKeepsSave(states[m - 1], actions[m - 1]);
    }
  }

  lemma WindowOpens(s: State, h: nat, sid: int)
    requires TokensOk(s) && Enabled(s, Enqueue(h)) && sid == s.tokens[s.handlers[h].token].sid
    requires sid in s.dict && sid !in Keys(s.queue)
    ensures Window(Apply(s, Enqueue(h)), sid, s.handlers[h].token, s.now)
  {
    var u := Apply(s, Enqueue(h));
    forall e | e in u.queue && e.key == sid ensures e.at >= s.now {
      assert e in s.queue ==> e.key in Keys(s.queue);
    }
  }

  /** A session whose handler queues its disconnect while no other disconnect of the session is
      queued can be resumed, with the same token, for the whole save time, whatever other sessions,
      handlers and sweeps do meanwhile. */
  lemma {:induction false} ResumableWindow(states: seq<State>, actions: seq<Action>, n: nat, m: nat, h: nat, sid: int)
    requires Run(states, actions) && n < m < |states| && actions[n] == Enqueue(h)
    requires sid == states[n].tokens[states[n].handlers[h].token].sid
    requires sid in states[n].dict && sid !in Keys(states[n].queue)
    requires states[m].now < states[n].now + states[n].save * 1_000_000
    ensures Window(states[m], sid, states[n].handlers[h].token, states[n].now)
    decreases m
  {
    hide Window, Apply, Keys, NoLeak, PeersOk, QueueOk, PushedOk, ClosedOk, LiveOk, TokensOk, CondemnedOk, HandlersOk;
    if m == n + 1 {
      RunInv(states, actions, n);
      WindowOpens(states[n], h, sid);
    } else {
      RunInv(states, actions, m - 1);
      RunKeepsSave(states, actions, n, m - 1);
      StepKeepsSave(states[m - 1], actions[m - 1]);
      ResumableWindow(states, actions, n, m - 1, h, sid);
      WindowStep(states[m - 1], actions[m - 1], sid, states[n].handlers[h].token, states[n].now);
    }
  }

  ghost predicate Prompt(states: seq<State>, period: nat) {
    forall n :: 0 <= n < |states| ==> states[n].now <= states[n].lastSweep + period * 1_000_000
  }

  predicate Timely(s: State) {
    && s.lastSweep <= s.now
    && (!s.sweeper.Idle? ==> s.lastSweep <= s.sweepStart <= s.now)
    && (forall e :: e in s.queue ==> s.lastSweep <= Deadline(e, s.save))
  }

  lemma TimelyStep(s: State, a: Action, period: nat)
    requires QueueOk(s) && Timely(s) && Enabled(s, a)
    requires s.now <= s.lastSweep + period * 1_000_000 && s.save + period < WRAP
    ensures Timely(Apply(s, a))
  {
    hide Disconnected, WasPushed;
    var u, q := Apply(s, a), s.queue;
    forall e | e in u.queue ensures u.lastSweep <= Deadline(e, s.save) {
      assert e in q || e.at == s.now;
      if a.Pop? {
        assert Last(q) in q && e in q;
        var j :| 0 <= j < |q| && q[j] == e;
        assert e.at >= Last(q).at;
      }
    }
  }

  lemma PromptAt(states: seq<State>, period: nat, k: nat)
    requires Prompt(states, period) && k < |states|
    ensures states[k].now <= states[k].lastSweep + period * 1_000_000
  {
  }

  lemma InvQueue(s: State)
    requires Inv(s)
    ensures QueueOk(s)
  {
  }

  lemma StartsTimely(s: State)
    requires IsInit(s)
    ensures Timely(s)
  {
  }

  lemma {:induction false} RunTimely(states: seq<State>, actions: seq<Action>, period: nat, n: nat)
    requires Run(states, actions) && Prompt(states, period) && n < |states| && states[0].save + period < WRAP
    ensures Timely(states[n])
  {
    hide Run, Apply, Enabled, Inv, Prompt, Timely, QueueOk;
    RunStarts(states, actions);
    if n > 0 {
      RunTimely(states, actions, period, n - 1);
      RunInv(states, actions, n - 1);
      RunStep(states, actions, n - 1);
      PromptAt(states, period, n - 1);
      InvQueue(states[n - 1]);
      RunKeepsSave(states, actions, 0, n - 1);
      TimelyStep(states[n - 1], actions[n - 1], period);
    } else {
      StartsTimely(states[0]);
    }
  }

  lemma {:induction false} GoneForEver(states: seq<State>, actions: seq<Action>, n: nat, m: nat, t: nat)
    requires Run(states, actions) && n <= m < |states| && t < |states[n].tokens|
    requires states[n].tokens[t].sid !in states[n].dict
    ensures t < |states[m].tokens| && states[m].tokens[t].sid == states[n].tokens[t].sid
    ensures states[n].tokens[t].sid !in states[m].dict
    decreases m
  {
    hide Run, Apply, Enabled;
    RunStarts(states, actions);
    if n < m {
      GoneForEver(states, actions, n, m - 1, t);
      RunStep(states, actions, m - 1);
      GoneStep(states[m - 1], actions[m - 1], t);
    }
  }

  lemma GoneStep(s: State, a: Action, t: nat)
    requires Enabled(s, a) && t < |s.tokens| && s.tokens[t].sid !in s.dict
    ensures var u := Apply(s, a);
      t < |u.tokens| && u.tokens[t].sid == s.tokens[t].sid && u.tokens[t].sid !in u.dict
  {
    hide Due, Disconnected;
  }

  /** With prompt sweeps, and no handler of the session having queued a disconnect during the
      preceding save time plus one sweep period, the session can be resumed with the same token until
      its save time is over exactly if its token is still in the map when the disconnect is queued. */
  lemma ResumableWindowTimed(states: seq<State>, actions: seq<Action>, period: nat, n: nat, m: nat, h: nat, sid: int)
    requires Run(states, actions) && Prompt(states, period) && states[0].save + period < WRAP
    requires n < m < |states| && actions[n] == Enqueue(h)
    requires sid == states[n].tokens[states[n].handlers[h].token].sid
    requires forall l :: 0 <= l < |states[n].pushed| && states[n].pushed[l].1.key == sid ==>
      AgeMs(states[n].now, states[n].pushed[l].1) > states[n].save + period
    requires states[m].now < states[n].now + states[n].save * 1_000_000
    ensures sid in states[m].dict && states[m].dict[sid] == states[n].handlers[h].token
      <==> sid in states[n].dict
  {
    hide Apply, NoLeak, PeersOk, PushedOk, ClosedOk, LiveOk, TokensOk, CondemnedOk, HandlersOk;
    var s := states[n];
    RunInv(states, actions, n);
    RunTimely(states, actions, period, n);
    if sid in s.dict {
      NoRecentEntry(s, period, sid);
      ResumableWindow(states, actions, n, m, h, sid);
      assert Window(states[m], sid, s.handlers[h].token, s.now);
    } else {
      GoneForEver(states, actions, n, m, s.handlers[h].token);
    }
  }

  lemma NoRecentEntry(s: State, period: nat, sid: int)
    requires QueueOk(s) && Timely(s) && s.now <= s.lastSweep + period * 1_000_000
    requires forall l :: 0 <= l < |s.pushed| && s.pushed[l].1.key == sid ==>
      AgeMs(s.now, s.pushed[l].1) > s.save + period
    ensures sid !in Keys(s.queue)
  {
    forall e | e in s.queue ensures e.key != sid {
      var j :| 0 <= j < |s.queue| && s.queue[j] == e;
      assert WasPushed(s, s.queue[j]);
      var l :| 0 <= l < |s.pushed| && s.pushed[l].1 == e;
    }
  }

  // ----- one sweep -----

  predicate IsGone(s: State, sid: int) { sid in s.dict && Disconnected(s, s.dict[sid]) }

  lemma SweptOutUnfolds(q: seq<Entry>, now: nat, limit: nat)
    requires q != [] && Due(now, Last(q), limit)
    ensures Swept(q, At(now, |q|), limit) == Swept(Front(q), At(now, |q| - 1), limit)
    ensures Elements(SweptOut(q, At(now, |q|), limit))
         == {Last(q).key} + Elements(SweptOut(Front(q), At(now, |q| - 1), limit))
  {
    assert At(now, |q|)[1..] == At(now, |q| - 1);
  }

  predicate LostController(s: State, u: State) {
    exists t :: 0 <= t < |s.tokens| && u.tokens == s.tokens[t := s.tokens[t].(hasController := false)]
  }

  lemma RemovalKeepsOthers(s: State, u: State)
    requires u.tokens == s.tokens || LostController(s, u)
    requires u.handlers == s.handlers
    ensures forall t: nat :: Disconnected(s, t) <==> Disconnected(u, t)
  {
  }

  /** What the sweep does about one due entry. */
  lemma OneEntry(s: State) returns (actions: seq<Action>, u: State)
    requires TokensOk(s) && (s.sweeper.Idle? || s.sweeper.Sweeping?)
    requires s.queue != [] && Due(s.now, Last(s.queue), s.save)
    ensures Leads(s, actions, u) && TokensOk(u) && u.sweeper == Sweeping
    ensures u.queue == Front(s.queue) && u.now == s.now && u.save == s.save
    ensures u.sweepStart == if s.sweeper.Idle? then s.now else s.sweepStart
    ensures u.dict == if IsGone(s, Last(s.queue).key) then s.dict - {Last(s.queue).key} else s.dict
    ensures forall t: nat :: Disconnected(s, t) <==> Disconnected(u, t)
  {
    hide Due;
    var v := Apply(s, Pop);
    KeepsTokens(s, Pop);
    if v.sweeper.Condemned? {
      var w := Apply(v, Remove);
      u := Apply(w, Clear);
      KeepsTokens(v, Remove);
      KeepsTokens(w, Clear);
      RemovalKeepsOthers(s, u);
      assert Leads(u, [], u);
      hide Leads;
      LeadsCons(w, Clear, [], u);
      LeadsCons(v, Remove, [Clear] + [], u);
      actions := [Pop] + ([Remove] + ([Clear] + []));
      LeadsCons(s, Pop, [Remove] + ([Clear] + []), u);
    } else {
      u := v;
      assert Leads(u, [], u);
      LeadsCons(s, Pop, [], u);
      actions := [Pop] + [];
    }
  }

  /** A sweep that nothing interrupts removes exactly the disconnected sessions that are due, and
      leaves in the queue exactly what the pop-back loop leaves: what the manager's method does. It
      counts as a pass from where it began. */
  lemma {:induction false} UninterruptedSweep(s: State) returns (actions: seq<Action>, u: State)
    requires TokensOk(s) && (s.sweeper.Idle? || s.sweeper.Sweeping?)
    ensures Leads(s, actions, u) && u.sweeper == Idle
    ensures u.queue == Swept(s.queue, At(s.now, |s.queue|), s.save)
    ensures u.now == s.now && u.lastSweep == if s.sweeper.Idle? then s.now else s.sweepStart
    ensures forall sid :: sid in u.dict <==>
      sid in s.dict && !(sid in Elements(SweptOut(s.queue, At(s.now, |s.queue|), s.save)) && IsGone(s, sid))
    decreases |s.queue|
  {
    hide Due, Disconnected;
    if s.queue == [] || !Due(s.now, Last(s.queue), s.save) {
      actions, u := [Pop], Apply(s, Pop);
      assert [Pop][1..] == [] && Leads(u, [], u);
    } else {
      hide Leads, Swept, SweptOut, TokensOk;
      var first, v := OneEntry(s);
      SweptOutUnfolds(s.queue, s.now, s.save);
      var rest;
      rest, u := UninterruptedSweep(v);
      actions := first + rest;
      LeadsTrans(s, first, v, rest, u);
    }
  }

  lemma {:induction false} LeadsTrans(s: State, a: seq<Action>, t: State, b: seq<Action>, u: State)
    requires Leads(s, a, t) && Leads(t, b, u)
    ensures Leads(s, a + b, u)
    decreases |a|
  {
    if a == [] {
      assert a + b == b;
    } else {
      LeadsTrans(Apply(s, a[0]), a[1..], t, b, u);
      assert (a + b)[1..] == a[1..] + b;
    }
  }

  lemma LeadsCons(s: State, a: Action, rest: seq<Action>, u: State)
    requires Enabled(s, a) && Leads(Apply(s, a), rest, u)
    ensures Leads(s, [a] + rest, u)
  {
    assert ([a] + rest)[1..] == rest;
  }
}

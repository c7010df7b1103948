/** What callers can rely on over whole runs of the call machine. */
module CallTheorems {
  import opened Outcomes
  import opened Wire
  import opened TimedQueue
  import opened Requests
  import opened CallMachine
  import opened CallInvariant

  /** Each serial is in at most one place: one request channel, one handler or one reply channel. */
  lemma OnePlaceOnly(states: seq<State>, actions: seq<Action>, n: nat, j: nat, k: nat)
    requires Run(states, actions) && n < |states| && j < k < |states[n].flight|
    ensures states[n].flight[j].serial != states[n].flight[k].serial
  {
    RunInv(states, actions, n);
    var s := states[n];
    assert ItemOk(s.callers, s.flight[j]) && ItemOk(s.callers, s.flight[k]);
  }

  /** No request is executed twice, and what is executed is the request that was issued. */
  lemma ExecutedAtMostOnce(states: seq<State>, actions: seq<Action>, n: nat, m: nat)
    requires Run(states, actions) && n < |states| && m < |states[n].started|
    ensures var s, e := states[n], states[n].started[m];
      && 1 <= e.serial <= |s.callers| && s.callers[e.serial - 1].req == e.req
      && forall l :: 0 <= l < |s.started| && l != m ==> s.started[l].serial != e.serial
  {
    RunInv(states, actions, n);
    var s := states[n];
    assert StartOk(s.callers, s.started[m]);
    forall l | 0 <= l < |s.started| && l != m ensures s.started[l].serial != s.started[m].serial {
      assert StartOk(s.callers, s.started[l]);
    }
  }

  /** A caller that gets a value gets what the one execution of its own request produced; otherwise
      it was not connected, its send failed, or its own serial timed out. */
  lemma OutcomeIsOwn(states: seq<State>, actions: seq<Action>, n: nat, i: nat)
    requires Run(states, actions) && n < |states| && i < |states[n].callers|
    requires states[n].callers[i].phase.Done? && TwoWay(states[n].callers[i].req)
    ensures var s, c := states[n], states[n].callers[i];
      match c.phase.outcome
      case Ok(payload) => c.stage == Ended(payload) && Start(i, c.serial, c.req) in s.started
      case Err(e) => e == NotConnect || e == NetError || e == SerialTimeOut(c.serial)
  {
    RunInv(states, actions, n);
    assert CallerOk(states[n].callers[i]);
  }

  /** A sender is used at most once, so a caller is answered at most once. */
  lemma AnsweredAtMostOnce(states: seq<State>, actions: seq<Action>, n: nat, l: nat, m: nat)
    requires Run(states, actions) && n < |states| && l < m < |states[n].settled|
    ensures states[n].settled[l].0 != states[n].settled[m].0
  {
    RunInv(states, actions, n);
  }

  lemma StepKeepsOutcome(s: State, a: Action, i: nat)
    requires Enabled(s, a) && i < |s.callers| && s.callers[i].phase.Done?
    ensures i < |Apply(s, a).callers| && Apply(s, a).callers[i].phase == s.callers[i].phase
  {
    hide Due;
  }

  /** An outcome, once given, never changes. */
  lemma {:induction false} OutcomeIsFinal(states: seq<State>, actions: seq<Action>, n: nat, m: nat, i: nat)
    requires Run(states, actions) && n <= m < |states|
    requires i < |states[n].callers| && states[n].callers[i].phase.Done?
    ensures i < |states[m].callers| && states[m].callers[i].phase == states[n].callers[i].phase
    decreases m
  {
    hide Run, Apply, Enabled;
    RunStarts(states, actions);
    if n < m {
      OutcomeIsFinal(states, actions, n, m - 1, i);
      RunStep(states, actions, m - 1);
      StepKeepsOutcome(states[m - 1], actions[m - 1], i);
    }
  }

  /** Serials are fresh: different callers hold different ones, everything that carries a serial
      carries one already drawn, and the counter survives every reconnect. So a caller about to
      register never finds its serial taken. */
  lemma SerialsAreFresh(states: seq<State>, actions: seq<Action>, n: nat)
    requires Run(states, actions) && n < |states|
    ensures var s := states[n];
      && (forall i, j :: 0 <= i < j < |s.callers| ==> s.callers[i].serial != s.callers[j].serial)
      && (forall i :: 0 <= i < |s.callers| ==> s.callers[i].serial < s.nextSerial)
      && (forall serial :: serial in s.table.dict ==> serial < s.nextSerial)
      && (forall e :: e in s.table.queue ==> e.key < s.nextSerial)
      && (forall m :: m in s.flight ==> m.serial < s.nextSerial)
      && (forall i: nat :: Enabled(s, Insert(i)) ==> s.callers[i].serial !in s.table.dict)
  {
    RunInv(states, actions, n);
    var s := states[n];
    forall serial | serial in s.table.dict ensures serial < s.nextSerial {
      assert SenderOk(s.callers, serial, s.table.dict[serial]);
    }
    forall e | e in s.table.queue ensures e.key < s.nextSerial {
      var j :| 0 <= j < |s.table.queue| && s.table.queue[j] == e;
      assert StampedKey(s, s.table.queue[j].key);
    }
    forall m | m in s.flight ensures m.serial < s.nextSerial {
      assert ItemOk(s.callers, m);
    }
    forall i: nat | Enabled(s, Insert(i)) ensures s.callers[i].serial !in s.table.dict {
      assert CallerOk(s.callers[i]);
      assert s.callers[i].serial in s.table.dict ==>
        SenderOk(s.callers, s.callers[i].serial, s.table.dict[s.callers[i].serial]);
    }
  }

  /** In every run the i-th caller to draw got serial i + 1, as the draws from a new object do. */
  lemma DrawnInOrder(states: seq<State>, actions: seq<Action>, n: nat, i: nat)
    requires Run(states, actions) && n < |states| && i < |states[n].callers|
    ensures states[n].callers[i].serial == i + 1 && states[n].nextSerial == |states[n].callers| + 1
  {
    RunInv(states, actions, n);
  }

  /** Nobody is forgotten: a waiting serial is queued for the sweep, or its caller is about to queue
      it, or the sweep is about to fail it, whether or not its send succeeded. */
  lemma NobodyForgotten(states: seq<State>, actions: seq<Action>, n: nat, serial: int)
    requires Run(states, actions) && n < |states| && serial in states[n].table.dict
    ensures var s := states[n];
      || (exists e :: e in s.table.queue && e.key == serial)
      || (s.table.dict[serial] < |s.callers| && s.callers[s.table.dict[serial]].phase.Inserted?)
      || (s.sweeper.Firing? && s.sweeper.entry.key == serial)
  {
    RunInv(states, actions, n);
    assert IsPending(states[n], serial);
  }

  // ----- draining -----

  ghost predicate Leads(s: State, actions: seq<Action>, t: State)
    decreases |actions|
  {
    if actions == [] then s == t
    else Enabled(s, actions[0]) && Leads(Apply(s, actions[0]), actions[1..], t)
  }

  function DrainActions(n: nat): seq<Action> {
    if n == 0 then [Pop] else [Pop, Fire] + DrainActions(n - 1)
  }

  predicate Quiet(s: State) {
    && !s.sweeper.Firing?
    && (forall i :: 0 <= i < |s.callers| ==> !s.callers[i].phase.Inserted?)
    && (forall e :: e in s.table.queue ==> Due(s.now, e, s.limit))
  }

  lemma QuietSettles(s: State)
    requires Inv(s) && Quiet(s) && s.table.queue != []
    ensures Enabled(s, Pop) && Enabled(Apply(s, Pop), Fire)
    ensures var t := Apply(Apply(s, Pop), Fire); Inv(t) && Quiet(t) && t.table.queue == Front(s.table.queue)
  {
    StepKeepsInv(s, Pop);
    var u := Apply(s, Pop);
    assert Last(s.table.queue) in s.table.queue;
    StepKeepsInv(u, Fire);
    assert forall e :: e in Front(s.table.queue) ==> e in s.table.queue;
  }

  lemma NobodyWaits(s: State)
    requires Inv(s) && Quiet(s) && s.table.queue == []
    ensures s.table.dict == map[]
  {
    assert Keys(s.table.queue) == {};
    forall serial ensures serial !in s.table.dict {
      assert serial in s.table.dict ==> SenderOk(s.callers, serial, s.table.dict[serial]) && IsPending(s, serial);
    }
  }

  lemma LastPop(s: State) returns (t: State)
    requires !s.sweeper.Firing? && s.table.queue == []
    ensures Leads(s, DrainActions(0), t) && t.table == s.table
  {
    t := Apply(s, Pop);
    assert DrainActions(0)[1..] == [];
    assert Leads(t, [], t);
  }

  lemma LeadsPair(s: State, rest: seq<Action>, t: State)
    requires Enabled(s, Pop) && Enabled(Apply(s, Pop), Fire) && Leads(Apply(Apply(s, Pop), Fire), rest, t)
    ensures Leads(s, [Pop, Fire] + rest, t)
  {
    hide Apply, Enabled;
    assert ([Pop, Fire] + rest)[1..] == [Fire] + rest && ([Fire] + rest)[1..] == rest;
    assert Leads(Apply(s, Pop), [Fire] + rest, t);
  }

  /** When no caller is mid-registration and every queued request is overdue, one uninterrupted
      sweep leaves no waiting sender behind. */
  lemma {:induction false} QuietDrains(s: State) returns (t: State)
    requires Inv(s) && Quiet(s)
    ensures Leads(s, DrainActions(|s.table.queue|), t)
    ensures t.table.dict == map[] && t.table.queue == []
    decreases |s.table.queue|
  {
    hide Inv;
    if s.table.queue == [] {
      t := LastPop(s);
      NobodyWaits(s);
    } else {
      hide Apply, Enabled, Leads, Quiet;
      QuietSettles(s);
      var v := Apply(Apply(s, Pop), Fire);
      t := QuietDrains(v);
      LeadsPair(s, DrainActions(|s.table.queue| - 1), t);
    }
  }

  lemma SweptTableUnfolds<T>(t: Table<T>, now: nat, limit: nat)
    requires t.queue != [] && Due(now, Last(t.queue), limit)
    ensures var popped := Settled(t.(queue := Front(t.queue)), Last(t.queue).key);
      SweptTable(t, At(now, |t.queue|), limit) == SweptTable(popped, At(now, |popped.queue|), limit)
  {
    var q := t.queue;
    var rest := SweptOut(Front(q), At(now, |q| - 1), limit);
    assert At(now, |q|)[1..] == At(now, |q| - 1);
    assert Elements([Last(q).key] + rest) == {Last(q).key} + Elements(rest);
  }

  /** A sweep that nothing interrupts does to the machine's table what `check` does to the client's
      map and the request manager's queue, and counts as a pass from where it began. */
  lemma {:induction false} UninterruptedSweep(s: State) returns (actions: seq<Action>, t: State)
    requires !s.sweeper.Firing?
    ensures Leads(s, actions, t) && t.sweeper == Idle
    ensures t.table == SweptTable(s.table, At(s.now, |s.table.queue|), s.limit)
    ensures t.now == s.now && t.flight == s.flight
    ensures t.lastSweep == if s.sweeper.Idle? then s.now else s.sweepStart
    decreases |s.table.queue|
  {
    var q := s.table.queue;
    var u := Apply(s, Pop);
    if q == [] || !Due(s.now, Last(q), s.limit) {
      actions, t := [Pop], u;
      assert [Pop][1..] == [] && Leads(u, [], u);
      NoElements();
      assert s.table.dict - {} == s.table.dict;
    } else {
      var v := Apply(u, Fire);
      assert v.table == Settled(s.table.(queue := Front(q)), Last(q).key) && v.now == s.now && v.limit == s.limit;
      var rest;
      rest, t := UninterruptedSweep(v);
      actions := [Pop, Fire] + rest;
      assert actions[1..] == [Fire] + rest && ([Fire] + rest)[1..] == rest;
      assert Leads(u, [Fire] + rest, t);
      SweptTableUnfolds(s.table, s.now, s.limit);
    }
  }

  // ----- timeliness -----

  /** Sweeps are prompt: at any time, the last completed pass began at most `period` ms ago. */
  ghost predicate Prompt(states: seq<State>, period: nat) {
    forall n :: 0 <= n < |states| ==> states[n].now <= states[n].lastSweep + period * 1_000_000
  }

  /** Whatever is queued or about to fire was not overdue when the last completed pass began. */
  predicate Timely(s: State) {
    && s.lastSweep <= s.now
    && (!s.sweeper.Idle? ==> s.lastSweep <= s.sweepStart <= s.now)
    && (forall e :: e in s.table.queue ==> s.lastSweep <= Deadline(e, s.limit))
    && (s.sweeper.Firing? ==> s.lastSweep <= Deadline(s.sweeper.entry, s.limit) && s.sweeper.entry.at <= s.now)
  }

  lemma YoungEnough(s: State, e: Entry, period: nat)
    requires s.now <= s.lastSweep + period * 1_000_000 && s.lastSweep <= Deadline(e, s.limit)
    ensures AgeMs(s.now, e) <= s.limit + period
  {
  }

  lemma TimelyPop(s: State, period: nat)
    requires QueueOk(s) && Timely(s) && !s.sweeper.Firing?
    requires s.now <= s.lastSweep + period * 1_000_000 && s.limit + period < WRAP
    ensures Timely(DoPop(s))
  {
    var q := s.table.queue;
    if q != [] {
      assert Last(q) in q;
      YoungEnough(s, Last(q), period);
      YoungAgree(s.now, Last(q), s.limit);
      ExpiredIsDeadline(s.now, Last(q), s.limit);
      if Due(s.now, Last(q), s.limit) {
        assert forall e :: e in Front(q) ==> e in q;
      } else {
        forall e | e in q ensures s.now <= Deadline(e, s.limit) {
          var j :| 0 <= j < |q| && q[j] == e;
          assert e.at >= Last(q).at;
        }
      }
    }
  }

  lemma SweepUntouched(s: State, a: Action)
    requires Enabled(s, a) && !a.Pop? && !a.Stamp?
    ensures var t := Apply(s, a);
      && t.table.queue == s.table.queue && t.now >= s.now && t.limit == s.limit
      && t.lastSweep == s.lastSweep && t.sweepStart == s.sweepStart
      && t.sweeper == if a.Fire? then Sweeping else s.sweeper
  {
    hide Oldest, Newest;
  }

  lemma TimelyStamp(s: State, i: nat)
    requires Timely(s) && Enabled(s, Stamp(i))
    ensures Timely(Apply(s, Stamp(i)))
  {
    assert forall e :: e in Apply(s, Stamp(i)).table.queue ==> e in s.table.queue || e.at == s.now;
  }

  lemma TimelyStep(s: State, a: Action, period: nat)
    requires QueueOk(s) && Timely(s) && Enabled(s, a)
    requires s.now <= s.lastSweep + period * 1_000_000 && s.limit + period < WRAP
    ensures Timely(Apply(s, a)) && Apply(s, a).limit == s.limit
  {
    hide QueueOk, Due, Oldest, Newest;
    if a.Pop? {
      TimelyPop(s, period);
    } else if a.Stamp? {
      TimelyStamp(s, a.i);
    } else {
      hide Apply, Enabled;
      SweepUntouched(s, a);
    }
  }

  lemma PromptAt(states: seq<State>, period: nat, k: nat)
    requires Prompt(states, period) && k < |states|
    ensures states[k].now <= states[k].lastSweep + period * 1_000_000
  {
  }

  lemma InvQueue(s: State)
    requires Inv(s)
    ensures QueueOk(s)
  {
  }

  lemma StartsTimely(s: State)
    requires IsInit(s)
    ensures Timely(s)
  {
  }

  lemma {:induction false} RunTimely(states: seq<State>, actions: seq<Action>, period: nat, n: nat)
    requires Run(states, actions) && Prompt(states, period) && n < |states|
    requires states[0].limit + period < WRAP
    ensures Timely(states[n]) && states[n].limit == states[0].limit
  {
    hide Run, Apply, Enabled, Inv, Prompt, Timely, QueueOk;
    RunStarts(states, actions);
    if n > 0 {
      RunTimely(states, actions, period, n - 1);
      RunInv(states, actions, n - 1);
      RunStep(states, actions, n - 1);
      PromptAt(states, period, n - 1);
      InvQueue(states[n - 1]);
      TimelyStep(states[n - 1], actions[n - 1], period);
    } else {
      StartsTimely(states[0]);
    }
  }

  /** With prompt sweeps and timeout + period below 2^32 ms, no queued or firing request is ever
      older than timeout + period, and the truncated comparison is the exact one for every entry the
      sweep can look at. */
  lemma NoRequestOutlivesTimeout(states: seq<State>, actions: seq<Action>, period: nat, n: nat)
    requires Run(states, actions) && Prompt(states, period) && n < |states|
    requires states[0].limit + period < WRAP
    ensures var s := states[n];
      && (forall e :: e in s.table.queue ==> AgeMs(s.now, e) <= s.limit + period)
      && (s.sweeper.Firing? ==> AgeMs(s.now, s.sweeper.entry) <= s.limit + period)
      && (forall e :: e in s.table.queue ==> (Due(s.now, e, s.limit) <==> Expired(s.now, e, s.limit)))
  {
    RunTimely(states, actions, period, n);
    var s := states[n];
    forall e | e in s.table.queue
      ensures AgeMs(s.now, e) <= s.limit + period && (Due(s.now, e, s.limit) <==> Expired(s.now, e, s.limit))
    {
      YoungEnough(s, e, period);
      YoungAgree(s.now, e, s.limit);
    }
    if s.sweeper.Firing? {
      YoungEnough(s, s.sweeper.entry, period);
    }
  }

  /** So a caller that has been stamped and is still waiting was stamped at most timeout + period ago. */
  lemma NobodyWaitsTooLong(states: seq<State>, actions: seq<Action>, period: nat, n: nat, serial: int)
    requires Run(states, actions) && Prompt(states, period) && n < |states|
    requires states[0].limit + period < WRAP
    requires serial in states[n].table.dict
    requires var s, i := states[n], states[n].table.dict[serial]; i < |s.callers| ==> !s.callers[i].phase.Inserted?
    ensures var s := states[n];
      exists e: Entry :: e.key == serial && AgeMs(s.now, e) <= s.limit + period
        && (e in s.table.queue || s.sweeper == Firing(e))
  {
    NoRequestOutlivesTimeout(states, actions, period, n);
    NobodyForgotten(states, actions, n, serial);
    var s := states[n];
    if e :| e in s.table.queue && e.key == serial {
    } else {
      assert s.sweeper == Firing(s.sweeper.entry);
    }
  }

  /** Everything queued, or just popped to be failed, was stamped by `since`. */
  predicate AllOld(s: State, since: nat) {
    && (forall e :: e in s.table.queue ==> e.at <= since)
    && (s.sweeper.Firing? ==> s.sweeper.entry.at <= since)
  }

  lemma OldStep(s: State, a: Action, since: nat)
    requires AllOld(s, since) && Enabled(s, a) && !a.Stamp?
    ensures AllOld(Apply(s, a), since)
  {
    hide Due, Oldest, Newest;
    if a.Pop? && s.table.queue != [] {
      assert Last(s.table.queue) in s.table.queue;
      assert forall e :: e in Front(s.table.queue) ==> e in s.table.queue;
    }
  }

  lemma OldAtOnce(s: State)
    requires QueueOk(s) && Timely(s)
    ensures AllOld(s, s.now)
  {
  }

  lemma {:induction false} NothingNew(states: seq<State>, actions: seq<Action>, period: nat, n: nat, m: nat)
    requires Run(states, actions) && Prompt(states, period) && n <= m < |states|
    requires states[0].limit + period < WRAP
    requires forall k :: n <= k < m ==> !actions[k].Stamp?
    ensures AllOld(states[m], states[n].now)
    decreases m
  {
    hide Run, Apply, Enabled, Inv, Prompt, Timely, QueueOk, AllOld;
    RunStarts(states, actions);
    if n < m {
      NothingNew(states, actions, period, n, m - 1);
      RunStep(states, actions, m - 1);
      OldStep(states[m - 1], actions[m - 1], states[n].now);
    } else {
      RunInv(states, actions, n);
      InvQueue(states[n]);
      RunTimely(states, actions, period, n);
      OldAtOnce(states[n]);
    }
  }

  lemma HasElement<T>(q: seq<T>)
    requires q != []
    ensures exists e :: e in q
  {
    assert q[0] in q;
  }

  lemma OverdueIsGone(s: State, since: nat, period: nat)
    requires Timely(s) && AllOld(s, since)
    requires s.now <= s.lastSweep + period * 1_000_000 && s.now > since + (s.limit + period) * 1_000_000
    ensures s.table.queue == [] && !s.sweeper.Firing?
  {
    if s.table.queue != [] {
      HasElement(s.table.queue);
    }
  }

  /** In a run with prompt sweeps: once callers have stopped registering and more than timeout + period
      has passed since, with nobody mid-registration, nothing is pending and nothing queued. */
  lemma QuietRunDrains(states: seq<State>, actions: seq<Action>, period: nat, n: nat, m: nat)
    requires Run(states, actions) && Prompt(states, period) && n <= m < |states|
    requires states[0].limit + period < WRAP
    requires forall k :: n <= k < m ==> !actions[k].Stamp?
    requires states[m].now > states[n].now + (states[0].limit + period) * 1_000_000
    requires forall i :: 0 <= i < |states[m].callers| ==> !states[m].callers[i].phase.Inserted?
    ensures states[m].table.dict == map[] && states[m].table.queue == []
  {
    hide Run, Inv, Prompt, AllOld, Timely;
    NothingNew(states, actions, period, n, m);
    RunTimely(states, actions, period, m);
    PromptAt(states, period, m);
    OverdueIsGone(states[m], states[n].now, period);
    var s := states[m];
    forall serial ensures serial !in s.table.dict {
      if serial in s.table.dict {
        NobodyForgotten(states, actions, m, serial);
      }
    }
  }
}

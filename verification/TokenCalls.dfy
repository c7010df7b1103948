/** Calls in the other direction, from a server token to its client. The token's actor registers and
    stamps a call in one step and sweeps without letting go, so its runs are coarser than the client's;
    they refine the call machine, with the token's peer as the connection calls are sent on. */
module TokenCalls {
  import opened Outcomes
  import opened Wire
  import opened TimedQueue
  import opened Requests
  import opened CallMachine
  import opened CallInvariant
  import opened CallTheorems

  datatype TokenAction =
    | Begin(i: nat)
    | Sweep(steps: seq<Action>)
    | Other(step: Action)

  /** The caller's step in `call` or `run`: refuse, or register and stamp at once. `NotConnect` stands
      for the token's `TokenDisconnect`. */
  function DoBegin(s: State, i: nat): State
    requires i < |s.callers|
  {
    var c := s.callers[i];
    if s.net.None? then AtPhase(s, i, Done(Err(NotConnect)))
    else if !TwoWay(c.req) then AtPhase(s, i, Stamped(s.net.value))
    else if c.serial in s.table.dict then AtPhase(s, i, Done(Err(SerialHave)))
    else
      AtPhase(s, i, Stamped(s.net.value)).(table := Enqueued(Registered(s.table, c.serial, i), c.serial, s.now))
  }

  predicate IsSweepStep(a: Action) { a.Pop? || a.Fire? || a.Tick? }

  predicate IsOwnStep(a: Action) { !a.Insert? && !a.Stamp? && !a.Pop? && !a.Fire? }

  /** A sweep is a stretch of pops and timeouts, during which only the clock moves. */
  ghost predicate TokenStep(s: State, a: TokenAction, t: State) {
    match a
    case Begin(i) => i < |s.callers| && s.callers[i].phase.Drawn? && t == DoBegin(s, i)
    case Sweep(steps) =>
      && s.sweeper.Idle? && t.sweeper.Idle?
      && (forall k :: 0 <= k < |steps| ==> IsSweepStep(steps[k]))
      && Leads(s, steps, t)
    case Other(step) => IsOwnStep(step) && Enabled(s, step) && t == Apply(s, step)
  }

  ghost predicate TokenRun(states: seq<State>, actions: seq<TokenAction>) {
    && |states| == |actions| + 1
    && IsInit(states[0])
    && forall k :: 0 <= k < |actions| ==> TokenStep(states[k], actions[k], states[k + 1])
  }

  /** Between actor steps nobody is mid-registration and no sweep is under way. */
  predicate Settling(s: State) {
    && s.sweeper.Idle?
    && forall i :: 0 <= i < |s.callers| ==> !s.callers[i].phase.Inserted?
  }

  lemma BeginIsInsertStamp(s: State, i: nat) returns (steps: seq<Action>)
    requires i < |s.callers| && s.callers[i].phase.Drawn? && Settling(s)
    ensures Leads(s, steps, DoBegin(s, i)) && Settling(DoBegin(s, i))
  {
    var t := DoBegin(s, i);
    assert Leads(t, [], t);
    var u := Apply(s, Insert(i));
    if u.callers[i].phase.Inserted? {
      steps := [Insert(i), Stamp(i)];
      assert Apply(u, Stamp(i)) == t;
      assert steps[1..] == [Stamp(i)] && [Stamp(i)][1..] == [];
      assert Leads(u, [Stamp(i)], t);
    } else {
      steps := [Insert(i)];
      assert steps[1..] == [];
    }
  }

  lemma SweepStepKeepsPhases(s: State, a: Action)
    requires IsSweepStep(a) && Enabled(s, a)
    ensures |Apply(s, a).callers| == |s.callers|
    ensures forall i :: 0 <= i < |s.callers| ==> Apply(s, a).callers[i].phase == s.callers[i].phase
  {
    hide Due;
  }

  lemma {:induction false} SweepKeepsPhases(s: State, steps: seq<Action>, t: State)
    requires Leads(s, steps, t) && forall k :: 0 <= k < |steps| ==> IsSweepStep(steps[k])
    ensures |t.callers| == |s.callers|
    ensures forall i :: 0 <= i < |s.callers| ==> t.callers[i].phase == s.callers[i].phase
    decreases |steps|
  {
    if steps != [] {
      SweepStepKeepsPhases(s, steps[0]);
      SweepKeepsPhases(Apply(s, steps[0]), steps[1..], t);
    }
  }

  /** Every token step is a stretch of machine steps. */
  lemma TokenStepRefines(s: State, a: TokenAction, t: State) returns (steps: seq<Action>)
    requires Settling(s) && TokenStep(s, a, t)
    ensures Leads(s, steps, t) && Settling(t)
  {
    match a
    case Begin(i) => steps := BeginIsInsertStamp(s, i);
    case Sweep(swept) =>
      steps := swept;
      SweepKeepsPhases(s, swept, t);
    case Other(step) =>
      steps := [step];
      assert steps[1..] == [] && Leads(t, [], t);
      OwnStepSettles(s, step);
  }

  lemma OwnStepSettles(s: State, a: Action)
    requires Settling(s) && IsOwnStep(a) && Enabled(s, a)
    ensures Settling(Apply(s, a))
  {
    hide Due, Oldest, Newest;
  }

  lemma {:induction false} RunExtends(states: seq<State>, actions: seq<Action>, steps: seq<Action>, t: State)
    returns (longer: seq<State>)
    requires Run(states, actions) && Leads(states[|actions|], steps, t)
    ensures Run(longer, actions + steps) && longer[|actions + steps|] == t
    decreases |steps|
  {
    hide Apply, Enabled, IsInit;
    if steps == [] {
      longer := states;
      assert actions + steps == actions;
    } else {
      var next := states + [Apply(states[|actions|], steps[0])];
      longer := RunExtends(next, actions + [steps[0]], steps[1..], t);
      assert (actions + [steps[0]]) + steps[1..] == actions + steps;
    }
  }

  /** Every run of a token's calls is, seen at its actor steps, a run of the call machine. */
  lemma {:induction false} TokenRunRefines(states: seq<State>, actions: seq<TokenAction>, n: nat)
    returns (fine: seq<State>, steps: seq<Action>)
    requires TokenRun(states, actions) && n < |states|
    ensures Run(fine, steps) && fine[|steps|] == states[n] && Settling(states[n])
  {
    hide Apply, Enabled, Leads;
    if n == 0 {
      fine, steps := [states[0]], [];
    } else {
      fine, steps := TokenRunRefines(states, actions, n - 1);
      var more := TokenStepRefines(states[n - 1], actions[n - 1], states[n]);
      fine := RunExtends(fine, steps, more, states[n]);
      steps := steps + more;
    }
  }

  /** What a token's callers can rely on, in every state of every run: a serial is in one place, is
      executed at most once as issued, and is answered at most once. */
  lemma TokenCorrelation(states: seq<State>, actions: seq<TokenAction>, n: nat)
    requires TokenRun(states, actions) && n < |states|
    ensures var s := states[n];
      && (forall j, k :: 0 <= j < k < |s.flight| ==> s.flight[j].serial != s.flight[k].serial)
      && (forall l, m :: 0 <= l < m < |s.started| ==> s.started[l].serial != s.started[m].serial)
      && (forall l, m :: 0 <= l < m < |s.settled| ==> s.settled[l].0 != s.settled[m].0)
  {
    hide Run, Apply, Enabled;
    var fine, steps := TokenRunRefines(states, actions, n);
    var s, e := states[n], |steps|;
    assert e < |fine| by { RunHasStates(fine, steps); }
    forall j, k | 0 <= j < k < |s.flight| ensures s.flight[j].serial != s.flight[k].serial {
      OnePlaceOnly(fine, steps, e, j, k);
    }
    forall l, m | 0 <= l < m < |s.started| ensures s.started[l].serial != s.started[m].serial {
      ExecutedAtMostOnce(fine, steps, e, m);
    }
    forall l, m | 0 <= l < m < |s.settled| ensures s.settled[l].0 != s.settled[m].0 {
      AnsweredAtMostOnce(fine, steps, e, l, m);
    }
  }

  lemma RunHasStates(states: seq<State>, actions: seq<Action>)
    requires Run(states, actions)
    ensures |states| == |actions| + 1
  {
  }

  /** And each gets its own result, or an error of its own. */
  lemma TokenOutcomeIsOwn(states: seq<State>, actions: seq<TokenAction>, n: nat, i: nat)
    requires TokenRun(states, actions) && n < |states| && i < |states[n].callers|
    requires states[n].callers[i].phase.Done? && TwoWay(states[n].callers[i].req)
    ensures var s, c := states[n], states[n].callers[i];
      match c.phase.outcome
      case Ok(payload) => c.stage == Ended(payload) && Start(i, c.serial, c.req) in s.started
      case Err(e) => e == NotConnect || e == NetError || e == SerialTimeOut(c.serial)
  {
    hide Run, Apply, Enabled;
    var fine, steps := TokenRunRefines(states, actions, n);
    RunHasStates(fine, steps);
    OutcomeIsOwn(fine, steps, |steps|, i);
  }

  /** On the server nobody is ever between map and queue: every pending serial has its queue entry,
      and the queue is sorted, in every state of every run. */
  lemma TokenTableCovered(states: seq<State>, actions: seq<TokenAction>, n: nat)
    requires TokenRun(states, actions) && n < |states|
    ensures Covered(states[n].table) && Sorted(states[n].table.queue, states[n].now)
  {
    hide Run, Apply, Enabled;
    var fine, steps := TokenRunRefines(states, actions, n);
    RunHasStates(fine, steps);
    RunInv(fine, steps, |steps|);
    forall serial | serial in states[n].table.dict ensures serial in Keys(states[n].table.queue) {
      NobodyForgotten(fine, steps, |steps|, serial);
    }
  }

  // ----- timeliness -----

  /** At any state, the last pass completed before it began at most `period` ms ago. */
  ghost predicate TokenPrompt(states: seq<State>, period: nat) {
    forall k :: 0 <= k < |states| - 1 ==> states[k + 1].now <= states[k].lastSweep + period * 1_000_000
  }

  lemma StepAges(s: State, a: Action)
    requires Timely(s) && Enabled(s, a)
    ensures Apply(s, a).now >= s.now && Apply(s, a).lastSweep >= s.lastSweep && Apply(s, a).limit == s.limit
  {
    hide Due, Oldest, Newest;
  }

  lemma {:induction false} LeadsAges(s: State, steps: seq<Action>, t: State)
    requires Leads(s, steps, t)
    ensures s.now <= t.now
    decreases |steps|
  {
    if steps != [] {
      assert Apply(s, steps[0]).now >= s.now by { hide Due, Oldest, Newest; }
      hide Apply;
      LeadsAges(Apply(s, steps[0]), steps[1..], t);
    }
  }

  lemma {:induction false} LeadsTimely(s: State, steps: seq<Action>, t: State, period: nat)
    requires Leads(s, steps, t) && Inv(s) && Timely(s)
    requires t.now <= s.lastSweep + period * 1_000_000 && s.limit + period < WRAP
    ensures Inv(t) && Timely(t) && t.limit == s.limit && t.lastSweep >= s.lastSweep
    decreases |steps|
  {
    if steps != [] {
      hide Apply, Enabled, Timely, EachCallerOk, DictOk, FlightOk, StartedOk, LoggedOk, SettledOk, PendingOk;
      hide QueueOk, CallersOk;
      var u := Apply(s, steps[0]);
      LeadsAges(s, steps, t);
      StepAges(s, steps[0]);
      TimelyStep(s, steps[0], period);
      StepKeepsInv(s, steps[0]);
      LeadsTimely(u, steps[1..], t, period);
    }
  }

  lemma {:induction false} TokenRunTimely(states: seq<State>, actions: seq<TokenAction>, period: nat, n: nat)
    requires TokenRun(states, actions) && TokenPrompt(states, period) && n < |states|
    requires states[0].limit + period < WRAP
    ensures Inv(states[n]) && Timely(states[n]) && Settling(states[n]) && states[n].limit == states[0].limit
    ensures states[n].now <= states[n].lastSweep + period * 1_000_000
  {
    if n == 0 {
      InitInv(states[0]);
    } else {
      hide Apply, Enabled, IsInit, Timely, Inv;
      TokenRunTimely(states, actions, period, n - 1);
      var steps := TokenStepRefines(states[n - 1], actions[n - 1], states[n]);
      assert TokenStep(states[n - 1], actions[n - 1], states[n - 1 + 1]);
      LeadsTimely(states[n - 1], steps, states[n], period);
    }
  }

  /** The token's sweep keeps the same bound as the client's: with timeout + period below 2^32 ms, every
      pending serial was stamped at most timeout + period ago, and the truncated comparison is the exact
      one for every entry the sweep can look at. */
  lemma NoTokenRequestOutlivesTimeout(states: seq<State>, actions: seq<TokenAction>, period: nat, n: nat)
    requires TokenRun(states, actions) && TokenPrompt(states, period) && n < |states|
    requires states[0].limit + period < WRAP
    ensures var s := states[n];
      && (forall e :: e in s.table.queue ==>
            AgeMs(s.now, e) <= s.limit + period && (Due(s.now, e, s.limit) <==> Expired(s.now, e, s.limit)))
      && (forall serial :: serial in s.table.dict ==>
            exists e: Entry :: e in s.table.queue && e.key == serial && AgeMs(s.now, e) <= s.limit + period)
  {
    TokenRunTimely(states, actions, period, n);
    TokenTableCovered(states, actions, n);
    hide Inv, AgeMs, Due, Expired;
    var s := states[n];
    forall e | e in s.table.queue
      ensures AgeMs(s.now, e) <= s.limit + period && (Due(s.now, e, s.limit) <==> Expired(s.now, e, s.limit))
    {
      YoungEnough(s, e, period);
      YoungAgree(s.now, e, s.limit);
    }
  }
}

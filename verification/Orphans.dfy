/** The manager's passes over many tokens: first the pending requests of every token in the map, then
    the disconnected sessions. A token taken out of the map is never swept again, so a call still pending
    on it then has nothing left to time it out. This says when that can happen. */
module Orphans {
  import opened Outcomes
  import opened TimedQueue
  import opened Requests
  import S = SessionMachine
  import SI = SessionInvariant

  /** `check_tokens_request_timeout`, then `check_tokens_disconnect_timeout`, then a pause. */
  datatype Stage = Resting | Sweeping(todo: set<nat>) | Reaping

  /** The session machine, and for each of its tokens the pending calls and, as history, when they were
      last swept or, for a token not yet swept, when it was created. */
  datatype State = State(
    out: nat,
    session: S.State,
    tables: seq<Table<()>>,
    seen: seq<nat>,
    stage: Stage,
    passStart: nat,
    previousStart: nat)

  predicate IsInit(s: State) {
    && S.IsInit(s.session) && s.tables == [] && s.seen == [] && s.stage == Resting
    && s.passStart == 0 && s.previousStart == 0
  }

  datatype Action =
    | Session(a: S.Action)
    | StartPass
    | SweepToken(t: nat)
    | EndSweeping
    | Begin(t: nat, serial: int)
    | Answer(t: nat, serial: int)

  predicate Live(s: S.State, t: nat) { t < |s.tokens| && s.tokens[t].sid in s.dict }

  function LiveTokens(s: S.State): set<nat> {
    set t: nat | 0 <= t < |s.tokens| && Live(s, t)
  }

  /** A call begins while the token has a peer, alive or not, under a serial it has not used before. */
  predicate Enabled(s: State, a: Action) {
    match a
    case Session(sa) => S.Enabled(s.session, sa) && (sa.Pop? ==> s.stage.Reaping?)
    case StartPass => s.stage.Resting?
    case SweepToken(t) => s.stage.Sweeping? && t in s.stage.todo && t < |s.tables| && t < |s.seen|
    case EndSweeping => s.stage.Sweeping? && s.stage.todo == {}
    case Begin(t, serial) =>
      && t < |s.tables| && t < |s.session.tokens| && s.session.tokens[t].peer.Some?
      && serial !in s.tables[t].dict && serial !in Keys(s.tables[t].queue)
    case Answer(t, _) => t < |s.tables|
  }

  function DoSession(s: State, a: S.Action): State
    requires S.Enabled(s.session, a)
  {
    var u := S.Apply(s.session, a);
    s.(session := u,
       tables := if a.Create? then s.tables + [Table(map[], [])] else s.tables,
       seen := if a.Create? then s.seen + [s.session.now] else s.seen,
       stage := if a.Pop? && u.sweeper.Idle? then Resting else s.stage)
  }

  function Apply(s: State, a: Action): State
    requires Enabled(s, a)
  {
    match a
    case Session(sa) => DoSession(s, sa)
    case StartPass =>
      s.(stage := Sweeping(LiveTokens(s.session)), passStart := s.session.now, previousStart := s.passStart)
    case SweepToken(t) =>
      s.(tables := s.tables[t := SweptTable(s.tables[t], At(s.session.now, |s.tables[t].queue|), s.out)],
         seen := s.seen[t := s.session.now],
         stage := Sweeping(s.stage.todo - {t}))
    case EndSweeping => s.(stage := Reaping)
    case Begin(t, serial) =>
      s.(tables := s.tables[t := Enqueued(Registered(s.tables[t], serial, ()), serial, s.session.now)])
    case Answer(t, serial) => s.(tables := s.tables[t := Settled(s.tables[t], serial)])
  }

  ghost predicate Run(states: seq<State>, actions: seq<Action>) {
    && |states| == |actions| + 1
    && IsInit(states[0])
    && forall i :: 0 <= i < |actions| ==>
         Enabled(states[i], actions[i]) && states[i + 1] == Apply(states[i], actions[i])
  }

  /** A pass begins, and has ended, at most `period` ms after the one before it began. */
  function Promptly(period: nat): State -> bool {
    (s: State) => s.session.now <= s.passStart + period * 1_000_000
  }

  ghost predicate Prompt(states: seq<State>, period: nat) {
    forall k :: 0 <= k < |states| ==> Promptly(period)(states[k])
  }

  // ----- what every step keeps -----

  /** An entry that the sweep at `seen` left or that came after it. */
  predicate Spared(seen: nat, e: Entry, out: nat) {
    seen < Deadline(e, out) || (out == 0 && seen <= e.at)
  }

  predicate TableOk(s: State, t: nat)
    requires t < |s.tables| == |s.seen|
  {
    && Sorted(s.tables[t].queue, s.session.now)
    && Covered(s.tables[t])
    && s.seen[t] <= s.session.now
    && forall j :: 0 <= j < |s.tables[t].queue| ==> Spared(s.seen[t], s.tables[t].queue[j], s.out)
  }

  /** Every live token has been seen since the pass began, or is still to be seen and was in the pass
      before. */
  predicate SeenInTime(s: State, t: nat)
    requires t < |s.seen|
  {
    s.seen[t] >= if s.stage.Sweeping? && t in s.stage.todo then s.previousStart else s.passStart
  }

  ghost predicate Inv(s: State) {
    && SI.Inv(s.session)
    && |s.tables| == |s.seen| == |s.session.tokens|
    && s.passStart <= s.session.now
    && (forall t: nat :: t < |s.tables| ==> TableOk(s, t))
    && (forall t: nat :: Live(s.session, t) ==> SeenInTime(s, t))
    && (s.stage.Sweeping? ==> s.stage.todo <= LiveTokens(s.session))
    && (s.stage.Reaping? || s.session.sweeper.Idle?)
  }

  ghost predicate PromptInv(s: State, period: nat) {
    s.passStart <= s.previousStart + period * 1_000_000
  }

  lemma SessionStep(s: S.State, a: S.Action)
    requires S.Enabled(s, a)
    ensures var u := S.Apply(s, a);
      && u.now >= s.now
      && u.save == s.save
      && |u.tokens| == |s.tokens| + (if a.Create? then 1 else 0)
      && (forall t: nat :: t < |s.tokens| ==> u.tokens[t].sid == s.tokens[t].sid)
      && (forall t: nat :: t < |s.tokens| && Live(u, t) ==> Live(s, t))
      && (forall t: nat :: Live(s, t) && !a.Remove? ==> Live(u, t))
      && (u.sweeper.Idle? || !s.sweeper.Idle? || a.Pop?)
      && (a.Remove? ==> !s.sweeper.Idle?)
  {
    hide Due, S.Disconnected;
  }

  lemma SweptIsSpared(t: Table<()>, now: nat, out: nat)
    requires Sorted(t.queue, now) && Covered(t)
    requires forall j :: 0 <= j < |t.queue| ==> AgeMs(now, t.queue[j]) < WRAP
    ensures var u := SweptTable(t, At(now, |t.queue|), out);
      && Sorted(u.queue, now) && Covered(u)
      && forall j :: 0 <= j < |u.queue| ==> Spared(now, u.queue[j], out)
  {
    hide AgeMs, Covered;
    var q, clock := t.queue, At(now, |t.queue|);
    SweptSorted(q, clock, out, now);
    SweepKeepsCovered(t, clock, out);
    SweepOfYoungQueue(q, now, out);
    KeptIsUnexpired(q, now, out);
    var rest := Swept(q, clock, out);
    forall j | 0 <= j < |rest| ensures Spared(now, rest[j], out) {
      assert rest[j] in Kept(q, now, out);
      ExpiredIsDeadline(now, rest[j], out);
    }
  }

  lemma SweepKeeps(s: State, t: nat, period: nat)
    requires Inv(s) && PromptInv(s, period) && Promptly(period)(s) && s.out + 2 * period < WRAP
    requires Enabled(s, SweepToken(t))
    ensures Inv(Apply(s, SweepToken(t)))
  {
    hide SI.Inv, SweptTable, Covered, Sorted;
    var u, now := Apply(s, SweepToken(t)), s.session.now;
    assert TableOk(s, t) && SeenInTime(s, t) by { assert t in LiveTokens(s.session); }
    forall j | 0 <= j < |s.tables[t].queue| ensures AgeMs(now, s.tables[t].queue[j]) < WRAP {
      assert Spared(s.seen[t], s.tables[t].queue[j], s.out);
    }
    SweptIsSpared(s.tables[t], now, s.out);
    forall v: nat | v < |u.tables| ensures TableOk(u, v) {
      assert TableOk(s, v);
    }
    forall v: nat | Live(u.session, v) ensures SeenInTime(u, v) {
      assert SeenInTime(s, v);
    }
  }

  lemma SessionKeeps(s: State, a: S.Action)
    requires Inv(s) && Enabled(s, Session(a))
    ensures Inv(Apply(s, Session(a)))
  {
    hide SI.Inv, Covered, S.Apply, S.Enabled, Live;
    var u := Apply(s, Session(a));
    SessionStep(s.session, a);
    SI.StepKeepsInv(s.session, a);
    forall t: nat | t < |u.tables| ensures TableOk(u, t) {
      if t < |s.tables| {
        assert TableOk(s, t);
      } else {
        EmptyCovered(u.tables[t]);
      }
    }
    forall t: nat | Live(u.session, t) ensures t < |u.seen| && SeenInTime(u, t) {
      LiveIndex(u.session, t);
      if t < |s.seen| {
        assert SeenInTime(s, t);
      }
    }
    if u.stage.Sweeping? {
      forall t | t in s.stage.todo ensures Live(u.session, t) {
        assert t in LiveTokens(s.session);
        assert a.Remove? ==> !s.session.sweeper.Idle?;
      }
    }
  }

  lemma EmptyCovered(t: Table<()>)
    requires t == Table(map[], [])
    ensures Covered(t)
  {
    assert t.dict.Keys == {};
  }

  lemma LiveIndex(s: S.State, t: nat)
    requires Live(s, t)
    ensures t < |s.tokens|
  {
  }

  lemma BeginKeeps(s: State, t: nat, serial: int)
    requires Inv(s) && Enabled(s, Begin(t, serial))
    ensures Inv(Apply(s, Begin(t, serial)))
  {
    hide SI.Inv;
    var u := Apply(s, Begin(t, serial));
    assert TableOk(s, t);
    var q := u.tables[t].queue;
    assert q[0].key == serial && forall e :: e in s.tables[t].queue ==> e in q;
    forall v: nat | v < |u.tables| ensures TableOk(u, v) {
      assert TableOk(s, v);
    }
    forall v: nat | Live(u.session, v) ensures v < |u.seen| && SeenInTime(u, v) {
      assert SeenInTime(s, v);
    }
  }

  lemma OthersKeep(s: State, a: Action)
    requires Inv(s) && Enabled(s, a) && (a.StartPass? || a.EndSweeping? || a.Answer?)
    ensures Inv(Apply(s, a))
  {
    hide SI.Inv;
    var u := Apply(s, a);
    forall v: nat | v < |u.tables| ensures TableOk(u, v) {
      assert TableOk(s, v);
    }
    forall v: nat | Live(u.session, v) ensures v < |u.seen| && SeenInTime(u, v) {
      assert SeenInTime(s, v);
    }
  }

  lemma StepKeepsInv(s: State, a: Action, period: nat)
    requires Inv(s) && PromptInv(s, period) && Promptly(period)(s) && s.out + 2 * period < WRAP
    requires Enabled(s, a)
    ensures Inv(Apply(s, a)) && PromptInv(Apply(s, a), period)
    ensures Apply(s, a).out == s.out && Apply(s, a).session.save == s.session.save
  {
    match a
    case Session(sa) => SessionKeeps(s, sa); SessionStep(s.session, sa);
    case SweepToken(t) => SweepKeeps(s, t, period);
    case Begin(t, serial) => BeginKeeps(s, t, serial);
    case _ => OthersKeep(s, a);
  }

  lemma {:induction false} RunInv(states: seq<State>, actions: seq<Action>, period: nat, n: nat)
    requires Run(states, actions) && Prompt(states, period)
    requires states[0].out + 2 * period < WRAP && n < |states|
    ensures Inv(states[n]) && PromptInv(states[n], period)
    ensures states[n].out == states[0].out && states[n].session.save == states[0].session.save
  {
    if n == 0 {
      SI.InitInv(states[0].session);
    } else {
      hide Run, Apply, Enabled, Inv, PromptInv, Promptly, IsInit;
      RunStep(states, actions, n - 1);
      RunInv(states, actions, period, n - 1);
      StepKeepsInv(states[n - 1], actions[n - 1], period);
    }
  }

  // ----- what is left behind -----

  /** The sweep has condemned a token on which `serial` is still pending, stamped as in `e`. */
  predicate LeavesBehind(s: State, serial: int, e: Entry) {
    && s.session.sweeper.Condemned?
    && s.session.sweeper.token < |s.tables|
    && serial in s.tables[s.session.sweeper.token].dict
    && e in s.tables[s.session.sweeper.token].queue && e.key == serial
  }

  lemma CondemnedIsLive(s: State)
    requires Inv(s) && s.session.sweeper.Condemned?
    ensures var t := s.session.sweeper.token;
      && Live(s.session, t) && t < |s.tables| && SeenInTime(s, t) && !s.stage.Sweeping?
      && Expired(s.session.now, s.session.sweeper.entry, s.session.save)
      && s.session.sweeper.entry.at <= s.session.now
  {
  }

  /** In every run: whatever is pending on a token that is about to be removed was begun less than
      request timeout + period before. (With a timeout of zero, at most a period before.) */
  lemma OrphansAreRecent(states: seq<State>, actions: seq<Action>, period: nat, n: nat, serial: int) returns (e: Entry)
    requires Run(states, actions) && Prompt(states, period)
    requires states[0].out + 2 * period < WRAP && n < |states|
    requires states[n].session.sweeper.Condemned? && states[n].session.sweeper.token < |states[n].tables|
    requires serial in states[n].tables[states[n].session.sweeper.token].dict
    ensures LeavesBehind(states[n], serial, e)
    ensures var s := states[n];
      s.session.now < e.at + (s.out + period) * 1_000_000 || (s.out == 0 && s.session.now <= e.at + period * 1_000_000)
  {
    RunInv(states, actions, period, n);
    var s := states[n];
    var t := s.session.sweeper.token;
    CondemnedIsLive(s);
    assert TableOk(s, t);
    assert serial in Keys(s.tables[t].queue);
    e :| e in s.tables[t].queue && e.key == serial;
    var j :| 0 <= j < |s.tables[t].queue| && s.tables[t].queue[j] == e;
    assert Spared(s.seen[t], s.tables[t].queue[j], s.out);
  }

  /** A call is pending on a token that is out of the map. */
  predicate Orphaned(s: State, t: nat, serial: int) {
    t < |s.tables| && t < |s.session.tokens| && !Live(s.session, t) && serial in s.tables[t].dict
  }

  /** The removal can follow at once, and leaves the call behind. */
  lemma RemovalOrphans(s: State, serial: int, e: Entry)
    requires Inv(s) && LeavesBehind(s, serial, e)
    ensures Enabled(s, Session(S.Remove))
    ensures Orphaned(Apply(s, Session(S.Remove)), s.session.sweeper.token, serial)
  {
    CondemnedIsLive(s);
  }

  lemma StepLeavesOrphan(s: State, a: Action, t: nat, serial: int)
    requires Inv(s) && Enabled(s, a) && a != Answer(t, serial) && Orphaned(s, t, serial)
    ensures Orphaned(Apply(s, a), t, serial)
  {
    hide SI.Inv, S.Apply, S.Enabled, Covered, Sorted;
    if a.Session? {
      SessionStep(s.session, a.a);
    } else if a.SweepToken? {
      assert a.t in LiveTokens(s.session);
    }
  }

  lemma RunStep(states: seq<State>, actions: seq<Action>, k: nat)
    requires Run(states, actions) && k < |actions|
    ensures |states| == |actions| + 1
    ensures Enabled(states[k], actions[k]) && states[k + 1] == Apply(states[k], actions[k])
  {
    hide Apply, Enabled, IsInit;
  }

  /** A call pending on a removed token stays pending in every later state unless an answer to it still
      arrives: no sweep ever looks at it again. */
  lemma {:induction false} OrphanedForEver(
      states: seq<State>, actions: seq<Action>, period: nat, n: nat, m: nat, t: nat, serial: int)
    requires Run(states, actions) && Prompt(states, period)
    requires states[0].out + 2 * period < WRAP && n <= m <= |actions| < |states| && Orphaned(states[n], t, serial)
    requires forall k :: n <= k < m ==> actions[k] != Answer(t, serial)
    ensures Orphaned(states[m], t, serial)
    decreases m
  {
    hide Run, Apply, Enabled, Inv, PromptInv, Prompt, Orphaned;
    if n < m {
      OrphanedForEver(states, actions, period, n, m - 1, t, serial);
      RunInv(states, actions, period, m - 1);
      RunStep(states, actions, m - 1);
      StepLeavesOrphan(states[m - 1], actions[m - 1], t, serial);
    }
  }

  /** Its queue entry stays too, so its serial is never used again. */
  lemma StepKeepsEntry(s: State, a: Action, t: nat, serial: int)
    requires Inv(s) && Enabled(s, a) && t < |s.tables| && t < |s.session.tokens| && !Live(s.session, t)
    requires serial in Keys(s.tables[t].queue)
    ensures t < |Apply(s, a).tables| && t < |Apply(s, a).session.tokens| && !Live(Apply(s, a).session, t)
    ensures serial in Keys(Apply(s, a).tables[t].queue)
    ensures serial in Apply(s, a).tables[t].dict <==> serial in s.tables[t].dict && a != Answer(t, serial)
  {
    hide SI.Inv, S.Apply, S.Enabled, Covered, Sorted;
    if a.Session? {
      SessionStep(s.session, a.a);
    } else if a.SweepToken? {
      assert a.t in LiveTokens(s.session);
    } else if a.Begin? && a.t == t {
      var e :| e in s.tables[t].queue && e.key == serial;
      assert e in Apply(s, a).tables[t].queue;
    }
  }

  /** So it is pending exactly until its answer arrives. */
  lemma {:induction false} OrphanedExactly(
      states: seq<State>, actions: seq<Action>, period: nat, n: nat, m: nat, t: nat, serial: int)
    requires Run(states, actions) && Prompt(states, period)
    requires states[0].out + 2 * period < WRAP && n <= m <= |actions| < |states| && Orphaned(states[n], t, serial)
    ensures t < |states[m].tables| && t < |states[m].session.tokens| && !Live(states[m].session, t)
    ensures serial in Keys(states[m].tables[t].queue)
    ensures Orphaned(states[m], t, serial) <==> forall k :: n <= k < m ==> actions[k] != Answer(t, serial)
    decreases m
  {
    hide Run, Apply, Enabled, Inv, PromptInv, Prompt, Live, Keys;
    if n < m {
      OrphanedExactly(states, actions, period, n, m - 1, t, serial);
      RunInv(states, actions, period, m - 1);
      RunStep(states, actions, m - 1);
      StepKeepsEntry(states[m - 1], actions[m - 1], t, serial);
    } else {
      RunInv(states, actions, period, n);
      OrphanIsQueued(states[n], t, serial);
    }
  }

  lemma OrphanIsQueued(s: State, t: nat, serial: int)
    requires Inv(s) && Orphaned(s, t, serial)
    ensures serial in Keys(s.tables[t].queue)
  {
    assert TableOk(s, t);
  }

  // ----- exactly when -----

  /** Some run, good in every state, ends in `s`. */
  ghost predicate Reachable(good: State -> bool, s: State) {
    exists states, actions :: Run(states, actions) && states[|actions|] == s
      && forall k :: 0 <= k < |states| ==> good(states[k])
  }

  lemma Onward(good: State -> bool, s: State, a: Action, t: State)
    requires Reachable(good, s) && Enabled(s, a) && t == Apply(s, a) && good(t)
    ensures Reachable(good, t)
  {
    hide Apply, Enabled, IsInit;
    var states, actions :| Run(states, actions) && states[|actions|] == s
      && forall k :: 0 <= k < |states| ==> good(states[k]);
    var states', actions' := states + [t], actions + [a];
    assert Run(states', actions') && states'[|actions'|] == t;
  }

  /** A reachable state in which a call is about to be left behind that was begun no later than its
      session's disconnect was queued. */
  ghost predicate LosesOldCall(s: State, out: nat, save: nat, period: nat) {
    && Reachable(Promptly(period), s)
    && s.out == out && s.session.save == save
    && exists serial, e :: LeavesBehind(s, serial, e) && e.at <= s.session.sweeper.entry.at
  }

  /** The guard, in the constants of a server: request timeout, save time and pass period. */
  predicate Risky(out: nat, save: nat, period: nat) {
    save < out + period || (out == 0 && save <= period)
  }

  lemma LossIsRisky(s: State, out: nat, save: nat, period: nat)
    requires LosesOldCall(s, out, save, period) && out + 2 * period < WRAP
    ensures Risky(out, save, period)
  {
    var states, actions :| Run(states, actions) && states[|actions|] == s
      && forall k :: 0 <= k < |states| ==> Promptly(period)(states[k]);
    hide Run, SI.Inv, Sorted, Covered;
    RunKeepsTimeout(states, actions, |actions|);
    RunInv(states, actions, period, |actions|);
    var serial, e :| LeavesBehind(s, serial, e) && e.at <= s.session.sweeper.entry.at;
    CondemnedIsLive(s);
    var t := s.session.sweeper.token;
    assert TableOk(s, t);
    var j :| 0 <= j < |s.tables[t].queue| && s.tables[t].queue[j] == e;
    assert Spared(s.seen[t], s.tables[t].queue[j], s.out);
    assert Promptly(period)(states[|actions|]);
    ExpiredIsDeadline(s.session.now, s.session.sweeper.entry, save);
  }

  lemma {:induction false} RunKeepsTimeout(states: seq<State>, actions: seq<Action>, n: nat)
    requires Run(states, actions) && n <= |actions|
    ensures |states| == |actions| + 1 && states[n].out == states[0].out
  {
    hide S.Apply, S.Enabled;
    if n > 0 {
      RunKeepsTimeout(states, actions, n - 1);
    }
  }

  // ----- runs with one session -----

  /** Session 7 with its disconnect queued at time 0: what does not change while passes go by. */
  datatype World = World(out: nat, save: nat, peer: Option<nat>, handlers: seq<S.Handler>, table: Table<()>)

  /** In ms: the time, when the last completed reaping began, when requests were last swept, and when
      the last two passes began. */
  datatype Times = Times(now: nat, last: nat, seen: nat, start: nat, previous: nat)

  function At7(w: World, t: Times, stage: Stage): State {
    State(w.out,
          S.State(w.save, t.now * 1_000_000, [S.Token(7, w.peer, true)], map[7 := 0], [Entry(7, 0)], S.Idle,
                  t.last * 1_000_000, t.last * 1_000_000, w.handlers, [], [(0, Entry(7, 0))]),
          [w.table], [t.seen * 1_000_000], stage, t.start * 1_000_000, t.previous * 1_000_000)
  }

  /** Between passes, and between the two halves of a pass, at `q` ms. */
  function Rest(w: World, q: nat, previous: nat): State { At7(w, Times(q, q, q, q, previous), Resting) }

  function Checked(w: World, q: nat, last: nat): State { At7(w, Times(q, last, q, q, last), Reaping) }

  predicate Unmoved(w: World, q: nat) {
    w.table.queue == [] || (w.table.queue == [Entry(1, 0)] && q < w.out)
  }

  lemma TableUnmoved(w: World, q: nat)
    requires Unmoved(w, q)
    ensures SweptTable(w.table, At(q * 1_000_000, |w.table.queue|), w.out) == w.table
  {
    if w.table.queue != [] {
      assert AgeMs(q * 1_000_000, Entry(1, 0)) == q;
    }
    NoElements();
  }

  /** Between the start of a pass and its sweep of the one token. */
  function Begun(w: World, q: nat, p: nat): State { At7(w, Times(p, q, q, p, q), Sweeping({0})) }

  lemma PassBegins(w: World, period: nat, q: nat, previous: nat, d: nat)
    requires Reachable(Promptly(period), Rest(w, q, previous)) && d <= period
    ensures Reachable(Promptly(period), Begun(w, q, q + d))
  {
    hide Reachable;
    var good, s0, s2 := Promptly(period), Rest(w, q, previous), Begun(w, q, q + d);
    var s1 := At7(w, Times(q + d, q, q, q, previous), Resting);
    assert good(s1) && good(s2);
    hide Promptly;
    Onward(good, s0, Session(S.Tick(d * 1_000_000)), s1);
    assert LiveTokens(s1.session) == {0};
    Onward(good, s1, StartPass, s2);
  }

  function Done(w: World, q: nat, p: nat): State { At7(w, Times(p, q, p, p, q), Sweeping({})) }

  lemma SweepsNothing(w: World, q: nat, p: nat)
    requires Unmoved(w, p)
    ensures Enabled(Begun(w, q, p), SweepToken(0)) && Apply(Begun(w, q, p), SweepToken(0)) == Done(w, q, p)
  {
    hide SweptTable;
    TableUnmoved(w, p);
    assert {0} - {0} == {};
  }

  lemma NextPass(w: World, period: nat, q: nat, previous: nat, d: nat)
    requires Reachable(Promptly(period), Rest(w, q, previous)) && d <= period && Unmoved(w, q + d)
    ensures Reachable(Promptly(period), Checked(w, q + d, q))
  {
    PassBegins(w, period, q, previous, d);
    SweepsNothing(w, q, q + d);
    hide Reachable;
    var good, s4 := Promptly(period), Checked(w, q + d, q);
    assert good(Done(w, q, q + d)) && good(s4);
    assert Enabled(Done(w, q, q + d), EndSweeping) && Apply(Done(w, q, q + d), EndSweeping) == s4;
    hide Promptly, Apply, Enabled;
    Onward(good, Begun(w, q, q + d), SweepToken(0), Done(w, q, q + d));
    Onward(good, Done(w, q, q + d), EndSweeping, s4);
  }

  lemma PassEnds(w: World, period: nat, q: nat, last: nat)
    requires Reachable(Promptly(period), Checked(w, q, last)) && q < w.save < WRAP
    ensures Reachable(Promptly(period), Rest(w, q, last))
  {
    hide Reachable;
    assert AgeMs(q * 1_000_000, Entry(7, 0)) == q;
    Onward(Promptly(period), Checked(w, q, last), Session(S.Pop), Rest(w, q, last));
  }

  /** Passes every `period` ms, the last of them at `p` ms; none finds anything to do. */
  lemma {:induction false} PassesUntil(w: World, period: nat, q: nat, previous: nat, p: nat) returns (last: nat)
    requires 0 < period && q <= p <= w.save < WRAP
    requires w.table.queue == [] || (w.table.queue == [Entry(1, 0)] && p < w.out)
    requires Reachable(Promptly(period), Rest(w, q, previous))
    ensures Reachable(Promptly(period), Checked(w, p, last))
    decreases p - q
  {
    hide Reachable;
    var d := if p - q <= period then p - q else period;
    NextPass(w, period, q, previous, d);
    if q + d == p {
      last := q;
    } else {
      PassEnds(w, period, q + d, q);
      last := PassesUntil(w, period, q + d, q, p);
    }
  }

  /** Session 7 at time 0. */
  function Start(out: nat, save: nat, peer: Option<nat>, handlers: seq<S.Handler>, queue: seq<Entry>,
                 pushed: seq<(nat, Entry)>, table: Table<()>, stage: Stage): State
  {
    State(out, S.State(save, 0, [S.Token(7, peer, true)], map[7 := 0], queue, S.Idle, 0, 0, handlers, [], pushed),
          [table], [0], stage, 0, 0)
  }

  function NoCalls(): Table<()> { Table(map[], []) }

  function OneCall(at: nat): Table<()> { Table(map[1 := ()], [Entry(1, at)]) }

  lemma NothingYet(out: nat, save: nat, period: nat) returns (s: State)
    ensures s == State(out, S.State(save, 0, [], map[], [], S.Idle, 0, 0, [], [], []), [], [], Resting, 0, 0)
    ensures Reachable(Promptly(period), s)
  {
    s := State(out, S.State(save, 0, [], map[], [], S.Idle, 0, 0, [], [], []), [], [], Resting, 0, 0);
    var states: seq<State>, actions: seq<Action> := [s], [];
    assert Run(states, actions);
  }

  lemma FirstConnection(out: nat, save: nat, period: nat)
    ensures Reachable(Promptly(period),
                      Start(out, save, Some(0), [S.Handler(0, S.Serving, true)], [], [], NoCalls(), Resting))
  {
    hide Reachable;
    var s0 := NothingYet(out, save, period);
    var good := Promptly(period);
    var s1 := Start(out, save, None, [S.Handler(0, S.Attached, true)], [], [], NoCalls(), Resting);
    var s2 := Start(out, save, Some(0), [S.Handler(0, S.Serving, true)], [], [], NoCalls(), Resting);
    assert good(s1) && good(s2);
    hide Promptly;
    Onward(good, s0, Session(S.Create(7)), s1);
    Onward(good, s1, Session(S.Attach(0)), s2);
  }

  lemma FirstPass(out: nat, save: nat, period: nat)
    ensures Reachable(Promptly(period),
                      Start(out, save, Some(0), [S.Handler(0, S.Serving, true)], [], [], NoCalls(), Reaping))
  {
    FirstConnection(out, save, period);
    hide Reachable, SweptTable;
    var good := Promptly(period);
    var s2 := Start(out, save, Some(0), [S.Handler(0, S.Serving, true)], [], [], NoCalls(), Resting);
    var s3, s4, s5 := s2.(stage := Sweeping({0})), s2.(stage := Sweeping({})), s2.(stage := Reaping);
    assert good(s3) && good(s4) && good(s5);
    TableUnmoved(World(out, save, Some(0), [], NoCalls()), 0);
    hide Promptly;
    assert LiveTokens(s2.session) == {0};
    Onward(good, s2, StartPass, s3);
    assert {0} - {0} == {};
    Onward(good, s3, SweepToken(0), s4);
    Onward(good, s4, EndSweeping, s5);
  }

  lemma FirstCall(out: nat, save: nat, period: nat)
    ensures Reachable(Promptly(period),
                      Start(out, save, Some(0), [S.Handler(0, S.Serving, true)], [], [], OneCall(0), Reaping))
  {
    FirstPass(out, save, period);
    hide Reachable;
    var good := Promptly(period);
    var s5 := Start(out, save, Some(0), [S.Handler(0, S.Serving, true)], [], [], NoCalls(), Reaping);
    var s6 := s5.(tables := [OneCall(0)]);
    assert good(s6);
    hide Promptly;
    BeginFirst(s5, 0);
    Onward(good, s5, Begin(0, 1), s6);
  }

  /** The first pass finds no request; then a call is begun, and the connection ends, all at time 0. */
  lemma CalledAndLeft(out: nat, save: nat, period: nat) returns (w: World)
    ensures w == World(out, save, None, [S.Handler(0, S.Queued, true)], OneCall(0))
    ensures Reachable(Promptly(period), Checked(w, 0, 0))
  {
    w := World(out, save, None, [S.Handler(0, S.Queued, true)], OneCall(0));
    FirstCall(out, save, period);
    hide Reachable;
    var good := Promptly(period);
    var s6 := Start(out, save, Some(0), [S.Handler(0, S.Serving, true)], [], [], OneCall(0), Reaping);
    var s7 := Start(out, save, None, [S.Handler(0, S.Detached, true)], [], [], OneCall(0), Reaping);
    var s8 := Checked(w, 0, 0);
    assert good(s7) && good(s8);
    hide Promptly, OneCall;
    Onward(good, s6, Session(S.Detach(0)), s7);
    Onward(good, s7, Session(S.Enqueue(0)), s8);
  }

  lemma BeginFirst(s: State, now: nat)
    requires s.tables == [NoCalls()] && s.session.now == now
    requires |s.session.tokens| == 1 && s.session.tokens[0].peer.Some?
    ensures Enabled(s, Begin(0, 1)) && Apply(s, Begin(0, 1)) == s.(tables := [OneCall(now)])
  {
    var t := Enqueued(Registered(NoCalls(), 1, ()), 1, now);
    assert [Entry(1, now)] + [] == [Entry(1, now)];
    assert t == OneCall(now);
    assert [NoCalls()][0 := t] == [OneCall(now)];
  }

  lemma CondemnedNow(w: World, period: nat, s: State)
    requires Reachable(Promptly(period), s) && s.session.now == w.save * 1_000_000 && w.save < WRAP
    requires s.session.save == w.save && s.session.queue == [Entry(7, 0)] && s.session.sweeper == S.Idle
    requires s.session.dict == map[7 := 0] && |s.session.tokens| == 1 && S.Disconnected(s.session, 0)
    requires s.stage == Reaping
    ensures Reachable(Promptly(period), Apply(s, Session(S.Pop)))
    ensures Apply(s, Session(S.Pop)).session
         == s.session.(queue := [], sweeper := S.Condemned(0, Entry(7, 0)), sweepStart := s.session.now)
    ensures Apply(s, Session(S.Pop)).tables == s.tables && Apply(s, Session(S.Pop)).out == s.out
  {
    assert AgeMs(w.save * 1_000_000, Entry(7, 0)) == w.save;
    assert Front([Entry(7, 0)]) == [];
    assert Promptly(period)(s) by {
      var states, actions :| Run(states, actions) && states[|actions|] == s
        && forall k :: 0 <= k < |states| ==> Promptly(period)(states[k]);
    }
    hide Reachable;
    Onward(Promptly(period), s, Session(S.Pop), Apply(s, Session(S.Pop)));
  }

  /** Whenever the guard says so, a run loses a call begun before its session's disconnect. */
  lemma RiskyLoses(out: nat, save: nat, period: nat) returns (u: State)
    requires 0 < period && Risky(out, save, period) && save < WRAP
    ensures LosesOldCall(u, out, save, period)
  {
    var w := CalledAndLeft(out, save, period);
    var p, last := 0, 0;
    if period < save {
      p := save - period;
      PassEnds(w, period, 0, 0);
      last := PassesUntil(w, period, 0, 0, p);
    }
    var s := At7(w, Times(save, last, p, p, last), Reaping);
    assert Promptly(period)(s);
    Onward(Promptly(period), Checked(w, p, last), Session(S.Tick((save - p) * 1_000_000)), s);
    hide Reachable, Promptly;
    CondemnedNow(w, period, s);
    u := Apply(s, Session(S.Pop));
    assert LeavesBehind(u, 1, Entry(1, 0));
  }

  /** For every request timeout, save time and pass period: passes can lose a call that was begun before
      its session's disconnect was queued exactly if the save time is below request timeout + period (or,
      with a timeout of zero, at most the period). */
  lemma LossExactly(out: nat, save: nat, period: nat)
    requires 0 < period && out + 2 * period < WRAP && save < WRAP
    ensures (exists s :: LosesOldCall(s, out, save, period)) <==> Risky(out, save, period)
  {
    hide LosesOldCall, Risky;
    if s :| LosesOldCall(s, out, save, period) {
      LossIsRisky(s, out, save, period);
    }
    if Risky(out, save, period) {
      var u := RiskyLoses(out, save, period);
    }
  }

  lemma FirstDisconnect(out: nat, save: nat, period: nat)
    ensures Reachable(Promptly(period),
                      Start(out, save, None, [S.Handler(0, S.Queued, true)], [Entry(7, 0)], [(0, Entry(7, 0))],
                            NoCalls(), Resting))
  {
    FirstConnection(out, save, period);
    hide Reachable;
    var good := Promptly(period);
    var s2 := Start(out, save, Some(0), [S.Handler(0, S.Serving, true)], [], [], NoCalls(), Resting);
    var s3 := Start(out, save, None, [S.Handler(0, S.Detached, true)], [], [], NoCalls(), Resting);
    var over, e := S.Handler(0, S.Queued, true), Entry(7, 0);
    var s4 := Start(out, save, None, [over], [e], [(0, e)], NoCalls(), Resting);
    assert good(s3) && good(s4);
    hide Promptly;
    Onward(good, s2, Session(S.Detach(0)), s3);
    Onward(good, s3, Session(S.Enqueue(0)), s4);
  }

  lemma ResumedAtOnce(out: nat, save: nat, period: nat) returns (w: World)
    ensures w == World(out, save, Some(1), [S.Handler(0, S.Queued, true), S.Handler(0, S.Serving, true)], NoCalls())
    ensures Reachable(Promptly(period), Rest(w, 0, 0))
  {
    var over, e := S.Handler(0, S.Queued, true), Entry(7, 0);
    w := World(out, save, Some(1), [over, S.Handler(0, S.Serving, true)], NoCalls());
    FirstDisconnect(out, save, period);
    hide Reachable;
    var good := Promptly(period);
    var s4 := Start(out, save, None, [over], [e], [(0, e)], NoCalls(), Resting);
    var s5 := Start(out, save, None, [over, S.Handler(0, S.Attached, true)], [e], [(0, e)], NoCalls(), Resting);
    var s6 := Rest(w, 0, 0);
    assert good(s5) && good(s6);
    hide Promptly;
    Onward(good, s4, Session(S.Resume(7)), s5);
    Onward(good, s5, Session(S.Attach(1)), s6);
  }

  /** A call begun after a resume has no such guard: for every request timeout, save time and period it
      can be left behind in the very moment it is begun, when its connection dies before the check. */
  lemma ResumedCallIsLost(out: nat, save: nat, period: nat) returns (u: State)
    requires 0 < period && save < WRAP
    ensures Reachable(Promptly(period), u) && u.out == out && u.session.save == save
    ensures LeavesBehind(u, 1, Entry(1, u.session.now))
  {
    var w := ResumedAtOnce(out, save, period);
    var last := PassesUntil(w, period, 0, 0, save);
    hide Reachable;
    var good, now := Promptly(period), save * 1_000_000;
    var s1 := Checked(w, save, last);
    var s2 := s1.(tables := [OneCall(now)]);
    var s3 := s2.(session := s2.session.(handlers := [S.Handler(0, S.Queued, true), S.Handler(0, S.Serving, false)]));
    assert good(s2) && good(s3);
    hide Promptly;
    BeginFirst(s1, now);
    assert S.Enabled(s2.session, S.Drop(1)) && S.Apply(s2.session, S.Drop(1)) == s3.session;
    assert S.Disconnected(s3.session, 0);
    hide S.Apply, S.Enabled, S.Disconnected;
    Onward(good, s1, Begin(0, 1), s2);
    Onward(good, s2, Session(S.Drop(1)), s3);
    CondemnedNow(w, period, s3);
    u := Apply(s3, Session(S.Pop));
  }
}

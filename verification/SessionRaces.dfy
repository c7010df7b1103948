/** When a session can be reaped although a connection serves it: exactly when, and in which runs. */
module SessionRaces {
  import opened Outcomes
  import opened TimedQueue
  import opened SessionMachine
  import opened SessionInvariant
  import opened SessionTheorems

  predicate LiveIn(s: State, t: nat, h: nat, p: Phase) {
    h < |s.handlers| && s.handlers[h].token == t && s.handlers[h].phase == p && s.handlers[h].alive
  }

  ghost predicate ServingLive(s: State, t: nat) { exists h: nat :: LiveIn(s, t, h, Serving) }

  ghost predicate AttachedLive(s: State, t: nat) { exists h: nat :: LiveIn(s, t, h, Attached) }

  // ----- whose connection a token uses -----

  /** The steps that change a token's peer: `set_peer` of one of its handlers. */
  predicate Switches(s: State, a: Action, t: nat) {
    (a.Attach? || a.Detach?) && a.h < |s.handlers| && s.handlers[a.h].token == t
  }

  /** Step `i` is the latest before state `n` that changed the peer of `t`. */
  ghost predicate IsLatest(states: seq<State>, actions: seq<Action>, i: nat, n: nat, t: nat) {
    && i < n <= |actions| < |states|
    && Switches(states[i], actions[i], t)
    && forall j :: i < j < n ==> !Switches(states[j], actions[j], t)
  }

  lemma StepKeepsHandlers(s: State, a: Action)
    requires Enabled(s, a)
    ensures |s.handlers| <= |Apply(s, a).handlers|
    ensures forall h :: 0 <= h < |s.handlers| ==>
      && Apply(s, a).handlers[h].token == s.handlers[h].token
      && (s.handlers[h].phase != Attached ==> Apply(s, a).handlers[h].phase != Attached)
  {
    hide Due, Disconnected;
  }

  lemma {:induction false} RunKeepsHandlers(states: seq<State>, actions: seq<Action>, n: nat, m: nat)
    requires Run(states, actions) && n <= m < |states|
    ensures |states[n].handlers| <= |states[m].handlers|
    ensures forall h :: 0 <= h < |states[n].handlers| ==>
      && states[m].handlers[h].token == states[n].handlers[h].token
      && (states[n].handlers[h].phase != Attached ==> states[m].handlers[h].phase != Attached)
    decreases m
  {
    hide Run, Apply, Enabled;
    RunStarts(states, actions);
    if n < m {
      RunKeepsHandlers(states, actions, n, m - 1);
      RunStep(states, actions, m - 1);
      StepKeepsHandlers(states[m - 1], actions[m - 1]);
    }
  }

  lemma SwitchSetsPeer(s: State, a: Action, t: nat)
    requires HandlersOk(s) && Enabled(s, a) && t < |s.tokens|
    ensures t < |Apply(s, a).tokens|
    ensures Apply(s, a).tokens[t].peer
         == if !Switches(s, a, t) then s.tokens[t].peer else if a.Attach? then Some(a.h) else None
  {
    hide Due, Disconnected;
  }

  /** The latest switch decides the peer. */
  lemma {:induction false} LatestDecides(states: seq<State>, actions: seq<Action>, i: nat, n: nat, t: nat)
    requires Run(states, actions) && IsLatest(states, actions, i, n, t)
    ensures t < |states[n].tokens|
    ensures states[n].tokens[t].peer == if actions[i].Attach? then Some(actions[i].h) else None
    decreases n
  {
    hide Run, Apply, Enabled, NoLeak, PeersOk, QueueOk, PushedOk, ClosedOk, LiveOk, CondemnedOk;
    RunStarts(states, actions);
    RunInv(states, actions, n - 1);
    RunStep(states, actions, n - 1);
    if i < n - 1 {
      LatestDecides(states, actions, i, n - 1, t);
    }
    SwitchSetsPeer(states[n - 1], actions[n - 1], t);
  }

  lemma {:induction false} LatestExists(states: seq<State>, actions: seq<Action>, i: nat, n: nat, t: nat)
    returns (m: nat)
    requires Run(states, actions) && i < n <= |actions| && Switches(states[i], actions[i], t)
    ensures i <= m && IsLatest(states, actions, m, n, t)
    decreases n
  {
    if i == n - 1 || Switches(states[n - 1], actions[n - 1], t) {
      m := n - 1;
    } else {
      m := LatestExists(states, actions, i, n - 1, t);
    }
  }

  lemma ServingStep(s: State, a: Action, h: nat)
    requires Enabled(s, a) && h < |Apply(s, a).handlers| && Apply(s, a).handlers[h].phase == Serving
    ensures a == Attach(h) || (h < |s.handlers| && s.handlers[h].phase == Serving)
    ensures a == Attach(h) ==> h < |s.handlers| && s.handlers[h].phase == Attached
  {
    hide Due, Disconnected;
  }

  lemma NoHandlersYet(s: State, h: nat)
    ensures IsInit(s) ==> !(h < |s.handlers|)
  {
  }

  lemma {:induction false} ServingAttached(states: seq<State>, actions: seq<Action>, n: nat, h: nat) returns (i: nat)
    requires Run(states, actions) && n < |states|
    requires h < |states[n].handlers| && states[n].handlers[h].phase == Serving
    ensures i < n && actions[i] == Attach(h) && h < |states[i].handlers|
    ensures states[i].handlers[h].token == states[n].handlers[h].token
    decreases n
  {
    hide Run, Apply, Enabled;
    RunStarts(states, actions);
    NoHandlersYet(states[0], h);
    RunStep(states, actions, n - 1);
    ServingStep(states[n - 1], actions[n - 1], h);
    if actions[n - 1] == Attach(h) {
      i := n - 1;
    } else {
      i := ServingAttached(states, actions, n - 1, h);
    }
    RunKeepsHandlers(states, actions, i, n);
  }

  lemma AttachesOnce(states: seq<State>, actions: seq<Action>, i: nat, j: nat, h: nat)
    requires Run(states, actions) && i < j < |actions| && actions[i] == Attach(h)
    ensures actions[j] != Attach(h)
  {
    RunKeepsHandlers(states, actions, i + 1, j);
    assert states[i + 1].handlers[h].phase == Serving;
  }

  /** In every run, a serving handler's connection is its token's peer exactly as long as no other
      handler of that token has attached or detached since this one attached. */
  lemma ServingOwnsPeerExactly(states: seq<State>, actions: seq<Action>, n: nat, h: nat) returns (i: nat)
    requires Run(states, actions) && n < |states|
    requires h < |states[n].handlers| && states[n].handlers[h].phase == Serving
    ensures i < n && actions[i] == Attach(h)
    ensures var t := states[n].handlers[h].token;
      && t < |states[n].tokens|
      && (states[n].tokens[t].peer == Some(h)
          <==> forall j :: i < j < n ==> !Switches(states[j], actions[j], t))
  {
    hide Apply, Enabled, NoLeak, PeersOk, QueueOk, PushedOk, ClosedOk, LiveOk, CondemnedOk, TokensOk;
    i := ServingAttached(states, actions, n, h);
    var t := states[n].handlers[h].token;
    RunInv(states, actions, n);
    var m := LatestExists(states, actions, i, n, t);
    LatestDecides(states, actions, m, n, t);
    if i < m {
      AttachesOnce(states, actions, i, m, h);
    }
  }

  /** The sweep, coming to a due entry of a session that has a live serving connection, condemns its
      token exactly if the latest change of the token's peer was some handler detaching, or some other
      connection attaching that has died since. */
  lemma CondemnsServingExactly(states: seq<State>, actions: seq<Action>, n: nat, h: nat)
    requires Run(states, actions) && n < |actions| && actions[n] == Pop
    requires h < |states[n].handlers| && LiveIn(states[n], states[n].handlers[h].token, h, Serving)
    requires var s := states[n];
      && s.queue != [] && Due(s.now, Last(s.queue), s.save)
      && Last(s.queue).key in s.dict && s.dict[Last(s.queue).key] == s.handlers[h].token
    ensures states[n + 1].sweeper.Condemned?
      <==> exists m: nat :: IsLatest(states, actions, m, n, states[n].handlers[h].token)
             && (actions[m].Detach? || (actions[m].h < |states[n].handlers| && !states[n].handlers[actions[m].h].alive))
  {
    hide Due, NoLeak, PeersOk, QueueOk, PushedOk, ClosedOk, LiveOk, CondemnedOk;
    var s, t := states[n], states[n].handlers[h].token;
    RunInv(states, actions, n);
    var i := ServingAttached(states, actions, n, h);
    var latest := LatestExists(states, actions, i, n, t);
    forall m: nat | IsLatest(states, actions, m, n, t)
      ensures Disconnected(s, t) <==>
        actions[m].Detach? || (actions[m].h < |s.handlers| && !s.handlers[actions[m].h].alive)
    {
      LatestDecides(states, actions, m, n, t);
      RunKeepsHandlers(states, actions, m, n);
    }
    assert states[n + 1] == DoPop(s);
  }

  // ----- between the check and the removal -----

  ghost predicate Keeps(actions: seq<Action>) {
    forall i :: 0 <= i < |actions| ==> !actions[i].Remove?
  }

  lemma CondemnedStep(s: State, a: Action)
    requires HandlersOk(s) && s.sweeper.Condemned? && Enabled(s, a) && !a.Remove?
    requires s.sweeper.token < |s.tokens|
    ensures Apply(s, a).sweeper == s.sweeper && s.sweeper.token < |Apply(s, a).tokens| && HandlersOk(Apply(s, a))
    ensures !ServingLive(s, s.sweeper.token) && !AttachedLive(s, s.sweeper.token) ==>
      !ServingLive(Apply(s, a), s.sweeper.token) && !AttachedLive(Apply(s, a), s.sweeper.token)
  {
    var t, u := s.sweeper.token, Apply(s, a);
    if !ServingLive(s, t) && !AttachedLive(s, t) {
      forall h: nat ensures !LiveIn(u, t, h, Serving) && !LiveIn(u, t, h, Attached) {
        assert !LiveIn(s, t, h, Serving) && !LiveIn(s, t, h, Attached);
      }
    }
  }

  lemma {:induction false} CondemnedStaysQuiet(s: State, actions: seq<Action>, u: State)
    requires HandlersOk(s) && s.sweeper.Condemned? && s.sweeper.token < |s.tokens|
    requires Leads(s, actions, u) && Keeps(actions)
    requires !ServingLive(s, s.sweeper.token) && !AttachedLive(s, s.sweeper.token)
    ensures !ServingLive(u, s.sweeper.token)
    decreases |actions|
  {
    if actions != [] {
      CondemnedStep(s, actions[0]);
      CondemnedStaysQuiet(Apply(s, actions[0]), actions[1..], u);
    }
  }

  /** Between the check and the removal a condemned token can come to serve a live connection exactly
      if some connection had already looked the token up and not yet set itself as its peer. */
  lemma RemovalRaceExactly(s: State)
    requires HandlersOk(s) && s.sweeper.Condemned? && s.sweeper.token < |s.tokens|
    requires !ServingLive(s, s.sweeper.token)
    ensures (exists actions, u :: Leads(s, actions, u) && Keeps(actions)
               && Enabled(u, Remove) && ServingLive(u, s.sweeper.token))
      <==> AttachedLive(s, s.sweeper.token)
  {
    hide Due, Disconnected;
    var t := s.sweeper.token;
    if h: nat :| LiveIn(s, t, h, Attached) {
      var u := Apply(s, Attach(h));
      assert [Attach(h)][1..] == [];
      assert Leads(u, [], u);
      assert Leads(s, [Attach(h)], u);
      assert LiveIn(u, t, h, Serving) && Keeps([Attach(h)]) && Enabled(u, Remove);
    } else {
      forall actions, u | Leads(s, actions, u) && Keeps(actions) ensures !ServingLive(u, t) {
        CondemnedStaysQuiet(s, actions, u);
      }
    }
  }

  /** One step of a live handler while the sweep holds a condemned token. */
  lemma LiveStep(s: State, a: Action, t: nat, h: nat)
    requires Enabled(s, a) && s.sweeper.Condemned? && !a.Remove?
    ensures Apply(s, a).sweeper == s.sweeper
    ensures LiveIn(Apply(s, a), t, h, Serving) <==>
      || (LiveIn(s, t, h, Serving) && a != Drop(h) && a != Detach(h))
      || (LiveIn(s, t, h, Attached) && a == Attach(h))
    ensures LiveIn(Apply(s, a), t, h, Attached) <==> LiveIn(s, t, h, Attached) && a != Drop(h) && a != Attach(h)
  {
  }

  /** Since step `p`, the connection of `h` has neither died nor been detached. */
  predicate Undisturbed(actions: seq<Action>, p: nat, k: nat, h: nat)
    requires k <= |actions|
  {
    forall j :: p < j < k ==> actions[j] != Drop(h) && actions[j] != Detach(h)
  }

  predicate Attaches(actions: seq<Action>, p: nat, k: nat, h: nat)
    requires k <= |actions|
  {
    exists j :: p < j < k && actions[j] == Attach(h)
  }

  lemma {:induction false} LiveSince(states: seq<State>, actions: seq<Action>, p: nat, k: nat, t: nat, h: nat)
    requires Run(states, actions) && p < k <= |actions| && actions[p] == Pop && states[p + 1].sweeper.Condemned?
    requires forall j :: p < j < k ==> actions[j] != Remove
    ensures states[k].sweeper == states[p + 1].sweeper
    ensures LiveIn(states[k], t, h, Serving) <==>
      && Undisturbed(actions, p, k, h)
      && (LiveIn(states[p], t, h, Serving) || (LiveIn(states[p], t, h, Attached) && Attaches(actions, p, k, h)))
    ensures LiveIn(states[k], t, h, Attached) <==>
      LiveIn(states[p], t, h, Attached) && !Attaches(actions, p, k, h) && Undisturbed(actions, p, k, h)
    decreases k
  {
    hide Run, Apply, Enabled, LiveIn;
    RunStarts(states, actions);
    if k == p + 1 {
      RunStep(states, actions, p);
      PopKeepsLive(states[p], t, h);
    } else {
      var m := k - 1;
      LiveSince(states, actions, p, m, t, h);
      RunStep(states, actions, m);
      LiveStep(states[m], actions[m], t, h);
      DetachIsOfServing(states[m], actions[m], t, h);
      assert Undisturbed(actions, p, k, h) <==>
        Undisturbed(actions, p, m, h) && actions[m] != Drop(h) && actions[m] != Detach(h);
      assert Attaches(actions, p, k, h) <==> Attaches(actions, p, m, h) || actions[m] == Attach(h);
    }
  }

  lemma DetachIsOfServing(s: State, a: Action, t: nat, h: nat)
    requires Enabled(s, a)
    ensures a == Detach(h) ==> !LiveIn(s, t, h, Attached)
    ensures a == Attach(h) ==> !LiveIn(s, t, h, Serving)
  {
  }

  lemma PopKeepsLive(s: State, t: nat, h: nat)
    requires Enabled(s, Pop)
    ensures LiveIn(Apply(s, Pop), t, h, Serving) <==> LiveIn(s, t, h, Serving)
    ensures LiveIn(Apply(s, Pop), t, h, Attached) <==> LiveIn(s, t, h, Attached)
  {
    hide Due, Disconnected;
  }

  /** When the sweep came by, `h` served its connection, but the latest change of the token's peer hid it. */
  ghost predicate WasHidden(states: seq<State>, actions: seq<Action>, p: nat, t: nat, h: nat)
    requires p < |states|
  {
    && LiveIn(states[p], t, h, Serving)
    && exists m: nat :: IsLatest(states, actions, m, p, t)
         && (actions[m].Detach? || (actions[m].h < |states[p].handlers| && !states[p].handlers[actions[m].h].alive))
  }

  /** What it takes for `h` to be serving when the token is removed. */
  ghost predicate ServesStill(states: seq<State>, actions: seq<Action>, p: nat, r: nat, t: nat, h: nat)
    requires p < |states| && r <= |actions|
  {
    && Undisturbed(actions, p, r, h)
    && (WasHidden(states, actions, p, t, h)
        || (LiveIn(states[p], t, h, Attached) && Attaches(actions, p, r, h)))
  }

  /** A token is removed while it serves a live connection exactly if some connection served it, hidden,
      when the sweep came by, or had looked it up by then and has attached since, and if that connection
      has neither died nor been detached since. */
  lemma RemovesServingExactly(states: seq<State>, actions: seq<Action>, p: nat, r: nat, t: nat)
    requires Run(states, actions) && p < r < |actions| && actions[p] == Pop && actions[r] == Remove
    requires states[p + 1].sweeper.Condemned? && states[p + 1].sweeper.token == t
    requires forall j :: p < j < r ==> actions[j] != Remove
    ensures states[r].sweeper == states[p + 1].sweeper
    ensures ServingLive(states[r], t) <==> exists h: nat :: ServesStill(states, actions, p, r, t, h)
  {
    hide Run, Apply, Enabled, LiveIn, WasHidden;
    RunStarts(states, actions);
    forall h: nat ensures LiveIn(states[r], t, h, Serving) <==> ServesStill(states, actions, p, r, t, h) {
      LiveSince(states, actions, p, r, t, h);
      HiddenExactly(states, actions, p, t, h);
    }
    LiveSince(states, actions, p, r, t, 0);
  }

  lemma HiddenExactly(states: seq<State>, actions: seq<Action>, p: nat, t: nat, h: nat)
    requires Run(states, actions) && p < |actions| && actions[p] == Pop
    requires states[p + 1].sweeper.Condemned? && states[p + 1].sweeper.token == t
    ensures WasHidden(states, actions, p, t, h) <==> LiveIn(states[p], t, h, Serving)
  {
    hide Run, IsLatest;
    RunStarts(states, actions);
    RunStep(states, actions, p);
    if LiveIn(states[p], t, h, Serving) {
      CondemnsServingExactly(states, actions, p, h);
    }
  }

  // ----- runs that show the conditions are met -----

  /** No session has two connections with live sockets, counting handlers not yet through. */
  predicate OneLive(s: State) {
    forall g, h :: 0 <= g < h < |s.handlers| && s.handlers[g].token == s.handlers[h].token ==>
      !(s.handlers[g].alive && IsOpen(s.handlers[g].phase)) || !(s.handlers[h].alive && IsOpen(s.handlers[h].phase))
  }

  /** Session 7 at time `now`, with the given peer, handlers and queue. */
  function Session7(save: nat, now: nat, peer: Option<nat>, handlers: seq<Handler>, queue: seq<Entry>,
                    pushed: seq<(nat, Entry)>): State
  {
    State(save, now, [Token(7, peer, true)], map[7 := 0], queue, Idle, 0, 0, handlers, [], pushed)
  }

  /** The state of a token condemned, removed and being closed. */
  function Reaped(s: State): State
    requires s.queue == [Entry(7, 0)] && 7 in s.dict
  {
    s.(queue := [], sweeper := Emptying(s.dict[7]), sweepStart := s.now, dict := s.dict - {7},
       closed := s.closed + [Closing(s.dict[7], Entry(7, 0), s.now)])
  }

  lemma ReapNow(good: State -> bool, s: State)
    requires Reachable(good, s) && s.sweeper.Idle? && s.queue == [Entry(7, 0)] && 7 in s.dict && s.dict[7] < |s.tokens|
    requires Due(s.now, Entry(7, 0), s.save) && Disconnected(s, s.dict[7])
    requires var condemned := s.(queue := [], sweeper := Condemned(s.dict[7], Entry(7, 0)), sweepStart := s.now);
      good(condemned) && good(Reaped(s))
    ensures Reachable(good, Reaped(s))
  {
    hide Due, Disconnected;
    var condemned := s.(queue := [], sweeper := Condemned(s.dict[7], Entry(7, 0)), sweepStart := s.now);
    assert Front([Entry(7, 0)]) == [];
    Onward(good, s, Pop, condemned);
    Onward(good, condemned, Remove, Reaped(s));
  }

  lemma Overdue(save: nat)
    requires save < WRAP
    ensures Due(save * 1_000_000, Entry(7, 0), save)
  {
  }

  lemma FirstConnection(save: nat)
    ensures Reachable(OneLive, Session7(save, 0, Some(0), [Handler(0, Serving, true)], [], []))
  {
    FromEmpty(OneLive, save);
    hide Reachable;
    var s1 := Session7(save, 0, None, [Handler(0, Attached, true)], [], []);
    Onward(OneLive, Empty(save), Create(7), s1);
    Onward(OneLive, s1, Attach(0), Session7(save, 0, Some(0), [Handler(0, Serving, true)], [], []));
  }

  /** The old connection has died, and the client has come back on a new one. */
  lemma ReconnectedAfterDeath(save: nat)
    ensures Reachable(OneLive,
                      Session7(save, 0, Some(1), [Handler(0, Serving, false), Handler(0, Serving, true)], [], []))
  {
    FirstConnection(save);
    hide Reachable;
    var dead := Handler(0, Serving, false);
    var s2 := Session7(save, 0, Some(0), [Handler(0, Serving, true)], [], []);
    var s3 := Session7(save, 0, Some(0), [dead], [], []);
    var s4 := Session7(save, 0, Some(0), [dead, Handler(0, Attached, true)], [], []);
    var s5 := Session7(save, 0, Some(1), [dead, Handler(0, Serving, true)], [], []);
    Onward(OneLive, s2, Drop(0), s3);
    Onward(OneLive, s3, Resume(7), s4);
    Onward(OneLive, s4, Attach(1), s5);
  }

  /** A client reconnects after its old connection has died. The old handler then detaches, which hides
      the new connection from the check: its token is reaped while it serves, though the session never
      had two live connections. */
  lemma StaleDetachReapsServing(save: nat) returns (u: State)
    requires save < WRAP
    ensures Reachable(OneLive, u) && u.save == save
    ensures |u.closed| == 1 && LiveIn(u, u.closed[0].token, 1, Serving)
  {
    ReconnectedAfterDeath(save);
    hide Reachable, Due;
    var e, late, serving := Entry(7, 0), save * 1_000_000, Handler(0, Serving, true);
    var s5 := Session7(save, 0, Some(1), [Handler(0, Serving, false), serving], [], []);
    var s6 := Session7(save, 0, None, [Handler(0, Detached, false), serving], [], []);
    var s7 := Session7(save, 0, None, [Handler(0, Queued, false), serving], [e], [(0, e)]);
    var s8 := Session7(save, late, None, [Handler(0, Queued, false), serving], [e], [(0, e)]);
    Onward(OneLive, s5, Detach(0), s6);
    Onward(OneLive, s6, Enqueue(0), s7);
    Onward(OneLive, s7, Tick(late), s8);
    Overdue(save);
    ReapNow(OneLive, s8);
    u := Reaped(s8);
  }

  lemma FirstQueued(save: nat)
    ensures Reachable(OneLive, Session7(save, 0, None, [Handler(0, Queued, true)], [Entry(7, 0)], [(0, Entry(7, 0))]))
  {
    FirstConnection(save);
    hide Reachable;
    var s2 := Session7(save, 0, Some(0), [Handler(0, Serving, true)], [], []);
    var s3 := Session7(save, 0, None, [Handler(0, Detached, true)], [], []);
    Onward(OneLive, s2, Detach(0), s3);
    var s4 := Session7(save, 0, None, [Handler(0, Queued, true)], [Entry(7, 0)], [(0, Entry(7, 0))]);
    Onward(OneLive, s3, Enqueue(0), s4);
  }

  /** A session resumed just before its check is reaped while the new connection serves. */
  lemma ResumeRaceReapsServing(save: nat) returns (u: State)
    requires save < WRAP
    ensures Reachable(OneLive, u) && u.save == save
    ensures |u.closed| == 1 && LiveIn(u, u.closed[0].token, 1, Serving)
  {
    FirstQueued(save);
    hide Reachable, Due;
    var e, late, over := Entry(7, 0), save * 1_000_000, Handler(0, Queued, true);
    var s4 := Session7(save, 0, None, [over], [e], [(0, e)]);
    var s5 := Session7(save, late, None, [over], [e], [(0, e)]);
    var s6 := Session7(save, late, None, [over, Handler(0, Attached, true)], [e], [(0, e)]);
    Onward(OneLive, s4, Tick(late), s5);
    Onward(OneLive, s5, Resume(7), s6);
    u := AttachesLate(save);
  }

  lemma AttachesLate(save: nat) returns (u: State)
    requires save < WRAP
    requires Reachable(OneLive,
                       Session7(save, save * 1_000_000, None, [Handler(0, Queued, true), Handler(0, Attached, true)],
                                [Entry(7, 0)], [(0, Entry(7, 0))]))
    ensures Reachable(OneLive, u) && u.save == save
    ensures |u.closed| == 1 && LiveIn(u, u.closed[0].token, 1, Serving)
  {
    hide Reachable, Due;
    var e, late, over := Entry(7, 0), save * 1_000_000, Handler(0, Queued, true);
    var s6 := Session7(save, late, None, [over, Handler(0, Attached, true)], [e], [(0, e)]);
    var s7 := s6.(queue := [], sweeper := Condemned(0, e), sweepStart := late);
    var s8 := s7.(tokens := [Token(7, Some(1), true)], handlers := [over, Handler(0, Serving, true)]);
    Overdue(save);
    assert Front([e]) == [];
    Onward(OneLive, s6, Pop, s7);
    Onward(OneLive, s7, Attach(1), s8);
    u := Apply(s8, Remove);
    Onward(OneLive, s8, Remove, u);
  }

  // ----- a disconnect queued too late -----

  /** A pass begins at most `period` ms after the last completed one began. */
  function Promptly(period: nat): State -> bool {
    (s: State) => s.now <= s.lastSweep + period * 1_000_000
  }

  /** The session was resumed at once and its new connection has died unnoticed; `at` ms have passed,
      and the last completed pass began `last` ms after the start. */
  function DeadConnection(save: nat, at: nat, last: nat): State {
    Session7(save, at * 1_000_000, Some(1), [Handler(0, Queued, true), Handler(0, Serving, false)],
             [Entry(7, 0)], [(0, Entry(7, 0))])
      .(sweepStart := last * 1_000_000, lastSweep := last * 1_000_000)
  }

  lemma FirstServing(save: nat, period: nat)
    ensures Reachable(Promptly(period), Session7(save, 0, Some(0), [Handler(0, Serving, true)], [], []))
  {
    var good := Promptly(period);
    FromEmpty(good, save);
    hide Reachable;
    var s1 := Session7(save, 0, None, [Handler(0, Attached, true)], [], []);
    var s2 := Session7(save, 0, Some(0), [Handler(0, Serving, true)], [], []);
    assert good(s1) && good(s2);
    hide Promptly;
    Onward(good, Empty(save), Create(7), s1);
    Onward(good, s1, Attach(0), s2);
  }

  lemma FirstDisconnect(save: nat, period: nat)
    ensures Reachable(Promptly(period),
                      Session7(save, 0, None, [Handler(0, Queued, true)], [Entry(7, 0)], [(0, Entry(7, 0))]))
  {
    var good := Promptly(period);
    FirstServing(save, period);
    hide Reachable;
    var s2 := Session7(save, 0, Some(0), [Handler(0, Serving, true)], [], []);
    var s3 := Session7(save, 0, None, [Handler(0, Detached, true)], [], []);
    var s4 := Session7(save, 0, None, [Handler(0, Queued, true)], [Entry(7, 0)], [(0, Entry(7, 0))]);
    assert good(s3) && good(s4);
    hide Promptly;
    Onward(good, s2, Detach(0), s3);
    Onward(good, s3, Enqueue(0), s4);
  }

  lemma ReachDeadConnection(save: nat, period: nat)
    ensures Reachable(Promptly(period), DeadConnection(save, 0, 0))
  {
    FirstDisconnect(save, period);
    hide Reachable;
    var good, e, over := Promptly(period), Entry(7, 0), Handler(0, Queued, true);
    var s4 := Session7(save, 0, None, [over], [e], [(0, e)]);
    var s5 := Session7(save, 0, None, [over, Handler(0, Attached, true)], [e], [(0, e)]);
    var s6 := Session7(save, 0, Some(1), [over, Handler(0, Serving, true)], [e], [(0, e)]);
    var s7 := DeadConnection(save, 0, 0);
    assert good(s5) && good(s6) && good(s7);
    hide Promptly;
    Onward(good, s4, Resume(7), s5);
    Onward(good, s5, Attach(1), s6);
    Onward(good, s6, Drop(1), s7);
  }

  lemma AgeInMs(at: nat)
    ensures AgeMs(at * 1_000_000, Entry(7, 0)) == at
  {
  }

  /** Passes every `period` ms find nothing due, until the entry is. */
  lemma {:induction false} WaitUntilDue(save: nat, period: nat, at: nat, last: nat) returns (end: nat, before: nat)
    requires 0 < period && save + period < WRAP && last <= at <= last + period && at < save + period
    requires Reachable(Promptly(period), DeadConnection(save, at, last))
    ensures before <= end <= before + period && save <= end < save + period
    ensures Reachable(Promptly(period), DeadConnection(save, end, before))
    decreases save + period - at
  {
    hide Reachable;
    if save <= at {
      end, before := at, last;
    } else {
      AgeInMs(at);
      Onward(Promptly(period), DeadConnection(save, at, last), Pop, DeadConnection(save, at, at));
      Onward(Promptly(period), DeadConnection(save, at, at), Tick(period * 1_000_000),
             DeadConnection(save, at + period, at));
      end, before := WaitUntilDue(save, period, at + period, at);
    }
  }

  /** The token removed and closed after `at` ms, the dead connection's handler still on; it is `now` ms,
      and the last completed pass began after `last` ms. */
  function RemovedWhileDead(save: nat, at: nat, now: nat, last: nat): State {
    State(save, now * 1_000_000, [Token(7, Some(1), false)], map[], [], Idle, last * 1_000_000, last * 1_000_000,
          [Handler(0, Queued, true), Handler(0, Serving, false)],
          [Closing(0, Entry(7, 0), at * 1_000_000)], [(0, Entry(7, 0))])
  }

  lemma DeadIsRemoved(save: nat, period: nat, at: nat, last: nat)
    requires save <= at < WRAP && Reachable(Promptly(period), DeadConnection(save, at, last))
    requires last <= at <= last + period
    ensures Reachable(Promptly(period), RemovedWhileDead(save, at, at, at))
  {
    hide Reachable;
    var dead, good := DeadConnection(save, at, last), Promptly(period);
    AgeInMs(at);
    ReapNow(good, dead);
    var s1 := Reaped(dead);
    var s2 := s1.(tokens := [Token(7, Some(1), false)], sweeper := Sweeping);
    assert map[7 := 0] - {7} == map[];
    assert good(s2) && good(RemovedWhileDead(save, at, at, at));
    hide Promptly;
    Onward(good, s1, Clear, s2);
    Onward(good, s2, Pop, RemovedWhileDead(save, at, at, at));
  }

  lemma TwoPeriodsLater(save: nat, period: nat, at: nat)
    requires Reachable(Promptly(period), RemovedWhileDead(save, at, at, at))
    ensures Reachable(Promptly(period), RemovedWhileDead(save, at, at + 2 * period, at + period))
  {
    hide Reachable;
    var good := Promptly(period);
    var s3, s4 := RemovedWhileDead(save, at, at, at), RemovedWhileDead(save, at, at + period, at);
    var s5 := RemovedWhileDead(save, at, at + period, at + period);
    var s6 := RemovedWhileDead(save, at, at + 2 * period, at + period);
    assert good(s4) && good(s5) && good(s6);
    hide Promptly;
    Onward(good, s3, Tick(period * 1_000_000), s4);
    Onward(good, s4, Pop, s5);
    Onward(good, s5, Tick(period * 1_000_000), s6);
  }

  /** With passes begun every `period` ms, for every save time and period: a handler about to queue its
      disconnect, more than save time plus period after the only other one of the session, may find its
      token gone, because its dead socket counted as disconnected before the handler noticed. */
  lemma GoneBeforeEnqueue(save: nat, period: nat) returns (u: State)
    requires 0 < period && save + period < WRAP
    ensures Reachable(Promptly(period), u) && u.save == save
    ensures Enabled(u, Enqueue(1)) && u.tokens[u.handlers[1].token].sid == 7 && 7 !in u.dict
    ensures forall l :: 0 <= l < |u.pushed| ==> AgeMs(u.now, u.pushed[l].1) > save + period
  {
    ReachDeadConnection(save, period);
    var at, last := WaitUntilDue(save, period, 0, 0);
    DeadIsRemoved(save, period, at, last);
    hide Reachable;
    var good := Promptly(period);
    TwoPeriodsLater(save, period, at);
    var s6 := RemovedWhileDead(save, at, at + 2 * period, at + period);
    u := s6.(tokens := [Token(7, None, false)], handlers := [Handler(0, Queued, true), Handler(0, Detached, false)]);
    assert good(u);
    hide Promptly;
    Onward(good, s6, Detach(1), u);
    AgeInMs(at + 2 * period);
  }
}

/** When a token is never cleaned up: exactly when, in runs with any number of connections. */
module SessionLeaks {
  import opened Outcomes
  import opened TimedQueue
  import opened SessionMachine
  import opened SessionInvariant
  import opened SessionTheorems
  import opened SessionRaces

  /** A token nobody will ever clean up: live, unconnected, no handler left, nothing queued. */
  ghost predicate Leaked(s: State, sid: int) {
    && sid in s.dict
    && s.dict[sid] < |s.tokens|
    && s.tokens[s.dict[sid]].peer == None
    && (forall h: nat :: !HeldBy(s, s.dict[sid], h))
    && sid !in Keys(s.queue)
    && !(s.sweeper.Condemned? && s.sweeper.token == s.dict[sid])
  }

  /** The only way to leak a token is a failing Disconnect function of its session. */
  lemma LeakNeedsFailure(states: seq<State>, actions: seq<Action>, n: nat, sid: int)
    requires Run(states, actions) && n < |states| && Leaked(states[n], sid)
    ensures exists h: nat :: FailedBy(states[n], states[n].dict[sid], h)
  {
    RunInv(states, actions, n);
    assert Accounted(states[n], sid);
  }

  predicate NoneFailed(s: State) {
    forall h :: 0 <= h < |s.handlers| ==> s.handlers[h].phase != Failed
  }

  lemma NoneFailedStep(s: State, a: Action)
    requires NoneFailed(s) && Enabled(s, a) && !a.FailDisconnect?
    ensures NoneFailed(Apply(s, a))
  {
    hide Due, Disconnected;
  }

  lemma NobodyFailed(s: State)
    requires s.handlers == []
    ensures NoneFailed(s)
  {
  }

  lemma {:induction false} NoFailuresSoFar(states: seq<State>, actions: seq<Action>, n: nat)
    requires Run(states, actions) && n < |states|
    requires forall i :: 0 <= i < n ==> !actions[i].FailDisconnect?
    ensures NoneFailed(states[n])
  {
    hide Run, Apply, Enabled, NoneFailed;
    RunStarts(states, actions);
    if n > 0 {
      NoFailuresSoFar(states, actions, n - 1);
      RunStep(states, actions, n - 1);
      NoneFailedStep(states[n - 1], actions[n - 1]);
    } else {
      NobodyFailed(states[0]);
    }
  }

  /** As long as Disconnect functions succeed no session leaks, whatever else interleaves. */
  lemma SuccessfulRunsNeverLeak(states: seq<State>, actions: seq<Action>, n: nat, sid: int)
    requires Run(states, actions) && n < |states|
    requires forall i :: 0 <= i < n ==> !actions[i].FailDisconnect?
    ensures !Leaked(states[n], sid)
  {
    NoFailuresSoFar(states, actions, n);
    if Leaked(states[n], sid) {
      LeakNeedsFailure(states, actions, n, sid);
    }
  }

  lemma LeakStep(s: State, a: Action, sid: int)
    requires TokensOk(s) && HandlersOk(s) && CondemnedOk(s) && Leaked(s, sid) && Enabled(s, a) && a != Resume(sid)
    ensures Leaked(Apply(s, a), sid)
  {
    hide Due, Disconnected, WasPushed;
    var u, t := Apply(s, a), s.dict[sid];
    forall h: nat ensures !HeldBy(u, t, h) {
      assert !HeldBy(s, t, h);
    }
    if a.Attach? || a.Enqueue? || a.Detach? {
      assert !HeldBy(s, t, a.h);
    }
    forall e | e in u.queue ensures e.key != sid {
      assert e in s.queue ==> e.key in Keys(s.queue);
    }
    if a.Pop? && u.sweeper.Condemned? {
      assert Last(s.queue) in s.queue && Last(s.queue).key in Keys(s.queue);
    }
  }

  /** A leaked token stays in the map for ever unless a client resumes the session. */
  lemma {:induction false} LeakIsForever(states: seq<State>, actions: seq<Action>, n: nat, m: nat, sid: int)
    requires Run(states, actions) && n <= m < |states| && Leaked(states[n], sid)
    requires forall i :: n <= i < m ==> actions[i] != Resume(sid)
    ensures Leaked(states[m], sid)
    decreases m
  {
    hide Run, Apply, Enabled, Leaked, Inv;
    RunStarts(states, actions);
    if n < m {
      LeakIsForever(states, actions, n, m - 1, sid);
      RunInv(states, actions, m - 1);
      InvParts(states[m - 1]);
      RunStep(states, actions, m - 1);
      LeakStep(states[m - 1], actions[m - 1], sid);
    }
  }

  lemma InvParts(s: State)
    requires Inv(s)
    ensures TokensOk(s) && HandlersOk(s) && CondemnedOk(s) && PeersOk(s)
  {
  }

  // ----- exactly when -----

  /** A handler of `t` comes to its end: with its disconnect queued, or because its Disconnect function
      failed. */
  predicate Ends(s: State, a: Action, t: nat) {
    (a.Enqueue? || a.FailDisconnect?) && a.h < |s.handlers| && s.handlers[a.h].token == t
  }

  ghost predicate NobodyOpen(s: State, t: nat) { forall h: nat :: !HeldBy(s, t, h) }

  /** A disconnect of the session is still queued, or the sweep is about to remove its token. */
  predicate Coming(s: State, sid: int, t: nat) {
    sid in Keys(s.queue) || (s.sweeper.Condemned? && s.sweeper.token == t)
  }

  lemma OpenStep(s: State, a: Action, t: nat, h: nat)
    requires HeldBy(s, t, h) && Enabled(s, a) && !Ends(s, a, t)
    ensures HeldBy(Apply(s, a), t, h)
  {
    hide Due, Disconnected;
  }

  /** A handler stays open until it ends. */
  lemma {:induction false} OpenLasts(states: seq<State>, actions: seq<Action>, j: nat, n: nat, t: nat, h: nat)
    requires Run(states, actions) && j <= n <= |actions| && HeldBy(states[j], t, h)
    requires forall k :: j <= k < n ==> !Ends(states[k], actions[k], t)
    ensures HeldBy(states[n], t, h)
    decreases n
  {
    hide Run, Apply, Enabled, HeldBy, Ends;
    if j < n {
      OpenLasts(states, actions, j, n - 1, t, h);
      RunStep(states, actions, n - 1);
      OpenStep(states[n - 1], actions[n - 1], t, h);
    }
  }

  lemma NobodyWasOpen(states: seq<State>, actions: seq<Action>, j: nat, n: nat, t: nat)
    requires Run(states, actions) && j <= n <= |actions| && NobodyOpen(states[n], t)
    requires forall k :: j <= k < n ==> !Ends(states[k], actions[k], t)
    ensures NobodyOpen(states[j], t)
  {
    hide Run, HeldBy, Ends;
    RunStarts(states, actions);
    forall h: nat ensures !HeldBy(states[j], t, h) {
      if HeldBy(states[j], t, h) {
        OpenLasts(states, actions, j, n, t, h);
      }
    }
  }

  lemma SidStep(s: State, a: Action, t: nat)
    requires Enabled(s, a) && t < |s.tokens|
    ensures t < |Apply(s, a).tokens| && Apply(s, a).tokens[t].sid == s.tokens[t].sid
  {
    hide Due, Disconnected;
  }

  lemma {:induction false} SidStays(states: seq<State>, actions: seq<Action>, j: nat, n: nat, t: nat)
    requires Run(states, actions) && j <= n <= |actions| && t < |states[j].tokens|
    ensures t < |states[n].tokens| && states[n].tokens[t].sid == states[j].tokens[t].sid
    decreases n
  {
    hide Run, Apply, Enabled;
    if j < n {
      SidStays(states, actions, j, n - 1, t);
      RunStep(states, actions, n - 1);
      SidStep(states[n - 1], actions[n - 1], t);
    }
  }

  lemma ComingStep(s: State, a: Action, sid: int, t: nat)
    requires TokensOk(s) && CondemnedOk(s) && PeersOk(s) && Enabled(s, a) && NobodyOpen(s, t)
    requires t < |s.tokens| && s.tokens[t].sid == sid && sid in s.dict && sid in Apply(s, a).dict
    requires Coming(s, sid, t)
    ensures Coming(Apply(s, a), sid, t)
  {
    hide Due, WasPushed;
    var u := Apply(s, a);
    assert s.dict[sid] == t && PeerOk(s, t);
    assert s.tokens[t].peer.Some? ==> HeldBy(s, t, s.tokens[t].peer.value);
    if e :| e in s.queue && e.key == sid {
      if a.Pop? && u.queue != s.queue {
        assert e in Front(s.queue) || e == Last(s.queue);
      } else {
        assert e in u.queue;
      }
    }
  }

  /** Still in the map at `n`, the token was there all along, with nobody open. */
  lemma Between(states: seq<State>, actions: seq<Action>, i: nat, k: nat, n: nat, t: nat)
    requires Run(states, actions) && i < k <= n <= |actions| && Ends(states[i], actions[i], t)
    requires forall j :: i < j < n ==> !Ends(states[j], actions[j], t)
    requires t < |states[n].tokens| && states[n].tokens[t].sid in states[n].dict && NobodyOpen(states[n], t)
    ensures Inv(states[k]) && NobodyOpen(states[k], t) && t < |states[k].tokens|
    ensures states[k].tokens[t].sid == states[n].tokens[t].sid && states[n].tokens[t].sid in states[k].dict
    ensures states[k].dict[states[n].tokens[t].sid] == t
  {
    hide Run, Apply, Inv, Ends, NobodyOpen;
    RunStarts(states, actions);
    RunInv(states, actions, i);
    RunInv(states, actions, k);
    EndedHandler(states, actions, i, t);
    SidStays(states, actions, i, k, t);
    SidStays(states, actions, k, n, t);
    if states[k].tokens[t].sid !in states[k].dict {
      GoneForEver(states, actions, k, n, t);
    }
    TokenOfSid(states[k], t);
    NobodyWasOpen(states, actions, k, n, t);
  }

  lemma EndedHandler(states: seq<State>, actions: seq<Action>, i: nat, t: nat)
    requires Run(states, actions) && i < |actions| && Ends(states[i], actions[i], t)
    ensures t < |states[i].tokens|
  {
    hide Run;
    RunStep(states, actions, i);
  }

  lemma TokenOfSid(s: State, t: nat)
    requires Inv(s) && t < |s.tokens| && s.tokens[t].sid in s.dict
    ensures s.dict[s.tokens[t].sid] == t
  {
    InvParts(s);
  }

  lemma {:induction false} ComingLasts(states: seq<State>, actions: seq<Action>, i: nat, k: nat, n: nat, t: nat)
    requires Run(states, actions) && i < k <= n <= |actions| && Ends(states[i], actions[i], t)
    requires forall j :: i < j < n ==> !Ends(states[j], actions[j], t)
    requires t < |states[n].tokens| && states[n].tokens[t].sid in states[n].dict && NobodyOpen(states[n], t)
    requires Coming(states[i + 1], states[n].tokens[t].sid, t)
    ensures Coming(states[k], states[n].tokens[t].sid, t)
    decreases k
  {
    hide Run, Apply, Enabled, Inv, Ends, NobodyOpen, Coming, PeersOk, CondemnedOk, TokensOk;
    RunStarts(states, actions);
    if i + 1 < k {
      ComingLasts(states, actions, i, k - 1, n, t);
      Between(states, actions, i, k - 1, n, t);
      Between(states, actions, i, k, n, t);
      InvParts(states[k - 1]);
      RunStep(states, actions, k - 1);
      ComingStep(states[k - 1], actions[k - 1], states[n].tokens[t].sid, t);
    }
  }

  lemma NobodyResumes(states: seq<State>, actions: seq<Action>, i: nat, k: nat, n: nat, t: nat)
    requires Run(states, actions) && i < k < n <= |actions| && Ends(states[i], actions[i], t)
    requires forall j :: i < j < n ==> !Ends(states[j], actions[j], t)
    requires t < |states[n].tokens| && states[n].tokens[t].sid in states[n].dict && NobodyOpen(states[n], t)
    ensures actions[k] != Resume(states[n].tokens[t].sid)
  {
    hide Run, Inv, Ends, NobodyOpen;
    Between(states, actions, i, k, n, t);
    Between(states, actions, i, k + 1, n, t);
    RunStep(states, actions, k);
    assert actions[k] == Resume(states[n].tokens[t].sid) ==> HeldBy(states[k + 1], t, |states[k].handlers|);
    NobodyIs(states[k + 1], t, |states[k].handlers|);
  }

  lemma NobodyIs(s: State, t: nat, h: nat)
    requires NobodyOpen(s, t)
    ensures !HeldBy(s, t, h)
  {
  }

  lemma EndedComing(s: State, a: Action, sid: int, t: nat)
    requires Enabled(s, a) && Ends(s, a, t) && t < |s.tokens| && s.tokens[t].sid == sid
    ensures Coming(Apply(s, a), sid, t) <==> a.Enqueue? || Coming(s, sid, t)
  {
    var u := Apply(s, a);
    if a.Enqueue? {
      assert u.queue[0].key == sid && u.queue[0] in u.queue;
    }
  }

  lemma NotComingIsLeaked(s: State, t: nat)
    requires Inv(s) && t < |s.tokens| && s.tokens[t].sid in s.dict && NobodyOpen(s, t)
    ensures Leaked(s, s.tokens[t].sid) <==> !Coming(s, s.tokens[t].sid, t)
  {
    hide NoLeak, ClosedOk, LiveOk, PushedOk, WasPushed, HandlersOk, QueueOk, Keys;
    assert s.dict[s.tokens[t].sid] == t && PeerOk(s, t);
    assert s.tokens[t].peer.Some? ==> HeldBy(s, t, s.tokens[t].peer.value);
  }

  /** For a token with any number of connections, none of them open any more and the token still in the
      map: it is leaked exactly if the last of its handlers to end did so because its Disconnect function
      failed, while no earlier disconnect of the session was still queued or about to be acted on. */
  lemma LeaksExactly(states: seq<State>, actions: seq<Action>, i: nat, n: nat, t: nat)
    requires Run(states, actions) && i < n <= |actions| && Ends(states[i], actions[i], t)
    requires forall j :: i < j < n ==> !Ends(states[j], actions[j], t)
    requires t < |states[n].tokens| && states[n].tokens[t].sid in states[n].dict && NobodyOpen(states[n], t)
    ensures Leaked(states[n], states[n].tokens[t].sid)
      <==> actions[i].FailDisconnect? && !Coming(states[i], states[n].tokens[t].sid, t)
  {
    hide Run, Apply, Enabled, Inv, Ends, NobodyOpen, Coming, Leaked;
    RunStarts(states, actions);
    var sid := states[n].tokens[t].sid;
    Between(states, actions, i, i + 1, n, t);
    Between(states, actions, i, n, n, t);
    RunStep(states, actions, i);
    EndedHandler(states, actions, i, t);
    SidStays(states, actions, i, n, t);
    EndedComing(states[i], actions[i], sid, t);
    EndIsOne(states[i], actions[i], t);
    NotComingIsLeaked(states[i + 1], t);
    NotComingIsLeaked(states[n], t);
    if Coming(states[i + 1], sid, t) {
      ComingLasts(states, actions, i, n, n, t);
    } else {
      forall k | i + 1 <= k < n ensures actions[k] != Resume(sid) {
        NobodyResumes(states, actions, i, k, n, t);
      }
      LeakIsForever(states, actions, i + 1, n, sid);
    }
  }

  lemma EndIsOne(s: State, a: Action, t: nat)
    requires Ends(s, a, t)
    ensures a.Enqueue? <==> !a.FailDisconnect?
  {
  }

  /** A failed Disconnect function alone does not leak: resumed and failed while an earlier disconnect was
      still queued, a token is reaped all the same. */
  lemma FailedYetReaped(save: nat) returns (u: State)
    requires save < WRAP
    ensures Reachable(OneLive, u) && u.save == save && |u.handlers| == 2 && u.handlers[1].phase == Failed
    ensures |u.closed| == 1 && u.closed[0].token == u.handlers[1].token
  {
    FirstQueued(save);
    hide Reachable;
    var e, over := Entry(7, 0), Handler(0, Queued, true);
    var s4 := Session7(save, 0, None, [over], [e], [(0, e)]);
    var s5 := Session7(save, 0, None, [over, Handler(0, Attached, true)], [e], [(0, e)]);
    var s6 := Session7(save, 0, Some(1), [over, Handler(0, Serving, true)], [e], [(0, e)]);
    var s7 := Session7(save, 0, None, [over, Handler(0, Detached, true)], [e], [(0, e)]);
    Onward(OneLive, s4, Resume(7), s5);
    Onward(OneLive, s5, Attach(1), s6);
    Onward(OneLive, s6, Detach(1), s7);
    u := FailedIsReaped(save);
  }

  lemma FailedIsReaped(save: nat) returns (u: State)
    requires save < WRAP
    requires Reachable(OneLive, Session7(save, 0, None, [Handler(0, Queued, true), Handler(0, Detached, true)],
                                         [Entry(7, 0)], [(0, Entry(7, 0))]))
    ensures Reachable(OneLive, u) && u.save == save && |u.handlers| == 2 && u.handlers[1].phase == Failed
    ensures |u.closed| == 1 && u.closed[0].token == u.handlers[1].token
  {
    hide Reachable, Due;
    var e, late, over := Entry(7, 0), save * 1_000_000, Handler(0, Queued, true);
    var s7 := Session7(save, 0, None, [over, Handler(0, Detached, true)], [e], [(0, e)]);
    var s8 := Session7(save, 0, None, [over, Handler(0, Failed, true)], [e], [(0, e)]);
    var s9 := Session7(save, late, None, [over, Handler(0, Failed, true)], [e], [(0, e)]);
    Onward(OneLive, s7, FailDisconnect(1), s8);
    Onward(OneLive, s8, Tick(late), s9);
    Overdue(save);
    ReapNow(OneLive, s9);
    u := Reaped(s9);
  }
}

/** What every step of the session machine keeps. */
module SessionInvariant {
  import opened Outcomes
  import opened TimedQueue
  import opened SessionMachine

  predicate TokensFit(tokens: seq<Token>, dict: map<int, nat>) {
    && (forall sid :: sid in dict ==> dict[sid] < |tokens| && tokens[dict[sid]].sid == sid)
    && (forall t, u :: 0 <= t < u < |tokens| ==> tokens[t].sid != tokens[u].sid)
  }

  predicate TokensOk(s: State) { TokensFit(s.tokens, s.dict) }

  predicate HandlersOk(s: State) {
    forall h :: 0 <= h < |s.handlers| ==> s.handlers[h].token < |s.tokens|
  }

  /** A peer is always a serving handler of that very token. */
  predicate PeerOk(s: State, t: nat)
    requires t < |s.tokens|
  {
    s.tokens[t].peer.Some? ==>
      && s.tokens[t].peer.value < |s.handlers|
      && s.handlers[s.tokens[t].peer.value].token == t
      && s.handlers[s.tokens[t].peer.value].phase == Serving
  }

  predicate PeersOk(s: State) {
    forall t :: 0 <= t < |s.tokens| ==> PeerOk(s, t)
  }

  predicate WasPushed(s: State, e: Entry) {
    exists m :: 0 <= m < |s.pushed| && s.pushed[m].1 == e
  }

  predicate QueueOk(s: State) {
    && Sorted(s.queue, s.now)
    && (forall j :: 0 <= j < |s.queue| ==> WasPushed(s, s.queue[j]))
  }

  /** Every entry was pushed by a handler of its session that ran to its end. */
  predicate PushedOk(s: State) {
    forall m :: 0 <= m < |s.pushed| ==>
      && s.pushed[m].1.at <= s.now
      && s.pushed[m].0 < |s.handlers|
      && s.handlers[s.pushed[m].0].phase == Queued
      && s.handlers[s.pushed[m].0].token < |s.tokens|
      && s.tokens[s.handlers[s.pushed[m].0].token].sid == s.pushed[m].1.key
  }

  predicate CondemnedOk(s: State) {
    s.sweeper.Condemned? ==>
      && s.sweeper.entry.key in s.dict
      && s.dict[s.sweeper.entry.key] == s.sweeper.token
      && Expired(s.now, s.sweeper.entry, s.save)
      && s.sweeper.entry.at <= s.now
      && WasPushed(s, s.sweeper.entry)
  }

  predicate IsOpen(p: Phase) { p == Attached || p == Serving || p == Detached }

  predicate HeldBy(s: State, t: nat, h: nat) {
    h < |s.handlers| && s.handlers[h].token == t && IsOpen(s.handlers[h].phase)
  }

  predicate FailedBy(s: State, t: nat, h: nat) {
    h < |s.handlers| && s.handlers[h].token == t && s.handlers[h].phase == Failed
  }

  /** A live token is connected, or held by a handler that is not through yet, or on its way to being
      reaped, unless some Disconnect function of its session failed. */
  ghost predicate Accounted(s: State, sid: int) {
    && sid in s.dict
    && s.dict[sid] < |s.tokens|
    && (|| s.tokens[s.dict[sid]].peer.Some?
        || (exists h: nat :: HeldBy(s, s.dict[sid], h))
        || (exists h: nat :: FailedBy(s, s.dict[sid], h))
        || sid in Keys(s.queue)
        || (s.sweeper.Condemned? && s.sweeper.token == s.dict[sid]))
  }

  ghost predicate NoLeak(s: State) {
    forall sid :: sid in s.dict ==> Accounted(s, sid)
  }

  predicate ClosingOk(s: State, c: Closing) {
    && c.token < |s.tokens|
    && c.entry.key == s.tokens[c.token].sid
    && c.entry.key !in s.dict
    && Expired(c.at, c.entry, s.save)
    && c.entry.at <= c.at <= s.now
    && WasPushed(s, c.entry)
  }

  predicate ClosedOk(s: State) {
    && (forall m :: 0 <= m < |s.closed| ==> ClosingOk(s, s.closed[m]))
    && (forall l, m :: 0 <= l < m < |s.closed| ==> s.closed[l].token != s.closed[m].token)
  }

  predicate IsClosed(s: State, t: nat) { exists m :: 0 <= m < |s.closed| && s.closed[m].token == t }

  /** A token is in the map until its Closed function is called, and never after; it keeps its
      controller until that function has returned. */
  predicate LiveToken(s: State, t: nat)
    requires t < |s.tokens|
  {
    && (s.tokens[t].hasController <==> s.tokens[t].sid in s.dict || s.sweeper == Emptying(t))
    && (s.tokens[t].sid in s.dict || IsClosed(s, t))
  }

  predicate EmptyingOk(s: State) {
    s.sweeper.Emptying? ==> s.sweeper.token < |s.tokens| && s.tokens[s.sweeper.token].sid !in s.dict
  }

  predicate LiveOk(s: State) {
    EmptyingOk(s) && forall t :: 0 <= t < |s.tokens| ==> LiveToken(s, t)
  }

  ghost predicate Inv(s: State) {
    && TokensOk(s)
    && HandlersOk(s)
    && PeersOk(s)
    && QueueOk(s)
    && PushedOk(s)
    && CondemnedOk(s)
    && NoLeak(s)
    && ClosedOk(s)
    && LiveOk(s)
  }

  lemma KeepsTokens(s: State, a: Action)
    requires TokensOk(s) && Enabled(s, a)
    ensures TokensOk(Apply(s, a))
  {
    hide Due, Disconnected;
  }

  lemma KeepsHandlers(s: State, a: Action)
    requires TokensOk(s) && HandlersOk(s) && Enabled(s, a)
    ensures HandlersOk(Apply(s, a))
  {
    hide Due, Disconnected;
  }

  lemma KeepsPeers(s: State, a: Action)
    requires TokensOk(s) && HandlersOk(s) && PeersOk(s) && Enabled(s, a)
    ensures PeersOk(Apply(s, a))
  {
    hide Due, Disconnected;
    var u := Apply(s, a);
    forall t | 0 <= t < |u.tokens| ensures PeerOk(u, t) {
      if t < |s.tokens| {
        assert PeerOk(s, t);
      }
    }
  }

  lemma KeepsPushed(s: State, a: Action)
    requires HandlersOk(s) && PushedOk(s) && Enabled(s, a)
    ensures PushedOk(Apply(s, a))
  {
    hide Due, Disconnected;
  }

  lemma PushedStays(s: State, a: Action, e: Entry)
    requires Enabled(s, a) && WasPushed(s, e)
    ensures WasPushed(Apply(s, a), e)
  {
    hide Due, Disconnected;
    var m :| 0 <= m < |s.pushed| && s.pushed[m].1 == e;
    assert Apply(s, a).pushed[m].1 == e;
  }

  lemma KeepsQueue(s: State, a: Action)
    requires QueueOk(s) && Enabled(s, a)
    ensures QueueOk(Apply(s, a))
  {
    hide Due, Disconnected, WasPushed;
    var u := Apply(s, a);
    forall j | 0 <= j < |u.queue| ensures WasPushed(u, u.queue[j]) {
      if a.Enqueue? {
        if j == 0 {
          NewlyPushed(s, a.h);
        } else {
          PushedStays(s, a, s.queue[j - 1]);
        }
      } else {
        PushedStays(s, a, s.queue[j]);
      }
    }
  }

  lemma NewlyPushed(s: State, h: nat)
    requires Enabled(s, Enqueue(h))
    ensures WasPushed(Apply(s, Enqueue(h)), Apply(s, Enqueue(h)).queue[0])
  {
    assert Apply(s, Enqueue(h)).pushed[|s.pushed|].1 == Apply(s, Enqueue(h)).queue[0];
  }

  lemma KeepsCondemned(s: State, a: Action)
    requires TokensOk(s) && QueueOk(s) && CondemnedOk(s) && Enabled(s, a)
    ensures CondemnedOk(Apply(s, a))
  {
    hide Disconnected, WasPushed;
    var u := Apply(s, a);
    if u.sweeper.Condemned? {
      PushedStays(s, a, u.sweeper.entry);
    }
  }

  lemma KeepsClosed(s: State, a: Action)
    requires TokensOk(s) && CondemnedOk(s) && ClosedOk(s) && Enabled(s, a)
    ensures ClosedOk(Apply(s, a))
  {
    hide Due, Expired, Disconnected, WasPushed;
    var u := Apply(s, a);
    forall m | 0 <= m < |u.closed| ensures ClosingOk(u, u.closed[m]) {
      if m < |s.closed| {
        assert ClosingOk(s, s.closed[m]);
      }
      PushedStays(s, a, u.closed[m].entry);
    }
  }

  lemma KeepsEmptying(s: State, a: Action)
    requires TokensOk(s) && CondemnedOk(s) && EmptyingOk(s) && Enabled(s, a)
    ensures EmptyingOk(Apply(s, a))
  {
    hide Due, Expired, Disconnected, WasPushed;
  }

  lemma ClosedStays(s: State, a: Action, t: nat)
    requires Enabled(s, a)
    ensures IsClosed(s, t) || (a.Remove? && t == s.sweeper.token) ==> IsClosed(Apply(s, a), t)
  {
    hide Due, Disconnected;
    var u := Apply(s, a);
    if m :| 0 <= m < |s.closed| && s.closed[m].token == t {
      assert u.closed[m].token == t;
    }
    if a.Remove? {
      assert u.closed[|s.closed|].token == s.sweeper.token;
    }
  }

  lemma LiveTokenStays(s: State, a: Action, t: nat)
    requires TokensOk(s) && CondemnedOk(s) && EmptyingOk(s) && Enabled(s, a)
    requires t < |s.tokens| && LiveToken(s, t)
    ensures t < |Apply(s, a).tokens| && LiveToken(Apply(s, a), t)
  {
    hide Due, Expired, Disconnected, WasPushed, IsClosed;
    ClosedStays(s, a, t);
  }

  lemma KeepsLive(s: State, a: Action)
    requires TokensOk(s) && CondemnedOk(s) && LiveOk(s) && Enabled(s, a)
    ensures LiveOk(Apply(s, a))
  {
    hide CondemnedOk, EmptyingOk, LiveToken, Disconnected, Due;
    KeepsEmptying(s, a);
    var u := Apply(s, a);
    forall t | 0 <= t < |u.tokens| ensures LiveToken(u, t) {
      if t < |s.tokens| {
        LiveTokenStays(s, a, t);
      } else {
        NewIsLive(s, a);
      }
    }
  }

  lemma NewIsLive(s: State, a: Action)
    requires Enabled(s, a) && |Apply(s, a).tokens| > |s.tokens|
    ensures |Apply(s, a).tokens| == |s.tokens| + 1 && LiveToken(Apply(s, a), |s.tokens|)
  {
    hide Due, Disconnected;
  }

  lemma HeldStays(s: State, a: Action, sid: int, h: nat)
    requires TokensOk(s) && Enabled(s, a) && sid in s.dict && sid in Apply(s, a).dict
    requires HeldBy(s, s.dict[sid], h)
    ensures Accounted(Apply(s, a), sid)
  {
    hide Due, Disconnected;
    var u, t := Apply(s, a), s.dict[sid];
    if a == Enqueue(h) {
      assert u.queue[0].key == sid && u.queue[0] in u.queue;
    } else if a == FailDisconnect(h) {
      assert FailedBy(u, t, h);
    } else {
      assert HeldBy(u, t, h);
    }
  }

  lemma QueuedStays(s: State, a: Action, sid: int)
    requires TokensOk(s) && Enabled(s, a) && sid in s.dict && sid in Apply(s, a).dict
    requires sid in Keys(s.queue)
    ensures Accounted(Apply(s, a), sid)
  {
    hide Due;
    var u, e :| u == Apply(s, a) && e in s.queue && e.key == sid;
    if a.Pop? && u.queue != s.queue {
      assert e in Front(s.queue) || e == Last(s.queue);
    } else {
      assert e in u.queue;
    }
  }

  lemma AccountedStays(s: State, a: Action, sid: int)
    requires TokensOk(s) && CondemnedOk(s) && Enabled(s, a)
    requires Accounted(s, sid) && sid in Apply(s, a).dict
    ensures Accounted(Apply(s, a), sid)
  {
    hide Due, Disconnected, Keys;
    var u, t := Apply(s, a), s.dict[sid];
    if s.tokens[t].peer.Some? {
      if a.Detach? && s.handlers[a.h].token == t {
        assert HeldBy(u, t, a.h);
      }
    } else if h: nat :| HeldBy(s, t, h) {
      HeldStays(s, a, sid, h);
    } else if h: nat :| FailedBy(s, t, h) {
      assert FailedBy(u, t, h);
    } else if sid in Keys(s.queue) {
      QueuedStays(s, a, sid);
    }
  }

  lemma KeepsNoLeak(s: State, a: Action)
    requires TokensOk(s) && CondemnedOk(s) && NoLeak(s) && Enabled(s, a)
    ensures NoLeak(Apply(s, a))
  {
    hide Due, Disconnected, Accounted, CondemnedOk;
    var u := Apply(s, a);
    forall sid | sid in u.dict ensures Accounted(u, sid) {
      if sid in s.dict {
        AccountedStays(s, a, sid);
      } else {
        CreatedIsHeld(s, a, sid);
      }
    }
  }

  lemma CreatedIsHeld(s: State, a: Action, sid: int)
    requires Enabled(s, a) && sid !in s.dict && sid in Apply(s, a).dict
    ensures Accounted(Apply(s, a), sid)
  {
    hide Due, Disconnected;
    assert HeldBy(Apply(s, a), |s.tokens|, |s.handlers|);
  }

  lemma InitInv(s: State)
    requires IsInit(s)
    ensures Inv(s)
  {
  }

  lemma StepKeepsInv(s: State, a: Action)
    requires Inv(s) && Enabled(s, a)
    ensures Inv(Apply(s, a))
  {
    hide Apply, Enabled, TokensOk, HandlersOk, PeersOk, QueueOk, PushedOk, CondemnedOk, NoLeak, ClosedOk, LiveOk;
    KeepsTokens(s, a);
    KeepsHandlers(s, a);
    KeepsPeers(s, a);
    KeepsQueue(s, a);
    KeepsPushed(s, a);
    KeepsCondemned(s, a);
    KeepsNoLeak(s, a);
    KeepsClosed(s, a);
    KeepsLive(s, a);
  }

  lemma {:induction false} RunInv(states: seq<State>, actions: seq<Action>, n: nat)
    requires Run(states, actions) && n < |states|
    ensures Inv(states[n])
  {
    hide Run, Apply, Enabled, IsInit, Inv;
    RunStarts(states, actions);
    if n == 0 {
      InitInv(states[0]);
    } else {
      RunInv(states, actions, n - 1);
      RunStep(states, actions, n - 1);
      StepKeepsInv(states[n - 1], actions[n - 1]);
    }
  }
}

/** The server's registry of tokens. */
module TokenManager {
  import opened Outcomes
  import opened TimedQueue
  import opened Requests

  type Tokens = map<int, AsyncToken>

  /** Tokens are distinct objects, each under its own session id. */
  ghost predicate WellKept(dict: Tokens) {
    && (forall sid :: sid in dict ==> dict[sid].sessionId == sid)
    && (forall j, k :: j in dict && k in dict && j != k ==> dict[j] != dict[k])
  }

  predicate IsGone(token: AsyncToken, openSockets: set<Conn>)
    reads token`peer
  {
    !(token.peer.Some? && token.peer.value in openSockets)
  }

  /** The sessions whose token is disconnected. */
  ghost function Gone(dict: Tokens, openSockets: set<Conn>): set<int>
    reads dict.Values
  {
    set sid | sid in dict && IsGone(dict[sid], openSockets)
  }

  ghost function HaveController(dict: Tokens): set<int>
    reads dict.Values
  {
    set sid | sid in dict && dict[sid].hasController
  }

  class AsyncTokenManager {
    var dict: Tokens
    const sessionSaveTime: nat
    var disconnectQueue: seq<Entry>

    constructor (saveTime: nat)
      ensures dict == map[] && sessionSaveTime == saveTime && disconnectQueue == []
    {
      dict, sessionSaveTime, disconnectQueue := map[], saveTime, [];
    }

    /** The new session id is read off a nanosecond clock; creating its controller may fail, and then
        nothing is registered. */
    method CreateToken(newId: int, controllerFails: bool) returns (r: Result<AsyncToken>)
      requires WellKept(dict) && newId !in dict
      modifies this`dict
      ensures WellKept(dict)
      ensures r.Ok? <==> !controllerFails
      ensures r.Err? ==> dict == old(dict)
      ensures r.Ok? ==> dict == old(dict)[newId := r.value] && fresh(r.value)
      ensures r.Ok? ==> r.value.sessionId == newId && r.value.hasController && r.value.peer == None
    {
      var token := new AsyncToken(newId);
      if controllerFails {
        return Err(ControllerError([]));
      }
      token.SetController(true);
      dict := dict[newId := token];
      r := Ok(token);
    }

    method GetToken(sid: int) returns (r: Option<AsyncToken>)
      ensures r == if sid in dict then Some(dict[sid]) else None
    {
      r := if sid in dict then Some(dict[sid]) else None;
    }

    method PeerDisconnect(sid: int, now: nat)
      requires Sorted(disconnectQueue, now)
      modifies this`disconnectQueue
      ensures disconnectQueue == [Entry(sid, now)] + old(disconnectQueue) && Sorted(disconnectQueue, now)
    {
      disconnectQueue := [Entry(sid, now)] + disconnectQueue;
    }

    /** A connection arrives, its key found good: the token of the session it names, or a new one if it
        names none or an unknown one; then it becomes that token's peer. */
    method Arrive(session: int, conn: Conn, newId: int, controllerFails: bool) returns (r: Result<AsyncToken>)
      requires WellKept(dict) && newId !in dict
      modifies this`dict, dict.Values`peer
      ensures WellKept(dict)
      ensures r.Ok? <==> (session != 0 && session in old(dict)) || !controllerFails
      ensures session != 0 && session in old(dict) ==> dict == old(dict) && r == Ok(old(dict)[session])
      ensures !(session != 0 && session in old(dict)) && r.Ok? ==>
        dict == old(dict)[newId := r.value] && fresh(r.value) && r.value.hasController
      ensures r.Err? ==> dict == old(dict) && forall sid :: sid in dict ==> dict[sid].peer == old(dict[sid].peer)
      ensures r.Ok? ==> forall open: set<Conn> :: IsGone(r.value, open) <==> conn !in open
      ensures forall sid :: sid in old(dict) && r != Ok(old(dict)[sid]) ==> old(dict)[sid].peer == old(dict[sid].peer)
    {
      var known := None;
      if session != 0 {
        known := GetToken(session);
      }
      if known.Some? {
        r := Ok(known.value);
      } else {
        r := CreateToken(newId, controllerFails);
      }
      if r.Ok? {
        r.value.SetPeer(Some(conn));
      }
    }

    /** A connection ends: its token loses its peer, whoever that was by then, the Disconnect function
        runs, and only if that succeeds is the disconnect queued. */
    method Leave(token: AsyncToken, disconnectFails: bool, now: nat) returns (r: Result<()>)
      requires Sorted(disconnectQueue, now)
      modifies token`peer, this`disconnectQueue
      ensures forall open: set<Conn> :: IsGone(token, open)
      ensures r.Ok? <==> !disconnectFails
      ensures disconnectQueue
           == (if r.Ok? then [Entry(token.sessionId, now)] else []) + old(disconnectQueue)
    {
      token.SetPeer(None);
      if disconnectFails {
        return Err(ControllerError([]));
      }
      PeerDisconnect(token.sessionId, now);
      r := Ok(());
    }

    /** Of the tokens the sweep started with, those due so far and disconnected are gone: out of the
        map, listed once in `closed`, and without controller. `had` is who had one to begin with. */
    ghost predicate Progress(tokens: Tokens, gone: set<int>, had: set<int>, done: set<int>, closed: seq<int>)
      reads this`dict, tokens.Values`hasController
    {
      && WellKept(tokens)
      && dict == tokens - done * gone
      && Elements(closed) == done * gone
      && |closed| == |done * gone|
      && gone <= tokens.Keys
      && forall sid :: sid in tokens ==> (tokens[sid].hasController <==> sid in had && sid !in done * gone)
    }

    /** What the sweep does about one due entry. */
    method Reap(sid: int, openSockets: set<Conn>, closed: seq<int>,
                ghost tokens: Tokens, ghost gone: set<int>, ghost had: set<int>, ghost done: set<int>)
      returns (closedNow: seq<int>)
      requires Progress(tokens, gone, had, done, closed)
      requires forall k :: k in tokens ==> (k in gone <==> IsGone(tokens[k], openSockets))
      modifies this`dict, dict.Values`hasController
      ensures Progress(tokens, gone, had, done + {sid}, closedNow)
      ensures WellKept(dict) && dict.Values <= old(dict.Values)
    {
      hide Elements;
      closedNow := closed;
      assert sid !in dict || sid !in gone ==> (done + {sid}) * gone == done * gone;
      assert sid in dict && sid in gone ==> (done + {sid}) * gone == done * gone + {sid};
      if sid in dict {
        var token := dict[sid];
        var isGone := token.IsDisconnect(openSockets);
        if isGone {
          dict := dict - {sid};
          token.SetController(false);
          ElementsStep(closed, sid);
          closedNow := closed + [sid];
        }
      }
    }

    /** One sweep without interference: every due entry is dropped, and its token is removed, told to
        close (`closed` lists those, in order) and stripped of its controller if it is disconnected. */
    method CheckTokensDisconnectTimeout(openSockets: set<Conn>, clock: seq<nat>) returns (closed: seq<int>)
      requires WellKept(dict) && |clock| >= |disconnectQueue|
      modifies this`dict, this`disconnectQueue, dict.Values`hasController
      ensures WellKept(dict)
      ensures disconnectQueue == Swept(old(disconnectQueue), clock, sessionSaveTime)
      ensures Progress(old(dict), old(Gone(dict, openSockets)), old(HaveController(dict)),
                       Elements(SweptOut(old(disconnectQueue), clock, sessionSaveTime)), closed)
    {
      hide Swept, SweptOut, AgeMs, Elements, Progress;
      ghost var was, tokens := disconnectQueue, dict;
      ghost var gone, had := Gone(dict, openSockets), HaveController(dict);
      ghost var done: seq<int> := [];
      var i := 0;
      closed := [];
      NoProgressYet(openSockets);
      while disconnectQueue != []
        invariant i == |done| <= |was| && disconnectQueue == was[..|was| - i]
        invariant DueFromBack(was, clock, done, sessionSaveTime)
        invariant Progress(tokens, gone, had, Elements(done), closed)
        invariant WellKept(dict) && dict.Values <= tokens.Values
        invariant forall sid :: sid in tokens ==> (sid in gone <==> IsGone(tokens[sid], openSockets))
        decreases |disconnectQueue|
      {
        var item := disconnectQueue[|disconnectQueue| - 1];
        disconnectQueue := disconnectQueue[..|disconnectQueue| - 1];
        if AgeMs(clock[i], item) % 0x1_0000_0000 >= sessionSaveTime {
          ElementsStep(done, item.key);
          closed := Reap(item.key, openSockets, closed, tokens, gone, had, Elements(done));
          done := done + [item.key];
          i := i + 1;
        } else {
          disconnectQueue := disconnectQueue + [item];
          break;
        }
      }
      SweepStopped(was, clock, done, sessionSaveTime);
    }

    lemma NoProgressYet(openSockets: set<Conn>)
      requires WellKept(dict)
      ensures Progress(dict, Gone(dict, openSockets), HaveController(dict), Elements([]), [])
    {
      NoElements();
    }
  }
}

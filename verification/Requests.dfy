/** The objects that hold pending requests: the client and its request manager, and the server's
    token. Each method is one step of its actor queue. */
module Requests {
  import opened Outcomes
  import opened Wire
  import opened Framing
  import opened Messages
  import opened TimedQueue

  // ----- what a pending table is, independent of what it stores per serial -----

  datatype Table<T> = Table(dict: map<int, T>, queue: seq<Entry>)

  function Registered<T>(t: Table<T>, serial: int, tx: T): Table<T> {
    t.(dict := t.dict[serial := tx])
  }

  function Enqueued<T>(t: Table<T>, serial: int, now: nat): Table<T> {
    t.(queue := Pushed(t.queue, serial, now))
  }

  function Settled<T>(t: Table<T>, serial: int): Table<T> {
    t.(dict := t.dict - {serial})
  }

  /** One whole sweep: the queue is cut and every serial cut off is settled. */
  function SweptTable<T>(t: Table<T>, clock: seq<nat>, limit: nat): Table<T>
    requires |clock| >= |t.queue|
  {
    Table(t.dict - Elements(SweptOut(t.queue, clock, limit)), Swept(t.queue, clock, limit))
  }

  /** Every waiting serial will be swept one day. */
  predicate Covered<T>(t: Table<T>) { t.dict.Keys <= Keys(t.queue) }

  lemma KeysOfPrefix(q: seq<Entry>, k: nat, key: int)
    requires k <= |q| && key in Keys(q)
    ensures key in Keys(q[..k]) || exists i :: k <= i < |q| && q[i].key == key
  {
    var e :| e in q && e.key == key;
    var i :| 0 <= i < |q| && q[i] == e;
    if i < k {
      assert q[..k][i] == e;
    }
  }

  /** A sweep leaves no waiting serial without a queue entry. */
  lemma SweepKeepsCovered<T>(t: Table<T>, clock: seq<nat>, limit: nat)
    requires |clock| >= |t.queue| && Covered(t)
    ensures Covered(SweptTable(t, clock, limit))
  {
    var rest, out := Swept(t.queue, clock, limit), SweptOut(t.queue, clock, limit);
    SweptPartition(t.queue, clock, limit);
    assert rest == t.queue[..|rest|];
    forall key | key in t.dict ensures key in Keys(rest) || key in Elements(out) {
      KeysOfPrefix(t.queue, |rest|, key);
      if i :| |rest| <= i < |t.queue| && t.queue[i].key == key {
        assert out[|t.queue| - 1 - i] == key;
      }
    }
  }

  /** Once callers have stopped and the timeout has passed for all of them, one sweep empties the
      table. Requests whose send failed are no exception: nothing here knows about sending. */
  lemma {:induction false} QuietTableEmpties<T>(t: Table<T>, clock: seq<nat>, limit: nat)
    requires |clock| >= |t.queue| && Covered(t)
    requires forall i, j :: 0 <= i < |t.queue| && 0 <= j < |clock| ==> Due(clock[j], t.queue[i], limit)
    ensures SweptTable(t, clock, limit) == Table(map[], [])
  {
    AllDueSweepsAll(t.queue, clock, limit);
    SweepKeepsCovered(t, clock, limit);
    assert Keys([]) == {};
    var after := SweptTable(t, clock, limit);
    assert after.dict.Keys == {};
  }

  lemma {:induction false} AllDueSweepsAll(q: seq<Entry>, clock: seq<nat>, limit: nat)
    requires |clock| >= |q|
    requires forall i, j :: 0 <= i < |q| && 0 <= j < |clock| ==> Due(clock[j], q[i], limit)
    ensures Swept(q, clock, limit) == []
    decreases |q|
  {
    if q != [] {
      AllDueSweepsAll(Front(q), clock[1..], limit);
    }
  }

  // ----- single-use reply channels -----

  type Reply = Result<bytes>

  /** A oneshot channel: the sender's cell, and whether the caller still holds the receiver. */
  class Oneshot {
    var value: Option<Reply>
    var receiverAlive: bool

    constructor ()
      ensures value == None && receiverAlive
    {
      value, receiverAlive := None, true;
    }

    method Send(v: Reply) returns (sent: bool)
      modifies this`value
      ensures sent == receiverAlive
      ensures value == if receiverAlive then Some(v) else old(value)
    {
      sent := receiverAlive;
      if sent {
        value := Some(v);
      }
    }
  }

  type Senders = map<int, Oneshot>

  ghost predicate Distinct(dict: Senders) {
    forall j, k :: j in dict && k in dict && j != k ==> dict[j] != dict[k]
  }

  /** The senders of a map, of which those under the given serials have been used to say that the
      serial timed out, as far as the caller still listens. */
  ghost predicate TimedOut(dict: Senders, serials: set<int>)
    reads dict.Values
  {
    forall k :: k in dict ==>
      dict[k].value == if k in serials && dict[k].receiverAlive then Some(TimeOut(k)) else None
  }

  /** The same for one serial and any reply. */
  ghost predicate Replied(dict: Senders, serial: int, reply: Reply)
    reads dict.Values
  {
    forall k :: k in dict ==>
      dict[k].value == if k == serial && dict[k].receiverAlive then Some(reply) else None
  }

  /** Senders waiting in a map are distinct and unused. */
  ghost predicate Fresh(dict: Senders)
    reads dict.Values
  {
    Distinct(dict) && forall k :: k in dict ==> dict[k].value == None
  }

  function TimeOut(serial: int): Reply { Err(SerialTimeOut(serial)) }

  function NextSerial(serial: i64): i64 {
    if serial == 0x7FFF_FFFF_FFFF_FFFF then -0x8000_0000_0000_0000 else serial + 1
  }

  // ----- the client -----

  type Conn = nat

  class NetXClient {
    var net: Option<Conn>
    var mode: byte
    var resultDict: Senders
    var serialAtomic: i64

    constructor ()
      ensures net == None && mode == 0 && resultDict == map[] && serialAtomic == 1
    {
      net, mode, resultDict, serialAtomic := None, 0, map[], 1;
    }

    method NewSerial() returns (serial: i64)
      modifies this`serialAtomic
      ensures serial == old(serialAtomic)
      ensures old(serialAtomic) < 0x7FFF_FFFF_FFFF_FFFF ==> serialAtomic == old(serialAtomic) + 1
      ensures old(serialAtomic) == 0x7FFF_FFFF_FFFF_FFFF ==> serialAtomic == -0x8000_0000_0000_0000
    {
      serial, serialAtomic := serialAtomic, NextSerial(serialAtomic);
    }

    /** The first actor step of `call`: refuse, or register a fresh sender under the serial. */
    method Begin(serial: int) returns (r: Result<(Conn, Oneshot)>)
      requires Fresh(resultDict)
      modifies this`resultDict
      ensures Fresh(resultDict)
      ensures r.Ok? <==> net.Some? && serial !in old(resultDict)
      ensures r.Err? ==> r.error == (if net.None? then NotConnect else SerialHave) && resultDict == old(resultDict)
      ensures r.Ok? ==> r.value.0 == net.value && fresh(r.value.1) && r.value.1.receiverAlive
      ensures r.Ok? ==> resultDict == old(resultDict)[serial := r.value.1]
    {
      if net.None? {
        return Err(NotConnect);
      }
      if serial in resultDict {
        return Err(SerialHave);
      }
      var tx := new Oneshot();
      resultDict := resultDict[serial := tx];
      r := Ok((net.value, tx));
    }

    /** Take the sender out, then use it. A serial nobody waits for is only logged. */
    method SetResult(serial: int, data: bytes)
      requires Fresh(resultDict)
      modifies this`resultDict, resultDict.Values`value
      ensures Fresh(resultDict) && resultDict == old(resultDict) - {serial}
      ensures Replied(old(resultDict), serial, Ok(data))
    {
      if serial in resultDict {
        var tx := resultDict[serial];
        resultDict := resultDict - {serial};
        var _ := tx.Send(Ok(data));
      }
    }

    /** `set_error`, which the sweep alone uses: of the senders it started with, one more is used. */
    method SetError(serial: int, ghost dict: Senders, ghost done: set<int>)
      requires Distinct(dict) && resultDict == dict - done && TimedOut(dict, done)
      modifies this`resultDict, resultDict.Values`value
      ensures resultDict == dict - (done + {serial}) && TimedOut(dict, done + {serial})
    {
      if serial in resultDict {
        var tx := resultDict[serial];
        resultDict := resultDict - {serial};
        var _ := tx.Send(TimeOut(serial));
      }
    }

    method SetNetworkClient(conn: Conn)
      modifies this`net
      ensures net == Some(conn)
    {
      net := Some(conn);
    }

    /** `clean_connect` and `close` take whatever connection is current. */
    method TakeNet() returns (taken: Option<Conn>)
      modifies this`net
      ensures taken == old(net) && net == None
    {
      taken, net := net, None;
    }

    method SetMode(newMode: byte)
      modifies this`mode
      ensures mode == newMode
    {
      mode := newMode;
    }

    /** The guard of `connect_network`: a client that has a connection keeps it. */
    method Connect(conn: Conn) returns (isNew: bool)
      modifies this`net
      ensures isNew <==> old(net).None?
      ensures net == if old(net).None? then Some(conn) else old(net)
    {
      isNew := net.None?;
      if isNew {
        SetNetworkClient(conn);
      }
    }

    /** What a positive key answer makes the client do: switch to frames if told so, then ask for the
        session id, in the mode it is in by then. */
    method AnswerVerified(framed: bool) returns (data: bytes)
      modifies this`mode
      ensures mode == if framed then 1 else old(mode)
      ensures framed ==> ParseFrames(data) == [SessionIdRequest()]
      ensures !framed && old(mode) == 0 ==> data == SessionIdRequest()
    {
      hide LE, FromLE;
      if framed {
        SetMode(1);
      }
      data := SessionIdBuff(mode);
      if framed {
        StreamFraming([SessionIdRequest()]);
        assert [SessionIdRequest()][1..] == [];
        assert Frames([SessionIdRequest()]) == Frame(SessionIdRequest()) + Frames([]);
        assert Frame(SessionIdRequest()) + [] == Frame(SessionIdRequest());
      }
    }

    /** `input_buffer`: the read loop, then, however it ended unless it panicked, the connection is taken
        down, whichever it is by then, and if its socket closes well the Disconnect function runs. */
    method InputBuffer(reader: ReadHalf, acts: Acts, socketFails: bool, disconnectFails: bool)
      returns (end: ClientEnd, r: Result<()>)
      modifies reader, this`net
      ensures end == AtEnd(ClientReads(ParseFrames(old(reader.Stream())), acts, 0).1, Remainder(old(reader.Stream())))
      ensures net == if end == Failed(Panic) then old(net) else None
      ensures r.Ok? <==> end != Failed(Panic) && !(old(net).Some? && socketFails) && !disconnectFails
    {
      var seen;
      seen, end := ReadBuffer(reader, acts);
      if end == Failed(Panic) {
        return end, Err(Panic);
      }
      var taken := TakeNet();
      if taken.Some? && socketFails {
        return end, Err(NetError);
      }
      r := if disconnectFails then Err(ControllerError([])) else Ok(());
    }
  }

  class RequestManager {
    var queue: seq<Entry>
    const requestOutTime: nat

    constructor (outTime: nat)
      ensures queue == [] && requestOutTime == outTime
    {
      queue, requestOutTime := [], outTime;
    }

    method Set(serial: int, now: nat)
      modifies this`queue
      ensures queue == [Entry(serial, now)] + old(queue)
    {
      queue := [Entry(serial, now)] + queue;
    }

    /** `check`: pop from the back until an entry is not due; `clock` is what the successive
        `elapsed()` calls read. */
    method Check(client: NetXClient, clock: seq<nat>)
      requires Fresh(client.resultDict) && |clock| >= |queue|
      modifies this`queue, client`resultDict, client.resultDict.Values`value
      ensures Fresh(client.resultDict)
      ensures Table(client.resultDict, queue)
           == SweptTable(old(Table(client.resultDict, queue)), clock, requestOutTime)
      ensures TimedOut(old(client.resultDict), Elements(SweptOut(old(queue), clock, requestOutTime)))
    {
      hide Swept, SweptOut, Elements, AgeMs;
      ghost var dict := client.resultDict;
      ghost var was := queue;
      ghost var done: seq<int> := [];
      var i := 0;
      assert Elements([]) == {} by { NoElements(); }
      while queue != []
        invariant i == |done| <= |was| && queue == was[..|was| - i]
        invariant Distinct(dict) && client.resultDict == dict - Elements(done)
        invariant TimedOut(dict, Elements(done))
        invariant DueFromBack(was, clock, done, requestOutTime)
        decreases |queue|
      {
        var item := queue[|queue| - 1];
        queue := queue[..|queue| - 1];
        if AgeMs(clock[i], item) % 0x1_0000_0000 >= requestOutTime {
          ElementsStep(done, item.key);
          client.SetError(item.key, dict, Elements(done));
          done := done + [item.key];
          i := i + 1;
        } else {
          queue := queue + [item];
          break;
        }
      }
      SweepStopped(was, clock, done, requestOutTime);
    }
  }

  // ----- the server's token -----

  class AsyncToken {
    const sessionId: int
    var hasController: bool
    var peer: Option<Conn>
    var resultDict: Senders
    var serialAtomic: i64
    var requestQueue: seq<Entry>

    constructor (sessionId: int)
      ensures this.sessionId == sessionId && !hasController && peer == None
      ensures resultDict == map[] && serialAtomic == 1 && requestQueue == []
    {
      this.sessionId, hasController, peer := sessionId, false, None;
      resultDict, serialAtomic, requestQueue := map[], 1, [];
    }

    ghost function View(): Table<Oneshot>
      reads this
    {
      Table(resultDict, requestQueue)
    }

    method NewSerial() returns (serial: i64)
      modifies this`serialAtomic
      ensures serial == old(serialAtomic)
      ensures old(serialAtomic) < 0x7FFF_FFFF_FFFF_FFFF ==> serialAtomic == old(serialAtomic) + 1
      ensures old(serialAtomic) == 0x7FFF_FFFF_FFFF_FFFF ==> serialAtomic == -0x8000_0000_0000_0000
    {
      serial, serialAtomic := serialAtomic, NextSerial(serialAtomic);
    }

    method SetController(present: bool)
      modifies this`hasController
      ensures hasController == present
    {
      hasController := present;
    }

    method SetPeer(newPeer: Option<Conn>)
      modifies this`peer
      ensures peer == newPeer
    {
      peer := newPeer;
    }

    /** The actor step of `call`: sender and time stamp go in together. */
    method Begin(serial: int, now: nat) returns (r: Result<(Conn, Oneshot)>)
      requires Fresh(resultDict) && Covered(View()) && Sorted(requestQueue, now)
      modifies this`resultDict, this`requestQueue
      ensures Fresh(resultDict) && Covered(View()) && Sorted(requestQueue, now)
      ensures r.Ok? <==> peer.Some? && serial !in old(resultDict)
      ensures r.Err? ==> r.error == (if peer.None? then TokenDisconnect(sessionId) else SerialHave)
      ensures r.Err? ==> View() == old(View())
      ensures r.Ok? ==> r.value.0 == peer.value && fresh(r.value.1) && r.value.1.receiverAlive
      ensures r.Ok? ==> resultDict == old(resultDict)[serial := r.value.1]
      ensures r.Ok? ==> requestQueue == [Entry(serial, now)] + old(requestQueue)
      ensures r.Ok? ==> View() == Enqueued(Registered(old(View()), serial, r.value.1), serial, now)
    {
      if peer.None? {
        return Err(TokenDisconnect(sessionId));
      }
      if serial in resultDict {
        return Err(SerialHave);
      }
      var tx := new Oneshot();
      resultDict := resultDict[serial := tx];
      requestQueue := [Entry(serial, now)] + requestQueue;
      assert requestQueue[0].key == serial;
      assert forall e :: e in old(requestQueue) ==> e in requestQueue;
      r := Ok((peer.value, tx));
    }

    /** As the client's, but using a sender whose caller is gone is an error here. */
    method SetResult(serial: int, data: bytes) returns (r: Result<()>)
      requires Fresh(resultDict) && Covered(View())
      modifies this`resultDict, resultDict.Values`value
      ensures Covered(View()) && requestQueue == old(requestQueue)
      ensures Fresh(resultDict) && resultDict == old(resultDict) - {serial}
      ensures Replied(old(resultDict), serial, Ok(data))
      ensures r == if serial in old(resultDict) && !old(resultDict[serial].receiverAlive)
                   then Err(SerialClose(serial)) else Ok(())
    {
      r := Ok(());
      if serial in resultDict {
        var tx := resultDict[serial];
        resultDict := resultDict - {serial};
        var sent := tx.Send(Ok(data));
        if !sent {
          r := Err(SerialClose(serial));
        }
      }
    }

    /** `set_error`, which the sweep alone uses: of the senders it started with, one more is used. */
    method SetError(serial: int, ghost dict: Senders, ghost done: set<int>)
      requires Distinct(dict) && resultDict == dict - done && TimedOut(dict, done)
      modifies this`resultDict, resultDict.Values`value
      ensures resultDict == dict - (done + {serial}) && TimedOut(dict, done + {serial})
    {
      if serial in resultDict {
        var tx := resultDict[serial];
        resultDict := resultDict - {serial};
        var _ := tx.Send(TimeOut(serial));
      }
    }

    method CheckRequestTimeout(limit: nat, clock: seq<nat>)
      requires Fresh(resultDict) && Covered(View()) && |clock| >= |requestQueue|
      modifies this`requestQueue, this`resultDict, resultDict.Values`value
      ensures Fresh(resultDict) && Covered(View())
      ensures View() == SweptTable(old(View()), clock, limit)
      ensures TimedOut(old(resultDict), Elements(SweptOut(old(requestQueue), clock, limit)))
    {
      hide Swept, SweptOut, Elements, AgeMs, Covered;
      ghost var dict := resultDict;
      ghost var was := requestQueue;
      ghost var done: seq<int> := [];
      var i := 0;
      assert Elements([]) == {} by { NoElements(); }
      while requestQueue != []
        invariant i == |done| <= |was| && requestQueue == was[..|was| - i]
        invariant Distinct(dict) && resultDict == dict - Elements(done)
        invariant TimedOut(dict, Elements(done))
        invariant DueFromBack(was, clock, done, limit)
        decreases |requestQueue|
      {
        var item := requestQueue[|requestQueue| - 1];
        requestQueue := requestQueue[..|requestQueue| - 1];
        if AgeMs(clock[i], item) % 0x1_0000_0000 >= limit {
          ElementsStep(done, item.key);
          SetError(item.key, dict, Elements(done));
          done := done + [item.key];
          i := i + 1;
        } else {
          requestQueue := requestQueue + [item];
          break;
        }
      }
      SweepStopped(was, clock, done, limit);
      assert View() == SweptTable(old(View()), clock, limit);
      SweepKeepsCovered(old(View()), clock, limit);
    }

    /** No peer, or a peer whose socket is gone. */
    method IsDisconnect(openSockets: set<Conn>) returns (r: bool)
      ensures r <==> !(peer.Some? && peer.value in openSockets)
    {
      if peer.Some? {
        return peer.value !in openSockets;
      }
      r := true;
    }
  }

  // ----- drawing serials -----

  /** Any number of callers of a new client, below the bound of the counter, draw 1, 2, 3 and so on. */
  method ClientDraws(n: nat) returns (client: NetXClient, serials: seq<i64>)
    requires n < 0x7FFF_FFFF_FFFF_FFFF
    ensures fresh(client) && client.serialAtomic == n + 1
    ensures |serials| == n && forall k :: 0 <= k < n ==> serials[k] == k + 1
  {
    client := new NetXClient();
    serials := [];
    for i := 0 to n
      invariant client.serialAtomic == i + 1
      invariant |serials| == i && forall k :: 0 <= k < i ==> serials[k] == k + 1
    {
      var serial := client.NewSerial();
      serials := serials + [serial];
    }
  }

  /** Likewise for a new token. */
  method TokenDraws(sessionId: int, n: nat) returns (token: AsyncToken, serials: seq<i64>)
    requires n < 0x7FFF_FFFF_FFFF_FFFF
    ensures fresh(token) && token.serialAtomic == n + 1
    ensures |serials| == n && forall k :: 0 <= k < n ==> serials[k] == k + 1
  {
    token := new AsyncToken(sessionId);
    serials := [];
    for i := 0 to n
      invariant token.serialAtomic == i + 1
      invariant |serials| == i && forall k :: 0 <= k < i ==> serials[k] == k + 1
    {
      var serial := token.NewSerial();
      serials := serials + [serial];
    }
  }
}

/** Time-stamped queues that are filled at the front and swept from the back: the client's pending
    requests, a token's pending requests and the manager's disconnected sessions. Times are
    nanoseconds of one monotonic clock; `as_millis() as u32` is written out. */
module TimedQueue {

  const WRAP: nat := 0x1_0000_0000

  datatype Entry = Entry(key: int, at: nat)

  function AgeMs(now: nat, e: Entry): nat {
    if now < e.at then 0 else (now - e.at) / 1_000_000
  }

  /** The test the code makes: the age in milliseconds truncated to 32 bits. */
  predicate Due(now: nat, e: Entry, limit: nat) {
    AgeMs(now, e) % 0x1_0000_0000 >= limit
  }

  /** The test it stands for. */
  predicate Expired(now: nat, e: Entry, limit: nat) {
    AgeMs(now, e) >= limit
  }

  /** In nanoseconds: `limit` milliseconds have passed exactly when the clock reached the deadline. */
  function Deadline(e: Entry, limit: nat): nat { e.at + limit * 1_000_000 }

  lemma ExpiredIsDeadline(now: nat, e: Entry, limit: nat)
    ensures e.at <= now ==> (Expired(now, e, limit) <==> Deadline(e, limit) <= now)
    ensures limit > 0 ==> (Expired(now, e, limit) <==> Deadline(e, limit) <= now)
  {
  }

  /** Truncation can delay a timeout but never bring one forward. */
  lemma NeverEarly(now: nat, e: Entry, limit: nat)
    requires Due(now, e, limit)
    ensures Expired(now, e, limit)
  {
  }

  /** Below 2^32 milliseconds the two tests agree. */
  lemma YoungAgree(now: nat, e: Entry, limit: nat)
    requires AgeMs(now, e) < WRAP
    ensures Due(now, e, limit) <==> Expired(now, e, limit)
  {
  }

  /** Oldest at the back, nothing stamped in the future. */
  predicate Sorted(q: seq<Entry>, now: nat) {
    && (forall i, j :: 0 <= i < j < |q| ==> q[i].at >= q[j].at)
    && (forall i :: 0 <= i < |q| ==> q[i].at <= now)
  }

  function Pushed(q: seq<Entry>, key: int, now: nat): (r: seq<Entry>)
    ensures Sorted(q, now) ==> Sorted(r, now)
  {
    [Entry(key, now)] + q
  }

  function Keys(q: seq<Entry>): set<int> { set e | e in q :: e.key }

  function Last(q: seq<Entry>): Entry
    requires q != []
  {
    q[|q| - 1]
  }

  function Front(q: seq<Entry>): seq<Entry>
    requires q != []
  {
    q[..|q| - 1]
  }

  /** The pop-back loop: the clock is read once for every popped entry, so a sweep sees a sequence
      of readings. It stops at the first entry that is not due and puts it back. */
  function Swept(q: seq<Entry>, clock: seq<nat>, limit: nat): (rest: seq<Entry>)
    requires |clock| >= |q|
    ensures rest <= q
  {
    if q == [] then []
    else if Due(clock[0], Last(q), limit) then Swept(Front(q), clock[1..], limit)
    else q
  }

  /** What the sweep times out: the entries it drops, oldest first. */
  function SweptOut(q: seq<Entry>, clock: seq<nat>, limit: nat): (out: seq<int>)
    requires |clock| >= |q|
  {
    if q != [] && Due(clock[0], Last(q), limit) then
      [Last(q).key] + SweptOut(Front(q), clock[1..], limit)
    else []
  }

  function Elements(keys: seq<int>): set<int> { set k | k in keys }

  lemma NoElements()
    ensures Elements([]) == {}
  {
  }

  lemma ElementsStep(keys: seq<int>, key: int)
    ensures Elements(keys + [key]) == Elements(keys) + {key}
  {
    assert forall k :: k in keys + [key] <==> k in keys || k == key;
  }

  predicate Monotone(clock: seq<nat>) {
    forall i, j :: 0 <= i <= j < |clock| ==> clock[i] <= clock[j]
  }

  /** The full scan by exact age. */
  function Kept(q: seq<Entry>, now: nat, limit: nat): seq<Entry> {
    if q == [] then []
    else if Expired(now, q[0], limit) then Kept(q[1..], now, limit)
    else [q[0]] + Kept(q[1..], now, limit)
  }

  function ScannedOut(q: seq<Entry>, now: nat, limit: nat): (out: seq<int>) {
    if q == [] then []
    else if Expired(now, Last(q), limit) then [Last(q).key] + ScannedOut(Front(q), now, limit)
    else ScannedOut(Front(q), now, limit)
  }

  function At(now: nat, n: nat): (clock: seq<nat>)
    ensures |clock| == n && Monotone(clock) && forall i :: 0 <= i < n ==> clock[i] == now
  {
    seq(n, i => now)
  }

  lemma {:induction false} KeptAll(q: seq<Entry>, now: nat, limit: nat)
    requires forall i :: 0 <= i < |q| ==> !Expired(now, q[i], limit)
    ensures Kept(q, now, limit) == q && ScannedOut(q, now, limit) == []
    decreases |q|
  {
    if q != [] {
      KeptAll(q[1..], now, limit);
      KeptAll(Front(q), now, limit);
    }
  }

  lemma {:induction false} KeptAppend(q: seq<Entry>, e: Entry, now: nat, limit: nat)
    ensures Kept(q + [e], now, limit)
         == Kept(q, now, limit) + if Expired(now, e, limit) then [] else [e]
  {
    if q != [] {
      assert (q + [e])[1..] == q[1..] + [e];
      KeptAppend(q[1..], e, now, limit);
    } else {
      assert q + [e] == [e];
    }
  }

  /** Sorted queues expire from the back: an entry that has not expired shields all younger ones. */
  lemma ExpiryFromTheBack(q: seq<Entry>, now: nat, limit: nat)
    requires Sorted(q, now) && q != [] && !Expired(now, Last(q), limit)
    ensures forall i :: 0 <= i < |q| ==> !Expired(now, q[i], limit)
  {
    forall i | 0 <= i < |q| ensures !Expired(now, q[i], limit) {
      assert AgeMs(now, q[i]) <= AgeMs(now, Last(q));
    }
  }

  /** The lazy sweep leaves the same queue and times out the same keys, in the same order, as
      scanning every entry by exact age, provided every expired entry passes the truncated test. */
  lemma {:induction false} SweepIsFullScan(q: seq<Entry>, now: nat, clock: seq<nat>, limit: nat)
    requires Sorted(q, now) && |clock| >= |q| && forall i :: 0 <= i < |q| ==> clock[i] == now
    requires forall i :: 0 <= i < |q| && Expired(now, q[i], limit) ==> Due(now, q[i], limit)
    ensures Swept(q, clock, limit) == Kept(q, now, limit)
    ensures SweptOut(q, clock, limit) == ScannedOut(q, now, limit)
    decreases |q|
  {
    hide AgeMs;
    if q != [] {
      assert q == Front(q) + [Last(q)];
      if Due(now, Last(q), limit) {
        SweepIsFullScan(Front(q), now, clock[1..], limit);
        KeptAppend(Front(q), Last(q), now, limit);
      } else {
        ExpiryFromTheBack(q, now, limit);
        KeptAll(q, now, limit);
      }
    }
  }

  lemma {:induction false} KeptIsUnexpired(q: seq<Entry>, now: nat, limit: nat)
    ensures forall e :: e in Kept(q, now, limit) <==> e in q && !Expired(now, e, limit)
  {
    if q != [] {
      KeptIsUnexpired(q[1..], now, limit);
    }
  }

  /** The exact condition for the lazy sweep to equal the full scan: no entry whose age has wrapped
      past 2^32 milliseconds back below the limit. */
  lemma SweepIsFullScanExactly(q: seq<Entry>, now: nat, limit: nat)
    requires Sorted(q, now)
    ensures Swept(q, At(now, |q|), limit) == Kept(q, now, limit)
      <==> forall e :: e in q && AgeMs(now, e) >= limit ==> AgeMs(now, e) % WRAP >= limit
  {
    var clock := At(now, |q|);
    if forall e :: e in q && AgeMs(now, e) >= limit ==> AgeMs(now, e) % WRAP >= limit {
      SweepIsFullScan(q, now, clock, limit);
    } else {
      var e :| e in q && AgeMs(now, e) >= limit && AgeMs(now, e) % WRAP < limit;
      SweptKeepsUndue(q, now, clock, limit, e);
      KeptIsUnexpired(q, now, limit);
    }
  }

  lemma {:induction false} SweptKeepsUndue(q: seq<Entry>, now: nat, clock: seq<nat>, limit: nat, e: Entry)
    requires |clock| >= |q| && forall i :: 0 <= i < |q| ==> clock[i] == now
    requires e in q && !Due(now, e, limit)
    ensures e in Swept(q, clock, limit)
    decreases |q|
  {
    if q != [] && Due(now, Last(q), limit) {
      assert q == Front(q) + [Last(q)];
      SweptKeepsUndue(Front(q), now, clock[1..], limit, e);
    }
  }

  /** With ages below 2^32 milliseconds the condition always holds. */
  lemma SweepOfYoungQueue(q: seq<Entry>, now: nat, limit: nat)
    requires Sorted(q, now) && forall e :: e in q ==> AgeMs(now, e) < WRAP
    ensures Swept(q, At(now, |q|), limit) == Kept(q, now, limit)
    ensures SweptOut(q, At(now, |q|), limit) == ScannedOut(q, now, limit)
  {
    SweepIsFullScan(q, now, At(now, |q|), limit);
  }

  /** A request issued 2^32 ms ago is overdue, but the sweep takes it for a new one. */
  lemma WrappedAgeIsMissed(limit: nat)
    requires 0 < limit < WRAP
    ensures var now, q := WRAP * 1_000_000, [Entry(1, 0)];
      Sorted(q, now) && Swept(q, At(now, 1), limit) == q && Kept(q, now, limit) == []
  {
    var now, e := WRAP * 1_000_000, Entry(1, 0);
    assert AgeMs(now, e) == WRAP;
    assert Kept([e], now, limit) == Kept([e][1..], now, limit);
  }

  /** A sweep during which the clock runs on: whatever was overdue when it started is gone, and
      whatever is gone was overdue when it ended. */
  lemma SweepWhileTimePasses(q: seq<Entry>, clock: seq<nat>, limit: nat)
    requires |clock| >= |q| > 0 && Monotone(clock) && Sorted(q, clock[0])
    requires forall e :: e in q ==> AgeMs(clock[|clock| - 1], e) < WRAP
    ensures forall e :: e in Swept(q, clock, limit) ==> !Expired(clock[0], e, limit)
    ensures forall i :: |Swept(q, clock, limit)| <= i < |q| ==> Expired(clock[|clock| - 1], q[i], limit)
  {
    SweepFrom(clock[0], q, clock, limit);
  }

  lemma {:induction false} SweepFrom(start: nat, q: seq<Entry>, clock: seq<nat>, limit: nat)
    requires |clock| >= |q| > 0 && Monotone(clock) && start <= clock[0] && Sorted(q, start)
    requires forall e :: e in q ==> AgeMs(clock[|clock| - 1], e) < WRAP
    ensures forall e :: e in Swept(q, clock, limit) ==> !Expired(start, e, limit)
    ensures forall i :: |Swept(q, clock, limit)| <= i < |q| ==> Expired(clock[|clock| - 1], q[i], limit)
    decreases |q|
  {
    var end := clock[|clock| - 1];
    assert Last(q) in q;
    assert AgeMs(start, Last(q)) <= AgeMs(clock[0], Last(q)) <= AgeMs(end, Last(q));
    YoungAgree(clock[0], Last(q), limit);
    if Due(clock[0], Last(q), limit) {
      if |q| > 1 {
        assert clock[1..][|clock[1..]| - 1] == end;
        SweepFrom(start, Front(q), clock[1..], limit);
      }
    } else {
      ExpiryFromTheBack(q, start, limit);
    }
  }

  /** So for `period` ms after a sweep began, nothing that was queued then is older than the limit
      plus the period. */
  lemma SweepBoundsAges(q: seq<Entry>, clock: seq<nat>, limit: nat, now: nat, period: nat)
    requires |clock| >= |q| > 0 && Monotone(clock) && Sorted(q, clock[0])
    requires forall e :: e in q ==> AgeMs(clock[|clock| - 1], e) < WRAP
    requires now <= clock[0] + period * 1_000_000
    ensures forall e :: e in Swept(q, clock, limit) ==> AgeMs(now, e) <= limit + period
  {
    SweepWhileTimePasses(q, clock, limit);
    forall e | e in Swept(q, clock, limit) ensures AgeMs(now, e) <= limit + period {
      ExpiredIsDeadline(clock[0], e, limit);
      assert e in q;
    }
  }

  lemma {:induction false} SweptSorted(q: seq<Entry>, clock: seq<nat>, limit: nat, now: nat)
    requires |clock| >= |q| && Sorted(q, now)
    ensures Sorted(Swept(q, clock, limit), now)
    decreases |q|
  {
    if q != [] && Due(clock[0], Last(q), limit) {
      SweptSorted(Front(q), clock[1..], limit, now);
    }
  }

  /** Nothing is lost: the queue is what stays followed by what the sweep timed out. */
  lemma {:induction false} SweptPartition(q: seq<Entry>, clock: seq<nat>, limit: nat)
    requires |clock| >= |q|
    ensures |Swept(q, clock, limit)| + |SweptOut(q, clock, limit)| == |q|
    ensures forall i :: 0 <= i < |SweptOut(q, clock, limit)| ==> SweptOut(q, clock, limit)[i] == q[|q| - 1 - i].key
    decreases |q|
  {
    if q != [] && Due(clock[0], Last(q), limit) {
      SweptPartition(Front(q), clock[1..], limit);
    }
  }

  /** The back of the queue as far as the loop has come: each popped entry was due at its reading. */
  predicate DueFromBack(q: seq<Entry>, clock: seq<nat>, out: seq<int>, limit: nat)
    requires |clock| >= |q|
  {
    && |out| <= |q|
    && forall i :: 0 <= i < |out| ==> out[i] == q[|q| - 1 - i].key && Due(clock[i], q[|q| - 1 - i], limit)
  }

  /** When the loop can go no further it has computed the sweep. */
  lemma {:induction false} SweepStopped(q: seq<Entry>, clock: seq<nat>, out: seq<int>, limit: nat)
    requires |clock| >= |q| && DueFromBack(q, clock, out, limit)
    requires |out| < |q| ==> !Due(clock[|out|], q[|q| - 1 - |out|], limit)
    ensures Swept(q, clock, limit) == q[..|q| - |out|] && SweptOut(q, clock, limit) == out
    decreases |q|
  {
    hide AgeMs;
    if out != [] {
      SweepStopped(Front(q), clock[1..], out[1..], limit);
      assert Front(q)[..|q| - |out|] == q[..|q| - |out|] && out == [out[0]] + out[1..];
    }
  }
}

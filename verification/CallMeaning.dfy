/** Calls in flight and the meaning of a call, put together: over any run of the call machine whose
    handlers answer as the generated dispatcher does, every caller gets what its own call means. */
module CallMeaning {
  import opened Outcomes
  import opened Wire
  import opened Framing
  import opened RetResults
  import opened Messages
  import opened Builder
  import opened Transparency
  import CM = CallMachine
  import CI = CallInvariant
  import CT = CallTheorems

  /** The answer to a request: dispatched, wrapped and encoded. */
  function AnswerTo<V, Ty>(callee: Callee, service: Service<V, Ty>, req: CM.Request): bytes {
    var reaction := Dispatch(service.codec, service.handlers, service.funcs, req.tt, req.cmd, req.args);
    Payload(ExecuteController(callee, reaction.result))
  }

  /** Every handler that ends in this run ends with that answer. */
  ghost predicate HandlersAnswer<V, Ty>(
      callee: Callee, service: Service<V, Ty>, states: seq<CM.State>, actions: seq<CM.Action>)
    requires CM.Run(states, actions)
  {
    forall k :: 0 <= k < |actions| && actions[k].Finish? ==>
      actions[k].payload == AnswerTo(callee, service, states[k].flight[actions[k].k].req)
  }

  lemma AnswersAt<V, Ty>(
      callee: Callee, service: Service<V, Ty>, states: seq<CM.State>, actions: seq<CM.Action>, k: nat)
    requires CM.Run(states, actions) && HandlersAnswer(callee, service, states, actions)
    requires k < |actions| && actions[k].Finish?
    ensures actions[k].k < |states[k].flight|
    ensures actions[k].payload == AnswerTo(callee, service, states[k].flight[actions[k].k].req)
  {
    hide AnswerTo, CM.Apply, CM.IsInit;
  }

  /** Every request that has been handled was answered so. */
  predicate AllAnswered<V, Ty>(callee: Callee, service: Service<V, Ty>, s: CM.State) {
    forall i :: 0 <= i < |s.callers| && s.callers[i].stage.Ended? ==>
      s.callers[i].stage.payload == AnswerTo(callee, service, s.callers[i].req)
  }

  lemma EndedByFinish(s: CM.State, a: CM.Action, i: nat)
    requires CI.FlightOk(s) && CM.Enabled(s, a)
    requires i < |CM.Apply(s, a).callers| && CM.Apply(s, a).callers[i].stage.Ended?
    ensures i < |s.callers| && CM.Apply(s, a).callers[i].req == s.callers[i].req
    ensures CM.Apply(s, a).callers[i].stage == s.callers[i].stage
      || (a.Finish? && CM.Apply(s, a).callers[i].stage.payload == a.payload && s.flight[a.k].req == s.callers[i].req)
  {
    hide CM.Oldest, CM.Newest;
    if a.Finish? {
      assert CI.ItemOk(s.callers, s.flight[a.k]);
    }
  }

  lemma NobodyAnswered<V, Ty>(callee: Callee, service: Service<V, Ty>, s: CM.State)
    requires CM.IsInit(s)
    ensures AllAnswered(callee, service, s)
  {
  }

  lemma StepAnswers<V, Ty>(callee: Callee, service: Service<V, Ty>, s: CM.State, a: CM.Action)
    requires CI.Inv(s) && AllAnswered(callee, service, s) && CM.Enabled(s, a)
    requires a.Finish? ==> a.payload == AnswerTo(callee, service, s.flight[a.k].req)
    ensures AllAnswered(callee, service, CM.Apply(s, a))
  {
    hide CM.Apply, AnswerTo;
    var u := CM.Apply(s, a);
    forall i | 0 <= i < |u.callers| && u.callers[i].stage.Ended?
      ensures u.callers[i].stage.payload == AnswerTo(callee, service, u.callers[i].req)
    {
      EndedByFinish(s, a, i);
    }
  }

  lemma {:induction false} RunAnswers<V, Ty>(
      callee: Callee, service: Service<V, Ty>, states: seq<CM.State>, actions: seq<CM.Action>, n: nat)
    requires CM.Run(states, actions) && HandlersAnswer(callee, service, states, actions) && n < |states|
    ensures AllAnswered(callee, service, states[n])
  {
    hide CM.Run, HandlersAnswer, CM.Apply, CM.Enabled, AllAnswered, CI.Inv, AnswerTo;
    CM.RunStarts(states, actions);
    if n > 0 {
      RunAnswers(callee, service, states, actions, n - 1);
      CI.RunInv(states, actions, n - 1);
      CM.RunStep(states, actions, n - 1);
      if actions[n - 1].Finish? {
        AnswersAt(callee, service, states, actions, n - 1);
      }
      StepAnswers(callee, service, states[n - 1], actions[n - 1]);
    } else {
      NobodyAnswered(callee, service, states[0]);
    }
  }

  /** In every run, with callers, replies, timeouts, handlers and reconnects interleaving freely, over an
      interface with distinct tags: a finished caller that made a stub's call has either an error of its
      own (not connected, send failed, its own serial timed out) or exactly what calling the
      implementation directly returns, an index error standing for a value that cannot be serialised. */
  lemma FinishedCallMeansDirect<V(!new), Ty(!new)>(
      callee: Callee, service: Service<V, Ty>, states: seq<CM.State>, actions: seq<CM.Action>, n: nat, i: nat,
      stub: Stub, ty: Ty, f: nat, args: seq<V>, packed: seq<bytes>)
    requires CM.Run(states, actions) && HandlersAnswer(callee, service, states, actions)
    requires n < |states| && i < |states[n].callers| && states[n].callers[i].phase.Done?
    requires RoundTrips(service.codec) && DistinctTags(service.funcs) && CallableWith(service, f, args, packed)
    requires StubFor(service.funcs[f]) == Ok(stub) && !stub.kind.RunNotErr?
    requires states[n].callers[i].req == CM.Request(stub.kind.Tt(), stub.tag, ArgsField(packed))
    requires var o := service.handlers(f, args); o.Ok? ==> service.codec.hasType(ty, o.value)
    requires Encodable(Answered(callee, service, f, args))
    ensures var c := states[n].callers[i];
      match c.phase.outcome
      case Err(e) => e == NotConnect || e == NetError || e == SerialTimeOut(c.serial)
      case Ok(payload) =>
        CallerResult(service.codec, stub.kind, ty, payload)
        == if Survives(service, stub.kind, f, args) then Direct(callee, service, stub.kind, f, args)
           else Err(IndexError)
  {
    hide CM.Run, HandlersAnswer, Dispatch, CallerResult, Direct, DistinctTags, Payload, Encodable, LE;
    CT.OutcomeIsOwn(states, actions, n, i);
    RunAnswers(callee, service, states, actions, n);
    DispatchedAsMeant(service, f, args, packed);
    AnswerMeansDirect(callee, service, stub.kind, ty, f, args);
  }
}

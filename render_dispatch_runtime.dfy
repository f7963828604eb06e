/** The dispatch as it runs: a mutable render event, and the two backends as
    methods that call the phase methods in turn, consult the event and record
    the calls they make.  Each is proved to make exactly the calls, and leave
    exactly the event state, that RenderDispatch describes. */
module RenderDispatchRuntime {
  import opened RenderPhases
  import opened RenderDispatch

  /** The render event handed to every phase method. */
  class Event {
    var aborted: bool
    /** The identifier of the method being invoked, for error reports. */
    var description: string
    /** The answer of the result handler behind `storeResult`. */
    const accepts: Value -> bool

    constructor(accepts: Value -> bool)
      ensures !aborted && description == "" && this.accepts == accepts
    {
      aborted := false;
      description := "";
      this.accepts := accepts;
    }

    function State(): EventState
      reads this
    {
      EventState(aborted, description)
    }

    method IsAborted() returns (b: bool)
      ensures b == aborted
    {
      return aborted;
    }

    method SetMethodDescription(identifier: string)
      modifies this
      ensures description == identifier && aborted == old(aborted)
    {
      description := identifier;
    }

    /** Posts a method's result; an accepted result is terminal and aborts the
        event. */
    method StoreResult(v: Value) returns (accepted: bool)
      modifies this
      ensures accepted == accepts(v)
      ensures State() == AfterStore(v, accepts, old(State()))
    {
      accepted := accepts(v);
      aborted := aborted || accepted;
    }

    /** What a phase method does when it aborts the event itself. */
    method Abort()
      modifies this
      ensures aborted && description == old(description)
    {
      aborted := true;
    }
  }

  /** Runs a user method: it returns its value and may abort the event. */
  method InvokeMethod(t: Target, run: string -> Effect, event: Event) returns (v: Value)
    modifies event
    ensures v == run(t.identifier).returned
    ensures event.State() == old(event.State()).(aborted := old(event.aborted) || run(t.identifier).aborts)
  {
    var effect := run(t.identifier);
    if effect.aborts {
      event.Abort();
    }
    return effect.returned;
  }

  /** `r` with `prefix` recorded before its calls. */
  function After(prefix: seq<Step>, r: Run): Run {
    Run(prefix + r.trace, r.state, r.stopped)
  }

  // ---------------------------------------------------------------------------
  // Plastic backend

  /** The calls Plastic generates for one method, as the first step of a run. */
  function PlasticCalls(t: Target, run: string -> Effect): seq<Step> {
    [Describe(t.identifier), Invoke(t.identifier, t.takesWriter)] +
      (if t.isVoid then [] else [Store(run(t.identifier).returned)])
  }

  /** One step of a Plastic run: the first method's calls, then either the end
      (its result was accepted) or the run over the rest. */
  lemma PlasticMethodsStep(ms: seq<Target>, run: string -> Effect, accepts: Value -> bool, s: EventState)
    requires |ms| > 0
    ensures var t := ms[0];
      var s1 := AfterInvoke(t, run, s);
      if !t.isVoid && accepts(run(t.identifier).returned) then
        PlasticMethods(ms, run, accepts, s) == Run(PlasticCalls(t, run), AfterStore(run(t.identifier).returned, accepts, s1), true)
      else
        PlasticMethods(ms, run, accepts, s) == After(PlasticCalls(t, run), PlasticMethods(ms[1..], run, accepts, s1))
  {
    var t, s1 := ms[0], AfterInvoke(ms[0], run, s);
    if t.isVoid {
      assert PlasticCalls(t, run) == [Describe(t.identifier), Invoke(t.identifier, t.takesWriter)];
    } else if !accepts(run(t.identifier).returned) {
      var rest := PlasticMethods(ms[1..], run, accepts, s1);
      assert PlasticCalls(t, run) + rest.trace
          == [Describe(t.identifier), Invoke(t.identifier, t.takesWriter)] + [Store(run(t.identifier).returned)] + rest.trace;
    }
  }

  /** `invokeMethod`: describe the method, invoke it (with the writer when it
      takes one) and, when it is non-void, post its result. */
  method PlasticInvokeMethod(t: Target, run: string -> Effect, event: Event) returns (called: seq<Step>, accepted: bool)
    modifies event
    ensures called == PlasticCalls(t, run)
    ensures accepted <==> !t.isVoid && event.accepts(run(t.identifier).returned)
    ensures event.State() == if accepted
      then AfterStore(run(t.identifier).returned, event.accepts, AfterInvoke(t, run, old(event.State())))
      else AfterInvoke(t, run, old(event.State()))
  {
    event.SetMethodDescription(t.identifier);
    var v := InvokeMethod(t, run, event);
    called := [Describe(t.identifier), Invoke(t.identifier, t.takesWriter)];
    accepted := false;
    if !t.isVoid {
      called := called + [Store(v)];
      accepted := event.StoreResult(v);
    }
  }

  /** The generated calls for the class's own methods, in routine order; the
      routine returns as soon as a result is accepted. */
  method PlasticInvokeMethods(ms: seq<Target>, run: string -> Effect, event: Event) returns (trace: seq<Step>, stopped: bool)
    modifies event
    ensures Run(trace, event.State(), stopped) == PlasticMethods(ms, run, event.accepts, old(event.State()))
  {
    trace := [];
    for i := 0 to |ms|
      invariant PlasticMethods(ms, run, event.accepts, old(event.State())) ==
        After(trace, PlasticMethods(ms[i..], run, event.accepts, event.State()))
    {
      PlasticMethodsStep(ms[i..], run, event.accepts, event.State());
      assert ms[i..][0] == ms[i] && ms[i..][1..] == ms[i + 1..];
      var called, accepted := PlasticInvokeMethod(ms[i], run, event);
      if accepted {
        return trace + called, true;
      }
      ghost var rest := PlasticMethods(ms[i + 1..], run, event.accepts, event.State());
      assert trace + (called + rest.trace) == (trace + called) + rest.trace;
      trace := trace + called;
    }
    assert ms[|ms|..] == [];
    return trace, false;
  }

  /** The generated phase routine of the last class of `chain` (root first),
      and through its superclass call those of the classes above it. */
  method PlasticDispatch(chain: seq<Routine>, run: string -> Effect, event: Event) returns (trace: seq<Step>)
    modifies event
    ensures Dispatch(trace, event.State()) == PlasticRoutine(chain, run, event.accepts, old(event.State()))
    decreases |chain|
  {
    if |chain| == 0 {
      return [];
    }
    var r, parent := chain[|chain| - 1], chain[..|chain| - 1];
    trace := [];
    if !r.reverse && !r.isRoot {
      var sup := PlasticDispatch(parent, run, event);
      trace := [Super] + sup;
      var aborted := event.IsAborted();
      if aborted {
        return;
      }
    }
    var local, stopped := PlasticInvokeMethods(r.methods, run, event);
    trace := trace + local;
    if stopped {
      return;
    }
    if r.reverse && !r.isRoot {
      var sup := PlasticDispatch(parent, run, event);
      trace := trace + [Super] + sup;
    }
  }

  // ---------------------------------------------------------------------------
  // Advice backend

  /** `Invoker.invoke`: describe, invoke, post the return value. */
  method InvokerInvoke(t: Target, run: string -> Effect, event: Event) returns (steps: seq<Step>)
    modifies event
    ensures steps == [Describe(t.identifier), Invoke(t.identifier, t.takesWriter), Store(ReturnValue(t, run))]
    ensures event.State() == AfterStore(ReturnValue(t, run), event.accepts, AfterInvoke(t, run, old(event.State())))
  {
    event.SetMethodDescription(t.identifier);
    var v := InvokeMethod(t, run, event);
    var returned := if t.isVoid then Null else v;
    var _ := event.StoreResult(returned);
    return [Describe(t.identifier), Invoke(t.identifier, t.takesWriter), Store(returned)];
  }

  /** The invoker loop of `advise`: after each invoker, return if the event is
      aborted. */
  method AdviceInvokeAll(invokers: seq<Target>, run: string -> Effect, event: Event) returns (trace: seq<Step>, stopped: bool)
    modifies event
    ensures Run(trace, event.State(), stopped) == AdviceInvokers(invokers, run, event.accepts, old(event.State()))
  {
    trace := [];
    for i := 0 to |invokers|
      invariant AdviceInvokers(invokers, run, event.accepts, old(event.State())) ==
        After(trace, AdviceInvokers(invokers[i..], run, event.accepts, event.State()))
    {
      ghost var rest := AdviceInvokers(invokers[i..], run, event.accepts, event.State());
      assert invokers[i..][1..] == invokers[i + 1..];
      var called := InvokerInvoke(invokers[i], run, event);
      var aborted := event.IsAborted();
      if aborted {
        assert rest == Run(called, event.State(), true);
        return trace + called, true;
      }
      assert rest == After(called, AdviceInvokers(invokers[i + 1..], run, event.accepts, event.State()));
      assert trace + (called + AdviceInvokers(invokers[i + 1..], run, event.accepts, event.State()).trace)
          == (trace + called) + AdviceInvokers(invokers[i + 1..], run, event.accepts, event.State()).trace;
      trace := trace + called;
    }
    assert invokers[|invokers|..] == [];
    return trace, false;
  }

  /** `RenderPhaseMethodAdvice.advise` on the phase method of the last class of
      `chain` (root first); `proceed` runs the parent class's advised method. */
  method Advise(chain: seq<Advice>, run: string -> Effect, event: Event) returns (trace: seq<Step>)
    modifies event
    ensures Dispatch(trace, event.State()) == AdviceRoutine(chain, run, event.accepts, old(event.State()))
    decreases |chain|
  {
    if |chain| == 0 {
      return [];
    }
    var a, parent := chain[|chain| - 1], chain[..|chain| - 1];
    trace := [];
    if !a.reverse {
      var proceeded := Advise(parent, run, event);
      trace := [Proceed] + proceeded;
    }
    var aborted := event.IsAborted();
    if aborted {
      return;
    }
    var local, stopped := AdviceInvokeAll(a.invokers, run, event);
    trace := trace + local;
    if stopped {
      return;
    }
    if a.reverse {
      var proceeded := Advise(parent, run, event);
      trace := trace + [Proceed] + proceeded;
    }
  }
}

/** What a phase's dispatch does at render time, as values: the calls it makes
    (a trace) and the event state it leaves.  Two backends are described.  The
    Plastic backend generates a routine per class that calls the superclass's
    routine, tells the event each method's identifier, invokes the method and
    posts non-void results, stopping only when a result is accepted.  The older
    advice backend wraps the phase method; it checks the event's abort flag
    before its invokers and after each one, and always posts the result. */
module RenderDispatch {
  import opened RenderPhases

  /** A value a render-phase method returns; `Null` for void methods and Java
      null. */
  datatype Value = Null | Boxed(token: int)

  /** What running a user method does when invoked: the value it returns and
      whether it leaves the event aborted. */
  datatype Effect = Effect(returned: Value, aborts: bool)

  /** The calls a dispatch makes, in order. */
  datatype Step =
    | Super                                   // Plastic: call of the superclass's routine
    | Proceed                                 // advice: invocation.proceed()
    | Describe(identifier: string)            // event.setMethodDescription
    | Invoke(identifier: string, withWriter: bool)
    | Store(value: Value)                     // event.storeResult

  /** The part of the event a dispatch reads and writes. */
  datatype EventState = EventState(aborted: bool, description: string)

  /** A run over a list of methods: trace, final state, and whether it
      returned early. */
  datatype Run = Run(trace: seq<Step>, state: EventState, stopped: bool)

  /** A whole phase dispatch: trace and final state. */
  datatype Dispatch = Dispatch(trace: seq<Step>, state: EventState)

  /** The event after `setMethodDescription` and the method's own effect. */
  function AfterInvoke(t: Target, run: string -> Effect, s: EventState): (r: EventState)
    ensures r.description == t.identifier
    ensures r.aborted <==> s.aborted || run(t.identifier).aborts
  {
    EventState(s.aborted || run(t.identifier).aborts, t.identifier)
  }

  /** The value an invocation hands back: null for a void method. */
  function ReturnValue(t: Target, run: string -> Effect): Value {
    if t.isVoid then Null else run(t.identifier).returned
  }

  /** The event after `storeResult(v)`: an accepted result is terminal and
      aborts the event. */
  function AfterStore(v: Value, accepts: Value -> bool, s: EventState): (r: EventState)
    ensures r.description == s.description
    ensures r.aborted <==> s.aborted || accepts(v)
  {
    s.(aborted := s.aborted || accepts(v))
  }

  // ---------------------------------------------------------------------------
  // Plastic backend

  /** The generated calls for the class's own methods, in routine order: for
      each method, describe it, invoke it and, when non-void, post its result;
      an accepted result returns at once.  The abort flag is never read here. */
  function PlasticMethods(ms: seq<Target>, run: string -> Effect, accepts: Value -> bool, s: EventState): Run
    decreases |ms|
  {
    if |ms| == 0 then Run([], s, false)
    else
      var t := ms[0];
      var s1 := AfterInvoke(t, run, s);
      var called := [Describe(t.identifier), Invoke(t.identifier, t.takesWriter)];
      if t.isVoid then
        var rest := PlasticMethods(ms[1..], run, accepts, s1);
        Run(called + rest.trace, rest.state, rest.stopped)
      else
        var v := run(t.identifier).returned;
        if accepts(v) then Run(called + [Store(v)], AfterStore(v, accepts, s1), true)
        else
          var rest := PlasticMethods(ms[1..], run, accepts, s1);
          Run(called + [Store(v)] + rest.trace, rest.state, rest.stopped)
  }

  /** The phase routine of the last class of `chain`, where `chain` lists,
      root first, the classes of the hierarchy that generated a routine for the
      phase.  An empty chain is the inherited default, which does nothing.  A
      non-root forward routine calls the superclass first and returns if the
      event is then aborted; a non-root reverse routine calls it last, unless
      a result was accepted; a root routine never calls it. */
  function PlasticRoutine(chain: seq<Routine>, run: string -> Effect, accepts: Value -> bool, s: EventState): Dispatch
    decreases |chain|
  {
    if |chain| == 0 then Dispatch([], s)
    else
      var r, parent := chain[|chain| - 1], chain[..|chain| - 1];
      if !r.reverse && !r.isRoot then
        var sup := PlasticRoutine(parent, run, accepts, s);
        if sup.state.aborted then Dispatch([Super] + sup.trace, sup.state)
        else
          var local := PlasticMethods(r.methods, run, accepts, sup.state);
          Dispatch([Super] + sup.trace + local.trace, local.state)
      else
        var local := PlasticMethods(r.methods, run, accepts, s);
        if local.stopped || !r.reverse || r.isRoot then Dispatch(local.trace, local.state)
        else
          var sup := PlasticRoutine(parent, run, accepts, local.state);
          Dispatch(local.trace + [Super] + sup.trace, sup.state)
  }

  // ---------------------------------------------------------------------------
  // Advice backend

  /** The invokers of one advice: each describes its method, invokes it and
      always posts the return value (null for void), ignoring the answer; the
      loop returns as soon as the event is aborted. */
  function AdviceInvokers(ms: seq<Target>, run: string -> Effect, accepts: Value -> bool, s: EventState): Run
    decreases |ms|
  {
    if |ms| == 0 then Run([], s, false)
    else
      var t := ms[0];
      var v := ReturnValue(t, run);
      var s2 := AfterStore(v, accepts, AfterInvoke(t, run, s));
      var called := [Describe(t.identifier), Invoke(t.identifier, t.takesWriter), Store(v)];
      if s2.aborted then Run(called, s2, true)
      else
        var rest := AdviceInvokers(ms[1..], run, accepts, s2);
        Run(called + rest.trace, rest.state, rest.stopped)
  }

  /** The advised phase method of the last class of `chain` (root first);
      `proceed` runs what the method did before it was advised: the parent
      class's advised method, or nothing for an empty chain. */
  function AdviceRoutine(chain: seq<Advice>, run: string -> Effect, accepts: Value -> bool, s: EventState): Dispatch
    decreases |chain|
  {
    if |chain| == 0 then Dispatch([], s)
    else
      var a, parent := chain[|chain| - 1], chain[..|chain| - 1];
      var before :=
        if a.reverse then Dispatch([], s)
        else var d := AdviceRoutine(parent, run, accepts, s); Dispatch([Proceed] + d.trace, d.state);
      if before.state.aborted then before
      else
        var local := AdviceInvokers(a.invokers, run, accepts, before.state);
        if local.stopped || !a.reverse then Dispatch(before.trace + local.trace, local.state)
        else
          var after := AdviceRoutine(parent, run, accepts, local.state);
          Dispatch(local.trace + [Proceed] + after.trace, after.state)
  }

  // ---------------------------------------------------------------------------
  // Observations on traces

  /** The identifiers of the methods invoked, in order. */
  function Invoked(trace: seq<Step>): (r: seq<string>)
    ensures |r| <= |trace|
  {
    if |trace| == 0 then []
    else (if trace[0].Invoke? then [trace[0].identifier] else []) + Invoked(trace[1..])
  }

  lemma {:induction false} InvokedConcat(a: seq<Step>, b: seq<Step>)
    ensures Invoked(a + b) == Invoked(a) + Invoked(b)
  {
    if |a| == 0 {
      assert a + b == b;
    } else {
      var h := if a[0].Invoke? then [a[0].identifier] else [];
      assert (a + b)[0] == a[0] && (a + b)[1..] == a[1..] + b;
      assert Invoked(a + b) == h + Invoked(a[1..] + b);
      InvokedConcat(a[1..], b);
      assert h + (Invoked(a[1..]) + Invoked(b)) == (h + Invoked(a[1..])) + Invoked(b);
    }
  }

  function Identifiers(ms: seq<Target>): (r: seq<string>)
    ensures |r| == |ms|
  {
    seq(|ms|, i requires 0 <= i < |ms| => ms[i].identifier)
  }

  /** Every invocation is immediately preceded by telling the event that same
      method's identifier. */
  predicate DescribedBeforeInvoke(trace: seq<Step>) {
    forall i :: 0 <= i < |trace| && trace[i].Invoke? ==>
      i > 0 && trace[i - 1] == Describe(trace[i].identifier)
  }

  lemma DescribedBeforeInvokeConcat(a: seq<Step>, b: seq<Step>)
    requires DescribedBeforeInvoke(a) && DescribedBeforeInvoke(b)
    ensures DescribedBeforeInvoke(a + b)
  {
    forall i | 0 <= i < |a + b| && (a + b)[i].Invoke?
      ensures i > 0 && (a + b)[i - 1] == Describe((a + b)[i].identifier)
    {
      if i >= |a| {
        assert (a + b)[i] == b[i - |a|];
      }
    }
  }
}

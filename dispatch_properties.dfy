/** Properties of the two dispatch backends: where each one stops, where the
    superclass call goes, that every invocation is described first, and the
    order in which a class hierarchy's methods run. */
module DispatchProperties {
  import opened RenderPhases
  import opened RenderDispatch

  // ---------------------------------------------------------------------------
  // Stop rules

  /** Under Plastic, a method ends the routine exactly when it is non-void and
      the event accepts its result. */
  predicate PlasticAccepted(t: Target, run: string -> Effect, accepts: Value -> bool) {
    !t.isVoid && accepts(run(t.identifier).returned)
  }

  /** Under the advice, an invoker ends the loop exactly when the event is
      aborted after it: by the method itself or by accepting its result. */
  predicate AdviceAborted(t: Target, run: string -> Effect, accepts: Value -> bool) {
    run(t.identifier).aborts || accepts(ReturnValue(t, run))
  }

  /** Plastic never reads the abort flag between methods: what it calls does
      not depend on the event's state, so a method that aborts the event does
      not stop the ones after it. */
  lemma {:induction false} PlasticMethodsIgnoreAbort(ms: seq<Target>, run: string -> Effect, accepts: Value -> bool, s: EventState, s': EventState)
    ensures PlasticMethods(ms, run, accepts, s).trace == PlasticMethods(ms, run, accepts, s').trace
    ensures PlasticMethods(ms, run, accepts, s).stopped == PlasticMethods(ms, run, accepts, s').stopped
    decreases |ms|
  {
    if |ms| > 0 {
      var t := ms[0];
      PlasticMethodsIgnoreAbort(ms[1..], run, accepts, AfterInvoke(t, run, s), AfterInvoke(t, run, s'));
    }
  }

  lemma InvokedCons(st: Step, rest: seq<Step>)
    ensures Invoked([st] + rest) == (if st.Invoke? then [st.identifier] else []) + Invoked(rest)
  {
    assert ([st] + rest)[1..] == rest;
  }

  /** The calls for one method contribute exactly that method's identifier
      to the invoked ones. */
  lemma InvokedAfterCall(t: Target, extra: seq<Step>, rest: seq<Step>)
    requires extra == [] || (|extra| == 1 && extra[0].Store?)
    ensures Invoked([Describe(t.identifier), Invoke(t.identifier, t.takesWriter)] + extra + rest) == [t.identifier] + Invoked(rest)
  {
    var d, i := Describe(t.identifier), Invoke(t.identifier, t.takesWriter);
    assert [d, i] + extra + rest == [d] + ([i] + (extra + rest));
    InvokedCons(d, [i] + (extra + rest));
    InvokedCons(i, extra + rest);
    if extra != [] {
      assert extra + rest == [extra[0]] + rest;
      InvokedCons(extra[0], rest);
    }
  }

  /** `invoked` is what a loop over `ms` that ends after the first method
      satisfying `stops` invokes: the first `n` methods, none before the
      `n`-th satisfying `stops`, and the loop returned early exactly when the
      `n`-th did; with no such method it runs them all. */
  predicate FirstStop(ms: seq<Target>, stops: Target -> bool, invoked: seq<string>, stopped: bool) {
    var n := |invoked|;
    && n <= |ms|
    && invoked == Identifiers(ms[..n])
    && (forall j :: 0 <= j < n - 1 ==> !stops(ms[j]))
    && (stopped ==> 0 < n && stops(ms[n - 1]))
    && (!stopped ==> n == |ms| && forall j :: 0 <= j < |ms| ==> !stops(ms[j]))
  }

  lemma FirstStopHere(ms: seq<Target>, stops: Target -> bool)
    requires |ms| > 0 && stops(ms[0])
    ensures FirstStop(ms, stops, [ms[0].identifier], true)
  {
    assert Identifiers(ms[..1]) == [ms[0].identifier];
  }

  lemma FirstStopCons(ms: seq<Target>, stops: Target -> bool, invoked: seq<string>, stopped: bool)
    requires |ms| > 0 && !stops(ms[0])
    requires FirstStop(ms[1..], stops, invoked, stopped)
    ensures FirstStop(ms, stops, [ms[0].identifier] + invoked, stopped)
  {
    var m := |invoked|;
    assert Identifiers(ms[..m + 1]) == [ms[0].identifier] + Identifiers(ms[1..][..m]);
    forall j | 0 < j < |ms| ensures ms[j] == ms[1..][j - 1] { }
  }

  /** Plastic runs the methods up to and including the first one whose result
      is accepted, and then returns; with no accepted result it runs them all. */
  lemma {:induction false} PlasticMethodsStopAtFirstAccepted(ms: seq<Target>, run: string -> Effect, accepts: Value -> bool, s: EventState)
    ensures var r := PlasticMethods(ms, run, accepts, s);
      FirstStop(ms, t => PlasticAccepted(t, run, accepts), Invoked(r.trace), r.stopped)
    decreases |ms|
  {
    var stops := t => PlasticAccepted(t, run, accepts);
    if |ms| > 0 {
      var t := ms[0];
      var s1 := AfterInvoke(t, run, s);
      var r := PlasticMethods(ms, run, accepts, s);
      var v := run(t.identifier).returned;
      if PlasticAccepted(t, run, accepts) {
        InvokedAfterCall(t, [Store(v)], []);
        assert r.trace == [Describe(t.identifier), Invoke(t.identifier, t.takesWriter)] + [Store(v)] + [];
        FirstStopHere(ms, stops);
      } else {
        var rest := PlasticMethods(ms[1..], run, accepts, s1);
        PlasticMethodsStopAtFirstAccepted(ms[1..], run, accepts, s1);
        var extra := if t.isVoid then [] else [Store(v)];
        InvokedAfterCall(t, extra, rest.trace);
        assert r.trace == [Describe(t.identifier), Invoke(t.identifier, t.takesWriter)] + extra + rest.trace;
        FirstStopCons(ms, stops, Invoked(rest.trace), rest.stopped);
      }
    } else {
      assert ms[..0] == [];
    }
  }

  /** The advice runs its invokers up to and including the first one after
      which the event is aborted, and then returns; if none aborts it, it runs
      them all.  The loop returns early exactly when it leaves the event
      aborted. */
  lemma {:induction false} AdviceInvokersStopAtFirstAbort(ms: seq<Target>, run: string -> Effect, accepts: Value -> bool, s: EventState)
    requires !s.aborted
    ensures var r := AdviceInvokers(ms, run, accepts, s);
      && (r.stopped <==> r.state.aborted)
      && FirstStop(ms, t => AdviceAborted(t, run, accepts), Invoked(r.trace), r.stopped)
    decreases |ms|
  {
    var stops := t => AdviceAborted(t, run, accepts);
    if |ms| > 0 {
      var t := ms[0];
      var v := ReturnValue(t, run);
      var s2 := AfterStore(v, accepts, AfterInvoke(t, run, s));
      var r := AdviceInvokers(ms, run, accepts, s);
      if AdviceAborted(t, run, accepts) {
        InvokedAfterCall(t, [Store(v)], []);
        assert r.trace == [Describe(t.identifier), Invoke(t.identifier, t.takesWriter)] + [Store(v)] + [];
        FirstStopHere(ms, stops);
      } else {
        var rest := AdviceInvokers(ms[1..], run, accepts, s2);
        AdviceInvokersStopAtFirstAbort(ms[1..], run, accepts, s2);
        InvokedAfterCall(t, [Store(v)], rest.trace);
        assert r.trace == [Describe(t.identifier), Invoke(t.identifier, t.takesWriter)] + [Store(v)] + rest.trace;
        FirstStopCons(ms, stops, Invoked(rest.trace), rest.stopped);
      }
    } else {
      assert ms[..0] == [];
    }
  }

  // ---------------------------------------------------------------------------
  // Every invocation is described first

  lemma DescribedCall(t: Target, extra: seq<Step>)
    requires extra == [] || (|extra| == 1 && extra[0].Store?)
    ensures DescribedBeforeInvoke([Describe(t.identifier), Invoke(t.identifier, t.takesWriter)] + extra)
  {
  }

  lemma {:induction false} PlasticMethodsDescribeFirst(ms: seq<Target>, run: string -> Effect, accepts: Value -> bool, s: EventState)
    ensures DescribedBeforeInvoke(PlasticMethods(ms, run, accepts, s).trace)
    decreases |ms|
  {
    if |ms| > 0 {
      var t := ms[0];
      var s1 := AfterInvoke(t, run, s);
      var v := run(t.identifier).returned;
      var extra := if t.isVoid then [] else [Store(v)];
      var call := [Describe(t.identifier), Invoke(t.identifier, t.takesWriter)] + extra;
      DescribedCall(t, extra);
      if !PlasticAccepted(t, run, accepts) {
        PlasticMethodsDescribeFirst(ms[1..], run, accepts, s1);
        DescribedBeforeInvokeConcat(call, PlasticMethods(ms[1..], run, accepts, s1).trace);
      }
    }
  }

  lemma {:induction false} AdviceInvokersDescribeFirst(ms: seq<Target>, run: string -> Effect, accepts: Value -> bool, s: EventState)
    ensures DescribedBeforeInvoke(AdviceInvokers(ms, run, accepts, s).trace)
    decreases |ms|
  {
    if |ms| > 0 {
      var t := ms[0];
      var v := ReturnValue(t, run);
      var s2 := AfterStore(v, accepts, AfterInvoke(t, run, s));
      var call := [Describe(t.identifier), Invoke(t.identifier, t.takesWriter)] + [Store(v)];
      DescribedCall(t, [Store(v)]);
      if !s2.aborted {
        AdviceInvokersDescribeFirst(ms[1..], run, accepts, s2);
        DescribedBeforeInvokeConcat(call, AdviceInvokers(ms[1..], run, accepts, s2).trace);
      }
    }
  }

  /** Whatever the hierarchy, the Plastic routine tells the event each
      method's identifier immediately before invoking it. */
  lemma {:induction false} PlasticRoutineDescribesEachMethod(chain: seq<Routine>, run: string -> Effect, accepts: Value -> bool, s: EventState)
    ensures DescribedBeforeInvoke(PlasticRoutine(chain, run, accepts, s).trace)
    decreases |chain|
  {
    if |chain| > 0 {
      var r, parent := chain[|chain| - 1], chain[..|chain| - 1];
      if !r.reverse && !r.isRoot {
        var sup := PlasticRoutine(parent, run, accepts, s);
        PlasticRoutineDescribesEachMethod(parent, run, accepts, s);
        DescribedBeforeInvokeConcat([Super], sup.trace);
        PlasticMethodsDescribeFirst(r.methods, run, accepts, sup.state);
        DescribedBeforeInvokeConcat([Super] + sup.trace, PlasticMethods(r.methods, run, accepts, sup.state).trace);
      } else {
        var local := PlasticMethods(r.methods, run, accepts, s);
        PlasticMethodsDescribeFirst(r.methods, run, accepts, s);
        PlasticRoutineDescribesEachMethod(parent, run, accepts, local.state);
        DescribedBeforeInvokeConcat(local.trace, [Super]);
        DescribedBeforeInvokeConcat(local.trace + [Super], PlasticRoutine(parent, run, accepts, local.state).trace);
      }
    }
  }

  /** Whatever the hierarchy, each invoker of the advice tells the event its
      method's identifier immediately before invoking it. */
  lemma {:induction false} AdviceRoutineDescribesEachMethod(chain: seq<Advice>, run: string -> Effect, accepts: Value -> bool, s: EventState)
    ensures DescribedBeforeInvoke(AdviceRoutine(chain, run, accepts, s).trace)
    decreases |chain|
  {
    if |chain| > 0 {
      var a, parent := chain[|chain| - 1], chain[..|chain| - 1];
      if a.reverse {
        var local := AdviceInvokers(a.invokers, run, accepts, s);
        AdviceInvokersDescribeFirst(a.invokers, run, accepts, s);
        AdviceRoutineDescribesEachMethod(parent, run, accepts, local.state);
        DescribedBeforeInvokeConcat([], local.trace);
        DescribedBeforeInvokeConcat(local.trace, [Proceed]);
        DescribedBeforeInvokeConcat(local.trace + [Proceed], AdviceRoutine(parent, run, accepts, local.state).trace);
      } else {
        var d := AdviceRoutine(parent, run, accepts, s);
        AdviceRoutineDescribesEachMethod(parent, run, accepts, s);
        DescribedBeforeInvokeConcat([Proceed], d.trace);
        AdviceInvokersDescribeFirst(a.invokers, run, accepts, d.state);
        DescribedBeforeInvokeConcat([Proceed] + d.trace, AdviceInvokers(a.invokers, run, accepts, d.state).trace);
      }
    }
  }

  // ---------------------------------------------------------------------------
  // Where the superclass call goes

  /** The calls for a class's own methods never chain to a superclass. */
  predicate OwnCallsOnly(trace: seq<Step>) {
    forall i :: 0 <= i < |trace| ==> !trace[i].Super? && !trace[i].Proceed?
  }

  lemma {:induction false} PlasticMethodsOwnCallsOnly(ms: seq<Target>, run: string -> Effect, accepts: Value -> bool, s: EventState)
    ensures OwnCallsOnly(PlasticMethods(ms, run, accepts, s).trace)
    decreases |ms|
  {
    if |ms| > 0 {
      PlasticMethodsOwnCallsOnly(ms[1..], run, accepts, AfterInvoke(ms[0], run, s));
    }
  }

  lemma {:induction false} AdviceInvokersOwnCallsOnly(ms: seq<Target>, run: string -> Effect, accepts: Value -> bool, s: EventState)
    ensures OwnCallsOnly(AdviceInvokers(ms, run, accepts, s).trace)
    decreases |ms|
  {
    if |ms| > 0 {
      var t := ms[0];
      AdviceInvokersOwnCallsOnly(ms[1..], run, accepts, AfterStore(ReturnValue(t, run), accepts, AfterInvoke(t, run, s)));
    }
  }

  /** A root class's routine never calls a superclass routine: it is its own
      methods' calls and nothing else. */
  lemma PlasticRootMakesNoSuperCall(chain: seq<Routine>, run: string -> Effect, accepts: Value -> bool, s: EventState)
    requires |chain| > 0 && chain[|chain| - 1].isRoot
    ensures var d := PlasticRoutine(chain, run, accepts, s);
      && d.trace == PlasticMethods(chain[|chain| - 1].methods, run, accepts, s).trace
      && Super !in d.trace
  {
    PlasticMethodsOwnCallsOnly(chain[|chain| - 1].methods, run, accepts, s);
  }

  /** A non-root forward routine calls the superclass routine before anything
      else and lets it finish; if the event is then aborted, none of the
      class's own methods runs. */
  lemma PlasticForwardCallsSuperFirst(chain: seq<Routine>, run: string -> Effect, accepts: Value -> bool, s: EventState)
    requires |chain| > 0 && !chain[|chain| - 1].reverse && !chain[|chain| - 1].isRoot
    ensures var d := PlasticRoutine(chain, run, accepts, s);
      var sup := PlasticRoutine(chain[..|chain| - 1], run, accepts, s);
      && d.trace[..1 + |sup.trace|] == [Super] + sup.trace
      && (sup.state.aborted ==> d.trace == [Super] + sup.trace && d.state == sup.state)
  {
  }

  /** A non-root reverse routine runs its own methods first and calls the
      superclass routine only after the last of them, and not at all when a
      result was accepted. */
  lemma PlasticReverseCallsSuperLast(chain: seq<Routine>, run: string -> Effect, accepts: Value -> bool, s: EventState)
    requires |chain| > 0 && chain[|chain| - 1].reverse && !chain[|chain| - 1].isRoot
    ensures var d := PlasticRoutine(chain, run, accepts, s);
      var local := PlasticMethods(chain[|chain| - 1].methods, run, accepts, s);
      && d.trace[..|local.trace|] == local.trace
      && Super !in local.trace
      && (local.stopped ==> d.trace == local.trace)
      && (!local.stopped ==> |d.trace| > |local.trace| && d.trace[|local.trace|] == Super)
  {
    PlasticMethodsOwnCallsOnly(chain[|chain| - 1].methods, run, accepts, s);
  }

  /** Advice: once the event is aborted on entry (for a forward phase, after
      `proceed`), no invoker runs, and a reverse phase does not proceed. */
  lemma AdviceAbortedOnEntry(chain: seq<Advice>, run: string -> Effect, accepts: Value -> bool, s: EventState)
    requires |chain| > 0
    ensures var a := chain[|chain| - 1];
      var d := AdviceRoutine(chain, run, accepts, s);
      var before := AdviceRoutine(chain[..|chain| - 1], run, accepts, s);
      && (a.reverse && s.aborted ==> d.trace == [] && d.state == s)
      && (!a.reverse && before.state.aborted ==> d.trace == [Proceed] + before.trace && d.state == before.state)
  {
  }

  /** Advice, reverse phase: the invokers run before `proceed`, and once an
      invoker leaves the event aborted the advice returns without proceeding. */
  lemma AdviceReverseProceedsLast(chain: seq<Advice>, run: string -> Effect, accepts: Value -> bool, s: EventState)
    requires |chain| > 0 && chain[|chain| - 1].reverse && !s.aborted
    ensures var d := AdviceRoutine(chain, run, accepts, s);
      var local := AdviceInvokers(chain[|chain| - 1].invokers, run, accepts, s);
      && d.trace[..|local.trace|] == local.trace
      && (local.state.aborted ==> d.trace == local.trace && Proceed !in d.trace)
      && (!local.state.aborted ==> |d.trace| > |local.trace| && d.trace[|local.trace|] == Proceed)
  {
    var local := AdviceInvokers(chain[|chain| - 1].invokers, run, accepts, s);
    AdviceInvokersStopAtFirstAbort(chain[|chain| - 1].invokers, run, accepts, s);
    AdviceInvokersOwnCallsOnly(chain[|chain| - 1].invokers, run, accepts, s);
  }

  // ---------------------------------------------------------------------------
  // Order across a class hierarchy

  /** No method aborts the event and no result is accepted. */
  ghost predicate Quiet(run: string -> Effect, accepts: Value -> bool) {
    && (forall id :: !run(id).aborts)
    && (forall v :: !accepts(v))
  }

  /** The methods of each class of a hierarchy, root first, in the order each
      class runs them. */
  function ForwardOrder(layers: seq<seq<Target>>): seq<string> {
    if |layers| == 0 then []
    else ForwardOrder(layers[..|layers| - 1]) + Identifiers(layers[|layers| - 1])
  }

  /** The same, leaf class first. */
  function LeafFirstOrder(layers: seq<seq<Target>>): seq<string> {
    if |layers| == 0 then []
    else Identifiers(layers[|layers| - 1]) + LeafFirstOrder(layers[..|layers| - 1])
  }

  function RoutineLayers(chain: seq<Routine>): (r: seq<seq<Target>>)
    ensures |r| == |chain| && forall k :: 0 <= k < |chain| ==> r[k] == chain[k].methods
  {
    seq(|chain|, k requires 0 <= k < |chain| => chain[k].methods)
  }

  function AdviceLayers(chain: seq<Advice>): (r: seq<seq<Target>>)
    ensures |r| == |chain| && forall k :: 0 <= k < |chain| ==> r[k] == chain[k].invokers
  {
    seq(|chain|, k requires 0 <= k < |chain| => chain[k].invokers)
  }

  /** The routines a hierarchy generated for one phase: all of that phase's
      direction, and only the first may belong to the root class. */
  predicate PlasticChain(chain: seq<Routine>, reverse: bool) {
    forall k :: 0 <= k < |chain| ==> chain[k].reverse == reverse && (k > 0 ==> !chain[k].isRoot)
  }

  predicate AdviceChain(chain: seq<Advice>, reverse: bool) {
    forall k :: 0 <= k < |chain| ==> chain[k].reverse == reverse
  }

  lemma {:induction false} QuietPlasticMethods(ms: seq<Target>, run: string -> Effect, accepts: Value -> bool, s: EventState)
    requires Quiet(run, accepts)
    ensures var r := PlasticMethods(ms, run, accepts, s);
      Invoked(r.trace) == Identifiers(ms) && !r.stopped && r.state.aborted == s.aborted
    decreases |ms|
  {
    if |ms| > 0 {
      var t := ms[0];
      var s1 := AfterInvoke(t, run, s);
      var rest := PlasticMethods(ms[1..], run, accepts, s1);
      QuietPlasticMethods(ms[1..], run, accepts, s1);
      var extra := if t.isVoid then [] else [Store(run(t.identifier).returned)];
      InvokedAfterCall(t, extra, rest.trace);
      assert PlasticMethods(ms, run, accepts, s).trace == [Describe(t.identifier), Invoke(t.identifier, t.takesWriter)] + extra + rest.trace;
      assert Identifiers(ms) == [t.identifier] + Identifiers(ms[1..]);
    }
  }

  lemma {:induction false} QuietAdviceInvokers(ms: seq<Target>, run: string -> Effect, accepts: Value -> bool, s: EventState)
    requires Quiet(run, accepts) && !s.aborted
    ensures var r := AdviceInvokers(ms, run, accepts, s);
      Invoked(r.trace) == Identifiers(ms) && !r.stopped && !r.state.aborted
    decreases |ms|
  {
    if |ms| > 0 {
      var t := ms[0];
      var v := ReturnValue(t, run);
      var s2 := AfterStore(v, accepts, AfterInvoke(t, run, s));
      var rest := AdviceInvokers(ms[1..], run, accepts, s2);
      QuietAdviceInvokers(ms[1..], run, accepts, s2);
      InvokedAfterCall(t, [Store(v)], rest.trace);
      assert AdviceInvokers(ms, run, accepts, s).trace == [Describe(t.identifier), Invoke(t.identifier, t.takesWriter)] + [Store(v)] + rest.trace;
      assert Identifiers(ms) == [t.identifier] + Identifiers(ms[1..]);
    }
  }

  /** Plastic, forward phase, when nothing stops the dispatch: the root
      class's methods run first and the leaf's last. */
  lemma {:induction false} PlasticForwardHierarchyOrder(chain: seq<Routine>, run: string -> Effect, accepts: Value -> bool, s: EventState)
    requires PlasticChain(chain, false) && Quiet(run, accepts) && !s.aborted
    ensures var d := PlasticRoutine(chain, run, accepts, s);
      Invoked(d.trace) == ForwardOrder(RoutineLayers(chain)) && !d.state.aborted
    decreases |chain|
  {
    if |chain| > 0 {
      var r, parent := chain[|chain| - 1], chain[..|chain| - 1];
      assert RoutineLayers(parent) == RoutineLayers(chain)[..|chain| - 1];
      if !r.isRoot {
        var sup := PlasticRoutine(parent, run, accepts, s);
        PlasticForwardHierarchyOrder(parent, run, accepts, s);
        QuietPlasticMethods(r.methods, run, accepts, sup.state);
        InvokedConcat([Super], sup.trace);
        InvokedConcat([Super] + sup.trace, PlasticMethods(r.methods, run, accepts, sup.state).trace);
      } else {
        QuietPlasticMethods(r.methods, run, accepts, s);
        assert RoutineLayers(parent) == [];
      }
    }
  }

  /** Plastic, reverse phase, when nothing stops the dispatch: the leaf
      class's methods run first and the root's last. */
  lemma {:induction false} PlasticReverseHierarchyOrder(chain: seq<Routine>, run: string -> Effect, accepts: Value -> bool, s: EventState)
    requires PlasticChain(chain, true) && Quiet(run, accepts) && !s.aborted
    ensures var d := PlasticRoutine(chain, run, accepts, s);
      Invoked(d.trace) == LeafFirstOrder(RoutineLayers(chain)) && !d.state.aborted
    decreases |chain|
  {
    if |chain| > 0 {
      var r, parent := chain[|chain| - 1], chain[..|chain| - 1];
      assert RoutineLayers(parent) == RoutineLayers(chain)[..|chain| - 1];
      var local := PlasticMethods(r.methods, run, accepts, s);
      QuietPlasticMethods(r.methods, run, accepts, s);
      if !r.isRoot {
        PlasticReverseHierarchyOrder(parent, run, accepts, local.state);
        InvokedConcat(local.trace, [Super]);
        InvokedConcat(local.trace + [Super], PlasticRoutine(parent, run, accepts, local.state).trace);
      } else {
        assert RoutineLayers(parent) == [];
      }
    }
  }

  /** The advice backend, forward phase, when nothing stops the dispatch: root
      first. */
  lemma {:induction false} AdviceForwardHierarchyOrder(chain: seq<Advice>, run: string -> Effect, accepts: Value -> bool, s: EventState)
    requires AdviceChain(chain, false) && Quiet(run, accepts) && !s.aborted
    ensures var d := AdviceRoutine(chain, run, accepts, s);
      Invoked(d.trace) == ForwardOrder(AdviceLayers(chain)) && !d.state.aborted
    decreases |chain|
  {
    if |chain| > 0 {
      var a, parent := chain[|chain| - 1], chain[..|chain| - 1];
      assert AdviceLayers(parent) == AdviceLayers(chain)[..|chain| - 1];
      var before := AdviceRoutine(parent, run, accepts, s);
      AdviceForwardHierarchyOrder(parent, run, accepts, s);
      QuietAdviceInvokers(a.invokers, run, accepts, before.state);
      InvokedConcat([Proceed], before.trace);
      InvokedConcat([Proceed] + before.trace, AdviceInvokers(a.invokers, run, accepts, before.state).trace);
    }
  }

  /** The advice backend, reverse phase, when nothing stops the dispatch: leaf
      first. */
  lemma {:induction false} AdviceReverseHierarchyOrder(chain: seq<Advice>, run: string -> Effect, accepts: Value -> bool, s: EventState)
    requires AdviceChain(chain, true) && Quiet(run, accepts) && !s.aborted
    ensures var d := AdviceRoutine(chain, run, accepts, s);
      Invoked(d.trace) == LeafFirstOrder(AdviceLayers(chain)) && !d.state.aborted
    decreases |chain|
  {
    if |chain| > 0 {
      var a, parent := chain[|chain| - 1], chain[..|chain| - 1];
      assert AdviceLayers(parent) == AdviceLayers(chain)[..|chain| - 1];
      var local := AdviceInvokers(a.invokers, run, accepts, s);
      QuietAdviceInvokers(a.invokers, run, accepts, s);
      AdviceReverseHierarchyOrder(parent, run, accepts, local.state);
      InvokedConcat(local.trace, [Proceed]);
      InvokedConcat(local.trace + [Proceed], AdviceRoutine(parent, run, accepts, local.state).trace);
    }
  }
}

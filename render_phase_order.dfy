/** The render-phase ordering the integration suite asserts for a component
    class and its abstract base class: in the `BeginRender` phase the base
    class's method runs before the subclass's, in `AfterRender` after it.  The
    base class names its methods after the phases; the subclass declares
    differently named methods carrying the phase annotations, so that neither
    overrides the other and the worker keeps all four. */
module RenderPhaseOrder {
  import opened Results
  import opened RenderPhases
  import opened RenderDispatch
  import opened DispatchProperties

  /** The abstract base class's methods: found by name, no parameters. */
  function BeginMethod(): MethodInfo {
    MethodInfo("beginRender", {}, [], "void", false, "beginRender()")
  }

  function AfterMethod(): MethodInfo {
    MethodInfo("afterRender", {}, [], "void", false, "afterRender()")
  }

  /** The subclass's methods: other names, so they override nothing, placed in
      their phases by annotation. */
  function TraceBeginMethod(): MethodInfo {
    MethodInfo("traceBegin", {RenderPhaseAnnotation(BeginRender)}, [], "void", false, "traceBegin()")
  }

  function TraceAfterMethod(): MethodInfo {
    MethodInfo("traceAfter", {RenderPhaseAnnotation(AfterRender)}, [], "void", false, "traceAfter()")
  }

  function BaseMethods(): seq<MethodInfo> {
    [BeginMethod(), AfterMethod()]
  }

  function SubMethods(): seq<MethodInfo> {
    [TraceBeginMethod(), TraceAfterMethod()]
  }

  /** A class declaring one accepted method for `BeginRender` and then one for
      `AfterRender` gets one list for each of the two phases. */
  lemma PairSelection(order: seq<Phase>, className: string, b: MethodInfo, a: MethodInfo)
    requires IsCandidate(b) && IsCandidate(a) && HasValidShape(b) && HasValidShape(a)
    requires Category(order, b) == Some(BeginRender) && Category(order, a) == Some(AfterRender)
    ensures Selection(order, className, [b, a]) == Ok(map[BeginRender := [b], AfterRender := [a]])
    ensures Grouping(order, [b, a]) == map[BeginRender := [b], AfterRender := [a]]
  {
    var ms := [b, a];
    assert ms[..1] == [b] && [b][..0] == [];
    assert [] + [b] == [b] && [] + [a] == [a];
    assert Selection(order, className, [b]) == Ok(map[BeginRender := [b]]);
    assert ms[..|ms| - 1] == [b] && ms[|ms| - 1] == a;
    assert AddToMapList(map[BeginRender := [b]], AfterRender, a) == map[BeginRender := [b], AfterRender := [a]];
    SelectionChecksEveryShape(order, className, ms);
  }

  /** The base class's methods are candidates, and their names place them. */
  lemma BaseMethodsSelected(order: seq<Phase>)
    requires IsPhaseOrder(order)
    ensures IsCandidate(BeginMethod()) && IsCandidate(AfterMethod())
    ensures Category(order, BeginMethod()) == Some(BeginRender)
    ensures Category(order, AfterMethod()) == Some(AfterRender)
  {
    CandidateUnlessLifecycle(BeginMethod());
    CandidateUnlessLifecycle(AfterMethod());
    CategoryByName(order, BeginMethod(), BeginRender);
    CategoryByName(order, AfterMethod(), AfterRender);
  }

  /** The subclass's methods are candidates, and their annotations place them. */
  lemma SubMethodsSelected(order: seq<Phase>)
    requires IsPhaseOrder(order)
    ensures IsCandidate(TraceBeginMethod()) && IsCandidate(TraceAfterMethod())
    ensures Category(order, TraceBeginMethod()) == Some(BeginRender)
    ensures Category(order, TraceAfterMethod()) == Some(AfterRender)
  {
    CandidateUnlessLifecycle(TraceBeginMethod());
    CandidateUnlessLifecycle(TraceAfterMethod());
    assert RenderPhaseAnnotation(BeginRender) in TraceBeginMethod().annotations;
    assert RenderPhaseAnnotation(AfterRender) in TraceAfterMethod().annotations;
    CategoryByAnnotation(order, TraceBeginMethod());
    CategoryByAnnotation(order, TraceAfterMethod());
  }

  /** Each class's category map: one method for each of the two phases. */
  lemma TracerSelection(order: seq<Phase>)
    requires IsPhaseOrder(order)
    ensures Selection(order, "AbstractTracer", BaseMethods()) ==
      Ok(map[BeginRender := [BeginMethod()], AfterRender := [AfterMethod()]])
    ensures Selection(order, "Tracer", SubMethods()) ==
      Ok(map[BeginRender := [TraceBeginMethod()], AfterRender := [TraceAfterMethod()]])
    ensures Grouping(order, BaseMethods()) == map[BeginRender := [BeginMethod()], AfterRender := [AfterMethod()]]
    ensures Grouping(order, SubMethods()) == map[BeginRender := [TraceBeginMethod()], AfterRender := [TraceAfterMethod()]]
  {
    BaseMethodsSelected(order);
    SubMethodsSelected(order);
    PairSelection(order, "AbstractTracer", BeginMethod(), AfterMethod());
    PairSelection(order, "Tracer", TraceBeginMethod(), TraceAfterMethod());
  }

  /** The method each class runs in phase `p`. */
  function BaseMethod(p: Phase): MethodInfo {
    if p == BeginRender then BeginMethod() else AfterMethod()
  }

  function SubMethod(p: Phase): MethodInfo {
    if p == BeginRender then TraceBeginMethod() else TraceAfterMethod()
  }

  /** The routines generated for one phase by the abstract base class (the
      root) and by its subclass. */
  function PlasticTracerChain(order: seq<Phase>, p: Phase): seq<Routine>
    requires IsPhaseOrder(order)
    requires p == BeginRender || p == AfterRender
  {
    TracerSelection(order);
    [PlanRoutine("AbstractTracer", true, p, Selection(order, "AbstractTracer", BaseMethods()).value[p]),
     PlanRoutine("Tracer", false, p, Selection(order, "Tracer", SubMethods()).value[p])]
  }

  /** The same two classes under the advice backend. */
  function AdviceTracerChain(order: seq<Phase>, p: Phase): seq<Advice>
    requires IsPhaseOrder(order)
    requires p == BeginRender || p == AfterRender
  {
    TracerSelection(order);
    [PlanAdvice("AbstractTracer", p, Grouping(order, BaseMethods())[p]),
     PlanAdvice("Tracer", p, Grouping(order, SubMethods())[p])]
  }

  /** What each class's category map holds for phase `p`. */
  lemma TracerGroups(order: seq<Phase>, p: Phase)
    requires IsPhaseOrder(order)
    requires p == BeginRender || p == AfterRender
    ensures Selection(order, "AbstractTracer", BaseMethods()).Ok?
    ensures Selection(order, "Tracer", SubMethods()).Ok?
    ensures p in Selection(order, "AbstractTracer", BaseMethods()).value
    ensures p in Selection(order, "Tracer", SubMethods()).value
    ensures Selection(order, "AbstractTracer", BaseMethods()).value[p] == [BaseMethod(p)]
    ensures Selection(order, "Tracer", SubMethods()).value[p] == [SubMethod(p)]
    ensures p in Grouping(order, BaseMethods()) && Grouping(order, BaseMethods())[p] == [BaseMethod(p)]
    ensures p in Grouping(order, SubMethods()) && Grouping(order, SubMethods())[p] == [SubMethod(p)]
  {
    TracerSelection(order);
  }

  /** The routine and the advice planned for a class with a single method in
      the phase. */
  lemma SinglePlans(className: string, isRoot: bool, p: Phase, m: MethodInfo)
    ensures PlanRoutine(className, isRoot, p, [m]) == Routine(IsReverse(p), isRoot, [TargetOf(className, m)])
    ensures PlanAdvice(className, p, [m]) == Advice(IsReverse(p), [TargetOf(className, m)])
  {
    assert Reverse([m]) == [m];
    assert Targets(className, [m]) == [TargetOf(className, m)];
  }

  /** The layers both chains are built from: each class runs exactly its own
      method for the phase. */
  function TracerLayerList(p: Phase): seq<seq<Target>> {
    [[TargetOf("AbstractTracer", BaseMethod(p))], [TargetOf("Tracer", SubMethod(p))]]
  }

  /** The two classes' routines for phase `p`, written out. */
  function TracerRoutines(p: Phase): seq<Routine> {
    [Routine(IsReverse(p), true, [TargetOf("AbstractTracer", BaseMethod(p))]),
     Routine(IsReverse(p), false, [TargetOf("Tracer", SubMethod(p))])]
  }

  /** The two classes' advice for phase `p`, written out. */
  function TracerAdvice(p: Phase): seq<Advice> {
    [Advice(IsReverse(p), [TargetOf("AbstractTracer", BaseMethod(p))]),
     Advice(IsReverse(p), [TargetOf("Tracer", SubMethod(p))])]
  }

  lemma PlasticTracerChainIs(order: seq<Phase>, p: Phase)
    requires IsPhaseOrder(order)
    requires p == BeginRender || p == AfterRender
    ensures PlasticTracerChain(order, p) == TracerRoutines(p)
  {
    TracerGroups(order, p);
    SinglePlans("AbstractTracer", true, p, BaseMethod(p));
    SinglePlans("Tracer", false, p, SubMethod(p));
  }

  lemma AdviceTracerChainIs(order: seq<Phase>, p: Phase)
    requires IsPhaseOrder(order)
    requires p == BeginRender || p == AfterRender
    ensures AdviceTracerChain(order, p) == TracerAdvice(p)
  {
    TracerGroups(order, p);
    SinglePlans("AbstractTracer", true, p, BaseMethod(p));
    SinglePlans("Tracer", false, p, SubMethod(p));
  }

  lemma PlasticTracerLayers(order: seq<Phase>, p: Phase)
    requires IsPhaseOrder(order)
    requires p == BeginRender || p == AfterRender
    ensures RoutineLayers(PlasticTracerChain(order, p)) == TracerLayerList(p)
    ensures PlasticChain(PlasticTracerChain(order, p), IsReverse(p))
  {
    PlasticTracerChainIs(order, p);
    TracerRoutineLayers(p);
  }

  lemma AdviceTracerLayers(order: seq<Phase>, p: Phase)
    requires IsPhaseOrder(order)
    requires p == BeginRender || p == AfterRender
    ensures AdviceLayers(AdviceTracerChain(order, p)) == TracerLayerList(p)
    ensures AdviceChain(AdviceTracerChain(order, p), IsReverse(p))
  {
    AdviceTracerChainIs(order, p);
    TracerAdviceLayers(p);
  }

  lemma TracerRoutineLayers(p: Phase)
    ensures RoutineLayers(TracerRoutines(p)) == TracerLayerList(p)
    ensures PlasticChain(TracerRoutines(p), IsReverse(p))
  {
    assert RoutineLayers(TracerRoutines(p)) == TracerLayerList(p);
  }

  lemma TracerAdviceLayers(p: Phase)
    ensures AdviceLayers(TracerAdvice(p)) == TracerLayerList(p)
    ensures AdviceChain(TracerAdvice(p), IsReverse(p))
  {
    assert AdviceLayers(TracerAdvice(p)) == TracerLayerList(p);
  }

  lemma TwoLayerOrders(t0: Target, t1: Target)
    ensures ForwardOrder([[t0], [t1]]) == [t0.identifier, t1.identifier]
    ensures LeafFirstOrder([[t0], [t1]]) == [t1.identifier, t0.identifier]
  {
    var one, two := [[t0]], [[t0], [t1]];
    assert two[..1] == one && one[..0] == [];
    assert Identifiers([t0]) == [t0.identifier] && Identifiers([t1]) == [t1.identifier];
    assert ForwardOrder(one) == [t0.identifier] by {
      assert ForwardOrder(one) == ForwardOrder([]) + Identifiers([t0]);
    }
    assert LeafFirstOrder(one) == [t0.identifier] by {
      assert LeafFirstOrder(one) == Identifiers([t0]) + LeafFirstOrder([]);
    }
    assert ForwardOrder(two) == ForwardOrder(one) + Identifiers([t1]);
    assert LeafFirstOrder(two) == Identifiers([t1]) + LeafFirstOrder(one);
  }

  /** The identifiers the four tracer methods are reported under. */
  lemma TracerIdentifiers()
    ensures TargetOf("AbstractTracer", BeginMethod()).identifier == "AbstractTracer.beginRender()"
    ensures TargetOf("Tracer", TraceBeginMethod()).identifier == "Tracer.traceBegin()"
    ensures TargetOf("AbstractTracer", AfterMethod()).identifier == "AbstractTracer.afterRender()"
    ensures TargetOf("Tracer", TraceAfterMethod()).identifier == "Tracer.traceAfter()"
  {
    BaseBeginIdentifier();
    BaseAfterIdentifier();
    assert TargetOf("Tracer", TraceBeginMethod()).identifier == "Tracer.traceBegin()";
    assert TargetOf("Tracer", TraceAfterMethod()).identifier == "Tracer.traceAfter()";
  }

  lemma BaseBeginIdentifier()
    ensures TargetOf("AbstractTracer", BeginMethod()).identifier == "AbstractTracer.beginRender()"
  {
  }

  lemma BaseAfterIdentifier()
    ensures TargetOf("AbstractTracer", AfterMethod()).identifier == "AbstractTracer.afterRender()"
  {
  }

  /** `BEGIN-ABSTRACT-TRACER BEGIN-TRACER ... AFTER-TRACER AFTER-ABSTRACT-TRACER`:
      with nothing aborting, both backends run the base class's `beginRender`
      first and its `afterRender` last. */
  lemma TracerRenderPhaseOrder(order: seq<Phase>, run: string -> Effect, accepts: Value -> bool, s: EventState)
    requires IsPhaseOrder(order) && Quiet(run, accepts) && !s.aborted
    ensures Invoked(PlasticRoutine(PlasticTracerChain(order, BeginRender), run, accepts, s).trace) ==
      ["AbstractTracer.beginRender()", "Tracer.traceBegin()"]
    ensures Invoked(PlasticRoutine(PlasticTracerChain(order, AfterRender), run, accepts, s).trace) ==
      ["Tracer.traceAfter()", "AbstractTracer.afterRender()"]
    ensures Invoked(AdviceRoutine(AdviceTracerChain(order, BeginRender), run, accepts, s).trace) ==
      ["AbstractTracer.beginRender()", "Tracer.traceBegin()"]
    ensures Invoked(AdviceRoutine(AdviceTracerChain(order, AfterRender), run, accepts, s).trace) ==
      ["Tracer.traceAfter()", "AbstractTracer.afterRender()"]
  {
    TracerBegin(order, run, accepts, s);
    TracerAfter(order, run, accepts, s);
  }

  lemma TracerBegin(order: seq<Phase>, run: string -> Effect, accepts: Value -> bool, s: EventState)
    requires IsPhaseOrder(order) && Quiet(run, accepts) && !s.aborted
    ensures Invoked(PlasticRoutine(PlasticTracerChain(order, BeginRender), run, accepts, s).trace) ==
      ["AbstractTracer.beginRender()", "Tracer.traceBegin()"]
    ensures Invoked(AdviceRoutine(AdviceTracerChain(order, BeginRender), run, accepts, s).trace) ==
      ["AbstractTracer.beginRender()", "Tracer.traceBegin()"]
  {
    PlasticTracerLayers(order, BeginRender);
    AdviceTracerLayers(order, BeginRender);
    PlasticForwardHierarchyOrder(PlasticTracerChain(order, BeginRender), run, accepts, s);
    AdviceForwardHierarchyOrder(AdviceTracerChain(order, BeginRender), run, accepts, s);
    TwoLayerOrders(TargetOf("AbstractTracer", BeginMethod()), TargetOf("Tracer", TraceBeginMethod()));
    TracerIdentifiers();
  }

  lemma TracerAfter(order: seq<Phase>, run: string -> Effect, accepts: Value -> bool, s: EventState)
    requires IsPhaseOrder(order) && Quiet(run, accepts) && !s.aborted
    ensures Invoked(PlasticRoutine(PlasticTracerChain(order, AfterRender), run, accepts, s).trace) ==
      ["Tracer.traceAfter()", "AbstractTracer.afterRender()"]
    ensures Invoked(AdviceRoutine(AdviceTracerChain(order, AfterRender), run, accepts, s).trace) ==
      ["Tracer.traceAfter()", "AbstractTracer.afterRender()"]
  {
    PlasticTracerLayers(order, AfterRender);
    AdviceTracerLayers(order, AfterRender);
    PlasticReverseHierarchyOrder(PlasticTracerChain(order, AfterRender), run, accepts, s);
    AdviceReverseHierarchyOrder(AdviceTracerChain(order, AfterRender), run, accepts, s);
    TwoLayerOrders(TargetOf("AbstractTracer", AfterMethod()), TargetOf("Tracer", TraceAfterMethod()));
    TracerIdentifiers();
  }
}

/** RenderPhaseMethodWorker: the tables its initializer fills, and the steps
    that turn a component class's methods into per-phase dispatch routines
    (Plastic backend) or per-phase advice (older ClassTransformation backend).
    Each step is proved against the value definitions in RenderPhases. */
module RenderPhaseMethodWorker {
  import opened Results
  import opened RenderPhases

  /** Every method of a phase group has a valid parameter shape. */
  predicate AllValidShapes(methods: seq<MethodInfo>) {
    forall m :: m in methods ==> HasValidShape(m)
  }

  /** The part of the mutable component model this worker writes to: the set of
      render phases the component takes part in. */
  class MutableComponentModel {
    var renderPhases: set<Phase>

    constructor()
      ensures renderPhases == {}
    {
      renderPhases := {};
    }

    method AddRenderPhase(p: Phase)
      modifies this
      ensures renderPhases == old(renderPhases) + {p}
    {
      renderPhases := renderPhases + {p};
    }
  }

  /** The set half of the initializer's walk over the description table:
      every registered description is a lifecycle method.  (The walk over the
      signature table, which fills the ClassTransformation variant's set, is
      not kept: both sets hold the same eight lifecycle methods here.) */
  method CollectLifecycleMethods(order: seq<Phase>, descriptions: map<Phase, MethodDescription>)
    returns (lifecycle: set<MethodDescription>)
    requires IsPhaseOrder(order)
    requires forall p: Phase :: p in descriptions && descriptions[p] == LifecycleDescription(p)
    ensures lifecycle == LifecycleMethods()
  {
    lifecycle := {};
    for i := 0 to |order|
      invariant lifecycle == set p | p in order[..i] :: LifecycleDescription(p)
    {
      lifecycle := lifecycle + {descriptions[order[i]]};
      PrefixGrows(order, i);
    }
    assert order[..|order|] == order;
    assert forall p :: p in order <==> p in AllPhases();
  }

  /** The table half of the same walk over the description table: files each
      phase under its method name in the case-insensitive table. */
  method CollectNameTable(order: seq<Phase>, descriptions: map<Phase, MethodDescription>)
    returns (names: map<string, Phase>)
    requires IsPhaseOrder(order)
    requires forall p: Phase :: p in descriptions && descriptions[p] == LifecycleDescription(p)
    ensures names == NameTable()
  {
    names := map[];
    for i := 0 to |order|
      invariant names == TableOf(order[..i], NameKey)
    {
      var p := order[i];
      names := names[FoldCase(descriptions[p].methodName) := p];
      assert order[..i + 1][..i] == order[..i];
    }
    assert order[..|order|] == order;
    NameKeysInjective();
    TableOfOrderIrrelevant(order, AllPhases(), NameKey);
  }

  class Worker {
    /** Iteration order of the annotation-keyed hash tables (Java leaves it
        unspecified; any order of the eight phases is allowed). */
    const annotationOrder: seq<Phase>
    const annotationToDescription: map<Phase, MethodDescription>
    /** Keys are folded to lower case: a case-insensitive map. */
    const nameToAnnotation: map<string, Phase>
    const reverseAnnotations: set<Phase>
    const lifecycleMethods: set<MethodDescription>

    ghost predicate Valid() {
      && IsPhaseOrder(annotationOrder)
      && annotationToDescription == (map p | p in AllPhases() :: LifecycleDescription(p))
      && nameToAnnotation == NameTable()
      && reverseAnnotations == {AfterRenderBody, AfterRenderTemplate, AfterRender, CleanupRender}
      && lifecycleMethods == LifecycleMethods()
    }

    /** The instance initializer: registers each phase's lifecycle description,
        then walks the table to collect the lifecycle methods and the
        case-insensitive name table. */
    constructor(annotationOrder: seq<Phase>)
      requires IsPhaseOrder(annotationOrder)
      ensures this.annotationOrder == annotationOrder
      ensures Valid()
    {
      var descriptions := map[
        SetupRender := LifecycleDescription(SetupRender),
        BeginRender := LifecycleDescription(BeginRender),
        BeforeRenderTemplate := LifecycleDescription(BeforeRenderTemplate),
        BeforeRenderBody := LifecycleDescription(BeforeRenderBody),
        AfterRenderBody := LifecycleDescription(AfterRenderBody),
        AfterRenderTemplate := LifecycleDescription(AfterRenderTemplate),
        AfterRender := LifecycleDescription(AfterRender),
        CleanupRender := LifecycleDescription(CleanupRender)];
      forall p: Phase ensures p in descriptions && descriptions[p] == LifecycleDescription(p) {
        match p
        case SetupRender =>
        case BeginRender =>
        case BeforeRenderTemplate =>
        case BeforeRenderBody =>
        case AfterRenderBody =>
        case AfterRenderTemplate =>
        case AfterRender =>
        case CleanupRender =>
      }

      var lifecycle := CollectLifecycleMethods(annotationOrder, descriptions);
      var names := CollectNameTable(annotationOrder, descriptions);
      this.annotationOrder := annotationOrder;
      this.annotationToDescription := descriptions;
      this.nameToAnnotation := names;
      this.reverseAnnotations := {AfterRenderBody, AfterRenderTemplate, AfterRender, CleanupRender};
      this.lifecycleMethods := lifecycle;
    }

    /** The first annotation in table order that the method carries; failing
        that, the case-insensitive name lookup. */
    method CategorizeMethod(m: MethodInfo) returns (r: Option<Phase>)
      requires Valid()
      ensures r == Category(annotationOrder, m)
    {
      var i := 0;
      while i < |annotationOrder|
        invariant 0 <= i <= |annotationOrder|
        invariant FirstAnnotated(annotationOrder, m.annotations) == FirstAnnotated(annotationOrder[i..], m.annotations)
      {
        if RenderPhaseAnnotation(annotationOrder[i]) in m.annotations {
          return Some(annotationOrder[i]);
        }
        assert annotationOrder[i..][1..] == annotationOrder[i + 1..];
        i := i + 1;
      }
      var key := FoldCase(m.name);
      r := if key in nameToAnnotation then Some(nameToAnnotation[key]) else None;
    }

    /** The filter applied to the class's methods before categorising them. */
    predicate MatchesNotOverriddenFromBaseClass(m: MethodInfo)
      requires Valid()
      ensures MatchesNotOverriddenFromBaseClass(m) <==> IsCandidate(m)
    {
      !m.isOverride && Description(m) !in lifecycleMethods
    }

    /** Plastic variant: categorises one method and, when it has a phase,
        validates its shape and appends it to that phase's list. */
    method AddMethodToRenderPhaseCategoryMap(className: string, g: map<Phase, seq<MethodInfo>>, m: MethodInfo)
      returns (r: Result<map<Phase, seq<MethodInfo>>, WeaveError>)
      requires Valid()
      requires IsCandidate(m)
      ensures r.Err? <==> Category(annotationOrder, m).Some? && !HasValidShape(m)
      ensures r.Err? ==> r.error == InvalidRenderPhaseMethod(MethodIdentifier(className, m))
      ensures r.Ok? ==> r.value == if Selected(annotationOrder, m) then AddToMapList(g, Category(annotationOrder, m).value, m) else g
    {
      var categorized := CategorizeMethod(m);
      if categorized.Some? {
        var invalid := ValidateAsRenderPhaseMethod(className, m);
        if invalid.Some? {
          return Err(invalid.value);
        }
        return Ok(AddToMapList(g, categorized.value, m));
      }
      return Ok(g);
    }

    /** Plastic variant of the category map: every method the class declares,
        in enumeration order, filtered, categorised and validated. */
    method MapRenderPhaseAnnotationToMethods(className: string, methods: seq<MethodInfo>)
      returns (r: Result<map<Phase, seq<MethodInfo>>, WeaveError>)
      requires Valid()
      ensures r == Selection(annotationOrder, className, methods)
    {
      var g: map<Phase, seq<MethodInfo>> := map[];
      for i := 0 to |methods|
        invariant Selection(annotationOrder, className, methods[..i]) == Ok(g)
      {
        var m := methods[i];
        assert methods[..i + 1][..i] == methods[..i];
        if MatchesNotOverriddenFromBaseClass(m) {
          var step := AddMethodToRenderPhaseCategoryMap(className, g, m);
          if step.Err? {
            assert Selection(annotationOrder, className, methods[..i + 1]) == step;
            SelectionErrPersists(className, methods, i + 1);
            return step;
          }
          g := step.value;
        }
      }
      assert methods[..|methods|] == methods;
      return Ok(g);
    }

    /** Once map building has failed, enumerating more methods does not change
        the failure. */
    lemma {:induction false} SelectionErrPersists(className: string, methods: seq<MethodInfo>, k: nat)
      requires k <= |methods|
      requires Selection(annotationOrder, className, methods[..k]).Err?
      ensures Selection(annotationOrder, className, methods) == Selection(annotationOrder, className, methods[..k])
      decreases |methods| - k
    {
      if k < |methods| {
        assert methods[..k + 1][..k] == methods[..k];
        SelectionErrPersists(className, methods, k + 1);
      } else {
        assert methods[..k] == methods;
      }
    }

    /** Plastic `transform`: builds the category map, then, for each phase that
        has methods, generates the phase's dispatch routine and records the
        phase on the component model.  A refused method fails the whole
        transformation before anything is recorded. */
    method Transform(className: string, isRoot: bool, methods: seq<MethodInfo>, model: MutableComponentModel)
      returns (r: Result<map<Phase, Routine>, WeaveError>)
      requires Valid()
      modifies model
      ensures Selection(annotationOrder, className, methods).Err? ==>
        r == Err(Selection(annotationOrder, className, methods).error) && model.renderPhases == old(model.renderPhases)
      ensures Selection(annotationOrder, className, methods).Ok? ==>
        var g := Selection(annotationOrder, className, methods).value;
        && r.Ok? && r.value.Keys == g.Keys
        && (forall p :: p in g ==> r.value[p] == PlanRoutine(className, isRoot, p, g[p]))
        && model.renderPhases == old(model.renderPhases) + g.Keys
    {
      var selection := MapRenderPhaseAnnotationToMethods(className, methods);
      if selection.Err? {
        return Err(selection.error);
      }
      var routines := GenerateRoutines(className, isRoot, selection.value, model);
      return Ok(routines);
    }

    /** The routine generated for one phase: its methods in run order. */
    method GenerateRoutine(className: string, isRoot: bool, p: Phase, group: seq<MethodInfo>) returns (routine: Routine)
      requires reverseAnnotations == {AfterRenderBody, AfterRenderTemplate, AfterRender, CleanupRender}
      ensures routine == PlanRoutine(className, isRoot, p, group)
    {
      var reverse := p in reverseAnnotations;
      var ordered := if reverse then Reverse(group) else group;
      routine := Routine(reverse, isRoot, Targets(className, ordered));
    }

    /** The second half of the Plastic `transform`: visits the phases in table
        order and, for each one the category map holds, generates its routine
        and records it on the component model. */
    method GenerateRoutines(className: string, isRoot: bool, g: map<Phase, seq<MethodInfo>>, model: MutableComponentModel)
      returns (routines: map<Phase, Routine>)
      requires IsPhaseOrder(annotationOrder)
      requires reverseAnnotations == {AfterRenderBody, AfterRenderTemplate, AfterRender, CleanupRender}
      modifies model
      ensures routines.Keys == g.Keys
      ensures forall p :: p in g ==> routines[p] == PlanRoutine(className, isRoot, p, g[p])
      ensures model.renderPhases == old(model.renderPhases) + g.Keys
    {
      routines := map[];
      for i := 0 to |annotationOrder|
        invariant forall j :: 0 <= j < i && annotationOrder[j] in g ==> annotationOrder[j] in routines
        invariant forall p :: p in routines ==> p in g && routines[p] == PlanRoutine(className, isRoot, p, g[p])
        invariant model.renderPhases == old(model.renderPhases) + routines.Keys
      {
        var p := annotationOrder[i];
        if p in g {
          var routine := GenerateRoutine(className, isRoot, p, g[p]);
          routines := routines[p := routine];
          model.AddRenderPhase(p);
        }
      }
      forall p | p in g ensures p in routines {
        assert p in annotationOrder;
        var j :| 0 <= j < |annotationOrder| && annotationOrder[j] == p;
      }
    }

    /** `toInvokers`: validates each method while building the invoker list in
        group order, then reverses the list for a reverse phase. */
    method ToInvokers(className: string, methods: seq<MethodInfo>, reverse: bool)
      returns (r: Result<seq<Target>, WeaveError>)
      ensures r.Ok? <==> forall i :: 0 <= i < |methods| ==> HasValidShape(methods[i])
      ensures r.Ok? ==> r.value == if reverse then Reverse(Targets(className, methods)) else Targets(className, methods)
      ensures r.Err? ==>
        exists k :: 0 <= k < |methods| && !HasValidShape(methods[k]) &&
          (forall j :: 0 <= j < k ==> HasValidShape(methods[j])) &&
          r.error == InvalidRenderPhaseMethod(MethodIdentifier(className, methods[k]))
    {
      var result: seq<Target> := [];
      for i := 0 to |methods|
        invariant result == Targets(className, methods[..i])
        invariant forall j :: 0 <= j < i ==> HasValidShape(methods[j])
      {
        var invalid := ValidateAsRenderPhaseMethod(className, methods[i]);
        if invalid.Some? {
          return Err(invalid.value);
        }
        result := result + [TargetOf(className, methods[i])];
      }
      assert methods[..|methods|] == methods;
      if reverse {
        result := Reverse(result);
      }
      return Ok(result);
    }

    /** ClassTransformation variant of the category map: filtered and
        categorised, but no shape is checked here. */
    method MapRenderPhaseAnnotationToTransformMethods(methods: seq<MethodInfo>)
      returns (g: map<Phase, seq<MethodInfo>>)
      requires Valid()
      ensures g == Grouping(annotationOrder, methods)
    {
      g := map[];
      for i := 0 to |methods|
        invariant g == Grouping(annotationOrder, methods[..i])
      {
        var m := methods[i];
        assert methods[..i + 1][..i] == methods[..i];
        if MatchesNotOverriddenFromBaseClass(m) {
          var categorized := CategorizeMethod(m);
          if categorized.Some? {
            g := AddToMapList(g, categorized.value, m);
          }
        }
      }
      assert methods[..|methods|] == methods;
    }

    /** `createAdviceForMethods`: the reverse flag of the phase and the
        validated, ordered invokers. */
    method CreateAdviceForMethods(className: string, p: Phase, methods: seq<MethodInfo>)
      returns (r: Result<Advice, WeaveError>)
      requires reverseAnnotations == {AfterRenderBody, AfterRenderTemplate, AfterRender, CleanupRender}
      ensures r.Ok? <==> forall m :: m in methods ==> HasValidShape(m)
      ensures r.Ok? ==> r.value == PlanAdvice(className, p, methods)
      ensures r.Err? ==>
        exists k :: 0 <= k < |methods| && !HasValidShape(methods[k]) &&
          r.error == InvalidRenderPhaseMethod(MethodIdentifier(className, methods[k]))
    {
      var reverse := p in reverseAnnotations;
      var invokers := ToInvokers(className, methods, reverse);
      if invokers.Err? {
        return Err(invokers.error);
      }
      TargetsReverse(className, methods);
      return Ok(Advice(reverse, invokers.value));
    }

    /** ClassTransformation `transform`: builds the category map without
        checking shapes, then for each phase builds the invokers (checking
        shapes there), attaches the advice and records the phase.  A refused
        method stops the loop after the phases already visited were recorded. */
    method TransformWithAdvice(className: string, methods: seq<MethodInfo>, model: MutableComponentModel)
      returns (r: Result<map<Phase, Advice>, WeaveError>)
      requires Valid()
      modifies model
      ensures r.Ok? <==> forall i :: 0 <= i < |methods| ==> !Invalid(annotationOrder, methods[i])
      ensures r.Ok? ==>
        var g := Grouping(annotationOrder, methods);
        && r.value.Keys == g.Keys
        && (forall p :: p in g ==> r.value[p] == PlanAdvice(className, p, g[p]))
        && model.renderPhases == old(model.renderPhases) + g.Keys
      ensures r.Err? ==>
        && (exists i :: 0 <= i < |methods| && Invalid(annotationOrder, methods[i]) &&
             r.error == InvalidRenderPhaseMethod(MethodIdentifier(className, methods[i])))
        && model.renderPhases <= old(model.renderPhases) + Grouping(annotationOrder, methods).Keys
    {
      var g := MapRenderPhaseAnnotationToTransformMethods(methods);
      r := AttachAdvice(className, g, model);
      if r.Err? {
        var p, m :| p in g && m in g[p] && !HasValidShape(m) &&
          r.error == InvalidRenderPhaseMethod(MethodIdentifier(className, m));
        InvalidInGrouping(methods, p, m);
      } else {
        NoInvalidWhenGroupsValid(methods);
      }
    }

    /** `mapMethodsToRenderPhase` (advice backend): build the phase's advice,
        attach it and record the phase; a refused method stops before either. */
    method MapMethodsToRenderPhase(className: string, p: Phase, methods: seq<MethodInfo>, model: MutableComponentModel)
      returns (r: Result<Advice, WeaveError>)
      requires reverseAnnotations == {AfterRenderBody, AfterRenderTemplate, AfterRender, CleanupRender}
      modifies model
      ensures r.Ok? <==> AllValidShapes(methods)
      ensures r.Ok? ==> r.value == PlanAdvice(className, p, methods)
      ensures r.Ok? ==> model.renderPhases == old(model.renderPhases) + {p}
      ensures r.Err? ==>
        && (exists m :: m in methods && !HasValidShape(m) && r.error == InvalidRenderPhaseMethod(MethodIdentifier(className, m)))
        && model.renderPhases == old(model.renderPhases)
    {
      r := CreateAdviceForMethods(className, p, methods);
      if r.Err? {
        var k :| 0 <= k < |methods| && !HasValidShape(methods[k]) &&
          r.error == InvalidRenderPhaseMethod(MethodIdentifier(className, methods[k]));
        assert methods[k] in methods;
        return;
      }
      model.AddRenderPhase(p);
    }

    /** The per-phase half of the ClassTransformation `transform`: visits the
        phases in table order and, for each one the category map holds, builds
        its advice and records it on the component model, stopping at the first
        phase holding a refused method. */
    method AttachAdvice(className: string, g: map<Phase, seq<MethodInfo>>, model: MutableComponentModel)
      returns (r: Result<map<Phase, Advice>, WeaveError>)
      requires IsPhaseOrder(annotationOrder)
      requires reverseAnnotations == {AfterRenderBody, AfterRenderTemplate, AfterRender, CleanupRender}
      modifies model
      ensures r.Ok? <==> forall p :: p in g ==> AllValidShapes(g[p])
      ensures r.Ok? ==>
        && r.value.Keys == g.Keys
        && (forall p :: p in g ==> r.value[p] == PlanAdvice(className, p, g[p]))
        && model.renderPhases == old(model.renderPhases) + g.Keys
      ensures r.Err? ==>
        && (exists p, m :: p in g && m in g[p] && !HasValidShape(m) &&
             r.error == InvalidRenderPhaseMethod(MethodIdentifier(className, m)))
        && model.renderPhases <= old(model.renderPhases) + g.Keys
    {
      var advices: map<Phase, Advice> := map[];
      for i := 0 to |annotationOrder|
        invariant forall j :: 0 <= j < i && annotationOrder[j] in g ==> annotationOrder[j] in advices
        invariant forall p :: p in advices ==>
          && p in g
          && advices[p] == PlanAdvice(className, p, g[p])
          && AllValidShapes(g[p])
        invariant model.renderPhases == old(model.renderPhases) + advices.Keys
      {
        var p := annotationOrder[i];
        if p in g {
          var advice := MapMethodsToRenderPhase(className, p, g[p], model);
          if advice.Err? {
            return Err(advice.error);
          }
          advices := advices[p := advice.value];
        }
      }
      forall p | p in g ensures p in advices {
        assert p in annotationOrder;
        var j :| 0 <= j < |annotationOrder| && annotationOrder[j] == p;
      }
      return Ok(advices);
    }

    /** When every method in the category map has an accepted shape, no
        enumerated method is refused. */
    lemma NoInvalidWhenGroupsValid(methods: seq<MethodInfo>)
      requires forall p :: p in Grouping(annotationOrder, methods) ==>
        forall m :: m in Grouping(annotationOrder, methods)[p] ==> HasValidShape(m)
      ensures forall i :: 0 <= i < |methods| ==> !Invalid(annotationOrder, methods[i])
    {
      forall i | 0 <= i < |methods| ensures !Invalid(annotationOrder, methods[i]) {
        var m := methods[i];
        if Selected(annotationOrder, m) {
          EachSelectedMethodInOnePhase(annotationOrder, methods, m, Category(annotationOrder, m).value);
        }
      }
    }

    /** A refused method found in the category map was enumerated by the class. */
    lemma InvalidInGrouping(methods: seq<MethodInfo>, p: Phase, m: MethodInfo)
      requires p in Grouping(annotationOrder, methods)
      requires m in Grouping(annotationOrder, methods)[p] && !HasValidShape(m)
      ensures exists i :: 0 <= i < |methods| && Invalid(annotationOrder, methods[i]) && methods[i] == m
    {
      GroupingIsGroups(annotationOrder, methods, p);
      GroupMembership(annotationOrder, methods, p, m);
      var i :| 0 <= i < |methods| && methods[i] == m;
    }
  }
}

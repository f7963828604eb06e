# Render-phase methods and runnable contributions

A model of two pieces of Apache Tapestry 5.

**RenderPhaseMethodWorker** is the component class transformation that finds a
component's render-phase methods. A method belongs to a phase through one of
the eight render-phase annotations (`@SetupRender` … `@CleanupRender`) or,
failing that, through its name, compared to the phase's canonical name
without regard to case. The worker groups those methods per phase and
generates the phase's dispatch. Two backends are modelled:

- the Plastic backend generates a routine per phase into the lifecycle method.
  The routine calls the superclass's routine first (forward phases) or last
  (reverse phases), describes and invokes each method, and returns as soon as
  the event accepts a non-void result;
- the older ClassTransformation backend attaches `RenderPhaseMethodAdvice`.
  The advice checks the event's abort flag on entry and after every invoker,
  and always posts the return value.

A method is accepted only if it takes no parameters or a single
`MarkupWriter`. Overrides and the lifecycle methods themselves are never
candidates.

**RunnableContributionDefImpl** defines a contribution made by a module
method that returns nothing. The method is wrapped in a runnable and added to
an unordered, ordered or mapped configuration. Its parameters are resolved
when the runnable is built, and the method runs when the runnable runs.
Failures are wrapped in a contribution-method error, with a few exact
exceptions that the model states.

Files:

- `results.dfy` holds `Option` and `Result`.
- `render_phases.dfy` holds the selection rules as values: candidates,
  categories, shapes, the per-phase category map, run order, and the
  routine/advice planned for each phase.
- `render_phase_worker.dfy` holds the worker as a class. Its initializer,
  categorisation, map building and both `transform`s are methods proved
  against those values. `MutableComponentModel` records the phases.
- `render_dispatch.dfy` holds what a dispatch does at render time, as a trace
  of calls and the event state it leaves.
- `render_dispatch_runtime.dfy` holds the event as a class, and both backends
  as methods proved to produce exactly those traces and states.
- `dispatch_properties.dfy` holds the properties of the two dispatches.
- `render_phase_order.dfy` holds the render-phase ordering expected for a
  component class and its abstract base class.
- `contributions.dfy` holds the contribution definition and the three
  configurations it adds to.

Callers supply, as parameters, what the model cannot compute itself:

- the user methods' behaviour (`run`);
- the result handler's answer to `storeResult` (`accepts`);
- the iteration order of the annotation-keyed hash maps (`annotationOrder`,
  any order of the eight phases);
- parameter resolution (`Resolver`);
- reflective invocation (`Invoker`).

## Model

| member | source | states |
|---|---|---|
| RenderPhases.NameKeysDistinct | tapestry-core/src/main/java/org/apache/tapestry5/internal/transform/RenderPhaseMethodWorker.java:155-159 | no two canonical phase names are equal up to case, so the case-insensitive table loses no entry |
| RenderPhases.TableOfOrderIrrelevant | tapestry-core/src/main/java/org/apache/tapestry5/internal/transform/RenderPhaseMethodWorker.java:155-159 | filling the name table in any order of distinct keys yields the same table |
| RenderPhases.NameLookupMatches | tapestry-core/src/main/java/org/apache/tapestry5/internal/transform/RenderPhaseMethodWorker.java:122 | a name is found under a phase exactly when it equals that phase's canonical name ignoring case |
| RenderPhases.CandidateUnlessLifecycle | tapestry-core/src/main/java/org/apache/tapestry5/internal/transform/RenderPhaseMethodWorker.java:451-460 | a method is passed over exactly when it is an override or has a lifecycle method's return type, name and parameters |
| RenderPhases.FirstAnnotated | tapestry-core/src/main/java/org/apache/tapestry5/internal/transform/RenderPhaseMethodWorker.java:407-413 | the result is the first phase in table order whose annotation the method carries: no earlier phase of the order is annotated; none means it carries no phase annotation |
| RenderPhases.CategoryByAnnotation | tapestry-core/src/main/java/org/apache/tapestry5/internal/transform/RenderPhaseMethodWorker.java:409-413 | an annotated method is categorised into one of the phases it is annotated with, whatever its name |
| RenderPhases.CategoryByName | tapestry-core/src/main/java/org/apache/tapestry5/internal/transform/RenderPhaseMethodWorker.java:415 | without a phase annotation, a method is in phase p exactly when its name equals p's canonical name ignoring case |
| RenderPhases.CategoryIndependentOfOrder | tapestry-core/src/main/java/org/apache/tapestry5/internal/transform/RenderPhaseMethodWorker.java:396-405 | the hash order matters only for a method carrying two or more phase annotations |
| RenderPhases.ValidateAsRenderPhaseMethod | tapestry-core/src/main/java/org/apache/tapestry5/internal/transform/RenderPhaseMethodWorker.java:430-448 | refused exactly when the method has parameters other than a single MarkupWriter, and then names the method |
| RenderPhases.GroupMembership | tapestry-core/src/main/java/org/apache/tapestry5/internal/transform/RenderPhaseMethodWorker.java:345-357 | a method is in a phase's group exactly when it is enumerated, selected and categorised into that phase |
| RenderPhases.GroupingIsGroups | tapestry-core/src/main/java/org/apache/tapestry5/internal/transform/RenderPhaseMethodWorker.java:375-381 | the category map has a list exactly for phases with methods, each in enumeration order |
| RenderPhases.EachSelectedMethodInOnePhase | tapestry-core/src/main/java/org/apache/tapestry5/internal/transform/RenderPhaseMethodWorker.java:375-381 | every selected method is filed under its own phase and under no other |
| RenderPhases.SelectionChecksEveryShape | tapestry-core/src/main/java/org/apache/tapestry5/internal/transform/RenderPhaseMethodWorker.java:384-394 | map building with validation fails exactly when some selected method is refused, naming the first one; otherwise the map is the unchecked category map |
| RenderPhases.OrderedMethods | tapestry-core/src/main/java/org/apache/tapestry5/internal/transform/RenderPhaseMethodWorker.java:214-218 | reverse phases run the group last-declared first, forward phases in declaration order |
| RenderPhases.TargetsReverse | tapestry-core/src/main/java/org/apache/tapestry5/internal/transform/RenderPhaseMethodWorker.java:311-312 | reversing the invoker list equals building invokers from the reversed methods |
| RenderPhaseMethodWorker.CollectLifecycleMethods | tapestry-core/src/main/java/org/apache/tapestry5/internal/transform/RenderPhaseMethodWorker.java:155-158 | walking the description table yields exactly the eight lifecycle method descriptions |
| RenderPhaseMethodWorker.CollectNameTable | tapestry-core/src/main/java/org/apache/tapestry5/internal/transform/RenderPhaseMethodWorker.java:155-157 | walking the description table yields the case-insensitive name table, whatever the hash order |
| RenderPhaseMethodWorker.Worker.constructor | tapestry-core/src/main/java/org/apache/tapestry5/internal/transform/RenderPhaseMethodWorker.java:117-160 | the initializer leaves every table in its intended state |
| RenderPhaseMethodWorker.Worker.CategorizeMethod | tapestry-core/src/main/java/org/apache/tapestry5/internal/transform/RenderPhaseMethodWorker.java:407-416 | the result is the method's category: first annotation in table order, else the name lookup |
| RenderPhaseMethodWorker.Worker.MatchesNotOverriddenFromBaseClass | tapestry-core/src/main/java/org/apache/tapestry5/internal/transform/RenderPhaseMethodWorker.java:451-460 | the filter accepts exactly the candidates |
| RenderPhaseMethodWorker.Worker.AddMethodToRenderPhaseCategoryMap | tapestry-core/src/main/java/org/apache/tapestry5/internal/transform/RenderPhaseMethodWorker.java:384-394 | fails exactly for a categorised method with a refused shape; otherwise appends it to its phase's list |
| RenderPhaseMethodWorker.Worker.MapRenderPhaseAnnotationToMethods | tapestry-core/src/main/java/org/apache/tapestry5/internal/transform/RenderPhaseMethodWorker.java:360-372 | the loop computes the validated category map, failing on the first refused method |
| RenderPhaseMethodWorker.Worker.SelectionErrPersists | tapestry-core/src/main/java/org/apache/tapestry5/internal/transform/RenderPhaseMethodWorker.java:366-369 | once a method has been refused, later methods do not change the failure |
| RenderPhaseMethodWorker.Worker.Transform | tapestry-core/src/main/java/org/apache/tapestry5/internal/transform/RenderPhaseMethodWorker.java:173-184 | a refused method fails the transformation and records no phase; otherwise each phase with methods gets its planned routine and is recorded |
| RenderPhaseMethodWorker.Worker.GenerateRoutine | tapestry-core/src/main/java/org/apache/tapestry5/internal/transform/RenderPhaseMethodWorker.java:211-218 | the routine has the phase's reverse flag, the root flag, and the group's methods in run order |
| RenderPhaseMethodWorker.Worker.GenerateRoutines | tapestry-core/src/main/java/org/apache/tapestry5/internal/transform/RenderPhaseMethodWorker.java:177-182 | every phase of the category map gets its routine and is added to the component model, no other |
| RenderPhaseMethodWorker.Worker.ToInvokers | tapestry-core/src/main/java/org/apache/tapestry5/internal/transform/RenderPhaseMethodWorker.java:298-322 | fails exactly when some method is refused, naming the first; otherwise the invokers in group order, reversed for a reverse phase |
| RenderPhaseMethodWorker.Worker.MapRenderPhaseAnnotationToTransformMethods | tapestry-core/src/main/java/org/apache/tapestry5/internal/transform/RenderPhaseMethodWorker.java:345-357 | the loop computes the unchecked category map |
| RenderPhaseMethodWorker.Worker.CreateAdviceForMethods | tapestry-core/src/main/java/org/apache/tapestry5/internal/transform/RenderPhaseMethodWorker.java:289-296 | fails exactly when a method of the group is refused; otherwise the advice has the phase's reverse flag and the ordered invokers |
| RenderPhaseMethodWorker.Worker.MapMethodsToRenderPhase | tapestry-core/src/main/java/org/apache/tapestry5/internal/transform/RenderPhaseMethodWorker.java:186-196 | on success the advice is planned and the phase recorded; a refused method leaves the component model unchanged |
| RenderPhaseMethodWorker.Worker.AttachAdvice | tapestry-core/src/main/java/org/apache/tapestry5/internal/transform/RenderPhaseMethodWorker.java:167-170 | succeeds exactly when every group's shapes are accepted, attaching each phase's planned advice and recording exactly the map's phases; a failure names a refused method of the map |
| RenderPhaseMethodWorker.Worker.TransformWithAdvice | tapestry-core/src/main/java/org/apache/tapestry5/internal/transform/RenderPhaseMethodWorker.java:163-171 | succeeds exactly when no enumerated method is refused; on failure it names an enumerated refused method |
| RenderDispatchRuntime.Event.StoreResult | tapestry-core/src/main/java/org/apache/tapestry5/internal/transform/RenderPhaseMethodWorker.java:256-258 | the answer is the handler's, and an accepted result leaves the event aborted |
| RenderDispatchRuntime.InvokeMethod | tapestry-core/src/main/java/org/apache/tapestry5/internal/transform/RenderPhaseMethodWorker.java:247 | returns the method's value and leaves the event aborted if the method aborted it |
| RenderDispatchRuntime.PlasticInvokeMethod | tapestry-core/src/main/java/org/apache/tapestry5/internal/transform/RenderPhaseMethodWorker.java:228-260 | describe, invoke, and post a non-void result; it reports acceptance exactly when the result is non-void and accepted |
| RenderDispatchRuntime.PlasticInvokeMethods | tapestry-core/src/main/java/org/apache/tapestry5/internal/transform/RenderPhaseMethodWorker.java:273-276 | the generated call sequence for the own methods makes exactly the calls and leaves exactly the state of PlasticMethods |
| RenderDispatchRuntime.PlasticDispatch | tapestry-core/src/main/java/org/apache/tapestry5/internal/transform/RenderPhaseMethodWorker.java:262-284 | the generated routine over a class chain makes exactly the calls and leaves exactly the state of PlasticRoutine |
| RenderDispatchRuntime.InvokerInvoke | tapestry-core/src/main/java/org/apache/tapestry5/internal/transform/RenderPhaseMethodWorker.java:102-113 | describe, invoke, and always post the return value (null for void) |
| RenderDispatchRuntime.AdviceInvokeAll | tapestry-core/src/main/java/org/apache/tapestry5/internal/transform/RenderPhaseMethodWorker.java:75-81 | the invoker loop makes exactly the calls of AdviceInvokers and stops exactly when the event is aborted |
| RenderDispatchRuntime.Advise | tapestry-core/src/main/java/org/apache/tapestry5/internal/transform/RenderPhaseMethodWorker.java:60-87 | the advice over a class chain makes exactly the calls and leaves exactly the state of AdviceRoutine |
| DispatchProperties.PlasticMethodsIgnoreAbort | tapestry-core/src/main/java/org/apache/tapestry5/internal/transform/RenderPhaseMethodWorker.java:228-260 | the Plastic per-method calls do not depend on the abort flag: an aborting method does not stop later ones |
| DispatchProperties.PlasticMethodsStopAtFirstAccepted | tapestry-core/src/main/java/org/apache/tapestry5/internal/transform/RenderPhaseMethodWorker.java:251-258 | the methods up to and including the first accepted non-void result run, then the routine returns; with none accepted, all run |
| DispatchProperties.AdviceInvokersStopAtFirstAbort | tapestry-core/src/main/java/org/apache/tapestry5/internal/transform/RenderPhaseMethodWorker.java:75-81 | the invokers up to and including the first one after which the event is aborted run; the loop returns early exactly when the event is aborted |
| DispatchProperties.PlasticRoutineDescribesEachMethod | tapestry-core/src/main/java/org/apache/tapestry5/internal/transform/RenderPhaseMethodWorker.java:230-236 | for any class chain, each invocation is immediately preceded by describing that method |
| DispatchProperties.AdviceRoutineDescribesEachMethod | tapestry-core/src/main/java/org/apache/tapestry5/internal/transform/RenderPhaseMethodWorker.java:104 | for any class chain, each invoker describes its method immediately before invoking it |
| DispatchProperties.PlasticRootMakesNoSuperCall | tapestry-core/src/main/java/org/apache/tapestry5/internal/transform/RenderPhaseMethodWorker.java:264-281 | a root class's routine is its own methods' calls and no superclass call |
| DispatchProperties.PlasticForwardCallsSuperFirst | tapestry-core/src/main/java/org/apache/tapestry5/internal/transform/RenderPhaseMethodWorker.java:264-271 | a non-root forward routine calls the superclass first and returns right after it if the event is aborted |
| DispatchProperties.PlasticReverseCallsSuperLast | tapestry-core/src/main/java/org/apache/tapestry5/internal/transform/RenderPhaseMethodWorker.java:273-281 | a non-root reverse routine calls the superclass after its own methods, and not at all when a result was accepted |
| DispatchProperties.AdviceAbortedOnEntry | tapestry-core/src/main/java/org/apache/tapestry5/internal/transform/RenderPhaseMethodWorker.java:62-70 | with the event aborted on entry (after proceed, for a forward phase) no invoker runs and a reverse phase does not proceed |
| DispatchProperties.AdviceReverseProceedsLast | tapestry-core/src/main/java/org/apache/tapestry5/internal/transform/RenderPhaseMethodWorker.java:75-86 | in a reverse phase the invokers run before proceed, and an abort ends the advice without proceeding |
| DispatchProperties.QuietPlasticMethods | tapestry-core/src/main/java/org/apache/tapestry5/internal/transform/RenderPhaseMethodWorker.java:273-276 | when nothing aborts and nothing is accepted, every method is invoked in run order and the routine does not stop |
| DispatchProperties.QuietAdviceInvokers | tapestry-core/src/main/java/org/apache/tapestry5/internal/transform/RenderPhaseMethodWorker.java:75-81 | when nothing aborts and nothing is accepted, every invoker runs in order and the event stays unaborted |
| DispatchProperties.PlasticForwardHierarchyOrder | tapestry-core/src/main/java/org/apache/tapestry5/internal/transform/RenderPhaseMethodWorker.java:264-276 | forward phase, Plastic: the root class's methods run first and the leaf's last |
| DispatchProperties.PlasticReverseHierarchyOrder | tapestry-core/src/main/java/org/apache/tapestry5/internal/transform/RenderPhaseMethodWorker.java:273-281 | reverse phase, Plastic: the leaf class's methods run first and the root's last |
| DispatchProperties.AdviceForwardHierarchyOrder | tapestry-core/src/main/java/org/apache/tapestry5/internal/transform/RenderPhaseMethodWorker.java:62-81 | forward phase, advice: root class first |
| DispatchProperties.AdviceReverseHierarchyOrder | tapestry-core/src/main/java/org/apache/tapestry5/internal/transform/RenderPhaseMethodWorker.java:75-86 | reverse phase, advice: leaf class first |
| RenderPhaseOrder.TracerRenderPhaseOrder | tapestry-core/src/test/java/org/apache/tapestry5/integration/core/CoreBehaviorsTest.java:233-239 | for a base class with `beginRender()`/`afterRender()` found by name and a subclass whose differently named methods carry `@BeginRender`/`@AfterRender` (so neither overrides the other), both backends run the base class's method first in BeginRender and last in AfterRender |
| RunnableContributions.RunnableContributionDef.Make | tapestry-ioc/src/main/java/org/apache/tapestry5/ioc/internal/RunnableContributionDefImpl.java:47-58 | a null constraints array is stored as empty; every other argument is kept |
| RunnableContributions.RunnableContributionDef.AccessorsAnswerConstructorArguments | tapestry-ioc/src/main/java/org/apache/tapestry5/ioc/internal/RunnableContributionDefImpl.java:66-74 | isOptional and getServiceId answer the constructor's arguments |
| RunnableContributions.RunnableContributionDef.ContributionId | tapestry-ioc/src/main/java/org/apache/tapestry5/ioc/internal/RunnableContributionDefImpl.java:93-100 | the explicit id unless null or empty, else the simple class name, a dot and the method name; never empty |
| RunnableContributions.DefaultIdInjective | tapestry-ioc/src/main/java/org/apache/tapestry5/ioc/internal/RunnableContributionDefImpl.java:97 | two methods share a default id only with the same simple class name and method name |
| RunnableContributions.RunnableContributionDef.Build | tapestry-ioc/src/main/java/org/apache/tapestry5/ioc/internal/RunnableContributionDefImpl.java:102-124 | succeeds exactly when the module builder (if needed) and parameter resolution succeed; the target is null for static methods; a builder failure escapes raw; a resolution exception is wrapped, an Error is not |
| RunnableContributions.RunnableContributionDef.CreateRunnable | tapestry-ioc/src/main/java/org/apache/tapestry5/ioc/internal/RunnableContributionDefImpl.java:102-124 | the method computes exactly Build |
| RunnableContributions.ContributionRunnable.Run | tapestry-ioc/src/main/java/org/apache/tapestry5/ioc/internal/RunnableContributionDefImpl.java:126-148 | fails exactly when the invocation fails; reflection's wrapper is looked through; exceptions are wrapped naming the method, an Error raised by invoke itself is not |
| RunnableContributions.RunnableContributionDef.ContributeUnordered | tapestry-ioc/src/main/java/org/apache/tapestry5/ioc/internal/RunnableContributionDefImpl.java:76-79 | on success exactly one runnable is appended; a build failure propagates and leaves the configuration unchanged |
| RunnableContributions.RunnableContributionDef.ContributeOrdered | tapestry-ioc/src/main/java/org/apache/tapestry5/ioc/internal/RunnableContributionDefImpl.java:81-85 | on success exactly one entry with the contribution id and the constraints is appended; a failure leaves the configuration unchanged |
| RunnableContributions.RunnableContributionDef.ContributeMapped | tapestry-ioc/src/main/java/org/apache/tapestry5/ioc/internal/RunnableContributionDefImpl.java:87-91 | on success exactly one entry keyed by the contribution id is appended; a failure leaves the configuration unchanged |

## Left out

- Bytecode generation, reflection and `MethodAccess` are left out. A generated routine is described by the calls it makes.
- Exceptions thrown by render-phase methods are left out. `result.rethrow()` (RenderPhaseMethodWorker.java line 110) and a Plastic method that throws simply propagate; the model's methods return normally.
- `EventImpl` is not part of this model. `storeResult` is assumed to report through the handler's answer and to abort the event when the answer is true.
- Error message text is reduced to the method identifier. The Plastic variant formats the method with `toString()` (line 446), not the `Class.signature` identifier.
- Modifiers, generic signatures and checked exceptions are left out, in both variants. `TransformMethodSignature` and Plastic's `MethodDescription` both compare them, and the model compares only return type, name and parameter types. So a method that matches a lifecycle method in those three but differs in modifiers or exceptions is passed over by the model. For example, a non-public `void beginRender(MarkupWriter, Event)` is a candidate in the worker, is categorised by name and is refused for having two parameters (RenderPhaseMethodWorker.java lines 434-446); the model passes it over silently.
- The two annotation tables of the initializer (signatures and descriptions) share one iteration order, `annotationOrder`.
- The case-insensitive map folds ASCII letters only. Unicode case folding is not modelled.
- The ClassTransformation backend's `proceed()` is modelled as running the parent class's advised method, or nothing at the root. The default lifecycle body is not part of this model.
- Mixins, template rendering and the `BODY`/`TRACER-MIXIN` parts of the integration test's expected output are left out. The test page classes are not part of this model. `RenderPhaseOrder` reconstructs a base class that declares `beginRender()` and `afterRender()` and a subclass that declares `traceBegin()` and `traceAfter()` with the phase annotations. Giving the subclass the same signatures would make them overrides, which the worker drops.
- `toString`, `getMarkers`, `getServiceInterface` and the proxy factory of the contribution definition are left out. They hold no logic beyond returning fields.
- Ordering of contributions by their constraints is left out, because the ordered configuration sorts later.
- `MappedConfiguration` duplicate-key checks are left out; `Add` only appends. The configurations' implementations are not part of this model.
- RenderPhaseMethodWorker.Worker.AttachAdvice: on failure it states only that the recorded phases are among the category map's. It does not state that they are exactly the phases visited before the refused one in hash order.
- RenderPhaseMethodWorker.Worker.TransformWithAdvice: the same weaker statement about the phases recorded before a failure.
- An `InvocationTargetException` with a null target is left out.
- The `StartupModule3` fixture is left out.

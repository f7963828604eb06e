/** The render phases of a Tapestry component and the rules that pick a
    component's render-phase methods: which methods are candidates, which phase
    each belongs to, which parameter shapes are accepted, how the methods are
    grouped per phase and in which order each group runs.  Everything here is a
    value; RenderPhaseMethodWorker builds the same things step by step. */
module RenderPhases {
  import opened Results

  /** The eight render phases, named after their annotations. */
  datatype Phase =
    | SetupRender | BeginRender | BeforeRenderTemplate | BeforeRenderBody
    | AfterRenderBody | AfterRenderTemplate | AfterRender | CleanupRender

  /** The phases in the order the worker registers them. */
  function AllPhases(): seq<Phase> {
    [SetupRender, BeginRender, BeforeRenderTemplate, BeforeRenderBody,
     AfterRenderBody, AfterRenderTemplate, AfterRender, CleanupRender]
  }

  /** An iteration order of a hash table keyed by the phases: each phase once. */
  predicate IsPhaseOrder(order: seq<Phase>) {
    && |order| == 8
    && (forall p: Phase :: p in order)
    && (forall i, j :: 0 <= i < j < |order| ==> order[i] != order[j])
  }

  /** Reverse phases run their own methods last-declared first, and the inherited
      routine after them. */
  predicate IsReverse(p: Phase) {
    p in {AfterRenderBody, AfterRenderTemplate, AfterRender, CleanupRender}
  }

  /** The method name of each phase's dispatch method on Component. */
  function CanonicalName(p: Phase): string {
    match p
    case SetupRender => "setupRender"
    case BeginRender => "beginRender"
    case BeforeRenderTemplate => "beforeRenderTemplate"
    case BeforeRenderBody => "beforeRenderBody"
    case AfterRenderBody => "afterRenderBody"
    case AfterRenderTemplate => "afterRenderTemplate"
    case AfterRender => "afterRender"
    case CleanupRender => "cleanupRender"
  }

  const MarkupWriterType := "org.apache.tapestry5.MarkupWriter"
  const EventType := "org.apache.tapestry5.runtime.Event"

  /** Return type, name and parameter types of a method. */
  datatype MethodDescription =
    MethodDescription(returnType: string, methodName: string, argumentTypes: seq<string>)

  /** The lifecycle method a phase's dispatch routine is generated into:
      `void <canonical name>(MarkupWriter, Event)`. */
  function LifecycleDescription(p: Phase): MethodDescription {
    MethodDescription("void", CanonicalName(p), [MarkupWriterType, EventType])
  }

  function LifecycleMethods(): set<MethodDescription> {
    set p | p in AllPhases() :: LifecycleDescription(p)
  }

  // ---------------------------------------------------------------------------
  // Case-insensitive lookup of the canonical names

  function FoldChar(c: char): char {
    if 'A' <= c <= 'Z' then (c as int - 'A' as int + 'a' as int) as char else c
  }

  /** The key under which a case-insensitive map files a string. */
  function FoldCase(s: string): string {
    seq(|s|, i requires 0 <= i < |s| => FoldChar(s[i]))
  }

  predicate EqualsIgnoreCase(a: string, b: string) {
    FoldCase(a) == FoldCase(b)
  }

  function NameKey(p: Phase): string {
    FoldCase(CanonicalName(p))
  }

  /** No two canonical names are equal up to case, so the table loses no entry. */
  lemma {:induction false} NameKeysDistinct(p: Phase, q: Phase)
    ensures NameKey(p) == NameKey(q) ==> p == q
  {
    if NameKey(p) == NameKey(q) {
      var a, b := CanonicalName(p), CanonicalName(q);
      assert |a| == |NameKey(p)| && |b| == |NameKey(q)|;
      assert FoldChar(a[0]) == NameKey(p)[0] && FoldChar(b[0]) == NameKey(q)[0];
    }
  }

  /** A table filing each phase of `ps` under `key(p)`, built entry by entry
      as a hash map is filled. */
  function TableOf(ps: seq<Phase>, key: Phase -> string): map<string, Phase> {
    if |ps| == 0 then map[] else TableOf(ps[..|ps| - 1], key)[key(ps[|ps| - 1]) := ps[|ps| - 1]]
  }

  predicate Injective(key: Phase -> string) {
    forall p, q :: key(p) == key(q) ==> p == q
  }

  /** With distinct keys, every phase filed is found under its own key, and
      nothing else is in the table. */
  lemma {:induction false} TableOfContents(ps: seq<Phase>, key: Phase -> string)
    requires Injective(key)
    ensures TableOf(ps, key).Keys == set p | p in ps :: key(p)
    ensures forall p :: p in ps ==> TableOf(ps, key)[key(p)] == p
  {
    if |ps| > 0 {
      var init, last := ps[..|ps| - 1], ps[|ps| - 1];
      TableOfContents(init, key);
      assert ps == init + [last];
    }
  }

  /** With distinct keys, the order in which the phases are filed does not
      matter. */
  lemma TableOfOrderIrrelevant(a: seq<Phase>, b: seq<Phase>, key: Phase -> string)
    requires Injective(key)
    requires forall p :: p in a <==> p in b
    ensures TableOf(a, key) == TableOf(b, key)
  {
    TableOfContents(a, key);
    TableOfContents(b, key);
    assert (set p | p in a :: key(p)) == (set p | p in b :: key(p));
  }

  /** The worker's case-insensitive table from method names to phases: each
      phase filed under its folded canonical name. */
  function NameTable(): map<string, Phase> {
    TableOf(AllPhases(), NameKey)
  }

  lemma NameKeysInjective()
    ensures Injective(NameKey)
  {
    forall p, q ensures NameKey(p) == NameKey(q) ==> p == q {
      NameKeysDistinct(p, q);
    }
  }

  lemma NameTableAt(p: Phase)
    ensures NameKey(p) in NameTable() && NameTable()[NameKey(p)] == p
  {
    NameKeysInjective();
    TableOfContents(AllPhases(), NameKey);
    assert p in AllPhases();
  }

  function NameLookup(name: string): Option<Phase> {
    if FoldCase(name) in NameTable() then Some(NameTable()[FoldCase(name)]) else None
  }

  /** A name is filed under a phase exactly when it equals that phase's
      canonical name up to case. */
  lemma {:induction false} NameLookupMatches(name: string, p: Phase)
    ensures NameLookup(name) == Some(p) <==> EqualsIgnoreCase(name, CanonicalName(p))
  {
    NameTableAt(p);
    if NameLookup(name) == Some(p) {
      NameKeysInjective();
      TableOfContents(AllPhases(), NameKey);
      var q :| q in AllPhases() && NameKey(q) == FoldCase(name);
      NameTableAt(q);
    }
  }

  // ---------------------------------------------------------------------------
  // Methods of a component class

  datatype Annotation =
    | RenderPhaseAnnotation(phase: Phase)
    | OtherAnnotation(className: string)

  /** What the worker sees of one method declared on a component class.
      `shortSignature` is the method's short description, used to identify it. */
  datatype MethodInfo = MethodInfo(
    name: string,
    annotations: set<Annotation>,
    argumentTypes: seq<string>,
    returnType: string,
    isOverride: bool,
    shortSignature: string)

  function Description(m: MethodInfo): MethodDescription {
    MethodDescription(m.returnType, m.name, m.argumentTypes)
  }

  /** The identifier reported for a method: `<ClassName>.<shortSignature>`. */
  function MethodIdentifier(className: string, m: MethodInfo): string {
    className + "." + m.shortSignature
  }

  /** Methods that may become render-phase methods: not overrides, and not one
      of the eight lifecycle methods themselves. */
  predicate IsCandidate(m: MethodInfo) {
    !m.isOverride && Description(m) !in LifecycleMethods()
  }

  /** Only an override or a method with exactly a lifecycle method's return
      type, name (case included) and parameter types is passed over. */
  lemma CandidateUnlessLifecycle(m: MethodInfo)
    ensures !IsCandidate(m) <==>
      m.isOverride ||
      (m.returnType == "void" && m.argumentTypes == [MarkupWriterType, EventType] &&
       exists p: Phase :: m.name == CanonicalName(p))
  {
    if exists p: Phase :: m.name == CanonicalName(p) {
      var p: Phase :| m.name == CanonicalName(p);
      assert p in AllPhases();
    }
  }

  predicate HasPhaseAnnotation(m: MethodInfo) {
    exists p: Phase :: RenderPhaseAnnotation(p) in m.annotations
  }

  predicate AtMostOnePhaseAnnotation(m: MethodInfo) {
    forall p: Phase, q: Phase ::
      RenderPhaseAnnotation(p) in m.annotations && RenderPhaseAnnotation(q) in m.annotations ==> p == q
  }

  /** The first phase, in table order, whose annotation the method carries. */
  function FirstAnnotated(order: seq<Phase>, annotations: set<Annotation>): (r: Option<Phase>)
    ensures r.Some? ==> r.value in order && RenderPhaseAnnotation(r.value) in annotations
    ensures r.None? ==> forall p :: p in order ==> RenderPhaseAnnotation(p) !in annotations
    ensures r.Some? ==>
      exists k :: 0 <= k < |order| && order[k] == r.value &&
        (forall i :: 0 <= i < k ==> RenderPhaseAnnotation(order[i]) !in annotations)
    decreases |order|
  {
    if order == [] then None
    else if RenderPhaseAnnotation(order[0]) in annotations then Some(order[0])
    else
      var r := FirstAnnotated(order[1..], annotations);
      assert r.Some? ==>
        exists k :: 1 <= k < |order| && order[k] == r.value &&
          (forall i :: 0 <= i < k ==> RenderPhaseAnnotation(order[i]) !in annotations) by {
        if r.Some? {
          var k :| 0 <= k < |order[1..]| && order[1..][k] == r.value &&
            (forall i :: 0 <= i < k ==> RenderPhaseAnnotation(order[1..][i]) !in annotations);
          assert forall i :: 1 <= i < k + 1 ==> order[i] == order[1..][i - 1];
        }
      }
      r
  }

  /** The phase a method belongs to: by annotation first, by name otherwise. */
  function Category(order: seq<Phase>, m: MethodInfo): Option<Phase> {
    match FirstAnnotated(order, m.annotations)
    case Some(p) => Some(p)
    case None => NameLookup(m.name)
  }

  /** A method carrying a render-phase annotation belongs to one of its
      annotated phases, whatever its name. */
  lemma CategoryByAnnotation(order: seq<Phase>, m: MethodInfo)
    requires IsPhaseOrder(order)
    requires HasPhaseAnnotation(m)
    ensures Category(order, m).Some?
    ensures RenderPhaseAnnotation(Category(order, m).value) in m.annotations
  {
  }

  /** Without a render-phase annotation the name decides, up to case. */
  lemma CategoryByName(order: seq<Phase>, m: MethodInfo, p: Phase)
    requires IsPhaseOrder(order)
    requires !HasPhaseAnnotation(m)
    ensures Category(order, m) == Some(p) <==> EqualsIgnoreCase(m.name, CanonicalName(p))
  {
    NameLookupMatches(m.name, p);
  }

  /** The hash order of the annotation table matters only for a method that
      carries two or more render-phase annotations. */
  lemma CategoryIndependentOfOrder(order1: seq<Phase>, order2: seq<Phase>, m: MethodInfo)
    requires IsPhaseOrder(order1) && IsPhaseOrder(order2)
    requires AtMostOnePhaseAnnotation(m)
    ensures Category(order1, m) == Category(order2, m)
  {
  }

  // ---------------------------------------------------------------------------
  // Parameter shape

  datatype WeaveError = InvalidRenderPhaseMethod(methodIdentifier: string)

  predicate HasValidShape(m: MethodInfo) {
    |m.argumentTypes| == 0 || m.argumentTypes == [MarkupWriterType]
  }

  /** The switch on the number of parameters: none, or a single MarkupWriter
      (a single parameter of another type falls through to the error). */
  function ValidateAsRenderPhaseMethod(className: string, m: MethodInfo): (r: Option<WeaveError>)
    ensures r.None? <==> HasValidShape(m)
    ensures r.Some? ==> r.value == InvalidRenderPhaseMethod(MethodIdentifier(className, m))
  {
    var n := |m.argumentTypes|;
    if n == 0 then None
    else if n == 1 && m.argumentTypes[0] == MarkupWriterType then None
    else Some(InvalidRenderPhaseMethod(MethodIdentifier(className, m)))
  }

  // ---------------------------------------------------------------------------
  // Grouping per phase

  /** A method that is both a candidate and categorised into some phase. */
  predicate Selected(order: seq<Phase>, m: MethodInfo) {
    IsCandidate(m) && Category(order, m).Some?
  }

  /** A selected method whose parameter shape is refused. */
  predicate Invalid(order: seq<Phase>, m: MethodInfo) {
    Selected(order, m) && !HasValidShape(m)
  }

  function AddToMapList(g: map<Phase, seq<MethodInfo>>, p: Phase, m: MethodInfo): map<Phase, seq<MethodInfo>> {
    g[p := (if p in g then g[p] else []) + [m]]
  }

  /** The category map built one enumerated method at a time, without checking
      parameter shapes. */
  function Grouping(order: seq<Phase>, ms: seq<MethodInfo>): map<Phase, seq<MethodInfo>>
    decreases |ms|
  {
    if ms == [] then map[]
    else
      var g := Grouping(order, ms[..|ms| - 1]);
      var m := ms[|ms| - 1];
      if Selected(order, m) then AddToMapList(g, Category(order, m).value, m) else g
  }

  /** The category map built one enumerated method at a time, checking each
      selected method's shape as it is added: the first refused method ends it. */
  function Selection(order: seq<Phase>, className: string, ms: seq<MethodInfo>)
    : Result<map<Phase, seq<MethodInfo>>, WeaveError>
    decreases |ms|
  {
    if ms == [] then Ok(map[])
    else
      match Selection(order, className, ms[..|ms| - 1])
      case Err(e) => Err(e)
      case Ok(g) =>
        var m := ms[|ms| - 1];
        if !Selected(order, m) then Ok(g)
        else match ValidateAsRenderPhaseMethod(className, m)
          case Some(e) => Err(e)
          case None => Ok(AddToMapList(g, Category(order, m).value, m))
  }

  /** Reference definition of one phase's group: the enumerated methods of that
      phase, in enumeration order. */
  function Group(order: seq<Phase>, ms: seq<MethodInfo>, p: Phase): seq<MethodInfo>
    decreases |ms|
  {
    if ms == [] then []
    else
      var m := ms[|ms| - 1];
      Group(order, ms[..|ms| - 1], p) + (if Selected(order, m) && Category(order, m) == Some(p) then [m] else [])
  }

  lemma {:induction false} GroupMembership(order: seq<Phase>, ms: seq<MethodInfo>, p: Phase, m: MethodInfo)
    ensures m in Group(order, ms, p) <==> m in ms && Selected(order, m) && Category(order, m) == Some(p)
    decreases |ms|
  {
    if ms != [] {
      GroupMembership(order, ms[..|ms| - 1], p, m);
      assert ms == ms[..|ms| - 1] + [ms[|ms| - 1]];
    }
  }

  /** The category map has a list exactly for the phases that have methods, and
      each list is that phase's group in enumeration order. */
  lemma {:induction false} GroupingIsGroups(order: seq<Phase>, ms: seq<MethodInfo>, p: Phase)
    ensures p in Grouping(order, ms) <==> Group(order, ms, p) != []
    ensures p in Grouping(order, ms) ==> Grouping(order, ms)[p] == Group(order, ms, p)
    decreases |ms|
  {
    if ms != [] {
      GroupingIsGroups(order, ms[..|ms| - 1], p);
    }
  }

  /** Every selected method is filed under exactly one phase: its own. */
  lemma {:induction false} EachSelectedMethodInOnePhase(order: seq<Phase>, ms: seq<MethodInfo>, m: MethodInfo, q: Phase)
    requires m in ms && Selected(order, m)
    ensures Category(order, m).value in Grouping(order, ms)
    ensures m in Grouping(order, ms)[Category(order, m).value]
    ensures q in Grouping(order, ms) && m in Grouping(order, ms)[q] ==> q == Category(order, m).value
  {
    var p := Category(order, m).value;
    GroupMembership(order, ms, p, m);
    GroupMembership(order, ms, q, m);
    GroupingIsGroups(order, ms, p);
    GroupingIsGroups(order, ms, q);
  }

  /** Shape checking during map building fails exactly when some selected method
      is refused; it names the first such method; otherwise the map is the plain
      category map. */
  lemma {:induction false} SelectionChecksEveryShape(order: seq<Phase>, className: string, ms: seq<MethodInfo>)
    ensures Selection(order, className, ms).Ok? <==> forall i :: 0 <= i < |ms| ==> !Invalid(order, ms[i])
    ensures Selection(order, className, ms).Ok? ==> Selection(order, className, ms).value == Grouping(order, ms)
    ensures Selection(order, className, ms).Err? ==>
      exists k :: 0 <= k < |ms| && Invalid(order, ms[k]) &&
        (forall j :: 0 <= j < k ==> !Invalid(order, ms[j])) &&
        Selection(order, className, ms).error == InvalidRenderPhaseMethod(MethodIdentifier(className, ms[k]))
    decreases |ms|
  {
    if ms != [] {
      var init := ms[..|ms| - 1];
      SelectionChecksEveryShape(order, className, init);
      assert forall i :: 0 <= i < |init| ==> init[i] == ms[i];
      if Selection(order, className, init).Err? {
        var k :| 0 <= k < |init| && Invalid(order, init[k]) &&
          (forall j :: 0 <= j < k ==> !Invalid(order, init[j])) &&
          Selection(order, className, init).error == InvalidRenderPhaseMethod(MethodIdentifier(className, init[k]));
        assert Invalid(order, ms[k]);
      }
    }
  }

  // ---------------------------------------------------------------------------
  // Ordering and the routine to generate

  function Reverse<T>(s: seq<T>): (r: seq<T>) {
    seq(|s|, i requires 0 <= i < |s| => s[|s| - 1 - i])
  }

  /** A phase's methods in the order its dispatch routine runs them. */
  function OrderedMethods(p: Phase, group: seq<MethodInfo>): (r: seq<MethodInfo>)
    ensures |r| == |group|
    ensures forall i :: 0 <= i < |group| ==>
      r[i] == (if IsReverse(p) then group[|group| - 1 - i] else group[i])
  {
    if IsReverse(p) then Reverse(group) else group
  }

  /** What a generated dispatch routine needs to know about one method. */
  datatype Target = Target(identifier: string, takesWriter: bool, isVoid: bool)

  function TargetOf(className: string, m: MethodInfo): Target {
    Target(MethodIdentifier(className, m), |m.argumentTypes| > 0, m.returnType == "void")
  }

  function Targets(className: string, ms: seq<MethodInfo>): (r: seq<Target>)
    ensures |r| == |ms|
  {
    seq(|ms|, i requires 0 <= i < |ms| => TargetOf(className, ms[i]))
  }

  lemma TargetsReverse(className: string, ms: seq<MethodInfo>)
    ensures Targets(className, Reverse(ms)) == Reverse(Targets(className, ms))
  {
  }

  /** The dispatch routine the Plastic backend generates for one phase of one
      class: whether the phase is reversed, whether the class is the root of the
      transformed hierarchy, and the methods in the order they run. */
  datatype Routine = Routine(reverse: bool, isRoot: bool, methods: seq<Target>)

  function PlanRoutine(className: string, isRoot: bool, p: Phase, group: seq<MethodInfo>): Routine {
    Routine(IsReverse(p), isRoot, Targets(className, OrderedMethods(p, group)))
  }

  /** The advice the older backend attaches for one phase: the reverse flag and
      the invokers in the order they run. */
  datatype Advice = Advice(reverse: bool, invokers: seq<Target>)

  /** The advice attached for phase `p` to a class whose methods for it are
      `group`. */
  function PlanAdvice(className: string, p: Phase, group: seq<MethodInfo>): Advice {
    Advice(IsReverse(p), Targets(className, OrderedMethods(p, group)))
  }

  /** A prefix grown by one element. */
  lemma PrefixGrows<T>(s: seq<T>, i: int)
    requires 0 <= i < |s|
    ensures s[..i + 1] == s[..i] + [s[i]]
    ensures forall x :: x in s[..i + 1] <==> x in s[..i] || x == s[i]
  {
  }
}

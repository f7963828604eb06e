/** A contribution defined by a module method that returns nothing: the method
    is wrapped as a deferred unit (a runnable) and added to a service's
    configuration, which may be unordered, ordered or mapped.  Parameter
    resolution happens when the runnable is built; the method itself runs when
    the runnable does. */
module RunnableContributions {
  import opened Results

  /** An object reference as the runtime sees it. */
  datatype Obj = Null | Ref(handle: int)

  /** The contributor method, reduced to what this component reads of it. */
  datatype ContributorMethod = ContributorMethod(declaringClassSimpleName: string, name: string, isStatic: bool)

  /** A failure in flight.  `Thrown` is any throwable raised by other code;
      `isError` tells a `java.lang.Error` (never caught by `catch (Exception)`)
      from an exception.  `InvocationTarget` is reflection's wrapper around
      what the invoked method threw, and `ContributionMethodError` the runtime
      exception this component throws, naming the method and carrying the
      cause. */
  datatype Throwable =
    | Thrown(className: string, isError: bool)
    | InvocationTarget(target: Throwable)
    | ContributionMethodError(contributor: ContributorMethod, cause: Throwable)

  /** Whether `catch (Exception ex)` catches `t`. */
  predicate IsException(t: Throwable) {
    !(t.Thrown? && t.isError)
  }

  /** `t` is `original` itself or this component's wrapper around it. */
  predicate Carries(t: Throwable, original: Throwable) {
    t == original || (t.ContributionMethodError? && t.cause == original)
  }

  /** The failure a method raised: reflection's wrapper is looked through. */
  function Unwrapped(t: Throwable): Throwable {
    if t.InvocationTarget? then t.target else t
  }

  /** The resource types put into the injection resources. */
  datatype ResourceKey = ObjectLocatorKey | LoggerKey

  /** The service resources handed to `contribute`: they are the object
      locator themselves, and they supply the logger. */
  datatype ServiceResources = ServiceResources(locator: Obj, logger: Obj)

  /** Where the module builder instance comes from; obtaining it can fail. */
  datatype ModuleBuilderSource = ModuleBuilderSource(moduleBuilder: Result<Obj, Throwable>)

  /** Resolving the method's parameters against the injection resources and
      realizing them: the values, or the failure raised while doing so. */
  type Resolver = (ContributorMethod, map<ResourceKey, Obj>) -> Result<seq<Obj>, Throwable>

  /** Invoking the method reflectively: `None` when it returns normally. */
  type Invoker = (ContributorMethod, Obj, seq<Obj>) -> Option<Throwable>

  /** The injection resources a runnable's parameters are resolved from. */
  function InjectionResources(resources: ServiceResources): map<ResourceKey, Obj> {
    map[ObjectLocatorKey := resources.locator, LoggerKey := resources.logger]
  }

  /** The deferred unit: the method with its call target and its realized
      parameters. */
  datatype ContributionRunnable = ContributionRunnable(contributor: ContributorMethod, instance: Obj, parameters: seq<Obj>)
  {
    /** `run`: invoke the method; a failure is unwrapped from reflection's
        wrapper when it is one, and rethrown inside a contribution error; an
        `Error` raised by the invocation itself is not caught. */
    method Run(invoke: Invoker) returns (thrown: Option<Throwable>)
      ensures thrown.None? <==> invoke(contributor, instance, parameters).None?
      ensures invoke(contributor, instance, parameters).Some? ==>
        var e := invoke(contributor, instance, parameters).value;
        && Carries(thrown.value, Unwrapped(e))
        && (thrown.value == ContributionMethodError(contributor, Unwrapped(e)) <==> IsException(e))
        && (!IsException(e) ==> thrown.value == e)
    {
      var fail: Option<Throwable> := None;
      var outcome := invoke(contributor, instance, parameters);
      match outcome {
        case None =>
        case Some(InvocationTarget(target)) =>
          fail := Some(target);
        case Some(e) =>
          if IsException(e) {
            fail := Some(e);
          } else {
            return Some(e);
          }
      }
      if fail.Some? {
        return Some(ContributionMethodError(contributor, fail.value));
      }
      return None;
    }
  }

  /** An entry of an ordered configuration. */
  datatype OrderedEntry = OrderedEntry(id: string, value: ContributionRunnable, constraints: seq<string>)

  /** An entry of a mapped configuration. */
  datatype MappedEntry = MappedEntry(key: string, value: ContributionRunnable)

  /** An unordered configuration: what has been added to it, in order. */
  class Configuration {
    var added: seq<ContributionRunnable>

    constructor()
      ensures added == []
    {
      added := [];
    }

    method Add(value: ContributionRunnable)
      modifies this
      ensures added == old(added) + [value]
    {
      added := added + [value];
    }
  }

  class OrderedConfiguration {
    var added: seq<OrderedEntry>

    constructor()
      ensures added == []
    {
      added := [];
    }

    method Add(id: string, value: ContributionRunnable, constraints: seq<string>)
      modifies this
      ensures added == old(added) + [OrderedEntry(id, value, constraints)]
    {
      added := added + [OrderedEntry(id, value, constraints)];
    }
  }

  class MappedConfiguration {
    var added: seq<MappedEntry>

    constructor()
      ensures added == []
    {
      added := [];
    }

    method Add(key: string, value: ContributionRunnable)
      modifies this
      ensures added == old(added) + [MappedEntry(key, value)]
    {
      added := added + [MappedEntry(key, value)];
    }
  }

  /** The id of a contribution without an explicit one. */
  function DefaultId(m: ContributorMethod): string {
    m.declaringClassSimpleName + "." + m.name
  }

  /** In `c + "." + n` with a dot-free `c`, the dot after `c` is the first. */
  lemma DotAfterSimpleName(c: string, n: string)
    requires '.' !in c
    ensures (c + "." + n)[|c|] == '.'
    ensures forall i :: 0 <= i < |c| ==> (c + "." + n)[i] == c[i] != '.'
  {
  }

  /** Simple class names contain no dot, so two methods share a default id
      only when they have the same simple class name and method name. */
  lemma {:induction false} DefaultIdInjective(m1: ContributorMethod, m2: ContributorMethod)
    requires '.' !in m1.declaringClassSimpleName && '.' !in m2.declaringClassSimpleName
    requires DefaultId(m1) == DefaultId(m2)
    ensures m1.declaringClassSimpleName == m2.declaringClassSimpleName && m1.name == m2.name
  {
    var c1, c2, s := m1.declaringClassSimpleName, m2.declaringClassSimpleName, DefaultId(m1);
    DotAfterSimpleName(c1, m1.name);
    DotAfterSimpleName(c2, m2.name);
    if |c1| < |c2| {
      assert false;
    } else if |c2| < |c1| {
      assert false;
    }
    assert c1 == s[..|c1|] == c2;
    assert m1.name == s[|c1| + 1..] == m2.name;
  }

  /** The contribution definition.  `id` is the explicit id (`None` for Java's
      null); `constraints` has already been normalised. */
  datatype RunnableContributionDef = RunnableContributionDef(
    serviceId: string, contributor: ContributorMethod, optional: bool,
    id: Option<string>, constraints: seq<string>)
  {
    /** The constructor: a null constraints array is stored as an empty one,
        everything else as given. */
    static function Make(serviceId: string, contributor: ContributorMethod, optional: bool,
                         id: Option<string>, constraints: Option<seq<string>>): (d: RunnableContributionDef)
      ensures d.serviceId == serviceId && d.contributor == contributor && d.optional == optional && d.id == id
      ensures constraints.None? ==> d.constraints == []
      ensures constraints.Some? ==> d.constraints == constraints.value
    {
      RunnableContributionDef(serviceId, contributor, optional, id,
        match constraints case None => [] case Some(c) => c)
    }

    function IsOptional(): bool {
      optional
    }

    function ServiceId(): string {
      serviceId
    }

    /** `isOptional` and `getServiceId` answer exactly what the definition was
        constructed with. */
    static lemma AccessorsAnswerConstructorArguments(serviceId: string, contributor: ContributorMethod, optional: bool,
                                                     id: Option<string>, constraints: Option<seq<string>>)
      ensures Make(serviceId, contributor, optional, id, constraints).IsOptional() == optional
      ensures Make(serviceId, contributor, optional, id, constraints).ServiceId() == serviceId
    {
    }

    /** The explicit id unless it is null or empty, otherwise the declaring
        class's simple name, a dot and the method name. */
    function ContributionId(): (r: string)
      ensures r != ""
      ensures id.Some? && id.value != "" ==> r == id.value
      ensures id.None? || id.value == "" ==> r == DefaultId(contributor)
    {
      if id.None? || id.value == "" then DefaultId(contributor)
      else id.value
    }

    /** `createRunnable(source, resources)`, as a value: the call target is
        null for a static method and otherwise the module builder, obtained
        outside the try block so that its failure escapes as it is; an
        exception while resolving parameters is wrapped, an `Error` is not. */
    function Build(source: ModuleBuilderSource, resources: ServiceResources, resolve: Resolver)
      : (r: Result<ContributionRunnable, Throwable>)
      ensures r.Ok? <==> (contributor.isStatic || source.moduleBuilder.Ok?) && resolve(contributor, InjectionResources(resources)).Ok?
      ensures r.Ok? ==> r.value.contributor == contributor && r.value.parameters == resolve(contributor, InjectionResources(resources)).value
      ensures r.Ok? ==> r.value.instance == if contributor.isStatic then Null else source.moduleBuilder.value
      ensures !contributor.isStatic && source.moduleBuilder.Err? ==> r == Err(source.moduleBuilder.error)
      ensures (contributor.isStatic || source.moduleBuilder.Ok?) && resolve(contributor, InjectionResources(resources)).Err? ==>
        var e := resolve(contributor, InjectionResources(resources)).error;
        && Carries(r.error, e)
        && (r.error == ContributionMethodError(contributor, e) <==> IsException(e))
    {
      if !contributor.isStatic && source.moduleBuilder.Err? then Err(source.moduleBuilder.error)
      else
        var instance := if contributor.isStatic then Null else source.moduleBuilder.value;
        match resolve(contributor, InjectionResources(resources))
        case Ok(parameters) => Ok(ContributionRunnable(contributor, instance, parameters))
        case Err(e) => Err(if IsException(e) then ContributionMethodError(contributor, e) else e)
    }

    /** `createRunnable(source, resources)`: fill the resource map, select the
        target, resolve the parameters and capture them in a runnable. */
    method CreateRunnable(source: ModuleBuilderSource, resources: ServiceResources, resolve: Resolver)
      returns (r: Result<ContributionRunnable, Throwable>)
      ensures r == Build(source, resources, resolve)
    {
      var resourceMap: map<ResourceKey, Obj> := map[];
      resourceMap := resourceMap[ObjectLocatorKey := resources.locator];
      resourceMap := resourceMap[LoggerKey := resources.logger];
      var moduleInstance := Null;
      if !contributor.isStatic {
        match source.moduleBuilder {
          case Err(e) => return Err(e);
          case Ok(b) => moduleInstance := b;
        }
      }
      var parameters := resolve(contributor, resourceMap);
      match parameters {
        case Ok(ps) =>
          r := Ok(ContributionRunnable(contributor, moduleInstance, ps));
        case Err(e) =>
          r := Err(if IsException(e) then ContributionMethodError(contributor, e) else e);
      }
    }

    /** Unordered `contribute`: one runnable, no key; a build failure leaves
        the configuration as it was. */
    method ContributeUnordered(source: ModuleBuilderSource, resources: ServiceResources, resolve: Resolver,
                               configuration: Configuration) returns (thrown: Option<Throwable>)
      modifies configuration
      ensures match Build(source, resources, resolve)
        case Ok(runnable) => thrown.None? && configuration.added == old(configuration.added) + [runnable]
        case Err(e) => thrown == Some(e) && configuration.added == old(configuration.added)
    {
      var r := CreateRunnable(source, resources, resolve);
      match r {
        case Ok(runnable) =>
          configuration.Add(runnable);
          return None;
        case Err(e) =>
          return Some(e);
      }
    }

    /** Ordered `contribute`: one entry with the contribution id and the
        constraints. */
    method ContributeOrdered(source: ModuleBuilderSource, resources: ServiceResources, resolve: Resolver,
                             configuration: OrderedConfiguration) returns (thrown: Option<Throwable>)
      modifies configuration
      ensures match Build(source, resources, resolve)
        case Ok(runnable) => thrown.None? &&
          configuration.added == old(configuration.added) + [OrderedEntry(ContributionId(), runnable, constraints)]
        case Err(e) => thrown == Some(e) && configuration.added == old(configuration.added)
    {
      var r := CreateRunnable(source, resources, resolve);
      match r {
        case Ok(runnable) =>
          configuration.Add(ContributionId(), runnable, constraints);
          return None;
        case Err(e) =>
          return Some(e);
      }
    }

    /** Mapped `contribute`: one entry keyed by the contribution id. */
    method ContributeMapped(source: ModuleBuilderSource, resources: ServiceResources, resolve: Resolver,
                            configuration: MappedConfiguration) returns (thrown: Option<Throwable>)
      modifies configuration
      ensures match Build(source, resources, resolve)
        case Ok(runnable) => thrown.None? &&
          configuration.added == old(configuration.added) + [MappedEntry(ContributionId(), runnable)]
        case Err(e) => thrown == Some(e) && configuration.added == old(configuration.added)
    {
      var r := CreateRunnable(source, resources, resolve);
      match r {
        case Ok(runnable) =>
          configuration.Add(ContributionId(), runnable);
          return None;
        case Err(e) =>
          return Some(e);
      }
    }
  }
}

/** The runtime facade: `load` builds a module's loader, and an `IsolatedModule`
    hands out instances of the module's exported classes. */
module Runtime {
  import opened Lang
  import opened ModuleSpecs
  import opened Loader

  /** An object created by reflection, known by its runtime class. */
  datatype Instance = Instance(of: ClassRef)

  /** The reflective operations `getInstance` uses, which the model leaves abstract:
      running a class's no-argument constructor (`None` on success, the exception
      otherwise, e.g. no such constructor or the constructor threw) and
      `interfaceType.isInstance` for an object of a given class. */
  datatype Reflection = Reflection(
    construct: ClassRef -> Option<Throwable>,
    implements: (ClassRef, string) -> bool)

  function NotExported(className: string): Throwable {
    Throwable(IllegalArgumentException, "Class not exported: " + className, None)
  }

  function DoesNotImplement(className: string, interfaceType: string): Throwable {
    Throwable(ClassCastException, className + " does not implement " + interfaceType, None)
  }

  function CannotInstantiate(className: string, cause: Throwable): Throwable {
    Throwable(RuntimeException, "Cannot instantiate " + className, Some(cause))
  }

  function FailedToLoad(moduleName: string, cause: Throwable): Throwable {
    Throwable(RuntimeException, "Failed to load module: " + moduleName, Some(cause))
  }

  /** One `getInstance` call: its result and the loader's cache afterwards. */
  datatype Outcome = Outcome(result: Result<Instance>, cache: map<string, ClassRef>)

  /** `getInstance` as a function of the loader's cache before the call. */
  function InstanceOutcome(l: ModulaClassLoader, exported: set<string>, cache: map<string, ClassRef>,
                           className: string, interfaceType: string, reflection: Reflection): (r: Outcome)
    requires l.Aligned()
    ensures className !in exported ==> r == Outcome(Failure(NotExported(className)), cache)
    ensures className in exported ==> r.cache == l.Resolve(cache, className).cache
    ensures r.result.Success? ==>
      && className in exported
      && l.Resolve(cache, className).result == Success(r.result.value.of)
      && reflection.construct(r.result.value.of).None?
      && reflection.implements(r.result.value.of, interfaceType)
    ensures className in exported && r.result.Failure? ==>
      r.result.error.kind == RuntimeException
      && r.result.error.message == "Cannot instantiate " + className
      && r.result.error.cause.Some?
    ensures className in exported && l.Resolve(cache, className).result.Failure? ==>
      r.result == Failure(CannotInstantiate(className, l.Resolve(cache, className).result.error))
    ensures className in exported && l.Resolve(cache, className).result.Success? &&
            reflection.construct(l.Resolve(cache, className).result.value).Some? ==>
      r.result == Failure(CannotInstantiate(className, reflection.construct(l.Resolve(cache, className).result.value).value))
    ensures className in exported && l.Resolve(cache, className).result.Success? &&
            reflection.construct(l.Resolve(cache, className).result.value).None? &&
            reflection.implements(l.Resolve(cache, className).result.value, interfaceType) ==>
      r.result == Success(Instance(l.Resolve(cache, className).result.value))
  {
    if className !in exported then Outcome(Failure(NotExported(className)), cache)
    else
      var s := l.Resolve(cache, className);
      var result :=
        match s.result
        case Failure(e) => Failure(CannotInstantiate(className, e))
        case Success(c) =>
          match reflection.construct(c)
          case Some(e) => Failure(CannotInstantiate(className, e))
          case None =>
            if reflection.implements(c, interfaceType) then Success(Instance(c))
            else Failure(CannotInstantiate(className, DoesNotImplement(className, interfaceType)));
      Outcome(result, s.cache)
  }

  /** `ModulaRuntime.load`: builds the module's loader with the host's class loader as
      parent; any failure is rethrown as "Failed to load module: <name>". */
  method Load(spec: ModuleSpec, fs: FileSystem, hostClasses: set<string>) returns (r: Result<IsolatedModule>)
    ensures r.Failure? <==> !Openable(spec, fs)
    ensures r.Failure? && spec.adapterJar !in fs ==> r.error == FailedToLoad(spec.name, CannotOpenJar(spec.adapterJar))
    ensures r.Failure? && spec.adapterJar in fs ==>
      exists k :: 0 <= k < |spec.dependencyJars| && spec.dependencyJars[k] !in fs
        && (forall j :: 0 <= j < k ==> spec.dependencyJars[j] in fs)
        && r.error == FailedToLoad(spec.name, CannotOpenJar(spec.dependencyJars[k]))
    ensures r.Success? ==>
      && fresh(r.value) && fresh(r.value.loader) && fresh(r.value.loader.adapterJarFile)
      && (forall i :: 0 <= i < |r.value.loader.dependencyJarFiles| ==> fresh(r.value.loader.dependencyJarFiles[i]))
      && r.value.loader.Valid() && r.value.loader.IsOpen() && r.value.loader.loaded == map[]
      && r.value.exportedClasses == spec.exportedClasses
      && r.value.loader.parentClasses == hostClasses
      && r.value.loader.sharedPackages == NormalizeSharedPackages(spec.sharedPackages)
      && r.value.loader.adapterJarFile.path == spec.adapterJar
      && r.value.loader.adapterJarFile.entries == fs[spec.adapterJar]
      && |r.value.loader.dependencyJarFiles| == |spec.dependencyJars|
      && (forall i :: 0 <= i < |spec.dependencyJars| ==>
            r.value.loader.dependencyJarFiles[i].path == spec.dependencyJars[i]
            && r.value.loader.dependencyJarFiles[i].entries == fs[spec.dependencyJars[i]])
  {
    var loader := ModulaClassLoader.Open(spec, fs, hostClasses);
    if loader.Failure? {
      if spec.adapterJar in fs {
        var k :| 0 <= k < |spec.dependencyJars| && spec.dependencyJars[k] !in fs
          && (forall j :: 0 <= j < k ==> spec.dependencyJars[j] in fs)
          && loader.error == CannotOpenJar(spec.dependencyJars[k]);
        assert FailedToLoad(spec.name, loader.error) == FailedToLoad(spec.name, CannotOpenJar(spec.dependencyJars[k]));
      }
      return Failure(FailedToLoad(spec.name, loader.error));
    }
    var m := new IsolatedModule(loader.value, spec.exportedClasses);
    r := Success(m);
  }

  /** A module's loader owns its JAR handles: loading two modules and closing the first
      leaves the second one's JARs open, so it can still hand out instances. */
  method CloseOneOfTwoModules(a: ModuleSpec, b: ModuleSpec, fs: FileSystem, hostClasses: set<string>)
    returns (ra: Result<IsolatedModule>, rb: Result<IsolatedModule>)
    ensures ra.Success? <==> Openable(a, fs)
    ensures ra.Success? && rb.Success? ==>
      && !ra.value.loader.adapterJarFile.open
      && rb.value.loader.IsOpen() && rb.value.loader.Valid()
  {
    ra := Load(a, fs, hostClasses);
    rb := Load(b, fs, hostClasses);
    if ra.Success? {
      ra.value.loader.Close();
    }
  }

  /** A loaded module: its loader and the names external code may instantiate. */
  class IsolatedModule {
    const loader: ModulaClassLoader
    const exportedClasses: set<string>

    constructor (loader: ModulaClassLoader, exportedClasses: set<string>)
      ensures this.loader == loader && this.exportedClasses == exportedClasses
    {
      this.loader := loader;
      this.exportedClasses := exportedClasses;
    }

    /** Refuses a non-exported name before touching the loader; otherwise loads the
        class, runs its no-argument constructor and checks the requested interface,
        wrapping every failure as "Cannot instantiate <name>". */
    method GetInstance(className: string, interfaceType: string, reflection: Reflection)
      returns (r: Result<Instance>)
      requires loader.Valid() && loader.IsOpen()
      modifies loader`loaded
      ensures loader.Valid()
      ensures className !in exportedClasses ==>
        r == Failure(NotExported(className)) && loader.loaded == old(loader.loaded)
      ensures Outcome(r, loader.loaded) ==
        InstanceOutcome(loader, exportedClasses, old(loader.loaded), className, interfaceType, reflection)
    {
      if className !in exportedClasses {
        return Failure(NotExported(className));
      }
      var clazz := loader.LoadClass(className);
      if clazz.Failure? {
        return Failure(CannotInstantiate(className, clazz.error));
      }
      var thrown := reflection.construct(clazz.value);
      if thrown.Some? {
        return Failure(CannotInstantiate(className, thrown.value));
      }
      var instance := Instance(clazz.value);
      if !reflection.implements(instance.of, interfaceType) {
        return Failure(CannotInstantiate(className, DoesNotImplement(className, interfaceType)));
      }
      r := Success(instance);
    }
  }

  /** Asking again for an instance of an exported class after a success resolves the
      very same cached class and leaves the cache as it was. The constructor runs
      afresh on each call, so the second call succeeds only if that run does. */
  lemma RepeatedInstancesShareTheirClass(l: ModulaClassLoader, exported: set<string>, cache: map<string, ClassRef>,
                                         className: string, interfaceType: string,
                                         reflection: Reflection, reflection2: Reflection)
    requires l.Aligned()
    ensures var first := InstanceOutcome(l, exported, cache, className, interfaceType, reflection);
      var second := InstanceOutcome(l, exported, first.cache, className, interfaceType, reflection2);
      first.result.Success? ==>
        && second.cache == first.cache
        && l.Resolve(first.cache, className).result == Success(first.result.value.of)
        && (second.result.Success? <==>
              reflection2.construct(first.result.value.of).None?
              && reflection2.implements(first.result.value.of, interfaceType))
        && (second.result.Success? ==> second.result.value.of == first.result.value.of)
  {
    ResolveIdempotent(l, cache, className);
  }

  /** An exported class that does not implement the requested interface is refused
      with the ClassCastException, wrapped like every other failure. */
  lemma InterfaceMismatchIsWrapped(l: ModulaClassLoader, exported: set<string>, cache: map<string, ClassRef>,
                                   className: string, interfaceType: string, reflection: Reflection, c: ClassRef)
    requires l.Aligned() && className in exported
    requires l.Resolve(cache, className).result == Success(c)
    requires reflection.construct(c) == None && !reflection.implements(c, interfaceType)
    ensures InstanceOutcome(l, exported, cache, className, interfaceType, reflection).result
      == Failure(CannotInstantiate(className, DoesNotImplement(className, interfaceType)))
  {
  }

  /** A non-exported class of the adapter JAR is refused at the facade, while the same
      loader still resolves it for the module's own code. */
  lemma ExportCheckIsOnlyAtTheFacade(l: ModulaClassLoader, exported: set<string>, cache: map<string, ClassRef>,
                                     className: string, interfaceType: string, reflection: Reflection, bytes: seq<byte>)
    requires l.Aligned() && className !in cache && className !in exported
    requires !IsSharedPackage(className, l.sharedPackages)
    requires EntryPath(className) in l.adapterJarFile.entries && l.adapterJarFile.entries[EntryPath(className)] == Bytes(bytes)
    ensures InstanceOutcome(l, exported, cache, className, interfaceType, reflection).result == Failure(NotExported(className))
    ensures l.Resolve(cache, className).result == Success(ModuleClass(className, l, l.adapterCodeSource, bytes))
  {
    AdapterJarComesFirst(l, cache, className, bytes);
  }
}

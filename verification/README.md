# Modula isolation class loading, modelled in Dafny

Modula runs several modules side by side in one JVM. Each module bundles its own,
possibly conflicting, library versions. A module is described by a `ModuleSpec`:
a name, an adapter JAR, an ordered list of dependency JARs, a set of shared package
prefixes and a set of exported class names. `ModulaRuntime.load` turns a spec into an
`IsolatedModule` backed by its own `ModulaClassLoader`. `IsolatedModule.getInstance`
is the only way for host code to instantiate a class of the module.

The loader resolves a class name in this order:

1. its own cache (`findLoadedClass`);
2. the parent (host) loader, for a name whose package starts with a shared prefix;
3. the adapter JAR;
4. the dependency JARs, by index, where the first JAR holding the entry wins;
5. otherwise `ClassNotFoundException`.

The model has four modules:

- `Lang` (`lang.dfy`): `Option`, a `Result` that is a value or a thrown `Throwable`
  (exception class, message, cause).
- `ModuleSpecs` (`module_spec.dfy`): `ModuleSpec` is an immutable datatype whose
  fields are the Java getters. `Builder` is a class whose methods update its fields
  in place.
- `Loader` (`class_loader.dfy`): the name functions (package name, shared-package test,
  entry path) and the `JarFile` and `ModulaClassLoader` classes. A JAR's contents are
  a map from entry path to bytes, or to an unreadable entry. The cache is the
  `loaded` field. A defined class is a `ClassRef` value tagged with the defining
  loader and the code source of its JAR. The parent is the set of class names it
  resolves. The loader's methods are proved against two functions of the cache,
  `Resolve` (for `loadClass`) and `FindOutcome` (for `findClass`). The lemmas about
  them state the resolution properties.
- `Runtime` (`runtime.dfy`): `Load`, `IsolatedModule` and `GetInstance`.
  `GetInstance` is proved against `InstanceOutcome`. Reflection (the no-argument
  constructor and `isInstance`) is passed in as a `Reflection` value.

Where the code and its documented intent differ, the model follows the code:

- `findClass` does not check exports, although its doc comment promises a
  `SecurityException`. The only export check is in `getInstance`
  (`ExportCheckIsOnlyAtTheFacade`).
- For a shared name, `loadClass` calls the JDK's `ClassLoader.loadClass`. That method
  asks the parent first. If the parent throws `ClassNotFoundException`, it calls this
  loader's own `findClass`. So a shared class that the host lacks is defined locally,
  and its not-found exception is not rewrapped
  (`SharedNameMissingFromParentIsFoundLocally`). A shared class is answered by the
  parent only when the parent has it (`ParentAnswersSharedNames`).
- An empty module name is accepted. Only null is refused (`EmptyNameIsAccepted`).
- JARs opened before a failing one are not closed.
- The not-found message says "from module" but does not name the module.

Two things are modelled as operations of their own:

- `ModulaClassLoader.Open`: Dafny constructors cannot fail, so this static method
  runs the Java constructor's opening loop and then calls a plain constructor.
- `ModulaClassLoader.DefineClass`: the JVM's `defineClass`.

## Model

| member | source | states |
|---|---|---|
| `ModuleSpecs.Builder.constructor` | modula-core/src/main/java/dev/modula/core/ModuleSpec.java:95-106 | a new builder has a null name and adapter JAR, no dependency JARs and empty shared and exported sets |
| `ModuleSpecs.Builder.Name` | modula-core/src/main/java/dev/modula/core/ModuleSpec.java:114-117 | the name is overwritten, so the last call wins; all other builder fields are unchanged |
| `ModuleSpecs.Builder.AdapterJar` | modula-core/src/main/java/dev/modula/core/ModuleSpec.java:125-128 | the adapter JAR is overwritten, so the last call wins; all other builder fields are unchanged |
| `ModuleSpecs.Builder.DependencyJar` | modula-core/src/main/java/dev/modula/core/ModuleSpec.java:136-139 | appends exactly one path at the end, so call order and duplicates are kept; all other fields are unchanged |
| `ModuleSpecs.Builder.SharedPackages` | modula-core/src/main/java/dev/modula/core/ModuleSpec.java:147-150 | additive: the new set is the old set united with the arguments; all other fields are unchanged |
| `ModuleSpecs.Builder.ExportedClasses` | modula-core/src/main/java/dev/modula/core/ModuleSpec.java:158-161 | additive: the new set is the old set united with the arguments; all other fields are unchanged |
| `ModuleSpecs.Builder.Build` | modula-core/src/main/java/dev/modula/core/ModuleSpec.java:169-174 | fails with IllegalStateException and the fixed message iff the name is null, the adapter JAR is null or no dependency was added; otherwise the spec's fields equal the builder's contents |
| `ModuleSpecs.EmptyNameIsAccepted` | modula-core/src/main/java/dev/modula/core/ModuleSpec.java:170 | only null is refused: the empty name with an adapter and one dependency builds successfully |
| `ModuleSpecs.SpecIsDetachedFromBuilder` | modula-core/src/main/java/dev/modula/core/ModuleSpec.java:47-53 | a built spec keeps the builder's contents from the time of `build`, whatever is added to the builder afterwards |
| `Loader.LastIndexOf` | modula-core/src/main/java/dev/modula/core/ModulaClassLoader.java:156 | -1 iff the character is absent; otherwise the index holds the character and no later index does |
| `Loader.PackageName` | modula-core/src/main/java/dev/modula/core/ModulaClassLoader.java:156-157 | the package name is the longest prefix of the class name that ends with '.', or "" for a class in the default package |
| `Loader.IsSharedPackage` | modula-core/src/main/java/dev/modula/core/ModulaClassLoader.java:155-164 | a shared class has some shared prefix as a prefix of its own name; a class in the default package is shared iff "" is a shared prefix |
| `Loader.ModulaClassLoader.InSharedPackage` | modula-core/src/main/java/dev/modula/core/ModulaClassLoader.java:155-164 | the loop over the shared prefixes answers true iff some shared prefix starts the class's package name |
| `Loader.NormalizedSharingIsPlainPrefix` | modula-core/src/main/java/dev/modula/core/ModulaClassLoader.java:155-164 | with every shared prefix ending in '.', a class is shared iff some prefix is a prefix of its name, so prefixes only match whole package segments |
| `Loader.NormalizeSharedPackages` | modula-core/src/main/java/dev/modula/core/ModulaClassLoader.java:93 | every normalized shared prefix ends with '.', as the field comment promises |
| `Loader.Replace` | modula-core/src/main/java/dev/modula/core/ModulaClassLoader.java:175 | same length as the input; each occurrence of the character is replaced and every other character is kept |
| `Loader.EntryPath` | modula-core/src/main/java/dev/modula/core/ModulaClassLoader.java:175 | the entry path is the class name with no '.' left, followed by ".class" |
| `Loader.ClassNameOfEntry` | modula-core/src/main/java/dev/modula/core/ModulaClassLoader.java:175 | inverse of the entry path: defined exactly on paths ending in ".class", and the class name it gives has no '/' |
| `Loader.EntryPathRoundTrip` | modula-core/src/main/java/dev/modula/core/ModulaClassLoader.java:175 | the entry path of a class name (which has no '/') maps back to the same class name |
| `Loader.EntryPathInjective` | modula-core/src/main/java/dev/modula/core/ModulaClassLoader.java:175-176 | distinct class names are looked up under distinct JAR entries |
| `Loader.LoadClassData` | modula-core/src/main/java/dev/modula/core/ModulaClassLoader.java:174-188 | a missing entry gives "absent" (Java's null), not an error; otherwise the result is the entry's bytes or its read failure |
| `Loader.FirstHolder` | modula-core/src/main/java/dev/modula/core/ModulaClassLoader.java:138-145 | the index of the first archive holding the path: no earlier archive holds it, and the result is the archive count when none does |
| `Loader.ModulaClassLoader.Search` | modula-core/src/main/java/dev/modula/core/ModulaClassLoader.java:130-146 | nothing is found iff neither the adapter JAR nor any dependency JAR holds the entry; if the adapter JAR holds it, its bytes are found there or its read failure is reported; otherwise the lowest-index dependency JAR holding it decides in the same way, and later JARs are not consulted |
| `Loader.ModulaClassLoader.FindOutcome` | modula-core/src/main/java/dev/modula/core/ModulaClassLoader.java:130-147 | succeeds iff the search finds the class, which is then defined by this loader under its name from the found bytes and added to the cache; a read failure gives "Failed to read class: <name>" with the IOException as cause, no hit gives a plain ClassNotFoundException naming the class; failures leave the cache unchanged |
| `Loader.ModulaClassLoader.Open` | modula-core/src/main/java/dev/modula/core/ModulaClassLoader.java:74-95 | fails with "Cannot open JAR" iff some JAR cannot be opened, naming the first such JAR (adapter first, then dependencies in order); on success the dependency JARs follow the spec's list index by index, each code source belongs to the JAR at the same index, every JAR handle is a new object, the shared prefixes are normalized and the cache is empty |
| `Loader.ModulaClassLoader.DefineClass` | modula-core/src/main/java/dev/modula/core/ModulaClassLoader.java:134 | defines a class tagged with this loader and the given code source, and records it under its name, which must not be defined yet |
| `Loader.ModulaClassLoader.FindClass` | modula-core/src/main/java/dev/modula/core/ModulaClassLoader.java:130-147 | result and new cache equal `FindOutcome`; keeps the invariant that every cached class is the one the search order defines |
| `Loader.ModulaClassLoader.Resolve` | modula-core/src/main/java/dev/modula/core/ModulaClassLoader.java:98-119 | existing cache entries are never replaced; at most the requested name is added (supertype loading is outside the model, see "Left out"), and then it is the returned, locally defined class; cache soundness is kept; a success has the requested name and, if defined locally, this loader as its definer |
| `Loader.ModulaClassLoader.LoadClass` | modula-core/src/main/java/dev/modula/core/ModulaClassLoader.java:98-119 | result and new cache equal `Resolve` of the old cache (the shared test runs the `isSharedPackage` loop); the loader stays valid |
| `Loader.ModulaClassLoader.Close` | modula-core/src/main/java/dev/modula/core/ModulaClassLoader.java:191-196 | after close the adapter JAR and every dependency JAR are closed |
| `Loader.JarFile.Close` | modula-core/src/main/java/dev/modula/core/ModulaClassLoader.java:192 | the JAR is closed afterwards |
| `Loader.ResolveIdempotent` | modula-core/src/main/java/dev/modula/core/ModulaClassLoader.java:101-105 | resolving a name again after a resolution returns the same result and leaves the cache unchanged |
| `Loader.ParentAnswersSharedNames` | modula-core/src/main/java/dev/modula/core/ModulaClassLoader.java:99-110 | the host's class is returned iff the name is not cached, its package is shared and the parent has it, and the cache is then left unchanged (the cache check comes first) |
| `Loader.SharedNameMissingFromParentIsFoundLocally` | modula-core/src/main/java/dev/modula/core/ModulaClassLoader.java:108-110 | a shared name the parent lacks goes to this loader's own `findClass`, without the rewrap |
| `Loader.AdapterJarComesFirst` | modula-core/src/main/java/dev/modula/core/ModulaClassLoader.java:132-135 | a private name in the adapter JAR is defined from it with the adapter's code source, whatever the dependency JARs hold |
| `Loader.FirstDependencyWins` | modula-core/src/main/java/dev/modula/core/ModulaClassLoader.java:138-145 | otherwise the lowest-index dependency JAR holding the entry defines the class, tagged with the code source at that same index, which is the code source of that JAR's location |
| `Loader.UnreadableEntryStopsTheSearch` | modula-core/src/main/java/dev/modula/core/ModulaClassLoader.java:138-146 | an unreadable entry in the first dependency JAR holding the class fails with "Failed to read class", not rewrapped, and the cache is unchanged, whatever later JARs hold |
| `Loader.MissingPrivateNameIsNotFound` | modula-core/src/main/java/dev/modula/core/ModulaClassLoader.java:113-146 | a private name in no JAR fails with "Can't load class <name> from module", wrapping the plain ClassNotFoundException; the cache is unchanged |
| `Loader.LoadersIsolateTheirClasses` | modula-core/src/main/java/dev/modula/core/ModulaClassLoader.java:130-147 | two different loaders never return the same locally defined class, even for the same name |
| `Loader.SharedClassIsTheHostsClass` | modula-core/src/main/java/dev/modula/core/ModulaClassLoader.java:108-110 | two loaders that share a package with the same parent both return the host's own class for it |
| `Runtime.Load` | modula-core/src/main/java/dev/modula/core/ModulaRuntime.java:21-31 | fails iff some JAR cannot be opened, with "Failed to load module: <name>" wrapping "Cannot open JAR" for the adapter JAR if it is missing, else for the lowest-index missing dependency JAR; on success the module holds exactly the spec's exported set and a fresh, valid, open loader, owning new JAR handles, with an empty cache whose adapter JAR and dependency JARs (index by index) have the paths and contents the file system gives for the spec's paths |
| `Runtime.CloseOneOfTwoModules` | modula-core/src/main/java/dev/modula/core/ModulaClassLoader.java:79-85 | each loader opens JAR handles of its own: after loading two modules and closing the first, the second loader is still open and valid |
| `Runtime.InstanceOutcome` | modula-core/src/main/java/dev/modula/core/ModulaRuntime.java:60-75 | a non-exported name fails with IllegalArgumentException and the cache untouched; an exported class that resolves, constructs and implements the interface yields exactly its instance, and every success is of that kind; every later failure is "Cannot instantiate <name>", whose cause is exactly the loader's or the constructor's exception |
| `Runtime.IsolatedModule.constructor` | modula-core/src/main/java/dev/modula/core/ModulaRuntime.java:41-44 | the module keeps the given loader and exported set |
| `Runtime.IsolatedModule.GetInstance` | modula-core/src/main/java/dev/modula/core/ModulaRuntime.java:60-75 | refuses a non-exported name before the loader is touched; otherwise the result and new cache equal `InstanceOutcome`; the loader stays valid |
| `Runtime.RepeatedInstancesShareTheirClass` | modula-core/src/main/java/dev/modula/core/ModulaRuntime.java:65-73 | after one success, a second call resolves the same cached class and leaves the cache unchanged; it succeeds, with that same class, iff the constructor run on that call completes and the class implements the interface |
| `Runtime.InterfaceMismatchIsWrapped` | modula-core/src/main/java/dev/modula/core/ModulaRuntime.java:68-73 | a class that does not implement the interface fails with "Cannot instantiate" wrapping "<name> does not implement <interface>" |
| `Runtime.ExportCheckIsOnlyAtTheFacade` | modula-core/src/main/java/dev/modula/core/ModulaRuntime.java:61-63 | an adapter class that is not exported is refused by `getInstance`, yet the loader still resolves it from the adapter JAR |

## Left out

- Loader.ModulaClassLoader.Resolve: "at most the requested name is added to the cache" holds only in the model. In the JVM, `defineClass` also loads the new class's superclass and interfaces through this same loader, re-entering `loadClass`, so one call can cache several names. Supertype loading during definition is not modelled.
- Runtime.InstanceOutcome: the cache after `getInstance` is the cache after `loadClass`. In the JVM, `newInstance()` also initialises the class and runs its constructor, which can load further classes through this same loader; class loading triggered by the constructor is not modelled.
- JVM class definition: `defineClass` always succeeds in the model. Errors such as `ClassFormatError`, `LinkageError` or the `SecurityException` for `java.*` names are not modelled. Neither are `ProtectionDomain`, `resolveClass` or the `resolve` flag.
- JAR I/O: `JarFile` is opened from a map of existing files, and the 8192-byte read loop is replaced by the entry's bytes. An unreadable entry stands for the `IOException`.
- URLs: a code source is the JAR's path. `toUri().toURL()` and its `MalformedURLException` are not modelled.
- Concurrency: the per-name lock of `getClassLoadingLock` is left out. The model is single-threaded, and "at most one definition per name" is the requirement of `DefineClass` together with the cache invariant.
- The parent loader is the set of class names it resolves. The JDK's delegation around it (parent first, then `findClass`) is modelled. The parent's own loading is not.
- NormalizeSharedPackages: the real `ClassLoaderUtil.normalizeSharedPackages` is not part of this model. The stand-in appends '.' to a prefix that lacks one, and nothing proved relies on more than its stated guarantee that every prefix ends with '.'.
- `ClassLoaderUtil.getJarPath` (reflection plus `File`) is not modelled.
- A null argument other than the name or the adapter JAR is not modelled (`dependencyJar(null)`, a null varargs array or null strings in it).
- The builder methods' `return this` (call chaining) is not modelled.
- Reflection: the no-argument constructor and `isInstance` are abstract functions. Instances are known by their class, so object identity of instances is not modelled. Errors that escape `catch (Exception e)`, such as `ExceptionInInitializerError`, are not modelled.
- Using the loader after `close` is a precondition (`IsOpen`), not the JDK's "zip file closed" exception. An `IOException` from `close` is not modelled.
- Spring Boot glue (auto-configuration, properties, the module manager's map lookup) and the demo and sample modules are not modelled.


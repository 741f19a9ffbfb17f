/** The isolating class loader: one per module. It answers a class name from its
    cache, from the parent loader (shared packages), from its adapter JAR, or from
    its dependency JARs in declaration order. JARs are maps from entry path to
    contents, the JVM's class definition is a `ClassRef` value tagged with the
    defining loader and the code source of the JAR it came from. */
module Loader {
  import opened Lang
  import opened ModuleSpecs

  type byte = bv8

  /** The contents of one JAR entry: its bytes, or an entry whose read fails
      with an IOException carrying `reason`. */
  datatype Entry = Bytes(data: seq<byte>) | Unreadable(reason: string)

  /** A JAR's entries by path. */
  type Archive = map<string, Entry>

  /** The JAR files that exist and can be opened, by path. */
  type FileSystem = map<Path, Archive>

  /** The origin record attached to every class this loader defines. */
  datatype CodeSource = CodeSource(location: Path)

  /** Which of the loader's JARs a class was found in. */
  datatype Origin = Adapter | Dependency(index: nat)

  /** What reading one class from one JAR gives: no such entry (Java's null),
      the bytes, or a read failure. */
  datatype ClassData = Absent | Data(bytes: seq<byte>) | ReadError(reason: string)

  /** The outcome of searching all of the loader's JARs for a class. */
  datatype Lookup = Found(bytes: seq<byte>, origin: Origin) | NotFound | ReadFailed(reason: string)

  /** A class as `loadClass` returns it: one the parent loader supplies, or one that
      a module loader defined from JAR bytes. */
  datatype ClassRef =
    | HostClass(name: string)
    | ModuleClass(name: string, definer: ModulaClassLoader, codeSource: CodeSource, bytes: seq<byte>)

  /** One resolution: what `loadClass` returns or throws, and the loader's cache afterwards. */
  datatype Step = Step(result: Result<ClassRef>, cache: map<string, ClassRef>)

  // ---------------------------------------------------------------------------
  // Class names, package names and JAR entry paths

  predicate EndsWithDot(s: string) {
    |s| > 0 && s[|s| - 1] == '.'
  }

  /** `String.lastIndexOf(char)`: -1 when absent. */
  function LastIndexOf(s: string, c: char): (r: int)
    ensures -1 <= r < |s|
    ensures r == -1 <==> c !in s
    ensures r >= 0 ==> s[r] == c && c !in s[r + 1..]
  {
    if |s| == 0 then -1
    else if s[|s| - 1] == c then |s| - 1
    else
      var init := s[..|s| - 1];
      var k := LastIndexOf(init, c);
      assert s == init + [s[|s| - 1]];
      assert c in s <==> c in init;
      assert k >= 0 ==> s[k + 1..] == init[k + 1..] + [s[|s| - 1]];
      k
  }

  /** The package of a class with a trailing '.', or "" in the default package:
      the longest prefix of the class name that ends with '.'. */
  function PackageName(className: string): (r: string)
    ensures |r| <= |className| && r == className[..|r|]
    ensures r == "" || EndsWithDot(r)
    ensures '.' !in className[|r|..]
  {
    var lastDot := LastIndexOf(className, '.');
    if lastDot == -1 then "" else className[..lastDot] + "."
  }

  /** Whether some shared prefix is a prefix of the class's package name. A class in
      the default package has the package "", which only the prefix "" matches. */
  predicate IsSharedPackage(className: string, sharedPackages: set<string>)
    ensures IsSharedPackage(className, sharedPackages) ==> exists p :: p in sharedPackages && p <= className
    ensures '.' !in className ==> (IsSharedPackage(className, sharedPackages) <==> "" in sharedPackages)
  {
    exists p :: p in sharedPackages && p <= PackageName(className)
  }

  /** `String.replace(char, char)`. */
  function Replace(s: string, from: char, to: char): (r: string)
    ensures |r| == |s|
    ensures forall i :: 0 <= i < |s| ==> r[i] == if s[i] == from then to else s[i]
  {
    if s == [] then [] else [if s[0] == from then to else s[0]] + Replace(s[1..], from, to)
  }

  /** The JAR entry that holds a class: dots become slashes, then ".class". */
  function EntryPath(className: string): (r: string)
    ensures |r| == |className| + 6 && r[|className|..] == ".class"
    ensures '.' !in r[..|className|]
  {
    Replace(className, '.', '/') + ".class"
  }

  /** The class name stored under an entry path, if the path names a class file. */
  function ClassNameOfEntry(path: string): (r: Option<string>)
    ensures r.Some? <==> |path| >= 6 && path[|path| - 6..] == ".class"
    ensures r.Some? ==> '/' !in r.value
  {
    if |path| >= 6 && path[|path| - 6..] == ".class" then Some(Replace(path[..|path| - 6], '/', '.'))
    else None
  }

  /** `loadClassData`: a missing entry means "not in this JAR", not an error. */
  function LoadClassData(entries: Archive, className: string): (r: ClassData)
    ensures r.Absent? <==> EntryPath(className) !in entries
    ensures r.Data? ==> entries[EntryPath(className)] == Bytes(r.bytes)
    ensures r.ReadError? ==> entries[EntryPath(className)] == Unreadable(r.reason)
  {
    var path := EntryPath(className);
    if path !in entries then Absent
    else match entries[path]
      case Bytes(data) => Data(data)
      case Unreadable(reason) => ReadError(reason)
  }

  /** The index of the first archive holding `path`, or `|archives|` if none does. */
  function FirstHolder(archives: seq<Archive>, path: string): (r: nat)
    ensures r <= |archives|
    ensures forall j :: 0 <= j < r ==> path !in archives[j]
    ensures r < |archives| ==> path in archives[r]
  {
    if archives == [] then 0
    else if path in archives[0] then 0
    else
      var k := FirstHolder(archives[1..], path);
      assert forall j :: 1 <= j < k + 1 ==> archives[j] == archives[1..][j - 1];
      1 + k
  }

  /** Stand-in for ClassLoaderUtil.normalizeSharedPackages, whose body is not part of
      this model: what the loader relies on is that every prefix ends with '.'. */
  function NormalizeSharedPackages(packages: set<string>): (r: set<string>)
    ensures forall p :: p in r ==> EndsWithDot(p)
  {
    set p | p in packages :: if EndsWithDot(p) then p else p + "."
  }

  /** Every file a spec names exists and opens as a JAR. */
  predicate Openable(spec: ModuleSpec, fs: FileSystem) {
    spec.adapterJar in fs && forall p :: p in spec.dependencyJars ==> p in fs
  }

  /** The exception `new JarFile(path)` throws for a missing or unreadable file. */
  function OpenFailure(path: Path): Throwable {
    Throwable(IOException, path, None)
  }

  /** What the loader's constructor throws when a JAR cannot be opened. */
  function CannotOpenJar(path: Path): Throwable {
    Throwable(RuntimeException, "Cannot open JAR", Some(OpenFailure(path)))
  }

  /** What `loadClassData` throws when an entry exists but cannot be read. */
  function ReadFailure(className: string, reason: string): Throwable {
    Throwable(RuntimeException, "Failed to read class: " + className, Some(Throwable(IOException, reason, None)))
  }

  /** The rewrapped ClassNotFoundException of `loadClass` for a private name. */
  function ModuleNotFound(className: string, cause: Throwable): Throwable {
    Throwable(ClassNotFoundException, "Can't load class " + className + " from module", Some(cause))
  }

  /** What one JAR contributes to a search: found (with the JAR it came from),
      a read failure, or nothing. */
  function Located(data: ClassData, origin: Origin): Lookup {
    match data
    case Data(bytes) => Found(bytes, origin)
    case ReadError(reason) => ReadFailed(reason)
    case Absent => NotFound
  }

  // ---------------------------------------------------------------------------
  // JAR files and the loader

  /** An open JAR file. Its entries never change; `close` releases it. */
  class JarFile {
    const path: Path
    const entries: Archive
    var open: bool

    constructor (path: Path, entries: Archive)
      ensures this.path == path && this.entries == entries && open
    {
      this.path := path;
      this.entries := entries;
      open := true;
    }

    method Close()
      modifies this
      ensures !open
    {
      open := false;
    }
  }

  class ModulaClassLoader {
    const adapterJarFile: JarFile
    const adapterCodeSource: CodeSource
    const dependencyJarFiles: seq<JarFile>
    const dependencyCodeSources: seq<CodeSource>
    /** Normalized shared package prefixes. */
    const sharedPackages: set<string>
    const exportedClasses: set<string>
    /** The parent loader, as the set of class names it resolves. */
    const parentClasses: set<string>
    /** `findLoadedClass`: the classes this loader has defined, by name. */
    var loaded: map<string, ClassRef>

    /** Each JAR has the code source of its own location, dependency JAR `i`
        and code source `i` belong together. */
    predicate Aligned() {
      && adapterCodeSource == CodeSource(adapterJarFile.path)
      && |dependencyCodeSources| == |dependencyJarFiles|
      && forall i :: 0 <= i < |dependencyJarFiles| ==>
           dependencyCodeSources[i] == CodeSource(dependencyJarFiles[i].path)
    }

    ghost predicate Valid()
      reads this
    {
      && Aligned()
      && (forall p :: p in sharedPackages ==> EndsWithDot(p))
      && CacheSound(loaded)
    }

    /** All JAR handles are still open (use after `close` is a caller error). */
    predicate IsOpen()
      reads adapterJarFile, dependencyJarFiles
    {
      adapterJarFile.open && forall j :: 0 <= j < |dependencyJarFiles| ==> dependencyJarFiles[j].open
    }

    function DependencyArchives(): (r: seq<Archive>)
      ensures |r| == |dependencyJarFiles|
      ensures forall i :: 0 <= i < |r| ==> r[i] == dependencyJarFiles[i].entries
    {
      seq(|dependencyJarFiles|, i requires 0 <= i < |dependencyJarFiles| => dependencyJarFiles[i].entries)
    }

    /** Where the JARs hold `className`: the adapter JAR if it has the entry,
        else the first dependency JAR that has it. */
    function Search(className: string): (r: Lookup)
      ensures r.NotFound? <==>
        EntryPath(className) !in adapterJarFile.entries
        && forall j :: 0 <= j < |dependencyJarFiles| ==> EntryPath(className) !in dependencyJarFiles[j].entries
      ensures r.Found? && r.origin.Adapter? ==>
        EntryPath(className) in adapterJarFile.entries && adapterJarFile.entries[EntryPath(className)] == Bytes(r.bytes)
      ensures r.Found? && r.origin.Dependency? ==>
        && r.origin.index < |dependencyJarFiles|
        && EntryPath(className) !in adapterJarFile.entries
        && (forall j :: 0 <= j < r.origin.index ==> EntryPath(className) !in dependencyJarFiles[j].entries)
        && EntryPath(className) in dependencyJarFiles[r.origin.index].entries
        && dependencyJarFiles[r.origin.index].entries[EntryPath(className)] == Bytes(r.bytes)
      ensures EntryPath(className) in adapterJarFile.entries ==>
        match adapterJarFile.entries[EntryPath(className)]
        case Bytes(data) => r == Found(data, Adapter)
        case Unreadable(reason) => r == ReadFailed(reason)
      ensures forall i ::
        (0 <= i < |dependencyJarFiles| && EntryPath(className) !in adapterJarFile.entries
         && EntryPath(className) in dependencyJarFiles[i].entries
         && (forall j :: 0 <= j < i ==> EntryPath(className) !in dependencyJarFiles[j].entries)) ==>
        match dependencyJarFiles[i].entries[EntryPath(className)]
        case Bytes(data) => r == Found(data, Dependency(i))
        case Unreadable(reason) => r == ReadFailed(reason)
    {
      var path := EntryPath(className);
      if path in adapterJarFile.entries then
        Located(LoadClassData(adapterJarFile.entries, className), Adapter)
      else
        var i := FirstHolder(DependencyArchives(), path);
        if i < |dependencyJarFiles| then
          Located(LoadClassData(dependencyJarFiles[i].entries, className), Dependency(i))
        else NotFound
    }

    function CodeSourceOf(origin: Origin): CodeSource
      requires Aligned()
      requires origin.Dependency? ==> origin.index < |dependencyJarFiles|
    {
      match origin
      case Adapter => adapterCodeSource
      case Dependency(i) => dependencyCodeSources[i]
    }

    /** The class this loader defines for `className`. */
    function DefinedClass(className: string): ClassRef
      requires Aligned() && Search(className).Found?
    {
      var hit := Search(className);
      ModuleClass(className, this, CodeSourceOf(hit.origin), hit.bytes)
    }

    /** Every cached class is exactly the one the JARs' search order defines. */
    predicate CacheSound(cache: map<string, ClassRef>)
      requires Aligned()
    {
      forall n :: n in cache ==> Search(n).Found? && cache[n] == DefinedClass(n)
    }

    /** `findClass` as a function of the cache before the call. */
    function FindOutcome(cache: map<string, ClassRef>, className: string): (r: Step)
      requires Aligned()
      ensures r.result.Success? <==> Search(className).Found?
      ensures r.result.Success? ==>
        && r.result.value.ModuleClass? && r.result.value.name == className && r.result.value.definer == this
        && r.result.value.bytes == Search(className).bytes
        && r.cache == cache[className := r.result.value]
      ensures r.result.Failure? ==> r.cache == cache
      ensures Search(className).ReadFailed? ==>
        r.result.error == Throwable(RuntimeException, "Failed to read class: " + className,
                                    Some(Throwable(IOException, Search(className).reason, None)))
      ensures Search(className).NotFound? ==> r.result.error == Throwable(ClassNotFoundException, className, None)
    {
      match Search(className)
      case Found(_, _) =>
        var c := DefinedClass(className);
        Step(Success(c), cache[className := c])
      case ReadFailed(reason) => Step(Failure(ReadFailure(className, reason)), cache)
      case NotFound => Step(Failure(Throwable(ClassNotFoundException, className, None)), cache)
    }

    /** `loadClass` as a function of the cache before the call. A shared name goes
        through the JDK's `ClassLoader.loadClass`: the parent first and, if the parent
        does not have it, this loader's `findClass` (without the rewrapping). */
    function Resolve(cache: map<string, ClassRef>, className: string): (r: Step)
      requires Aligned()
      ensures forall n :: n in cache ==> n in r.cache && r.cache[n] == cache[n]
      ensures r.cache.Keys <= cache.Keys + {className}
      ensures className !in cache && className in r.cache ==>
        Search(className).Found? && r.result == Success(r.cache[className]) && r.cache[className] == DefinedClass(className)
      ensures CacheSound(cache) ==> CacheSound(r.cache)
      ensures CacheSound(cache) && r.result.Success? ==> r.result.value.name == className
      ensures CacheSound(cache) && r.result.Success? && r.result.value.ModuleClass? ==> r.result.value.definer == this
    {
      if className in cache then Step(Success(cache[className]), cache)
      else if IsSharedPackage(className, sharedPackages) then
        if className in parentClasses then Step(Success(HostClass(className)), cache)
        else FindOutcome(cache, className)
      else
        var s := FindOutcome(cache, className);
        if s.result.Failure? && s.result.error.kind == ClassNotFoundException
        then Step(Failure(ModuleNotFound(className, s.result.error)), s.cache)
        else s
    }

    constructor (adapterJarFile: JarFile, adapterCodeSource: CodeSource,
                 dependencyJarFiles: seq<JarFile>, dependencyCodeSources: seq<CodeSource>,
                 sharedPackages: set<string>, exportedClasses: set<string>, parentClasses: set<string>)
      ensures this.adapterJarFile == adapterJarFile && this.adapterCodeSource == adapterCodeSource
      ensures this.dependencyJarFiles == dependencyJarFiles && this.dependencyCodeSources == dependencyCodeSources
      ensures this.sharedPackages == sharedPackages && this.exportedClasses == exportedClasses
      ensures this.parentClasses == parentClasses && loaded == map[]
    {
      this.adapterJarFile := adapterJarFile;
      this.adapterCodeSource := adapterCodeSource;
      this.dependencyJarFiles := dependencyJarFiles;
      this.dependencyCodeSources := dependencyCodeSources;
      this.sharedPackages := sharedPackages;
      this.exportedClasses := exportedClasses;
      this.parentClasses := parentClasses;
      loaded := map[];
    }

    /** `new ModulaClassLoader(spec, parent)`: opens the adapter JAR, then each
        dependency JAR in order, pairing each with the code source of its location.
        Any JAR that cannot be opened aborts with "Cannot open JAR". */
    static method Open(spec: ModuleSpec, fs: FileSystem, parentClasses: set<string>)
      returns (r: Result<ModulaClassLoader>)
      ensures r.Failure? <==> !Openable(spec, fs)
      ensures r.Failure? && spec.adapterJar !in fs ==> r.error == CannotOpenJar(spec.adapterJar)
      ensures r.Failure? && spec.adapterJar in fs ==>
        exists k :: 0 <= k < |spec.dependencyJars| && spec.dependencyJars[k] !in fs
          && (forall j :: 0 <= j < k ==> spec.dependencyJars[j] in fs)
          && r.error == CannotOpenJar(spec.dependencyJars[k])
      ensures r.Success? ==>
        && fresh(r.value) && r.value.Valid() && r.value.IsOpen() && r.value.loaded == map[]
        && fresh(r.value.adapterJarFile)
        && (forall i :: 0 <= i < |r.value.dependencyJarFiles| ==> fresh(r.value.dependencyJarFiles[i]))
        && r.value.adapterJarFile.path == spec.adapterJar
        && r.value.adapterJarFile.entries == fs[spec.adapterJar]
        && |r.value.dependencyJarFiles| == |spec.dependencyJars|
        && (forall i :: 0 <= i < |spec.dependencyJars| ==>
              r.value.dependencyJarFiles[i].path == spec.dependencyJars[i]
              && r.value.dependencyJarFiles[i].entries == fs[spec.dependencyJars[i]])
        && r.value.sharedPackages == NormalizeSharedPackages(spec.sharedPackages)
        && r.value.exportedClasses == spec.exportedClasses
        && r.value.parentClasses == parentClasses
    {
      if spec.adapterJar !in fs {
        return Failure(CannotOpenJar(spec.adapterJar));
      }
      var adapterJarFile := new JarFile(spec.adapterJar, fs[spec.adapterJar]);
      var adapterCodeSource := CodeSource(spec.adapterJar);
      var jars: seq<JarFile> := [];
      var sources: seq<CodeSource> := [];
      for i := 0 to |spec.dependencyJars|
        invariant |jars| == i && |sources| == i
        invariant adapterJarFile.open
        invariant forall j :: 0 <= j < i ==>
          && spec.dependencyJars[j] in fs
          && jars[j].path == spec.dependencyJars[j]
          && jars[j].entries == fs[spec.dependencyJars[j]]
          && jars[j].open
          && fresh(jars[j])
          && sources[j] == CodeSource(spec.dependencyJars[j])
      {
        var dep := spec.dependencyJars[i];
        if dep !in fs {
          return Failure(CannotOpenJar(dep));
        }
        var jar := new JarFile(dep, fs[dep]);
        jars := jars + [jar];
        sources := sources + [CodeSource(dep)];
      }
      var loader := new ModulaClassLoader(adapterJarFile, adapterCodeSource, jars, sources,
                                          NormalizeSharedPackages(spec.sharedPackages),
                                          spec.exportedClasses, parentClasses);
      r := Success(loader);
    }

    /** The JVM's `defineClass`: records a new class for a name not yet defined here. */
    method DefineClass(name: string, bytes: seq<byte>, codeSource: CodeSource) returns (c: ClassRef)
      requires name !in loaded
      modifies this`loaded
      ensures c == ModuleClass(name, this, codeSource, bytes)
      ensures loaded == old(loaded)[name := c]
    {
      c := ModuleClass(name, this, codeSource, bytes);
      loaded := loaded[name := c];
    }

    /** `findClass`: the adapter JAR first, then the dependency JARs by index; the
        first JAR holding the entry defines the class with its own code source. */
    method FindClass(name: string) returns (r: Result<ClassRef>)
      requires Valid() && IsOpen() && name !in loaded
      modifies this`loaded
      ensures Valid()
      ensures Step(r, loaded) == FindOutcome(old(loaded), name)
    {
      var bytes := LoadClassData(adapterJarFile.entries, name);
      if bytes.ReadError? {
        return Failure(ReadFailure(name, bytes.reason));
      }
      if bytes.Data? {
        var c := DefineClass(name, bytes.bytes, adapterCodeSource);
        return Success(c);
      }
      var path := EntryPath(name);
      var i := 0;
      while i < |dependencyJarFiles|
        invariant 0 <= i <= |dependencyJarFiles|
        invariant forall j :: 0 <= j < i ==> path !in dependencyJarFiles[j].entries
        invariant loaded == old(loaded)
      {
        var jar := dependencyJarFiles[i];
        var data := LoadClassData(jar.entries, name);
        if data.ReadError? || data.Data? {
          assert FirstHolder(DependencyArchives(), path) == i;
        }
        if data.ReadError? {
          return Failure(ReadFailure(name, data.reason));
        }
        if data.Data? {
          var csDep := dependencyCodeSources[i];
          var c := DefineClass(name, data.bytes, csDep);
          return Success(c);
        }
        i := i + 1;
      }
      assert FirstHolder(DependencyArchives(), path) == |dependencyJarFiles|;
      r := Failure(Throwable(ClassNotFoundException, name, None));
    }

    /** `isSharedPackage`: derives the package name, then tries the shared prefixes
        one by one until one of them starts it. */
    method InSharedPackage(className: string) returns (r: bool)
      ensures r <==> exists p :: p in sharedPackages && p <= PackageName(className)
    {
      var lastDot := LastIndexOf(className, '.');
      var packageName := if lastDot == -1 then "" else className[..lastDot] + ".";
      var rest := sharedPackages;
      while rest != {}
        invariant rest <= sharedPackages
        invariant forall p :: p in sharedPackages - rest ==> !(p <= packageName)
        decreases |rest|
      {
        var p :| p in rest;
        if p <= packageName {
          return true;
        }
        assert sharedPackages - (rest - {p}) == (sharedPackages - rest) + {p};
        rest := rest - {p};
      }
      assert sharedPackages - rest == sharedPackages;
      return false;
    }

    /** `loadClass(name)`: cache, then shared delegation, then this module's JARs. */
    method LoadClass(name: string) returns (r: Result<ClassRef>)
      requires Valid() && IsOpen()
      modifies this`loaded
      ensures Valid()
      ensures Step(r, loaded) == Resolve(old(loaded), name)
    {
      if name in loaded {
        return Success(loaded[name]);
      }
      var shared := InSharedPackage(name);
      if shared {
        // ClassLoader.loadClass: ask the parent, fall back to findClass.
        if name in parentClasses {
          return Success(HostClass(name));
        }
        r := FindClass(name);
        return;
      }
      r := FindClass(name);
      if r.Failure? && r.error.kind == ClassNotFoundException {
        r := Failure(ModuleNotFound(name, r.error));
      }
    }

    /** Closes the adapter JAR, then every dependency JAR. */
    method Close()
      modifies adapterJarFile, dependencyJarFiles
      ensures !adapterJarFile.open
      ensures forall j :: 0 <= j < |dependencyJarFiles| ==> !dependencyJarFiles[j].open
    {
      adapterJarFile.Close();
      for i := 0 to |dependencyJarFiles|
        invariant !adapterJarFile.open
        invariant forall j :: 0 <= j < i ==> !dependencyJarFiles[j].open
      {
        dependencyJarFiles[i].Close();
      }
    }
  }

  // ---------------------------------------------------------------------------
  // Properties of names and entry paths

  /** With normalized prefixes (each ending in '.'), testing a prefix against the
      package name is the same as testing it against the class name: a prefix only
      ever matches whole package segments, so "dev.modula.core." does not match
      "dev.modula.coreX.Foo", and a class in the default package is never shared. */
  lemma NormalizedSharingIsPlainPrefix(className: string, shared: set<string>)
    requires forall p :: p in shared ==> EndsWithDot(p)
    ensures IsSharedPackage(className, shared) <==> exists p :: p in shared && p <= className
  {
    var pkg := PackageName(className);
    if IsSharedPackage(className, shared) {
      var p :| p in shared && p <= pkg;
      assert className[..|p|] == pkg[..|p|];
      assert p <= className;
    }
    if exists p :: p in shared && p <= className {
      var p :| p in shared && p <= className;
      var k := |p| - 1;
      assert className[k] == p[k] == '.';
      assert pkg[..|p|] == className[..|p|];
      assert p in shared && p <= pkg;
    }
  }

  /** Class names (which never contain '/') map to entry paths reversibly. */
  lemma EntryPathRoundTrip(className: string)
    requires '/' !in className
    ensures ClassNameOfEntry(EntryPath(className)) == Some(className)
  {
    var path := EntryPath(className);
    assert path[..|path| - 6] == Replace(className, '.', '/');
    var back := Replace(path[..|path| - 6], '/', '.');
    assert forall i :: 0 <= i < |className| ==> back[i] == className[i];
    assert back == className;
  }

  /** Distinct class names are looked up under distinct entries. */
  lemma EntryPathInjective(a: string, b: string)
    requires '/' !in a && '/' !in b
    ensures EntryPath(a) == EntryPath(b) ==> a == b
  {
    EntryPathRoundTrip(a);
    EntryPathRoundTrip(b);
  }

  // ---------------------------------------------------------------------------
  // Properties of resolution

  /** Resolving a name twice gives the first answer again and changes nothing more. */
  lemma ResolveIdempotent(l: ModulaClassLoader, cache: map<string, ClassRef>, className: string)
    requires l.Aligned()
    ensures l.Resolve(l.Resolve(cache, className).cache, className) == l.Resolve(cache, className)
  {
  }

  /** A class comes from the parent exactly when it is not cached, its package is
      shared and the parent has it; the cache is then left as it was. */
  lemma ParentAnswersSharedNames(l: ModulaClassLoader, cache: map<string, ClassRef>, className: string)
    requires l.Aligned() && l.CacheSound(cache)
    ensures l.Resolve(cache, className).result == Success(HostClass(className))
      <==> className !in cache && IsSharedPackage(className, l.sharedPackages) && className in l.parentClasses
    ensures className !in cache && IsSharedPackage(className, l.sharedPackages) && className in l.parentClasses
      ==> l.Resolve(cache, className).cache == cache
  {
  }

  /** A shared name that the parent lacks falls through (inside the JDK's
      `ClassLoader.loadClass`) to this loader's own `findClass`, whose exception is
      not rewrapped. */
  lemma SharedNameMissingFromParentIsFoundLocally(l: ModulaClassLoader, cache: map<string, ClassRef>, className: string)
    requires l.Aligned()
    requires className !in cache && IsSharedPackage(className, l.sharedPackages) && className !in l.parentClasses
    ensures l.Resolve(cache, className) == l.FindOutcome(cache, className)
  {
  }

  /** A private name in the adapter JAR is defined from it, with the adapter's code
      source, whatever the dependency JARs hold. */
  lemma AdapterJarComesFirst(l: ModulaClassLoader, cache: map<string, ClassRef>, className: string, bytes: seq<byte>)
    requires l.Aligned() && className !in cache
    requires !(IsSharedPackage(className, l.sharedPackages) && className in l.parentClasses)
    requires EntryPath(className) in l.adapterJarFile.entries && l.adapterJarFile.entries[EntryPath(className)] == Bytes(bytes)
    ensures var c := ModuleClass(className, l, l.adapterCodeSource, bytes);
      l.Resolve(cache, className) == Step(Success(c), cache[className := c])
  {
  }

  /** Otherwise the first dependency JAR (by index) holding the entry defines the
      class, tagged with the code source at that same index, which is that JAR's. */
  lemma FirstDependencyWins(l: ModulaClassLoader, cache: map<string, ClassRef>, className: string, i: nat, bytes: seq<byte>)
    requires l.Aligned() && className !in cache
    requires !(IsSharedPackage(className, l.sharedPackages) && className in l.parentClasses)
    requires EntryPath(className) !in l.adapterJarFile.entries
    requires i < |l.dependencyJarFiles|
    requires forall j :: 0 <= j < i ==> EntryPath(className) !in l.dependencyJarFiles[j].entries
    requires EntryPath(className) in l.dependencyJarFiles[i].entries && l.dependencyJarFiles[i].entries[EntryPath(className)] == Bytes(bytes)
    ensures l.dependencyCodeSources[i] == CodeSource(l.dependencyJarFiles[i].path)
    ensures var c := ModuleClass(className, l, l.dependencyCodeSources[i], bytes);
      l.Resolve(cache, className) == Step(Success(c), cache[className := c])
  {
  }

  /** An unreadable entry in the first dependency JAR holding the class ends the
      search with "Failed to read class", which is not a ClassNotFoundException and so
      is not rewrapped; dependency JARs after it are not consulted. */
  lemma UnreadableEntryStopsTheSearch(l: ModulaClassLoader, cache: map<string, ClassRef>, className: string,
                                      i: nat, reason: string)
    requires l.Aligned() && className !in cache
    requires !(IsSharedPackage(className, l.sharedPackages) && className in l.parentClasses)
    requires EntryPath(className) !in l.adapterJarFile.entries
    requires i < |l.dependencyJarFiles|
    requires forall j :: 0 <= j < i ==> EntryPath(className) !in l.dependencyJarFiles[j].entries
    requires EntryPath(className) in l.dependencyJarFiles[i].entries
    requires l.dependencyJarFiles[i].entries[EntryPath(className)] == Unreadable(reason)
    ensures l.Resolve(cache, className) == Step(Failure(ReadFailure(className, reason)), cache)
  {
  }

  /** A private name that no JAR holds fails with a ClassNotFoundException naming the
      class and the module, wrapping the plain one `findClass` threw. */
  lemma MissingPrivateNameIsNotFound(l: ModulaClassLoader, cache: map<string, ClassRef>, className: string)
    requires l.Aligned() && className !in cache
    requires !IsSharedPackage(className, l.sharedPackages)
    requires EntryPath(className) !in l.adapterJarFile.entries
    requires forall j :: 0 <= j < |l.dependencyJarFiles| ==> EntryPath(className) !in l.dependencyJarFiles[j].entries
    ensures l.Resolve(cache, className) ==
      Step(Failure(ModuleNotFound(className, Throwable(ClassNotFoundException, className, None))), cache)
  {
  }

  /** Two loaders never return the same locally defined class, even for the same
      name and the same JAR contents. */
  lemma LoadersIsolateTheirClasses(l1: ModulaClassLoader, cache1: map<string, ClassRef>,
                                    l2: ModulaClassLoader, cache2: map<string, ClassRef>, className: string)
    requires l1.Aligned() && l1.CacheSound(cache1)
    requires l2.Aligned() && l2.CacheSound(cache2)
    requires l1 != l2
    ensures var r1, r2 := l1.Resolve(cache1, className).result, l2.Resolve(cache2, className).result;
      r1.Success? && r1.value.ModuleClass? && r2.Success? && r2.value.ModuleClass? ==> r1.value != r2.value
  {
  }

  /** Two loaders sharing a package with the same parent return the parent's own
      class for it: one identity across modules and the host. */
  lemma SharedClassIsTheHostsClass(l1: ModulaClassLoader, cache1: map<string, ClassRef>,
                                   l2: ModulaClassLoader, cache2: map<string, ClassRef>, className: string)
    requires l1.Aligned() && l2.Aligned()
    requires className !in cache1 && className !in cache2
    requires IsSharedPackage(className, l1.sharedPackages) && IsSharedPackage(className, l2.sharedPackages)
    requires className in l1.parentClasses && l1.parentClasses == l2.parentClasses
    ensures l1.Resolve(cache1, className).result == l2.Resolve(cache2, className).result == Success(HostClass(className))
  {
  }
}

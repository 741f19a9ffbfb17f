/** The module descriptor (ModuleSpec) and the builder that validates it. */
module ModuleSpecs {
  import opened Lang

  /** A file-system path, as given to the builder. */
  type Path = string

  /** An immutable module descriptor. Its fields are the getters of the Java class;
      being a value, it cannot be changed by anyone once built. */
  datatype ModuleSpec = ModuleSpec(
    name: string,
    adapterJar: Path,
    dependencyJars: seq<Path>,
    sharedPackages: set<string>,
    exportedClasses: set<string>)

  /** The message of the IllegalStateException thrown by an incomplete builder. */
  const MissingFieldsMessage := "name, adapterJar, and at least one dependencyJar are required"

  /** The mutable builder. A Java null is `None`; the dependency list and the two
      string sets start empty. */
  class Builder {
    var name: Option<string>
    var adapterJar: Option<Path>
    var dependencyJars: seq<Path>
    var sharedPackages: set<string>
    var exportedClasses: set<string>

    constructor ()
      ensures name == None && adapterJar == None
      ensures dependencyJars == [] && sharedPackages == {} && exportedClasses == {}
    {
      name := None;
      adapterJar := None;
      dependencyJars := [];
      sharedPackages := {};
      exportedClasses := {};
    }

    /** Sets (overwrites) the module name; a later call wins. */
    method Name(name: Option<string>)
      modifies this
      ensures this.name == name
      ensures adapterJar == old(adapterJar) && dependencyJars == old(dependencyJars)
      ensures sharedPackages == old(sharedPackages) && exportedClasses == old(exportedClasses)
    {
      this.name := name;
    }

    /** Sets (overwrites) the adapter JAR path; a later call wins. */
    method AdapterJar(adapterJar: Option<Path>)
      modifies this
      ensures this.adapterJar == adapterJar
      ensures name == old(name) && dependencyJars == old(dependencyJars)
      ensures sharedPackages == old(sharedPackages) && exportedClasses == old(exportedClasses)
    {
      this.adapterJar := adapterJar;
    }

    /** Appends one dependency JAR at the end: call order and duplicates are kept. */
    method DependencyJar(dependencyJar: Path)
      modifies this
      ensures dependencyJars == old(dependencyJars) + [dependencyJar]
      ensures name == old(name) && adapterJar == old(adapterJar)
      ensures sharedPackages == old(sharedPackages) && exportedClasses == old(exportedClasses)
    {
      dependencyJars := dependencyJars + [dependencyJar];
    }

    /** Adds the given package names to the shared set (additive across calls). */
    method SharedPackages(packages: seq<string>)
      modifies this
      ensures sharedPackages == old(sharedPackages) + (set p | p in packages)
      ensures name == old(name) && adapterJar == old(adapterJar)
      ensures dependencyJars == old(dependencyJars) && exportedClasses == old(exportedClasses)
    {
      sharedPackages := sharedPackages + (set p | p in packages);
    }

    /** Adds the given class names to the exported set (additive across calls). */
    method ExportedClasses(classes: seq<string>)
      modifies this
      ensures exportedClasses == old(exportedClasses) + (set c | c in classes)
      ensures name == old(name) && adapterJar == old(adapterJar)
      ensures dependencyJars == old(dependencyJars) && sharedPackages == old(sharedPackages)
    {
      exportedClasses := exportedClasses + (set c | c in classes);
    }

    /** Validates and snapshots the builder. Only a missing (null) name or adapter JAR,
        or an empty dependency list, is refused; an empty name is accepted. */
    method Build() returns (r: Result<ModuleSpec>)
      ensures r.Failure? <==> name.None? || adapterJar.None? || dependencyJars == []
      ensures r.Failure? ==> r.error == Throwable(IllegalStateException, MissingFieldsMessage, None)
      ensures r.Success? ==>
        r.value == ModuleSpec(name.value, adapterJar.value, dependencyJars, sharedPackages, exportedClasses)
    {
      if name.None? || adapterJar.None? || |dependencyJars| == 0 {
        return Failure(Throwable(IllegalStateException, MissingFieldsMessage, None));
      }
      r := Success(ModuleSpec(name.value, adapterJar.value, dependencyJars, sharedPackages, exportedClasses));
    }
  }

  /** The validation tests for null only: a builder given the empty name, an adapter
      JAR and one dependency builds a spec whose name is the empty string. */
  method EmptyNameIsAccepted(adapter: Path, dependency: Path) returns (r: Result<ModuleSpec>)
    ensures r.Success? && r.value.name == ""
    ensures r.value.adapterJar == adapter && r.value.dependencyJars == [dependency]
  {
    var b := new Builder();
    b.Name(Some(""));
    b.AdapterJar(Some(adapter));
    b.DependencyJar(dependency);
    r := b.Build();
  }

  /** A built spec is a snapshot: calls made on the builder afterwards leave it as it was. */
  method SpecIsDetachedFromBuilder(b: Builder, dependency: Path, packages: seq<string>, classes: seq<string>)
    returns (r: Result<ModuleSpec>)
    modifies b
    ensures r.Success? ==> r.value.dependencyJars == old(b.dependencyJars)
    ensures r.Success? ==> r.value.sharedPackages == old(b.sharedPackages)
    ensures r.Success? ==> r.value.exportedClasses == old(b.exportedClasses)
    ensures b.dependencyJars == old(b.dependencyJars) + [dependency]
  {
    r := b.Build();
    b.DependencyJar(dependency);
    b.SharedPackages(packages);
    b.ExportedClasses(classes);
  }
}

/** The Gradle-facing API of the plugin: the Maven coordinates of the
    processor and the runtime, the name of the KSP configuration that
    serves a Kotlin compilation, the default compilation filter, and the
    dependencies `withSweetSpi` adds for a compilation, a target or a
    whole Kotlin project. */
module GradleApi {
  import opened Common

  const Group := "dev.whyoleg.sweetspi"
  const ProcessorArtifact := "sweetspi-processor"
  const RuntimeArtifact := "sweetspi-runtime"
  const MainCompilationName := "main"

  /** `group:name:version` notation. */
  function Coordinates(group: string, artifact: string, version: string): string {
    group + ":" + artifact + ":" + version
  }

  /** `sweetSpiProcessor()`. */
  function ProcessorCoordinates(version: string): string {
    Coordinates(Group, ProcessorArtifact, version)
  }

  /** `sweetSpiRuntime()`, on both dependency handlers. */
  function RuntimeCoordinates(version: string): string {
    Coordinates(Group, RuntimeArtifact, version)
  }

  /** The notation parses back into its three parts when none of them
      contains a colon. */
  lemma CoordinatesParse(group: string, artifact: string, version: string)
    requires ':' !in group && ':' !in artifact && ':' !in version
    ensures Split(Coordinates(group, artifact, version), ':') == [group, artifact, version]
  {
    SplitAtSep(group, artifact + ":" + version, ':');
    SplitAtSep(artifact, version, ':');
    assert group + ":" + artifact + ":" + version == group + [':'] + (artifact + [':'] + version);
    SplitNoSep(group, ':');
    SplitNoSep(artifact, ':');
    SplitNoSep(version, ':');
  }

  /** Both artifacts are published under the plugin's group, with the
      plugin's version. */
  lemma ArtifactCoordinates(version: string)
    requires ':' !in version
    ensures Split(ProcessorCoordinates(version), ':') == [Group, ProcessorArtifact, version]
    ensures Split(RuntimeCoordinates(version), ':') == [Group, RuntimeArtifact, version]
  {
    CoordinatesParse(Group, ProcessorArtifact, version);
    CoordinatesParse(Group, RuntimeArtifact, version);
  }

  /** What the plugin reads from a Kotlin compilation. */
  datatype Compilation = Compilation(
    name: string,
    isCommon: bool,
    targetName: string,
    defaultSourceSetName: string,
    implementationConfigurationName: string)

  /** `getKotlinConfigurationName`: the KSP configuration serving the
      compilation, or none for the main compilation of common code. */
  function KotlinConfigurationName(c: Compilation): Option<string> {
    var isMain := c.name == MainCompilationName;
    if isMain && c.isCommon then None
    else
      var name :=
        if isMain then c.targetName
        else if c.isCommon then c.defaultSourceSetName + Capitalize(c.targetName)
        else c.defaultSourceSetName;
      Some("ksp" + Capitalize(name))
  }

  /** The name a non-common main compilation, a common non-main
      compilation and any other compilation are served by. */
  function ServedName(c: Compilation): string {
    if c.name == MainCompilationName then c.targetName
    else if c.isCommon then c.defaultSourceSetName + Capitalize(c.targetName)
    else c.defaultSourceSetName
  }

  /** Only the common main compilation has no KSP configuration; every
      other one gets `ksp` followed by the capitalized served name, and only
      the first letter of that name changes. */
  lemma ConfigurationNameShape(c: Compilation)
    ensures KotlinConfigurationName(c).None? <==> c.name == MainCompilationName && c.isCommon
    ensures KotlinConfigurationName(c).Some? ==>
      var r := KotlinConfigurationName(c).value;
      StartsWith(r, "ksp") && |r| == 3 + |ServedName(c)| &&
      (|ServedName(c)| > 0 ==> r[3] == AsciiUpper(ServedName(c)[0]) && r[4..] == ServedName(c)[1..])
  {
    if KotlinConfigurationName(c).Some? {
      var r := KotlinConfigurationName(c).value;
      assert r == "ksp" + Capitalize(ServedName(c));
      assert r[..3] == "ksp";
      if |ServedName(c)| > 0 {
        assert r[4..] == Capitalize(ServedName(c))[1..];
      }
    }
  }

  /** On a single-platform project the target name is empty, so its main
      compilation is served by the plain `ksp` configuration. */
  lemma SingleTargetMain(c: Compilation)
    requires c.name == MainCompilationName && !c.isCommon && c.targetName == ""
    ensures KotlinConfigurationName(c) == Some("ksp")
  {
    assert Capitalize(c.targetName) == [];
    assert "ksp" + [] == "ksp";
  }

  /** Two compilations served by configurations of the same name have
      served names that agree except perhaps in the case of the first
      letter. */
  lemma ConfigurationNameDetermines(c: Compilation, d: Compilation)
    requires KotlinConfigurationName(c).Some? && KotlinConfigurationName(c) == KotlinConfigurationName(d)
    ensures |ServedName(c)| == |ServedName(d)|
    ensures ServedName(c) != [] ==>
      ServedName(c)[1..] == ServedName(d)[1..] && AsciiUpper(ServedName(c)[0]) == AsciiUpper(ServedName(d)[0])
  {
    ConfigurationNameShape(c);
    ConfigurationNameShape(d);
  }

  /** `it.name.endsWith("main", ignoreCase = true)`. */
  predicate DefaultFilter(c: Compilation) {
    EndsWith(Lowercase(c.name), "main")
  }

  /** The default filter only looks at the name, up to letter case, and
      selects the main compilation. */
  lemma DefaultFilterIgnoresCase(c: Compilation, d: Compilation)
    requires Lowercase(c.name) == Lowercase(d.name)
    ensures DefaultFilter(c) == DefaultFilter(d)
    ensures c.name == MainCompilationName ==> DefaultFilter(c)
  {
    if c.name == MainCompilationName {
      assert Lowercase(c.name) == "main";
    }
  }

  /** A dependency declaration: a configuration name and a notation. */
  datatype Dependency = Dependency(configuration: string, notation: string)

  /** What `KotlinCompilation.withSweetSpi()` adds. */
  function CompilationDependencies(c: Compilation, version: string): (r: seq<Dependency>)
    ensures |r| == 0 || |r| == 2
  {
    match KotlinConfigurationName(c)
    case None => []
    case Some(name) =>
      [Dependency(name, ProcessorCoordinates(version)),
       Dependency(c.implementationConfigurationName, RuntimeCoordinates(version))]
  }

  /** What `KotlinTarget.withSweetSpi(filter)` adds: the dependencies of the
      selected compilations, in order. */
  function TargetDependencies(compilations: seq<Compilation>, filter: Compilation -> bool, version: string): seq<Dependency> {
    if compilations == [] then []
    else
      var n := |compilations| - 1;
      TargetDependencies(compilations[..n], filter, version) +
      (if filter(compilations[n]) then CompilationDependencies(compilations[n], version) else [])
  }

  datatype Target = Target(name: string, compilations: seq<Compilation>)

  datatype KotlinProjectExtension = SingleTarget(target: Target) | Multiplatform(targets: seq<Target>)

  function TargetsDependencies(targets: seq<Target>, filter: Compilation -> bool, version: string): seq<Dependency> {
    if targets == [] then []
    else
      var n := |targets| - 1;
      TargetsDependencies(targets[..n], filter, version) + TargetDependencies(targets[n].compilations, filter, version)
  }

  /** What `KotlinProjectExtension.withSweetSpi(filter)` adds. */
  function ExtensionDependencies(ext: KotlinProjectExtension, filter: Compilation -> bool, version: string): seq<Dependency> {
    match ext
    case SingleTarget(t) => TargetDependencies(t.compilations, filter, version)
    case Multiplatform(ts) => TargetsDependencies(ts, filter, version)
  }

  /** Every dependency `withSweetSpi` adds is either the processor, in a
      configuration whose name starts with `ksp`, or the runtime, in an
      implementation configuration of a selected compilation. */
  predicate WellPlaced(deps: seq<Dependency>, version: string) {
    forall i :: 0 <= i < |deps| ==>
      (StartsWith(deps[i].configuration, "ksp") && deps[i].notation == ProcessorCoordinates(version)) ||
      deps[i].notation == RuntimeCoordinates(version)
  }

  lemma CompilationDependenciesPlaced(c: Compilation, version: string)
    ensures WellPlaced(CompilationDependencies(c, version), version)
    ensures CompilationDependencies(c, version) == [] <==> c.name == MainCompilationName && c.isCommon
    ensures CompilationDependencies(c, version) != [] ==>
      CompilationDependencies(c, version)[0].configuration == KotlinConfigurationName(c).value &&
      CompilationDependencies(c, version)[1].configuration == c.implementationConfigurationName
  {
    ConfigurationNameShape(c);
  }

  lemma WellPlacedAppend(a: seq<Dependency>, b: seq<Dependency>, version: string)
    requires WellPlaced(a, version) && WellPlaced(b, version)
    ensures WellPlaced(a + b, version)
  {
    assert forall i :: 0 <= i < |a + b| ==> (a + b)[i] == if i < |a| then a[i] else b[i - |a|];
  }

  lemma {:induction false} TargetDependenciesPlaced(compilations: seq<Compilation>, filter: Compilation -> bool, version: string)
    ensures WellPlaced(TargetDependencies(compilations, filter, version), version)
  {
    if compilations != [] {
      var n := |compilations| - 1;
      TargetDependenciesPlaced(compilations[..n], filter, version);
      CompilationDependenciesPlaced(compilations[n], version);
      WellPlacedAppend(TargetDependencies(compilations[..n], filter, version),
        if filter(compilations[n]) then CompilationDependencies(compilations[n], version) else [], version);
    }
  }

  /** The number of compilations the filter selects and that have a KSP
      configuration. */
  function Served(compilations: seq<Compilation>, filter: Compilation -> bool): nat {
    if compilations == [] then 0
    else
      var c := compilations[|compilations| - 1];
      Served(compilations[..|compilations| - 1], filter) +
      (if filter(c) && KotlinConfigurationName(c).Some? then 1 else 0)
  }

  /** A selected compilation contributes two dependencies, except a common
      main compilation, which contributes none; unselected ones contribute
      nothing. */
  lemma {:induction false} TargetDependenciesCount(compilations: seq<Compilation>, filter: Compilation -> bool, version: string)
    ensures |TargetDependencies(compilations, filter, version)| == 2 * Served(compilations, filter)
  {
    if compilations != [] {
      var n := |compilations| - 1;
      TargetDependenciesCount(compilations[..n], filter, version);
    }
  }

  lemma {:induction false} TargetsDependenciesPlaced(targets: seq<Target>, filter: Compilation -> bool, version: string)
    ensures WellPlaced(TargetsDependencies(targets, filter, version), version)
  {
    if targets != [] {
      var n := |targets| - 1;
      TargetsDependenciesPlaced(targets[..n], filter, version);
      TargetDependenciesPlaced(targets[n].compilations, filter, version);
      WellPlacedAppend(TargetsDependencies(targets[..n], filter, version),
        TargetDependencies(targets[n].compilations, filter, version), version);
    }
  }

  lemma ExtensionDependenciesPlaced(ext: KotlinProjectExtension, filter: Compilation -> bool, version: string)
    ensures WellPlaced(ExtensionDependencies(ext, filter, version), version)
  {
    match ext
    case SingleTarget(t) => TargetDependenciesPlaced(t.compilations, filter, version);
    case Multiplatform(ts) => TargetsDependenciesPlaced(ts, filter, version);
  }

  /** The project's dependency declarations, which `withSweetSpi` extends. */
  class DependencyHandler {
    var added: seq<Dependency>

    constructor ()
      ensures added == []
    {
      added := [];
    }

    /** `add(configurationName, notation)`. */
    method Add(configuration: string, notation: string)
      modifies this
      ensures added == old(added) + [Dependency(configuration, notation)]
    {
      added := added + [Dependency(configuration, notation)];
    }
  }

  /** `KotlinCompilation.withSweetSpi()`. */
  method WithSweetSpiCompilation(c: Compilation, deps: DependencyHandler, version: string)
    modifies deps
    ensures deps.added == old(deps.added) + CompilationDependencies(c, version)
  {
    var configurationName := KotlinConfigurationName(c);
    if configurationName.None? {
      return;
    }
    deps.Add(configurationName.value, ProcessorCoordinates(version));
    deps.Add(c.implementationConfigurationName, RuntimeCoordinates(version));
  }

  /** `KotlinTarget.withSweetSpi(filter)`: `compilations.all { … }` over the
      target's compilations. */
  method WithSweetSpiTarget(t: Target, filter: Compilation -> bool, deps: DependencyHandler, version: string)
    modifies deps
    ensures deps.added == old(deps.added) + TargetDependencies(t.compilations, filter, version)
  {
    var i := 0;
    while i < |t.compilations|
      invariant 0 <= i <= |t.compilations|
      invariant deps.added == old(deps.added) + TargetDependencies(t.compilations[..i], filter, version)
    {
      assert t.compilations[..i + 1][..i] == t.compilations[..i];
      var before := deps.added;
      if filter(t.compilations[i]) {
        WithSweetSpiCompilation(t.compilations[i], deps, version);
      }
      assert deps.added == before + (if filter(t.compilations[i]) then CompilationDependencies(t.compilations[i], version) else []);
      i := i + 1;
    }
    assert t.compilations[..i] == t.compilations;
  }

  /** `KotlinProjectExtension.withSweetSpi(filter)`: the single target, or
      `targets.all { … }` on a multiplatform project. */
  method WithSweetSpi(ext: KotlinProjectExtension, filter: Compilation -> bool, deps: DependencyHandler, version: string)
    modifies deps
    ensures deps.added == old(deps.added) + ExtensionDependencies(ext, filter, version)
  {
    match ext {
      case SingleTarget(t) =>
        WithSweetSpiTarget(t, filter, deps, version);
      case Multiplatform(ts) =>
        WithSweetSpiTargets(ts, filter, deps, version);
    }
  }

  /** `targets.all { withSweetSpi(filter) }`, over the targets in order. */
  method WithSweetSpiTargets(ts: seq<Target>, filter: Compilation -> bool, deps: DependencyHandler, version: string)
    modifies deps
    ensures deps.added == old(deps.added) + TargetsDependencies(ts, filter, version)
  {
    var i := 0;
    while i < |ts|
      invariant 0 <= i <= |ts|
      invariant deps.added == old(deps.added) + TargetsDependencies(ts[..i], filter, version)
    {
      assert ts[..i + 1][..i] == ts[..i];
      var before := TargetsDependencies(ts[..i], filter, version);
      var added := TargetDependencies(ts[i].compilations, filter, version);
      assert TargetsDependencies(ts[..i + 1], filter, version) == before + added;
      WithSweetSpiTarget(ts[i], filter, deps, version);
      assert deps.added == old(deps.added) + before + added;
      i := i + 1;
    }
    assert ts[..i] == ts;
  }
}

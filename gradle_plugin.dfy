/** The configuration checker of the Gradle plugin: unless suppressed by a
    Gradle property, it watches for the KSP plugin and for the processor
    being added to a KSP configuration, and after evaluation reports the
    first thing missing. The build is a sequence of events seen after the
    plugin is applied; Gradle's callbacks become one loop over it. */
module GradlePlugin {
  import opened Common
  import opened GradleApi

  const SuppressProperty := "dev.whyoleg.sweetspi.suppressGradleKspConfigurationChecker"
  const KspPluginId := "com.google.devtools.ksp"

  /** `String.toBooleanStrict()`: only `true` and `false` are booleans. */
  function ToBooleanStrict(s: string): (r: Result<bool, string>)
    ensures r.Success? <==> s == "true" || s == "false"
    ensures r.Success? ==> (r.value <==> s == "true")
  {
    if s == "true" then Success(true)
    else if s == "false" then Success(false)
    else Failure("The string doesn't represent a boolean value: " + s)
  }

  /** The suppression flag: the property parsed strictly, `false` when it
      is absent; a value that is not a boolean fails the build. */
  function SuppressChecker(property: Option<string>): (r: Result<bool, string>)
    ensures property.None? ==> r == Success(false)
    ensures property.Some? ==> r == ToBooleanStrict(property.value)
  {
    match property
    case None => Success(false)
    case Some(s) => ToBooleanStrict(s)
  }

  datatype BuildEvent =
    | PluginApplied(id: string)
    | DependencyAdded(configuration: string, group: string, name: string)

  datatype CheckError = KspPluginMissing | ProcessorMissing

  function Message(e: CheckError): string {
    match e
    case KspPluginMissing =>
      "KSP Gradle Plugin should be applied to use sweet-spi. " +
      "Add 'com.google.devtools.ksp' plugin to your build, " +
      "f.e by adding 'id(\"com.google.devtools.ksp\")' to 'plugins' section of the build.gradle[.kts] file"
    case ProcessorMissing =>
      "sweetspi-processor is not present in any KSP configuration. " +
      "Use `withSweetSpi` API to add it automatically to main compilations or " +
      "add `ksp(sweetSpiProcessor())` or `KSP_TARGET_SPECIFIC_CONFIGURATION_NAME(sweetSpiProcessor())`"
  }

  /** The dependency the listener looks for, in a configuration the
      listener watches. */
  predicate IsProcessor(e: BuildEvent) {
    e.DependencyAdded? && StartsWith(e.configuration, "ksp") &&
    e.group == Group && e.name == ProcessorArtifact
  }

  /** `kspPluginApplied` after the events. */
  predicate KspApplied(events: seq<BuildEvent>) {
    events != [] &&
    (KspApplied(events[..|events| - 1]) || events[|events| - 1] == PluginApplied(KspPluginId))
  }

  /** `kspProcessorAdded` after the events: the listener on KSP
      configurations exists only once the KSP plugin is applied. */
  predicate ProcessorAdded(events: seq<BuildEvent>) {
    events != [] &&
    (ProcessorAdded(events[..|events| - 1]) ||
     (IsProcessor(events[|events| - 1]) && KspApplied(events[..|events| - 1])))
  }

  /** The `afterEvaluate` block: the plugin error takes precedence. */
  function AfterEvaluate(kspPluginApplied: bool, kspProcessorAdded: bool): (r: Option<CheckError>)
    ensures r == Some(KspPluginMissing) <==> !kspPluginApplied
    ensures r == Some(ProcessorMissing) <==> kspPluginApplied && !kspProcessorAdded
    ensures r.None? <==> kspPluginApplied && kspProcessorAdded
  {
    if !kspPluginApplied then Some(KspPluginMissing)
    else if !kspProcessorAdded then Some(ProcessorMissing)
    else None
  }

  /** `SweetSpiPlugin.apply(project)` followed by the rest of the build:
      the error logged after evaluation, if any, or the failure to parse the
      suppression property. */
  method Apply(property: Option<string>, events: seq<BuildEvent>) returns (r: Result<Option<CheckError>, string>)
    ensures SuppressChecker(property).Failure? <==> r.Failure?
    ensures SuppressChecker(property) == Success(true) ==> r == Success(None)
    ensures SuppressChecker(property) == Success(false) ==>
      r == Success(AfterEvaluate(KspApplied(events), ProcessorAdded(events)))
  {
    var suppress := SuppressChecker(property);
    if suppress.Failure? {
      return Failure(suppress.error);
    }
    if suppress.value {
      return Success(None);
    }
    var kspPluginApplied := false;
    var kspProcessorAdded := false;
    var i := 0;
    while i < |events|
      invariant 0 <= i <= |events|
      invariant kspPluginApplied == KspApplied(events[..i])
      invariant kspProcessorAdded == ProcessorAdded(events[..i])
    {
      assert events[..i + 1][..i] == events[..i];
      match events[i] {
        case PluginApplied(id) =>
          if id == KspPluginId {
            kspPluginApplied := true;
          }
        case DependencyAdded(configuration, group, name) =>
          if kspPluginApplied && StartsWith(configuration, "ksp") && group == Group && name == ProcessorArtifact {
            kspProcessorAdded := true;
          }
      }
      i := i + 1;
    }
    assert events[..i] == events;
    r := Success(AfterEvaluate(kspPluginApplied, kspProcessorAdded));
  }

  /** The flags, stated directly: the KSP plugin was applied at some point,
      and a processor dependency was added to a KSP configuration at some
      point after it. */
  lemma FlagsMeaning(events: seq<BuildEvent>)
    ensures KspApplied(events) <==> exists i :: 0 <= i < |events| && events[i] == PluginApplied(KspPluginId)
    ensures ProcessorAdded(events) <==>
      exists i, j :: 0 <= i < j < |events| && events[i] == PluginApplied(KspPluginId) && IsProcessor(events[j])
  {
    KspAppliedMeaning(events);
    ProcessorAddedMeaning(events);
  }

  lemma {:induction false} KspAppliedMeaning(events: seq<BuildEvent>)
    ensures KspApplied(events) <==> exists i :: 0 <= i < |events| && events[i] == PluginApplied(KspPluginId)
  {
    if events != [] {
      var n := |events| - 1;
      var init := events[..n];
      KspAppliedMeaning(init);
      if KspApplied(init) {
        var i :| 0 <= i < |init| && init[i] == PluginApplied(KspPluginId);
        assert events[i] == init[i];
      }
      if i :| 0 <= i < n && events[i] == PluginApplied(KspPluginId) {
        assert init[i] == events[i];
      }
    }
  }

  lemma ProcessorAddedMeaning(events: seq<BuildEvent>)
    ensures ProcessorAdded(events) <==>
      exists i, j :: 0 <= i < j < |events| && events[i] == PluginApplied(KspPluginId) && IsProcessor(events[j])
  {
    if ProcessorAdded(events) {
      ProcessorAddedWitness(events);
    }
    if i, j :| 0 <= i < j < |events| && events[i] == PluginApplied(KspPluginId) && IsProcessor(events[j]) {
      ProcessorAddedFromWitness(events, i, j);
    }
  }

  lemma {:induction false} ProcessorAddedWitness(events: seq<BuildEvent>)
    requires ProcessorAdded(events)
    ensures exists i, j :: 0 <= i < j < |events| && events[i] == PluginApplied(KspPluginId) && IsProcessor(events[j])
  {
    var n := |events| - 1;
    var init := events[..n];
    if ProcessorAdded(init) {
      ProcessorAddedWitness(init);
      var i, j :| 0 <= i < j < |init| && init[i] == PluginApplied(KspPluginId) && IsProcessor(init[j]);
      assert events[i] == init[i] && events[j] == init[j];
    } else {
      KspAppliedMeaning(init);
      var i :| 0 <= i < |init| && init[i] == PluginApplied(KspPluginId);
      assert events[i] == init[i];
      assert IsProcessor(events[n]);
    }
  }

  lemma {:induction false} ProcessorAddedFromWitness(events: seq<BuildEvent>, i: nat, j: nat)
    requires i < j < |events| && events[i] == PluginApplied(KspPluginId) && IsProcessor(events[j])
    ensures ProcessorAdded(events)
  {
    var n := |events| - 1;
    var init := events[..n];
    assert init[i] == events[i];
    if j < n {
      assert init[j] == events[j];
      ProcessorAddedFromWitness(init, i, j);
    } else {
      KspAppliedMeaning(init);
    }
  }

  /** Seeing the processor implies the plugin was seen, so the checker
      never reports the processor missing while the plugin is missing too. */
  lemma {:induction false} ProcessorImpliesPlugin(events: seq<BuildEvent>)
    ensures ProcessorAdded(events) ==> KspApplied(events)
  {
    if events != [] {
      ProcessorImpliesPlugin(events[..|events| - 1]);
    }
  }

  /** How Gradle reads a `group:name:version` notation. */
  function DependencyEvent(d: Dependency): BuildEvent {
    var parts := Split(d.notation, ':');
    DependencyAdded(d.configuration, parts[0], if |parts| > 1 then parts[1] else "")
  }

  function DependencyEvents(deps: seq<Dependency>): (r: seq<BuildEvent>)
    ensures |r| == |deps|
    ensures forall i :: 0 <= i < |deps| ==> r[i] == DependencyEvent(deps[i])
  {
    seq(|deps|, i requires 0 <= i < |deps| => DependencyEvent(deps[i]))
  }

  /** Applying the KSP plugin and then `withSweetSpi` on any compilation
      that has a KSP configuration leaves the checker with nothing to
      report. */
  lemma WithSweetSpiSatisfiesChecker(c: Compilation, version: string)
    requires ':' !in version
    requires KotlinConfigurationName(c).Some?
    ensures var events := [PluginApplied(KspPluginId)] + DependencyEvents(CompilationDependencies(c, version));
      AfterEvaluate(KspApplied(events), ProcessorAdded(events)) == None
  {
    var deps := CompilationDependencies(c, version);
    var events := [PluginApplied(KspPluginId)] + DependencyEvents(deps);
    ConfigurationNameShape(c);
    ArtifactCoordinates(version);
    assert IsProcessor(events[1]);
    FlagsMeaning(events);
  }

  /** Without the KSP plugin the processor dependency is never noticed,
      whatever else the build adds. */
  lemma {:induction false} NoPluginNoProcessor(events: seq<BuildEvent>)
    requires forall i :: 0 <= i < |events| ==> events[i] != PluginApplied(KspPluginId)
    ensures !KspApplied(events) && !ProcessorAdded(events)
  {
    FlagsMeaning(events);
  }

  /** The listener sees only dependencies added after the KSP plugin: a
      processor dependency declared before it is missed. */
  lemma ProcessorBeforePluginMissed()
    ensures var events := [DependencyAdded("ksp", Group, ProcessorArtifact), PluginApplied(KspPluginId)];
      AfterEvaluate(KspApplied(events), ProcessorAdded(events)) == Some(ProcessorMissing)
  {
    var events := [DependencyAdded("ksp", Group, ProcessorArtifact), PluginApplied(KspPluginId)];
    FlagsMeaning(events);
    assert events[1] == PluginApplied(KspPluginId);
  }
}

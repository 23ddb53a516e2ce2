# sweet-spi: a Dafny model

sweet-spi is a Kotlin Multiplatform service-provider library. A class annotated
`@ServiceProvider` implements one or more interfaces annotated `@Service`. At
build time a KSP symbol processor checks the declarations. It then generates
one module object per compilation, which lists the providers of every
service. On the JVM the module object is registered through a
`META-INF/services` file. On JS, Wasm and Native a top-level eager property
registers it in a runtime registry. A Gradle plugin adds the processor and
the runtime to the right configurations. It also warns when the KSP plugin
or the processor is missing.

This project models the following parts and proves properties of them:

- `native_loader.dfy`, module `NativeLoader`: the Native runtime's reentrant
  lock `SynchronizedObject` and its pool of mutex nodes.
  - One call to `lock`, `unlock` or the post-wake-up retry is a step
    function on the lock state. The class `SynchronizedObject` updates its
    `state` field by exactly that step.
  - `MutexPool` is a class whose free list is a `seq` field.
  - A whole system of threads, with their parked and resuming sets, is
    modelled on values. An invariant is proved to hold for every run.
- `non_jvm_loader.dfy`, module `NonJvmLoader`: the JS/Wasm/Native service
  registry. Its functions are `Register` and `Read`. The class
  `ServiceRegistry` is proved against them, and lemmas cover any replayed
  history of calls.
- `analyze.dfy`, module `Analyze`: the processor's analysis pass.
  - It checks declarations, resolves each provider's service types, builds
    the insertion-ordered service-to-providers map and computes the common
    package name.
  - The KSP symbol model is abstracted into a `Universe` of types, their
    super types and annotations.
- `generate.dfy`, module `Generate`: the code the processor generates,
  modelled as a plan.
  - The plan is a module object, an init property or a service file, and
    file annotations.
  - Code is a sequence of text pieces and `%T`/`%M`/`%N` placeholders with
    their arguments. A lemma proves that the placeholders and arguments of
    every piece of code in every plan agree in number and kind.
- `gradle_api.dfy`, module `GradleApi`: `withSweetSpi`.
  - It covers the artifact coordinates, the KSP configuration name of a
    compilation, the default compilation filter and the dependencies added
    to each compilation.
  - The mutating `DependencyHandler` is a class.
- `gradle_plugin.dfy`, module `GradlePlugin`: the plugin's configuration
  checker.
  - The build after the plugin is applied is a sequence of events. Gradle's
    callbacks become one loop over those events.
- `common.dfy`, module `Common`: shared sequence and string helpers (split,
  join, distinct, ASCII case mapping).

Three facts about the code that the model states explicitly:

- `NativeLoader.LockStep`: a contending thread that finds a fat lock whose
  owner is null (the hand-off window after an unlock woke a waiter) only
  re-reads the state (`InternalServiceLoader.native.kt:59`). The model's
  `Spin` outcome is that branch.
- `NativeLoader.NotObtainedUnreachable`: the owner check of `unlock`
  (`InternalServiceLoader.native.kt:77`) fails on an unlocked lock before
  the "not obtained" branch (line 110) can run, so that branch is dead. The
  lemma proves this.
- `NonJvmLoader`: the non-JVM registry (`InternalServiceLoader.nonJvm.kt`)
  is a `lazy` value guarded by an `isInitialized()` check: once read, the
  list is frozen and a further registration fails.

## Model

| member | source | states |
|---|---|---|
| NativeLoader.LockStep | sweetspi-runtime/src/nativeMain/kotlin/InternalServiceLoader.native.kt:18-71 | A lock attempt keeps the lock well formed unless it must spin. It acquires only for the caller, and parks only behind a different owner of a fat lock. It spins exactly when a fat lock has no owner. |
| NativeLoader.LockUnlocked | sweetspi-runtime/src/nativeMain/kotlin/InternalServiceLoader.native.kt:23-27 | Locking an unlocked lock makes it thin, nested once and owned by the caller. |
| NativeLoader.LockReentrant | sweetspi-runtime/src/nativeMain/kotlin/InternalServiceLoader.native.kt:29-58 | The owner locking again only increments the nesting count, for thin and fat locks alike. |
| NativeLoader.LockContended | sweetspi-runtime/src/nativeMain/kotlin/InternalServiceLoader.native.kt:35-67 | Contending on a thin lock inflates it with a pool node and parks the caller as the first waiter. Contending on an owned fat lock adds a waiter. An ownerless fat lock makes the caller spin. |
| NativeLoader.UnlockStep | sweetspi-runtime/src/nativeMain/kotlin/InternalServiceLoader.native.kt:73-113 | Unlock succeeds exactly for the owner of a locked lock. It keeps the lock well formed. It keeps the mutex or fully releases the lock. A woken waiter is always left facing an ownerless fat lock. |
| NativeLoader.UnlockOwnerCheck | sweetspi-runtime/src/nativeMain/kotlin/InternalServiceLoader.native.kt:77 | Unlock fails exactly when the caller is not the owner. The failure names the actual owner, which is null when the lock is unlocked. |
| NativeLoader.NotObtainedUnreachable | sweetspi-runtime/src/nativeMain/kotlin/InternalServiceLoader.native.kt:110 | The "not obtained" error of unlock is never produced. |
| NativeLoader.UnlockNested | sweetspi-runtime/src/nativeMain/kotlin/InternalServiceLoader.native.kt:85-107 | A nested unlock only decrements the nesting count. |
| NativeLoader.UnlockLast | sweetspi-runtime/src/nativeMain/kotlin/InternalServiceLoader.native.kt:81-100 | The last unlock of a thin lock returns it to unlocked. On a fat lock it clears the owner, takes one waiter off the count and wakes it through the lock's mutex. |
| NativeLoader.ResumeStep | sweetspi-runtime/src/nativeMain/kotlin/InternalServiceLoader.native.kt:115-130 | A woken thread becomes the owner, nested once. It deflates the lock and hands back the mutex node exactly when no waiters remain, and it keeps the lock well formed. |
| NativeLoader.ResumeDeflates | sweetspi-runtime/src/nativeMain/kotlin/InternalServiceLoader.native.kt:118-126 | The exact state after the retry, with and without remaining waiters. |
| NativeLoader.LockRepeatedlyNests | sweetspi-runtime/src/nativeMain/kotlin/InternalServiceLoader.native.kt:29-58 | n reentrant locks by the owner add n to the nesting count and change nothing else. |
| NativeLoader.UnlockRepeatedlyUnnests | sweetspi-runtime/src/nativeMain/kotlin/InternalServiceLoader.native.kt:85-107 | n nested unlocks subtract n from the nesting count and change nothing else. |
| NativeLoader.NestedRoundTrip | sweetspi-runtime/src/nativeMain/kotlin/InternalServiceLoader.native.kt:18-113 | n reentrant locks followed by n unlocks restore the lock state exactly. |
| NativeLoader.LockFromUnlocked | sweetspi-runtime/src/nativeMain/kotlin/InternalServiceLoader.native.kt:23-34 | n locks from unlocked give a thin lock nested n times. |
| NativeLoader.UnlockToUnlocked | sweetspi-runtime/src/nativeMain/kotlin/InternalServiceLoader.native.kt:79-90 | n unlocks of a thin lock nested n times leave it unlocked. |
| NativeLoader.ReentrantRoundTrip | sweetspi-runtime/src/nativeMain/kotlin/InternalServiceLoader.native.kt:16-113 | Uncontended, n locks then n unlocks return the lock to unlocked. |
| NativeLoader.LockUnlockRestores | sweetspi-runtime/src/nativeMain/kotlin/InternalServiceLoader.native.kt:143-150 | From an unlocked lock, or one the caller owns, a lock always acquires. The matching unlock restores the previous state and wakes no one. |
| NativeLoader.PoolRelease | sweetspi-runtime/src/nativeMain/kotlin/InternalServiceLoader.native.kt:172-178 | Releasing a node pushes it on top of the free list, leaves the rest of the list as it was, and keeps the pool valid. |
| NativeLoader.PoolPop | sweetspi-runtime/src/nativeMain/kotlin/InternalServiceLoader.native.kt:180-186 | Pop returns null exactly on an empty free list. Otherwise it returns the top node and leaves the rest of the list. |
| NativeLoader.PoolAllocate | sweetspi-runtime/src/nativeMain/kotlin/InternalServiceLoader.native.kt:170 | Allocation reuses the top free node, or creates a fresh one when the list is empty. The node it returns is not free afterwards. |
| NativeLoader.ReleaseThenAllocate | sweetspi-runtime/src/nativeMain/kotlin/InternalServiceLoader.native.kt:170-186 | Allocating right after a release returns the released node and restores the pool. |
| NativeLoader.FilledPool | sweetspi-runtime/src/nativeMain/kotlin/InternalServiceLoader.native.kt:163-166 | The pre-filled pool is valid and holds exactly `capacity` free nodes. |
| NativeLoader.InitialSystemInv | sweetspi-runtime/src/nativeMain/kotlin/InternalServiceLoader.native.kt:152-166 | An unlocked lock over a freshly filled pool satisfies the system invariant. |
| NativeLoader.LostInflation | sweetspi-runtime/src/nativeMain/kotlin/InternalServiceLoader.native.kt:37-49 | A contending `lock()` whose inflating compare-and-set lost leaves the lock and the threads unchanged. On a non-empty pool the pool is unchanged too. On an empty pool a fresh node was created and now sits alone on the free stack. |
| NativeLoader.StepPreservesInv | sweetspi-runtime/src/nativeMain/kotlin/InternalServiceLoader.native.kt:18-130 | Every lock, unlock, resume or lost inflation step by any thread preserves the system invariant. The invariant covers: a well-formed lock; the waiter count equal to the number of parked threads; the owner and the resuming thread not parked; the lock's mutex node not free in the pool. |
| NativeLoader.RunPreservesInv | sweetspi-runtime/src/nativeMain/kotlin/InternalServiceLoader.native.kt:18-130 | Any sequence of steps keeps the system invariant. |
| NativeLoader.InitialNoNodeLost | sweetspi-runtime/src/nativeMain/kotlin/InternalServiceLoader.native.kt:152-166 | In a fresh system every created node is on the free stack. |
| NativeLoader.StepKeepsNodes | sweetspi-runtime/src/nativeMain/kotlin/InternalServiceLoader.native.kt:18-130 | Every step keeps every created node either free or held by the lock: inflation borrows one node, deflation returns it, and a lost inflation returns the node it allocated (a fresh one when the pool was empty, so free and created grow together). |
| NativeLoader.RunKeepsNodes | sweetspi-runtime/src/nativeMain/kotlin/InternalServiceLoader.native.kt:18-130 | No run of steps loses a mutex node. |
| NativeLoader.RunNeverShrinks | sweetspi-runtime/src/nativeMain/kotlin/InternalServiceLoader.native.kt:168-170 | A run never lowers the number of created nodes. |
| NativeLoader.UnlockedPoolFull | sweetspi-runtime/src/nativeMain/kotlin/InternalServiceLoader.native.kt:118-126 | After any run from a filled pool that leaves the lock unlocked, every created node is back on the free stack, and at least the initial capacity exists. |
| NativeLoader.HandOffIsExclusive | sweetspi-runtime/src/nativeMain/kotlin/InternalServiceLoader.native.kt:53-77 | With parked threads the lock is fat. While a woken thread has not yet retried, no other thread can lock or unlock. |
| NativeLoader.ContentionScenario | sweetspi-runtime/src/nativeMain/kotlin/InternalServiceLoader.native.kt:18-130 | Two threads contend. The lock inflates, hands off to the waiter, deflates, and ends unlocked with the node back in the pool. |
| NativeLoader.MutexPool.constructor | sweetspi-runtime/src/nativeMain/kotlin/InternalServiceLoader.native.kt:163-166 | A new pool equals the filled pool of the given capacity. |
| NativeLoader.MutexPool.AllocMutexNode | sweetspi-runtime/src/nativeMain/kotlin/InternalServiceLoader.native.kt:168 | Creates a fresh node and leaves the free list unchanged. |
| NativeLoader.MutexPool.Allocate | sweetspi-runtime/src/nativeMain/kotlin/InternalServiceLoader.native.kt:170 | Returns and updates the pool exactly as `PoolAllocate`. |
| NativeLoader.MutexPool.Release | sweetspi-runtime/src/nativeMain/kotlin/InternalServiceLoader.native.kt:172-178 | Updates the pool exactly as `PoolRelease`. |
| NativeLoader.MutexPool.Pop | sweetspi-runtime/src/nativeMain/kotlin/InternalServiceLoader.native.kt:180-186 | Returns and updates the pool exactly as `PoolPop`. |
| NativeLoader.SynchronizedObject.constructor | sweetspi-runtime/src/nativeMain/kotlin/InternalServiceLoader.native.kt:16 | A new lock is unlocked and uses the given pool. |
| NativeLoader.SynchronizedObject.Lock | sweetspi-runtime/src/nativeMain/kotlin/InternalServiceLoader.native.kt:18-71 | `lock()` makes the `LockStep` transition. It takes a node from the pool only when it inflates the lock, and it keeps the object valid. |
| NativeLoader.SynchronizedObject.Unlock | sweetspi-runtime/src/nativeMain/kotlin/InternalServiceLoader.native.kt:73-113 | `unlock()` makes the `UnlockStep` transition and leaves the state unchanged when it fails. |
| NativeLoader.SynchronizedObject.TryLockAfterResume | sweetspi-runtime/src/nativeMain/kotlin/InternalServiceLoader.native.kt:115-130 | The retry makes the `ResumeStep` transition and returns a deflated lock's node to the pool. |
| NativeLoader.Synchronized | sweetspi-runtime/src/nativeMain/kotlin/InternalServiceLoader.native.kt:143-150 | `synchronized` returns the block's value. It leaves the lock state and the pool as they were. |
| NonJvmLoader.Register | sweetspi-runtime/src/nonJvmMain/kotlin/InternalServiceLoader.nonJvm.kt:14-17 | Before the first read a registration appends the module. After it, registration fails with the "already initialized" error and changes nothing. Consistency is kept. |
| NonJvmLoader.Read | sweetspi-runtime/src/nonJvmMain/kotlin/InternalServiceLoader.nonJvm.kt:11 | Reading freezes the registry. It serves exactly the modules registered so far, and a second read changes nothing. |
| NonJvmLoader.ReplayAfterRead | sweetspi-runtime/src/nonJvmMain/kotlin/InternalServiceLoader.nonJvm.kt:11-17 | Once read, no history of calls changes the registry. |
| NonJvmLoader.ReplayRegistry | sweetspi-runtime/src/nonJvmMain/kotlin/InternalServiceLoader.nonJvm.kt:8-17 | After any history the registry holds exactly the modules registered before the first read. It is frozen exactly when some read happened, and it stays consistent. |
| NonJvmLoader.ServiceRegistry.constructor | sweetspi-runtime/src/nonJvmMain/kotlin/InternalServiceLoader.nonJvm.kt:8-11 | A new registry is empty and not yet read. |
| NonJvmLoader.ServiceRegistry.RegisterInternalServiceModule | sweetspi-runtime/src/nonJvmMain/kotlin/InternalServiceLoader.nonJvm.kt:14-17 | Makes the `Register` transition and returns its result. |
| NonJvmLoader.ServiceRegistry.InternalServiceLoader | sweetspi-runtime/src/nonJvmMain/kotlin/InternalServiceLoader.nonJvm.kt:11 | Makes the `Read` transition and serves its list. |
| Analyze.ServiceLogEmpty | sweetspi-processor/src/main/kotlin/analyze.kt:26-35 | The service declarations produce no error exactly when every `@Service` is abstract. |
| Analyze.ServiceLogCount | sweetspi-processor/src/main/kotlin/analyze.kt:26-35 | There is exactly one error per non-abstract `@Service`. |
| Analyze.ShapeLogEmpty | sweetspi-processor/src/main/kotlin/analyze.kt:38-78 | The provider declarations produce no error exactly when every provider has a valid shape: a class provider is an `object`; a function provider is top-level, without receiver, not `suspend` and without parameters; a property provider is immutable, without receiver and not `suspend`. Visibility is not checked. |
| Analyze.DeclarationLogs | sweetspi-processor/src/main/kotlin/analyze.kt:26-78 | The declaration pass logs nothing exactly when all declarations are valid, with one error per non-abstract service. |
| Analyze.CheckServices | sweetspi-processor/src/main/kotlin/analyze.kt:26-35 | The loop logs exactly the service errors. It reports valid exactly when every service is abstract. |
| Analyze.CheckProviders | sweetspi-processor/src/main/kotlin/analyze.kt:38-78 | The loop logs exactly the shape errors. It reports valid exactly when every provider's shape is valid. |
| Analyze.DeclaredLogEmpty | sweetspi-processor/src/main/kotlin/analyze.kt:110-120 | The explicitly listed service types produce no error exactly when each is annotated `@Service` and is a super type of the provider's type. |
| Analyze.CheckDeclared | sweetspi-processor/src/main/kotlin/analyze.kt:110-120 | The loop logs exactly those errors and is valid exactly when it logged none. |
| Analyze.DeclaredServiceTypes | sweetspi-processor/src/main/kotlin/analyze.kt:97-123 | An empty argument list means "infer". Otherwise the types are the listed ones without duplicates, together with their validity and errors. |
| Analyze.CollectMembers | sweetspi-processor/src/main/kotlin/analyze.kt:125-135 | The inferred service types are exactly the `@Service` types reachable through super types, added to the builder without duplicates. |
| Analyze.CollectFromMembers | sweetspi-processor/src/main/kotlin/analyze.kt:126-130 | The same, for the walk over the remaining super types. |
| Analyze.CollectServiceTypes | sweetspi-processor/src/main/kotlin/analyze.kt:126-130 | The recursive walk computes the collected list. |
| Analyze.ServiceTypesMembers | sweetspi-processor/src/main/kotlin/analyze.kt:139 | A provider's service types have no duplicates. With explicit types they are exactly the listed ones. Inferred, they are exactly the reachable `@Service` super types. |
| Analyze.GetOrPutAdd | sweetspi-processor/src/main/kotlin/analyze.kt:147 | Adding a provider under a key appends it to that key's list only, and appends the key to the order when it is new. |
| Analyze.AddAllLookup | sweetspi-processor/src/main/kotlin/analyze.kt:146-148 | Adding a provider under distinct types appends it to the list of each of those types and no other. |
| Analyze.AddServiceTypes | sweetspi-processor/src/main/kotlin/analyze.kt:146-148 | The loop computes `AddAll`. |
| Analyze.AddProvider | sweetspi-processor/src/main/kotlin/analyze.kt:138-149 | One provider: the map gains it under each of its service types, unless it has none. The errors are exactly those for the provider, and it is valid exactly when it has service types and they check. |
| Analyze.BuildMapLookup | sweetspi-processor/src/main/kotlin/analyze.kt:137-150 | In the built map, each service's list is exactly the providers serving it, in declaration order. A service is a key exactly when it has a provider. |
| Analyze.MapErrorsEmpty | sweetspi-processor/src/main/kotlin/analyze.kt:139-145 | A provider produces no error exactly when it is valid. |
| Analyze.MapLogEmpty | sweetspi-processor/src/main/kotlin/analyze.kt:137-150 | The map pass logs nothing exactly when every provider is valid. |
| Analyze.BuildServiceProvidersMap | sweetspi-processor/src/main/kotlin/analyze.kt:137-150 | The loop builds the specified map and log, and its validity flag means every provider is valid. |
| Analyze.CommonPrefix | sweetspi-processor/src/main/kotlin/analyze.kt:159 | The result is a prefix of both lists and cannot be extended. |
| Analyze.ReducePrefixIsPrefix | sweetspi-processor/src/main/kotlin/analyze.kt:158-160 | The reduced prefix is a prefix of every package's segments. |
| Analyze.ReducePrefixIsLongest | sweetspi-processor/src/main/kotlin/analyze.kt:154-160 | It is the longest such prefix. It equals some package or is followed by differing segments in two packages. |
| Analyze.PackageNameIsCommonPrefix | sweetspi-processor/src/main/kotlin/analyze.kt:154-160 | The computed package name's segments start every declaration's package. |
| Analyze.SinglePackage | sweetspi-processor/src/main/kotlin/analyze.kt:154-160 | When all declarations share one package, that package is the result. |
| Analyze.Analyze | sweetspi-processor/src/main/kotlin/analyze.kt:80-172 | A context is produced exactly when there are declarations and nothing was logged, which holds exactly when everything is valid. The context's package, services and map are the specified ones. |
| Generate.ModuleName | sweetspi-processor/src/main/kotlin/generate.kt:22 | The module name is the package name with every `.` replaced by `_` and every other character kept. |
| Generate.BuildProvidersBody | sweetspi-processor/src/main/kotlin/generate.kt:39-61 | The loop builds one branch per service, in map order, then the else branch. |
| Generate.Generate | sweetspi-processor/src/main/kotlin/generate.kt:16-141 | Generation produces the specified plan. |
| Generate.ServicesGetterMatches | sweetspi-processor/src/main/kotlin/generate.kt:24-37 | The `setOf(...)` getter's placeholders match its arguments, which are the given classes in order. |
| Generate.ProviderRefMatches | sweetspi-processor/src/main/kotlin/generate.kt:47-54 | Each provider reference is one placeholder of the kind its argument needs: class, property or function. |
| Generate.BranchMatches | sweetspi-processor/src/main/kotlin/generate.kt:55-57 | A `when` branch's placeholders match its arguments. |
| Generate.ProvidersBodyShape | sweetspi-processor/src/main/kotlin/generate.kt:45-60 | The providers body has one branch per key, in map order, followed by the else branch. Each branch's arguments are the service twice and then its providers. |
| Generate.DeprecatedHiddenMatches | sweetspi-processor/src/main/kotlin/generate.kt:69-74 | The deprecation annotation's format matches its arguments. |
| Generate.ModuleObjectMatches | sweetspi-processor/src/main/kotlin/generate.kt:63-86 | Every piece of code in the module object matches its arguments. |
| Generate.InitPropertyMatches | sweetspi-processor/src/main/kotlin/generate.kt:88-113 | The init property's initializer and annotations match their arguments. |
| Generate.FileAnnotationsMatch | sweetspi-processor/src/main/kotlin/generate.kt:118-127 | The file's suppression and opt-in annotations match their arguments on every platform. |
| Generate.PlanMatches | sweetspi-processor/src/main/kotlin/generate.kt:115-129 | Every format in every plan matches its arguments. |
| Generate.RegistrationExactlyOnce | sweetspi-processor/src/main/kotlin/generate.kt:126-140 | The module is registered exactly one way: a service file on the JVM, the init property elsewhere. The file's path names the runtime interface, and its content names the module object. |
| Generate.ServiceFileNamesModule | sweetspi-processor/src/main/kotlin/generate.kt:138 | The service file's content is the package's segments followed by the module name. |
| Generate.PlatformDecisions | sweetspi-processor/src/main/kotlin/generate.kt:63-109 | The module object is internal, and deprecated-hidden, exactly on the JVM, and never public. The init property is public, `dynamic` and `@JsExport` exactly on JS. It is eagerly initialized exactly on JS, Wasm and Native. |
| Generate.ServiceGettersList | sweetspi-processor/src/main/kotlin/generate.kt:77-78 | The getters list exactly the declared services and exactly the map's keys, in order. |
| GradleApi.CoordinatesParse | sweetspi-gradle-plugin/src/main/kotlin/api.kt:39 | A `group:artifact:version` notation splits back into its three parts. |
| GradleApi.ArtifactCoordinates | sweetspi-gradle-plugin/src/main/kotlin/api.kt:38-62 | The processor and runtime notations parse to the plugin's group, their artifact and the version. |
| GradleApi.ConfigurationNameShape | sweetspi-gradle-plugin/src/main/kotlin/api.kt:180-197 | Only the common main compilation has no KSP configuration. Every other name is `ksp` followed by the capitalised target, source-set or compilation part. |
| GradleApi.SingleTargetMain | sweetspi-gradle-plugin/src/main/kotlin/api.kt:186-188 | The main compilation of a single-target project uses plain `ksp`. |
| GradleApi.ConfigurationNameDetermines | sweetspi-gradle-plugin/src/main/kotlin/api.kt:180-197 | Equal configuration names mean the same served name, up to the case of its first letter. |
| GradleApi.DefaultFilterIgnoresCase | sweetspi-gradle-plugin/src/main/kotlin/api.kt:112 | The default filter depends only on the lower-cased compilation name and accepts `main`. |
| GradleApi.CompilationDependenciesPlaced | sweetspi-gradle-plugin/src/main/kotlin/api.kt:171-177 | A compilation gets nothing exactly when it is the common main one. Otherwise it gets the processor in its KSP configuration, then the runtime in its implementation configuration. |
| GradleApi.TargetDependenciesPlaced | sweetspi-gradle-plugin/src/main/kotlin/api.kt:144-150 | Every dependency added for a target is the processor in a KSP configuration or the runtime. |
| GradleApi.TargetDependenciesCount | sweetspi-gradle-plugin/src/main/kotlin/api.kt:144-150 | A target gains two dependencies per compilation the filter accepts, leaving out the common main one. |
| GradleApi.TargetsDependenciesPlaced | sweetspi-gradle-plugin/src/main/kotlin/api.kt:111-118 | The same placement holds over all targets. |
| GradleApi.ExtensionDependenciesPlaced | sweetspi-gradle-plugin/src/main/kotlin/api.kt:111-118 | The same placement holds for every kind of Kotlin project. |
| GradleApi.DependencyHandler.Add | sweetspi-gradle-plugin/src/main/kotlin/api.kt:174-175 | Adding a dependency appends it and keeps the earlier ones. |
| GradleApi.WithSweetSpiCompilation | sweetspi-gradle-plugin/src/main/kotlin/api.kt:171-177 | Appends exactly the compilation's dependencies. |
| GradleApi.WithSweetSpiTarget | sweetspi-gradle-plugin/src/main/kotlin/api.kt:144-150 | Appends exactly the dependencies of the filtered compilations of the target, in order. |
| GradleApi.WithSweetSpiTargets | sweetspi-gradle-plugin/src/main/kotlin/api.kt:116 | Appends exactly the dependencies of all targets, in order. |
| GradleApi.WithSweetSpi | sweetspi-gradle-plugin/src/main/kotlin/api.kt:111-118 | Appends exactly the specified dependencies for a JVM, Android or multiplatform project. |
| GradlePlugin.ToBooleanStrict | sweetspi-gradle-plugin/src/main/kotlin/SweetSpiPlugin.kt:58 | Only `true` and `false` parse, and the value is true exactly for `true`. |
| GradlePlugin.SuppressChecker | sweetspi-gradle-plugin/src/main/kotlin/SweetSpiPlugin.kt:56-60 | An absent property means "do not suppress". A present one is parsed strictly. |
| GradlePlugin.AfterEvaluate | sweetspi-gradle-plugin/src/main/kotlin/SweetSpiPlugin.kt:80-90 | Reports a missing plugin exactly when the plugin was not applied. It reports a missing processor exactly when the plugin was applied without the processor, and nothing exactly when both were seen. |
| GradlePlugin.Apply | sweetspi-gradle-plugin/src/main/kotlin/SweetSpiPlugin.kt:55-91 | A malformed property fails. Suppression reports nothing. Otherwise the result is the after-evaluation report over the flags the listeners compute from the build's events. |
| GradlePlugin.FlagsMeaning | sweetspi-gradle-plugin/src/main/kotlin/SweetSpiPlugin.kt:64-77 | The plugin flag is set exactly when the KSP plugin was applied at some point. The processor flag is set exactly when the processor was later added to a `ksp*` configuration. |
| GradlePlugin.KspAppliedMeaning | sweetspi-gradle-plugin/src/main/kotlin/SweetSpiPlugin.kt:67-68 | The plugin flag, stated directly. |
| GradlePlugin.ProcessorAddedMeaning | sweetspi-gradle-plugin/src/main/kotlin/SweetSpiPlugin.kt:69-75 | The processor flag, stated directly. |
| GradlePlugin.ProcessorImpliesPlugin | sweetspi-gradle-plugin/src/main/kotlin/SweetSpiPlugin.kt:67-75 | The processor flag is never set without the plugin flag. |
| GradlePlugin.WithSweetSpiSatisfiesChecker | sweetspi-gradle-plugin/src/main/kotlin/SweetSpiPlugin.kt:69-89 | With the KSP plugin applied, `withSweetSpi` on any compilation with a KSP configuration leaves the checker silent. |
| GradlePlugin.NoPluginNoProcessor | sweetspi-gradle-plugin/src/main/kotlin/SweetSpiPlugin.kt:67-81 | Without the KSP plugin neither flag is ever set, whatever else is added. |
| GradlePlugin.ProcessorBeforePluginMissed | sweetspi-gradle-plugin/src/main/kotlin/SweetSpiPlugin.kt:67-75 | A processor dependency added before the KSP plugin is not seen, so the processor is reported missing. |
| Common.JoinSplit | sweetspi-processor/src/main/kotlin/analyze.kt:157-160 | Joining the pieces of a split with the same separator gives the string back. |

## Left out

- Thread interleaving inside one call is not modelled. Each `lock`, `unlock` or retry is one atomic step. A lost compare-and-set leaves the lock as it was and the loop retries. The one lost race with an effect, the inflation attempt that allocated a pool node and releases it again (`InternalServiceLoader.native.kt:37-49`), is the system action `LostInflation`. The class `SynchronizedObject` models only winning compare-and-sets.
- Blocking on the native mutex and the pthread code of `MutexNode` are not modelled, because they are foreign calls. Parking and waking become the parked and resuming sets of the system model.
- The pool's lazily created singleton of 64 nodes becomes a pool passed in, with its capacity as a parameter.
- NativeLoader.Synchronized: only the call in which `lock()` returns without blocking is modelled (the lock is unlocked or already held by the caller). A `synchronized` call on a lock another thread holds parks the caller, and that path exists only in the system model (`SystemLock`, `SystemUnlock`, `SystemResume`, with `ContentionScenario` as a complete run).
- Declarations nested in classes are not modelled. A class name is its package and simple name, so `toClassName()` of a nested declaration (`generate.kt:49`, `generate.kt:77`), which keeps the enclosing classes, is not captured.
- Kotlin `Int` overflow of the nesting and waiter counters is not modelled. They are unbounded integers.
- KSP symbol resolution becomes the `Universe` value: classes, super types, annotations, packages.
- The "should not happen" and `error(...)` paths for a missing annotation or argument are left out, because the abstract symbol model cannot express them. So is the `as KSClassDeclaration` cast.
- The originating files and dependencies of the generated file (`analyze.kt:162-165`) are left out, because they only feed KSP's incremental processing.
- The two diagnostics about listed service types embed renderings of KSP types. The model logs them as values rather than exact texts.
- KotlinPoet rendering and the writing of files are left out. Generation stops at the plan, and its formats are checked against their arguments.
- Gradle's live collections (`all`, `configureEach`, `whenObjectAdded`, `withId`) become iteration over the current elements or over a sequence of build events.
- Logger output is left out. The checker's error is the result of `Apply`, and `Message` holds its text.
- Case mapping is ASCII only.
- `SweetSpiProperties` (the artifact version) is a parameter.
- GradlePlugin.DependencyEvent: Gradle's parsing of a dependency notation is modelled as splitting at `:`.
- The JVM and JS runtime adapters, `ServiceLoader.kt`, `process.kt`, the tests and the build scripts are not part of this model.

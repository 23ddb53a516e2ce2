/** The generation pass of the symbol processor, as a plan: what the
    generated file declares on a given platform (the module object, its
    members and annotations, the registration property, the file
    annotations) and, on the JVM, the service file. Code is kept as
    KotlinPoet format strings, already cut into literal text and `%`
    placeholders, with their arguments; nothing is rendered or written. */
module Generate {
  import opened Common
  import opened Analyze

  /** What KSP reports for the target platform: the kind of the platform
      info object and its `toString()`. */
  datatype PlatformInfo = JvmPlatformInfo | NativePlatformInfo | OtherPlatformInfo

  datatype Platform = Platform(info: PlatformInfo, text: string)

  predicate IsJs(p: Platform) { p.text == "JS" }
  predicate IsWasm(p: Platform) { p.text == "Wasm" }
  predicate IsNative(p: Platform) { p.info == NativePlatformInfo }
  predicate IsJvm(p: Platform) { p.info == JvmPlatformInfo }

  datatype ClassName = ClassName(packageName: string, simpleName: string)
  datatype MemberName = MemberName(packageName: string, simpleName: string)

  /** An argument of a format: for `%T`, `%M` or `%S`. */
  datatype Arg = TypeArg(t: ClassName) | MemberArg(m: MemberName) | StringArg(s: string)

  /** A piece of a format: literal text, or a placeholder `%T`, `%M`, `%S`
      named by its letter. */
  datatype Piece = Text(text: string) | Placeholder(kind: char)

  type Format = seq<Piece>

  const TypeRef := Placeholder('T')
  const MemberRef := Placeholder('M')
  const StringRef := Placeholder('S')

  /** One KotlinPoet statement or annotation member: a format and its
      arguments. */
  datatype Code = Code(format: Format, args: seq<Arg>)

  datatype AnnotationSpec = AnnotationSpec(annotation: ClassName, members: seq<Code>)

  datatype Visibility = Public | Internal | Private

  datatype PropertyType = Dynamic | UnitType

  /** The generated `object`: visibility, annotations, superinterface and
      the bodies of its four members. */
  datatype ModuleObject = ModuleObject(
    name: string,
    visibility: Visibility,
    annotations: seq<AnnotationSpec>,
    superinterface: ClassName,
    servicesGetter: Code,
    requiredServicesGetter: Code,
    providersBody: seq<Code>,
    toStringBody: Code)

  /** The top-level property whose initializer registers the module. */
  datatype InitProperty = InitProperty(
    name: string,
    propertyType: PropertyType,
    visibility: Visibility,
    annotations: seq<AnnotationSpec>,
    initializer: Code)

  datatype ServiceFile = ServiceFile(path: string, content: string)

  datatype Plan = Plan(
    packageName: string,
    fileName: string,
    moduleObject: ModuleObject,
    fileAnnotations: seq<AnnotationSpec>,
    initProperty: Option<InitProperty>,
    serviceFile: Option<ServiceFile>)

  const InternalPackage := "dev.whyoleg.sweetspi.internal"
  const InternalServiceModule := ClassName(InternalPackage, "InternalServiceModule")
  const RegisterInternalServiceModule := MemberName(InternalPackage, "registerInternalServiceModule")
  const NothingType := ClassName("kotlin", "Nothing")
  /** `META-INF/services/dev.whyoleg.sweetspi.internal.InternalServiceModule`. */
  const ServiceFilePath := "META-INF/services/" + InternalPackage + "." + InternalServiceModule.simpleName

  /** `@Deprecated("", level = DeprecationLevel.HIDDEN)`. */
  const DeprecatedHidden := AnnotationSpec(ClassName("kotlin", "Deprecated"),
    [Code([StringRef], [StringArg("")]),
     Code([Text("level = "), TypeRef, Text(".HIDDEN")], [TypeArg(ClassName("kotlin", "DeprecationLevel"))])])

  /** An annotation without arguments. */
  function Marker(c: ClassName): AnnotationSpec {
    AnnotationSpec(c, [])
  }

  /** `%T::class` for one class. */
  function ClassLiteral(c: ClassName): Code {
    Code([TypeRef, Text("::class")], [TypeArg(c)])
  }

  /** `packageName.replace(".", "_")`. */
  function ModuleName(packageName: string): (r: string)
    ensures |r| == |packageName|
    ensures '.' !in r
    ensures forall i :: 0 <= i < |r| ==> r[i] == if packageName[i] == '.' then '_' else packageName[i]
  {
    ReplaceChar(packageName, '.', '_')
  }

  // ---------------------------------------------------------------------
  // Members of the module object

  function ServiceClassName(s: ServiceDecl): ClassName {
    ClassName(s.packageName, s.name)
  }

  /** The getter of `services` / `requiredServices`. */
  function ServicesGetter(names: seq<ClassName>): Code {
    if names == [] then Code([Text("return emptySet<"), TypeRef, Text(">()")], [TypeArg(NothingType)])
    else Code([Text("return setOf(")] + Join(seq(|names|, _ => [TypeRef, Text("::class")]), [Text(",")]) + [Text(")")],
              seq(|names|, i requires 0 <= i < |names| => TypeArg(names[i])))
  }

  /** How one provider is referenced in a `when` branch: the object itself,
      a call of the function, or the property. */
  function ProviderRef(p: Provider): (Format, Arg) {
    if p.ClassProvider? then ([TypeRef], TypeArg(ClassName(p.packageName, p.name)))
    else if p.FunctionProvider? then ([MemberRef, Text("()")], MemberArg(MemberName(p.packageName, p.name)))
    else ([MemberRef], MemberArg(MemberName(p.packageName, p.name)))
  }

  /** `service::class -> listOf<service>(providers…)`. */
  function Branch(service: ClassName, providers: seq<Provider>): Code {
    var formats := seq(|providers|, i requires 0 <= i < |providers| => ProviderRef(providers[i]).0);
    var values := seq(|providers|, i requires 0 <= i < |providers| => ProviderRef(providers[i]).1);
    Code([TypeRef, Text("::class -> listOf<"), TypeRef, Text(">(")] + Join(formats, [Text(", ")]) + [Text(")")],
         [TypeArg(service), TypeArg(service)] + values)
  }

  const ElseBranch := Code([Text("else -> emptyList<"), TypeRef, Text(">()")], [TypeArg(NothingType)])

  /** The statements inside `return when (cls) { … }`: one branch per
      service key, in key order, then the `else` branch. */
  function ProvidersBody(m: ProviderMap, typeName: TypeId -> ClassName): seq<Code> {
    seq(|m.keys|, i requires 0 <= i < |m.keys| => Branch(typeName(m.keys[i]), Lookup(m, m.keys[i]))) + [ElseBranch]
  }

  /** `providersFunctionSpec()`: the `forEach` over the map adding one
      statement per entry, then the `else` statement. */
  method BuildProvidersBody(m: ProviderMap, typeName: TypeId -> ClassName) returns (body: seq<Code>)
    ensures body == ProvidersBody(m, typeName)
  {
    body := [];
    var i := 0;
    while i < |m.keys|
      invariant 0 <= i <= |m.keys|
      invariant |body| == i
      invariant forall j :: 0 <= j < i ==> body[j] == Branch(typeName(m.keys[j]), Lookup(m, m.keys[j]))
    {
      body := body + [Branch(typeName(m.keys[i]), Lookup(m, m.keys[i]))];
      i := i + 1;
    }
    body := body + [ElseBranch];
  }

  // ---------------------------------------------------------------------
  // The whole plan

  function ServiceNames(context: SweetContext): seq<ClassName> {
    seq(|context.services|, i requires 0 <= i < |context.services| => ServiceClassName(context.services[i]))
  }

  function RequiredServiceNames(context: SweetContext, typeName: TypeId -> ClassName): seq<ClassName> {
    var keys := context.serviceProviders.keys;
    seq(|keys|, i requires 0 <= i < |keys| => typeName(keys[i]))
  }

  /** `moduleTypeSpec()`, given the `providers` body. */
  function ModuleObjectOf(platform: Platform, context: SweetContext, typeName: TypeId -> ClassName, body: seq<Code>): ModuleObject {
    var name := ModuleName(context.packageName);
    ModuleObject(
      name,
      if IsJvm(platform) then Internal else Private,
      if IsJvm(platform) then [DeprecatedHidden] else [],
      InternalServiceModule,
      ServicesGetter(ServiceNames(context)),
      ServicesGetter(RequiredServiceNames(context, typeName)),
      body,
      Code([Text("return "), StringRef], [StringArg(name)]))
  }

  /** `generateInitPropertySpec()`. */
  function InitPropertyOf(platform: Platform, moduleName: string): InitProperty {
    InitProperty(
      "init_" + moduleName,
      if IsJs(platform) then Dynamic else UnitType,
      if IsJs(platform) then Public else Private,
      (if IsJs(platform)
       then [DeprecatedHidden, Marker(ClassName("kotlin.js", "JsExport")), Marker(ClassName("kotlin.js", "EagerInitialization"))]
       else []) +
      (if IsWasm(platform) then [Marker(ClassName("kotlin", "EagerInitialization"))] else []) +
      (if IsNative(platform) then [Marker(ClassName("kotlin.native", "EagerInitialization"))] else []),
      Code([MemberRef, Text("(" + moduleName + ")")], [MemberArg(RegisterInternalServiceModule)]))
  }

  /** `@OptIn(…)`, then `@Suppress("DEPRECATION")` off the JVM. */
  function FileAnnotations(platform: Platform): seq<AnnotationSpec> {
    var optIns :=
      [ClassLiteral(ClassName(InternalPackage, "InternalSweetSpiApi"))] +
      (if !IsJvm(platform) then [ClassLiteral(ClassName("kotlin", "ExperimentalStdlibApi"))] else []) +
      (if IsJs(platform) then [ClassLiteral(ClassName("kotlin.js", "ExperimentalJsExport"))] else []);
    [AnnotationSpec(ClassName("kotlin", "OptIn"), optIns)] +
    (if !IsJvm(platform) then [AnnotationSpec(ClassName("kotlin", "Suppress"), [Code([StringRef], [StringArg("DEPRECATION")])])] else [])
  }

  /** Everything `generate` writes for `context` on `platform`. */
  function PlanOf(platform: Platform, context: SweetContext, typeName: TypeId -> ClassName): Plan {
    var name := ModuleName(context.packageName);
    Plan(
      context.packageName,
      name,
      ModuleObjectOf(platform, context, typeName, ProvidersBody(context.serviceProviders, typeName)),
      FileAnnotations(platform),
      if IsJvm(platform) then None else Some(InitPropertyOf(platform, name)),
      if IsJvm(platform) then Some(ServiceFile(ServiceFilePath, context.packageName + "." + name)) else None)
  }

  /** `generate(codeGenerator, platform, context)`, writing nothing: the
      plan of what it writes. */
  method Generate(platform: Platform, context: SweetContext, typeName: TypeId -> ClassName) returns (plan: Plan)
    ensures plan == PlanOf(platform, context, typeName)
  {
    var moduleName := ModuleName(context.packageName);
    var body := BuildProvidersBody(context.serviceProviders, typeName);
    var moduleObject := ModuleObjectOf(platform, context, typeName, body);
    var initProperty := None;
    var serviceFile := None;
    if !IsJvm(platform) {
      initProperty := Some(InitPropertyOf(platform, moduleName));
    }
    if IsJvm(platform) {
      serviceFile := Some(ServiceFile(ServiceFilePath, context.packageName + "." + moduleName));
    }
    plan := Plan(context.packageName, moduleName, moduleObject, FileAnnotations(platform), initProperty, serviceFile);
  }

  // ---------------------------------------------------------------------
  // Every format matches its arguments

  /** The letters of the placeholders of a format, in order. */
  function Kinds(f: Format): seq<char> {
    if f == [] then [] else (if f[0].Placeholder? then [f[0].kind] else []) + Kinds(f[1..])
  }

  function ArgKind(a: Arg): char {
    match a
    case TypeArg(_) => 'T'
    case MemberArg(_) => 'M'
    case StringArg(_) => 'S'
  }

  function ArgKinds(args: seq<Arg>): seq<char> {
    seq(|args|, i requires 0 <= i < |args| => ArgKind(args[i]))
  }

  /** KotlinPoet pairs the `i`-th placeholder with the `i`-th argument and
      rejects the format otherwise: each placeholder has an argument of its
      own kind, and no argument is left over. */
  predicate Matches(c: Code) {
    Kinds(c.format) == ArgKinds(c.args)
  }

  predicate AllMatch(cs: seq<Code>) {
    forall i :: 0 <= i < |cs| ==> Matches(cs[i])
  }

  predicate AnnotationMatches(a: AnnotationSpec) {
    AllMatch(a.members)
  }

  predicate AnnotationsMatch(anns: seq<AnnotationSpec>) {
    forall i :: 0 <= i < |anns| ==> AnnotationMatches(anns[i])
  }

  function PieceKinds(p: Piece): seq<char> {
    if p.Placeholder? then [p.kind] else []
  }

  lemma Kinds1(a: Piece)
    ensures Kinds([a]) == PieceKinds(a)
  {
    assert [a][1..] == [];
  }

  lemma Kinds2(a: Piece, b: Piece)
    ensures Kinds([a, b]) == PieceKinds(a) + PieceKinds(b)
  {
    assert [a, b] == [a] + [b];
    KindsAppend([a], [b]);
    Kinds1(a);
    Kinds1(b);
  }

  lemma Kinds3(a: Piece, b: Piece, c: Piece)
    ensures Kinds([a, b, c]) == PieceKinds(a) + PieceKinds(b) + PieceKinds(c)
  {
    assert [a, b, c] == [a, b] + [c];
    KindsAppend([a, b], [c]);
    Kinds2(a, b);
    Kinds1(c);
  }

  lemma {:induction false} KindsAppend(a: Format, b: Format)
    ensures Kinds(a + b) == Kinds(a) + Kinds(b)
  {
    if a != [] {
      assert (a + b)[1..] == a[1..] + b;
      KindsAppend(a[1..], b);
    } else {
      assert a + b == b;
    }
  }

  /** Joining formats with a separator that has no placeholder keeps the
      placeholders of the parts, in order. */
  lemma {:induction false} KindsJoin(parts: seq<Format>, sep: Format, kinds: seq<char>)
    requires Kinds(sep) == []
    requires |kinds| == |parts|
    requires forall i :: 0 <= i < |parts| ==> Kinds(parts[i]) == [kinds[i]]
    ensures Kinds(Join(parts, sep)) == kinds
  {
    if |parts| == 1 {
      assert kinds == [kinds[0]];
    } else if |parts| > 1 {
      KindsJoin(parts[1..], sep, kinds[1..]);
      KindsAppend(parts[0], sep);
      KindsAppend(parts[0] + sep, Join(parts[1..], sep));
      assert kinds == [kinds[0]] + kinds[1..];
    }
  }

  lemma ServicesGetterMatches(names: seq<ClassName>)
    ensures Matches(ServicesGetter(names))
    ensures names != [] ==> ServicesGetter(names).args == seq(|names|, i requires 0 <= i < |names| => TypeArg(names[i]))
  {
    var c := ServicesGetter(names);
    Kinds3(Text("return emptySet<"), TypeRef, Text(">()"));
    Kinds2(TypeRef, Text("::class"));
    Kinds1(Text(","));
    Kinds1(Text("return setOf("));
    Kinds1(Text(")"));
    if names != [] {
      var parts := seq(|names|, _ => [TypeRef, Text("::class")]);
      var kinds := seq(|names|, _ => 'T');
      assert forall i :: 0 <= i < |parts| ==> Kinds(parts[i]) == [kinds[i]];
      KindsJoin(parts, [Text(",")], kinds);
      KindsAppend([Text("return setOf(")], Join(parts, [Text(",")]));
      KindsAppend([Text("return setOf(")] + Join(parts, [Text(",")]), [Text(")")]);
      assert ArgKinds(c.args) == kinds;
    }
  }

  lemma ProviderRefMatches(p: Provider)
    ensures Kinds(ProviderRef(p).0) == [ArgKind(ProviderRef(p).1)]
  {
    Kinds1(TypeRef);
    Kinds1(MemberRef);
    Kinds2(MemberRef, Text("()"));
  }

  lemma BranchFrameKinds(middle: Format)
    ensures Kinds([TypeRef, Text("::class -> listOf<"), TypeRef, Text(">(")] + middle + [Text(")")]) ==
            ['T', 'T'] + Kinds(middle)
  {
    var head: Format := [TypeRef, Text("::class -> listOf<"), TypeRef, Text(">(")];
    Kinds3(TypeRef, Text("::class -> listOf<"), TypeRef);
    KindsAppend([TypeRef, Text("::class -> listOf<"), TypeRef], [Text(">(")]);
    Kinds1(Text(">("));
    Kinds1(Text(")"));
    assert head == [TypeRef, Text("::class -> listOf<"), TypeRef] + [Text(">(")];
    KindsAppend(head, middle);
    KindsAppend(head + middle, [Text(")")]);
  }

  lemma BranchMatches(service: ClassName, providers: seq<Provider>)
    ensures Matches(Branch(service, providers))
  {
    var formats := seq(|providers|, i requires 0 <= i < |providers| => ProviderRef(providers[i]).0);
    var values := seq(|providers|, i requires 0 <= i < |providers| => ProviderRef(providers[i]).1);
    var kinds := ArgKinds(values);
    forall i | 0 <= i < |providers|
      ensures Kinds(formats[i]) == [kinds[i]]
    {
      ProviderRefMatches(providers[i]);
    }
    Kinds1(Text(", "));
    KindsJoin(formats, [Text(", ")], kinds);
    BranchFrameKinds(Join(formats, [Text(", ")]));
    var c := Branch(service, providers);
    assert ArgKinds(c.args) == ['T', 'T'] + kinds;
  }

  /** The `providers` body has one `when` branch per service key, in key
      order, each naming that key twice and then listing exactly that
      key's providers, before the final `else`; every statement matches
      its arguments. */
  lemma ProvidersBodyShape(m: ProviderMap, typeName: TypeId -> ClassName)
    ensures AllMatch(ProvidersBody(m, typeName))
    ensures |ProvidersBody(m, typeName)| == |m.keys| + 1
    ensures ProvidersBody(m, typeName)[|m.keys|] == ElseBranch
    ensures forall i :: 0 <= i < |m.keys| ==>
      var args := ProvidersBody(m, typeName)[i].args;
      |args| == 2 + |Lookup(m, m.keys[i])| &&
      args[0] == TypeArg(typeName(m.keys[i])) && args[1] == TypeArg(typeName(m.keys[i])) &&
      forall j :: 0 <= j < |Lookup(m, m.keys[i])| ==> args[2 + j] == ProviderRef(Lookup(m, m.keys[i])[j]).1
  {
    var body := ProvidersBody(m, typeName);
    forall i | 0 <= i < |body|
      ensures Matches(body[i])
    {
      if i < |m.keys| {
        BranchMatches(typeName(m.keys[i]), Lookup(m, m.keys[i]));
      } else {
        Kinds3(Text("else -> emptyList<"), TypeRef, Text(">()"));
      }
    }
  }

  lemma DeprecatedHiddenMatches()
    ensures AnnotationMatches(DeprecatedHidden)
  {
    Kinds1(StringRef);
    Kinds3(Text("level = "), TypeRef, Text(".HIDDEN"));
  }

  lemma ModuleObjectMatches(platform: Platform, context: SweetContext, typeName: TypeId -> ClassName)
    ensures var o := ModuleObjectOf(platform, context, typeName, ProvidersBody(context.serviceProviders, typeName));
      Matches(o.servicesGetter) && Matches(o.requiredServicesGetter) && AllMatch(o.providersBody) &&
      Matches(o.toStringBody) && AnnotationsMatch(o.annotations)
  {
    ServicesGetterMatches(ServiceNames(context));
    ServicesGetterMatches(RequiredServiceNames(context, typeName));
    ProvidersBodyShape(context.serviceProviders, typeName);
    Kinds2(Text("return "), StringRef);
    DeprecatedHiddenMatches();
  }

  lemma InitPropertyMatches(platform: Platform, moduleName: string)
    ensures Matches(InitPropertyOf(platform, moduleName).initializer)
    ensures AnnotationsMatch(InitPropertyOf(platform, moduleName).annotations)
  {
    Kinds2(MemberRef, Text("(" + moduleName + ")"));
    DeprecatedHiddenMatches();
  }

  lemma FileAnnotationsMatch(platform: Platform)
    ensures AnnotationsMatch(FileAnnotations(platform))
  {
    Kinds2(TypeRef, Text("::class"));
    Kinds1(StringRef);
  }

  /** Every statement and annotation member of the plan matches its
      arguments. */
  lemma PlanMatches(platform: Platform, context: SweetContext, typeName: TypeId -> ClassName)
    ensures var plan := PlanOf(platform, context, typeName);
      Matches(plan.moduleObject.servicesGetter) &&
      Matches(plan.moduleObject.requiredServicesGetter) &&
      AllMatch(plan.moduleObject.providersBody) &&
      Matches(plan.moduleObject.toStringBody) &&
      AnnotationsMatch(plan.moduleObject.annotations) &&
      AnnotationsMatch(plan.fileAnnotations) &&
      (plan.initProperty.Some? ==>
         Matches(plan.initProperty.value.initializer) && AnnotationsMatch(plan.initProperty.value.annotations))
  {
    ModuleObjectMatches(platform, context, typeName);
    InitPropertyMatches(platform, ModuleName(context.packageName));
    FileAnnotationsMatch(platform);
  }

  // ---------------------------------------------------------------------
  // Platform decisions and registration

  /** On the JVM the module is registered by the service file and nowhere
      else; on every other platform by the init property and nowhere else.
      The service file is named after the interface the object implements
      and holds the object's qualified name; the init property passes the
      object to `registerInternalServiceModule`. */
  lemma RegistrationExactlyOnce(platform: Platform, context: SweetContext, typeName: TypeId -> ClassName)
    ensures var plan := PlanOf(platform, context, typeName);
      (plan.serviceFile.Some? <==> IsJvm(platform)) &&
      (plan.initProperty.Some? <==> !IsJvm(platform)) &&
      (plan.serviceFile.Some? ==>
        plan.serviceFile.value.path ==
          "META-INF/services/" + plan.moduleObject.superinterface.packageName + "." + plan.moduleObject.superinterface.simpleName &&
        plan.serviceFile.value.content == plan.packageName + "." + plan.moduleObject.name) &&
      (plan.initProperty.Some? ==>
        plan.initProperty.value.initializer ==
          Code([MemberRef, Text("(" + plan.moduleObject.name + ")")], [MemberArg(RegisterInternalServiceModule)]))
  {
  }

  /** The service file's content splits at its dots into the segments of
      the package followed by the module name, which contains no dot: the
      last segment is the object's simple name. */
  lemma ServiceFileNamesModule(context: SweetContext)
    ensures var content := context.packageName + "." + ModuleName(context.packageName);
      Split(content, '.') == Split(context.packageName, '.') + [ModuleName(context.packageName)]
  {
    var name := ModuleName(context.packageName);
    SplitAtSep(context.packageName, name, '.');
    SplitNoSep(name, '.');
  }

  /** The visible differences between platforms: the object is internal and
      hidden from completion on the JVM and private elsewhere; the init
      property is public and `dynamic` on JS, private and `Unit` elsewhere,
      and carries an eager-initialization marker on JS, Wasm and Native. */
  lemma PlatformDecisions(platform: Platform, context: SweetContext, typeName: TypeId -> ClassName)
    ensures var plan := PlanOf(platform, context, typeName);
      (plan.moduleObject.visibility == Internal <==> IsJvm(platform)) &&
      (plan.moduleObject.visibility != Public) &&
      (DeprecatedHidden in plan.moduleObject.annotations <==> IsJvm(platform)) &&
      (plan.initProperty.Some? ==>
        (plan.initProperty.value.visibility == Public <==> IsJs(platform)) &&
        (plan.initProperty.value.propertyType == Dynamic <==> IsJs(platform)) &&
        (Marker(ClassName("kotlin.js", "JsExport")) in plan.initProperty.value.annotations <==> IsJs(platform)) &&
        ((exists i :: 0 <= i < |plan.initProperty.value.annotations| &&
            plan.initProperty.value.annotations[i].annotation.simpleName == "EagerInitialization") <==>
          IsJs(platform) || IsWasm(platform) || IsNative(platform)))
  {
    var plan := PlanOf(platform, context, typeName);
    if plan.initProperty.Some? {
      var anns := plan.initProperty.value.annotations;
      if IsJs(platform) {
        assert anns[2].annotation.simpleName == "EagerInitialization";
      } else if IsWasm(platform) {
        assert anns[0].annotation.simpleName == "EagerInitialization";
      } else if IsNative(platform) {
        assert anns[0].annotation.simpleName == "EagerInitialization";
      } else {
        assert anns == [];
      }
    }
  }

  /** The `services` getter lists the context's services, in order, and
      `requiredServices` the keys of the provider map, in order; an empty
      list is `emptySet<Nothing>()`. */
  lemma ServiceGettersList(platform: Platform, context: SweetContext, typeName: TypeId -> ClassName)
    ensures var o := PlanOf(platform, context, typeName).moduleObject;
      (context.services == [] ==> o.servicesGetter == ServicesGetter([])) &&
      (context.services != [] ==>
         o.servicesGetter.args == seq(|context.services|, i requires 0 <= i < |context.services| =>
                                      TypeArg(ClassName(context.services[i].packageName, context.services[i].name)))) &&
      (context.serviceProviders.keys == [] ==> o.requiredServicesGetter == ServicesGetter([])) &&
      (context.serviceProviders.keys != [] ==>
         o.requiredServicesGetter.args == seq(|context.serviceProviders.keys|, i requires 0 <= i < |context.serviceProviders.keys| =>
                                              TypeArg(typeName(context.serviceProviders.keys[i]))))
  {
    ServicesGetterMatches(ServiceNames(context));
    ServicesGetterMatches(RequiredServiceNames(context, typeName));
  }
}

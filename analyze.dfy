/** The analysis pass of the symbol processor: validate the `@Service` and
    `@ServiceProvider` declarations, work out which service types each
    provider serves, group the providers by service in first-seen order and
    compute the package the generated module goes to.

    The compiler's resolver is abstracted into a `Universe`: which type
    declarations carry `@Service`, the resolved supertypes of each type, and
    which types are assignable to which. Types are identified by number, and
    every supertype is numbered below its subtype, which is what makes the
    walk up the supertype graph terminate. */
module Analyze {
  import opened Common

  type TypeId = nat

  datatype Universe = Universe(
    serviceAnnotated: set<TypeId>,
    superTypes: map<TypeId, seq<TypeId>>,
    assignable: set<(TypeId, TypeId)>)

  /** The resolved supertypes of `t`, in declaration order. */
  function SuperTypes(u: Universe, t: TypeId): seq<TypeId> {
    if t in u.superTypes then u.superTypes[t] else []
  }

  /** The supertype graph has no cycles: supertypes are numbered lower. */
  predicate WellFounded(u: Universe) {
    forall t, i :: t in u.superTypes && 0 <= i < |u.superTypes[t]| ==> u.superTypes[t][i] < t
  }

  /** `sub.isInstanceOf(sup)`, that is `sup.isAssignableFrom(sub)`. */
  predicate IsInstanceOf(u: Universe, sub: TypeId, sup: TypeId) {
    (sub, sup) in u.assignable
  }

  // ---------------------------------------------------------------------
  // Declarations

  datatype ClassKind = Interface | Class | EnumClass | EnumEntry | Object | AnnotationClass

  datatype FunctionKind = TopLevel | Member | Static | Anonymous | Lambda

  /** A class annotated with `@Service`. */
  datatype ServiceDecl = ServiceDecl(name: string, packageName: string, isAbstract: bool)

  /** A declaration annotated with `@ServiceProvider`; `services` is the
      annotation's `services` argument, in the order written. */
  datatype Provider =
    | ClassProvider(name: string, packageName: string, classKind: ClassKind,
                    classType: TypeId, services: seq<TypeId>)
    | FunctionProvider(name: string, packageName: string, functionKind: FunctionKind,
                       hasExtensionReceiver: bool, isSuspend: bool, parameterCount: nat,
                       returnType: TypeId, services: seq<TypeId>)
    | PropertyProvider(name: string, packageName: string, isMutable: bool,
                       hasExtensionReceiver: bool, isSuspend: bool,
                       propertyType: TypeId, services: seq<TypeId>)

  /** The errors the analysis reports, one constructor per message. */
  datatype Diagnostic =
    | ServiceNotAbstract(serviceName: string)
    | ProviderNotObject(providerName: string)
    | InvalidFunctionProvider(providerName: string)
    | InvalidPropertyProvider(providerName: string)
    | MissingServiceAnnotation(serviceType: TypeId, providerName: string)
    | NotInheriting(providerType: TypeId, serviceType: TypeId, providerName: string)
    | NoApplicableServices(providerName: string)

  /** The message text of the diagnostics that name a declaration. */
  function Message(d: Diagnostic): Option<string> {
    match d
    case ServiceNotAbstract(n) =>
      Some("@Service target '" + n + "' should be an 'interface' or an 'abstract class'")
    case ProviderNotObject(n) =>
      Some("@ServiceProvider target '" + n + "' should be an 'object'")
    case InvalidFunctionProvider(n) =>
      Some("@ServiceProvider target '" + n + "' should be top-level non-suspend function without receiver")
    case InvalidPropertyProvider(n) =>
      Some("@ServiceProvider target '" + n + "' should be top-level immutable property without receiver")
    case NoApplicableServices(n) =>
      Some("No applicable services found for '" + n + "'")
    case _ => None
  }

  // ---------------------------------------------------------------------
  // Validation of the declarations themselves

  /** The shape rules for a provider: an `object`; a top-level function
      without receiver, `suspend` or parameters; an immutable property
      without receiver or `suspend`. */
  predicate ShapeValid(p: Provider) {
    match p
    case ClassProvider(_, _, kind, _, _) => kind == Object
    case FunctionProvider(_, _, kind, receiver, suspend, params, _, _) =>
      kind == TopLevel && !receiver && !suspend && params == 0
    case PropertyProvider(_, _, mutable, receiver, suspend, _, _) =>
      !mutable && !receiver && !suspend
  }

  function ShapeError(p: Provider): Diagnostic {
    if p.ClassProvider? then ProviderNotObject(p.name)
    else if p.FunctionProvider? then InvalidFunctionProvider(p.name)
    else InvalidPropertyProvider(p.name)
  }

  /** The errors of the `services.onEach` pass, in order. */
  function ServiceLog(services: seq<ServiceDecl>): seq<Diagnostic> {
    if services == [] then []
    else
      var s := services[|services| - 1];
      ServiceLog(services[..|services| - 1]) + (if s.isAbstract then [] else [ServiceNotAbstract(s.name)])
  }

  /** The errors of the `serviceProviders.onEach` pass, in order. */
  function ShapeLog(providers: seq<Provider>): seq<Diagnostic> {
    if providers == [] then []
    else
      var p := providers[|providers| - 1];
      ShapeLog(providers[..|providers| - 1]) + (if ShapeValid(p) then [] else [ShapeError(p)])
  }

  predicate DeclarationsValid(services: seq<ServiceDecl>, providers: seq<Provider>) {
    (forall i :: 0 <= i < |services| ==> services[i].isAbstract) &&
    (forall i :: 0 <= i < |providers| ==> ShapeValid(providers[i]))
  }

  /** The service pass reports nothing exactly when every service is
      abstract. */
  lemma {:induction false} ServiceLogEmpty(services: seq<ServiceDecl>)
    ensures ServiceLog(services) == [] <==> forall i :: 0 <= i < |services| ==> services[i].isAbstract
  {
    if services != [] {
      var n := |services| - 1;
      ServiceLogEmpty(services[..n]);
      assert (forall i :: 0 <= i < |services| ==> services[i].isAbstract) <==>
             (forall i :: 0 <= i < n ==> services[..n][i].isAbstract) && services[n].isAbstract;
    }
  }

  /** The service pass reports one error per service that is not abstract. */
  lemma {:induction false} ServiceLogCount(services: seq<ServiceDecl>)
    ensures |ServiceLog(services)| == |set i | 0 <= i < |services| && !services[i].isAbstract|
  {
    if services != [] {
      var n := |services| - 1;
      ServiceLogCount(services[..n]);
      var prev := set i | 0 <= i < n && !services[..n][i].isAbstract;
      var all := set i | 0 <= i < |services| && !services[i].isAbstract;
      if services[n].isAbstract {
        assert all == prev;
      } else {
        assert n !in prev;
        assert all == prev + {n};
      }
    }
  }

  /** The provider-shape pass reports nothing exactly when every provider
      has a valid shape. */
  lemma {:induction false} ShapeLogEmpty(providers: seq<Provider>)
    ensures ShapeLog(providers) == [] <==> forall i :: 0 <= i < |providers| ==> ShapeValid(providers[i])
  {
    if providers != [] {
      var n := |providers| - 1;
      ShapeLogEmpty(providers[..n]);
      assert (forall i :: 0 <= i < |providers| ==> ShapeValid(providers[i])) <==>
             (forall i :: 0 <= i < n ==> ShapeValid(providers[..n][i])) && ShapeValid(providers[n]);
    }
  }

  /** The declaration passes report nothing exactly when every declaration
      is valid, and one error per invalid service. */
  lemma DeclarationLogs(services: seq<ServiceDecl>, providers: seq<Provider>)
    ensures ServiceLog(services) + ShapeLog(providers) == [] <==> DeclarationsValid(services, providers)
    ensures |ServiceLog(services)| == |set i | 0 <= i < |services| && !services[i].isAbstract|
  {
    ServiceLogEmpty(services);
    ServiceLogCount(services);
    ShapeLogEmpty(providers);
  }

  // ---------------------------------------------------------------------
  // Service types of a provider

  /** `serviceProviderType()`: the object's type, the function's return type
      or the property's type. */
  function ProviderType(p: Provider): TypeId {
    if p.ClassProvider? then p.classType
    else if p.FunctionProvider? then p.returnType
    else p.propertyType
  }

  /** The two checks on one explicitly listed service type. */
  function DeclaredErrors(u: Universe, p: Provider, st: TypeId): seq<Diagnostic> {
    (if st in u.serviceAnnotated then [] else [MissingServiceAnnotation(st, p.name)]) +
    (if IsInstanceOf(u, ProviderType(p), st) then [] else [NotInheriting(ProviderType(p), st, p.name)])
  }

  /** The errors of `declaredServiceTypes()` over the first `k` listed types. */
  function DeclaredLog(u: Universe, p: Provider, k: nat): seq<Diagnostic>
    requires k <= |p.services|
  {
    if k == 0 then [] else DeclaredLog(u, p, k - 1) + DeclaredErrors(u, p, p.services[k - 1])
  }

  /** Every explicitly listed service type is a `@Service` type the provider
      inherits. */
  predicate DeclaredValid(u: Universe, p: Provider) {
    forall i :: 0 <= i < |p.services| ==>
      p.services[i] in u.serviceAnnotated && IsInstanceOf(u, ProviderType(p), p.services[i])
  }

  lemma {:induction false} DeclaredLogEmpty(u: Universe, p: Provider, k: nat)
    requires k <= |p.services|
    ensures DeclaredLog(u, p, k) == [] <==>
      forall i :: 0 <= i < k ==> p.services[i] in u.serviceAnnotated && IsInstanceOf(u, ProviderType(p), p.services[i])
  {
    if k > 0 {
      DeclaredLogEmpty(u, p, k - 1);
    }
  }

  /** `collectServiceTypes(builder)`: add `t` if it carries `@Service`, then
      walk its supertypes in declaration order. */
  function Collect(u: Universe, t: TypeId, builder: seq<TypeId>): seq<TypeId>
    requires WellFounded(u)
    decreases t, 1, 0
  {
    var b := if t in u.serviceAnnotated then AddLast(builder, t) else builder;
    CollectFrom(u, t, 0, b)
  }

  /** The walk over the supertypes of `t` from the `i`-th on. */
  function CollectFrom(u: Universe, t: TypeId, i: nat, builder: seq<TypeId>): seq<TypeId>
    requires WellFounded(u)
    requires i <= |SuperTypes(u, t)|
    decreases t, 0, |SuperTypes(u, t)| - i
  {
    if i == |SuperTypes(u, t)| then builder
    else
      assert SuperTypes(u, t)[i] < t;
      CollectFrom(u, t, i + 1, Collect(u, SuperTypes(u, t)[i], builder))
  }

  /** `x` is `t` or one of its supertypes, directly or not. */
  ghost predicate Reaches(u: Universe, t: TypeId, x: TypeId)
    requires WellFounded(u)
    decreases t
  {
    x == t || exists i :: 0 <= i < |SuperTypes(u, t)| && SuperTypes(u, t)[i] < t && Reaches(u, SuperTypes(u, t)[i], x)
  }

  /** What the walk adds: exactly the `@Service` types among `t` and its
      supertypes, each once. */
  lemma {:induction false} CollectMembers(u: Universe, t: TypeId, builder: seq<TypeId>, x: TypeId)
    requires WellFounded(u)
    ensures x in Collect(u, t, builder) <==> x in builder || (x in u.serviceAnnotated && Reaches(u, t, x))
    ensures NoDup(builder) ==> NoDup(Collect(u, t, builder))
    decreases t, 1, 0
  {
    var b := if t in u.serviceAnnotated then AddLast(builder, t) else builder;
    CollectFromMembers(u, t, 0, b, x);
    assert x in b <==> x in builder || (x == t && t in u.serviceAnnotated);
    var supers := SuperTypes(u, t);
    assert Reaches(u, t, x) <==> x == t || exists j :: 0 <= j < |supers| && Reaches(u, supers[j], x);
  }

  lemma {:induction false} CollectFromMembers(u: Universe, t: TypeId, i: nat, builder: seq<TypeId>, x: TypeId)
    requires WellFounded(u)
    requires i <= |SuperTypes(u, t)|
    ensures x in CollectFrom(u, t, i, builder) <==>
      x in builder || (x in u.serviceAnnotated &&
        exists j :: i <= j < |SuperTypes(u, t)| && Reaches(u, SuperTypes(u, t)[j], x))
    ensures NoDup(builder) ==> NoDup(CollectFrom(u, t, i, builder))
    decreases t, 0, |SuperTypes(u, t)| - i
  {
    var supers := SuperTypes(u, t);
    if i < |supers| {
      assert supers[i] < t;
      var b := Collect(u, supers[i], builder);
      CollectMembers(u, supers[i], builder, x);
      CollectFromMembers(u, t, i + 1, b, x);
      assert (exists j :: i <= j < |supers| && Reaches(u, supers[j], x)) <==>
             Reaches(u, supers[i], x) || exists j :: i + 1 <= j < |supers| && Reaches(u, supers[j], x);
    }
  }

  /** The walk, as the processor performs it: recursion over the supertype
      graph and a loop over each type's supertypes. */
  method CollectServiceTypes(u: Universe, t: TypeId, builder: seq<TypeId>) returns (b: seq<TypeId>)
    requires WellFounded(u)
    ensures b == Collect(u, t, builder)
    decreases t
  {
    b := builder;
    if t in u.serviceAnnotated {
      b := AddLast(b, t);
    }
    var supers := SuperTypes(u, t);
    var i := 0;
    while i < |supers|
      invariant 0 <= i <= |supers|
      invariant CollectFrom(u, t, i, b) == Collect(u, t, builder)
    {
      assert supers[i] < t;
      b := CollectServiceTypes(u, supers[i], b);
      i := i + 1;
    }
  }

  /** `declaredServiceTypes() ?: resolvedServiceTypes()`. */
  function ServiceTypes(u: Universe, p: Provider): seq<TypeId>
    requires WellFounded(u)
  {
    if p.services != [] then Distinct(p.services) else Collect(u, ProviderType(p), [])
  }

  /** The service types of a provider are distinct, are the listed ones when
      a list is given, and otherwise every `@Service` type among its type's
      supertypes. */
  lemma ServiceTypesMembers(u: Universe, p: Provider, x: TypeId)
    requires WellFounded(u)
    ensures NoDup(ServiceTypes(u, p))
    ensures p.services != [] ==> (x in ServiceTypes(u, p) <==> x in p.services)
    ensures p.services == [] ==>
      (x in ServiceTypes(u, p) <==> x in u.serviceAnnotated && Reaches(u, ProviderType(p), x))
  {
    CollectMembers(u, ProviderType(p), [], x);
  }

  /** The method form of `declaredServiceTypes()`: `None` when the list is
      empty; otherwise the distinct listed types, the errors of the two
      checks on each listed type and whether all checks passed. */
  method DeclaredServiceTypes(u: Universe, p: Provider) returns (types: Option<seq<TypeId>>, valid: bool, errors: seq<Diagnostic>)
    ensures types == (if p.services == [] then None else Some(Distinct(p.services)))
    ensures valid <==> DeclaredValid(u, p)
    ensures errors == DeclaredLog(u, p, |p.services|)
    ensures valid <==> errors == []
  {
    if p.services == [] {
      return None, true, [];
    }
    valid, errors := CheckDeclared(u, p);
    DeclaredLogEmpty(u, p, |p.services|);
    types := Some(Distinct(p.services));
  }

  /** The loop of `declaredServiceTypes()` over the listed types. */
  method CheckDeclared(u: Universe, p: Provider) returns (valid: bool, errors: seq<Diagnostic>)
    ensures errors == DeclaredLog(u, p, |p.services|)
    ensures valid <==> errors == []
  {
    valid := true;
    errors := [];
    var pt := ProviderType(p);
    var i := 0;
    while i < |p.services|
      invariant 0 <= i <= |p.services|
      invariant errors == DeclaredLog(u, p, i)
      invariant valid <==> errors == []
    {
      var st := p.services[i];
      if st !in u.serviceAnnotated {
        valid := false;
        errors := errors + [MissingServiceAnnotation(st, p.name)];
      }
      if !IsInstanceOf(u, pt, st) {
        valid := false;
        errors := errors + [NotInheriting(pt, st, p.name)];
      }
      i := i + 1;
    }
  }


  // ---------------------------------------------------------------------
  // The service-to-providers map

  /** An insertion-ordered map from service type to providers: the keys in
      first-insertion order, and the lists. */
  datatype ProviderMap = ProviderMap(keys: seq<TypeId>, lists: map<TypeId, seq<Provider>>)

  ghost predicate Ordered(m: ProviderMap) {
    NoDup(m.keys) &&
    (forall k :: k in m.lists <==> k in m.keys) &&
    (forall k :: k in m.lists ==> m.lists[k] != [])
  }

  const EmptyMap := ProviderMap([], map[])

  function Lookup(m: ProviderMap, k: TypeId): seq<Provider> {
    if k in m.lists then m.lists[k] else []
  }

  /** `getOrPut(k, ::mutableListOf).add(p)`. */
  function GetOrPutAdd(m: ProviderMap, k: TypeId, p: Provider): (r: ProviderMap)
    requires Ordered(m)
    ensures Ordered(r)
    ensures forall k' :: Lookup(r, k') == Lookup(m, k') + (if k' == k then [p] else [])
    ensures r.keys == if k in m.keys then m.keys else m.keys + [k]
  {
    if k in m.lists then ProviderMap(m.keys, m.lists[k := m.lists[k] + [p]])
    else ProviderMap(m.keys + [k], m.lists[k := [p]])
  }

  /** `serviceTypes.forEach { getOrPut(it, ::mutableListOf).add(p) }`. */
  function AddAll(m: ProviderMap, types: seq<TypeId>, p: Provider): (r: ProviderMap)
    requires Ordered(m)
    ensures Ordered(r)
  {
    if types == [] then m else GetOrPutAdd(AddAll(m, types[..|types| - 1], p), types[|types| - 1], p)
  }

  lemma {:induction false} AddAllLookup(m: ProviderMap, types: seq<TypeId>, p: Provider, k: TypeId)
    requires Ordered(m) && NoDup(types)
    ensures Lookup(AddAll(m, types, p), k) == Lookup(m, k) + (if k in types then [p] else [])
  {
    if types != [] {
      var n := |types| - 1;
      AddAllLookup(m, types[..n], p, k);
      assert k in types <==> k in types[..n] || k == types[n];
      assert !(k in types[..n] && k == types[n]);
    }
  }

  /** `buildMap { serviceProviders.forEach { … } }`: providers without any
      service type are skipped. */
  function BuildMap(u: Universe, providers: seq<Provider>): (r: ProviderMap)
    requires WellFounded(u)
    ensures Ordered(r)
  {
    if providers == [] then EmptyMap
    else
      var m := BuildMap(u, providers[..|providers| - 1]);
      var p := providers[|providers| - 1];
      var types := ServiceTypes(u, p);
      if types == [] then m else AddAll(m, types, p)
  }

  /** The providers serving `k`, in declaration order. */
  function ProvidersOf(u: Universe, providers: seq<Provider>, k: TypeId): seq<Provider>
    requires WellFounded(u)
  {
    if providers == [] then []
    else
      var p := providers[|providers| - 1];
      ProvidersOf(u, providers[..|providers| - 1], k) + (if k in ServiceTypes(u, p) then [p] else [])
  }

  /** The map sends every service type to exactly the providers that serve
      it, in declaration order, and its keys are the service types served by
      at least one provider. */
  lemma {:induction false} BuildMapLookup(u: Universe, providers: seq<Provider>, k: TypeId)
    requires WellFounded(u)
    ensures Lookup(BuildMap(u, providers), k) == ProvidersOf(u, providers, k)
    ensures k in BuildMap(u, providers).keys <==> ProvidersOf(u, providers, k) != []
  {
    if providers != [] {
      var n := |providers| - 1;
      var p := providers[n];
      BuildMapLookup(u, providers[..n], k);
      ServiceTypesMembers(u, p, k);
      if ServiceTypes(u, p) != [] {
        AddAllLookup(BuildMap(u, providers[..n]), ServiceTypes(u, p), p, k);
      }
    }
  }

  /** The errors of the map pass for one provider. */
  function MapErrors(u: Universe, p: Provider): seq<Diagnostic>
    requires WellFounded(u)
  {
    DeclaredLog(u, p, |p.services|) + (if ServiceTypes(u, p) == [] then [NoApplicableServices(p.name)] else [])
  }

  function MapLog(u: Universe, providers: seq<Provider>): seq<Diagnostic>
    requires WellFounded(u)
  {
    if providers == [] then []
    else MapLog(u, providers[..|providers| - 1]) + MapErrors(u, providers[|providers| - 1])
  }

  /** A provider's listed types pass both checks and it serves at least one
      service. */
  predicate ProviderOk(u: Universe, p: Provider)
    requires WellFounded(u)
  {
    DeclaredValid(u, p) && ServiceTypes(u, p) != []
  }

  /** Every provider is `ProviderOk`. */
  predicate MapValid(u: Universe, providers: seq<Provider>)
    requires WellFounded(u)
  {
    providers == [] ||
    (MapValid(u, providers[..|providers| - 1]) && ProviderOk(u, providers[|providers| - 1]))
  }

  lemma MapErrorsEmpty(u: Universe, p: Provider)
    requires WellFounded(u)
    ensures MapErrors(u, p) == [] <==> ProviderOk(u, p)
  {
    DeclaredLogEmpty(u, p, |p.services|);
  }

  lemma {:induction false} MapLogEmpty(u: Universe, providers: seq<Provider>)
    requires WellFounded(u)
    ensures MapLog(u, providers) == [] <==> MapValid(u, providers)
  {
    if providers != [] {
      var n := |providers| - 1;
      MapLogEmpty(u, providers[..n]);
      MapErrorsEmpty(u, providers[n]);
      var init := MapLog(u, providers[..n]);
      var last := MapErrors(u, providers[n]);
      assert MapLog(u, providers) == init + last;
      assert |init + last| == |init| + |last|;
    }
  }

  // ---------------------------------------------------------------------
  // Package of the generated code

  /** `zip(…).takeWhile { first == second }.map { first }`. */
  function CommonPrefix(a: seq<string>, b: seq<string>): (r: seq<string>)
    ensures |r| <= |a| && |r| <= |b|
    ensures r == a[..|r|] && r == b[..|r|]
    ensures |r| < |a| && |r| < |b| ==> a[|r|] != b[|r|]
  {
    if a == [] || b == [] || a[0] != b[0] then []
    else [a[0]] + CommonPrefix(a[1..], b[1..])
  }

  /** `reduce` with `CommonPrefix` over a non-empty list. */
  function ReducePrefix(ls: seq<seq<string>>): seq<string>
    requires |ls| >= 1
  {
    if |ls| == 1 then ls[0]
    else CommonPrefix(ReducePrefix(ls[..|ls| - 1]), ls[|ls| - 1])
  }

  /** The reduction is a prefix of every element. */
  lemma {:induction false} ReducePrefixIsPrefix(ls: seq<seq<string>>)
    requires |ls| >= 1
    ensures forall i :: 0 <= i < |ls| ==> |ReducePrefix(ls)| <= |ls[i]| && ReducePrefix(ls) == ls[i][..|ReducePrefix(ls)|]
  {
    if |ls| > 1 {
      var n := |ls| - 1;
      var init := ls[..n];
      ReducePrefixIsPrefix(init);
      var c := ReducePrefix(init);
      var r := ReducePrefix(ls);
      assert r == CommonPrefix(c, ls[n]);
      forall i | 0 <= i < |ls|
        ensures |r| <= |ls[i]| && r == ls[i][..|r|]
      {
        if i < n {
          assert init[i] == ls[i];
          assert c[..|r|] == ls[i][..|c|][..|r|];
        }
      }
    }
  }

  /** The reduction is the longest common prefix: a prefix of every element,
      and either as long as some element or followed by a segment on which
      two elements differ. */
  lemma {:induction false} ReducePrefixIsLongest(ls: seq<seq<string>>)
    requires |ls| >= 1
    ensures forall i :: 0 <= i < |ls| ==> |ReducePrefix(ls)| <= |ls[i]| && ReducePrefix(ls) == ls[i][..|ReducePrefix(ls)|]
    ensures (exists i :: 0 <= i < |ls| && |ls[i]| == |ReducePrefix(ls)|) ||
            (exists i, j :: 0 <= i < |ls| && 0 <= j < |ls| && |ReducePrefix(ls)| < |ls[i]| &&
               |ReducePrefix(ls)| < |ls[j]| && ls[i][|ReducePrefix(ls)|] != ls[j][|ReducePrefix(ls)|])
  {
    ReducePrefixIsPrefix(ls);
    if |ls| > 1 {
      var n := |ls| - 1;
      var init := ls[..n];
      ReducePrefixIsLongest(init);
      var c := ReducePrefix(init);
      var r := ReducePrefix(ls);
      assert r == CommonPrefix(c, ls[n]);
      ReducePrefixIsPrefix(init);
      if |r| == |ls[n]| {
        assert 0 <= n < |ls| && |ls[n]| == |r|;
      } else if |r| < |c| {
        assert c[|r|] != ls[n][|r|];
        assert init[0] == ls[0];
        assert ls[0][|r|] == c[|r|];
        assert |r| < |ls[0]| && |r| < |ls[n]| && ls[0][|r|] != ls[n][|r|];
      } else {
        assert |r| == |c|;
        if i :| 0 <= i < n && |init[i]| == |c| {
          assert ls[i] == init[i];
          assert 0 <= i < |ls| && |ls[i]| == |r|;
        } else {
          var i, j :| 0 <= i < n && 0 <= j < n && |c| < |init[i]| && |c| < |init[j]| && init[i][|c|] != init[j][|c|];
          assert ls[i] == init[i] && ls[j] == init[j];
          assert |r| < |ls[i]| && |r| < |ls[j]| && ls[i][|r|] != ls[j][|r|];
        }
      }
    } else {
      assert |ls[0]| == |ReducePrefix(ls)|;
    }
  }

  /** The package of every declaration, services first. */
  function Packages(services: seq<ServiceDecl>, providers: seq<Provider>): (r: seq<string>)
    ensures |r| == |services| + |providers|
  {
    seq(|services|, i requires 0 <= i < |services| => services[i].packageName) +
    seq(|providers|, i requires 0 <= i < |providers| => providers[i].packageName)
  }

  /** Each distinct package cut at its dots. */
  function PackageSegments(services: seq<ServiceDecl>, providers: seq<Provider>): (r: seq<seq<string>>)
    ensures |r| == |Distinct(Packages(services, providers))|
  {
    var pkgs := Distinct(Packages(services, providers));
    seq(|pkgs|, i requires 0 <= i < |pkgs| => Split(pkgs[i], '.'))
  }

  /** The package of the generated code: the longest common dotted prefix of
      all declarations' packages. */
  function PackageName(services: seq<ServiceDecl>, providers: seq<Provider>): string
    requires services != [] || providers != []
  {
    Join(ReducePrefix(PackageSegments(services, providers)), ".")
  }

  /** The segments the generated package is joined from are the longest
      common prefix of the segments of every declaration's package. */
  lemma PackageNameIsCommonPrefix(services: seq<ServiceDecl>, providers: seq<Provider>, i: nat)
    requires services != [] || providers != []
    requires i < |Packages(services, providers)|
    ensures |Packages(services, providers)| > 0
    ensures StartsWithSegments(Split(Packages(services, providers)[i], '.'),
                               ReducePrefix(PackageSegments(services, providers)))
  {
    var pkgs := Distinct(Packages(services, providers));
    var segs := PackageSegments(services, providers);
    var pkg := Packages(services, providers)[i];
    assert pkg in pkgs;
    var j :| 0 <= j < |pkgs| && pkgs[j] == pkg;
    ReducePrefixIsLongest(segs);
    assert segs[j] == Split(pkg, '.');
  }

  predicate StartsWithSegments(s: seq<string>, prefix: seq<string>) {
    |prefix| <= |s| && s[..|prefix|] == prefix
  }

  /** When every declaration is in the same package, the code is generated
      into that package. */
  lemma {:induction false} SinglePackage(services: seq<ServiceDecl>, providers: seq<Provider>, pkg: string)
    requires services != [] || providers != []
    requires forall i :: 0 <= i < |Packages(services, providers)| ==> Packages(services, providers)[i] == pkg
    ensures PackageName(services, providers) == pkg
  {
    var all := Packages(services, providers);
    var pkgs := Distinct(all);
    assert all[0] in pkgs;
    var segs := PackageSegments(services, providers);
    assert forall i :: 0 <= i < |segs| ==> segs[i] == Split(pkg, '.');
    ReduceSame(segs, Split(pkg, '.'));
    JoinSplit(pkg, '.');
  }

  lemma {:induction false} ReduceSame(ls: seq<seq<string>>, x: seq<string>)
    requires |ls| >= 1
    requires forall i :: 0 <= i < |ls| ==> ls[i] == x
    ensures ReducePrefix(ls) == x
  {
    if |ls| > 1 {
      ReduceSame(ls[..|ls| - 1], x);
      var r := CommonPrefix(x, x);
      assert |r| == |x|;
    }
  }

  // ---------------------------------------------------------------------
  // The whole pass

  datatype SweetContext = SweetContext(
    packageName: string,
    services: seq<ServiceDecl>,
    serviceProviders: ProviderMap)

  /** Every error the pass reports, in order: the declaration passes, then
      (only when there is something to do and the declarations are valid)
      the map pass. */
  function AnalyzeLog(u: Universe, services: seq<ServiceDecl>, providers: seq<Provider>): seq<Diagnostic>
    requires WellFounded(u)
  {
    ServiceLog(services) + ShapeLog(providers) +
    (if (services != [] || providers != []) && DeclarationsValid(services, providers)
     then MapLog(u, providers) else [])
  }

  /** The `services.onEach` pass. */
  method CheckServices(services: seq<ServiceDecl>) returns (isValid: bool, log: seq<Diagnostic>)
    ensures log == ServiceLog(services)
    ensures isValid <==> forall i :: 0 <= i < |services| ==> services[i].isAbstract
  {
    isValid := true;
    log := [];
    var i := 0;
    while i < |services|
      invariant 0 <= i <= |services|
      invariant log == ServiceLog(services[..i])
      invariant isValid <==> forall j :: 0 <= j < i ==> services[j].isAbstract
    {
      assert services[..i + 1][..i] == services[..i];
      if !services[i].isAbstract {
        isValid := false;
        log := log + [ServiceNotAbstract(services[i].name)];
      }
      i := i + 1;
    }
    assert services[..i] == services;
  }

  /** The `serviceProviders.onEach` pass. */
  method CheckProviders(providers: seq<Provider>) returns (isValid: bool, log: seq<Diagnostic>)
    ensures log == ShapeLog(providers)
    ensures isValid <==> forall i :: 0 <= i < |providers| ==> ShapeValid(providers[i])
  {
    isValid := true;
    log := [];
    var i := 0;
    while i < |providers|
      invariant 0 <= i <= |providers|
      invariant log == ShapeLog(providers[..i])
      invariant isValid <==> forall j :: 0 <= j < i ==> ShapeValid(providers[j])
    {
      assert providers[..i + 1][..i] == providers[..i];
      var p := providers[i];
      if !ShapeValid(p) {
        isValid := false;
        log := log + [ShapeError(p)];
      }
      i := i + 1;
    }
    assert providers[..i] == providers;
  }

  /** One provider's turn in `buildMap`: its service types, then one
      `getOrPut(…).add` per type. */
  method AddProvider(u: Universe, m: ProviderMap, p: Provider) returns (m': ProviderMap, isValid: bool, errors: seq<Diagnostic>)
    requires WellFounded(u) && Ordered(m)
    ensures m' == (if ServiceTypes(u, p) == [] then m else AddAll(m, ServiceTypes(u, p), p))
    ensures errors == MapErrors(u, p)
    ensures isValid <==> ProviderOk(u, p)
  {
    var declared;
    declared, isValid, errors := DeclaredServiceTypes(u, p);
    var types;
    if declared.Some? {
      types := declared.value;
    } else {
      types := CollectServiceTypes(u, ProviderType(p), []);
    }
    assert types == ServiceTypes(u, p);
    if types == [] {
      return m, false, errors + [NoApplicableServices(p.name)];
    }
    m' := AddServiceTypes(m, types, p);
  }

  /** `serviceTypes.forEach { getOrPut(it, ::mutableListOf).add(p) }`. */
  method AddServiceTypes(m: ProviderMap, types: seq<TypeId>, p: Provider) returns (m': ProviderMap)
    requires Ordered(m)
    ensures m' == AddAll(m, types, p)
  {
    m' := m;
    var k := 0;
    while k < |types|
      invariant 0 <= k <= |types|
      invariant Ordered(m')
      invariant m' == AddAll(m, types[..k], p)
    {
      assert types[..k + 1][..k] == types[..k];
      m' := GetOrPutAdd(m', types[k], p);
      k := k + 1;
    }
    assert types[..k] == types;
  }

  /** One more provider extends the map, the log and the validity by that
      provider's own contribution. */
  lemma MapStep(u: Universe, providers: seq<Provider>, i: nat)
    requires WellFounded(u) && i < |providers|
    ensures var m := BuildMap(u, providers[..i]);
      var types := ServiceTypes(u, providers[i]);
      BuildMap(u, providers[..i + 1]) == (if types == [] then m else AddAll(m, types, providers[i]))
    ensures MapLog(u, providers[..i + 1]) == MapLog(u, providers[..i]) + MapErrors(u, providers[i])
    ensures MapValid(u, providers[..i + 1]) <==> MapValid(u, providers[..i]) && ProviderOk(u, providers[i])
  {
    assert providers[..i + 1][..i] == providers[..i];
    assert providers[..i + 1][i] == providers[i];
  }

  /** The `buildMap` pass over all providers. */
  method BuildServiceProvidersMap(u: Universe, providers: seq<Provider>) returns (m: ProviderMap, isValid: bool, log: seq<Diagnostic>)
    requires WellFounded(u)
    ensures m == BuildMap(u, providers)
    ensures log == MapLog(u, providers)
    ensures isValid <==> MapValid(u, providers)
  {
    m := EmptyMap;
    isValid := true;
    log := [];
    var i := 0;
    while i < |providers|
      invariant 0 <= i <= |providers|
      invariant m == BuildMap(u, providers[..i])
      invariant log == MapLog(u, providers[..i])
      invariant isValid <==> MapValid(u, providers[..i])
    {
      m, isValid, log := BuildStep(u, providers, i, m, isValid, log);
      i := i + 1;
    }
    assert providers[..i] == providers;
  }

  /** One iteration of the `buildMap` pass: the `i`-th provider's checks
      and its entries. */
  method BuildStep(u: Universe, providers: seq<Provider>, i: nat, m: ProviderMap, isValid: bool, log: seq<Diagnostic>)
    returns (m': ProviderMap, isValid': bool, log': seq<Diagnostic>)
    requires WellFounded(u) && i < |providers|
    requires m == BuildMap(u, providers[..i]) && log == MapLog(u, providers[..i])
    requires isValid <==> MapValid(u, providers[..i])
    ensures m' == BuildMap(u, providers[..i + 1]) && log' == MapLog(u, providers[..i + 1])
    ensures isValid' <==> MapValid(u, providers[..i + 1])
  {
    MapStep(u, providers, i);
    var ok, errors;
    m', ok, errors := AddProvider(u, m, providers[i]);
    log' := log + errors;
    isValid' := isValid && ok;
  }

  /** `analyze(logger, resolver)`: a context exactly when there are
      declarations, all are valid and every provider has valid service
      types; the errors go to the returned log. */
  method Analyze(u: Universe, services: seq<ServiceDecl>, providers: seq<Provider>)
    returns (r: Option<SweetContext>, log: seq<Diagnostic>)
    requires WellFounded(u)
    ensures log == AnalyzeLog(u, services, providers)
    ensures r.Some? <==> ((services != [] || providers != []) &&
      DeclarationsValid(services, providers) && MapValid(u, providers))
    ensures r.Some? <==> (log == [] && (services != [] || providers != []))
    ensures r.Some? ==> ((services != [] || providers != []) &&
      r.value == SweetContext(PackageName(services, providers), services, BuildMap(u, providers)))
  {
    DeclarationLogs(services, providers);
    var servicesValid, servicesLog := CheckServices(services);
    var providersValid, providersLog := CheckProviders(providers);
    log := servicesLog + providersLog;
    var isValid := servicesValid && providersValid;
    if services == [] && providers == [] {
      return None, log;
    }
    if !isValid {
      return None, log;
    }
    var m, mapValid, mapLog := BuildServiceProvidersMap(u, providers);
    log := log + mapLog;
    MapLogEmpty(u, providers);
    if !mapValid {
      return None, log;
    }
    r := Some(SweetContext(PackageName(services, providers), services, m));
  }
}

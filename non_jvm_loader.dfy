/** The module registry on platforms without `java.util.ServiceLoader`:
    every generated module registers itself into the mutable list `modules`,
    and the first read of the lazy `internalServiceLoader` builds the loader
    over that list. Registration is refused once the loader exists. */
module NonJvmLoader {
  import opened Common

  const AlreadyInitialized: string := "ServiceLoader was already initialized, no more modules can be registered"

  /** The registered modules and the lazy loader: `None` until first read,
      then the module list the loader was built from. */
  datatype Registry<M> = Registry(modules: seq<M>, loader: Option<seq<M>>)

  /** The Kotlin loader keeps the list object itself; since nothing can be
      registered afterwards, what it sees is the list as it stood. */
  predicate Consistent<M(==)>(r: Registry<M>) {
    r.loader.Some? ==> r.loader.value == r.modules
  }

  /** `registerInternalServiceModule(m)`. */
  function Register<M(==)>(r: Registry<M>, m: M): (res: (Registry<M>, Result<(), string>))
    ensures r.loader.None? ==> res.1.Success? && res.0 == Registry(r.modules + [m], None)
    ensures r.loader.Some? ==> res == (r, Failure(AlreadyInitialized))
    ensures Consistent(r) ==> Consistent(res.0)
  {
    if r.loader.Some? then (r, Failure(AlreadyInitialized))
    else (r.(modules := r.modules + [m]), Success(()))
  }

  /** `internalServiceLoader.value`: the first read builds the loader. */
  function Read<M(==)>(r: Registry<M>): (res: (Registry<M>, seq<M>))
    ensures res.0.loader.Some? && res.0.modules == r.modules
    ensures Consistent(r) ==> Consistent(res.0) && res.1 == r.modules
    ensures r.loader.Some? ==> res.0 == r
  {
    match r.loader
    case Some(l) => (r, l)
    case None => (r.(loader := Some(r.modules)), r.modules)
  }

  datatype Event<M> = RegisterModule(m: M) | ReadLoader

  function Step<M(==)>(r: Registry<M>, e: Event<M>): Registry<M> {
    match e
    case RegisterModule(m) => Register(r, m).0
    case ReadLoader => Read(r).0
  }

  function Replay<M(==)>(r: Registry<M>, events: seq<Event<M>>): Registry<M>
    decreases |events|
  {
    if events == [] then r else Replay(Step(r, events[0]), events[1..])
  }

  /** The modules of the registrations that come before the first read. */
  function RegisteredBeforeRead<M(==)>(events: seq<Event<M>>): seq<M>
    decreases |events|
  {
    if events == [] || events[0].ReadLoader? then []
    else [events[0].m] + RegisteredBeforeRead(events[1..])
  }

  predicate HasRead<M(==)>(events: seq<Event<M>>) {
    exists i :: 0 <= i < |events| && events[i].ReadLoader?
  }

  /** Once built, the loader never changes and nothing more registers. */
  lemma {:induction false} ReplayAfterRead<M>(r: Registry<M>, events: seq<Event<M>>)
    requires r.loader.Some? && Consistent(r)
    ensures Replay(r, events) == r
    decreases |events|
  {
    if events != [] {
      ReplayAfterRead(Step(r, events[0]), events[1..]);
    }
  }

  /** Before the first read, registrations append in order; the loader exists
      exactly when some read happened, and it holds the modules registered
      before the first read, in registration order. */
  lemma {:induction false} ReplayRegistry<M>(r: Registry<M>, events: seq<Event<M>>)
    requires r.loader.None?
    ensures Replay(r, events).modules == r.modules + RegisteredBeforeRead(events)
    ensures Replay(r, events).loader.Some? <==> HasRead(events)
    ensures Consistent(Replay(r, events))
    decreases |events|
  {
    if events == [] {
    } else if events[0].ReadLoader? {
      ReplayAfterRead(Step(r, events[0]), events[1..]);
    } else {
      var r' := Step(r, events[0]);
      ReplayRegistry(r', events[1..]);
      assert r.modules + RegisteredBeforeRead(events) == r'.modules + RegisteredBeforeRead(events[1..]);
      HasReadCons(events);
    }
  }

  lemma HasReadCons<M>(events: seq<Event<M>>)
    requires events != []
    ensures HasRead(events) <==> events[0].ReadLoader? || HasRead(events[1..])
  {
    if HasRead(events[1..]) {
      var i :| 0 <= i < |events[1..]| && events[1..][i].ReadLoader?;
      assert events[i + 1].ReadLoader?;
    }
    if HasRead(events) && !events[0].ReadLoader? {
      var i :| 0 <= i < |events| && events[i].ReadLoader?;
      assert events[1..][i - 1].ReadLoader?;
    }
  }

  /** The registry object: `modules` and the lazy loader's state. */
  class ServiceRegistry<M(==)> {
    var modules: seq<M>
    var loader: Option<seq<M>>

    ghost function Model(): Registry<M>
      reads this
    {
      Registry(modules, loader)
    }

    ghost predicate Valid()
      reads this
    {
      Consistent(Model())
    }

    /** `mutableListOf()` and a lazy loader that has not been read. */
    constructor ()
      ensures Valid() && modules == [] && loader.None?
    {
      modules := [];
      loader := None;
    }

    method RegisterInternalServiceModule(m: M) returns (r: Result<(), string>)
      requires Valid()
      modifies this
      ensures Valid()
      ensures (Model(), r) == Register(old(Model()), m)
    {
      if loader.Some? {
        return Failure(AlreadyInitialized);
      }
      modules := modules + [m];
      r := Success(());
    }

    /** `internalServiceLoader.value`: the modules the loader serves. */
    method InternalServiceLoader() returns (served: seq<M>)
      requires Valid()
      modifies this
      ensures Valid()
      ensures (Model(), served) == Read(old(Model()))
    {
      if loader.None? {
        loader := Some(modules);
      }
      served := loader.value;
    }
  }
}

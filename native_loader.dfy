/** The native-platform lock behind the runtime's lazy module registry: a
    reentrant lock whose whole state is one immutable `LockState` swapped by
    compare-and-set (UNLOCKED, THIN without a native mutex, FAT with a
    borrowed `MutexNode` that blocked threads wait on), and the process-wide
    `MutexPool`, a Treiber stack of reusable nodes.

    Every successful compare-and-set is one atomic step: `LockStep`,
    `UnlockStep` and `ResumeStep` are total functions of (state, calling
    thread). A lost compare-and-set leaves the lock as it was; the one lost
    race with an effect is the inflation attempt, which borrowed a pool node
    and gives it back (`LostInflation`). A step with no enabled transition is
    `Spin` (the loop re-reads). */
module NativeLoader {
  import opened Common

  /** `pthread_t`: threads are only compared for equality. */
  type ThreadId = nat

  /** A `MutexNode`; the pool numbers the nodes it constructs 0, 1, 2, ... */
  type NodeId = nat

  datatype Status = Unlocked | Thin | Fat

  /** The snapshot held by the atomic reference `lock`. */
  datatype LockState = LockState(
    status: Status,
    nestedLocks: int,
    waiters: int,
    owner: Option<ThreadId>,
    mutex: Option<NodeId>)

  /** `AtomicReference(LockState(UNLOCKED, 0, 0))`. */
  const InitialLockState: LockState := LockState(Unlocked, 0, 0, None, None)

  /** The shape every reachable snapshot has. A FAT lock without an owner is
      the hand-off window between the last unlock and the woken waiter's
      `tryLockAfterResume`. */
  predicate WellFormed(s: LockState) {
    && (s.status == Fat <==> s.mutex.Some?)
    && (s.status == Unlocked ==> s.nestedLocks == 0 && s.waiters == 0 && s.owner.None?)
    && (s.status == Thin ==> s.nestedLocks >= 1 && s.waiters == 0 && s.owner.Some?)
    && (s.status == Fat && s.owner.Some? ==> s.nestedLocks >= 1 && s.waiters >= 1)
    && (s.status == Fat && s.owner.None? ==> s.nestedLocks == 0 && s.waiters >= 0)
  }

  // ---------------------------------------------------------------------
  // lock()

  /** What one successful step of `lock()` does for the caller: it returns
      holding the lock, it has queued itself and now blocks on the node of
      `next` (then runs `tryLockAfterResume`), or nothing is enabled. */
  datatype LockOutcome =
    | Acquired(next: LockState)
    | Parked(next: LockState)
    | Spin

  /** A non-owner meets a THIN lock: it inflates it with a pool node. */
  predicate Inflates(s: LockState, t: ThreadId) {
    s.status == Thin && s.owner != Some(t)
  }

  /** One step of `lock()` by thread `t`; `candidate` is the node
      `mutexPool.allocate()` hands out, used only when the step inflates. */
  function LockStep(s: LockState, t: ThreadId, candidate: NodeId): (r: LockOutcome)
    ensures WellFormed(s) && !r.Spin? ==> WellFormed(r.next)
    ensures r.Acquired? ==> r.next.owner == Some(t)
    ensures r.Parked? ==> r.next.status == Fat && r.next.owner == s.owner && r.next.owner != Some(t)
    ensures r.Spin? <==> s.status == Fat && s.owner.None?
  {
    match s.status
    case Unlocked =>
      Acquired(LockState(Thin, 1, 0, Some(t), None))
    case Thin =>
      if s.owner == Some(t) then
        Acquired(LockState(Thin, s.nestedLocks + 1, s.waiters, Some(t), None))
      else
        Parked(LockState(Fat, s.nestedLocks, s.waiters + 1, s.owner, Some(candidate)))
    case Fat =>
      if s.owner == Some(t) then
        Acquired(LockState(Fat, s.nestedLocks + 1, s.waiters, s.owner, s.mutex))
      else if s.owner.Some? then
        Parked(LockState(Fat, s.nestedLocks, s.waiters + 1, s.owner, s.mutex))
      else
        Spin
  }

  /** The first `lock()` of an unlocked lock makes it THIN, owned once by the
      caller, without a node. */
  lemma LockUnlocked(t: ThreadId, node: NodeId)
    ensures LockStep(InitialLockState, t, node) == Acquired(LockState(Thin, 1, 0, Some(t), None))
  {
  }

  /** A reentrant `lock()` adds exactly one nesting level and changes nothing
      else, THIN or FAT. */
  lemma LockReentrant(s: LockState, t: ThreadId, node: NodeId)
    requires WellFormed(s) && s.status != Unlocked && s.owner == Some(t)
    ensures LockStep(s, t, node) == Acquired(s.(nestedLocks := s.nestedLocks + 1))
  {
  }

  /** A contended `lock()`: a THIN lock is inflated with the allocated node
      and one more waiter; a FAT lock with an owner gets one more waiter; a
      FAT lock without an owner offers no transition. */
  lemma LockContended(s: LockState, t: ThreadId, node: NodeId)
    requires s.status != Unlocked && s.owner != Some(t)
    ensures s.status == Thin ==>
      LockStep(s, t, node) == Parked(s.(status := Fat, waiters := s.waiters + 1, mutex := Some(node)))
    ensures s.status == Fat && s.owner.Some? ==>
      LockStep(s, t, node) == Parked(s.(waiters := s.waiters + 1))
    ensures s.status == Fat && s.owner.None? ==> LockStep(s, t, node) == Spin
  {
  }

  // ---------------------------------------------------------------------
  // unlock()

  /** The two failures of `unlock()`: the owner check (`require`) and the
      `else -> error(...)` branch for a lock that is not obtained. */
  datatype UnlockError =
    | NotOwner(expected: Option<ThreadId>, actual: ThreadId)
    | NotObtained

  /** A successful unlock step: the new snapshot and the node it unlocks to
      wake one waiter, if any. */
  datatype Released = Released(next: LockState, woken: Option<NodeId>)

  function UnlockStep(s: LockState, t: ThreadId): (r: Result<Released, UnlockError>)
    ensures r.Success? <==> s.owner == Some(t) && s.status != Unlocked
    ensures WellFormed(s) && r.Success? ==> WellFormed(r.value.next)
    ensures WellFormed(s) && r.Success? ==> r.value.next.mutex == s.mutex || r.value.next.status == Unlocked
    ensures r.Success? && r.value.woken.Some? ==> r.value.next.status == Fat && r.value.next.owner.None?
  {
    if s.owner != Some(t) then Failure(NotOwner(s.owner, t))
    else
      match s.status
      case Thin =>
        if s.nestedLocks == 1 then Success(Released(LockState(Unlocked, 0, 0, None, None), None))
        else Success(Released(LockState(Thin, s.nestedLocks - 1, s.waiters, s.owner, None), None))
      case Fat =>
        if s.nestedLocks == 1 then Success(Released(LockState(Fat, 0, s.waiters - 1, None, s.mutex), s.mutex))
        else Success(Released(LockState(Fat, s.nestedLocks - 1, s.waiters, s.owner, s.mutex), None))
      case Unlocked => Failure(NotObtained)
  }

  /** Only the recorded owner may unlock; any other thread, and every thread
      on an UNLOCKED lock (whose owner is absent), fails the owner check. */
  lemma UnlockOwnerCheck(s: LockState, t: ThreadId)
    requires WellFormed(s)
    ensures UnlockStep(s, t).Failure? <==> s.owner != Some(t)
    ensures s.owner != Some(t) ==> UnlockStep(s, t) == Failure(NotOwner(s.owner, t))
    ensures s.status == Unlocked ==> UnlockStep(s, t) == Failure(NotOwner(None, t))
  {
  }

  /** The `else -> error(...)` branch of `unlock()` is dead on every
      well-formed snapshot: the owner check fails first. */
  lemma NotObtainedUnreachable(s: LockState, t: ThreadId)
    requires WellFormed(s)
    ensures UnlockStep(s, t) != Failure(NotObtained)
  {
  }

  /** Unlocking below the outermost level only removes one nesting level. */
  lemma UnlockNested(s: LockState, t: ThreadId)
    requires s.owner == Some(t) && s.status != Unlocked && s.nestedLocks != 1
    ensures s.status == Thin ==>
      UnlockStep(s, t) == Success(Released(s.(nestedLocks := s.nestedLocks - 1, mutex := None), None))
    ensures s.status == Fat ==>
      UnlockStep(s, t) == Success(Released(s.(nestedLocks := s.nestedLocks - 1), None))
  {
  }

  /** The outermost unlock of a THIN lock unlocks it; of a FAT lock it drops
      the owner and one waiter, keeps the node and unlocks it. */
  lemma UnlockLast(s: LockState, t: ThreadId)
    requires s.owner == Some(t) && s.status != Unlocked && s.nestedLocks == 1
    ensures s.status == Thin ==> UnlockStep(s, t) == Success(Released(InitialLockState, None))
    ensures s.status == Fat ==>
      UnlockStep(s, t) == Success(Released(LockState(Fat, 0, s.waiters - 1, None, s.mutex), s.mutex))
  {
  }

  // ---------------------------------------------------------------------
  // tryLockAfterResume()

  /** The state a woken waiter finds: FAT, with no owner. */
  predicate Resumable(s: LockState) {
    s.status == Fat && s.owner.None?
  }

  /** A resume step: the new snapshot and the node given back to the pool
      when the lock deflates. */
  datatype Resumed = Resumed(next: LockState, returned: Option<NodeId>)

  function ResumeStep(s: LockState, t: ThreadId): (r: Resumed)
    ensures WellFormed(s) && Resumable(s) ==> WellFormed(r.next)
    ensures r.next.owner == Some(t) && r.next.nestedLocks == 1
    ensures r.returned.Some? <==> s.waiters == 0 && s.mutex.Some?
    ensures r.returned.Some? ==> r.returned == s.mutex && r.next.mutex.None?
  {
    if s.waiters == 0 then
      Resumed(LockState(Thin, 1, 0, Some(t), None), s.mutex)
    else
      Resumed(LockState(Fat, 1, s.waiters, Some(t), s.mutex), None)
  }

  /** Without other waiters the woken thread deflates the lock to THIN and
      returns the node; otherwise it takes the FAT lock and keeps the node. */
  lemma ResumeDeflates(s: LockState, t: ThreadId)
    requires WellFormed(s) && Resumable(s)
    ensures s.waiters == 0 ==> ResumeStep(s, t) == Resumed(LockState(Thin, 1, 0, Some(t), None), s.mutex)
    ensures s.waiters != 0 ==> ResumeStep(s, t) == Resumed(LockState(Fat, 1, s.waiters, Some(t), s.mutex), None)
  {
  }

  // ---------------------------------------------------------------------
  // Reentrancy: n locks followed by n unlocks

  /** A `lock()` by `t` that returns without blocking, repeated `n` times
      (a step that would block leaves the state as it is). The node argument
      is irrelevant: no such step inflates. */
  function LockRepeatedly(s: LockState, t: ThreadId, n: nat): LockState
    decreases n
  {
    if n == 0 then s
    else
      match LockStep(LockRepeatedly(s, t, n - 1), t, 0)
      case Acquired(next) => next
      case _ => LockRepeatedly(s, t, n - 1)
  }

  /** `unlock()` by `t`, repeated `n` times (a failing call changes nothing). */
  function UnlockRepeatedly(s: LockState, t: ThreadId, n: nat): LockState
    decreases n
  {
    if n == 0 then s
    else
      match UnlockStep(s, t)
      case Success(rel) => UnlockRepeatedly(rel.next, t, n - 1)
      case Failure(_) => UnlockRepeatedly(s, t, n - 1)
  }

  /** Nested locks by the owner only add to `nestedLocks`. */
  lemma {:induction false} LockRepeatedlyNests(s: LockState, t: ThreadId, n: nat)
    requires WellFormed(s) && s.status != Unlocked && s.owner == Some(t)
    ensures LockRepeatedly(s, t, n) == s.(nestedLocks := s.nestedLocks + n)
    decreases n
  {
    if n > 0 {
      LockRepeatedlyNests(s, t, n - 1);
      LockReentrant(s.(nestedLocks := s.nestedLocks + n - 1), t, 0);
    }
  }

  /** Unlocks by the owner that stay above one nesting level only subtract. */
  lemma {:induction false} UnlockRepeatedlyUnnests(s: LockState, t: ThreadId, n: nat)
    requires WellFormed(s) && s.status != Unlocked && s.owner == Some(t) && s.nestedLocks > n
    ensures UnlockRepeatedly(s, t, n) == s.(nestedLocks := s.nestedLocks - n)
    decreases n
  {
    if n > 0 {
      var next := s.(nestedLocks := s.nestedLocks - 1);
      assert UnlockStep(s, t) == Success(Released(next, None));
      UnlockRepeatedlyUnnests(next, t, n - 1);
    }
  }

  /** Whatever the owner's nesting depth, THIN or FAT, `n` more locks and `n`
      unlocks restore the snapshot. */
  lemma NestedRoundTrip(s: LockState, t: ThreadId, n: nat)
    requires WellFormed(s) && s.status != Unlocked && s.owner == Some(t)
    ensures UnlockRepeatedly(LockRepeatedly(s, t, n), t, n) == s
  {
    LockRepeatedlyNests(s, t, n);
    UnlockRepeatedlyUnnests(s.(nestedLocks := s.nestedLocks + n), t, n);
  }

  /** From UNLOCKED, `n` locks by `t` give THIN(n, 0, t). */
  lemma {:induction false} LockFromUnlocked(t: ThreadId, n: nat)
    requires n >= 1
    ensures LockRepeatedly(InitialLockState, t, n) == LockState(Thin, n, 0, Some(t), None)
    decreases n
  {
    if n > 1 {
      LockFromUnlocked(t, n - 1);
    }
  }

  /** From THIN(n, 0, t), `n` unlocks by `t` give the initial UNLOCKED(0, 0). */
  lemma {:induction false} UnlockToUnlocked(t: ThreadId, n: nat)
    requires n >= 1
    ensures UnlockRepeatedly(LockState(Thin, n, 0, Some(t), None), t, n) == InitialLockState
    decreases n
  {
    if n > 1 {
      assert UnlockStep(LockState(Thin, n, 0, Some(t), None), t)
        == Success(Released(LockState(Thin, n - 1, 0, Some(t), None), None));
      UnlockToUnlocked(t, n - 1);
    }
  }

  /** n locks followed by n unlocks by one thread return a fresh lock to
      UNLOCKED(0, 0). */
  lemma ReentrantRoundTrip(t: ThreadId, n: nat)
    requires n >= 1
    ensures UnlockRepeatedly(LockRepeatedly(InitialLockState, t, n), t, n) == InitialLockState
  {
    LockFromUnlocked(t, n);
    UnlockToUnlocked(t, n);
  }

  /** A lock that returns at once followed by an unlock by the same thread
      restores the snapshot: the state `synchronized` leaves behind. */
  lemma LockUnlockRestores(s: LockState, t: ThreadId, node: NodeId)
    requires WellFormed(s)
    requires s.status == Unlocked || s.owner == Some(t)
    ensures LockStep(s, t, node).Acquired?
    ensures UnlockStep(LockStep(s, t, node).next, t) == Success(Released(s, None))
  {
  }

  // ---------------------------------------------------------------------
  // The pool as a value

  /** The free list from `top` downwards, and how many nodes have been
      constructed (node ids are below `created`). */
  datatype Pool = Pool(free: seq<NodeId>, created: nat)

  /** No node twice on the stack, and every node on it was constructed. */
  predicate PoolValid(p: Pool) {
    NoDup(p.free) && forall i :: 0 <= i < |p.free| ==> p.free[i] < p.created
  }

  /** `release(node)`: push on top. */
  function PoolRelease(p: Pool, n: NodeId): (q: Pool)
    ensures PoolValid(p) && n < p.created && n !in p.free ==> PoolValid(q)
    ensures q.free == [n] + p.free && q.created == p.created
  {
    Pool([n] + p.free, p.created)
  }

  /** `pop()`: the top node, or nothing on an empty stack. */
  function PoolPop(p: Pool): (r: (Option<NodeId>, Pool))
    ensures r.0.None? <==> p.free == []
    ensures r.0.Some? ==> [r.0.value] + r.1.free == p.free && r.1.created == p.created
    ensures r.0.None? ==> r.1 == p
  {
    if p.free == [] then (None, p) else (Some(p.free[0]), Pool(p.free[1..], p.created))
  }

  /** `allocate()`: pop, or construct a fresh node when the stack is empty.
      The node handed out is never left on the stack. */
  function PoolAllocate(p: Pool): (r: (NodeId, Pool))
    ensures PoolValid(p) ==> PoolValid(r.1) && r.0 < r.1.created && r.0 !in r.1.free
    ensures p.free == [] ==> r == (p.created, Pool([], p.created + 1))
    ensures p.free != [] ==> r.0 == p.free[0] && r.1 == Pool(p.free[1..], p.created)
  {
    match PoolPop(p)
    case (Some(n), q) => (n, q)
    case (None, _) => (p.created, Pool(p.free, p.created + 1))
  }

  /** The pool is LIFO: a released node is the next one allocated, and the
      stack is as it was before. */
  lemma ReleaseThenAllocate(p: Pool, n: NodeId)
    ensures PoolAllocate(PoolRelease(p, n)) == (n, p)
  {
    assert ([n] + p.free)[1..] == p.free;
  }

  /** `MutexPool(capacity)`: `capacity` freshly constructed nodes released one
      after the other. */
  function FilledPool(capacity: nat): (p: Pool)
    ensures PoolValid(p) && |p.free| == capacity && p.created == capacity
  {
    if capacity == 0 then Pool([], 0)
    else
      var q := FilledPool(capacity - 1);
      PoolRelease(Pool(q.free, q.created + 1), q.created)
  }

  /** The node the lock holds is not on the free stack. */
  predicate Owns(s: LockState, p: Pool) {
    s.mutex.Some? ==> s.mutex.value < p.created && s.mutex.value !in p.free
  }

  // ---------------------------------------------------------------------
  // The lock, the pool and the threads, together

  /** The lock snapshot, the pool, the threads blocked on the lock's node,
      and the thread (if any) that the last unlock woke and that has not yet
      run `tryLockAfterResume`. */
  datatype System = System(lock: LockState, pool: Pool, parked: set<ThreadId>, resuming: Option<ThreadId>)

  function InitialSystem(capacity: nat): System {
    System(InitialLockState, FilledPool(capacity), {}, None)
  }

  /** Thread `t` is not blocked inside `lock()`. */
  predicate Running(sys: System, t: ThreadId) {
    t !in sys.parked && sys.resuming != Some(t)
  }

  /** Every parked thread is counted in `waiters`, the hand-off window is
      exactly the time a woken thread is pending, and the lock's node is never
      on the free stack. */
  predicate SystemInv(sys: System) {
    && WellFormed(sys.lock) && PoolValid(sys.pool) && Owns(sys.lock, sys.pool)
    && sys.lock.waiters == |sys.parked|
    && (sys.resuming.Some? <==> Resumable(sys.lock))
    && (sys.resuming.Some? ==> sys.resuming.value !in sys.parked)
    && (sys.lock.owner.Some? ==> sys.lock.owner.value !in sys.parked)
  }

  /** `lock()` by `t`: one step, inflating with a pool node if needed. */
  function SystemLock(sys: System, t: ThreadId): System {
    var (node, rest) := PoolAllocate(sys.pool);
    match LockStep(sys.lock, t, node)
    case Acquired(next) => sys.(lock := next)
    case Parked(next) =>
      sys.(lock := next, pool := if Inflates(sys.lock, t) then rest else sys.pool,
           parked := sys.parked + {t})
    case Spin => sys
  }

  /** The unlock step by `t` unlocks the lock's node. */
  predicate Wakes(s: LockState, t: ThreadId) {
    UnlockStep(s, t).Success? && UnlockStep(s, t).value.woken.Some?
  }

  /** `unlock()` by `t`; when it unlocks the node, the native mutex lets
      parked thread `w` through. A failed unlock changes nothing. */
  function SystemUnlock(sys: System, t: ThreadId, w: ThreadId): System {
    match UnlockStep(sys.lock, t)
    case Failure(_) => sys
    case Success(rel) =>
      if rel.woken.Some? then sys.(lock := rel.next, parked := sys.parked - {w}, resuming := Some(w))
      else sys.(lock := rel.next)
  }

  /** The woken thread runs `tryLockAfterResume`. */
  function SystemResume(sys: System): System
    requires sys.resuming.Some?
  {
    var r := ResumeStep(sys.lock, sys.resuming.value);
    sys.(lock := r.next,
         pool := if r.returned.Some? then PoolRelease(sys.pool, r.returned.value) else sys.pool,
         resuming := None)
  }

  /** A contending `lock()` whose inflating compare-and-set lost: the node it
      allocated goes straight back to the pool and the lock is untouched. On
      an empty pool that node was freshly created and now stays free. */
  function LostInflation(sys: System): (r: System)
    ensures r.lock == sys.lock && r.parked == sys.parked && r.resuming == sys.resuming
    ensures sys.pool.free != [] ==> r.pool == sys.pool
    ensures sys.pool.free == [] ==> r.pool == Pool([sys.pool.created], sys.pool.created + 1)
  {
    var (node, rest) := PoolAllocate(sys.pool);
    sys.(pool := PoolRelease(rest, node))
  }

  datatype Action = DoLock(t: ThreadId) | DoUnlock(t: ThreadId, w: ThreadId) | DoResume | DoLostInflation(t: ThreadId)

  /** What a thread can do: only running threads call lock or unlock, only a
      parked thread can be woken, and a resume needs a woken thread. */
  predicate Enabled(sys: System, a: Action) {
    match a
    case DoLock(t) => Running(sys, t)
    case DoUnlock(t, w) => Running(sys, t) && (Wakes(sys.lock, t) ==> w in sys.parked)
    case DoResume => sys.resuming.Some?
    case DoLostInflation(t) => Running(sys, t)
  }

  function Apply(sys: System, a: Action): System
    requires Enabled(sys, a)
  {
    match a
    case DoLock(t) => SystemLock(sys, t)
    case DoUnlock(t, w) => SystemUnlock(sys, t, w)
    case DoResume => SystemResume(sys)
    case DoLostInflation(_) => LostInflation(sys)
  }

  lemma InitialSystemInv(capacity: nat)
    ensures SystemInv(InitialSystem(capacity))
  {
  }

  /** Every enabled step keeps the system invariant. */
  lemma StepPreservesInv(sys: System, a: Action)
    requires SystemInv(sys) && Enabled(sys, a)
    ensures SystemInv(Apply(sys, a))
  {
    match a {
      case DoLock(t) =>
        var (node, rest) := PoolAllocate(sys.pool);
        if LockStep(sys.lock, t, node).Parked? {
          assert |sys.parked + {t}| == |sys.parked| + 1;
        }
      case DoUnlock(t, w) =>
        if Wakes(sys.lock, t) {
          assert |sys.parked - {w}| == |sys.parked| - 1;
        }
      case DoResume =>
      case DoLostInflation(_) =>
    }
  }

  /** A run of enabled actions. */
  predicate Runnable(sys: System, actions: seq<Action>)
    decreases |actions|
  {
    actions == [] || (Enabled(sys, actions[0]) && Runnable(Apply(sys, actions[0]), actions[1..]))
  }

  function Run(sys: System, actions: seq<Action>): System
    requires Runnable(sys, actions)
    decreases |actions|
  {
    if actions == [] then sys else Run(Apply(sys, actions[0]), actions[1..])
  }

  /** The invariant holds in every state reachable from a fresh pool. */
  lemma {:induction false} RunPreservesInv(sys: System, actions: seq<Action>)
    requires SystemInv(sys) && Runnable(sys, actions)
    ensures SystemInv(Run(sys, actions))
    decreases |actions|
  {
    if actions != [] {
      StepPreservesInv(sys, actions[0]);
      RunPreservesInv(Apply(sys, actions[0]), actions[1..]);
    }
  }

  /** Every node ever created is either on the free stack or held by the
      lock: inflation borrows a node and deflation gives it back. */
  predicate NoNodeLost(sys: System) {
    |sys.pool.free| + (if sys.lock.mutex.Some? then 1 else 0) == sys.pool.created
  }

  lemma InitialNoNodeLost(capacity: nat)
    ensures NoNodeLost(InitialSystem(capacity))
  {
  }

  /** Every enabled step keeps every node accounted for. */
  lemma StepKeepsNodes(sys: System, a: Action)
    requires SystemInv(sys) && NoNodeLost(sys) && Enabled(sys, a)
    ensures NoNodeLost(Apply(sys, a))
  {
  }

  lemma {:induction false} RunKeepsNodes(sys: System, actions: seq<Action>)
    requires SystemInv(sys) && NoNodeLost(sys) && Runnable(sys, actions)
    ensures NoNodeLost(Run(sys, actions))
    decreases |actions|
  {
    if actions != [] {
      StepPreservesInv(sys, actions[0]);
      StepKeepsNodes(sys, actions[0]);
      RunKeepsNodes(Apply(sys, actions[0]), actions[1..]);
    }
  }

  /** Whenever a run from a freshly filled pool leaves the lock UNLOCKED,
      every node the pool ever created is back on the free stack. */
  lemma UnlockedPoolFull(capacity: nat, actions: seq<Action>)
    requires Runnable(InitialSystem(capacity), actions)
    requires Run(InitialSystem(capacity), actions).lock.status == Unlocked
    ensures var sys := Run(InitialSystem(capacity), actions);
      |sys.pool.free| == sys.pool.created && sys.pool.created >= capacity
  {
    InitialSystemInv(capacity);
    InitialNoNodeLost(capacity);
    RunPreservesInv(InitialSystem(capacity), actions);
    RunKeepsNodes(InitialSystem(capacity), actions);
    RunNeverShrinks(InitialSystem(capacity), actions);
  }

  /** A run never forgets a created node. */
  lemma {:induction false} RunNeverShrinks(sys: System, actions: seq<Action>)
    requires Runnable(sys, actions)
    ensures Run(sys, actions).pool.created >= sys.pool.created
    decreases |actions|
  {
    if actions != [] {
      RunNeverShrinks(Apply(sys, actions[0]), actions[1..]);
    }
  }

  /** Consequences of the invariant: a blocked thread always finds the lock
      FAT (so some unlock will unlock its node), and during the hand-off no
      thread can change the lock — `lock()` spins and `unlock()` fails. */
  lemma HandOffIsExclusive(sys: System, t: ThreadId, w: ThreadId)
    requires SystemInv(sys)
    ensures sys.parked != {} ==> sys.lock.status == Fat
    ensures sys.resuming.Some? ==> SystemLock(sys, t) == sys && SystemUnlock(sys, t, w) == sys
  {
    if sys.parked != {} {
      assert |sys.parked| > 0;
    }
  }

  /** Thread A locks, thread B contends and inflates the lock with the top
      pool node, A's unlock wakes B, B deflates and returns the node, and B's
      unlock leaves the lock UNLOCKED with the pool exactly as before. */
  lemma ContentionScenario(p: Pool, a: ThreadId, b: ThreadId)
    requires a != b && PoolValid(p) && p.free != []
    ensures
      var s0 := System(InitialLockState, p, {}, None);
      var s1 := SystemLock(s0, a);
      var s2 := SystemLock(s1, b);
      var s3 := SystemUnlock(s2, a, b);
      var s4 := SystemResume(s3);
      var s5 := SystemUnlock(s4, b, b);
      && s1.lock == LockState(Thin, 1, 0, Some(a), None)
      && s2.lock == LockState(Fat, 1, 1, Some(a), Some(p.free[0])) && s2.parked == {b}
      && s3.lock == LockState(Fat, 0, 0, None, Some(p.free[0])) && s3.resuming == Some(b)
      && s4.lock == LockState(Thin, 1, 0, Some(b), None) && s4.pool == p
      && s5 == s0
  {
    assert [p.free[0]] + p.free[1..] == p.free;
  }

  // ---------------------------------------------------------------------
  // The imperative objects

  /** `MutexPool`: the atomic `top` is the head of `free`; each successful
      compare-and-set of `release` and `pop` is one assignment to it. */
  class MutexPool {
    var free: seq<NodeId>
    var created: nat

    ghost function Model(): Pool
      reads this
    {
      Pool(free, created)
    }

    ghost predicate Valid()
      reads this
    {
      PoolValid(Model())
    }

    /** `init { repeat(capacity) { release(MutexNode()) } }`. */
    constructor (capacity: nat)
      ensures Valid() && Model() == FilledPool(capacity)
    {
      free := [];
      created := 0;
      new;
      var i := 0;
      while i < capacity
        invariant 0 <= i <= capacity
        invariant Model() == FilledPool(i)
      {
        var node := AllocMutexNode();
        Release(node);
        i := i + 1;
      }
    }

    /** `MutexNode()`: a node nobody has seen before. */
    method AllocMutexNode() returns (n: NodeId)
      modifies this
      ensures n == old(created) && Model() == Pool(old(free), old(created) + 1)
    {
      n := created;
      created := created + 1;
    }

    method Allocate() returns (n: NodeId)
      modifies this
      ensures (n, Model()) == PoolAllocate(old(Model()))
    {
      var top := Pop();
      if top.Some? {
        n := top.value;
      } else {
        n := AllocMutexNode();
      }
    }

    method Release(n: NodeId)
      modifies this
      ensures Model() == PoolRelease(old(Model()), n)
    {
      free := [n] + free;
    }

    method Pop() returns (top: Option<NodeId>)
      modifies this
      ensures (top, Model()) == PoolPop(old(Model()))
    {
      if free == [] {
        top := None;
      } else {
        top := Some(free[0]);
        free := free[1..];
      }
    }
  }

  /** `SynchronizedObject`: `state` is the atomic reference `lock`; `pool` is
      the process-wide `mutexPool`, shared by every lock. */
  class SynchronizedObject {
    var state: LockState
    const pool: MutexPool

    ghost predicate Valid()
      reads this, pool
    {
      WellFormed(state) && pool.Valid() && Owns(state, pool.Model())
    }

    constructor (pool: MutexPool)
      requires pool.Valid()
      ensures Valid() && state == InitialLockState && this.pool == pool
    {
      state := InitialLockState;
      this.pool := pool;
    }

    /** One iteration of `lock()`'s retry loop whose compare-and-set wins. */
    method Lock(t: ThreadId) returns (r: LockOutcome)
      requires Valid()
      modifies this, pool
      ensures Valid()
      ensures r == LockStep(old(state), t, PoolAllocate(old(pool.Model())).0)
      ensures state == if r.Spin? then old(state) else r.next
      ensures pool.Model() == if Inflates(old(state), t) then PoolAllocate(old(pool.Model())).1 else old(pool.Model())
    {
      var s := state;
      match s.status
      case Unlocked =>
        state := LockState(Thin, 1, 0, Some(t), None);
        r := Acquired(state);
      case Thin =>
        if s.owner == Some(t) {
          state := LockState(Thin, s.nestedLocks + 1, s.waiters, Some(t), None);
          r := Acquired(state);
        } else {
          var node := pool.Allocate();
          state := LockState(Fat, s.nestedLocks, s.waiters + 1, s.owner, Some(node));
          r := Parked(state);
        }
      case Fat =>
        if s.owner == Some(t) {
          state := LockState(Fat, s.nestedLocks + 1, s.waiters, s.owner, s.mutex);
          r := Acquired(state);
        } else if s.owner.Some? {
          state := LockState(Fat, s.nestedLocks, s.waiters + 1, s.owner, s.mutex);
          r := Parked(state);
        } else {
          r := Spin;
        }
    }

    /** One iteration of `unlock()`'s retry loop whose compare-and-set wins,
        or the failure it raises. */
    method Unlock(t: ThreadId) returns (r: Result<Released, UnlockError>)
      requires Valid()
      modifies this
      ensures Valid()
      ensures r == UnlockStep(old(state), t)
      ensures state == if r.Success? then r.value.next else old(state)
    {
      var s := state;
      if s.owner != Some(t) {
        return Failure(NotOwner(s.owner, t));
      }
      match s.status
      case Thin =>
        if s.nestedLocks == 1 {
          state := LockState(Unlocked, 0, 0, None, None);
        } else {
          state := LockState(Thin, s.nestedLocks - 1, s.waiters, s.owner, None);
        }
        r := Success(Released(state, None));
      case Fat =>
        if s.nestedLocks == 1 {
          state := LockState(Fat, 0, s.waiters - 1, None, s.mutex);
          r := Success(Released(state, s.mutex));
        } else {
          state := LockState(Fat, s.nestedLocks - 1, s.waiters, s.owner, s.mutex);
          r := Success(Released(state, None));
        }
      case Unlocked =>
        r := Failure(NotObtained);
    }

    /** `tryLockAfterResume(t)` for the thread the last unlock woke. */
    method TryLockAfterResume(t: ThreadId)
      requires Valid() && Resumable(state)
      modifies this, pool
      ensures Valid()
      ensures state == ResumeStep(old(state), t).next
      ensures pool.Model() ==
        if old(state).waiters == 0 then PoolRelease(old(pool.Model()), old(state).mutex.value)
        else old(pool.Model())
    {
      var s := state;
      if s.waiters == 0 {
        state := LockState(Thin, 1, 0, Some(t), None);
        pool.Release(s.mutex.value);
      } else {
        state := LockState(Fat, 1, s.waiters, Some(t), s.mutex);
      }
    }
  }

  /** What the protected `block` did: returned a value or threw. */
  datatype BlockResult<T> = Returned(value: T) | Threw(error: string)

  /** `synchronized(lock, block)`: lock, run the block, unlock in `finally`
      whether it returned or threw, and pass its outcome on. Only the case in
      which `lock()` returns without blocking is modelled. */
  method Synchronized<T>(lock: SynchronizedObject, t: ThreadId, block: BlockResult<T>) returns (r: BlockResult<T>)
    requires lock.Valid()
    requires lock.state.status == Unlocked || lock.state.owner == Some(t)
    modifies lock, lock.pool
    ensures lock.Valid()
    ensures r == block
    ensures lock.state == old(lock.state) && lock.pool.Model() == old(lock.pool.Model())
  {
    var locked := lock.Lock(t);
    assert locked.Acquired?;
    r := block;
    var unlocked := lock.Unlock(t);
    assert unlocked.Success?;
  }
}

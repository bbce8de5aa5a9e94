/**
 * Single-flight fetching: every statement of `get_or_fetch` that takes a lock is one atomic step,
 * and any number of threads interleave those steps in any order.
 */
module SingleFlight {
  type Key = string
  type Tid = nat
  /** Lock objects are compared by identity; a fresh number stands for a fresh object. */
  type LockId = nat

  datatype Phase =
    | Waiting      // registered, blocked on (or about to take) the per-key lock
    | Checking     // holds the lock, about to re-check the cache
    | Fetching     // holds the lock, inside fetch_fn
    | Leaving      // lock released, reference count not yet dropped

  datatype Call = Call(key: Key, lock: LockId, phase: Phase)

  datatype State = State(
    calls: map<Tid, Call>,          // threads between registration and cleanup
    locks: map<Key, LockId>,        // _fetch_locks
    refs: map<Key, int>,            // _fetch_refcounts
    nextLock: LockId)

  const INIT := State(map[], map[], map[], 0)

  datatype Step =
    | Register(t: Tid, key: Key)
    | Acquire(t: Tid)
    | Hit(t: Tid)          // the double check finds a value: leave the lock
    | Miss(t: Tid)         // the double check fails: call fetch_fn
    | Finish(t: Tid)       // fetch_fn returned or raised: leave the lock
    | Cleanup(t: Tid)

  predicate Inside(c: Call) {
    c.phase == Checking || c.phase == Fetching
  }

  ghost predicate Free(s: State, lock: LockId) {
    forall u :: u in s.calls && Inside(s.calls[u]) ==> s.calls[u].lock != lock
  }

  /** A step is taken only when its thread has reached it and, for Acquire, the lock is free. */
  ghost predicate Enabled(s: State, a: Step) {
    match a
    case Register(t, _) => t !in s.calls
    case Acquire(t) => t in s.calls && s.calls[t].phase == Waiting && Free(s, s.calls[t].lock)
    case Hit(t) => t in s.calls && s.calls[t].phase == Checking
    case Miss(t) => t in s.calls && s.calls[t].phase == Checking
    case Finish(t) => t in s.calls && s.calls[t].phase == Fetching
    case Cleanup(t) => t in s.calls && s.calls[t].phase == Leaving
  }

  function RefsOf(s: State, key: Key): int {
    if key in s.refs then s.refs[key] else 0
  }

  function Registered(s: State, t: Tid, key: Key): State {
    if key in s.locks then
      s.(refs := s.refs[key := RefsOf(s, key) + 1], calls := s.calls[t := Call(key, s.locks[key], Waiting)])
    else
      State(s.calls[t := Call(key, s.nextLock, Waiting)], s.locks[key := s.nextLock], s.refs[key := 1], s.nextLock + 1)
  }

  function Moved(s: State, t: Tid, phase: Phase): State
    requires t in s.calls
  {
    s.(calls := s.calls[t := s.calls[t].(phase := phase)])
  }

  function CleanedUp(s: State, t: Tid): State
    requires t in s.calls
  {
    var key := s.calls[t].key;
    if RefsOf(s, key) == 1 then State(s.calls - {t}, s.locks - {key}, s.refs - {key}, s.nextLock)
    else s.(calls := s.calls - {t}, refs := s.refs[key := RefsOf(s, key) - 1])
  }

  // ---------------------------------------------------------------- what every interleaving keeps

  ghost function Callers(calls: map<Tid, Call>, key: Key): set<Tid> {
    set t | t in calls && calls[t].key == key
  }

  /** The reference count is the number of threads between registration and cleanup, and the lock
      entry exists exactly while that number is positive. */
  ghost predicate CountsCallers(s: State) {
    && s.refs.Keys == s.locks.Keys
    && (forall k :: k in s.refs ==> s.refs[k] == |Callers(s.calls, k)| > 0)
    && forall t :: t in s.calls ==> s.calls[t].key in s.refs
  }

  /** A registered thread keeps seeing the lock object it registered with. */
  ghost predicate LocksInUseStay(s: State) {
    && (forall t :: t in s.calls ==> s.calls[t].key in s.locks && s.locks[s.calls[t].key] == s.calls[t].lock)
    && (forall k :: k in s.locks ==> s.locks[k] < s.nextLock)
  }

  ghost predicate Exclusive(s: State) {
    forall t, u | t in s.calls && u in s.calls && Inside(s.calls[t]) && Inside(s.calls[u]) ::
      s.calls[t].lock == s.calls[u].lock ==> t == u
  }

  ghost predicate Inv(s: State) {
    CountsCallers(s) && LocksInUseStay(s) && Exclusive(s)
  }

  ghost function Next(s: State, a: Step): State
    requires Enabled(s, a)
  {
    match a
    case Register(t, key) => Registered(s, t, key)
    case Acquire(t) => Moved(s, t, Checking)
    case Hit(t) => Moved(s, t, Leaving)
    case Miss(t) => Moved(s, t, Fetching)
    case Finish(t) => Moved(s, t, Leaving)
    case Cleanup(t) => CleanedUp(s, t)
  }

  lemma CallersAfterJoin(calls: map<Tid, Call>, t: Tid, c: Call, k: Key)
    requires t !in calls
    ensures |Callers(calls[t := c], k)| == |Callers(calls, k)| + (if c.key == k then 1 else 0)
  {
    var calls' := calls[t := c];
    if c.key == k {
      assert Callers(calls', k) == Callers(calls, k) + {t};
    } else {
      assert Callers(calls', k) == Callers(calls, k);
    }
  }

  lemma CallersAfterLeave(calls: map<Tid, Call>, t: Tid, k: Key)
    requires t in calls
    ensures |Callers(calls - {t}, k)| == |Callers(calls, k)| - (if calls[t].key == k then 1 else 0)
  {
    var calls' := calls - {t};
    if calls[t].key == k {
      assert Callers(calls', k) + {t} == Callers(calls, k);
    } else {
      assert Callers(calls', k) == Callers(calls, k);
    }
  }

  lemma CallersUnmoved(s: State, t: Tid, phase: Phase, k: Key)
    requires t in s.calls
    ensures Callers(Moved(s, t, phase).calls, k) == Callers(s.calls, k)
  {
  }

  lemma RegisterKeepsCounts(s: State, t: Tid, key: Key)
    requires CountsCallers(s) && t !in s.calls
    ensures CountsCallers(Registered(s, t, key))
  {
    var s' := Registered(s, t, key);
    forall k | k in s'.refs ensures s'.refs[k] == |Callers(s'.calls, k)| > 0 {
      CallersAfterJoin(s.calls, t, s'.calls[t], k);
      if k == key && key !in s.locks {
        assert Callers(s.calls, key) == {};
      }
    }
  }

  lemma MoveKeepsCounts(s: State, t: Tid, phase: Phase)
    requires CountsCallers(s) && t in s.calls
    ensures CountsCallers(Moved(s, t, phase))
  {
    forall k | k in s.refs ensures Callers(Moved(s, t, phase).calls, k) == Callers(s.calls, k) {
      CallersUnmoved(s, t, phase, k);
    }
  }

  lemma CleanupKeepsCounts(s: State, t: Tid)
    requires CountsCallers(s) && t in s.calls
    ensures CountsCallers(CleanedUp(s, t))
  {
    var s' := CleanedUp(s, t);
    var key := s.calls[t].key;
    forall k | k in s.refs ensures |Callers(s'.calls, k)| == s.refs[k] - (if k == key then 1 else 0) {
      CallersAfterLeave(s.calls, t, k);
    }
    forall u | u in s'.calls ensures s'.calls[u].key in s'.refs {
      if s.calls[u].key == key {
        assert u in Callers(s'.calls, key);
      }
    }
  }

  /** The last caller of a key takes the lock entry with it; anyone else leaves it alone. */
  lemma CleanupKeepsLocks(s: State, t: Tid)
    requires CountsCallers(s) && LocksInUseStay(s) && t in s.calls
    ensures LocksInUseStay(CleanedUp(s, t))
  {
    var s' := CleanedUp(s, t);
    CleanupKeepsCounts(s, t);
    forall u | u in s'.calls ensures s'.calls[u].key in s'.locks && s'.locks[s'.calls[u].key] == s'.calls[u].lock {
      assert u in s.calls && s'.calls[u] == s.calls[u];
    }
  }

  lemma StepKeepsCounts(s: State, a: Step)
    requires Inv(s) && Enabled(s, a)
    ensures CountsCallers(Next(s, a))
  {
    match a {
      case Register(t, key) => RegisterKeepsCounts(s, t, key);
      case Acquire(t) => MoveKeepsCounts(s, t, Checking);
      case Hit(t) => MoveKeepsCounts(s, t, Leaving);
      case Miss(t) => MoveKeepsCounts(s, t, Fetching);
      case Finish(t) => MoveKeepsCounts(s, t, Leaving);
      case Cleanup(t) => CleanupKeepsCounts(s, t);
    }
  }

  lemma StepKeepsLocks(s: State, a: Step)
    requires Inv(s) && Enabled(s, a)
    ensures LocksInUseStay(Next(s, a))
  {
    if a.Cleanup? {
      CleanupKeepsLocks(s, a.t);
    }
  }

  lemma StepKeepsExclusive(s: State, a: Step)
    requires Inv(s) && Enabled(s, a)
    ensures Exclusive(Next(s, a))
  {
  }

  lemma StepKeepsInv(s: State, a: Step)
    requires Inv(s) && Enabled(s, a)
    ensures Inv(Next(s, a))
  {
    StepKeepsCounts(s, a);
    StepKeepsLocks(s, a);
    StepKeepsExclusive(s, a);
  }

  ghost predicate Taken(s: State, a: Step, s': State) {
    Enabled(s, a) && s' == Next(s, a)
  }

  /** An execution is a sequence of states, each reached from the previous one by an enabled step. */
  ghost predicate Execution(states: seq<State>, steps: seq<Step>) {
    && |states| == |steps| + 1
    && states[0] == INIT
    && forall i :: 0 <= i < |steps| ==> Taken(states[i], steps[i], states[i + 1])
  }

  lemma {:induction false} EveryInterleavingKeepsInv(states: seq<State>, steps: seq<Step>, i: nat)
    requires Execution(states, steps) && i < |states|
    ensures Inv(states[i])
  {
    if i > 0 {
      EveryInterleavingKeepsInv(states, steps, i - 1);
      assert Taken(states[i - 1], steps[i - 1], states[i]);
      StepKeepsInv(states[i - 1], steps[i - 1]);
    }
  }

  /** At no point of any interleaving are two threads inside fetch_fn for one key. */
  lemma AtMostOneFetchPerKey(states: seq<State>, steps: seq<Step>, i: nat, t: Tid, u: Tid)
    requires Execution(states, steps) && i < |states|
    requires t in states[i].calls && u in states[i].calls
    requires states[i].calls[t].phase == Fetching && states[i].calls[u].phase == Fetching
    requires states[i].calls[t].key == states[i].calls[u].key
    ensures t == u
  {
    EveryInterleavingKeepsInv(states, steps, i);
  }

  lemma StepKeepsRegistration(s: State, a: Step, t: Tid)
    requires Enabled(s, a) && t in s.calls && t in Next(s, a).calls
    ensures Next(s, a).calls[t].key == s.calls[t].key && Next(s, a).calls[t].lock == s.calls[t].lock
  {
  }

  lemma {:induction false} RegistrationIsStable(states: seq<State>, steps: seq<Step>, i: nat, j: nat, t: Tid)
    requires Execution(states, steps) && i <= j < |states|
    requires forall n :: i <= n <= j ==> t in states[n].calls
    ensures states[j].calls[t].key == states[i].calls[t].key && states[j].calls[t].lock == states[i].calls[t].lock
    decreases j
  {
    if i < j {
      RegistrationIsStable(states, steps, i, j - 1, t);
      assert Taken(states[j - 1], steps[j - 1], states[j]);
      StepKeepsRegistration(states[j - 1], steps[j - 1], t);
    }
  }

  /** While a thread is registered, its key's lock entry is never dropped or replaced. */
  lemma LockStableWhileRegistered(states: seq<State>, steps: seq<Step>, i: nat, j: nat, t: Tid)
    requires Execution(states, steps) && i <= j < |states|
    requires forall n :: i <= n <= j ==> t in states[n].calls
    ensures var key := states[i].calls[t].key;
      key in states[i].locks && key in states[j].locks && states[j].locks[key] == states[i].locks[key]
  {
    EveryInterleavingKeepsInv(states, steps, i);
    EveryInterleavingKeepsInv(states, steps, j);
    RegistrationIsStable(states, steps, i, j, t);
  }

  /** Once every call has cleaned up, no lock and no count is left behind. */
  lemma QuiescenceLeavesNothing(states: seq<State>, steps: seq<Step>, i: nat)
    requires Execution(states, steps) && i < |states| && states[i].calls == map[]
    ensures states[i].locks == map[] && states[i].refs == map[]
  {
    EveryInterleavingKeepsInv(states, steps, i);
    var s := states[i];
    forall k ensures k !in s.refs {
      assert Callers(s.calls, k) == {};
    }
    assert s.refs.Keys == {};
    assert s.locks.Keys == {};
  }

  // ---------------------------------------------------------------- the registry object

  // ---------------------------------------------------------------- nobody waits in vain

  /** The step that takes a thread that is not waiting one phase further. */
  function Onward(s: State, t: Tid): Step
    requires t in s.calls
  {
    match s.calls[t].phase
    case Waiting => Acquire(t)
    case Checking => Miss(t)
    case Fetching => Finish(t)
    case Leaving => Cleanup(t)
  }

  /** Any thread may register, also for a key that is in use; it then shares that key's lock. */
  lemma NewcomersAreAdmitted(s: State, t: Tid, key: Key)
    requires t !in s.calls
    ensures Enabled(s, Register(t, key))
    ensures var s' := Next(s, Register(t, key));
            t in s'.calls && s'.calls[t].key == key && s'.calls[t].phase == Waiting && key in s'.locks
            && s'.locks[key] == s'.calls[t].lock && (key in s.locks ==> s'.calls[t].lock == s.locks[key])
  {
  }

  /** Different keys never share a lock object. */
  ghost predicate OwnLocks(s: State) {
    forall j, k | j in s.locks && k in s.locks :: s.locks[j] == s.locks[k] ==> j == k
  }

  lemma StepKeepsOwnLocks(s: State, a: Step)
    requires LocksInUseStay(s) && OwnLocks(s) && Enabled(s, a)
    ensures OwnLocks(Next(s, a))
  {
  }

  lemma {:induction false} KeysOwnTheirLocks(states: seq<State>, steps: seq<Step>, i: nat)
    requires Execution(states, steps) && i < |states|
    ensures OwnLocks(states[i])
    decreases i
  {
    if i > 0 {
      KeysOwnTheirLocks(states, steps, i - 1);
      EveryInterleavingKeepsInv(states, steps, i - 1);
      assert Taken(states[i - 1], steps[i - 1], states[i - 1 + 1]);
      StepKeepsOwnLocks(states[i - 1], steps[i - 1]);
    }
  }

  /** Thread u is inside the lock of t's key and can go on. */
  ghost predicate IsServed(s: State, t: Tid, u: Tid) {
    t in s.calls && u in s.calls && Inside(s.calls[u]) && s.calls[u].key == s.calls[t].key && Enabled(s, Onward(s, u))
  }

  lemma LockHolderIsOfTheKey(s: State, t: Tid, u: Tid)
    requires LocksInUseStay(s) && OwnLocks(s) && t in s.calls && u in s.calls
    requires Inside(s.calls[u]) && s.calls[u].lock == s.calls[t].lock
    ensures IsServed(s, t, u)
  {
    assert s.locks[s.calls[u].key] == s.locks[s.calls[t].key];
  }

  lemma WaiterHasAHolder(s: State, t: Tid)
    requires LocksInUseStay(s) && OwnLocks(s) && t in s.calls && !Enabled(s, Onward(s, t))
    ensures exists u :: IsServed(s, t, u)
  {
    var u :| u in s.calls && Inside(s.calls[u]) && s.calls[u].lock == s.calls[t].lock;
    LockHolderIsOfTheKey(s, t, u);
  }

  /**
   * At every point of every interleaving a registered thread can go on, or waits for a thread of the same key that is
   * inside the lock and can go on itself.
   */
  lemma NobodyWaitsInVain(states: seq<State>, steps: seq<Step>, i: nat, t: Tid)
    requires Execution(states, steps) && i < |states| && t in states[i].calls
    ensures Enabled(states[i], Onward(states[i], t)) || exists u :: IsServed(states[i], t, u)
  {
    EveryInterleavingKeepsInv(states, steps, i);
    KeysOwnTheirLocks(states, steps, i);
    if !Enabled(states[i], Onward(states[i], t)) {
      WaiterHasAHolder(states[i], t);
    }
  }

  /** A thread takes four steps through a call: each step it is offered moves it to the next phase. */
  lemma OnwardMovesOn(s: State, t: Tid)
    requires t in s.calls && Enabled(s, Onward(s, t))
    ensures var s' := Next(s, Onward(s, t));
            match s.calls[t].phase
            case Waiting => t in s'.calls && s'.calls[t].phase == Checking
            case Checking => t in s'.calls && s'.calls[t].phase == Fetching
            case Fetching => t in s'.calls && s'.calls[t].phase == Leaving
            case Leaving => t !in s'.calls
  {
  }

  /** A value found by the second look is returned without a fetch. */
  lemma HitSkipsTheFetch(s: State, t: Tid)
    requires t in s.calls && s.calls[t].phase == Checking
    ensures Enabled(s, Hit(t)) && t in Next(s, Hit(t)).calls && Next(s, Hit(t)).calls[t].phase == Leaving
  {
  }

  /** The two dictionaries guarded by `_fetch_lock_manager`; each method is one critical section. */
  class FetchRegistry {
    var fetchLocks: map<Key, LockId>
    var fetchRefcounts: map<Key, int>
    var nextLock: LockId

    ghost predicate Represents(s: State)
      reads this
    {
      fetchLocks == s.locks && fetchRefcounts == s.refs && nextLock == s.nextLock
    }

    constructor ()
      ensures Represents(INIT)
    {
      fetchLocks, fetchRefcounts, nextLock := map[], map[], 0;
    }

    method Enter(key: Key, t: Tid, ghost s: State) returns (lock: LockId)
      requires Represents(s) && s.locks.Keys == s.refs.Keys && t !in s.calls
      modifies this
      ensures Represents(Registered(s, t, key)) && lock == Registered(s, t, key).calls[t].lock
    {
      if key !in fetchLocks {
        fetchLocks := fetchLocks[key := nextLock];
        fetchRefcounts := fetchRefcounts[key := 0];
        nextLock := nextLock + 1;
      }
      fetchRefcounts := fetchRefcounts[key := fetchRefcounts[key] + 1];
      lock := fetchLocks[key];
    }

    method Leave(key: Key, t: Tid, ghost s: State)
      requires Represents(s) && s.locks.Keys == s.refs.Keys && t in s.calls && s.calls[t].key == key && key in s.refs
      modifies this
      ensures Represents(CleanedUp(s, t))
    {
      fetchRefcounts := fetchRefcounts[key := fetchRefcounts[key] - 1];
      if fetchRefcounts[key] == 0 {
        fetchLocks := fetchLocks - {key};
        fetchRefcounts := fetchRefcounts - {key};
      }
    }
  }
}

/**
  The search engine built over the hidden tools, cached by registry version, under concurrent calls
  whose fast path takes no lock. One step of the machine is one access to shared memory.
*/
module EngineCache {

  import opened Options
  import opened Registry

  /**
    An engine with the docs it indexes; without docs there is none (nil). The version of the
    snapshot it was built from is kept for the proof: no step looks at it.
  */
  datatype Engine = Engine(docs: Docs, builtAt: nat)

  predicate IsNil(e: Engine) { e.docs == map[] }

  /** Where a thread is in its call; entered is the registry version when the call began. */
  datatype Thread =
    | Idle
    | Checking(entered: nat)                    // about to look at the cached engine
    | Comparing(entered: nat)                   // it was not nil; about to compare the versions
    | HasCacheVersion(entered: nat, seen: nat)  // read the cache's version, not yet the registry's
    | HasVersion(entered: nat, seen: nat)       // the other way round: the language leaves the order open
    | FastHit(entered: nat)                     // they were equal; about to read the engine to return
    | Waiting(entered: nat)                     // for the lock
    | Locked(entered: nat)
    | Snapped(entered: nat, snap: Engine)       // with a snapshot, about to look at the cache again
    | Writing(entered: nat, snap: Engine)       // about to store the engine
    | Written(entered: nat, snap: Engine)       // about to store its version
    | Returned(entered: nat, result: Engine, left: nat)

  /** history[v] are the hidden tools of version v; the last is current. */
  datatype State = State(history: seq<Docs>, cached: Engine, cacheVersion: nat, threads: map<int, Thread>)
  {
    function Version(): int { |history| - 1 }
  }

  predicate HoldsLock(t: Thread) { t.Locked? || t.Snapped? || t.Writing? || t.Written? }

  predicate LockFree(s: State) { forall i | i in s.threads :: !HoldsLock(s.threads[i]) }

  predicate Init(s: State) {
    && s.history == [map[]] && s.cached == Engine(map[], 0) && s.cacheVersion == 0
    && forall i | i in s.threads :: s.threads[i] == Idle
  }

  /** What the next access of a thread may make of it. */
  predicate Moves(s: State, t: Thread, t': Thread)
    requires s.history != []
  {
    match t
    case Idle => t' == Checking(s.Version())
    case Checking(e) => t' == if IsNil(s.cached) then Waiting(e) else Comparing(e)
    case Comparing(e) => t' == HasCacheVersion(e, s.cacheVersion) || t' == HasVersion(e, s.Version())
    case HasCacheVersion(e, seen) => t' == if seen == s.Version() then FastHit(e) else Waiting(e)
    case HasVersion(e, seen) => t' == if s.cacheVersion == seen then FastHit(e) else Waiting(e)
    case FastHit(e) => t' == Returned(e, s.cached, s.Version())
    case Waiting(e) => t' == Locked(e) && LockFree(s)
    case Locked(e) => t' == Snapped(e, Engine(s.history[s.Version()], s.Version()))
    case Snapped(e, snap) =>
      t' == if !IsNil(s.cached) && s.cacheVersion == snap.builtAt then Returned(e, s.cached, s.Version())
            else Writing(e, snap)
    case Writing(e, snap) => t' == Written(e, snap)
    case Written(e, snap) => t' == Returned(e, snap, s.Version())
    case Returned(_, _, _) => t' == Idle
  }

  function Store(s: State, t: Thread): State {
    if t.Writing? then s.(cached := t.snap)
    else if t.Written? then s.(cacheVersion := t.snap.builtAt)
    else s
  }

  ghost predicate ThreadStep(s: State, s': State, i: int) {
    && s.history != [] && i in s.threads && i in s'.threads
    && Moves(s, s.threads[i], s'.threads[i])
    && s' == Store(s, s.threads[i]).(threads := s.threads[i := s'.threads[i]])
  }

  /** A registration: it takes effect when the version goes up. */
  ghost predicate RegistryStep(s: State, s': State) {
    |s'.history| == |s.history| + 1 && s' == s.(history := s.history + [s'.history[|s.history|]])
  }

  ghost predicate Next(s: State, s': State) {
    RegistryStep(s, s') || exists i :: ThreadStep(s, s', i)
  }

  ghost predicate IsRun(run: seq<State>) {
    run != [] && Init(run[0]) && forall n | 0 < n < |run| :: Next(run[n - 1], run[n])
  }

  // ---------------------------------------------------------------- what every run keeps

  /** An engine is what its version's hidden tools make it. */
  ghost predicate Faithful(history: seq<Docs>, e: Engine) {
    e.builtAt < |history| && e.docs == history[e.builtAt]
  }

  ghost predicate ThreadInv(s: State, t: Thread) {
    match t
    case Idle => true
    case Checking(e) => e < |s.history|
    case Comparing(e) => e < |s.history|
    case HasCacheVersion(e, seen) => e < |s.history| && seen <= s.cached.builtAt
    case HasVersion(e, seen) => e <= seen < |s.history|
    case FastHit(e) => e <= s.cached.builtAt
    case Waiting(e) => e < |s.history|
    case Locked(e) => e < |s.history|
    case Snapped(e, snap) => e <= snap.builtAt && Faithful(s.history, snap) && s.cached.builtAt <= snap.builtAt
    case Writing(e, snap) => e <= snap.builtAt && Faithful(s.history, snap) && s.cached.builtAt <= snap.builtAt
    case Written(e, snap) => e <= snap.builtAt && Faithful(s.history, snap) && s.cached == snap
    case Returned(e, result, left) => e <= result.builtAt <= left < |s.history| && Faithful(s.history, result)
  }

  /** At most one thread holds the lock. */
  ghost predicate Exclusive(s: State) {
    forall i, k | i in s.threads && k in s.threads && HoldsLock(s.threads[i]) && HoldsLock(s.threads[k]) :: i == k
  }

  ghost predicate CacheInv(s: State) {
    Faithful(s.history, s.cached) && s.cacheVersion <= s.cached.builtAt
  }

  ghost predicate Inv(s: State) {
    CacheInv(s) && Exclusive(s) && forall i | i in s.threads :: ThreadInv(s, s.threads[i])
  }

  lemma {:induction false} InitInv(s: State)
    requires Init(s)
    ensures Inv(s)
  {}

  lemma {:induction false} RegistryKeeps(s: State, s': State, t: Thread)
    requires RegistryStep(s, s') && ThreadInv(s, t)
    ensures ThreadInv(s', t)
  {}

  /** The thread that moves. */
  lemma {:induction false} MoverKeeps(s: State, s': State, i: int)
    requires Inv(s) && ThreadStep(s, s', i)
    ensures ThreadInv(s', s'.threads[i])
  {
    assert ThreadInv(s, s.threads[i]);
  }

  /** The cached engine never goes back in versions. */
  lemma {:induction false} CacheAdvances(s: State, s': State, i: int)
    requires Inv(s) && ThreadStep(s, s', i)
    ensures CacheInv(s') && s.cached.builtAt <= s'.cached.builtAt
  {
    assert ThreadInv(s, s.threads[i]);
  }

  /** A thread that does not move; if it holds the lock, nobody else stores. */
  lemma {:induction false} OtherKeeps(s: State, s': State, i: int, k: int)
    requires Inv(s) && ThreadStep(s, s', i) && k in s.threads && k != i
    ensures s'.threads[k] == s.threads[k] && ThreadInv(s', s.threads[k])
  {
    CacheAdvances(s, s', i);
    assert ThreadInv(s, s.threads[k]);
    assert HoldsLock(s.threads[i]) ==> !HoldsLock(s.threads[k]);
  }

  lemma {:induction false} LockKeeps(s: State, s': State, i: int)
    requires Exclusive(s) && ThreadStep(s, s', i)
    ensures Exclusive(s')
  {
    assert HoldsLock(s'.threads[i]) ==> HoldsLock(s.threads[i]) || LockFree(s);
  }

  lemma {:induction false} StepKeeps(s: State, s': State)
    requires Inv(s) && Next(s, s')
    ensures Inv(s') && s.history <= s'.history
  {
    if RegistryStep(s, s') {
      forall i | i in s'.threads ensures ThreadInv(s', s'.threads[i]) { RegistryKeeps(s, s', s.threads[i]); }
    } else {
      var i :| ThreadStep(s, s', i);
      CacheAdvances(s, s', i);
      LockKeeps(s, s', i);
      MoverKeeps(s, s', i);
      forall k | k in s'.threads ensures ThreadInv(s', s'.threads[k]) {
        if k != i { OtherKeeps(s, s', i, k); }
      }
    }
  }

  lemma {:induction false} RunKeeps(run: seq<State>, n: nat)
    requires IsRun(run) && n < |run|
    ensures Inv(run[n])
  {
    if n == 0 {
      InitInv(run[0]);
    } else {
      RunKeeps(run, n - 1);
      StepKeeps(run[n - 1], run[n]);
    }
  }

  /**
    In every run, under every interleaving with registrations and other calls, a call returns the engine
    of a version that was current at some moment of the call.
  */
  lemma {:induction false} NeverOutOfDate(run: seq<State>, n: nat, i: int)
    requires IsRun(run) && n < |run| && i in run[n].threads && run[n].threads[i].Returned?
    ensures var t := run[n].threads[i];
      exists v :: t.entered <= v <= t.left < |run[n].history| && t.result.docs == run[n].history[v]
  {
    RunKeeps(run, n);
    var s := run[n];
    assert ThreadInv(s, s.threads[i]);
  }

  /** The cached engine is there, and of the current version. */
  ghost predicate Current(s: State) { s.cached.docs != map[] && s.cacheVersion == s.Version() }

  /** A call that is not on its way to the lock, nor has it. */
  ghost predicate Lockless(s: State, t: Thread) {
    match t
    case HasCacheVersion(_, seen) => seen == s.Version()
    case HasVersion(_, seen) => seen == s.Version()
    case Waiting(_) => false
    case _ => !HoldsLock(t)
  }

  /** While the cache is current, a call stays off the lock, changes nothing, and returns the cached engine. */
  lemma {:induction false} CurrentCacheIsFast(s: State, s': State, i: int)
    requires ThreadStep(s, s', i) && Current(s) && Lockless(s, s.threads[i])
    ensures Current(s') && Lockless(s', s'.threads[i]) && s'.cached == s.cached
    ensures s'.threads[i].Returned? ==> s'.threads[i].result == s.cached
  {}

  /** Without an engine, or with versions that differ when they are compared, it goes for the lock. */
  lemma {:induction false} StaleCacheWaits(s: State, s': State, i: int)
    requires ThreadStep(s, s', i)
    ensures s.threads[i].Checking? ==> (s'.threads[i].Waiting? <==> s.cached.docs == map[])
    ensures s.threads[i].HasCacheVersion? ==> (s'.threads[i].Waiting? <==> s.threads[i].seen != s.Version())
    ensures s.threads[i].HasVersion? ==> (s'.threads[i].Waiting? <==> s.threads[i].seen != s.cacheVersion)
    ensures s.threads[i].Comparing? ==> !s'.threads[i].Waiting?
  {}

  /** So a call during which nothing is registered returns exactly the current hidden tools. */
  lemma {:induction false} QuietCallIsExact(run: seq<State>, n: nat, i: int)
    requires IsRun(run) && n < |run| && i in run[n].threads && run[n].threads[i].Returned?
    requires run[n].threads[i].entered == run[n].threads[i].left == run[n].Version()
    ensures run[n].threads[i].result.docs == run[n].history[run[n].Version()]
  {
    NeverOutOfDate(run, n, i);
  }

  // ---------------------------------------------------------------- one call by itself

  class BM25SearchTool {
    const registry: ToolRegistry
    var cachedEngine: Option<Docs>
    var cacheVersion: nat

    ghost predicate Valid()
      reads this, registry
    {
      && registry.Valid() && cacheVersion <= registry.version
      && (cachedEngine.Some? ==> cachedEngine.value == registry.history[cacheVersion] != map[])
    }

    constructor (registry: ToolRegistry)
      requires registry.Valid()
      ensures Valid() && this.registry == registry && cachedEngine == None
    {
      this.registry := registry;
      cachedEngine, cacheVersion := None, 0;
    }

    /** The engine of the current hidden tools, and none if there are none. */
    method GetOrBuildEngine() returns (engine: Option<Docs>)
      requires Valid()
      modifies this
      ensures Valid() && engine == cachedEngine
      ensures engine == if Hidden(registry.tools) == map[] then None else Some(Hidden(registry.tools))
      ensures old(cachedEngine).Some? && old(cacheVersion) == registry.version ==>
                cachedEngine == old(cachedEngine) && cacheVersion == old(cacheVersion)
    {
      if cachedEngine.Some? && cacheVersion == registry.version {
        return cachedEngine;
      }
      var docs, at := registry.SnapshotHiddenTools();
      if cachedEngine.Some? && cacheVersion == at {
        return cachedEngine;
      }
      cachedEngine := if |docs| == 0 then None else Some(docs);
      cacheVersion := at;
      engine := cachedEngine;
    }
  }
}

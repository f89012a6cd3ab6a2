/** What every interleaving of callers of the tenant cache keeps. */
module CacheSafety {
  import opened Options
  import opened CacheOrder
  import opened CacheProtocol

  // ---------------------------------------------------------------- the invariant

  ghost predicate CacheOk(cache: Cache, capacity: nat, built: set<Pair>) {
    && WellFormed(cache) && |cache.order| <= capacity
    && forall k | k in cache.entries :: Pair(k, cache.entries[k].value) in built
  }

  ghost predicate FlightsOk(cache: Cache, inflight: map<Tenant, nat>, futures: seq<Future>) {
    forall k | k in inflight ::
      k !in cache.entries && inflight[k] < |futures| && futures[inflight[k]] == Future(k, None)
  }

  ghost predicate FuturesOk(futures: seq<Future>, built: set<Pair>) {
    forall i | 0 <= i < |futures| :: FutureOk(futures[i], built)
  }

  ghost predicate FutureOk(f: Future, built: set<Pair>) {
    f.outcome.Some? && f.outcome.value.Built? ==> Pair(f.key, f.outcome.value.value) in built
  }

  ghost predicate ThreadOk(t: Thread, inflight: map<Tenant, nat>, futures: seq<Future>, built: set<Pair>) {
    match t
    case Waiting(key, ticket) =>
      && ticket < |futures| && futures[ticket].key == key
      && (futures[ticket].outcome.None? ==> InFlight(inflight, key, ticket))
    case Finished(key, Some(ticket), outcome) =>
      ticket < |futures| && futures[ticket] == Future(key, Some(outcome))
    case Finished(key, None, outcome) => outcome.Built? && Pair(key, outcome.value) in built
    case Holding(key, ticket, value) => InFlight(inflight, key, ticket) && Pair(key, value) in built
    case _ => InFlight(inflight, t.key, t.ticket)
  }

  ghost predicate InFlight(inflight: map<Tenant, nat>, key: Tenant, ticket: nat) {
    key in inflight && inflight[key] == ticket
  }

  ghost predicate ThreadsOk(s: State) {
    forall i | 0 <= i < |s.threads| :: ThreadOk(s.threads[i], s.inflight, s.futures, s.books.built)
  }

  predicate Creates(t: Thread, key: Tenant) {
    Creating(t) && t.key == key
  }

  /** One creator for each key in flight. */
  ghost predicate OneCreator(threads: seq<Thread>, key: Tenant) {
    && (exists i :: 0 <= i < |threads| && Creates(threads[i], key))
    && (forall i, j | 0 <= i < j < |threads| :: !(Creates(threads[i], key) && Creates(threads[j], key)))
  }

  ghost predicate CreatorsOk(s: State) {
    forall k | k in s.inflight :: OneCreator(s.threads, k)
  }

  ghost predicate Inv(s: State, capacity: nat) {
    && CacheOk(s.cache, capacity, s.books.built)
    && FlightsOk(s.cache, s.inflight, s.futures)
    && FuturesOk(s.futures, s.books.built)
    && ThreadsOk(s)
    && CreatorsOk(s)
  }

  lemma EmptyInv(capacity: nat)
    ensures Inv(EMPTY, capacity)
  {
  }

  // ---------------------------------------------------------------- threads and creators

  /** A thread that goes on creating, or never was creating, changes nobody's creator. */
  lemma SameCreators(threads: seq<Thread>, t: nat, me: Thread, key: Tenant)
    requires t < |threads| && OneCreator(threads, key)
    requires Creates(threads[t], key) == Creates(me, key)
    ensures OneCreator(threads[t := me], key)
  {
    var i :| 0 <= i < |threads| && Creates(threads[i], key);
    assert Creates(threads[t := me][i], key);
  }

  lemma AppendedThread(threads: seq<Thread>, me: Thread, key: Tenant)
    requires OneCreator(threads, key) && !Creates(me, key)
    ensures OneCreator(threads + [me], key)
  {
    var i :| 0 <= i < |threads| && Creates(threads[i], key);
    assert Creates((threads + [me])[i], key);
  }

  lemma FirstCreator(threads: seq<Thread>, me: Thread, key: Tenant)
    requires forall i | 0 <= i < |threads| :: !Creates(threads[i], key)
    requires Creates(me, key)
    ensures OneCreator(threads + [me], key)
  {
    assert Creates((threads + [me])[|threads|], key);
  }

  /** One thread moves on while the futures and flights stay. */
  lemma ThreadMoves(s: State, s': State, t: nat, me: Thread, capacity: nat)
    requires Inv(s, capacity) && t < |s.threads|
    requires s'.inflight == s.inflight && s'.futures == s.futures && s.books.built <= s'.books.built
    requires s'.threads == s.threads[t := me]
    requires Creating(s.threads[t]) == Creating(me) && me.key == s.threads[t].key
    requires ThreadOk(me, s'.inflight, s'.futures, s'.books.built)
    requires CacheOk(s'.cache, capacity, s'.books.built)
    requires FlightsOk(s'.cache, s'.inflight, s'.futures)
    ensures Inv(s', capacity)
  {
    hide CacheOk, FlightsOk, OneCreator;
    forall k | k in s'.inflight
      ensures OneCreator(s'.threads, k)
    {
      SameCreators(s.threads, t, me, k);
    }
  }

  lemma PopKeepsCache(cache: Cache, capacity: nat, built: set<Pair>)
    requires CacheOk(cache, capacity, built) && capacity > 0
    ensures var popped := Pop(cache, capacity);
            && CacheOk(AfterPop(cache, popped), capacity, built)
            && (!popped.Exhausted? ==> |AfterPop(cache, popped).order| < capacity)
            && AfterPop(cache, popped).entries.Keys <= cache.entries.Keys
  {
    PopMakesRoom(cache, capacity);
  }

  lemma FewerCached(cache: Cache, cache': Cache, inflight: map<Tenant, nat>, futures: seq<Future>)
    requires FlightsOk(cache, inflight, futures) && cache'.entries.Keys <= cache.entries.Keys
    ensures FlightsOk(cache', inflight, futures)
  {
    assert forall k | k in cache'.entries :: k in cache.entries.Keys;
  }

  // ---------------------------------------------------------------- the steps

  lemma CallKeepsInv(s: State, key: Tenant, capacity: nat)
    requires Inv(s, capacity)
    ensures Inv(AfterCall(s, key), capacity)
  {
    if key in s.cache.entries {
      HitKeepsInv(s, key, capacity);
    } else if key in s.inflight {
      JoinKeepsInv(s, key, capacity);
    } else {
      CreateKeepsInv(s, key, capacity);
    }
  }

  lemma HitKeepsInv(s: State, key: Tenant, capacity: nat)
    requires Inv(s, capacity) && key in s.cache.entries
    ensures Inv(AfterCall(s, key), capacity)
  {
    hide OneCreator;
    TouchKeepsForm(s.cache, key);
    var me := Finished(key, None, Built(s.cache.entries[key].value));
    forall k | k in s.inflight
      ensures OneCreator(s.threads + [me], k)
    {
      AppendedThread(s.threads, me, k);
    }
  }

  lemma JoinKeepsInv(s: State, key: Tenant, capacity: nat)
    requires Inv(s, capacity) && key !in s.cache.entries && key in s.inflight
    ensures Inv(AfterCall(s, key), capacity)
  {
    hide OneCreator;
    var me := Waiting(key, s.inflight[key]);
    forall k | k in s.inflight
      ensures OneCreator(s.threads + [me], k)
    {
      AppendedThread(s.threads, me, k);
    }
  }

  lemma CreateKeepsInv(s: State, key: Tenant, capacity: nat)
    requires Inv(s, capacity) && key !in s.cache.entries && key !in s.inflight
    ensures Inv(AfterCall(s, key), capacity)
  {
    hide OneCreator;
    var me := Starting(key, |s.futures|);
    var s' := AfterCall(s, key);
    forall k | k in s'.inflight
      ensures OneCreator(s'.threads, k)
    {
      if k == key {
        forall i | 0 <= i < |s.threads|
          ensures !Creates(s.threads[i], key)
        {
          assert ThreadOk(s.threads[i], s.inflight, s.futures, s.books.built);
        }
        FirstCreator(s.threads, me, key);
      } else {
        AppendedThread(s.threads, me, k);
      }
    }
    forall i | 0 <= i < |s'.threads|
      ensures ThreadOk(s'.threads[i], s'.inflight, s'.futures, s'.books.built)
    {
      if i < |s.threads| {
        assert ThreadOk(s.threads[i], s.inflight, s.futures, s.books.built);
      }
    }
  }

  lemma MakeRoomKeepsInv(s: State, t: nat, capacity: nat)
    requires Inv(s, capacity) && capacity > 0 && Enabled(s, MakeRoom(t))
    ensures Inv(AfterMakeRoom(s, t, capacity), capacity)
  {
    hide CacheOk, FlightsOk;
    var s' := AfterMakeRoom(s, t, capacity);
    PopKeepsCache(s.cache, capacity, s.books.built);
    FewerCached(s.cache, s'.cache, s.inflight, s.futures);
    assert ThreadOk(s.threads[t], s.inflight, s.futures, s.books.built);
    ThreadMoves(s, s', t, s'.threads[t], capacity);
  }

  lemma FactoryKeepsInv(s: State, t: nat, outcome: Outcome, capacity: nat)
    requires Inv(s, capacity) && Enabled(s, FactoryReturns(t, outcome))
    ensures Inv(AfterFactory(s, t, outcome), capacity)
  {
    hide FlightsOk;
    var s' := AfterFactory(s, t, outcome);
    assert ThreadOk(s.threads[t], s.inflight, s.futures, s.books.built);
    assert FuturesOk(s'.futures, s'.books.built);
    ThreadMoves(s, s', t, s'.threads[t], capacity);
  }

  lemma WakeKeepsInv(s: State, t: nat, capacity: nat)
    requires Inv(s, capacity) && Enabled(s, Wake(t))
    ensures Inv(AfterWake(s, t), capacity)
  {
    hide FlightsOk, CacheOk;
    var s' := AfterWake(s, t);
    assert ThreadOk(s.threads[t], s.inflight, s.futures, s.books.built);
    ThreadMoves(s, s', t, s'.threads[t], capacity);
  }

  /** The creator settles its future, for good or ill, and its key is no longer in flight. */
  lemma SettleKeepsInv(s: State, s': State, t: nat, outcome: Outcome, capacity: nat)
    requires Inv(s, capacity) && t < |s.threads| && Creating(s.threads[t])
    requires var me := s.threads[t];
             && s'.inflight == s.inflight - {me.key}
             && s'.futures == Resolve(s.futures, me.ticket, outcome)
             && s'.threads == s.threads[t := Finished(me.key, Some(me.ticket), outcome)]
             && (outcome.Built? ==> Pair(me.key, outcome.value) in s.books.built)
             && (forall k | k in s'.cache.entries :: k in s.cache.entries || k == me.key)
    requires s'.books.built == s.books.built && CacheOk(s'.cache, capacity, s'.books.built)
    ensures Inv(s', capacity)
  {
    hide OneCreator, CacheOk;
    var me := s.threads[t];
    assert ThreadOk(me, s.inflight, s.futures, s.books.built);
    assert s.futures[me.ticket] == Future(me.key, None);
    forall k | k in s'.inflight
      ensures OneCreator(s'.threads, k)
    {
      SameCreators(s.threads, t, s'.threads[t], k);
    }
    forall i | 0 <= i < |s'.threads|
      ensures ThreadOk(s'.threads[i], s'.inflight, s'.futures, s'.books.built)
    {
      if i != t {
        OthersStayOk(s, s', t, i, outcome, capacity);
      }
    }
    SettledFlights(s, s', t, outcome, capacity);
  }

  lemma SettledFlights(s: State, s': State, t: nat, outcome: Outcome, capacity: nat)
    requires Inv(s, capacity) && t < |s.threads| && Creating(s.threads[t])
    requires var me := s.threads[t];
             && s'.inflight == s.inflight - {me.key}
             && s'.futures == Resolve(s.futures, me.ticket, outcome)
             && (forall k | k in s'.cache.entries :: k in s.cache.entries || k == me.key)
    ensures FlightsOk(s'.cache, s'.inflight, s'.futures)
  {
    hide OneCreator, CacheOk, FuturesOk;
    assert ThreadOk(s.threads[t], s.inflight, s.futures, s.books.built);
  }

  lemma OthersStayOk(s: State, s': State, t: nat, i: nat, outcome: Outcome, capacity: nat)
    requires Inv(s, capacity) && t < |s.threads| && Creating(s.threads[t]) && i < |s.threads| && i != t
    requires var me := s.threads[t];
             s'.inflight == s.inflight - {me.key} && s'.futures == Resolve(s.futures, me.ticket, outcome)
    requires s'.books.built == s.books.built
    ensures ThreadOk(s.threads[i], s'.inflight, s'.futures, s'.books.built)
  {
    hide CacheOk, FuturesOk;
    var me, other := s.threads[t], s.threads[i];
    assert ThreadOk(me, s.inflight, s.futures, s.books.built);
    assert ThreadOk(other, s.inflight, s.futures, s.books.built);
    if Creating(other) {
      assert OneCreator(s.threads, me.key);
      assert Creates(me, me.key);
      assert other.key != me.key;
    }
  }

  lemma InstallKeepsInv(s: State, t: nat, capacity: nat)
    requires Inv(s, capacity) && capacity > 0 && Enabled(s, Install(t))
    ensures Inv(AfterInstall(s, t, capacity), capacity)
  {
    var me := s.threads[t];
    var s' := AfterInstall(s, t, capacity);
    assert ThreadOk(me, s.inflight, s.futures, s.books.built);
    if Pop(s.cache, capacity).Exhausted? {
      ThreadMoves(s, s', t, s'.threads[t], capacity);
    } else {
      InstalledCache(s.cache, me.key, me.value, capacity, s.books.built);
      hide CacheOk, ThreadOk;
      SettleKeepsInv(s, s', t, Built(me.value), capacity);
    }
  }

  lemma InstalledCache(cache: Cache, key: Tenant, value: Resource, capacity: nat, built: set<Pair>)
    requires CacheOk(cache, capacity, built) && capacity > 0 && key !in cache.entries && Pair(key, value) in built
    requires !Pop(cache, capacity).Exhausted?
    ensures var cache' := Put(AfterPop(cache, Pop(cache, capacity)), key, value);
            && CacheOk(cache', capacity, built)
            && forall k | k in cache'.entries :: k in cache.entries || k == key
  {
    PopMakesRoom(cache, capacity);
    PutKeepsForm(AfterPop(cache, Pop(cache, capacity)), key, value);
  }

  lemma AbandonKeepsInv(s: State, t: nat, capacity: nat)
    requires Inv(s, capacity) && Enabled(s, Abandon(t))
    ensures Inv(AfterAbandon(s, t), capacity)
  {
    hide CacheOk;
    SettleKeepsInv(s, AfterAbandon(s, t), t, Failed(s.threads[t].error), capacity);
  }

  /** Sections that leave flights, futures and threads alone. */
  lemma CacheOnly(s: State, s': State, capacity: nat)
    requires Inv(s, capacity) && CacheOk(s'.cache, capacity, s.books.built)
    requires s'.cache.entries.Keys <= s.cache.entries.Keys
    requires s'.inflight == s.inflight && s'.futures == s.futures && s'.threads == s.threads && s'.books.built == s.books.built
    ensures Inv(s', capacity)
  {
    hide CacheOk, FlightsOk, FuturesOk, OneCreator, ThreadOk;
    FewerCached(s.cache, s'.cache, s.inflight, s.futures);
  }

  lemma CountKeepsCache(cache: Cache, key: Tenant, refCount: nat, capacity: nat, built: set<Pair>)
    requires CacheOk(cache, capacity, built) && key in cache.entries
    ensures CacheOk(SetRefCount(cache, key, refCount), capacity, built)
    ensures SetRefCount(cache, key, refCount).entries.Keys == cache.entries.Keys
    ensures key in SetRefCount(cache, key, refCount).entries
  {
  }

  lemma TouchKeepsCache(cache: Cache, key: Tenant, capacity: nat, built: set<Pair>)
    requires CacheOk(cache, capacity, built) && key in cache.entries
    ensures CacheOk(Touch(cache, key), capacity, built)
    ensures Touch(cache, key).entries.Keys == cache.entries.Keys
  {
    TouchKeepsForm(cache, key);
  }

  lemma PinKeepsInv(s: State, key: Tenant, capacity: nat)
    requires Inv(s, capacity)
    ensures Inv(AfterPin(s, key), capacity)
  {
    if key in s.cache.entries {
      hide CacheOk, SetRefCount, Touch, FlightsOk, FuturesOk, ThreadsOk, CreatorsOk;
      hide Without, WellFormed;
      var refCount := s.cache.entries[key].refCount + 1;
      CountKeepsCache(s.cache, key, refCount, capacity, s.books.built);
      var counted := SetRefCount(s.cache, key, refCount);
      TouchKeepsCache(counted, key, capacity, s.books.built);
      var s' := s.(cache := Touch(counted, key));
      CacheOnly(s, s', capacity);
      hide Inv;
      assert AfterPin(s, key) == s';
    }
  }

  lemma UnpinKeepsInv(s: State, key: Tenant, capacity: nat)
    requires Inv(s, capacity)
    ensures Inv(AfterUnpin(s, key), capacity)
  {
    if key in s.cache.entries {
      hide CacheOk, SetRefCount, FlightsOk, FuturesOk, ThreadsOk, CreatorsOk;
      var refCount := s.cache.entries[key].refCount;
      CountKeepsCache(s.cache, key, if refCount == 0 then 0 else refCount - 1, capacity, s.books.built);
      CacheOnly(s, AfterUnpin(s, key), capacity);
    }
  }

  lemma ClearKeepsInv(s: State, capacity: nat)
    requires Inv(s, capacity)
    ensures Inv(AfterClear(s), capacity)
  {
    hide FlightsOk, FuturesOk, ThreadsOk, CreatorsOk;
    CacheOnly(s, AfterClear(s), capacity);
  }

  lemma StepKeepsInv(s: State, step: Step, capacity: nat)
    requires Inv(s, capacity) && capacity > 0 && Enabled(s, step)
    ensures Inv(Apply(s, step, capacity), capacity)
  {
    hide Inv;
    match step
    case Call(key) => CallKeepsInv(s, key, capacity);
    case MakeRoom(t) => MakeRoomKeepsInv(s, t, capacity);
    case FactoryReturns(t, outcome) => FactoryKeepsInv(s, t, outcome, capacity);
    case Install(t) => InstallKeepsInv(s, t, capacity);
    case Abandon(t) => AbandonKeepsInv(s, t, capacity);
    case Wake(t) => WakeKeepsInv(s, t, capacity);
    case Pin(key) => PinKeepsInv(s, key, capacity);
    case Unpin(key) => UnpinKeepsInv(s, key, capacity);
    case Clear => ClearKeepsInv(s, capacity);
  }

  lemma {:induction false} RunKeepsInv(s: State, run: seq<Step>, capacity: nat)
    requires Inv(s, capacity) && capacity > 0 && IsRun(s, run, capacity)
    ensures Inv(After(s, run, capacity), capacity)
    decreases |run|
  {
    hide Inv;
    if run != [] {
      StepKeepsInv(s, run[0], capacity);
      RunKeepsInv(Apply(s, run[0], capacity), run[1..], capacity);
    }
  }

  // ---------------------------------------------------------------- what callers can rely on

  /** After any interleaving: the bound holds, no key is both cached and in flight, and at most one
      factory runs for a key. */
  lemma BoundedAndSingleFlight(run: seq<Step>, capacity: nat)
    requires capacity > 0 && IsRun(EMPTY, run, capacity)
    ensures var s := After(EMPTY, run, capacity);
            && |s.cache.entries| <= capacity
            && (forall k :: !(k in s.cache.entries && k in s.inflight))
            && (forall i, j | 0 <= i < |s.threads| && 0 <= j < |s.threads| && i != j ::
                  s.threads[i].Building? && s.threads[j].Building? ==> s.threads[i].key != s.threads[j].key)
  {
    var s := After(EMPTY, run, capacity);
    EmptyInv(capacity);
    RunKeepsInv(EMPTY, run, capacity);
    SizeIsKeyCount(s.cache);
    forall i, j | 0 <= i < |s.threads| && 0 <= j < |s.threads| && i != j
      ensures s.threads[i].Building? && s.threads[j].Building? ==> s.threads[i].key != s.threads[j].key
    {
      assert ThreadOk(s.threads[i], s.inflight, s.futures, s.books.built);
      assert s.threads[i].Building? ==> OneCreator(s.threads, s.threads[i].key);
    }
  }

  /** Everybody who shared a creation got its creator's outcome. */
  lemma SharedOutcome(run: seq<Step>, capacity: nat, i: nat, j: nat)
    requires capacity > 0 && IsRun(EMPTY, run, capacity)
    requires var s := After(EMPTY, run, capacity);
             && i < |s.threads| && j < |s.threads|
             && s.threads[i].Finished? && s.threads[j].Finished?
             && s.threads[i].via.Some? && s.threads[i].via == s.threads[j].via
    ensures var s := After(EMPTY, run, capacity);
            s.threads[i].outcome == s.threads[j].outcome && s.threads[i].key == s.threads[j].key
  {
    var s := After(EMPTY, run, capacity);
    EmptyInv(capacity);
    RunKeepsInv(EMPTY, run, capacity);
    assert ThreadOk(s.threads[i], s.inflight, s.futures, s.books.built);
    assert ThreadOk(s.threads[j], s.inflight, s.futures, s.books.built);
  }

  /** Isolation: what a caller gets, whether from the cache, its own factory or another caller's, was
      built by a factory that was called for the caller's own tenant. */
  lemma OwnResourceOnly(run: seq<Step>, capacity: nat, i: nat)
    requires capacity > 0 && IsRun(EMPTY, run, capacity)
    requires var s := After(EMPTY, run, capacity);
             i < |s.threads| && s.threads[i].Finished? && s.threads[i].outcome.Built?
    ensures var s := After(EMPTY, run, capacity);
            Pair(s.threads[i].key, s.threads[i].outcome.value) in s.books.built
  {
    var s := After(EMPTY, run, capacity);
    EmptyInv(capacity);
    RunKeepsInv(EMPTY, run, capacity);
    assert ThreadOk(s.threads[i], s.inflight, s.futures, s.books.built);
    assert s.threads[i].via.Some? ==> FutureOk(s.futures[s.threads[i].via.value], s.books.built);
  }

  /** The next step of a creator, given what its factory returns if that is what it waits for. */
  function NextStep(t: Thread, i: nat, outcome: Outcome): Step
    requires !t.Finished?
  {
    match t
    case Starting(_, _) => MakeRoom(i)
    case Building(_, _) => FactoryReturns(i, outcome)
    case Holding(_, _, _) => Install(i)
    case Failing(_, _, _) => Abandon(i)
    case Waiting(_, _) => Wake(i)
  }

  /** No caller is stuck: it can go on, or it waits for a creator of its key who can. */
  lemma NobodyIsStuck(run: seq<Step>, capacity: nat, i: nat, outcome: Outcome) returns (j: nat)
    requires capacity > 0 && IsRun(EMPTY, run, capacity) && outcome != Failed(CapacityExhausted)
    requires var s := After(EMPTY, run, capacity); i < |s.threads| && !s.threads[i].Finished?
    ensures var s := After(EMPTY, run, capacity);
            && j < |s.threads| && !s.threads[j].Finished? && s.threads[j].key == s.threads[i].key
            && s.threads[j].ticket == s.threads[i].ticket
            && Enabled(s, NextStep(s.threads[j], j, outcome))
  {
    var s := After(EMPTY, run, capacity);
    EmptyInv(capacity);
    RunKeepsInv(EMPTY, run, capacity);
    var me := s.threads[i];
    assert ThreadOk(me, s.inflight, s.futures, s.books.built);
    j := i;
    if me.Waiting? && s.futures[me.ticket].outcome.None? {
      assert OneCreator(s.threads, me.key);
      j :| 0 <= j < |s.threads| && Creates(s.threads[j], me.key);
      assert ThreadOk(s.threads[j], s.inflight, s.futures, s.books.built);
    }
  }
}

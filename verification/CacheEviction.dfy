/** Which entries leave the tenant cache, and that none is lost or released twice. */
module CacheEviction {
  import opened Options
  import opened CacheOrder
  import opened CacheProtocol
  import opened CacheSafety

  // ---------------------------------------------------------------- conservation

  /** The value a creator holds between its factory and its second critical section. */
  function InHandOf(t: Thread): multiset<Pair> {
    if t.Holding? then multiset{Pair(t.key, t.value)} else multiset{}
  }

  function InHand(threads: seq<Thread>): multiset<Pair> {
    if threads == [] then multiset{} else InHandOf(threads[0]) + InHand(threads[1..])
  }

  /** Every value that was built entered the cache, was dropped for want of room, or is still in its
      creator's hand; and everything that entered the cache is still there or was handed over, once. */
  ghost predicate Balanced(s: State) {
    && s.books.installed == s.books.handed + Held(s.cache.order, s.cache.entries)
    && s.books.made == s.books.installed + s.books.discarded + InHand(s.threads)
  }

  lemma {:induction false} InHandAppend(threads: seq<Thread>, t: Thread)
    ensures InHand(threads + [t]) == InHand(threads) + InHandOf(t)
  {
    if threads == [] {
      assert [t][1..] == [];
    } else {
      assert (threads + [t])[1..] == threads[1..] + [t];
      InHandAppend(threads[1..], t);
    }
  }

  lemma {:induction false} InHandUpdate(threads: seq<Thread>, i: nat, t: Thread)
    requires i < |threads|
    ensures InHand(threads[i := t]) + InHandOf(threads[i]) == InHand(threads) + InHandOf(t)
  {
    hide InHandOf;
    var updated := threads[i := t];
    assert InHand(updated) == InHandOf(updated[0]) + InHand(updated[1..]);
    assert InHand(threads) == InHandOf(threads[0]) + InHand(threads[1..]);
    if i == 0 {
      assert updated[1..] == threads[1..];
    } else {
      assert updated[1..] == threads[1..][i - 1 := t];
      InHandUpdate(threads[1..], i - 1, t);
      BesideEqual(InHandOf(threads[0]), InHand(updated[1..]), InHandOf(threads[i]), InHand(threads[1..]), InHandOf(t));
    }
  }

  lemma BesideEqual(h: multiset<Pair>, a: multiset<Pair>, b: multiset<Pair>, c: multiset<Pair>, d: multiset<Pair>)
    requires a + b == c + d
    ensures (h + a) + b == (h + c) + d
  {
    assert (h + a) + b == h + (a + b);
    assert (h + c) + d == h + (c + d);
  }

  /** `x` and what is in hand make up what was made, before and after. */
  lemma StillMakesUp(x: multiset<Pair>, made: multiset<Pair>, hand: multiset<Pair>,
                     made': multiset<Pair>, hand': multiset<Pair>)
    requires made == x + hand && made' + hand == made + hand'
    ensures made' == x + hand'
  {
    assert forall p :: made'[p] + hand[p] == (made' + hand)[p] == (made + hand')[p] == made[p] + hand'[p];
  }

  lemma PopBalance(cache: Cache, capacity: nat)
    requires WellFormed(cache) && capacity > 0 && |cache.order| <= capacity
    ensures var popped, kept := Pop(cache, capacity), AfterPop(cache, Pop(cache, capacity));
            Held(cache.order, cache.entries) == Held(kept.order, kept.entries) + HandedBy(popped)
  {
    hide Held;
    PopMakesRoom(cache, capacity);
    if Pop(cache, capacity).Evicted? {
      HeldDrop(cache, Pop(cache, capacity).pair.key);
    }
  }

  /** A caller with nothing in hand, before and after. */
  lemma EmptyHanded(threads: seq<Thread>, i: nat, t: Thread)
    requires i < |threads| && !threads[i].Holding? && !t.Holding?
    ensures InHand(threads[i := t]) == InHand(threads)
  {
    InHandUpdate(threads, i, t);
    assert InHand(threads[i := t]) + multiset{} == InHand(threads[i := t]);
    assert InHand(threads) + multiset{} == InHand(threads);
  }

  /** The second critical section: what was in hand is installed or dropped. */
  lemma InstallBooks(s: State, t: nat, capacity: nat)
    requires Enabled(s, Install(t)) && s.books.made == s.books.installed + s.books.discarded + InHand(s.threads)
    ensures var s' := AfterInstall(s, t, capacity); s'.books.made == s'.books.installed + s'.books.discarded + InHand(s'.threads)
  {
    hide InHand, Pop, AfterPop, Put, Resolve, HandedBy;
    var s' := AfterInstall(s, t, capacity);
    var pair := Pair(s.threads[t].key, s.threads[t].value);
    InHandUpdate(s.threads, t, s'.threads[t]);
    assert InHand(s'.threads) + multiset{} == InHand(s'.threads);
    assert InHand(s'.threads) + multiset{pair} == InHand(s.threads);
  }

  lemma InstallReleases(s: State, t: nat, capacity: nat)
    requires Inv(s, capacity) && capacity > 0 && Enabled(s, Install(t)) && Balanced(s)
    ensures var s' := AfterInstall(s, t, capacity);
            s'.books.installed == s'.books.handed + Held(s'.cache.order, s'.cache.entries)
  {
    hide Held, InHand, FuturesOk, CreatorsOk, Pop, Resolve;
    var me := s.threads[t];
    var popped := Pop(s.cache, capacity);
    assert ThreadOk(me, s.inflight, s.futures, s.books.built);
    PopBalance(s.cache, capacity);
    PopMakesRoom(s.cache, capacity);
    if !popped.Exhausted? {
      HeldPut(AfterPop(s.cache, popped), me.key, me.value);
    }
  }

  lemma InstallBalance(s: State, t: nat, capacity: nat)
    requires Inv(s, capacity) && capacity > 0 && Enabled(s, Install(t)) && Balanced(s)
    ensures Balanced(AfterInstall(s, t, capacity))
  {
    hide Inv, AfterInstall, Held, InHand;
    InstallBooks(s, t, capacity);
    InstallReleases(s, t, capacity);
  }

  lemma FactoryBooks(s: State, t: nat, outcome: Outcome)
    requires Enabled(s, FactoryReturns(t, outcome))
    ensures var s' := AfterFactory(s, t, outcome); s'.books.made + InHand(s.threads) == s.books.made + InHand(s'.threads)
  {
    hide InHand;
    var s' := AfterFactory(s, t, outcome);
    if outcome.Failed? {
      EmptyHanded(s.threads, t, s'.threads[t]);
    } else {
      var pair := Pair(s.threads[t].key, outcome.value);
      InHandUpdate(s.threads, t, s'.threads[t]);
      assert InHand(s'.threads) + multiset{} == InHand(s'.threads);
      assert InHand(s'.threads) == InHand(s.threads) + multiset{pair};
    }
  }

  /** The other steps of one caller leave it with nothing in hand, or with what its factory returned. */
  lemma CallerBooks(s: State, step: Step, capacity: nat)
    requires Enabled(s, step)
    requires step.Call? || step.MakeRoom? || step.FactoryReturns? || step.Abandon? || step.Wake?
    ensures var s' := Apply(s, step, capacity);
            && s'.books.installed == s.books.installed && s'.books.discarded == s.books.discarded
            && s'.books.made + InHand(s.threads) == s.books.made + InHand(s'.threads)
  {
    hide InHand, Pop, AfterPop, Touch, Resolve, HandedBy, Settled;
    var s' := Apply(s, step, capacity);
    match step
    case Call(key) => InHandAppend(s.threads, s'.threads[|s.threads|]);
    case MakeRoom(t) => EmptyHanded(s.threads, t, s'.threads[t]);
    case FactoryReturns(t, outcome) => FactoryBooks(s, t, outcome);
    case Abandon(t) => EmptyHanded(s.threads, t, s'.threads[t]);
    case Wake(t) => EmptyHanded(s.threads, t, s'.threads[t]);
  }

  lemma CallerBalance(s: State, step: Step, capacity: nat)
    requires Enabled(s, step) && Balanced(s)
    requires step.Call? || step.MakeRoom? || step.FactoryReturns? || step.Abandon? || step.Wake?
    requires var s' := Apply(s, step, capacity);
             s.books.handed + Held(s.cache.order, s.cache.entries) == s'.books.handed + Held(s'.cache.order, s'.cache.entries)
    ensures Balanced(Apply(s, step, capacity))
  {
    hide InHand, Held, Apply;
    CallerBooks(s, step, capacity);
    var s' := Apply(s, step, capacity);
    StillMakesUp(s.books.installed + s.books.discarded, s.books.made, InHand(s.threads), s'.books.made, InHand(s'.threads));
  }

  lemma CountBalance(cache: Cache, key: Tenant, refCount: nat)
    requires WellFormed(cache) && key in cache.entries
    ensures Held(cache.order, SetRefCount(cache, key, refCount).entries) == Held(cache.order, cache.entries)
  {
    HeldSame(cache.order, cache.entries, SetRefCount(cache, key, refCount).entries);
  }

  lemma PinBalance(s: State, key: Tenant)
    requires WellFormed(s.cache) && Balanced(s)
    ensures Balanced(AfterPin(s, key)) && Balanced(AfterUnpin(s, key))
  {
    hide Held;
    if key in s.cache.entries {
      var refCount := s.cache.entries[key].refCount;
      CountBalance(s.cache, key, refCount + 1);
      CountBalance(s.cache, key, if refCount == 0 then 0 else refCount - 1);
      HeldTouch(SetRefCount(s.cache, key, refCount + 1), key);
    }
  }

  lemma StepKeepsBalance(s: State, step: Step, capacity: nat)
    requires Inv(s, capacity) && capacity > 0 && Enabled(s, step) && Balanced(s)
    ensures Balanced(Apply(s, step, capacity))
  {
    hide Held, InHand, FlightsOk, FuturesOk, ThreadsOk, CreatorsOk;
    match step
    case Call(key) =>
      if key in s.cache.entries {
        HeldTouch(s.cache, key);
      }
      CallerBalance(s, step, capacity);
    case MakeRoom(t) =>
      PopBalance(s.cache, capacity);
      CallerBalance(s, step, capacity);
    case FactoryReturns(_, _) => CallerBalance(s, step, capacity);
    case Abandon(_) => CallerBalance(s, step, capacity);
    case Wake(_) => CallerBalance(s, step, capacity);
    case Install(t) => InstallBalance(s, t, capacity);
    case Pin(key) => PinBalance(s, key);
    case Unpin(key) => PinBalance(s, key);
    case Clear => assert Held([], map[]) == multiset{} by { HeldNone(); }
  }

  lemma HeldNone()
    ensures Held([], map[]) == multiset{}
  {
  }

  lemma {:induction false} RunKeepsBalance(s: State, run: seq<Step>, capacity: nat)
    requires Inv(s, capacity) && capacity > 0 && IsRun(s, run, capacity) && Balanced(s)
    ensures Balanced(After(s, run, capacity))
    decreases |run|
  {
    hide Inv, Balanced, Enabled, Apply;
    if run != [] {
      StepKeepsInv(s, run[0], capacity);
      StepKeepsBalance(s, run[0], capacity);
      RunKeepsBalance(Apply(s, run[0], capacity), run[1..], capacity);
    }
  }

  /** The books of every run: what entered the cache is still in it or was handed over for release, once;
      and of what the factories built the rest was dropped for want of room, or is about to be installed.
      A dropped value is not released: that is the one way to lose a resource. */
  lemma NothingLeaks(run: seq<Step>, capacity: nat)
    requires capacity > 0 && IsRun(EMPTY, run, capacity)
    ensures var s := After(EMPTY, run, capacity);
            && (forall k | k in s.cache.order :: k in s.cache.entries)
            && s.books.installed == s.books.handed + multiset(PairsOf(s.cache))
            && s.books.made == s.books.installed + s.books.discarded + InHand(s.threads)
  {
    hide Enabled, Apply;
    EmptyInv(capacity);
    RunKeepsBalance(EMPTY, run, capacity);
    RunKeepsInv(EMPTY, run, capacity);
    var s := After(EMPTY, run, capacity);
    HeldIsPairs(s.cache.order, s.cache.entries);
  }

  /** A resource is dropped in exactly one case: it is to be installed when every entry of a full cache is
      pinned.  It is the creator's own, and nothing is handed over for release. */
  lemma DroppedExactly(s: State, step: Step, capacity: nat)
    requires Inv(s, capacity) && capacity > 0 && Enabled(s, step)
    ensures var b, b' := s.books, Apply(s, step, capacity).books;
            && (b'.discarded != b.discarded <==>
                  step.Install? && |s.cache.entries| == capacity && AllPinned(s.cache))
            && (b'.discarded != b.discarded ==>
                  && b'.discarded == b.discarded + multiset{Pair(s.threads[step.t].key, s.threads[step.t].value)}
                  && b'.installed == b.installed && b'.handed == b.handed)
  {
    hide FuturesOk, ThreadsOk, CreatorsOk, Victim, Without;
    if step.Install? {
      PopMakesRoom(s.cache, capacity);
      SizeIsKeyCount(s.cache);
      var b := s.books.discarded;
      var pair := Pair(s.threads[step.t].key, s.threads[step.t].value);
      assert (b + multiset{pair})[pair] == b[pair] + 1;
    }
  }

  // ---------------------------------------------------------------- pins

  function Pins(run: seq<Step>, key: Tenant): nat {
    if run == [] then 0 else (if run[0] == Pin(key) then 1 else 0) + Pins(run[1..], key)
  }

  function Unpins(run: seq<Step>, key: Tenant): nat {
    if run == [] then 0 else (if run[0] == Unpin(key) then 1 else 0) + Unpins(run[1..], key)
  }

  lemma PinnedInstall(s: State, t: nat, key: Tenant, capacity: nat)
    requires Inv(s, capacity) && capacity > 0 && Enabled(s, Install(t))
    requires key in s.cache.entries && s.cache.entries[key].refCount > 0
    ensures var entries' := AfterInstall(s, t, capacity).cache.entries;
            key in entries' && entries'[key] == s.cache.entries[key]
  {
    hide FuturesOk, CreatorsOk, Pop, Without;
    PopMakesRoom(s.cache, capacity);
    assert ThreadOk(s.threads[t], s.inflight, s.futures, s.books.built);
  }

  lemma PinnedStep(s: State, step: Step, key: Tenant, capacity: nat)
    requires Inv(s, capacity) && capacity > 0 && Enabled(s, step) && step != Clear
    requires key in s.cache.entries && s.cache.entries[key].refCount > 0
    ensures var e, entries' := s.cache.entries[key], Apply(s, step, capacity).cache.entries;
            && key in entries'
            && entries'[key].value == e.value
            && entries'[key].refCount
               == e.refCount + (if step == Pin(key) then 1 else 0) - (if step == Unpin(key) then 1 else 0)
  {
    hide FuturesOk, CreatorsOk, Pop, Without;
    match step
    case MakeRoom(t) => PopMakesRoom(s.cache, capacity);
    case Install(t) => PinnedInstall(s, t, key, capacity);
    case _ =>
  }

  /** A pinned entry stays, with its value and an exact count, through anything but `clear`, as long as
      it is not unpinned as often as it was pinned. */
  lemma {:induction false} PinnedStays(s: State, run: seq<Step>, key: Tenant, capacity: nat)
    requires Inv(s, capacity) && capacity > 0 && IsRun(s, run, capacity) && Clear !in run
    requires key in s.cache.entries && s.cache.entries[key].refCount > Unpins(run, key)
    ensures var e, entries' := s.cache.entries[key], After(s, run, capacity).cache.entries;
            && key in entries'
            && entries'[key] == Entry(e.value, e.refCount + Pins(run, key) - Unpins(run, key))
    decreases |run|
  {
    hide Inv, Enabled, Apply;
    if run != [] {
      StepKeepsInv(s, run[0], capacity);
      PinnedStep(s, run[0], key, capacity);
      PinnedStays(Apply(s, run[0], capacity), run[1..], key, capacity);
    }
  }

  // ---------------------------------------------------------------- least recently used

  /** A step that uses the entry of `key`: a hit, a pin, or its installation. */
  predicate Uses(s: State, step: Step, key: Tenant, capacity: nat)
    requires Enabled(s, step)
  {
    match step
    case Call(k) => k == key && key in s.cache.entries
    case Pin(k) => k == key && key in s.cache.entries
    case Install(t) => s.threads[t].key == key && !Pop(s.cache, capacity).Exhausted?
    case _ => false
  }

  /** The position in the run of the last step that used the entry. */
  ghost function LastUse(s: State, run: seq<Step>, key: Tenant, capacity: nat): int
    requires IsRun(s, run, capacity)
    decreases |run|
  {
    if run == [] then -1
    else
      LastStep(s, run, capacity);
      var n := |run| - 1;
      if Uses(After(s, run[..n], capacity), run[n], key, capacity) then n else LastUse(s, run[..n], key, capacity)
  }

  lemma {:induction false} LastUseIsPast(s: State, run: seq<Step>, key: Tenant, capacity: nat)
    requires IsRun(s, run, capacity)
    ensures LastUse(s, run, key, capacity) < |run|
    decreases |run|
  {
    if run != [] {
      LastStep(s, run, capacity);
      LastUseIsPast(s, run[..|run| - 1], key, capacity);
    }
  }

  function Reordered(order: seq<Tenant>, gone: Option<Tenant>, used: Option<Tenant>): seq<Tenant> {
    var kept := if gone.Some? then Without(order, gone.value) else order;
    if used.Some? then Without(kept, used.value) + [used.value] else kept
  }

  /** How a step rearranges the keys: it may drop one, and moves the one it uses to the end. */
  lemma StepReorders(s: State, step: Step, capacity: nat) returns (gone: Option<Tenant>, used: Option<Tenant>)
    requires Inv(s, capacity) && capacity > 0 && Enabled(s, step) && step != Clear
    ensures forall k :: Uses(s, step, k, capacity) <==> used == Some(k)
    ensures Apply(s, step, capacity).cache.order == Reordered(s.cache.order, gone, used)
  {
    hide FuturesOk, CreatorsOk;
    gone, used := None, None;
    match step {
      case Call(key) => used := if key in s.cache.entries then Some(key) else None;
      case Pin(key) => used := if key in s.cache.entries then Some(key) else None;
      case MakeRoom(t) => gone := GoneKey(Pop(s.cache, capacity));
      case Install(t) =>
        var popped := Pop(s.cache, capacity);
        var key := s.threads[t].key;
        assert ThreadOk(s.threads[t], s.inflight, s.futures, s.books.built);
        gone := GoneKey(popped);
        used := if popped.Exhausted? then None else Some(key);
        PopMakesRoom(s.cache, capacity);
        var i := WithoutSplits(AfterPop(s.cache, popped).order, key);
      case _ =>
    }
  }

  function GoneKey(popped: Popped): Option<Tenant> {
    if popped.Evicted? then Some(popped.pair.key) else None
  }

  lemma StepKeepsAges(s: State, step: Step, capacity: nat, stamp: Tenant -> int, stamp': Tenant -> int, now: int)
    requires Inv(s, capacity) && capacity > 0 && Enabled(s, step)
    requires Aged(s.cache.order, stamp)
    requires forall k :: stamp(k) < now
    requires forall k :: stamp'(k) == if Uses(s, step, k, capacity) then now else stamp(k)
    ensures Aged(Apply(s, step, capacity).cache.order, stamp')
  {
    if step != Clear {
      var gone, used := StepReorders(s, step, capacity);
      hide Inv, Uses, Apply, Enabled, Aged;
      var kept := if gone.Some? then Without(s.cache.order, gone.value) else s.cache.order;
      if gone.Some? {
        AgedWithout(s.cache.order, gone.value, stamp);
      }
      AgedMoved(kept, used, stamp, stamp', now);
    }
  }

  lemma AgedMoved(kept: seq<Tenant>, used: Option<Tenant>, stamp: Tenant -> int, stamp': Tenant -> int, now: int)
    requires Aged(kept, stamp)
    requires forall k :: stamp(k) < now
    requires forall k :: stamp'(k) == if used == Some(k) then now else stamp(k)
    ensures Aged(if used.Some? then Without(kept, used.value) + [used.value] else kept, stamp')
  {
    if used.Some? {
      var key := used.value;
      var rest := Without(kept, key);
      AgedWithout(kept, key, stamp);
      AgedDistinct(kept, stamp);
      WithoutKeys(kept, key);
      hide Without;
      AgedSame(rest, stamp, stamp');
      AgedAppend(rest, key, stamp');
    } else {
      AgedSame(kept, stamp, stamp');
    }
  }

  lemma AgedDistinct(order: seq<Tenant>, stamp: Tenant -> int)
    requires Aged(order, stamp)
    ensures NoDuplicates(order)
  {
  }

  ghost function LastUses(s: State, run: seq<Step>, capacity: nat): Tenant -> int
    requires IsRun(s, run, capacity)
  {
    key => LastUse(s, run, key, capacity)
  }

  /** In every reachable state the keys are in the order of their last uses. */
  lemma {:induction false} OrderIsLastUse(run: seq<Step>, capacity: nat)
    requires capacity > 0 && IsRun(EMPTY, run, capacity)
    ensures Aged(After(EMPTY, run, capacity).cache.order, LastUses(EMPTY, run, capacity))
    decreases |run|
  {
    hide Inv, Enabled, Apply, Uses;
    if run != [] {
      LastStep(EMPTY, run, capacity);
      var before, n := run[..|run| - 1], |run| - 1;
      OrderIsLastUse(before, capacity);
      EmptyInv(capacity);
      RunKeepsInv(EMPTY, before, capacity);
      forall k
        ensures LastUses(EMPTY, before, capacity)(k) < n
      {
        LastUseIsPast(EMPTY, before, k, capacity);
      }
      StepKeepsAges(After(EMPTY, before, capacity), run[n], capacity,
                    LastUses(EMPTY, before, capacity), LastUses(EMPTY, run, capacity), n);
    }
  }

  /** Least recently used.  An eviction happens only in a full cache and takes one entry: the unpinned
      one whose last hit, pin or installation lies furthest back. */
  lemma VictimIsLeastRecentlyUsed(run: seq<Step>, step: Step, victim: Tenant, capacity: nat)
    requires capacity > 0 && IsRun(EMPTY, run, capacity) && Enabled(After(EMPTY, run, capacity), step)
    requires step != Clear
    requires victim in After(EMPTY, run, capacity).cache.entries
    requires victim !in Apply(After(EMPTY, run, capacity), step, capacity).cache.entries
    ensures var before, after := After(EMPTY, run, capacity), Apply(After(EMPTY, run, capacity), step, capacity);
            && |before.cache.entries| == capacity
            && before.cache.entries[victim].refCount == 0
            && (forall k | k in before.cache.entries && k != victim ::
                  k in after.cache.entries && after.cache.entries[k] == before.cache.entries[k])
            && (forall k | k in before.cache.entries && k != victim && before.cache.entries[k].refCount == 0 ::
                  LastUse(EMPTY, run, victim, capacity) < LastUse(EMPTY, run, k, capacity))
  {
    var s := After(EMPTY, run, capacity);
    EmptyInv(capacity);
    RunKeepsInv(EMPTY, run, capacity);
    OrderIsLastUse(run, capacity);
    SizeIsKeyCount(s.cache);
    EvictionIsPop(s, step, victim, capacity);
    FirstUnpinnedIsOldest(s.cache, victim, LastUses(EMPTY, run, capacity));
  }

  lemma EvictionIsPop(s: State, step: Step, victim: Tenant, capacity: nat)
    requires Inv(s, capacity) && capacity > 0 && Enabled(s, step) && step != Clear
    requires victim in s.cache.entries && victim !in Apply(s, step, capacity).cache.entries
    ensures |s.cache.order| == capacity && Victim(s.cache.order, s.cache.entries) == Some(victim)
    ensures forall k | k in s.cache.entries && k != victim ::
              var entries' := Apply(s, step, capacity).cache.entries;
              k in entries' && entries'[k] == s.cache.entries[k]
  {
    hide FuturesOk, CreatorsOk, Victim, Without;
    match step
    case MakeRoom(t) =>
    case Install(t) => assert ThreadOk(s.threads[t], s.inflight, s.futures, s.books.built);
    case _ =>
  }

  lemma FirstUnpinnedIsOldest(cache: Cache, victim: Tenant, stamp: Tenant -> int)
    requires WellFormed(cache) && Aged(cache.order, stamp)
    requires Victim(cache.order, cache.entries) == Some(victim)
    ensures victim in cache.entries && cache.entries[victim].refCount == 0
    ensures forall k | k in cache.entries && k != victim && cache.entries[k].refCount == 0 ::
              stamp(victim) < stamp(k)
  {
    var i := VictimIsFirst(cache.order, cache.entries);
    forall k | k in cache.entries && k != victim && cache.entries[k].refCount == 0
      ensures stamp(victim) < stamp(k)
    {
      var j :| 0 <= j < |cache.order| && cache.order[j] == k;
    }
  }

  /** A creator is refused room, before or after its factory ran, exactly when every entry of a full
      cache is pinned.  A refusal changes nothing in the cache. */
  lemma RefusedOnlyWhenAllPinned(s: State, step: Step, t: nat, capacity: nat)
    requires Inv(s, capacity) && capacity > 0 && Enabled(s, step)
    requires step == MakeRoom(t) || step == Install(t)
    ensures var s' := Apply(s, step, capacity);
            && (s'.threads[t].Failing? <==> |s.cache.entries| == capacity && AllPinned(s.cache))
            && (s'.threads[t].Failing? ==> s'.cache == s.cache && s'.books.handed == s.books.handed)
  {
    hide FuturesOk, ThreadsOk, CreatorsOk;
    PopMakesRoom(s.cache, capacity);
    SizeIsKeyCount(s.cache);
  }
}

/** `BoundedTenantCache`: the methods of the cache, with other callers' steps between their critical
    sections.  `others` says which steps those are; it is arbitrary.  Each method returns the run it
    was part of, so everything proved about runs holds for the code. */
module TenantCache {
  import opened Options
  import opened CacheOrder
  import opened CacheProtocol
  import opened CacheSafety

  /** What the first critical section of `get_or_set` finds. */
  datatype Answer = Hit(value: Resource) | Join(ticket: nat) | Create(ticket: nat)

  predicate IsOwnStep(step: Step, me: nat) {
    match step
    case MakeRoom(t) => t == me
    case FactoryReturns(t, _) => t == me
    case Install(t) => t == me
    case Abandon(t) => t == me
    case Wake(t) => t == me
    case _ => false
  }

  /** The caller is where it was. */
  predicate Undisturbed(s: State, s': State, me: nat) {
    me < |s.threads| ==> me < |s'.threads| && s'.threads[me] == s.threads[me]
  }

  lemma ForeignStep(s: State, step: Step, me: nat, capacity: nat)
    requires Enabled(s, step) && !IsOwnStep(step, me)
    ensures Undisturbed(s, Apply(s, step, capacity), me)
  {
    hide Pop, Touch, AfterPop, Put, Held, Resolve, HandedBy;
  }

  class BoundedCache {
    const capacity: nat
    var order: seq<Tenant>
    var entries: map<Tenant, Entry>
    var inflight: map<Tenant, nat>
    var futures: seq<Future>

    /** The suspended and finished calls, and the books of what was built, installed and released. */
    var threads: seq<Thread>
    var books: Books

    function Now(): State
      reads this
    {
      State(Cache(order, entries), inflight, futures, threads, books)
    }

    constructor (capacity: nat)
      requires capacity > 0
      ensures this.capacity == capacity && Now() == EMPTY
    {
      this.capacity := capacity;
      order, entries, inflight, futures := [], map[], map[], [];
      threads, books := [], NO_BOOKS;
    }

    // -------------------------------------------------------------- critical sections

    method MoveToEnd(key: Tenant)
      modifies this`order
      ensures Cache(order, entries) == Touch(old(Cache(order, entries)), key)
    {
      order := Without(order, key) + [key];
    }

    /** `_pop_lru_unlocked`: the scan for the first unpinned key. */
    method PopLru() returns (popped: Popped)
      modifies this`order, this`entries
      ensures popped == Pop(old(Cache(order, entries)), capacity)
      ensures Cache(order, entries) == AfterPop(old(Cache(order, entries)), popped)
      ensures popped.Exhausted? ==> order == old(order) && entries == old(entries)
    {
      if |order| < capacity {
        return Roomy;
      }
      for k := 0 to |order|
        invariant Victim(order, entries) == Victim(order[k..], entries)
      {
        assert order[k..][1..] == order[k + 1..];
        var key := order[k];
        if key in entries && entries[key].refCount == 0 {
          var value := entries[key].value;
          order := Without(order, key);
          entries := entries - {key};
          return Evicted(Pair(key, value));
        }
      }
      return Exhausted;
    }

    method Lookup(key: Tenant) returns (answer: Answer)
      modifies this`order, this`inflight, this`futures, this`threads
      ensures Now() == AfterCall(old(Now()), key)
      ensures match answer
              case Hit(value) => key in entries && value == entries[key].value
              case Join(ticket) => key !in entries && key in old(inflight) && ticket == old(inflight)[key]
              case Create(ticket) => key !in entries && key !in old(inflight) && ticket == |old(futures)|
    {
      if key in entries {
        var value := entries[key].value;
        MoveToEnd(key);
        threads := threads + [Finished(key, None, Built(value))];
        return Hit(value);
      }
      if key in inflight {
        answer := Join(inflight[key]);
        threads := threads + [Waiting(key, inflight[key])];
      } else {
        answer := Create(|futures|);
        inflight := inflight[key := |futures|];
        threads := threads + [Starting(key, |futures|)];
        futures := futures + [Future(key, None)];
      }
    }

    /** The eviction before the factory runs. */
    method Prepare(me: nat) returns (ok: bool)
      requires Enabled(Now(), MakeRoom(me))
      modifies this`order, this`entries, this`books, this`threads
      ensures Now() == AfterMakeRoom(old(Now()), me, capacity)
      ensures ok == threads[me].Building? && !ok == threads[me].Failing?
    {
      hide Pop, AfterPop, HandOver;
      var t := threads[me];
      var popped := PopLru();
      ok := !popped.Exhausted?;
      if ok {
        books := HandOver(books, popped);
        threads := threads[me := Building(t.key, t.ticket)];
      } else {
        threads := threads[me := Failing(t.key, t.ticket, CapacityExhausted)];
      }
    }

    /** The factory returns or raises; this happens outside the lock. */
    method RunFactory(me: nat, factory: Outcome)
      requires Enabled(Now(), FactoryReturns(me, factory))
      modifies this`books, this`threads
      ensures Now() == AfterFactory(old(Now()), me, factory)
    {
      var t := threads[me];
      match factory {
        case Built(value) =>
          books := Made(books, Pair(t.key, value));
          threads := threads[me := Holding(t.key, t.ticket, value)];
        case Failed(error) =>
          threads := threads[me := Failing(t.key, t.ticket, error)];
      }
    }

    method SettleFuture(ticket: nat, outcome: Outcome)
      modifies this`futures
      ensures futures == Resolve(old(futures), ticket, outcome)
    {
      if ticket < |futures| && futures[ticket].outcome.None? {
        futures := futures[ticket := futures[ticket].(outcome := Some(outcome))];
      }
    }

    method PutEntry(key: Tenant, value: Resource)
      modifies this`order, this`entries
      ensures Cache(order, entries) == Put(old(Cache(order, entries)), key, value)
    {
      if key !in entries {
        order := order + [key];
      }
      entries := entries[key := Entry(value, 0)];
    }

    /** The section that evicts again, inserts the entry and settles the future. */
    method Insert(me: nat) returns (ok: bool)
      requires Enabled(Now(), Install(me))
      modifies this`order, this`entries, this`inflight, this`futures, this`books, this`threads
      ensures Now() == AfterInstall(old(Now()), me, capacity)
      ensures ok == threads[me].Finished? && !ok == threads[me].Failing?
    {
      hide Pop, AfterPop, Put, HandOver, Enter, Discard, Resolve;
      var t := threads[me];
      var popped := PopLru();
      ok := !popped.Exhausted?;
      if ok {
        PutEntry(t.key, t.value);
        SettleFuture(t.ticket, Built(t.value));
        inflight, threads := inflight - {t.key}, threads[me := Finished(t.key, Some(t.ticket), Built(t.value))];
        books := Enter(HandOver(books, popped), Pair(t.key, t.value));
      } else {
        books := Discard(books, Pair(t.key, t.value));
        threads := threads[me := Failing(t.key, t.ticket, CapacityExhausted)];
      }
    }

    /** The `except` branch. */
    method GiveUp(me: nat)
      requires Enabled(Now(), Abandon(me))
      modifies this`inflight, this`futures, this`threads
      ensures Now() == AfterAbandon(old(Now()), me)
    {
      var t := threads[me];
      inflight := inflight - {t.key};
      SettleFuture(t.ticket, Failed(t.error));
      threads := threads[me := Finished(t.key, Some(t.ticket), Failed(t.error))];
    }

    // -------------------------------------------------------------- interference

    /** Another caller takes a step. */
    method Take(s: State)
      modifies this
      ensures Now() == s
    {
      order, entries := s.cache.order, s.cache.entries;
      inflight, futures, threads := s.inflight, s.futures, s.threads;
      books := s.books;
    }

    /** The gap between two sections: the others take those of `steps` that they can. */
    method Others(steps: seq<Step>, me: nat, ghost start: State, ghost run: seq<Step>) returns (ghost run': seq<Step>)
      requires IsRun(start, run, capacity) && Now() == After(start, run, capacity)
      modifies this
      ensures IsRun(start, run', capacity) && Now() == After(start, run', capacity)
      ensures Undisturbed(old(Now()), Now(), me)
      ensures run <= run'
    {
      hide Enabled, Apply, IsOwnStep;
      run' := run;
      for k := 0 to |steps|
        invariant IsRun(start, run', capacity) && Now() == After(start, run', capacity)
        invariant Undisturbed(old(Now()), Now(), me)
        invariant run <= run'
      {
        var s := Now();
        if Enabled(s, steps[k]) && !IsOwnStep(steps[k], me) {
          ForeignStep(s, steps[k], me, capacity);
          ExtendRun(start, run', steps[k], capacity);
          Take(Apply(s, steps[k], capacity));
          run' := run' + [steps[k]];
        }
      }
    }

    // -------------------------------------------------------------- the public methods

    method Pin(key: Tenant) returns (value: Option<Resource>)
      modifies this`order, this`entries
      ensures Now() == AfterPin(old(Now()), key)
      ensures value == if key in old(entries) then Some(old(entries)[key].value) else None
    {
      if key !in entries {
        return None;
      }
      entries := entries[key := entries[key].(refCount := entries[key].refCount + 1)];
      MoveToEnd(key);
      return Some(entries[key].value);
    }

    method Unpin(key: Tenant)
      modifies this`entries
      ensures Now() == AfterUnpin(old(Now()), key)
    {
      if key in entries {
        var refCount := entries[key].refCount;
        entries := entries[key := entries[key].(refCount := if refCount == 0 then 0 else refCount - 1)];
      }
    }

    method Size() returns (size: nat)
      requires WellFormed(Cache(order, entries))
      ensures size == |entries|
    {
      SizeIsKeyCount(Cache(order, entries));
      size := |order|;
    }

    /** `clear`: the entries are released in cache order.  Creations in flight go on. */
    method Clear() returns (released: seq<Pair>)
      requires WellFormed(Cache(order, entries))
      modifies this`order, this`entries, this`books
      ensures Now() == AfterClear(old(Now()))
      ensures released == PairsOf(old(Cache(order, entries)))
      ensures books == old(books).(handed := old(books).handed + multiset(released))
    {
      released := PairsOf(Cache(order, entries));
      HeldIsPairs(order, entries);
      books := books.(handed := books.handed + multiset(released));
      order, entries := [], map[];
    }

    /** The waiter's side of `get_or_set`. */
    method Await(me: nat, steps: seq<Step>, ghost start: State, ghost run: seq<Step>)
      returns (outcome: Option<Outcome>, ghost run': seq<Step>)
      requires IsRun(start, run, capacity) && Now() == After(start, run, capacity)
      requires me < |threads| && threads[me].Waiting?
      modifies this
      ensures IsRun(start, run', capacity) && Now() == After(start, run', capacity) && run <= run'
      ensures me < |threads| && threads[me].key == old(threads[me].key)
      ensures match outcome
              case Some(o) => threads[me].Finished? && threads[me].outcome == o
              case None => threads[me] == old(threads[me]) && Settled(futures, threads[me].ticket).None?
    {
      hide IsRun, After;
      run' := Others(steps, me, start, run);
      outcome := Settled(futures, threads[me].ticket);
      if outcome.Some? {
        ExtendRun(start, run', Wake(me), capacity);
        threads := threads[me := Finished(threads[me].key, Some(threads[me].ticket), outcome.value)];
        run' := run' + [Wake(me)];
      }
    }

    /** The creator's side of `get_or_set` up to the value in hand or an exception. */
    method Build(me: nat, factory: Outcome, others: nat -> seq<Step>, ghost start: State, ghost run: seq<Step>)
      returns (ghost run': seq<Step>)
      requires IsRun(start, run, capacity) && Now() == After(start, run, capacity)
      requires me < |threads| && threads[me].Starting? && factory != Failed(CapacityExhausted)
      modifies this
      ensures IsRun(start, run', capacity) && Now() == After(start, run', capacity) && run <= run'
      ensures me < |threads|
      ensures
        var Starting(key, ticket) := old(threads[me]);
        || (factory.Built? && threads[me] == Holding(key, ticket, factory.value))
        || (factory.Failed? && threads[me] == Failing(key, ticket, factory.error))
        || threads[me] == Failing(key, ticket, CapacityExhausted)
    {
      hide IsRun, After, Pop, AfterPop, HandedBy;
      run' := Others(others(0), me, start, run);
      ExtendRun(start, run', MakeRoom(me), capacity);
      var ok := Prepare(me);
      run' := run' + [MakeRoom(me)];
      if ok {
        run' := Others(others(1), me, start, run');
        ExtendRun(start, run', FactoryReturns(me, factory), capacity);
        RunFactory(me, factory);
        run' := run' + [FactoryReturns(me, factory)];
      }
    }

    /** From the value in hand to the value in the cache, if there is room for it. */
    method Store(me: nat, steps: seq<Step>, ghost start: State, ghost run: seq<Step>)
      returns (ok: bool, ghost run': seq<Step>)
      requires IsRun(start, run, capacity) && Now() == After(start, run, capacity)
      requires me < |threads| && threads[me].Holding?
      modifies this
      ensures IsRun(start, run', capacity) && Now() == After(start, run', capacity) && run <= run'
      ensures me < |threads|
      ensures
        var Holding(key, ticket, value) := old(threads[me]);
        if ok then
          && threads[me] == Finished(key, Some(ticket), Built(value))
          && key !in inflight && key in entries && entries[key] == Entry(value, 0)
        else threads[me] == Failing(key, ticket, CapacityExhausted)
    {
      hide IsRun, After, Pop, AfterPop, Resolve, HandedBy;
      run' := Others(steps, me, start, run);
      ExtendRun(start, run', Install(me), capacity);
      ok := Insert(me);
      run' := run' + [Install(me)];
    }

    /** The creator's side of `get_or_set`.  Whatever goes wrong, its future is settled and its key is no
        longer in flight when it is done. */
    method Produce(me: nat, factory: Outcome, others: nat -> seq<Step>, ghost start: State, ghost run: seq<Step>)
      returns (outcome: Outcome, ghost run': seq<Step>)
      requires IsRun(start, run, capacity) && Now() == After(start, run, capacity)
      requires me < |threads| && threads[me].Starting? && factory != Failed(CapacityExhausted)
      modifies this
      ensures IsRun(start, run', capacity) && Now() == After(start, run', capacity) && run <= run'
      ensures me < |threads| && threads[me] == Finished(old(threads[me].key), Some(old(threads[me].ticket)), outcome)
      ensures outcome == factory || outcome == Failed(CapacityExhausted)
      ensures
        var key := old(threads[me].key);
        key !in inflight && (outcome.Built? ==> key in entries && entries[key] == Entry(outcome.value, 0))
    {
      hide IsRun, After, Resolve;
      run' := Build(me, factory, others, start, run);
      if threads[me].Holding? {
        var ok;
        ok, run' := Store(me, others(2), start, run');
        if ok {
          return factory, run';
        }
      }
      run' := Others(others(3), me, start, run');
      outcome := Failed(threads[me].error);
      ExtendRun(start, run', Abandon(me), capacity);
      GiveUp(me);
      run' := run' + [Abandon(me)];
    }

    /** `get_or_set`.  It returns nothing only while its caller still waits for another creator. */
    method GetOrSet(key: Tenant, factory: Outcome, others: nat -> seq<Step>)
      returns (outcome: Option<Outcome>, me: nat, ghost run: seq<Step>)
      requires Inv(Now(), capacity) && capacity > 0 && factory != Failed(CapacityExhausted)
      modifies this
      ensures IsRun(old(Now()), run, capacity) && Now() == After(old(Now()), run, capacity)
      ensures Inv(Now(), capacity)
      ensures [Call(key)] <= run && me == |old(threads)| && me < |threads| && threads[me].key == key
      ensures match outcome
              case Some(o) => threads[me].Finished? && threads[me].outcome == o
              case None => threads[me].Waiting? && Settled(futures, threads[me].ticket).None?
      ensures key in old(entries) ==> outcome == Some(Built(old(entries)[key].value))
      ensures key !in old(entries) && key !in old(inflight) ==>
        outcome == Some(factory) || outcome == Some(Failed(CapacityExhausted))
    {
      hide IsRun, After, Inv;
      ghost var start := Now();
      OneStep(start, Call(key), capacity);
      me := |threads|;
      var answer := Lookup(key);
      run := [Call(key)];
      match answer {
        case Hit(value) => outcome := Some(Built(value));
        case Join(ticket) => outcome, run := Await(me, others(0), start, run);
        case Create(ticket) =>
          var result;
          result, run := Produce(me, factory, others, start, run);
          outcome := Some(result);
      }
      RunKeepsInv(start, run, capacity);
    }
  }
}

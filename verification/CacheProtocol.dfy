/** Single-flight creation in the tenant cache, as a transition system.

    A step is one critical section under the cache lock, the return of one factory, or one waiter
    being woken.  Between two steps of a call any other calls may take theirs, so every interleaving
    of any number of callers is a sequence of steps. */
module CacheProtocol {
  import opened Options
  import opened CacheOrder

  datatype Error = CapacityExhausted | FactoryError(code: int)

  datatype Outcome = Built(value: Resource) | Failed(error: Error)

  /** A creation future.  `key` is whose creation it stands for. */
  datatype Future = Future(key: Tenant, outcome: Option<Outcome>)

  /** Where one call of `get_or_set` is. */
  datatype Thread =
    | Starting(key: Tenant, ticket: nat)                    // became the creator
    | Building(key: Tenant, ticket: nat)                    // made room, its factory is running
    | Holding(key: Tenant, ticket: nat, value: Resource)    // its factory returned
    | Failing(key: Tenant, ticket: nat, error: Error)       // an exception is on its way
    | Waiting(key: Tenant, ticket: nat)                     // awaits the creator's future
    | Finished(key: Tenant, via: Option<nat>, outcome: Outcome)

  /** What has become of the resources: `built` is every result a factory returned, with its caller's key,
      and `made` counts them; `installed` is what entered the cache, `discarded` what found no room there
      and was dropped, and `handed` what was handed over for release. */
  datatype Books = Books(
    built: set<Pair>,
    made: multiset<Pair>,
    installed: multiset<Pair>,
    discarded: multiset<Pair>,
    handed: multiset<Pair>)

  const NO_BOOKS: Books := Books({}, multiset{}, multiset{}, multiset{}, multiset{})

  datatype State = State(
    cache: Cache,
    inflight: map<Tenant, nat>,
    futures: seq<Future>,
    threads: seq<Thread>,
    books: Books)

  const EMPTY: State := State(Cache([], map[]), map[], [], [], NO_BOOKS)

  datatype Step =
    | Call(key: Tenant)
    | MakeRoom(t: nat)
    | FactoryReturns(t: nat, outcome: Outcome)
    | Install(t: nat)
    | Abandon(t: nat)
    | Wake(t: nat)
    | Pin(key: Tenant)
    | Unpin(key: Tenant)
    | Clear

  predicate Creating(t: Thread) {
    t.Starting? || t.Building? || t.Holding? || t.Failing?
  }

  predicate Enabled(s: State, step: Step) {
    match step
    case MakeRoom(t) => t < |s.threads| && s.threads[t].Starting?
    case FactoryReturns(t, outcome) =>
      t < |s.threads| && s.threads[t].Building? && outcome != Failed(CapacityExhausted)
    case Install(t) => t < |s.threads| && s.threads[t].Holding?
    case Abandon(t) => t < |s.threads| && s.threads[t].Failing?
    case Wake(t) => t < |s.threads| && s.threads[t].Waiting? && Settled(s.futures, s.threads[t].ticket).Some?
    case _ => true
  }

  function Settled(futures: seq<Future>, ticket: nat): Option<Outcome> {
    if ticket < |futures| then futures[ticket].outcome else None
  }

  /** `if not creation_future.done(): creation_future.set_...` */
  function Resolve(futures: seq<Future>, ticket: nat, outcome: Outcome): seq<Future> {
    if ticket < |futures| && futures[ticket].outcome.None? then
      futures[ticket := futures[ticket].(outcome := Some(outcome))]
    else futures
  }

  /** What an eviction hands over for release. */
  function HandedBy(popped: Popped): multiset<Pair> {
    if popped.Evicted? then multiset{popped.pair} else multiset{}
  }

  function HandOver(b: Books, popped: Popped): Books {
    b.(handed := b.handed + HandedBy(popped))
  }

  function Made(b: Books, pair: Pair): Books {
    b.(built := b.built + {pair}, made := b.made + multiset{pair})
  }

  function Discard(b: Books, pair: Pair): Books {
    b.(discarded := b.discarded + multiset{pair})
  }

  function Enter(b: Books, pair: Pair): Books {
    b.(installed := b.installed + multiset{pair})
  }

  function AfterCall(s: State, key: Tenant): State {
    if key in s.cache.entries then
      s.(cache := Touch(s.cache, key),
         threads := s.threads + [Finished(key, None, Built(s.cache.entries[key].value))])
    else if key in s.inflight then
      s.(threads := s.threads + [Waiting(key, s.inflight[key])])
    else
      s.(inflight := s.inflight[key := |s.futures|],
         futures := s.futures + [Future(key, None)],
         threads := s.threads + [Starting(key, |s.futures|)])
  }

  function AfterMakeRoom(s: State, t: nat, capacity: nat): State
    requires Enabled(s, MakeRoom(t))
  {
    var me := s.threads[t];
    var popped := Pop(s.cache, capacity);
    if popped.Exhausted? then s.(threads := s.threads[t := Failing(me.key, me.ticket, CapacityExhausted)])
    else
      s.(cache := AfterPop(s.cache, popped), books := HandOver(s.books, popped),
         threads := s.threads[t := Building(me.key, me.ticket)])
  }

  function AfterFactory(s: State, t: nat, outcome: Outcome): State
    requires Enabled(s, FactoryReturns(t, outcome))
  {
    var me := s.threads[t];
    match outcome
    case Built(value) =>
      s.(books := Made(s.books, Pair(me.key, value)),
         threads := s.threads[t := Holding(me.key, me.ticket, value)])
    case Failed(error) => s.(threads := s.threads[t := Failing(me.key, me.ticket, error)])
  }

  function AfterInstall(s: State, t: nat, capacity: nat): State
    requires Enabled(s, Install(t))
  {
    var me := s.threads[t];
    var popped := Pop(s.cache, capacity);
    if popped.Exhausted? then
      s.(books := Discard(s.books, Pair(me.key, me.value)),
         threads := s.threads[t := Failing(me.key, me.ticket, CapacityExhausted)])
    else
      s.(cache := Put(AfterPop(s.cache, popped), me.key, me.value),
         inflight := s.inflight - {me.key},
         futures := Resolve(s.futures, me.ticket, Built(me.value)),
         books := Enter(HandOver(s.books, popped), Pair(me.key, me.value)),
         threads := s.threads[t := Finished(me.key, Some(me.ticket), Built(me.value))])
  }

  function AfterAbandon(s: State, t: nat): State
    requires Enabled(s, Abandon(t))
  {
    var me := s.threads[t];
    s.(inflight := s.inflight - {me.key},
       futures := Resolve(s.futures, me.ticket, Failed(me.error)),
       threads := s.threads[t := Finished(me.key, Some(me.ticket), Failed(me.error))])
  }

  function AfterWake(s: State, t: nat): State
    requires Enabled(s, Wake(t))
  {
    var me := s.threads[t];
    s.(threads := s.threads[t := Finished(me.key, Some(me.ticket), Settled(s.futures, me.ticket).value)])
  }

  function AfterPin(s: State, key: Tenant): State {
    if key in s.cache.entries then
      s.(cache := Touch(SetRefCount(s.cache, key, s.cache.entries[key].refCount + 1), key))
    else s
  }

  /** Unpinning does not count as a use: the entry keeps its place. */
  function AfterUnpin(s: State, key: Tenant): State {
    if key in s.cache.entries then
      var refCount := s.cache.entries[key].refCount;
      s.(cache := SetRefCount(s.cache, key, if refCount == 0 then 0 else refCount - 1))
    else s
  }

  function AfterClear(s: State): State {
    s.(cache := Cache([], map[]), books := s.books.(handed := s.books.handed + Held(s.cache.order, s.cache.entries)))
  }

  function Apply(s: State, step: Step, capacity: nat): State
    requires Enabled(s, step)
  {
    match step
    case Call(key) => AfterCall(s, key)
    case MakeRoom(t) => AfterMakeRoom(s, t, capacity)
    case FactoryReturns(t, outcome) => AfterFactory(s, t, outcome)
    case Install(t) => AfterInstall(s, t, capacity)
    case Abandon(t) => AfterAbandon(s, t)
    case Wake(t) => AfterWake(s, t)
    case Pin(key) => AfterPin(s, key)
    case Unpin(key) => AfterUnpin(s, key)
    case Clear => AfterClear(s)
  }

  /** The states a sequence of steps can lead to; a step that is not enabled is no step. */
  ghost predicate IsRun(s: State, run: seq<Step>, capacity: nat)
    decreases |run|
  {
    run == [] || (Enabled(s, run[0]) && IsRun(Apply(s, run[0], capacity), run[1..], capacity))
  }

  ghost function After(s: State, run: seq<Step>, capacity: nat): State
    requires IsRun(s, run, capacity)
    decreases |run|
  {
    if run == [] then s else After(Apply(s, run[0], capacity), run[1..], capacity)
  }

  lemma {:induction false} RunsCompose(s: State, first: seq<Step>, second: seq<Step>, capacity: nat)
    requires IsRun(s, first, capacity) && IsRun(After(s, first, capacity), second, capacity)
    ensures IsRun(s, first + second, capacity)
    ensures After(s, first + second, capacity) == After(After(s, first, capacity), second, capacity)
    decreases |first|
  {
    if first == [] {
      assert first + second == second;
    } else {
      assert (first + second)[1..] == first[1..] + second;
      RunsCompose(Apply(s, first[0], capacity), first[1..], second, capacity);
    }
  }

  lemma OneStep(s: State, step: Step, capacity: nat)
    requires Enabled(s, step)
    ensures IsRun(s, [step], capacity) && After(s, [step], capacity) == Apply(s, step, capacity)
  {
    assert [step][1..] == [];
  }

  lemma ExtendRun(s: State, run: seq<Step>, step: Step, capacity: nat)
    requires IsRun(s, run, capacity) && Enabled(After(s, run, capacity), step)
    ensures IsRun(s, run + [step], capacity)
    ensures After(s, run + [step], capacity) == Apply(After(s, run, capacity), step, capacity)
  {
    OneStep(After(s, run, capacity), step, capacity);
    RunsCompose(s, run, [step], capacity);
  }

  /** A run can be cut before its last step. */
  lemma {:induction false} RunPrefix(s: State, run: seq<Step>, n: nat, capacity: nat)
    requires IsRun(s, run, capacity) && n <= |run|
    ensures IsRun(s, run[..n], capacity)
    ensures IsRun(After(s, run[..n], capacity), run[n..], capacity)
    ensures After(After(s, run[..n], capacity), run[n..], capacity) == After(s, run, capacity)
    decreases n
  {
    if n == 0 {
      assert run[..0] == [] && run[0..] == run;
    } else {
      assert run[..n][1..] == run[1..][..n - 1] && run[n..] == run[1..][n - 1..];
      RunPrefix(Apply(s, run[0], capacity), run[1..], n - 1, capacity);
    }
  }

  /** The last step of a run, taken after everything before it. */
  lemma LastStep(s: State, run: seq<Step>, capacity: nat)
    requires IsRun(s, run, capacity) && run != []
    ensures var before := run[..|run| - 1];
            && IsRun(s, before, capacity)
            && Enabled(After(s, before, capacity), run[|run| - 1])
            && After(s, run, capacity) == Apply(After(s, before, capacity), run[|run| - 1], capacity)
  {
    var n := |run| - 1;
    RunPrefix(s, run, n, capacity);
    assert run[n..][1..] == [] && run[n..][0] == run[n];
  }
}

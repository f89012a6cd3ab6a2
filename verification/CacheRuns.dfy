/** A run in which the tenant cache drops a resource that a factory built. */
module CacheRuns {
  import opened Options
  import opened CacheOrder
  import opened CacheProtocol

  /** These steps of a cache of one entry lead from the empty cache to the state. */
  ghost predicate Leads(run: seq<Step>, s: State) {
    IsRun(EMPTY, run, 1) && After(EMPTY, run, 1) == s
  }

  lemma Then(run: seq<Step>, s: State, step: Step) returns (run': seq<Step>, s': State)
    requires Leads(run, s) && Enabled(s, step)
    ensures Leads(run', s') && s' == Apply(s, step, 1)
  {
    hide Apply, Enabled;
    run', s' := run + [step], Apply(s, step, 1);
    ExtendRun(EMPTY, run, step, 1);
  }

  /** Two callers make room while the cache is still empty, so both build. */
  lemma BothBuild(a: Tenant, b: Tenant) returns (run: seq<Step>, s: State)
    requires a != b
    ensures Leads(run, s) && s.cache == EMPTY.cache && s.books == NO_BOOKS
    ensures s.threads == [Building(a, 0), Building(b, 1)] && |s.futures| == 2
  {
    assert Leads([], EMPTY);
    hide Leads;
    run, s := Then([], EMPTY, Call(a));
    run, s := Then(run, s, Call(b));
    run, s := Then(run, s, MakeRoom(0));
    run, s := Then(run, s, MakeRoom(1));
  }

  /** The second one installs its resource, which is pinned at once. */
  lemma OneIsPinned(a: Tenant, b: Tenant, first: Resource, second: Resource) returns (run: seq<Step>, s: State)
    requires a != b
    ensures Leads(run, s) && s.cache == Cache([b], map[b := Entry(second, 1)])
    ensures |s.threads| == 2 && s.threads[0] == Holding(a, 0, first)
    ensures s.books.handed == multiset{} && s.books.discarded == multiset{} && Pair(a, first) in s.books.made
  {
    hide Leads;
    run, s := BothBuild(a, b);
    run, s := Then(run, s, FactoryReturns(1, Built(second)));
    run, s := Then(run, s, FactoryReturns(0, Built(first)));
    run, s := Then(run, s, Install(1));
    assert s.cache == Cache([b], map[b := Entry(second, 0)]);
    run, s := Then(run, s, Pin(b));
    assert s.cache == Cache([b], map[b := Entry(second, 1)]);
  }

  /** Then the first one finds no room for what it has built: the resource is neither in the cache nor handed
      over for release, and its caller is on the way to an error. */
  lemma BuiltAndDropped(a: Tenant, b: Tenant, first: Resource, second: Resource) returns (run: seq<Step>)
    requires a != b
    ensures IsRun(EMPTY, run, 1)
    ensures var s := After(EMPTY, run, 1);
            && Pair(a, first) in s.books.made && a !in s.cache.entries
            && s.books.discarded == multiset{Pair(a, first)} && s.books.handed == multiset{}
            && |s.threads| == 2 && s.threads[0] == Failing(a, 0, CapacityExhausted)
  {
    hide IsRun, After;
    var s;
    run, s := OneIsPinned(a, b, first, second);
    assert Victim([b], s.cache.entries) == Victim([b][1..], s.cache.entries) == None;
    assert Pop(s.cache, 1) == Exhausted;
    run, s := Then(run, s, Install(0));
    assert a !in s.cache.entries;
  }
}

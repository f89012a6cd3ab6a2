/** In which order a process may cache configurations: whoever caches an older version last makes it the
    active one, and this module says exactly when that never happens. */
module ConfigOrder {
  import opened ConfigCache
  import opened Sets

  /** After caching these one after the other. */
  function CachedAll(s: Snapshots, configs: seq<Config>): Snapshots
    decreases |configs|
  {
    if configs == [] then s else CachedAll(Cached(s, configs[0]), configs[1..])
  }

  predicate GoesBack(s: Snapshots, config: Config, tenant: Tenant) {
    var s' := Cached(s, config);
    tenant in s.active && tenant in s'.active && s'.active[tenant].version < s.active[tenant].version
  }

  /** What one caching does to the active configuration of a tenant. */
  lemma ActiveAfter(s: Snapshots, config: Config, tenant: Tenant)
    ensures config.tenant == tenant ==> tenant in Cached(s, config).active && Cached(s, config).active[tenant] == config
    ensures config.tenant != tenant && tenant in Cached(s, config).active ==>
              tenant in s.active && Cached(s, config).active[tenant] == s.active[tenant]
  {
  }

  /** One caching takes a tenant's active version back exactly when it brings an older one. */
  lemma GoesBackExactly(s: Snapshots, config: Config, tenant: Tenant)
    ensures GoesBack(s, config, tenant) <==>
              config.tenant == tenant && tenant in s.active && config.version < s.active[tenant].version
  {
    hide Cached;
    ActiveAfter(s, config, tenant);
  }

  ghost predicate NeverGoesBack(s: Snapshots, configs: seq<Config>, tenant: Tenant)
    decreases |configs|
  {
    configs == []
    || (!GoesBack(s, configs[0], tenant) && NeverGoesBack(Cached(s, configs[0]), configs[1..], tenant))
  }

  /** The tenant is not evicted on the way. */
  ghost predicate StaysActive(s: Snapshots, configs: seq<Config>, tenant: Tenant)
    decreases |configs|
  {
    tenant in s.active && (configs == [] || StaysActive(Cached(s, configs[0]), configs[1..], tenant))
  }

  function VersionsIn(configs: seq<Config>, tenant: Tenant): seq<nat> {
    if configs == [] then []
    else (if configs[0].tenant == tenant then [configs[0].version] else []) + VersionsIn(configs[1..], tenant)
  }

  predicate Rising(versions: seq<nat>) {
    forall i, j | 0 <= i < j < |versions| :: versions[i] <= versions[j]
  }

  lemma RisingFrom(v: nat, w: nat, rest: seq<nat>)
    ensures Rising([v] + ([w] + rest)) <==> v <= w && Rising([w] + rest)
  {
    var tail := [w] + rest;
    var all := [v] + tail;
    if v <= w && Rising(tail) {
      forall i, j | 0 <= i < j < |all|
        ensures all[i] <= all[j]
      {
        assert all[j] == tail[j - 1] && tail[0] <= tail[j - 1];
      }
    }
    if Rising(all) {
      assert all[0] <= all[1];
      forall i, j | 0 <= i < j < |tail|
        ensures tail[i] <= tail[j]
      {
        assert tail[i] == all[i + 1] && tail[j] == all[j + 1];
      }
    }
  }

  /** For any order in which a process caches the configurations of all its tenants: while a tenant is not
      evicted its active version never goes back if and only if its own versions arrive in rising order; and
      the last one to arrive is the active one. */
  lemma {:induction false} NeverGoesBackExactly(s: Snapshots, configs: seq<Config>, tenant: Tenant)
    requires StaysActive(s, configs, tenant)
    ensures var arrived := [s.active[tenant].version] + VersionsIn(configs, tenant);
            && (NeverGoesBack(s, configs, tenant) <==> Rising(arrived))
            && tenant in CachedAll(s, configs).active
            && CachedAll(s, configs).active[tenant].version == arrived[|arrived| - 1]
    decreases |configs|
  {
    hide Cached, GoesBack, Rising;
    var v := s.active[tenant].version;
    if configs == [] {
      assert [v] + VersionsIn(configs, tenant) == [v];
      assert Rising([v]) by { RisingAlone(v); }
    } else {
      var config, rest := configs[0], VersionsIn(configs[1..], tenant);
      ActiveAfter(s, config, tenant);
      GoesBackExactly(s, config, tenant);
      NeverGoesBackExactly(Cached(s, config), configs[1..], tenant);
      if config.tenant == tenant {
        RisingFrom(v, config.version, rest);
      } else {
        assert VersionsIn(configs, tenant) == rest;
      }
    }
  }

  lemma RisingAlone(v: nat)
    ensures Rising([v])
  {
  }

  // ---------------------------------------------------------------- first in, first out

  /** The position of the last caching that made the tenant active (again). */
  function EnteredAt(configs: seq<Config>, tenant: Tenant): int {
    if configs == [] then -1
    else
      var n := |configs| - 1;
      if configs[n].tenant == tenant && tenant !in CachedFrom(configs[..n]).active then n
      else EnteredAt(configs[..n], tenant)
  }

  /** From an empty memory on. */
  function CachedFrom(configs: seq<Config>): Snapshots
    decreases |configs|
  {
    if configs == [] then NOTHING else Cached(CachedFrom(configs[..|configs| - 1]), configs[|configs| - 1])
  }

  lemma {:induction false} EnteredInPast(configs: seq<Config>, tenant: Tenant)
    ensures EnteredAt(configs, tenant) < |configs|
    decreases |configs|
  {
    if configs != [] {
      EnteredInPast(configs[..|configs| - 1], tenant);
    }
  }

  ghost predicate InOrderOfEntry(order: seq<Tenant>, configs: seq<Config>) {
    forall i, j | 0 <= i < j < |order| :: EnteredAt(configs, order[i]) < EnteredAt(configs, order[j])
  }

  /** The tenants are kept in the order in which they became active, and the bounds hold. */
  lemma {:induction false} OrderIsEntry(configs: seq<Config>)
    ensures Bounded(CachedFrom(configs)) && InOrderOfEntry(CachedFrom(configs).order, configs)
    decreases |configs|
  {
    hide Bounded, Cached;
    if configs == [] {
      NothingIsBounded();
    } else {
      var n := |configs| - 1;
      var before, config := CachedFrom(configs[..n]), configs[n];
      OrderIsEntry(configs[..n]);
      CachingKeepsBounds(before, config);
      OrderAfter(before, config);
      var order := CachedFrom(configs).order;
      forall i, j | 0 <= i < j < |order|
        ensures EnteredAt(configs, order[i]) < EnteredAt(configs, order[j])
      {
        EnteredInPast(configs[..n], order[i]);
      }
    }
  }

  /** How a caching changes the order, and who leaves: the first one, when a new tenant finds the memory full. */
  lemma OrderAfter(s: Snapshots, config: Config)
    requires Bounded(s)
    ensures var s' := Cached(s, config);
            if config.tenant in s.active then s'.order == s.order && s'.active.Keys == s.active.Keys
            else
              var kept := if |s.order| == 1000 then s.order[1..] else s.order;
              && s'.order == kept + [config.tenant] && config.tenant !in kept
              && (forall t :: t in s'.active <==> t in kept || t == config.tenant)
  {
    if config.tenant !in s.active && |s.order| == 1000 {
      assert s.order == [s.order[0]] + s.order[1..];
      assert forall t :: t in s.order <==> t == s.order[0] || t in s.order[1..];
    }
  }

  /** First in, first out: a tenant leaves the memory only when a thousand others are active or just entering,
      and it is the one that became active before all of them. */
  lemma EvictsTheOldest(configs: seq<Config>, config: Config, victim: Tenant)
    requires victim in CachedFrom(configs).active && victim !in Cached(CachedFrom(configs), config).active
    ensures var s := CachedFrom(configs);
            && config.tenant !in s.active && |s.active| == 1000
            && (forall t | t in s.active && t != victim ::
                  t in Cached(s, config).active && EnteredAt(configs, victim) < EnteredAt(configs, t))
  {
    hide Cached;
    var s := CachedFrom(configs);
    OrderIsEntry(configs);
    OrderAfter(s, config);
    ActiveIsOrder(s);
    assert s.order == [s.order[0]] + s.order[1..];
    forall t | t in s.active && t != victim
      ensures t in Cached(s, config).active && EnteredAt(configs, victim) < EnteredAt(configs, t)
    {
      assert t in s.order;
      var j :| 0 <= j < |s.order| && s.order[j] == t;
      assert j > 0 && s.order[1..][j - 1] == t;
    }
  }

  lemma ActiveIsOrder(s: Snapshots)
    requires Bounded(s)
    ensures |s.active| == |s.order| && forall t :: t in s.active <==> t in s.order
  {
    DistinctCount(s.order);
    assert s.active.Keys == set t | t in s.order;
    assert |s.active| == |s.active.Keys|;
  }

  // ---------------------------------------------------------------- when nobody is evicted

  function TenantsOf(configs: seq<Config>): set<Tenant> {
    set i | 0 <= i < |configs| :: configs[i].tenant
  }

  lemma {:induction false} DistinctCount(order: seq<Tenant>)
    requires forall i, j | 0 <= i < j < |order| :: order[i] != order[j]
    ensures |set t | t in order| == |order|
  {
    if order != [] {
      var n := |order| - 1;
      DistinctCount(order[..n]);
      assert order == order[..n] + [order[n]];
      assert (set t | t in order) == (set t | t in order[..n]) + {order[n]};
    }
  }

  /** Caching for one of at most 1000 tenants evicts nobody. */
  lemma NobodyEvicted(s: Snapshots, config: Config, tenants: set<Tenant>)
    requires Bounded(s) && s.active.Keys <= tenants && config.tenant in tenants && |tenants| <= MAX_CACHED_TENANTS
    ensures Cached(s, config).active == s.active[config.tenant := config]
  {
    if config.tenant !in s.active && |s.order| >= MAX_CACHED_TENANTS {
      DistinctCount(s.order);
      var known := set t | t in s.order;
      assert known + {config.tenant} <= tenants;
      SubsetSize(known + {config.tenant}, tenants);
      assert false;
    }
  }

  /** With at most 1000 tenants in all, every active tenant stays active. */
  lemma {:induction false} FewTenantsStayActive(s: Snapshots, configs: seq<Config>, tenant: Tenant)
    requires Bounded(s) && tenant in s.active
    requires |s.active.Keys + TenantsOf(configs)| <= MAX_CACHED_TENANTS
    ensures StaysActive(s, configs, tenant)
    decreases |configs|
  {
    hide Cached, Bounded;
    if configs != [] {
      var config := configs[0];
      var tenants := s.active.Keys + TenantsOf(configs);
      assert config.tenant in TenantsOf(configs);
      NobodyEvicted(s, config, tenants);
      CachingKeepsBounds(s, config);
      assert forall i | 0 <= i < |configs[1..]| :: configs[1..][i] == configs[i + 1];
      SubsetSize(Cached(s, config).active.Keys + TenantsOf(configs[1..]), tenants);
      FewTenantsStayActive(Cached(s, config), configs[1..], tenant);
    }
  }
}

/** The bounded in-memory snapshots of src/core/tenant/config_manager.py. */
module ConfigCache {
  import opened Options
  import opened ConfigVersions
  import opened Sets

  const MAX_CACHED_TENANTS: nat := 1000
  const MAX_VERSIONS_PER_TENANT: nat := 20

  type Tenant = string

  datatype Config = Config(tenant: Tenant, version: nat, data: Settings)

  datatype Key = Key(tenant: Tenant, version: nat)

  /** The two dictionaries; `order` is the insertion order of the first. */
  datatype Snapshots = Snapshots(order: seq<Tenant>, active: map<Tenant, Config>, history: map<Key, Config>)

  const NOTHING: Snapshots := Snapshots([], map[], map[])

  function VersionsOf(history: map<Key, Config>, tenant: Tenant): set<nat> {
    set k | k in history && k.tenant == tenant :: k.version
  }

  function Above(versions: set<nat>, v: nat): set<nat> {
    set w | w in versions && w > v
  }

  /** The versions that too many others surpass. */
  function Surplus(versions: set<nat>): set<nat> {
    set v | v in versions && |Above(versions, v)| >= MAX_VERSIONS_PER_TENANT
  }

  function KeysOf(history: map<Key, Config>, tenant: Tenant): set<Key> {
    set k | k in history && k.tenant == tenant
  }

  function SurplusKeys(history: map<Key, Config>, tenant: Tenant): set<Key> {
    set k | k in history && k.tenant == tenant && k.version in Surplus(VersionsOf(history, tenant))
  }

  /** The tenant cached first makes room, with its whole history. */
  function Evicted(s: Snapshots): Snapshots
    requires s.order != []
  {
    var gone := s.order[0];
    Snapshots(s.order[1..], s.active - {gone}, s.history - KeysOf(s.history, gone))
  }

  function Inserted(s: Snapshots, config: Config): Snapshots {
    Snapshots(
      if config.tenant in s.active then s.order else s.order + [config.tenant],
      s.active[config.tenant := config],
      s.history[Key(config.tenant, config.version) := config])
  }

  /** `_cache_config` */
  function Cached(s: Snapshots, config: Config): Snapshots {
    var roomy :=
      if config.tenant !in s.active && |s.order| >= MAX_CACHED_TENANTS && s.order != [] then Evicted(s) else s;
    Trimmed(Inserted(roomy, config), config.tenant)
  }

  function Trimmed(s: Snapshots, tenant: Tenant): Snapshots {
    s.(history := s.history - SurplusKeys(s.history, tenant))
  }

  // ---------------------------------------------------------------- sorting versions

  predicate IsMin(versions: set<nat>, m: nat) {
    m in versions && forall v | v in versions :: m <= v
  }

  lemma {:induction false} MinExists(versions: set<nat>)
    requires versions != {}
    ensures exists m :: IsMin(versions, m)
    decreases |versions|
  {
    var m :| m in versions;
    var rest := versions - {m};
    if rest == {} {
      assert versions == {m};
      assert IsMin(versions, m);
    } else {
      MinExists(rest);
      var r :| IsMin(rest, r);
      assert versions == rest + {m};
      assert IsMin(versions, if r < m then r else m);
    }
  }

  function Min(versions: set<nat>): (m: nat)
    requires versions != {}
    ensures IsMin(versions, m)
  {
    MinExists(versions);
    var m :| IsMin(versions, m);
    m
  }

  /** `sorted(...)` */
  function Ascending(versions: set<nat>): seq<nat>
    decreases |versions|
  {
    if versions == {} then [] else [Min(versions)] + Ascending(versions - {Min(versions)})
  }

  lemma {:induction false} AscendingIs(versions: set<nat>)
    ensures |Ascending(versions)| == |versions|
    ensures forall v :: v in Ascending(versions) <==> v in versions
    ensures forall i, j | 0 <= i < j < |versions| :: Ascending(versions)[i] < Ascending(versions)[j]
    decreases |versions|
  {
    if versions != {} {
      var m := Min(versions);
      var rest := Ascending(versions - {m});
      AscendingIs(versions - {m});
      forall i, j | 0 <= i < j < |versions|
        ensures ([m] + rest)[i] < ([m] + rest)[j]
      {
        assert rest[j - 1] in rest;
      }
    }
  }

  /** How many versions surpass the one at position `i`. */
  lemma {:induction false} AboveCount(versions: set<nat>, i: nat)
    requires i < |versions|
    ensures |Ascending(versions)| == |versions|
    ensures |Above(versions, Ascending(versions)[i])| == |versions| - 1 - i
    decreases |versions|
  {
    hide Ascending, Above;
    AscendingIs(versions);
    AscendingStep(versions);
    var m := Min(versions);
    var rest := versions - {m};
    if i == 0 {
      AboveMin(versions);
    } else {
      AboveCount(rest, i - 1);
      AscendingIs(rest);
      var v := Ascending(rest)[i - 1];
      assert v in rest;
      AboveRest(versions, v);
    }
  }

  lemma AscendingStep(versions: set<nat>)
    requires versions != {}
    ensures Ascending(versions) == [Min(versions)] + Ascending(versions - {Min(versions)})
  {
  }

  lemma AboveMin(versions: set<nat>)
    requires versions != {}
    ensures Above(versions, Min(versions)) == versions - {Min(versions)}
  {
  }

  lemma AboveRest(versions: set<nat>, v: nat)
    requires v in versions && v != Min(versions)
    ensures Above(versions, v) == Above(versions - {Min(versions)}, v)
  {
  }

  function SurplusCount(versions: set<nat>): nat {
    if |versions| > MAX_VERSIONS_PER_TENANT then |versions| - MAX_VERSIONS_PER_TENANT else 0
  }

  /** All but the last twenty of the sorted versions are surplus. */
  lemma SurplusIsPrefix(versions: set<nat>)
    ensures SurplusCount(versions) <= |Ascending(versions)| == |versions|
    ensures Surplus(versions) == Members(Ascending(versions)[..SurplusCount(versions)])
  {
    hide Ascending;
    AscendingIs(versions);
    var sorted, n := Ascending(versions), SurplusCount(versions);
    forall v | v in versions
      ensures v in Surplus(versions) <==> v in sorted[..n]
    {
      assert v in sorted;
      var k :| 0 <= k < |sorted| && sorted[k] == v;
      AboveCount(versions, k);
      InPrefix(sorted, n, k);
    }
  }

  lemma InPrefix(sorted: seq<nat>, n: nat, k: nat)
    requires n <= |sorted| && k < |sorted| && forall i, j | 0 <= i < j < |sorted| :: sorted[i] < sorted[j]
    ensures sorted[k] in sorted[..n] <==> k < n
  {
    if k < n {
      assert sorted[..n][k] == sorted[k];
    }
  }

  lemma {:induction false} IncreasingCount(sorted: seq<nat>)
    requires forall i, j | 0 <= i < j < |sorted| :: sorted[i] < sorted[j]
    ensures |Members(sorted)| == |sorted|
  {
    if sorted != [] {
      var n := |sorted| - 1;
      IncreasingCount(sorted[..n]);
      assert sorted == sorted[..n] + [sorted[n]];
      assert Members(sorted) == Members(sorted[..n]) + {sorted[n]};
    }
  }

  function Members(versions: seq<nat>): set<nat> {
    set v | v in versions
  }

  /** What stays is the newest versions, as many as allowed. */
  lemma NewestStay(versions: set<nat>)
    ensures var kept := versions - Surplus(versions);
            && |kept| == (if |versions| > 20 then 20 else |versions|)
            && forall v, w | v in kept && w in Surplus(versions) :: w < v
  {
    SurplusIsPrefix(versions);
    AscendingIs(versions);
    IncreasingCount(Ascending(versions)[..SurplusCount(versions)]);
    assert Surplus(versions) <= versions;
    forall v, w | v in versions - Surplus(versions) && w in Surplus(versions)
      ensures w < v
    {
      if v <= w {
        assert Above(versions, w) <= Above(versions, v);
        SubsetSize(Above(versions, w), Above(versions, v));
        assert false;
      }
    }
  }

  // ---------------------------------------------------------------- the bounds

  ghost predicate OrderOk(s: Snapshots) {
    && |s.order| <= MAX_CACHED_TENANTS
    && (forall i, j | 0 <= i < j < |s.order| :: s.order[i] != s.order[j])
    && (forall t :: t in s.order <==> t in s.active)
  }

  ghost predicate HistoryOk(s: Snapshots) {
    && (forall k | k in s.history :: k.tenant in s.active)
    && (forall t :: |VersionsOf(s.history, t)| <= MAX_VERSIONS_PER_TENANT)
  }

  ghost predicate EntriesOk(s: Snapshots) {
    && (forall t | t in s.active :: s.active[t].tenant == t)
    && (forall k | k in s.history :: s.history[k].tenant == k.tenant && s.history[k].version == k.version)
  }

  /** At most 1000 tenants; a history only for active tenants, of at most 20 versions each; and every
      entry is filed under its own tenant and version. */
  ghost predicate Bounded(s: Snapshots) {
    OrderOk(s) && HistoryOk(s) && EntriesOk(s)
  }

  lemma NothingIsBounded()
    ensures Bounded(NOTHING)
  {
    assert forall t :: VersionsOf(map[], t) == {};
  }

  lemma EvictionKeepsBounds(s: Snapshots)
    requires Bounded(s) && s.order != []
    ensures Bounded(Evicted(s)) && |Evicted(s).order| == |s.order| - 1
  {
    var s', gone := Evicted(s), s.order[0];
    assert forall t | t in s'.order :: t in s.order && t != gone;
    forall t | t in s'.active
      ensures t in s'.order
    {
      assert t in s.order;
    }
    forall t
      ensures |VersionsOf(s'.history, t)| <= MAX_VERSIONS_PER_TENANT
    {
      SubsetSize(VersionsOf(s'.history, t), VersionsOf(s.history, t));
    }
  }

  lemma InsertedOrder(s: Snapshots, config: Config)
    requires OrderOk(s) && EntriesOk(s) && (config.tenant in s.active || |s.order| < MAX_CACHED_TENANTS)
    ensures OrderOk(Inserted(s, config)) && EntriesOk(Inserted(s, config))
  {
    var s' := Inserted(s, config);
    if config.tenant !in s.active {
      assert forall i | 0 <= i < |s.order| :: s'.order[i] in s.order;
      assert forall t :: t in s'.order <==> t in s.order || t == config.tenant;
    }
  }

  lemma TrimmedHistory(s: Snapshots, tenant: Tenant)
    requires forall k | k in s.history :: k.tenant in s.active
    requires forall t | t != tenant :: |VersionsOf(s.history, t)| <= MAX_VERSIONS_PER_TENANT
    ensures HistoryOk(Trimmed(s, tenant))
  {
    var trimmed := s.history - SurplusKeys(s.history, tenant);
    var versions := VersionsOf(s.history, tenant);
    NewestStay(versions);
    forall t
      ensures |VersionsOf(trimmed, t)| <= MAX_VERSIONS_PER_TENANT
    {
      if t == tenant {
        KeptVersions(s.history, tenant);
      } else {
        SubsetSize(VersionsOf(trimmed, t), VersionsOf(s.history, t));
      }
    }
  }

  lemma KeptVersions(history: map<Key, Config>, tenant: Tenant)
    ensures var versions := VersionsOf(history, tenant);
            VersionsOf(history - SurplusKeys(history, tenant), tenant) == versions - Surplus(versions)
  {
    hide Surplus;
    var versions := VersionsOf(history, tenant);
    var trimmed := history - SurplusKeys(history, tenant);
    forall v | v in versions - Surplus(versions)
      ensures v in VersionsOf(trimmed, tenant)
    {
      assert Key(tenant, v) in trimmed;
    }
  }

  /** Caching keeps the bounds and makes the snapshot the tenant's active one. */
  lemma CachingKeepsBounds(s: Snapshots, config: Config)
    requires Bounded(s)
    ensures Bounded(Cached(s, config))
    ensures config.tenant in Cached(s, config).active && Cached(s, config).active[config.tenant] == config
  {
    hide Bounded, Trimmed, Inserted, Evicted;
    BoundedParts(s);
    if config.tenant !in s.active && |s.order| >= MAX_CACHED_TENANTS {
      EvictionKeepsBounds(s);
      StoringKeepsBounds(Evicted(s), config);
    } else {
      StoringKeepsBounds(s, config);
    }
  }

  lemma StoringKeepsBounds(s: Snapshots, config: Config)
    requires Bounded(s) && (config.tenant in s.active || |s.order| < MAX_CACHED_TENANTS)
    ensures var s' := Trimmed(Inserted(s, config), config.tenant);
            Bounded(s') && config.tenant in s'.active && s'.active[config.tenant] == config
  {
    hide Surplus, OrderOk, EntriesOk, Bounded;
    BoundedParts(s);
    InsertedOrder(s, config);
    var full := Inserted(s, config);
    forall t | t != config.tenant
      ensures |VersionsOf(full.history, t)| <= MAX_VERSIONS_PER_TENANT
    {
      assert VersionsOf(full.history, t) == VersionsOf(s.history, t);
    }
    TrimmedHistory(full, config.tenant);
    PartsBounded(Trimmed(full, config.tenant), full);
  }

  lemma BoundedParts(s: Snapshots)
    requires Bounded(s)
    ensures OrderOk(s) && HistoryOk(s) && EntriesOk(s)
  {
  }

  lemma PartsBounded(s: Snapshots, full: Snapshots)
    requires OrderOk(full) && EntriesOk(full) && HistoryOk(s)
    requires s.order == full.order && s.active == full.active
    requires forall k | k in s.history :: k in full.history && s.history[k] == full.history[k]
    ensures Bounded(s)
  {
  }

  // ---------------------------------------------------------------- the code

  class ConfigManager {
    var activeOrder: seq<Tenant>
    var activeConfigs: map<Tenant, Config>
    var versionHistory: map<Key, Config>

    function Now(): Snapshots
      reads this
    {
      Snapshots(activeOrder, activeConfigs, versionHistory)
    }

    constructor ()
      ensures Now() == NOTHING && Bounded(Now())
    {
      activeOrder, activeConfigs, versionHistory := [], map[], map[];
      new;
      NothingIsBounded();
    }

    /** Pops keys one by one, in whatever order the dictionary lists them. */
    method PopKeys(keys: set<Key>)
      modifies this`versionHistory
      ensures versionHistory == old(versionHistory) - keys
    {
      var left := keys;
      while left != {}
        invariant left <= keys && versionHistory == old(versionHistory) - (keys - left)
        decreases |left|
      {
        var key :| key in left;
        versionHistory := versionHistory - {key};
        left := left - {key};
      }
    }

    /** `for version in versions[:-MAX_VERSIONS_PER_TENANT]` over the sorted versions of the tenant. */
    method TrimHistory(tenant: Tenant)
      modifies this`versionHistory
      ensures versionHistory == old(versionHistory) - SurplusKeys(old(versionHistory), tenant)
    {
      hide Surplus, Ascending, VersionsOf;
      var versions := VersionsOf(versionHistory, tenant);
      var sorted := Ascending(versions);
      SurplusIsPrefix(versions);
      var n := if |sorted| > MAX_VERSIONS_PER_TENANT then |sorted| - MAX_VERSIONS_PER_TENANT else 0;
      for i := 0 to n
        invariant versionHistory
               == old(versionHistory) - (set k | k in old(versionHistory) && k.tenant == tenant && k.version in sorted[..i])
      {
        assert sorted[..i + 1] == sorted[..i] + [sorted[i]];
        versionHistory := versionHistory - {Key(tenant, sorted[i])};
      }
      assert forall v :: v in sorted[..n] <==> v in Surplus(versions);
    }

    /** `_cache_config` */
    method CacheConfig(config: Config)
      requires Bounded(Now())
      modifies this
      ensures Now() == Cached(old(Now()), config)
      ensures Bounded(Now()) && config.tenant in activeConfigs && activeConfigs[config.tenant] == config
    {
      hide Bounded, SurplusKeys;
      CachingKeepsBounds(Now(), config);
      var tenant := config.tenant;
      if tenant !in activeConfigs && |activeOrder| >= MAX_CACHED_TENANTS {
        var evicted := activeOrder[0];
        activeOrder := activeOrder[1..];
        activeConfigs := activeConfigs - {evicted};
        PopKeys(KeysOf(versionHistory, evicted));
      }
      if tenant !in activeConfigs {
        activeOrder := activeOrder + [tenant];
      }
      activeConfigs := activeConfigs[tenant := config];
      versionHistory := versionHistory[Key(tenant, config.version) := config];
      TrimHistory(tenant);
    }

    /** `get_latest_config`; `defaults` is the default model of a tenant. */
    method GetLatestConfig(tenant: Tenant, defaults: Settings) returns (config: Config)
      requires Bounded(Now())
      modifies this
      ensures Bounded(Now()) && tenant in activeConfigs && activeConfigs[tenant] == config
      ensures config.tenant == tenant
      ensures tenant in old(activeConfigs) ==> Now() == old(Now())
      ensures tenant !in old(activeConfigs) ==>
        config == Config(tenant, 1, defaults) && Now() == Cached(old(Now()), config)
    {
      if tenant !in activeConfigs {
        CacheConfig(Config(tenant, 1, defaults));
      }
      config := activeConfigs[tenant];
    }

    /** `get_versioned_snapshot`: the pinned version while it is remembered, else the latest. */
    method GetVersionedSnapshot(tenant: Tenant, version: Option<nat>, defaults: Settings) returns (config: Config)
      requires Bounded(Now())
      modifies this
      ensures Bounded(Now()) && config.tenant == tenant
      ensures version.Some? && Key(tenant, version.value) in old(versionHistory)
        ==> Now() == old(Now()) && config.version == version.value
            && config == versionHistory[Key(tenant, version.value)]
      ensures version.None? || Key(tenant, version.value) !in old(versionHistory)
        ==> tenant in activeConfigs && config == activeConfigs[tenant]
    {
      if version.Some? && Key(tenant, version.value) in versionHistory {
        return versionHistory[Key(tenant, version.value)];
      }
      config := GetLatestConfig(tenant, defaults);
    }

    /** `publish_config`: the updates over the latest settings, as the next version in memory.  It fails
        exactly when these do not validate, and then nothing changes but a default being cached. */
    method PublishConfig(tenant: Tenant, updates: Settings, rules: Rules) returns (published: Option<Config>)
      requires Bounded(Now())
      modifies this
      ensures Bounded(Now()) && tenant in activeConfigs
      ensures var current := Current(old(Now()), tenant, rules);
              var validated := rules.validate(NextSettings(current, updates, rules));
              && (published.Some? <==> validated.Some?)
              && (published.Some? ==> published.value == Config(tenant, current.version + 1, validated.value))
              && activeConfigs[tenant] == (if published.Some? then published.value else current)
              && (published.None? ==>
                    Now() == if tenant in old(activeConfigs) then old(Now()) else Cached(old(Now()), current))
    {
      hide Bounded, Cached;
      var current := GetLatestConfig(tenant, rules.defaults);
      var version := current.version + 1;
      var data := current.data + updates;
      data := data[TenantId := rules.tenant];
      data := data[VersionId := Number(version)];
      var validated := rules.validate(data);
      if validated.None? {
        return None;
      }
      var config := Config(tenant, version, validated.value);
      CacheConfig(config);
      return Some(config);
    }
  }

  /** The tenant's active configuration, or the defaults as version 1. */
  function Current(s: Snapshots, tenant: Tenant, rules: Rules): Config {
    if tenant in s.active then s.active[tenant] else Config(tenant, 1, rules.defaults)
  }

  /** What is validated: later settings win, but tenant and version are not the caller's to set. */
  function NextSettings(current: Config, updates: Settings, rules: Rules): (data: Settings)
    ensures VersionId in data && data[VersionId] == Number(current.version + 1)
    ensures TenantId in data && data[TenantId] == rules.tenant
  {
    (current.data + updates)[TenantId := rules.tenant][VersionId := Number(current.version + 1)]
  }
}

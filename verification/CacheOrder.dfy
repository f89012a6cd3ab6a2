/** The ordered dictionary behind the tenant cache of src/core/tenant/cache.py: its keys from the least
    to the most recently moved one, and its entries. */
module CacheOrder {
  import opened Options

  type Tenant = string

  datatype Resource = Resource(id: nat)

  datatype Entry = Entry(value: Resource, refCount: nat)

  datatype Pair = Pair(key: Tenant, value: Resource)

  datatype Cache = Cache(order: seq<Tenant>, entries: map<Tenant, Entry>)

  /** What `_pop_lru_unlocked` does: nothing, one eviction, or the `RuntimeError`. */
  datatype Popped = Roomy | Evicted(pair: Pair) | Exhausted

  ghost predicate NoDuplicates(order: seq<Tenant>) {
    forall i, j | 0 <= i < j < |order| :: order[i] != order[j]
  }

  ghost predicate WellFormed(c: Cache) {
    NoDuplicates(c.order) && forall k :: k in c.order <==> k in c.entries
  }

  function Without(order: seq<Tenant>, key: Tenant): seq<Tenant> {
    if order == [] then []
    else if order[0] == key then order[1..]
    else [order[0]] + Without(order[1..], key)
  }

  /** `move_to_end` */
  function Touch(c: Cache, key: Tenant): Cache {
    c.(order := Without(c.order, key) + [key])
  }

  /** The first key whose entry nobody has pinned. */
  function Victim(order: seq<Tenant>, entries: map<Tenant, Entry>): Option<Tenant> {
    if order == [] then None
    else if order[0] in entries && entries[order[0]].refCount == 0 then Some(order[0])
    else Victim(order[1..], entries)
  }

  function Pop(c: Cache, capacity: nat): Popped {
    if |c.order| < capacity then Roomy
    else
      match Victim(c.order, c.entries)
      case Some(key) => if key in c.entries then Evicted(Pair(key, c.entries[key].value)) else Exhausted
      case None => Exhausted
  }

  function Drop(c: Cache, key: Tenant): Cache {
    Cache(Without(c.order, key), c.entries - {key})
  }

  function AfterPop(c: Cache, popped: Popped): Cache {
    if popped.Evicted? then Drop(c, popped.pair.key) else c
  }

  /** `_cache[key] = CacheEntry(...)`; a key that is already there would keep its place. */
  function Put(c: Cache, key: Tenant, value: Resource): Cache {
    Cache(if key in c.entries then c.order else c.order + [key], c.entries[key := Entry(value, 0)])
  }

  function SetRefCount(c: Cache, key: Tenant, refCount: nat): Cache
    requires key in c.entries
  {
    c.(entries := c.entries[key := c.entries[key].(refCount := refCount)])
  }

  /** Every key and value that the cache holds, in order. */
  function PairsOf(c: Cache): seq<Pair>
    requires forall k | k in c.order :: k in c.entries
  {
    seq(|c.order|, i requires 0 <= i < |c.order| => Pair(c.order[i], c.entries[c.order[i]].value))
  }

  /** What the cache holds of each key and value. */
  function Held(order: seq<Tenant>, entries: map<Tenant, Entry>): multiset<Pair> {
    if order == [] then multiset{}
    else
      (if order[0] in entries then multiset{Pair(order[0], entries[order[0]].value)} else multiset{})
      + Held(order[1..], entries)
  }

  // ---------------------------------------------------------------- taking a key out

  lemma {:induction false} WithoutSplits(order: seq<Tenant>, key: Tenant) returns (i: nat)
    ensures i <= |order|
    ensures key in order ==> i < |order| && order[i] == key && Without(order, key) == order[..i] + order[i + 1..]
    ensures key !in order ==> Without(order, key) == order
  {
    if order == [] || order[0] == key {
      i := 0;
    } else {
      var rest := WithoutSplits(order[1..], key);
      i := if key in order then rest + 1 else 0;
      assert key in order ==> key in order[1..];
      assert key in order ==> order[..i] == [order[0]] + order[1..][..rest];
      assert key in order ==> order[i + 1..] == order[1..][rest + 1..];
    }
  }

  lemma WithoutKeys(order: seq<Tenant>, key: Tenant)
    requires NoDuplicates(order)
    ensures NoDuplicates(Without(order, key))
    ensures forall k :: k in Without(order, key) <==> k in order && k != key
    ensures |Without(order, key)| == if key in order then |order| - 1 else |order|
  {
    var i := WithoutSplits(order, key);
    if key in order {
      var short := order[..i] + order[i + 1..];
      assert forall j | 0 <= j < |short| :: short[j] == if j < i then order[j] else order[j + 1];
      forall k | k in order && k != key
        ensures k in short
      {
        var j :| 0 <= j < |order| && order[j] == k;
        assert k == if j < i then short[j] else short[j - 1];
      }
    }
  }

  lemma AppendKeys(order: seq<Tenant>, key: Tenant)
    requires NoDuplicates(order) && key !in order
    ensures NoDuplicates(order + [key])
    ensures forall k :: k in order + [key] <==> k in order || k == key
  {
    var longer := order + [key];
    forall i, j | 0 <= i < j < |longer|
      ensures longer[i] != longer[j]
    {
      if j == |order| {
        assert longer[i] in order;
      }
    }
  }

  lemma TouchKeepsForm(c: Cache, key: Tenant)
    requires WellFormed(c) && key in c.entries
    ensures WellFormed(Touch(c, key)) && |Touch(c, key).order| == |c.order|
  {
    WithoutKeys(c.order, key);
    AppendKeys(Without(c.order, key), key);
  }

  lemma DropKeepsForm(c: Cache, key: Tenant)
    requires WellFormed(c)
    ensures WellFormed(Drop(c, key))
    ensures |Drop(c, key).order| == if key in c.entries then |c.order| - 1 else |c.order|
  {
    WithoutKeys(c.order, key);
  }

  lemma PutKeepsForm(c: Cache, key: Tenant, value: Resource)
    requires WellFormed(c) && key !in c.entries
    ensures WellFormed(Put(c, key, value)) && |Put(c, key, value).order| == |c.order| + 1
  {
    AppendKeys(c.order, key);
  }

  lemma SizeIsKeyCount(c: Cache)
    requires WellFormed(c)
    ensures |c.entries| == |c.order|
  {
    DistinctCount(c.order);
    assert c.entries.Keys == set k | k in c.order;
    assert |c.entries| == |c.entries.Keys|;
  }

  lemma {:induction false} DistinctCount(order: seq<Tenant>)
    requires NoDuplicates(order)
    ensures |set k | k in order| == |order|
  {
    if order != [] {
      DistinctCount(order[1..]);
      assert (set k | k in order) == (set k | k in order[1..]) + {order[0]};
    }
  }

  // ---------------------------------------------------------------- the victim

  /** The victim is the first unpinned key: everything before it is pinned. */
  lemma {:induction false} VictimIsFirst(order: seq<Tenant>, entries: map<Tenant, Entry>) returns (i: nat)
    requires forall k | k in order :: k in entries
    ensures Victim(order, entries).Some? ==>
      i < |order| && order[i] == Victim(order, entries).value && entries[order[i]].refCount == 0
    ensures Victim(order, entries).None? ==> i == |order|
    ensures forall j | 0 <= j < i <= |order| :: entries[order[j]].refCount > 0
  {
    if order == [] || entries[order[0]].refCount == 0 {
      i := 0;
    } else {
      var rest := VictimIsFirst(order[1..], entries);
      i := rest + 1;
      assert forall j | 1 <= j < |order| :: order[j] == order[1..][j - 1];
    }
  }

  ghost predicate AllPinned(c: Cache) {
    forall k | k in c.entries :: c.entries[k].refCount > 0
  }

  /** Room is refused exactly when the cache is full of pinned entries; otherwise there is room afterwards,
      and only an unpinned entry was given up for it. */
  lemma PopMakesRoom(c: Cache, capacity: nat)
    requires WellFormed(c) && capacity > 0 && |c.order| <= capacity
    ensures Pop(c, capacity).Exhausted? <==> |c.order| == capacity && AllPinned(c)
    ensures Pop(c, capacity).Evicted? ==>
      && var pair := Pop(c, capacity).pair;
         && pair.key in c.entries && c.entries[pair.key] == Entry(pair.value, 0)
    ensures WellFormed(AfterPop(c, Pop(c, capacity)))
    ensures !Pop(c, capacity).Exhausted? ==> |AfterPop(c, Pop(c, capacity)).order| < capacity
  {
    var i := VictimIsFirst(c.order, c.entries);
    if i < |c.order| {
      assert c.order[i] in c.entries;
      DropKeepsForm(c, c.order[i]);
    } else {
      forall k | k in c.entries
        ensures |c.order| == i ==> Victim(c.order, c.entries).None? ==> c.entries[k].refCount > 0
      {
        assert k in c.order;
      }
    }
  }

  // ---------------------------------------------------------------- ages

  /** The order of the keys is the order of their stamps. */
  ghost predicate Aged(order: seq<Tenant>, stamp: Tenant -> int) {
    forall i, j | 0 <= i < j < |order| :: stamp(order[i]) < stamp(order[j])
  }

  lemma AgedWithout(order: seq<Tenant>, key: Tenant, stamp: Tenant -> int)
    requires Aged(order, stamp)
    ensures Aged(Without(order, key), stamp)
  {
    hide Aged, Without;
    var i := WithoutSplits(order, key);
    if key in order {
      AgedCut(order, i, stamp);
    }
  }

  lemma AgedCut(order: seq<Tenant>, i: nat, stamp: Tenant -> int)
    requires Aged(order, stamp) && i < |order|
    ensures Aged(order[..i] + order[i + 1..], stamp)
  {
    var short := order[..i] + order[i + 1..];
    forall a, b | 0 <= a < b < |short|
      ensures stamp(short[a]) < stamp(short[b])
    {
      var a' := if a < i then a else a + 1;
      var b' := if b < i then b else b + 1;
      assert short[a] == order[a'] && short[b] == order[b'];
    }
  }

  lemma AgedAppend(order: seq<Tenant>, key: Tenant, stamp: Tenant -> int)
    requires Aged(order, stamp)
    requires forall k | k in order :: stamp(k) < stamp(key)
    ensures Aged(order + [key], stamp)
  {
    var longer := order + [key];
    forall i, j | 0 <= i < j < |longer|
      ensures stamp(longer[i]) < stamp(longer[j])
    {
      assert longer[i] in order;
    }
  }

  lemma AgedSame(order: seq<Tenant>, stamp: Tenant -> int, stamp': Tenant -> int)
    requires Aged(order, stamp)
    requires forall k | k in order :: stamp'(k) == stamp(k)
    ensures Aged(order, stamp')
  {
  }

  // ---------------------------------------------------------------- what is held

  lemma {:induction false} HeldAppend(a: seq<Tenant>, b: seq<Tenant>, entries: map<Tenant, Entry>)
    ensures Held(a + b, entries) == Held(a, entries) + Held(b, entries)
  {
    if a == [] {
      assert a + b == b;
    } else {
      assert (a + b)[1..] == a[1..] + b;
      HeldAppend(a[1..], b, entries);
    }
  }

  lemma HeldOne(key: Tenant, entries: map<Tenant, Entry>)
    requires key in entries
    ensures Held([key], entries) == multiset{Pair(key, entries[key].value)}
  {
    assert [key][1..] == [];
  }

  /** Entries that only differ in their reference counts, or in keys outside the order, hold the same. */
  lemma {:induction false} HeldSame(order: seq<Tenant>, entries: map<Tenant, Entry>, entries': map<Tenant, Entry>)
    requires forall k | k in order ::
      k in entries && k in entries' && entries[k].value == entries'[k].value
    ensures Held(order, entries) == Held(order, entries')
  {
    if order != [] {
      HeldSame(order[1..], entries, entries');
    }
  }

  lemma HeldWithout(order: seq<Tenant>, entries: map<Tenant, Entry>, key: Tenant)
    requires key in order && key in entries
    ensures Held(order, entries) == Held(Without(order, key), entries) + multiset{Pair(key, entries[key].value)}
  {
    var i := WithoutSplits(order, key);
    assert order == order[..i] + ([key] + order[i + 1..]);
    HeldAppend(order[..i], [key] + order[i + 1..], entries);
    HeldAppend([key], order[i + 1..], entries);
    HeldAppend(order[..i], order[i + 1..], entries);
    HeldOne(key, entries);
  }

  lemma HeldTouch(c: Cache, key: Tenant)
    requires WellFormed(c) && key in c.entries
    ensures Held(Touch(c, key).order, c.entries) == Held(c.order, c.entries)
  {
    HeldWithout(c.order, c.entries, key);
    HeldAppend(Without(c.order, key), [key], c.entries);
    HeldOne(key, c.entries);
  }

  lemma HeldDrop(c: Cache, key: Tenant)
    requires WellFormed(c) && key in c.entries
    ensures Held(c.order, c.entries)
         == Held(Drop(c, key).order, Drop(c, key).entries) + multiset{Pair(key, c.entries[key].value)}
  {
    HeldWithout(c.order, c.entries, key);
    WithoutKeys(c.order, key);
    HeldSame(Without(c.order, key), c.entries, c.entries - {key});
  }

  lemma HeldPut(c: Cache, key: Tenant, value: Resource)
    requires WellFormed(c) && key !in c.entries
    ensures Held(Put(c, key, value).order, Put(c, key, value).entries)
         == Held(c.order, c.entries) + multiset{Pair(key, value)}
  {
    var entries := c.entries[key := Entry(value, 0)];
    HeldAppend(c.order, [key], entries);
    HeldSame(c.order, c.entries, entries);
    HeldOne(key, entries);
  }

  lemma {:induction false} HeldIsPairs(order: seq<Tenant>, entries: map<Tenant, Entry>)
    requires forall k | k in order :: k in entries
    ensures multiset(PairsOf(Cache(order, entries))) == Held(order, entries)
  {
    if order == [] {
      assert PairsOf(Cache(order, entries)) == [];
    } else {
      HeldIsPairs(order[1..], entries);
      assert PairsOf(Cache(order, entries))
          == [Pair(order[0], entries[order[0]].value)] + PairsOf(Cache(order[1..], entries));
    }
  }
}

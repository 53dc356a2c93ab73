/** The block manager's state as a value, its elementary updates, and what each keeps. */
module Blocks {
  import opened LanguageModel
  import opened Wrappers

  datatype Block = Block(
    refCount: nat,
    hash: int,  // -1: no hash
    tokenIds: Option<seq<Token>>,
    namespace: string,
    lastAccessed: nat,
    expiresAt: Option<real>)

  function Cleared(b: Block): Block {
    b.(refCount := 0, hash := -1, tokenIds := None, namespace := "", expiresAt := None)
  }

  datatype CacheConfig = CacheConfig(
    blockSize: nat,
    enablePrefixCache: bool,
    minTokens: nat,
    maxCached: nat,               // 0: unlimited
    maxCachedPerNamespace: nat)   // 0: unlimited

  datatype Store = Store(
    blocks: seq<Block>,
    index: map<int, nat>,  // hash -> block id
    free: seq<nat>,
    cached: set<nat>,
    used: set<nat>,
    clock: nat)

  /* ---------- Invariants ---------- */

  /** A block is in exactly one of free, cached and used, decided by its count and hash. */
  ghost predicate Placed(s: Store, id: nat)
    requires id < |s.blocks|
  {
    var b := s.blocks[id];
    && (id in s.free <==> b.refCount == 0 && b.hash == -1)
    && (id in s.cached <==> b.refCount == 0 && b.hash != -1)
    && (id in s.used <==> b.refCount > 0)
  }

  ghost predicate Partitioned(s: Store) {
    && NoDup(s.free)
    && (forall id | id in s.free :: id < |s.blocks|)
    && (forall id | id in s.cached :: id < |s.blocks|)
    && (forall id | id in s.used :: id < |s.blocks|)
    && (forall id | 0 <= id < |s.blocks| :: Placed(s, id))
  }

  /** Every index entry names a block that stores that hash. */
  ghost predicate IndexSound(s: Store) {
    forall h | h in s.index :: h >= 0 && s.index[h] < |s.blocks| && s.blocks[s.index[h]].hash == h
  }

  /** A hashed block remembers a full block of tokens; a live block without a hash has one owner. */
  ghost predicate BlockShape(b: Block, bs: nat) {
    && b.hash >= -1
    && (b.hash != -1 ==> b.tokenIds.Some? && |b.tokenIds.value| == bs)
    && (b.hash == -1 ==> b.refCount <= 1)
  }

  ghost predicate Shaped(s: Store, bs: nat) {
    forall id | 0 <= id < |s.blocks| :: BlockShape(s.blocks[id], bs)
  }

  /** Idle cached blocks have pairwise different access ticks, so the least is unique. */
  ghost predicate Ticked(s: Store) {
    && (forall id | 0 <= id < |s.blocks| :: s.blocks[id].lastAccessed <= s.clock)
    && (forall i, j | i in s.cached && j in s.cached && i != j && i < |s.blocks| && j < |s.blocks| ::
          s.blocks[i].lastAccessed != s.blocks[j].lastAccessed)
  }

  ghost predicate Valid(s: Store, bs: nat) {
    Partitioned(s) && IndexSound(s) && Shaped(s, bs) && Ticked(s)
  }

  /** The idle cached blocks of one namespace. */
  function InNamespace(s: Store, namespace: string): set<nat> {
    set id | id in s.cached && id < |s.blocks| && s.blocks[id].namespace == namespace
  }

  ghost predicate WithinQuotas(s: Store, c: CacheConfig) {
    && (c.maxCached > 0 ==> |s.cached| <= c.maxCached)
    && (c.maxCachedPerNamespace > 0 ==>
          forall namespace :: |InNamespace(s, namespace)| <= c.maxCachedPerNamespace)
  }

  /** Free, cached and used together are all the blocks, each once. */
  lemma PartitionCount(s: Store)
    requires Partitioned(s)
    ensures |s.free| + |s.cached| + |s.used| == |s.blocks|
  {
    var free := Elements(s.free);
    NoDupCount(s.free);
    forall id: nat | id < |s.blocks| ensures id in free + s.cached + s.used { assert Placed(s, id); }
    assert free + s.cached + s.used == Below(|s.blocks|);
    forall id | id in free ensures id !in s.cached && id !in s.used { assert Placed(s, id); }
    forall id | id in s.cached ensures id !in s.used { assert Placed(s, id); }
    assert |free + s.cached| == |free| + |s.cached|;
    assert |free + s.cached + s.used| == |free + s.cached| + |s.used|;
  }

  /* ---------- Clearing an idle cached block ---------- */

  function RemoveMapping(index: map<int, nat>, hash: int, id: nat): map<int, nat> {
    if hash != -1 && hash in index && index[hash] == id then index - {hash} else index
  }

  function Purge(s: Store, id: nat): Store
    requires id < |s.blocks|
  {
    s.(blocks := s.blocks[id := Cleared(s.blocks[id])],
       index := RemoveMapping(s.index, s.blocks[id].hash, id),
       cached := s.cached - {id},
       free := s.free + [id])
  }

  lemma PurgeKeepsValid(s: Store, bs: nat, id: nat)
    requires Valid(s, bs) && id in s.cached
    ensures Valid(Purge(s, id), bs)
  {
    var t := Purge(s, id);
    assert id !in s.free by { assert Placed(s, id); }
    forall j | 0 <= j < |t.blocks| ensures Placed(t, j) { assert Placed(s, j); }
  }

  /** Caching fewer blocks, under the same namespaces, stays within the quotas. */
  lemma FewerCachedKeepsQuotas(s: Store, t: Store, c: CacheConfig)
    requires t.cached <= s.cached && |t.blocks| == |s.blocks|
    requires forall id | id in t.cached && id < |s.blocks| :: t.blocks[id].namespace == s.blocks[id].namespace
    requires WithinQuotas(s, c)
    ensures WithinQuotas(t, c)
  {
    SubsetCount(t.cached, s.cached);
    forall ns ensures |InNamespace(t, ns)| <= |InNamespace(s, ns)| {
      SubsetCount(InNamespace(t, ns), InNamespace(s, ns));
    }
  }

  lemma {:induction false} SubsetCount<T>(a: set<T>, b: set<T>)
    requires a <= b
    ensures |a| <= |b|
  {
    assert b == a + (b - a);
  }

  lemma PurgeKeepsQuotas(s: Store, c: CacheConfig, id: nat)
    requires id < |s.blocks| && WithinQuotas(s, c)
    ensures WithinQuotas(Purge(s, id), c)
  {
    FewerCachedKeepsQuotas(s, Purge(s, id), c);
  }

  /** t is s after the idle cached blocks in gone were cleared, in any order: only the order in
      which they join the end of the free queue is left open. */
  ghost predicate PurgedTo(s: Store, t: Store, gone: set<nat>) {
    && gone <= s.cached
    && |t.blocks| == |s.blocks|
    && (forall id | 0 <= id < |s.blocks| ::
          t.blocks[id] == if id in gone then Cleared(s.blocks[id]) else s.blocks[id])
    && (forall h :: h in t.index <==> h in s.index && s.index[h] !in gone)
    && (forall h | h in t.index :: t.index[h] == s.index[h])
    && s.free <= t.free && NoDup(t.free)
    && (forall id :: id in t.free <==> id in s.free || id in gone)
    && t.cached == s.cached - gone
    && t.used == s.used
    && t.clock == s.clock
  }

  lemma PurgedNothing(s: Store)
    requires NoDup(s.free)
    ensures PurgedTo(s, s, {})
  {
  }

  lemma PurgedOneMore(s: Store, t: Store, gone: set<nat>, id: nat, bs: nat)
    requires Valid(s, bs) && PurgedTo(s, t, gone) && id in t.cached
    ensures PurgedTo(s, Purge(t, id), gone + {id})
  {
    assert id !in t.free by { assert Placed(s, id); }
    var u := Purge(t, id);
    var hash := t.blocks[id].hash;
    assert t.blocks[id] == s.blocks[id];
    assert hash != -1 by { assert Placed(s, id); }
    forall h ensures h in u.index <==> h in s.index && s.index[h] !in gone + {id} {
      if h in s.index && s.index[h] == id { assert h == hash; }
    }
  }

  /** Clearing one more block in a purge that began at s. */
  lemma PurgeAdvances(s: Store, t: Store, gone: set<nat>, id: nat, c: CacheConfig)
    requires Valid(s, c.blockSize) && PurgedTo(s, t, gone) && id in t.cached
    requires Valid(t, c.blockSize) && WithinQuotas(t, c)
    ensures id in s.cached && id !in gone && id < |s.blocks| && t.blocks[id] == s.blocks[id]
    ensures PurgedTo(s, Purge(t, id), gone + {id})
    ensures Valid(Purge(t, id), c.blockSize) && WithinQuotas(Purge(t, id), c)
  {
    PurgedSame(s, t, gone, id, c.blockSize);
    hide *;
    PurgedOneMore(s, t, gone, id, c.blockSize);
    PurgeKeepsValid(t, c.blockSize, id);
    PurgeKeepsQuotas(t, c, id);
  }

  lemma PurgedSame(s: Store, t: Store, gone: set<nat>, id: nat, bs: nat)
    requires Valid(s, bs) && PurgedTo(s, t, gone) && id in t.cached
    ensures id in s.cached && id !in gone && id < |s.blocks| && t.blocks[id] == s.blocks[id]
  {
  }

  lemma PurgedKeepsValid(s: Store, t: Store, gone: set<nat>, bs: nat)
    requires Valid(s, bs) && PurgedTo(s, t, gone)
    ensures Valid(t, bs)
  {
    forall j | 0 <= j < |t.blocks| ensures Placed(t, j) { assert Placed(s, j); }
  }

  lemma PurgedKeepsQuotas(s: Store, t: Store, gone: set<nat>, c: CacheConfig)
    requires PurgedTo(s, t, gone) && WithinQuotas(s, c)
    ensures WithinQuotas(t, c)
  {
    FewerCachedKeepsQuotas(s, t, c);
  }

  predicate IsSelected(b: Block, namespace: Option<string>, expiredAt: Option<real>) {
    && (namespace.None? || b.namespace == namespace.value)
    && (expiredAt.None? || (b.expiresAt.Some? && b.expiresAt.value <= expiredAt.value))
  }

  /** The cached blocks a purge is meant for. */
  function Selected(s: Store, namespace: Option<string>, expiredAt: Option<real>): set<nat> {
    set id | id in s.cached && id < |s.blocks| && IsSelected(s.blocks[id], namespace, expiredAt)
  }

  lemma SelectedMember(s: Store, namespace: Option<string>, expiredAt: Option<real>, id: nat)
    requires id < |s.blocks|
    ensures id in Selected(s, namespace, expiredAt)
       <==> id in s.cached && IsSelected(s.blocks[id], namespace, expiredAt)
  {
  }

  function Expired(s: Store, now: real): set<nat> {
    Selected(s, None, Some(now))
  }

  /* ---------- The least recently used block ---------- */

  ghost predicate DistinctTicks(s: Store, ids: set<nat>) {
    && (forall i | i in ids :: i < |s.blocks|)
    && (forall i, j | i in ids && j in ids && i != j :: s.blocks[i].lastAccessed != s.blocks[j].lastAccessed)
  }

  ghost predicate IsLru(s: Store, ids: set<nat>, v: nat)
    requires forall i | i in ids :: i < |s.blocks|
  {
    v in ids && forall j | j in ids :: s.blocks[v].lastAccessed <= s.blocks[j].lastAccessed
  }

  lemma {:induction false} LruExists(s: Store, ids: set<nat>) returns (v: nat)
    requires ids != {} && forall i | i in ids :: i < |s.blocks|
    ensures IsLru(s, ids, v)
  {
    var x :| x in ids;
    v := x;
    if ids != {x} {
      var w := LruExists(s, ids - {x});
      v := if s.blocks[w].lastAccessed < s.blocks[x].lastAccessed then w else x;
    }
  }

  ghost function Lru(s: Store, ids: set<nat>): (v: nat)
    requires ids != {} && DistinctTicks(s, ids)
    ensures IsLru(s, ids, v)
  {
    assert exists v :: IsLru(s, ids, v) by { var v := LruExists(s, ids); }
    var v :| IsLru(s, ids, v);
    v
  }

  /** Distinct ticks make the victim unique: whatever search finds a least one finds this one. */
  lemma LruUnique(s: Store, ids: set<nat>, v: nat)
    requires ids != {} && DistinctTicks(s, ids) && IsLru(s, ids, v)
    ensures v == Lru(s, ids)
  {
  }

  /* ---------- Quotas ---------- */

  ghost function EnforceNamespace(s: Store, c: CacheConfig, namespace: string): Store
    requires Valid(s, c.blockSize)
    decreases |s.cached|
  {
    var ids := InNamespace(s, namespace);
    if c.maxCachedPerNamespace == 0 || |ids| <= c.maxCachedPerNamespace then s
    else
      var v := Lru(s, ids);
      PurgeKeepsValid(s, c.blockSize, v);
      EnforceNamespace(Purge(s, v), c, namespace)
  }

  ghost function EnforceGlobal(s: Store, c: CacheConfig): Store
    requires Valid(s, c.blockSize)
    decreases |s.cached|
  {
    if c.maxCached == 0 || |s.cached| <= c.maxCached then s
    else
      var v := Lru(s, s.cached);
      PurgeKeepsValid(s, c.blockSize, v);
      EnforceGlobal(Purge(s, v), c)
  }
}

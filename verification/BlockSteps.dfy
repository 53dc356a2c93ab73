/** What the block manager does to its state: releasing, attaching, allocating and hashing blocks.
    Each update is a function of the old state; each lemma says what it keeps. */
module BlockSteps {
  import opened LanguageModel
  import opened Wrappers
  import opened Blocks

  /** A block's cached content is the same prefix block as before. */
  predicate SameContent(a: Block, b: Block) {
    a.hash == b.hash && a.tokenIds == b.tokenIds && a.namespace == b.namespace
  }

  /** An index entry is lost only with the hash of the block it names. */
  ghost predicate IndexFollows(s: Store, t: Store) {
    forall h | h in s.index && h != -1 && s.index[h] < |t.blocks| && t.blocks[s.index[h]].hash == h ::
      h in t.index && t.index[h] == s.index[h]
  }

  /** References only grow; content is lost only by blocks nobody referenced. */
  ghost predicate Grows(s: Store, t: Store) {
    && |t.blocks| == |s.blocks| && IndexFollows(s, t)
    && forall id | 0 <= id < |s.blocks| ::
         && s.blocks[id].refCount <= t.blocks[id].refCount
         && (SameContent(s.blocks[id], t.blocks[id])
             || (s.blocks[id].refCount == 0 && t.blocks[id].hash == -1))
  }

  /** References only shrink; content is lost only by blocks nobody references any more. */
  ghost predicate Shrinks(s: Store, t: Store) {
    && |t.blocks| == |s.blocks| && IndexFollows(s, t)
    && forall id | 0 <= id < |s.blocks| ::
         && t.blocks[id].refCount <= s.blocks[id].refCount
         && (SameContent(s.blocks[id], t.blocks[id])
             || (t.blocks[id].refCount == 0 && t.blocks[id].hash == -1))
  }

  /** t's reference counts are s's without one reference per occurrence in gone and with one
      per occurrence in more. */
  ghost predicate Counted(s: Store, t: Store, gone: multiset<nat>, more: multiset<nat>) {
    && |t.blocks| == |s.blocks|
    && forall id | 0 <= id < |s.blocks| ::
         t.blocks[id].refCount + gone[id] == s.blocks[id].refCount + more[id]
  }

  lemma PurgedSteps(s: Store, t: Store, gone: set<nat>)
    requires Partitioned(s) && PurgedTo(s, t, gone)
    ensures Grows(s, t) && Shrinks(s, t) && Counted(s, t, multiset{}, multiset{})
  {
    forall id | id in gone ensures s.blocks[id].refCount == 0 { assert Placed(s, id); }
  }

  lemma PurgedCompose(s: Store, t: Store, u: Store, first: set<nat>, second: set<nat>)
    requires PurgedTo(s, t, first) && PurgedTo(t, u, second)
    ensures PurgedTo(s, u, first + second)
  {
  }

  /* ---------- Quotas clear exactly the oldest blocks ---------- */

  /** t is s after clearing the oldest of the blocks in pool until at most limit are left. */
  ghost predicate TrimmedTo(s: Store, t: Store, pool: set<nat>, limit: nat, gone: set<nat>) {
    && PurgedTo(s, t, gone)
    && gone <= pool
    && |pool - gone| == Min(|pool|, limit)
    && (forall g, k | g in gone && k in pool - gone && g < |s.blocks| && k < |s.blocks| ::
          s.blocks[g].lastAccessed < s.blocks[k].lastAccessed)
  }

  lemma TrimOneMore(s: Store, t: Store, pool: set<nat>, limit: nat, v: nat, gone: set<nat>, bs: nat)
    requires Valid(s, bs) && v < |s.blocks| && pool <= s.cached && |pool| > limit
    requires DistinctTicks(s, pool) && IsLru(s, pool, v)
    requires TrimmedTo(Purge(s, v), t, pool - {v}, limit, gone)
    ensures TrimmedTo(s, t, pool, limit, gone + {v})
  {
    hide PurgedTo, Valid, Purge;
    assert v in s.cached;
    TrimOneMorePurged(s, t, v, gone, bs);
    TrimCount(pool, limit, v, gone);
    forall g, k | g in gone + {v} && k in pool - (gone + {v}) && g < |s.blocks| && k < |s.blocks|
      ensures s.blocks[g].lastAccessed < s.blocks[k].lastAccessed
    {
      if g == v {
        assert k in pool;
      } else {
        TrimOlder(s, t, pool, limit, v, gone, g, k);
      }
    }
  }

  lemma TrimOlder(s: Store, t: Store, pool: set<nat>, limit: nat, v: nat, gone: set<nat>, g: nat, k: nat)
    requires v < |s.blocks| && g < |s.blocks| && k < |s.blocks|
    requires TrimmedTo(Purge(s, v), t, pool - {v}, limit, gone)
    requires g in gone && k in pool - {v} - gone
    ensures s.blocks[g].lastAccessed < s.blocks[k].lastAccessed
  {
    hide PurgedTo;
    assert |Purge(s, v).blocks| == |s.blocks|;
  }

  lemma TrimCount(pool: set<nat>, limit: nat, v: nat, gone: set<nat>)
    requires v in pool && |pool| > limit
    requires |(pool - {v}) - gone| == Min(|pool - {v}|, limit)
    ensures |pool - (gone + {v})| == Min(|pool|, limit)
  {
    assert pool - (gone + {v}) == (pool - {v}) - gone;
    assert |pool - {v}| == |pool| - 1;
  }

  lemma TrimOneMorePurged(s: Store, t: Store, v: nat, gone: set<nat>, bs: nat)
    requires Valid(s, bs) && v in s.cached && v < |s.blocks|
    requires PurgedTo(Purge(s, v), t, gone)
    ensures PurgedTo(s, t, gone + {v})
  {
    PurgedOneMore(s, s, {}, v, bs) by { PurgedNothing(s); }
    hide *;
    assert {} + {v} + gone == gone + {v};
    PurgedCompose(s, Purge(s, v), t, {} + {v}, gone);
  }

  lemma PurgedInNamespace(s: Store, t: Store, gone: set<nat>, namespace: string)
    requires PurgedTo(s, t, gone)
    ensures InNamespace(t, namespace) == InNamespace(s, namespace) - gone
  {
  }

  lemma PurgeInNamespace(s: Store, v: nat, namespace: string, bs: nat)
    requires Valid(s, bs) && v in s.cached && v < |s.blocks|
    ensures InNamespace(Purge(s, v), namespace) == InNamespace(s, namespace) - {v}
  {
  }

  lemma TrimNothing(s: Store, pool: set<nat>, limit: nat)
    requires NoDup(s.free) && |pool| <= limit
    ensures TrimmedTo(s, s, pool, limit, {})
  {
    PurgedNothing(s);
    assert pool - {} == pool;
  }

  lemma NamespaceVictim(s: Store, c: CacheConfig, namespace: string) returns (v: nat)
    requires Valid(s, c.blockSize) && 0 < c.maxCachedPerNamespace < |InNamespace(s, namespace)|
    ensures v in s.cached && v < |s.blocks| && Valid(Purge(s, v), c.blockSize)
    ensures DistinctTicks(s, InNamespace(s, namespace)) && IsLru(s, InNamespace(s, namespace), v)
    ensures InNamespace(s, namespace) <= s.cached
    ensures InNamespace(Purge(s, v), namespace) == InNamespace(s, namespace) - {v}
    ensures |Purge(s, v).cached| < |s.cached|
    ensures EnforceNamespace(s, c, namespace) == EnforceNamespace(Purge(s, v), c, namespace)
  {
    v := Lru(s, InNamespace(s, namespace));
    PurgeKeepsValid(s, c.blockSize, v);
    PurgeInNamespace(s, v, namespace, c.blockSize);
  }

  lemma {:induction false} NamespaceTrims(s: Store, c: CacheConfig, namespace: string)
    returns (gone: set<nat>)
    requires Valid(s, c.blockSize) && c.maxCachedPerNamespace > 0
    ensures TrimmedTo(s, EnforceNamespace(s, c, namespace), InNamespace(s, namespace),
                      c.maxCachedPerNamespace, gone)
    decreases |s.cached|
  {
    var ids := InNamespace(s, namespace);
    if |ids| <= c.maxCachedPerNamespace {
      gone := {};
      TrimNothing(s, ids, c.maxCachedPerNamespace);
    } else {
      hide *;
      var v := NamespaceVictim(s, c, namespace);
      var g := NamespaceTrims(Purge(s, v), c, namespace);
      TrimOneMore(s, EnforceNamespace(s, c, namespace), ids, c.maxCachedPerNamespace, v, g, c.blockSize);
      gone := g + {v};
    }
  }

  /** Exactly the oldest cached blocks that carry this namespace go, as many as there are over the quota. */
  lemma EnforceNamespaceTrims(s: Store, c: CacheConfig, namespace: string) returns (gone: set<nat>)
    requires Valid(s, c.blockSize) && c.maxCachedPerNamespace > 0
    ensures var pool := set id | id in s.cached && id < |s.blocks| && s.blocks[id].namespace == namespace;
            TrimmedTo(s, EnforceNamespace(s, c, namespace), pool, c.maxCachedPerNamespace, gone)
  {
    hide Valid, EnforceNamespace, TrimmedTo;
    assert InNamespace(s, namespace)
        == set id | id in s.cached && id < |s.blocks| && s.blocks[id].namespace == namespace;
    gone := NamespaceTrims(s, c, namespace);
  }

  lemma {:induction false} EnforceGlobalTrims(s: Store, c: CacheConfig) returns (gone: set<nat>)
    requires Valid(s, c.blockSize) && c.maxCached > 0
    ensures TrimmedTo(s, EnforceGlobal(s, c), s.cached, c.maxCached, gone)
    decreases |s.cached|
  {
    if |s.cached| <= c.maxCached {
      gone := {};
      PurgedNothing(s);
      assert s.cached - gone == s.cached;
    } else {
      var v := Lru(s, s.cached);
      PurgeKeepsValid(s, c.blockSize, v);
      var g := EnforceGlobalTrims(Purge(s, v), c);
      assert Purge(s, v).cached == s.cached - {v};
      TrimOneMore(s, EnforceGlobal(s, c), s.cached, c.maxCached, v, g, c.blockSize);
      gone := g + {v};
    }
  }

  lemma EnforceNamespacePurges(s: Store, c: CacheConfig, namespace: string) returns (gone: set<nat>)
    requires Valid(s, c.blockSize)
    ensures PurgedTo(s, EnforceNamespace(s, c, namespace), gone)
    ensures c.maxCachedPerNamespace > 0 ==>
              |InNamespace(EnforceNamespace(s, c, namespace), namespace)| <= c.maxCachedPerNamespace
  {
    if c.maxCachedPerNamespace > 0 {
      gone := NamespaceTrims(s, c, namespace);
      PurgedInNamespace(s, EnforceNamespace(s, c, namespace), gone, namespace);
    } else {
      gone := {};
      PurgedNothing(s);
    }
  }

  lemma EnforceGlobalPurges(s: Store, c: CacheConfig) returns (gone: set<nat>)
    requires Valid(s, c.blockSize)
    ensures PurgedTo(s, EnforceGlobal(s, c), gone)
    ensures c.maxCached > 0 ==> |EnforceGlobal(s, c).cached| <= c.maxCached
  {
    if c.maxCached > 0 {
      gone := EnforceGlobalTrims(s, c);
    } else {
      gone := {};
      PurgedNothing(s);
    }
  }

  /** Both quotas together: some idle blocks are cleared, never a live one. */
  lemma EnforceBothPurges(s: Store, c: CacheConfig, namespace: string) returns (gone: set<nat>)
    requires Valid(s, c.blockSize)
    ensures Valid(EnforceNamespace(s, c, namespace), c.blockSize)
    ensures PurgedTo(s, EnforceGlobal(EnforceNamespace(s, c, namespace), c), gone)
  {
    var t := EnforceNamespace(s, c, namespace);
    var first := EnforceNamespacePurges(s, c, namespace);
    PurgedKeepsValid(s, t, first, c.blockSize);
    var second := EnforceGlobalPurges(t, c);
    PurgedCompose(s, t, EnforceGlobal(t, c), first, second);
    gone := first + second;
  }

  /** Enforcing both quotas restores both, if only this namespace gained a block. */
  lemma EnforceBothKeepsQuotas(s: Store, c: CacheConfig, namespace: string)
    requires Valid(s, c.blockSize)
    requires c.maxCachedPerNamespace > 0 ==>
               forall ns | ns != namespace :: |InNamespace(s, ns)| <= c.maxCachedPerNamespace
    ensures Valid(EnforceNamespace(s, c, namespace), c.blockSize)
    ensures WithinQuotas(EnforceGlobal(EnforceNamespace(s, c, namespace), c), c)
  {
    var t := EnforceNamespace(s, c, namespace);
    var first := EnforceNamespacePurges(s, c, namespace);
    PurgedKeepsValid(s, t, first, c.blockSize);
    if c.maxCachedPerNamespace > 0 {
      forall ns ensures |InNamespace(t, ns)| <= c.maxCachedPerNamespace {
        hide *;
        PurgedInNamespace(s, t, first, ns);
        SubsetCount(InNamespace(t, ns), InNamespace(s, ns));
      }
    }
    var u := EnforceGlobal(t, c);
    var second := EnforceGlobalPurges(t, c);
    forall ns ensures |InNamespace(u, ns)| <= |InNamespace(t, ns)| {
      hide *;
      PurgedInNamespace(t, u, second, ns);
      SubsetCount(InNamespace(u, ns), InNamespace(t, ns));
    }
  }

  /* ---------- Releasing one reference ---------- */

  /** Dropping one reference, before quotas: the last one makes the block idle, cached if it
      is hashed and caching is on, free otherwise. */
  function DropRef(s: Store, c: CacheConfig, id: nat): Store
    requires id < |s.blocks| && s.blocks[id].refCount > 0
  {
    var b := s.blocks[id];
    if b.refCount > 1 then s.(blocks := s.blocks[id := b.(refCount := b.refCount - 1)])
    else
      var idle := b.(refCount := 0, lastAccessed := s.clock + 1);
      if c.enablePrefixCache && b.hash != -1 then
        s.(blocks := s.blocks[id := idle], clock := s.clock + 1,
           used := s.used - {id}, cached := s.cached + {id})
      else
        s.(blocks := s.blocks[id := Cleared(idle)], clock := s.clock + 1,
           used := s.used - {id}, index := RemoveMapping(s.index, b.hash, id), free := s.free + [id])
  }

  predicate BecomesCached(s: Store, c: CacheConfig, id: nat)
    requires id < |s.blocks|
  {
    s.blocks[id].refCount == 1 && c.enablePrefixCache && s.blocks[id].hash != -1
  }

  lemma DropRefKeepsValid(s: Store, c: CacheConfig, id: nat)
    requires Valid(s, c.blockSize) && id < |s.blocks| && s.blocks[id].refCount > 0
    ensures Valid(DropRef(s, c, id), c.blockSize)
  {
    var t := DropRef(s, c, id);
    assert Placed(s, id);
    assert Partitioned(t) by {
      forall j | 0 <= j < |t.blocks| ensures Placed(t, j) { assert Placed(s, j); }
    }
    hide Partitioned, Placed;
    assert IndexSound(t) && Shaped(t, c.blockSize) && Ticked(t);
  }

  lemma DropRefSteps(s: Store, c: CacheConfig, id: nat)
    requires Valid(s, c.blockSize) && id < |s.blocks| && s.blocks[id].refCount > 0
    ensures var t := DropRef(s, c, id);
            Shrinks(s, t) && Counted(s, t, multiset{id}, multiset{})
  {
    hide Partitioned, IndexSound, Ticked;
  }

  lemma DropRefInNamespace(s: Store, c: CacheConfig, id: nat, namespace: string)
    requires Valid(s, c.blockSize) && id < |s.blocks| && s.blocks[id].refCount > 0
    requires BecomesCached(s, c, id) ==> namespace != s.blocks[id].namespace
    ensures InNamespace(DropRef(s, c, id), namespace) <= InNamespace(s, namespace)
  {
    assert Placed(s, id);
  }

  lemma EnforceNamespaceKeepsValid(s: Store, c: CacheConfig, namespace: string)
    requires Valid(s, c.blockSize)
    ensures Valid(EnforceNamespace(s, c, namespace), c.blockSize)
  {
    var _ := EnforceBothPurges(s, c, namespace);
  }

  ghost function EnforceQuotas(s: Store, c: CacheConfig, namespace: string): Store
    requires Valid(s, c.blockSize)
  {
    EnforceNamespaceKeepsValid(s, c, namespace);
    EnforceGlobal(EnforceNamespace(s, c, namespace), c)
  }

  ghost function Release(s: Store, c: CacheConfig, id: nat): Store
    requires Valid(s, c.blockSize) && id < |s.blocks| && s.blocks[id].refCount > 0
  {
    DropRefKeepsValid(s, c, id);
    if BecomesCached(s, c, id) then EnforceQuotas(DropRef(s, c, id), c, s.blocks[id].namespace)
    else DropRef(s, c, id)
  }

  lemma ReleasePurges(s: Store, c: CacheConfig, id: nat) returns (gone: set<nat>)
    requires Valid(s, c.blockSize) && id < |s.blocks| && s.blocks[id].refCount > 0
    ensures PurgedTo(DropRef(s, c, id), Release(s, c, id), gone)
    ensures !BecomesCached(s, c, id) ==> gone == {}
  {
    DropRefKeepsValid(s, c, id);
    if BecomesCached(s, c, id) {
      gone := EnforceBothPurges(DropRef(s, c, id), c, s.blocks[id].namespace);
    } else {
      gone := {};
      PurgedNothing(DropRef(s, c, id));
    }
  }

  lemma ReleaseKeepsValid(s: Store, c: CacheConfig, id: nat)
    requires Valid(s, c.blockSize) && id < |s.blocks| && s.blocks[id].refCount > 0
    ensures Valid(Release(s, c, id), c.blockSize)
  {
    DropRefKeepsValid(s, c, id);
    var gone := ReleasePurges(s, c, id);
    PurgedKeepsValid(DropRef(s, c, id), Release(s, c, id), gone, c.blockSize);
  }

  /** The quotas hold again after every release. */
  lemma ReleaseKeepsQuotas(s: Store, c: CacheConfig, id: nat)
    requires Valid(s, c.blockSize) && id < |s.blocks| && s.blocks[id].refCount > 0
    requires WithinQuotas(s, c)
    ensures WithinQuotas(Release(s, c, id), c)
  {
    DropRefKeepsValid(s, c, id);
    var t := DropRef(s, c, id);
    var namespace := s.blocks[id].namespace;
    forall ns | BecomesCached(s, c, id) ==> ns != namespace
      ensures |InNamespace(t, ns)| <= |InNamespace(s, ns)|
    {
      DropRefInNamespace(s, c, id, ns);
      SubsetCount(InNamespace(t, ns), InNamespace(s, ns));
    }
    hide Valid, InNamespace;
    if BecomesCached(s, c, id) {
      EnforceBothKeepsQuotas(t, c, namespace);
    } else {
      assert t.cached == s.cached;
    }
  }

  lemma ReleaseSteps(s: Store, c: CacheConfig, id: nat)
    requires Valid(s, c.blockSize) && id < |s.blocks| && s.blocks[id].refCount > 0
    ensures Shrinks(s, Release(s, c, id)) && Counted(s, Release(s, c, id), multiset{id}, multiset{})
  {
    var t := DropRef(s, c, id);
    DropRefKeepsValid(s, c, id);
    DropRefSteps(s, c, id);
    var gone := ReleasePurges(s, c, id);
    PurgedSteps(t, Release(s, c, id), gone);
    hide Valid, PurgedTo, Release, DropRef;
    ShrinksTrans(s, t, Release(s, c, id));
  }

  lemma ShrinksTrans(s: Store, t: Store, u: Store)
    requires Shrinks(s, t) && Shrinks(t, u)
    ensures Shrinks(s, u)
  {
  }

  lemma GrowsTrans(s: Store, t: Store, u: Store)
    requires Grows(s, t) && Grows(t, u)
    ensures Grows(s, u)
  {
  }

  /** Releasing a table, last block first. */
  ghost function ReleaseAll(s: Store, c: CacheConfig, table: seq<nat>): (t: Store)
    requires Valid(s, c.blockSize) && Holds(s, table)
    decreases |table|
  {
    if table == [] then s
    else
      var last := table[|table| - 1];
      assert multiset(table)[last] > 0;
      ReleaseKeepsValid(s, c, last);
      ReleaseKeepsHolds(s, c, table);
      ReleaseAll(Release(s, c, last), c, table[..|table| - 1])
  }

  /** Every occurrence of a block in the table is one of its references. */
  ghost predicate Holds(s: Store, table: seq<nat>) {
    && (forall i | 0 <= i < |table| :: table[i] < |s.blocks|)
    && (forall id | 0 <= id < |s.blocks| :: multiset(table)[id] <= s.blocks[id].refCount)
  }

  lemma ReleaseKeepsHolds(s: Store, c: CacheConfig, table: seq<nat>)
    requires Valid(s, c.blockSize) && Holds(s, table) && table != []
    ensures table[|table| - 1] < |s.blocks| && s.blocks[table[|table| - 1]].refCount > 0
    ensures Holds(Release(s, c, table[|table| - 1]), table[..|table| - 1])
  {
    var last := table[|table| - 1];
    var rest := table[..|table| - 1];
    assert table == rest + [last];
    assert multiset(table)[last] > 0;
    ReleaseSteps(s, c, last);
  }

  lemma ReleaseAllNext(s: Store, c: CacheConfig, table: seq<nat>, i: nat)
    requires Valid(s, c.blockSize) && i < |table| && Holds(s, table[..i + 1])
    ensures table[i] < |s.blocks| && s.blocks[table[i]].refCount > 0
    ensures var t := Release(s, c, table[i]);
            && Valid(t, c.blockSize) && Holds(t, table[..i])
            && ReleaseAll(s, c, table[..i + 1]) == ReleaseAll(t, c, table[..i])
  {
    var part := table[..i + 1];
    assert part[..i] == table[..i];
    ReleaseKeepsHolds(s, c, part);
    ReleaseKeepsValid(s, c, table[i]);
  }

  lemma {:induction false} ReleaseAllKeeps(s: Store, c: CacheConfig, table: seq<nat>)
    requires Valid(s, c.blockSize) && Holds(s, table)
    ensures var t := ReleaseAll(s, c, table);
            && Valid(t, c.blockSize) && Shrinks(s, t)
            && Counted(s, t, multiset(table), multiset{})
            && (WithinQuotas(s, c) ==> WithinQuotas(t, c))
    decreases |table|
  {
    if table != [] {
      var last := table[|table| - 1];
      var rest := table[..|table| - 1];
      assert table == rest + [last];
      assert multiset(table)[last] > 0;
      var m := Release(s, c, last);
      var t := ReleaseAll(s, c, table);
      ReleaseSteps(s, c, last);
      ReleaseKeepsValid(s, c, last);
      ReleaseKeepsHolds(s, c, table);
      if WithinQuotas(s, c) { ReleaseKeepsQuotas(s, c, last); }
      assert t == ReleaseAll(m, c, rest);
      hide Valid, Release, ReleaseAll, WithinQuotas, Holds;
      ReleaseAllKeeps(m, c, rest);
      ShrinksTrans(s, m, t);
    }
  }
}

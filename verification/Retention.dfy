/** Which blocks of a released chain stay cached: its beginning, as much as the quota allows. */
module Retention {
  import opened Blocks
  import opened BlockSteps
  import opened LanguageModel
  import opened Wrappers

  /** How far the cached stretch reaches when blocks i and up have been released. */
  function Upper(k: nat, i: nat, q: nat): nat {
    if k <= i + q then k else i + q
  }

  /** The first i blocks of the chain are live, hashed, owned once, and in the namespace. */
  ghost predicate Chained(s: Store, ns: string, chain: seq<nat>, i: nat) {
    i <= |chain| && forall a | 0 <= a < i ::
      && chain[a] < |s.blocks| && s.blocks[chain[a]].refCount == 1
      && s.blocks[chain[a]].hash != -1 && s.blocks[chain[a]].namespace == ns
  }

  /** Earlier blocks of the stretch were released later. */
  ghost predicate Descending(s: Store, chain: seq<nat>, i: nat, j: nat) {
    j <= |chain| && forall a, b | i <= a < b < j && chain[a] < |s.blocks| && chain[b] < |s.blocks| ::
      s.blocks[chain[a]].lastAccessed > s.blocks[chain[b]].lastAccessed
  }

  /** Blocks i and up have been released: what is cached of them is the stretch from i on. */
  ghost predicate Released(s: Store, ns: string, chain: seq<nat>, i: nat, q: nat) {
    && NoDup(chain) && Chained(s, ns, chain, i)
    && InNamespace(s, ns) == Elements(chain[i..Upper(|chain|, i, q)])
    && Descending(s, chain, i, Upper(|chain|, i, q))
  }

  lemma StretchCount(chain: seq<nat>, i: nat, j: nat)
    requires NoDup(chain) && i <= j <= |chain|
    ensures |Elements(chain[i..j])| == j - i
  {
    NoDupCount(chain[i..j]);
  }

  lemma StretchMember(chain: seq<nat>, i: nat, j: nat, x: nat)
    requires i <= j <= |chain|
    ensures x in Elements(chain[i..j]) <==> exists a :: i <= a < j && chain[a] == x
  {
    if x in chain[i..j] {
      var b :| 0 <= b < |chain[i..j]| && chain[i..j][b] == x;
      assert chain[i + b] == x;
    }
    if a :| i <= a < j && chain[a] == x { assert chain[i..j][a - i] == x; }
  }

  /** Dropping the last reference to block i - 1 puts it at the front of the stretch. */
  lemma DroppedInFront(s: Store, c: CacheConfig, ns: string, chain: seq<nat>, i: nat, q: nat)
    requires Valid(s, c.blockSize) && c.enablePrefixCache && i > 0 && Released(s, ns, chain, i, q)
    ensures i <= |chain| && chain[i - 1] < |s.blocks| && s.blocks[chain[i - 1]].refCount == 1
    ensures s.blocks[chain[i - 1]].hash != -1 && s.blocks[chain[i - 1]].namespace == ns
    ensures var t, u := DropRef(s, c, chain[i - 1]), Upper(|chain|, i, q);
            && InNamespace(t, ns) == Elements(chain[i - 1..u]) && Descending(t, chain, i - 1, u)
            && Chained(t, ns, chain, i - 1)
  {
    var id, u := chain[i - 1], Upper(|chain|, i, q);
    var t := DropRef(s, c, id);
    assert chain[i - 1..u] == [id] + chain[i..u];
    assert Elements([id] + chain[i..u]) == {id} + Elements(chain[i..u]);
    assert InNamespace(t, ns) == InNamespace(s, ns) + {id};
    forall b | i <= b < u && chain[b] < |s.blocks| ensures chain[b] != id { }
  }

  /** The stretch's last block is the least recently used one. */
  lemma LastIsOldest(t: Store, ns: string, chain: seq<nat>, i: nat, u: nat, bs: nat)
    requires Valid(t, bs) && NoDup(chain) && i < u <= |chain| && Descending(t, chain, i, u)
    requires InNamespace(t, ns) == Elements(chain[i..u])
    ensures chain[u - 1] in InNamespace(t, ns) && DistinctTicks(t, InNamespace(t, ns))
    ensures chain[u - 1] == Lru(t, InNamespace(t, ns))
  {
    var ids, v := InNamespace(t, ns), chain[u - 1];
    StretchMember(chain, i, u, v);
    forall j | j in ids ensures t.blocks[v].lastAccessed <= t.blocks[j].lastAccessed {
      StretchMember(chain, i, u, j);
    }
    LruUnique(t, ids, v);
  }

  /** Evicting it leaves the stretch without its last block. */
  lemma EvictedLast(t: Store, ns: string, chain: seq<nat>, i: nat, u: nat, bs: nat)
    requires Valid(t, bs) && NoDup(chain) && i < u <= |chain| && Descending(t, chain, i, u)
    requires InNamespace(t, ns) == Elements(chain[i..u]) && Chained(t, ns, chain, i)
    ensures chain[u - 1] < |t.blocks|
    ensures var p := Purge(t, chain[u - 1]);
            && InNamespace(p, ns) == Elements(chain[i..u - 1]) && Descending(p, chain, i, u - 1)
            && Chained(p, ns, chain, i)
  {
    StretchMember(chain, i, u, chain[u - 1]);
    var p := Purge(t, chain[u - 1]);
    assert chain[i..u] == chain[i..u - 1] + [chain[u - 1]];
    StretchMember(chain, i, u - 1, chain[u - 1]);
    assert InNamespace(p, ns) == InNamespace(t, ns) - {chain[u - 1]};
  }

  /** The quota then leaves the stretch from i - 1 on. */
  lemma {:induction false} ReleaseNext(s: Store, c: CacheConfig, ns: string, chain: seq<nat>, i: nat)
    requires Valid(s, c.blockSize) && c.enablePrefixCache && c.maxCached == 0 && c.maxCachedPerNamespace > 0
    requires i > 0 && Released(s, ns, chain, i, c.maxCachedPerNamespace)
    ensures chain[i - 1] < |s.blocks| && s.blocks[chain[i - 1]].refCount == 1
    ensures Released(Release(s, c, chain[i - 1]), ns, chain, i - 1, c.maxCachedPerNamespace)
  {
    hide DropRef, Valid, Purge, InNamespace, Descending, Release, EnforceNamespace, Lru, DistinctTicks, Chained, NoDup,
         Elements;
    var q := c.maxCachedPerNamespace;
    ReleasedBound(s, ns, chain, i, q);
    var id, u := chain[i - 1], Upper(|chain|, i, q);
    DroppedInFront(s, c, ns, chain, i, q);
    DropRefKeepsValid(s, c, id);
    var t := DropRef(s, c, id);
    ReleaseIs(s, c, ns, id);
    StretchCount(chain, i - 1, u);
    if u - (i - 1) <= q {
      NothingOver(t, c, ns);
    } else {
      LastIsOldest(t, ns, chain, i - 1, u, c.blockSize);
      EvictedLast(t, ns, chain, i - 1, u, c.blockSize);
      StretchCount(chain, i - 1, u - 1);
      PurgedOldest(t, c, ns, chain[u - 1]);
    }
  }

  lemma ReleaseIs(s: Store, c: CacheConfig, ns: string, id: nat)
    requires Valid(s, c.blockSize) && c.enablePrefixCache && c.maxCached == 0 && id < |s.blocks|
    requires s.blocks[id].refCount == 1 && s.blocks[id].hash != -1 && s.blocks[id].namespace == ns
    ensures Valid(DropRef(s, c, id), c.blockSize)
    ensures Release(s, c, id) == EnforceNamespace(DropRef(s, c, id), c, ns)
  {
    DropRefKeepsValid(s, c, id);
  }

  lemma NothingOver(t: Store, c: CacheConfig, ns: string)
    requires Valid(t, c.blockSize) && |InNamespace(t, ns)| <= c.maxCachedPerNamespace
    ensures EnforceNamespace(t, c, ns) == t
  {
  }

  /** One eviction brings a namespace that is one over its quota back to it. */
  lemma PurgedOldest(t: Store, c: CacheConfig, ns: string, v: nat)
    requires Valid(t, c.blockSize) && v in InNamespace(t, ns) && v < |t.blocks|
    requires DistinctTicks(t, InNamespace(t, ns)) && v == Lru(t, InNamespace(t, ns))
    requires |InNamespace(t, ns)| > c.maxCachedPerNamespace > 0
    requires |InNamespace(Purge(t, v), ns)| <= c.maxCachedPerNamespace
    ensures EnforceNamespace(t, c, ns) == Purge(t, v)
  {
    PurgeKeepsValid(t, c.blockSize, v);
  }

  lemma {:induction false} ReleaseRest(s: Store, c: CacheConfig, ns: string, chain: seq<nat>, i: nat)
    requires Valid(s, c.blockSize) && c.enablePrefixCache && c.maxCached == 0 && c.maxCachedPerNamespace > 0
    requires Released(s, ns, chain, i, c.maxCachedPerNamespace) && Holds(s, chain[..i])
    ensures Released(ReleaseAll(s, c, chain[..i]), ns, chain, 0, c.maxCachedPerNamespace)
    decreases i
  {
    hide Valid, Released, Release, Holds;
    if i > 0 {
      ReleasedBound(s, ns, chain, i, c.maxCachedPerNamespace);
      ReleaseNext(s, c, ns, chain, i);
      ReleaseAllNext(s, c, chain, i - 1);
      ReleaseRest(Release(s, c, chain[i - 1]), c, ns, chain, i - 1);
    } else {
      assert chain[..i] == [];
    }
  }

  lemma ReleasedBound(s: Store, ns: string, chain: seq<nat>, i: nat, q: nat)
    requires Released(s, ns, chain, i, q)
    ensures i <= |chain|
  {
  }

  /** A chain of hashed blocks with one owner, released into an empty namespace with quota q: its
      first q blocks stay cached, with their hashes, and no others. */
  lemma ChainBeginningStays(s: Store, c: CacheConfig, ns: string, chain: seq<nat>)
    requires Valid(s, c.blockSize) && c.enablePrefixCache && c.maxCached == 0 && c.maxCachedPerNamespace > 0
    requires NoDup(chain) && Chained(s, ns, chain, |chain|) && InNamespace(s, ns) == {} && Holds(s, chain)
    ensures var t, kept := ReleaseAll(s, c, chain), chain[..Min(|chain|, c.maxCachedPerNamespace)];
            && InNamespace(t, ns) == Elements(kept)
            && forall id | id in kept && id < |s.blocks| && id < |t.blocks| ::
                 t.blocks[id].hash == s.blocks[id].hash && t.blocks[id].tokenIds == s.blocks[id].tokenIds
  {
    var t, q := ReleaseAll(s, c, chain), c.maxCachedPerNamespace;
    var kept := chain[..Min(|chain|, q)];
    assert chain[..|chain|] == chain && chain[|chain|..Upper(|chain|, |chain|, q)] == [];
    assert Elements<nat>([]) == {};
    ReleaseRest(s, c, ns, chain, |chain|);
    ReleaseAllKeeps(s, c, chain);
    assert chain[0..Upper(|chain|, 0, q)] == kept;
    forall id | id in kept && id < |s.blocks| && id < |t.blocks|
      ensures t.blocks[id].hash == s.blocks[id].hash && t.blocks[id].tokenIds == s.blocks[id].tokenIds
    {
      assert id in InNamespace(t, ns) && Placed(t, id);
    }
  }
}

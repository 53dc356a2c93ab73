/** The paged KV-block allocator with its prefix cache, updating its fields in place. */
module BlockManagers {
  import opened Arithmetic
  import opened Blocks
  import opened BlockClaims
  import opened BlockSteps
  import opened Hashing
  import opened LanguageModel
  import opened PrefixCache
  import opened Sequences
  import opened Wrappers

  class BlockManager {
    const cfg: CacheConfig
    const hasher: Hasher
    var blocks: seq<Block>
    var hashToBlockId: map<int, nat>
    var freeBlockIds: seq<nat>
    var cachedBlockIds: set<nat>
    var usedBlockIds: set<nat>
    var clock: nat

    function State(): Store
      reads this
    {
      Store(blocks, hashToBlockId, freeBlockIds, cachedBlockIds, usedBlockIds, clock)
    }

    ghost predicate Ok()
      reads this
    {
      cfg.blockSize > 0 && Valid(State(), cfg.blockSize) && WithinQuotas(State(), cfg)
    }

    constructor (numBlocks: nat, cfg: CacheConfig, hasher: Hasher)
      requires numBlocks > 0 && cfg.blockSize > 0
      ensures Ok() && this.cfg == cfg && this.hasher == hasher
      ensures |blocks| == numBlocks && usedBlockIds == {} && cachedBlockIds == {} && clock == 0
      ensures forall id | 0 <= id < numBlocks :: blocks[id].refCount == 0 && blocks[id].hash == -1
    {
      this.cfg, this.hasher := cfg, hasher;
      blocks := seq(numBlocks, _ => Block(0, -1, None, "", 0, None));
      hashToBlockId := map[];
      freeBlockIds := seq(numBlocks, i requires 0 <= i => i);
      cachedBlockIds, usedBlockIds := {}, {};
      clock := 0;
      new;
      forall id | 0 <= id < numBlocks ensures Placed(State(), id) { assert freeBlockIds[id] in freeBlockIds; }
      assert forall ns :: InNamespace(State(), ns) == {};
    }

    method PurgeCachedBlock(id: nat)
      requires id in cachedBlockIds && id < |blocks|
      modifies this
      ensures State() == Purge(old(State()), id)
      ensures blocks[id] == Block(0, -1, None, "", old(blocks)[id].lastAccessed, None)
    {
      var block := blocks[id];
      cachedBlockIds := cachedBlockIds - {id};
      RemoveHashMapping(id);
      blocks := blocks[id := Cleared(block)];
      freeBlockIds := freeBlockIds + [id];
    }

    method RemoveHashMapping(id: nat)
      requires id < |blocks|
      modifies this`hashToBlockId
      ensures hashToBlockId == RemoveMapping(old(hashToBlockId), blocks[id].hash, id)
    {
      var hash := blocks[id].hash;
      if hash != -1 && hash in hashToBlockId && hashToBlockId[hash] == id {
        hashToBlockId := hashToBlockId - {hash};
      }
    }

    /** Purges cached blocks of one namespace, or of all: every one, or only the expired. */
    method PurgeWhere(namespace: Option<string>, expiredAt: Option<real>) returns (purged: nat)
      requires Ok()
      modifies this
      ensures Ok() && PurgedTo(old(State()), State(), Selected(old(State()), namespace, expiredAt))
      ensures purged == |Selected(old(State()), namespace, expiredAt)|
      ensures forall id | id in old(cachedBlockIds) ::
                var block := old(blocks)[id];
                id !in cachedBlockIds <==>
                  && (namespace.None? || namespace == Some(block.namespace))
                  && (expiredAt.None? || (block.expiresAt.Some? && block.expiresAt.value <= expiredAt.value))
    {
      hide Valid, WithinQuotas, PurgedTo, IsSelected, Selected;
      ghost var before := State();
      var todo := cachedBlockIds;
      ghost var gone: set<nat> := {};
      purged := 0;
      PurgeBegins();
      while todo != {}
        invariant Ok() && todo <= cachedBlockIds && PurgedTo(before, State(), gone) && |blocks| == |before.blocks|
        invariant forall id :: id in gone <==> id in Selected(before, namespace, expiredAt) && id !in todo
        invariant purged == |gone|
        decreases todo
      {
        var id :| id in todo;
        PurgeAdvances(before, State(), gone, id, cfg);
        SelectedMember(before, namespace, expiredAt, id);
        todo := todo - {id};
        if IsSelected(blocks[id], namespace, expiredAt) {
          PurgeCachedBlock(id);
          gone := gone + {id};
          purged := purged + 1;
        }
      }
      assert gone == Selected(before, namespace, expiredAt);
      assert cachedBlockIds == before.cached - gone by { PurgedCached(before, State(), gone); }
      SelectedAre(before, namespace, expiredAt);
    }

    lemma SelectedAre(s: Store, namespace: Option<string>, expiredAt: Option<real>)
      requires Valid(s, cfg.blockSize)
      ensures forall id | id in s.cached ::
                && id < |s.blocks|
                && var block := s.blocks[id];
                   id in Selected(s, namespace, expiredAt) <==>
                     && (namespace.None? || namespace == Some(block.namespace))
                     && (expiredAt.None? || (block.expiresAt.Some? && block.expiresAt.value <= expiredAt.value))
    {
    }

    lemma PurgedCached(s: Store, t: Store, gone: set<nat>)
      requires PurgedTo(s, t, gone)
      ensures t.cached == s.cached - gone
    {
    }

    lemma PurgeBegins()
      requires Ok()
      ensures PurgedTo(State(), State(), {})
      ensures forall namespace, expiredAt :: Selected(State(), namespace, expiredAt) <= cachedBlockIds
    {
      PurgedNothing(State());
    }

    method PurgeExpired(now: real) returns (purged: nat)
      requires Ok()
      modifies this
      ensures Ok() && PurgedTo(old(State()), State(), Expired(old(State()), now))
      ensures purged == |Expired(old(State()), now)|
      ensures forall id | id in old(cachedBlockIds) ::
                var expiresAt := old(blocks)[id].expiresAt;
                id !in cachedBlockIds <==> expiresAt.Some? && expiresAt.value <= now
    {
      purged := PurgeWhere(None, Some(now));
    }

    /** Finds the least recently used block of a set of cached blocks. */
    method FindLru(ids: set<nat>) returns (v: nat)
      requires ids != {} && DistinctTicks(State(), ids)
      ensures v == Lru(State(), ids)
    {
      v :| v in ids;
      var todo := ids - {v};
      while todo != {}
        invariant v in ids && todo <= ids
        invariant forall j | j in ids - todo :: blocks[v].lastAccessed <= blocks[j].lastAccessed
        decreases todo
      {
        var j :| j in todo;
        todo := todo - {j};
        if blocks[j].lastAccessed < blocks[v].lastAccessed { v := j; }
      }
      LruUnique(State(), ids, v);
    }

    method EvictCachedBlock() returns (id: nat)
      requires Ok() && cachedBlockIds != {} && freeBlockIds == []
      modifies this
      ensures id == Lru(old(State()), old(cachedBlockIds)) && id < |blocks|
      ensures var t := Purge(old(State()), id);
              State() == t.(free := t.free[1..]) && t.free[0] == id
    {
      var victim := FindLru(cachedBlockIds);
      PurgeCachedBlock(victim);
      id := freeBlockIds[0];
      freeBlockIds := freeBlockIds[1..];
    }

    /** A block id to allocate: expired blocks are freed first, then, if still nothing is free,
        the least recently used cached block is evicted. */
    method TakeFreeBlockId(now: real) returns (id: nat, ghost mid: Store)
      requires Ok() && |usedBlockIds| < |blocks|
      modifies this
      ensures PurgedTo(old(State()), mid, Expired(old(State()), now))
      ensures Valid(mid, cfg.blockSize) && (mid.free != [] || mid.cached != {})
      ensures var e := EvictIfFull(mid);
              e.free != [] && id == e.free[0] && State() == e.(free := e.free[1..])
    {
      var _ := PurgeExpired(now);
      mid := State();
      PartitionCount(State());
      if freeBlockIds != [] {
        id := freeBlockIds[0];
        freeBlockIds := freeBlockIds[1..];
      } else {
        id := EvictCachedBlock();
      }
    }

    /** Claims one block for a sequence. */
    method AllocateNewBlock(now: real) returns (id: nat)
      requires Ok() && |usedBlockIds| < |blocks|
      modifies this
      ensures Ok() && AllocatedTo(old(State()), State(), [id], Expired(old(State()), now))
    {
      hide Valid, WithinQuotas, AllocatedTo, PurgedTo, Expired, EvictIfFull;
      ghost var before := State();
      ghost var mid;
      id, mid := TakeFreeBlockId(now);
      ghost var first := AllocateStep(before, mid, Expired(before, now), cfg);
      clock := clock + 1;
      blocks := blocks[id := blocks[id].(refCount := 1, hash := -1, tokenIds := None, lastAccessed := clock)];
      usedBlockIds := usedBlockIds + {id};
      cachedBlockIds := cachedBlockIds - {id};
      assert State() == AllocateHead(EvictIfFull(mid));
    }

    method AvailableBlocks(now: real) returns (n: nat)
      requires Ok()
      modifies this
      ensures Ok() && PurgedTo(old(State()), State(), Expired(old(State()), now))
      ensures n == |blocks| - |usedBlockIds|
    {
      var _ := PurgeExpired(now);
      PartitionCount(State());
      n := |freeBlockIds| + |cachedBlockIds|;
    }

    /** Whether s could grow to target tokens while leaving reserve blocks for others. */
    method CanAllocate(s: Sequence, target: nat, reserve: nat, now: real) returns (ok: bool)
      requires Ok()
      modifies this
      ensures Ok() && PurgedTo(old(State()), State(), Expired(old(State()), now))
      ensures ok <==> Missing(s.blockTable, target, cfg.blockSize)
                      <= Max(0, |blocks| - |usedBlockIds| - reserve)
    {
      var available := AvailableBlocks(now);
      var missing := Max(0, NumBlocks(target, cfg.blockSize) - |s.blockTable|);
      ok := missing <= Max(0, available - reserve);
    }

    method AppendNewBlock(s: Sequence, now: real) returns (id: nat)
      requires Ok() && |usedBlockIds| < |blocks|
      modifies this, s`blockTable
      ensures Ok() && AllocatedTo(old(State()), State(), [id], Expired(old(State()), now))
      ensures s.blockTable == old(s.blockTable) + [id]
    {
      id := AllocateNewBlock(now);
      s.blockTable := s.blockTable + [id];
    }

    /** Grows s's table to cover target tokens: exactly the missing blocks are claimed. */
    method EnsureBlocks(s: Sequence, target: nat, now: real) returns (ghost taken: seq<nat>)
      requires Ok() && target > 0
      requires Missing(s.blockTable, target, cfg.blockSize) <= |blocks| - |usedBlockIds|
      modifies this, s`blockTable
      ensures Ok() && AllocatedTo(old(State()), State(), taken, Expired(old(State()), now))
      ensures s.blockTable == old(s.blockTable) + taken
      ensures |taken| == Missing(old(s.blockTable), target, cfg.blockSize)
    {
      ghost var before, table := State(), s.blockTable;
      var needed := NumBlocks(target, cfg.blockSize);
      taken := [];
      AllocatedNothing(before, Expired(before, now));
      hide Valid, WithinQuotas, AllocatedTo, NumBlocks;
      while |s.blockTable| < needed
        invariant Ok() && AllocatedTo(before, State(), taken, Expired(before, now))
        invariant s.blockTable == table + taken
        invariant |taken| <= Missing(table, target, cfg.blockSize)
        decreases needed - |s.blockTable|
      {
        ghost var middle := State();
        TakenCount(before, middle, taken, Expired(before, now));
        var id := AppendNewBlock(s, now);
        AllocatedThen(before, middle, State(), taken, id, now, cfg);
        AppendAssoc(table, taken, id);
        taken := taken + [id];
      }
    }

    method AttachCachedBlock(id: nat, s: Sequence, now: real)
      requires id < |blocks| && Partitioned(State())
      modifies this
      ensures State() == Attach(old(State()), id, Expiry(s.req.ttl, now))
      ensures blocks[id].expiresAt == if s.req.ttl.None? then None else Some(now + s.req.ttl.value)
    {
      var block := blocks[id];
      assert Placed(State(), id);
      if block.refCount == 0 {
        cachedBlockIds := cachedBlockIds - {id};
        usedBlockIds := usedBlockIds + {id};
      }
      clock := clock + 1;
      blocks := blocks[id := block.(refCount := block.refCount + 1, lastAccessed := clock,
                                    expiresAt := Expiry(s.req.ttl, now))];
    }

    /** Attaches s's block i from the cache and counts its prompt tokens as read. */
    method AttachNext(id: nat, s: Sequence, i: nat, now: real)
      requires id < |blocks| && Partitioned(State())
      modifies this, s
      ensures State() == Attach(old(State()), id, Expiry(s.req.ttl, now))
      ensures var v := old(s.View());
              s.View() == v.(table := v.table + [id],
                             numCached := v.numCached + cfg.blockSize,
                             numComputed := v.numComputed + cfg.blockSize,
                             cacheRead := v.cacheRead + v.PromptTokens(i, cfg.blockSize))
    {
      AttachCachedBlock(id, s, now);
      s.blockTable := s.blockTable + [id];
      s.numCachedTokens := s.numCachedTokens + cfg.blockSize;
      s.numComputedTokens := s.numComputedTokens + cfg.blockSize;
      s.cacheReadInputTokens := s.cacheReadInputTokens + s.View().PromptTokens(i, cfg.blockSize);
    }

    /** Attaches s's block i if a block with this hash and these tokens is indexed. */
    method AttachIfCached(s: Sequence, i: nat, hash: int, toks: seq<Token>, now: real) returns (hit: bool)
      requires Partitioned(State()) && (hash in hashToBlockId ==> hashToBlockId[hash] < |blocks|)
      modifies this, s
      ensures hit <==> hash in old(hashToBlockId) && old(blocks[hashToBlockId[hash]].tokenIds) == Some(toks)
      ensures !hit ==> State() == old(State()) && s.View() == old(s.View())
      ensures hit ==>
                && old(hashToBlockId)[hash] < |old(blocks)|
                && State() == Attach(old(State()), old(hashToBlockId)[hash], Expiry(s.req.ttl, now))
                && var v := old(s.View());
                   s.View() == v.(table := v.table + [old(hashToBlockId)[hash]],
                                  numCached := v.numCached + cfg.blockSize,
                                  numComputed := v.numComputed + cfg.blockSize,
                                  cacheRead := v.cacheRead + v.PromptTokens(i, cfg.blockSize))
    {
      if hash !in hashToBlockId { return false; }
      var id := hashToBlockId[hash];
      if blocks[id].tokenIds != Some(toks) { return false; }
      AttachNext(id, s, i, now);
      hit := true;
    }

    /** Attaches the longest cached prefix of s, if s has no blocks yet. */
    method MatchCachedPrefix(s: Sequence, now: real) returns (ghost mid: Store)
      requires Ok() && s.prefillTargetTokens <= |s.tokenIds|
      modifies this, s
      ensures Ok() && MatchedTo(old(State()), mid, State(), cfg, hasher, old(s.View()), s.View(), now)
      ensures if old(s.blockTable) == [] && cfg.enablePrefixCache && s.req.cacheEnabled then
                Increasing(s.req.breakpoints) ==> Longest(mid, cfg, hasher, old(s.View()), |s.blockTable|)
              else State() == old(State()) && s.View() == old(s.View())
    {
      hide Longest, Increasing, Hit, HitBlock, MatchCount, MatchLimit, MatchedStore, Valid, WithinQuotas, PurgedTo, Selected;
      mid := State();
      if s.blockTable != [] || !cfg.enablePrefixCache || !s.req.cacheEnabled { return; }
      var v := s.View();
      s.ResetCacheUsage();
      var _ := PurgeExpired(now);
      mid := State();
      var limit := MatchLimit(cfg, v);
      MatchLoop(s, v, limit, now);
      if Increasing(v.req.breakpoints) { MatchIsLongest(mid, cfg, hasher, v); }
    }

    method MatchLoop(s: Sequence, ghost v: Seq, limit: nat, now: real)
      requires Ok() && v.table == [] && limit == MatchLimit(cfg, v)
      requires s.View() == v.(cacheRead := 0, cacheCreated := 0) && v.prefillTarget <= |v.tokens|
      modifies this, s
      ensures Ok()
      ensures var mid := old(State()); var k := MatchCount(mid, cfg, hasher, v);
              && (forall i | 0 <= i < k :: Hit(mid, hasher, cfg.blockSize, v, i)
                                           && HitBlock(mid, hasher, cfg.blockSize, v, i) < |mid.blocks|)
              && State() == MatchedStore(mid, cfg, hasher, v, k, now)
              && s.View() == MatchedSeq(mid, cfg, hasher, v, k)
    {
      hide Valid, Partitioned, WithinQuotas, Hit, HitBlock, MatchedStore, MatchIds, ChainAt, MatchCount,
           MatchLimit, Attach, Grows, Counted, InitialHash;
      ghost var mid := State();
      var bs := cfg.blockSize;
      var prefixHash := InitialHash(hasher, s.req.namespace);
      var i := 0;
      ChainAtZero(hasher, bs, v.req.namespace, v.tokens);
      MatchLimitLeavesLast(cfg, v);
      MatchedNone(mid, cfg, hasher, v, now);
      while i < limit
        invariant i <= limit && i * bs <= |v.tokens|
        invariant prefixHash == ChainAt(hasher, bs, v.req.namespace, v.tokens, i)
        invariant forall j | 0 <= j < i ::
                    Hit(mid, hasher, bs, v, j) && HitBlock(mid, hasher, bs, v, j) < |mid.blocks|
        invariant State() == MatchedStore(mid, cfg, hasher, v, i, now)
        invariant s.View() == MatchedSeq(mid, cfg, hasher, v, i)
      {
        MulMonotone(i + 1, limit, bs);
        ChainAtStep(hasher, bs, v.req.namespace, v.tokens, i);
        var toks := BlockOf(s.tokenIds, i, bs);
        prefixHash := hasher.Block(toks, prefixHash);
        LookupMeaning(mid, cfg, hasher, v, i, now);
        var hit := AttachIfCached(s, i, prefixHash, toks, now);
        if !hit { break; }
        MatchedNext(mid, cfg, hasher, v, i, now);
        i := i + 1;
      }
      MatchStops(mid, cfg, hasher, v, i);
      MatchedKeeps(mid, cfg, hasher, v, i, now);
    }

    /** How many prompt tokens a lookup would find cached now; nothing expires here. */
    method EstimateCachedPrefixTokens(s: Sequence) returns (n: nat)
      requires Ok() && s.prefillTargetTokens <= |s.tokenIds|
      ensures n == if cfg.enablePrefixCache && s.req.cacheEnabled
                   then MatchCount(State(), cfg, hasher, s.View()) * cfg.blockSize else 0
    {
      if !cfg.enablePrefixCache || !s.req.cacheEnabled { return 0; }
      ghost var st, v := State(), s.View();
      var bs := cfg.blockSize;
      var limit := MatchLimit(cfg, s.View());
      var prefixHash := InitialHash(hasher, s.req.namespace);
      var matched := 0;
      ChainAtZero(hasher, bs, v.req.namespace, v.tokens);
      MatchLimitLeavesLast(cfg, v);
      while matched < limit
        invariant matched <= limit && matched * bs <= |v.tokens|
        invariant prefixHash == ChainAt(hasher, bs, v.req.namespace, v.tokens, matched)
        invariant forall j | 0 <= j < matched :: Hit(st, hasher, bs, v, j)
      {
        MulMonotone(matched + 1, limit, bs);
        ChainAtStep(hasher, bs, v.req.namespace, v.tokens, matched);
        prefixHash := hasher.Block(BlockOf(s.tokenIds, matched, bs), prefixHash);
        if prefixHash !in hashToBlockId { break; }
        if blocks[hashToBlockId[prefixHash]].tokenIds != Some(BlockOf(s.tokenIds, matched, bs)) { break; }
        matched := matched + 1;
      }
      MatchStops(st, cfg, hasher, v, matched);
      n := matched * bs;
    }

    /** Blocks for the next prefill chunk: look the prefix up if s has none, then claim the rest.
        ok is false, and nothing is claimed, if the lookup has already passed the target. */
    method PreparePrefill(s: Sequence, target: nat, now: real)
      returns (ok: bool, ghost mid: Store, ghost matched: Store, ghost found: Seq, ghost taken: seq<nat>)
      requires Ok() && s.prefillTargetTokens <= |s.tokenIds| && target > 0
      requires Missing(s.blockTable, target, cfg.blockSize) <= |blocks| - |usedBlockIds|
      modifies this, s
      ensures Ok() && Valid(matched, cfg.blockSize)
      ensures MatchedTo(old(State()), mid, matched, cfg, hasher, old(s.View()), found, now)
      ensures ok <==> found.numComputed < target
      ensures ok ==> && AllocatedTo(matched, State(), taken, Expired(matched, now))
                     && |taken| == Missing(found.table, target, cfg.blockSize)
                     && s.View() == found.(table := found.table + taken)
      ensures !ok ==> State() == matched && s.View() == found
    {
      ghost var before, v := State(), s.View();
      mid := MatchCachedPrefix(s, now);
      matched, found, taken := State(), s.View(), [];
      ok := target > s.numComputedTokens;
      if ok {
        MatchSparesRoom(before, mid, matched, cfg, hasher, v, found, now, NumBlocks(target, cfg.blockSize));
        taken := EnsureBlocks(s, target, now);
      }
    }

    method CanAppend(s: Sequence, now: real) returns (ok: bool)
      requires Ok()
      modifies this
      ensures Ok() && PurgedTo(old(State()), State(), Expired(old(State()), now))
      ensures ok <==> Missing(s.blockTable, |s.tokenIds|, cfg.blockSize) <= |blocks| - |usedBlockIds|
    {
      PartitionCount(State());
      ok := CanAllocate(s, |s.tokenIds|, 0, now);
    }

    method MayAppend(s: Sequence, now: real) returns (ghost taken: seq<nat>)
      requires Ok() && s.tokenIds != []
      requires Missing(s.blockTable, |s.tokenIds|, cfg.blockSize) <= |blocks| - |usedBlockIds|
      modifies this, s`blockTable
      ensures Ok() && AllocatedTo(old(State()), State(), taken, Expired(old(State()), now))
      ensures s.blockTable == old(s.blockTable) + taken
      ensures |taken| == Missing(old(s.blockTable), |s.tokenIds|, cfg.blockSize)
    {
      taken := EnsureBlocks(s, |s.tokenIds|, now);
    }

    method EnforceNamespaceQuota(namespace: string)
      requires cfg.blockSize > 0 && Valid(State(), cfg.blockSize)
      modifies this
      ensures State() == EnforceNamespace(old(State()), cfg, namespace)
      ensures Valid(State(), cfg.blockSize)
    {
      EnforceNamespaceKeepsValid(State(), cfg, namespace);
      if cfg.maxCachedPerNamespace == 0 { return; }
      ghost var final := EnforceNamespace(State(), cfg, namespace);
      var ids := InNamespace(State(), namespace);
      while |ids| > cfg.maxCachedPerNamespace
        invariant Valid(State(), cfg.blockSize) && ids == InNamespace(State(), namespace)
        invariant EnforceNamespace(State(), cfg, namespace) == final
        decreases ids
      {
        ids := PurgeOldest(ids, namespace);
      }
    }

    /** Clears the least recently used block of a namespace that is over its quota. */
    method PurgeOldest(ids: set<nat>, ghost namespace: string) returns (rest: set<nat>)
      requires Valid(State(), cfg.blockSize) && ids == InNamespace(State(), namespace)
      requires 0 < cfg.maxCachedPerNamespace < |ids|
      modifies this
      ensures Valid(State(), cfg.blockSize) && rest == InNamespace(State(), namespace) && rest < ids
      ensures EnforceNamespace(State(), cfg, namespace) == old(EnforceNamespace(State(), cfg, namespace))
    {
      ghost var v := NamespaceVictim(State(), cfg, namespace);
      var victim := FindLru(ids);
      LruUnique(State(), ids, v);
      PurgeCachedBlock(victim);
      rest := ids - {victim};
    }

    method EnforceGlobalQuota()
      requires cfg.blockSize > 0 && Valid(State(), cfg.blockSize)
      modifies this
      ensures State() == EnforceGlobal(old(State()), cfg)
    {
      if cfg.maxCached == 0 { return; }
      ghost var final := EnforceGlobal(State(), cfg);
      while |cachedBlockIds| > cfg.maxCached
        invariant Valid(State(), cfg.blockSize)
        invariant EnforceGlobal(State(), cfg) == final
        decreases cachedBlockIds
      {
        var victim := FindLru(cachedBlockIds);
        PurgeKeepsValid(State(), cfg.blockSize, victim);
        PurgeCachedBlock(victim);
      }
    }

    /** Drops one reference to a block; the last one parks it in the cache or frees it. */
    method ReleaseBlock(id: nat)
      requires Ok() && id < |blocks| && blocks[id].refCount > 0
      modifies this
      ensures Ok() && State() == Release(old(State()), cfg, id)
    {
      hide Valid, WithinQuotas, EnforceNamespace, EnforceGlobal;
      ghost var before := State();
      DropRefKeepsValid(before, cfg, id);
      ReleaseKeepsValid(before, cfg, id);
      ReleaseKeepsQuotas(before, cfg, id);
      var block := blocks[id];
      blocks := blocks[id := block.(refCount := block.refCount - 1)];
      if block.refCount - 1 > 0 { return; }
      usedBlockIds := usedBlockIds - {id};
      clock := clock + 1;
      blocks := blocks[id := blocks[id].(lastAccessed := clock)];
      if cfg.enablePrefixCache && block.hash != -1 {
        cachedBlockIds := cachedBlockIds + {id};
        assert State() == DropRef(before, cfg, id);
        EnforceNamespaceQuota(block.namespace);
        EnforceGlobalQuota();
      } else {
        RemoveHashMapping(id);
        blocks := blocks[id := Cleared(blocks[id])];
        freeBlockIds := freeBlockIds + [id];
        assert State() == DropRef(before, cfg, id);
      }
    }

    /** Gives back all blocks of s, last block first, and forgets its progress. */
    method Deallocate(s: Sequence)
      requires Ok() && Holds(State(), s.blockTable)
      modifies this, s
      ensures Ok() && State() == ReleaseAll(old(State()), cfg, old(s.blockTable))
      ensures s.View() == Emptied(old(s.View()))
    {
      ghost var final := ReleaseAll(State(), cfg, s.blockTable);
      var i := |s.blockTable|;
      assert s.blockTable[..i] == s.blockTable;
      hide Valid, WithinQuotas, Holds, ReleaseAll, Release, Emptied;
      while i > 0
        invariant i <= |s.blockTable| && s.View() == old(s.View())
        invariant Ok() && Holds(State(), s.blockTable[..i])
        invariant ReleaseAll(State(), cfg, s.blockTable[..i]) == final
      {
        i := i - 1;
        ReleaseAllNext(State(), cfg, s.blockTable, i);
        ReleaseBlock(s.blockTable[i]);
      }
      assert s.blockTable[..i] == [];
      Forget(s);
    }

    method Forget(s: Sequence)
      modifies s
      ensures s.View() == Emptied(old(s.View()))
    {
      s.numCachedTokens, s.numComputedTokens := 0, 0;
      s.ResetCacheUsage();
      s.blockTable := [];
    }

    /** Hashes the computed whole blocks of s so that later sequences can attach them. */
    method CommitComputedTokens(s: Sequence, upTo: nat, now: real)
      requires Ok() && upTo <= |s.tokenIds| && upTo <= |s.blockTable| * cfg.blockSize
      requires Holds(State(), s.blockTable)
      requires OwnHashes(State(), cfg.blockSize, hasher, s.View(), |s.blockTable|)
      modifies this, s
      ensures Ok()
      ensures var v := old(s.View());
              && CanCommit(old(State()), cfg, v, CommitLimit(cfg, v, upTo))
              && var r := Committed(old(State()), cfg, hasher, v, upTo, now);
              && State() == r.store
              && s.View() == v.(cacheCreated := v.cacheCreated + r.created)
      ensures Increasing(s.req.breakpoints) ==>
                CachedTo(old(State()), State(), cfg, hasher, old(s.View()), upTo)
    {
      hide Valid, WithinQuotas, CommitUpTo, CommitStep, Holds, OwnHashes, CommitLimit, InitialHash, IndexSound, CanCommit,
           CachedTo, Increasing;
      ghost var before, v := State(), s.View();
      HeldBlocks(v.table);
      CommitStarts(before, cfg, hasher, v, upTo, now);
      var full := CommitLimit(cfg, s.View(), upTo);
      var prefixHash := InitialHash(hasher, s.req.namespace);
      var i := 0;
      ghost var created := 0;
      while i < full
        invariant i <= full && s.View() == v.(cacheCreated := v.cacheCreated + created)
        invariant i * cfg.blockSize <= |v.tokens| && CanCommit(before, cfg, v, i)
        invariant CommitState(State(), prefixHash, created) == CommitUpTo(before, cfg, hasher, v, i, now)
        invariant Ok()
      {
        CommitAdvances(before, cfg, hasher, v, s.View(), i, full, now);
        CommitReaches(before, cfg, v, i, full);
        prefixHash := CommitBlock(s, i, prefixHash, now);
        i := i + 1;
        created := CommitUpTo(before, cfg, hasher, v, i, now).created;
      }
      if Increasing(v.req.breakpoints) { CommitIsExact(before, cfg, hasher, v, upTo, now); }
    }

    lemma HeldBlocks(table: seq<nat>)
      requires Ok() && Holds(State(), table)
      ensures cfg.blockSize > 0 && forall i | 0 <= i < |table| :: table[i] < |blocks|
    {
    }

    lemma CommitReaches(before: Store, c: CacheConfig, v: Seq, i: nat, full: nat)
      requires i < full && CanCommit(before, c, v, full)
      ensures i < |v.table| && v.table[i] < |before.blocks|
    {
    }

    /** Hashes s's block i, unless it is hashed already or another block caches the same tokens. */
    method CommitBlock(s: Sequence, i: nat, prefixHash: int, now: real) returns (prefix: int)
      requires cfg.blockSize > 0 && IndexSound(State())
      requires i < |s.blockTable| && s.blockTable[i] < |blocks| && (i + 1) * cfg.blockSize <= |s.tokenIds|
      modifies this, s
      ensures var v := old(s.View());
              var r := CommitStep(CommitState(old(State()), prefixHash, 0), cfg, hasher, v, i, now);
              && State() == r.store && prefix == r.prefix
              && s.View() == v.(cacheCreated := v.cacheCreated + r.created)
      ensures var id := s.blockTable[i];
              old(blocks)[id].hash == -1 && blocks[id].hash != -1 ==>
                blocks[id].expiresAt == if s.req.ttl.None? then None else Some(now + s.req.ttl.value)
    {
      var id := s.blockTable[i];
      if blocks[id].hash != -1 { return blocks[id].hash; }
      var toks := BlockOf(s.tokenIds, i, cfg.blockSize);
      prefix := hasher.Block(toks, prefixHash);
      if prefix in hashToBlockId {
        var existing := hashToBlockId[prefix];
        if existing != id && blocks[existing].tokenIds == Some(toks) { return; }
      }
      clock := clock + 1;
      blocks := blocks[id := blocks[id].(hash := prefix, tokenIds := Some(toks), namespace := s.req.namespace,
                                         lastAccessed := clock, expiresAt := Expiry(s.req.ttl, now))];
      hashToBlockId := hashToBlockId[prefix := id];
      s.cacheCreationInputTokens := s.cacheCreationInputTokens + s.View().PromptTokens(i, cfg.blockSize);
    }
  }

  /** Blocks a table lacks to cover target tokens. */
  function Missing(table: seq<nat>, target: nat, bs: nat): nat
    requires bs > 0
  {
    Max(0, NumBlocks(target, bs) - |table|)
  }

  lemma TakenCount(s: Store, t: Store, taken: seq<nat>, expired: set<nat>)
    requires AllocatedTo(s, t, taken, expired)
    ensures |t.used| == |s.used| + |taken| && |t.blocks| == |s.blocks|
  {
    NoDupCount(taken);
    assert s.used !! Elements(taken);
  }

  /** A sequence without blocks and progress. */
  function Emptied(v: Seq): Seq {
    v.(table := [], numCached := 0, numComputed := 0, cacheRead := 0, cacheCreated := 0)
  }
}

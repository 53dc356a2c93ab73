/** What matching a cached prefix and committing computed blocks mean, as functions of the
    block store and the sequence. */
module PrefixCache {
  import opened Arithmetic
  import opened Blocks
  import opened BlockClaims
  import opened BlockSteps
  import opened Hashing
  import opened LanguageModel
  import opened Sequences
  import opened Wrappers

  /* ---------- Matching ---------- */

  /** Block k of v is cached: its chain hash is indexed, and the indexed block holds the same tokens. */
  predicate Hit(s: Store, h: Hasher, bs: nat, v: Seq, k: nat)
    requires bs > 0
  {
    (k + 1) * bs <= |v.tokens| &&
    var hash := ChainAt(h, bs, v.req.namespace, v.tokens, k + 1);
    && hash in s.index && s.index[hash] < |s.blocks|
    && s.blocks[s.index[hash]].tokenIds == Some(BlockOf(v.tokens, k, bs))
  }

  function HitBlock(s: Store, h: Hasher, bs: nat, v: Seq, k: nat): nat
    requires bs > 0
  {
    if Hit(s, h, bs, v, k) then s.index[ChainAt(h, bs, v.req.namespace, v.tokens, k + 1)] else 0
  }

  /** The end of the run of hits that starts at block k. */
  function LongestHit(s: Store, h: Hasher, bs: nat, v: Seq, k: nat, limit: nat): (r: nat)
    requires bs > 0
    ensures k <= limit ==> k <= r <= limit
    decreases limit - k
  {
    if k < limit && Hit(s, h, bs, v, k) then LongestHit(s, h, bs, v, k + 1, limit) else k
  }

  lemma {:induction false} LongestHitMeaning(s: Store, h: Hasher, bs: nat, v: Seq, k: nat, limit: nat)
    requires bs > 0 && k <= limit
    ensures var r := LongestHit(s, h, bs, v, k, limit);
            && (forall i | k <= i < r :: Hit(s, h, bs, v, i))
            && (r < limit ==> !Hit(s, h, bs, v, r))
    decreases limit - k
  {
    if k < limit && Hit(s, h, bs, v, k) { LongestHitMeaning(s, h, bs, v, k + 1, limit); }
  }

  lemma {:induction false} LongestHitFrom(s: Store, h: Hasher, bs: nat, v: Seq, k: nat, limit: nat)
    requires bs > 0 && k <= limit && forall i | 0 <= i < k :: Hit(s, h, bs, v, i)
    ensures LongestHit(s, h, bs, v, 0, limit) == LongestHit(s, h, bs, v, k, limit)
  {
    if k > 0 {
      LongestHitFrom(s, h, bs, v, k - 1, limit);
      assert Hit(s, h, bs, v, k - 1);
    }
  }

  /** How many blocks a lookup may use: whole blocks inside the cacheable boundary, and never the
      last token, which must be computed to sample from it. */
  function MatchLimit(c: CacheConfig, v: Seq): nat
    requires c.blockSize > 0
  {
    var maxTokens := Max(0, Min(MaxCacheable(v.req, v.prefillTarget), v.prefillTarget - 1));
    if maxTokens < c.minTokens then 0 else maxTokens / c.blockSize
  }

  lemma MatchLimitLeavesLast(c: CacheConfig, v: Seq)
    requires c.blockSize > 0
    ensures MatchLimit(c, v) > 0 ==> MatchLimit(c, v) * c.blockSize < v.prefillTarget
  {
    var maxTokens: nat := Max(0, Min(MaxCacheable(v.req, v.prefillTarget), v.prefillTarget - 1));
    var q := maxTokens / c.blockSize;
    assert maxTokens == c.blockSize * q + maxTokens % c.blockSize;
    assert q * c.blockSize == c.blockSize * q;
  }

  /** Block i may be looked up: it lies within the boundary b and does not reach the last token, and
      what may be looked up is not too short to be worth it. */
  ghost predicate MayMatch(c: CacheConfig, v: Seq, b: int, i: nat) {
    && (i + 1) * c.blockSize <= b && (i + 1) * c.blockSize < v.prefillTarget
    && c.minTokens <= b && c.minTokens < v.prefillTarget
  }

  /** A lookup may use exactly the blocks that may be looked up. */
  lemma MatchLimitExact(c: CacheConfig, v: Seq, b: int, i: nat)
    requires c.blockSize > 0 && Increasing(v.req.breakpoints) && IsBoundary(v.req, v.prefillTarget, b)
    ensures i < MatchLimit(c, v) <==> MayMatch(c, v, b, i)
  {
    hide MaxCacheable, IsBoundary, LastAtMost;
    BoundaryUnique(v.req, v.prefillTarget);
    var maxTokens: nat := Max(0, Min(b, v.prefillTarget - 1));
    assert i < maxTokens / c.blockSize <==> (i + 1) * c.blockSize <= maxTokens by {
      WholeBlocksIn(maxTokens, i, c.blockSize);
    }
    assert (i + 1) * c.blockSize > 0 by { MulPositive(c.blockSize, i + 1); }
  }

  predicate MatchApplies(c: CacheConfig, v: Seq) {
    v.table == [] && c.enablePrefixCache && v.req.cacheEnabled
  }

  /** The number of blocks a lookup attaches. */
  function MatchCount(s: Store, c: CacheConfig, h: Hasher, v: Seq): nat
    requires c.blockSize > 0
  {
    LongestHit(s, h, c.blockSize, v, 0, MatchLimit(c, v))
  }

  function MatchIds(s: Store, c: CacheConfig, h: Hasher, v: Seq, k: nat): (ids: seq<nat>)
    requires c.blockSize > 0
    ensures |ids| == k
  {
    seq(k, i requires 0 <= i => HitBlock(s, h, c.blockSize, v, i))
  }

  /** The sequence after attaching its first k blocks from the cache. */
  function MatchedSeq(s: Store, c: CacheConfig, h: Hasher, v: Seq, k: nat): Seq
    requires c.blockSize > 0
  {
    v.(table := MatchIds(s, c, h, v, k),
       numCached := v.numCached + k * c.blockSize,
       numComputed := v.numComputed + k * c.blockSize,
       cacheRead := v.PromptTokensUpTo(k, c.blockSize),
       cacheCreated := 0)
  }

  /** The store after attaching those blocks. */
  function MatchedStore(s: Store, c: CacheConfig, h: Hasher, v: Seq, k: nat, now: real): Store
    requires c.blockSize > 0
    requires forall i | 0 <= i < k :: HitBlock(s, h, c.blockSize, v, i) < |s.blocks|
  {
    AttachAll(s, MatchIds(s, c, h, v, k), Expiry(v.req.ttl, now))
  }

  lemma MatchedNone(s: Store, c: CacheConfig, h: Hasher, v: Seq, now: real)
    requires c.blockSize > 0 && v.table == []
    ensures MatchedStore(s, c, h, v, 0, now) == s
    ensures MatchedSeq(s, c, h, v, 0) == v.(cacheRead := 0, cacheCreated := 0)
  {
    assert MatchIds(s, c, h, v, 0) == [];
    assert 0 * c.blockSize == 0;
  }

  lemma MatchIdsNext(s: Store, c: CacheConfig, h: Hasher, v: Seq, k: nat)
    requires c.blockSize > 0
    ensures MatchIds(s, c, h, v, k + 1) == MatchIds(s, c, h, v, k) + [HitBlock(s, h, c.blockSize, v, k)]
  {
  }

  lemma MatchedNext(s: Store, c: CacheConfig, h: Hasher, v: Seq, k: nat, now: real)
    requires c.blockSize > 0
    requires forall i | 0 <= i < k + 1 :: HitBlock(s, h, c.blockSize, v, i) < |s.blocks|
    ensures var id := HitBlock(s, h, c.blockSize, v, k);
            && id < |MatchedStore(s, c, h, v, k, now).blocks|
            && MatchedStore(s, c, h, v, k + 1, now)
               == Attach(MatchedStore(s, c, h, v, k, now), id, Expiry(v.req.ttl, now))
    ensures var m := MatchedSeq(s, c, h, v, k);
            MatchedSeq(s, c, h, v, k + 1)
              == m.(table := m.table + [HitBlock(s, h, c.blockSize, v, k)],
                    numCached := m.numCached + c.blockSize,
                    numComputed := m.numComputed + c.blockSize,
                    cacheRead := m.cacheRead + v.PromptTokens(k, c.blockSize))
  {
    MatchIdsNext(s, c, h, v, k);
    var ids := MatchIds(s, c, h, v, k + 1);
    assert ids[..|ids| - 1] == MatchIds(s, c, h, v, k);
    assert (k + 1) * c.blockSize == k * c.blockSize + c.blockSize;
  }

  lemma HitBlocksExist(s: Store, c: CacheConfig, h: Hasher, v: Seq, k: nat)
    requires Valid(s, c.blockSize) && c.blockSize > 0
    requires forall i | 0 <= i < k :: Hit(s, h, c.blockSize, v, i)
    ensures forall i | 0 <= i < k ::
              var id := MatchIds(s, c, h, v, k)[i];
              && id < |s.blocks|
              && s.blocks[id].hash != -1
              && (i + 1) * c.blockSize <= |v.tokens|
              && s.blocks[id].hash == ChainAt(h, c.blockSize, v.req.namespace, v.tokens, i + 1)
  {
    var ids := MatchIds(s, c, h, v, k);
    forall i | 0 <= i < k
      ensures ids[i] < |s.blocks| && s.blocks[ids[i]].hash != -1
      ensures (i + 1) * c.blockSize <= |v.tokens|
      ensures s.blocks[ids[i]].hash == ChainAt(h, c.blockSize, v.req.namespace, v.tokens, i + 1)
    {
      assert Hit(s, h, c.blockSize, v, i);
      var hash := ChainAt(h, c.blockSize, v.req.namespace, v.tokens, i + 1);
      assert hash in s.index && ids[i] == s.index[hash];
    }
  }

  /** The store after attaching k hits: still valid, with the same index and contents. */
  lemma MatchedKeeps(s: Store, c: CacheConfig, h: Hasher, v: Seq, k: nat, now: real)
    requires Valid(s, c.blockSize) && c.blockSize > 0
    requires forall i | 0 <= i < k ::
               Hit(s, h, c.blockSize, v, i) && HitBlock(s, h, c.blockSize, v, i) < |s.blocks|
    ensures var t := MatchedStore(s, c, h, v, k, now);
            && Valid(t, c.blockSize) && Grows(s, t)
            && Counted(s, t, multiset{}, multiset(MatchIds(s, c, h, v, k)))
            && t.index == s.index
            && (forall id | 0 <= id < |s.blocks| :: SameContent(s.blocks[id], t.blocks[id]))
            && (WithinQuotas(s, c) ==> WithinQuotas(t, c))
  {
    HitBlocksExist(s, c, h, v, k);
    AttachAllKeeps(s, MatchIds(s, c, h, v, k), Expiry(v.req.ttl, now), c);
  }

  /** Looking up block k's hash in the store after k attachments finds a hit exactly if the
      original store has one. */
  lemma LookupMeaning(s: Store, c: CacheConfig, h: Hasher, v: Seq, k: nat, now: real)
    requires Valid(s, c.blockSize) && c.blockSize > 0 && (k + 1) * c.blockSize <= |v.tokens|
    requires forall i | 0 <= i < k ::
               Hit(s, h, c.blockSize, v, i) && HitBlock(s, h, c.blockSize, v, i) < |s.blocks|
    ensures var t := MatchedStore(s, c, h, v, k, now);
            var hash := ChainAt(h, c.blockSize, v.req.namespace, v.tokens, k + 1);
            && Partitioned(t)
            && (hash !in t.index ==> !Hit(s, h, c.blockSize, v, k))
            && (hash in t.index ==>
                  && t.index[hash] < |t.blocks|
                  && (t.blocks[t.index[hash]].tokenIds == Some(BlockOf(v.tokens, k, c.blockSize))
                      <==> Hit(s, h, c.blockSize, v, k))
                  && (Hit(s, h, c.blockSize, v, k) ==>
                        HitBlock(s, h, c.blockSize, v, k) == t.index[hash] < |s.blocks|))
  {
    MatchedKeeps(s, c, h, v, k, now);
    hide ChainAt, MatchedStore, WithinQuotas, Counted, Grows;
  }

  lemma MatchStops(s: Store, c: CacheConfig, h: Hasher, v: Seq, k: nat)
    requires c.blockSize > 0 && k <= MatchLimit(c, v)
    requires forall i | 0 <= i < k :: Hit(s, h, c.blockSize, v, i)
    requires k == MatchLimit(c, v) || !Hit(s, h, c.blockSize, v, k)
    ensures MatchCount(s, c, h, v) == k
  {
    LongestHitFrom(s, h, c.blockSize, v, k, MatchLimit(c, v));
  }

  /** (t, w) is (s, v) after a lookup at time now: expired blocks are cleared, giving mid, and then
      the longest cached prefix is attached, if the sequence takes part in caching and has no
      blocks yet. */
  ghost predicate MatchedTo(s: Store, mid: Store, t: Store, c: CacheConfig, h: Hasher, v: Seq, w: Seq, now: real)
    requires c.blockSize > 0
  {
    if MatchApplies(c, v) then
      && PurgedTo(s, mid, Expired(s, now)) && Valid(mid, c.blockSize)
      && var k := MatchCount(mid, c, h, v);
      && (forall i | 0 <= i < k ::
            Hit(mid, h, c.blockSize, v, i) && HitBlock(mid, h, c.blockSize, v, i) < |mid.blocks|)
      && t == MatchedStore(mid, c, h, v, k, now)
      && w == MatchedSeq(mid, c, h, v, k)
    else mid == s && t == s && w == v
  }

  lemma {:induction false} AttachAllUsed(s: Store, ids: seq<nat>, expiresAt: Option<real>)
    requires forall i | 0 <= i < |ids| :: ids[i] < |s.blocks|
    ensures |AttachAll(s, ids, expiresAt).used| <= |s.used| + |ids|
    decreases |ids|
  {
    if ids != [] {
      var rest, last := ids[..|ids| - 1], ids[|ids| - 1];
      AttachAllUsed(s, rest, expiresAt);
      var m := AttachAll(s, rest, expiresAt);
      assert |m.used + {last}| <= |m.used| + 1;
    }
  }

  /** A lookup never claims more blocks than it spares: what was enough room before is enough after. */
  lemma MatchSparesRoom(s: Store, mid: Store, t: Store, c: CacheConfig, h: Hasher, v: Seq, w: Seq,
                        now: real, needed: nat)
    requires c.blockSize > 0 && MatchedTo(s, mid, t, c, h, v, w, now)
    requires Max(0, needed - |v.table|) <= |s.blocks| - |s.used|
    requires Partitioned(t)
    ensures Max(0, needed - |w.table|) <= |t.blocks| - |t.used|
  {
    hide MatchedTo, Partitioned, AttachAll;
    if MatchApplies(c, v) {
      PartitionCount(t);
      MatchAttaches(s, mid, t, c, h, v, w, now);
      AttachAllUsed(mid, w.table, Expiry(v.req.ttl, now));
      MaxSpare(needed, |w.table|, |mid.blocks|, |mid.used|, |t.used|);
    } else {
      NoMatch(s, mid, t, c, h, v, w, now);
    }
  }

  lemma NoMatch(s: Store, mid: Store, t: Store, c: CacheConfig, h: Hasher, v: Seq, w: Seq, now: real)
    requires c.blockSize > 0 && MatchedTo(s, mid, t, c, h, v, w, now) && !MatchApplies(c, v)
    ensures t == s && w == v
  {
  }

  lemma MatchAttaches(s: Store, mid: Store, t: Store, c: CacheConfig, h: Hasher, v: Seq, w: Seq, now: real)
    requires c.blockSize > 0 && MatchedTo(s, mid, t, c, h, v, w, now) && MatchApplies(c, v)
    ensures mid.used == s.used && |mid.blocks| == |s.blocks|
    ensures (forall i | 0 <= i < |w.table| :: w.table[i] < |mid.blocks|)
            && t == AttachAll(mid, w.table, Expiry(v.req.ttl, now)) && |t.blocks| == |mid.blocks|
  {
    hide Hit, HitBlock, MatchCount, Valid, Selected;
  }

  lemma MaxSpare(needed: nat, k: nat, n: nat, before: nat, after: nat)
    requires Max(0, needed) <= n - before && after <= before + k && after <= n
    ensures Max(0, needed - k) <= n - after
  {
  }

  /** What a lookup has attached, seen from outside: k blocks, all of which may be looked up and are
      cached, and the next one may not be looked up or is not cached. */
  ghost predicate Longest(s: Store, c: CacheConfig, h: Hasher, v: Seq, k: nat)
    requires c.blockSize > 0
  {
    forall b | IsBoundary(v.req, v.prefillTarget, b) ::
      && (forall i: nat | i < k :: MayMatch(c, v, b, i) && Hit(s, h, c.blockSize, v, i))
      && !(MayMatch(c, v, b, k) && Hit(s, h, c.blockSize, v, k))
  }

  lemma MatchIsLongest(s: Store, c: CacheConfig, h: Hasher, v: Seq)
    requires c.blockSize > 0 && Increasing(v.req.breakpoints)
    ensures Longest(s, c, h, v, MatchCount(s, c, h, v))
  {
    hide MatchLimit, MayMatch, Hit, IsBoundary, Increasing;
    var k := MatchCount(s, c, h, v);
    LongestHitMeaning(s, h, c.blockSize, v, 0, MatchLimit(c, v));
    forall b | IsBoundary(v.req, v.prefillTarget, b)
      ensures forall i: nat | i < k :: MayMatch(c, v, b, i) && Hit(s, h, c.blockSize, v, i)
      ensures !(MayMatch(c, v, b, k) && Hit(s, h, c.blockSize, v, k))
    {
      forall i: nat | i <= k ensures i < MatchLimit(c, v) <==> MayMatch(c, v, b, i) {
        MatchLimitExact(c, v, b, i);
      }
    }
  }

  /* ---------- Committing ---------- */

  /** Progress of a commit: the store, the chain hash so far, prompt tokens newly cached. */
  datatype CommitState = CommitState(store: Store, prefix: int, created: nat)

  function CommitLimit(c: CacheConfig, v: Seq, upTo: nat): nat
    requires c.blockSize > 0
  {
    var cacheable := MaxCacheable(v.req, upTo);
    if !c.enablePrefixCache || !v.req.cacheEnabled || cacheable < c.minTokens then 0
    else Min(upTo, cacheable) / c.blockSize
  }

  /** Block i is to be cached once upTo tokens are computed: caching is on, the boundary b is not too
      near to be worth it, and the whole block is computed and lies within the boundary. */
  ghost predicate MayCommit(c: CacheConfig, v: Seq, upTo: nat, b: int, i: nat) {
    && c.enablePrefixCache && v.req.cacheEnabled && c.minTokens <= b
    && (i + 1) * c.blockSize <= upTo && (i + 1) * c.blockSize <= b
  }

  /** A commit reaches exactly the blocks that are to be cached. */
  lemma CommitLimitExact(c: CacheConfig, v: Seq, upTo: nat, b: int, i: nat)
    requires c.blockSize > 0 && Increasing(v.req.breakpoints) && IsBoundary(v.req, upTo, b)
    ensures i < CommitLimit(c, v, upTo) <==> MayCommit(c, v, upTo, b, i)
  {
    hide MaxCacheable, IsBoundary, LastAtMost;
    BoundaryUnique(v.req, upTo);
    if c.minTokens <= b {
      WholeBlocksIn(Min(upTo, b), i, c.blockSize);
    }
  }

  lemma CommitLimitWithin(c: CacheConfig, v: Seq, upTo: nat)
    requires c.blockSize > 0
    ensures CommitLimit(c, v, upTo) * c.blockSize <= upTo
  {
    var cacheable := MaxCacheable(v.req, upTo);
    if CommitLimit(c, v, upTo) > 0 {
      var n: nat := Min(upTo, cacheable);
      assert n == c.blockSize * (n / c.blockSize) + n % c.blockSize;
      assert (n / c.blockSize) * c.blockSize == c.blockSize * (n / c.blockSize);
    } else {
      assert 0 * c.blockSize == 0;
    }
  }

  lemma CommitLimitFits(c: CacheConfig, v: Seq, upTo: nat)
    requires c.blockSize > 0 && upTo <= |v.tokens| && upTo <= |v.table| * c.blockSize
    ensures CommitLimit(c, v, upTo) <= |v.table|
    ensures CommitLimit(c, v, upTo) * c.blockSize <= |v.tokens|
  {
    CommitLimitWithin(c, v, upTo);
    var n := CommitLimit(c, v, upTo);
    assert (|v.table| + 1) * c.blockSize == |v.table| * c.blockSize + c.blockSize;
    if n > |v.table| {
      MulMonotone(|v.table| + 1, n, c.blockSize);
    }
  }

  /** Another block already caches exactly this block of tokens under this hash. */
  predicate DuplicateOf(s: Store, hash: int, id: nat, toks: seq<Token>) {
    && hash in s.index && s.index[hash] != id && s.index[hash] < |s.blocks|
    && s.blocks[s.index[hash]].tokenIds == Some(toks)
  }

  function Committed(s: Store, c: CacheConfig, h: Hasher, v: Seq, upTo: nat, now: real): CommitState
    requires c.blockSize > 0 && CanCommit(s, c, v, CommitLimit(c, v, upTo))
  {
    CommitUpTo(s, c, h, v, CommitLimit(c, v, upTo), now)
  }

  predicate CanCommit(s: Store, c: CacheConfig, v: Seq, n: nat) {
    && c.blockSize > 0 && n <= |v.table| && n * c.blockSize <= |v.tokens|
    && forall i | 0 <= i < |v.table| :: v.table[i] < |s.blocks|
  }

  function CommitStep(st: CommitState, c: CacheConfig, h: Hasher, v: Seq, i: nat, now: real): CommitState
    requires c.blockSize > 0 && i < |v.table| && v.table[i] < |st.store.blocks|
    requires (i + 1) * c.blockSize <= |v.tokens|
  {
    var id := v.table[i];
    var toks := BlockOf(v.tokens, i, c.blockSize);
    if st.store.blocks[id].hash != -1 then st.(prefix := st.store.blocks[id].hash)
    else
      var hash := h.Block(toks, st.prefix);
      if DuplicateOf(st.store, hash, id, toks) then st.(prefix := hash)
      else
        CommitState(UpdateHash(st.store, id, hash, toks, v.req.namespace, Expiry(v.req.ttl, now)),
                    hash, st.created + v.PromptTokens(i, c.blockSize))
  }

  /** A step's result depends on what was counted before only by adding to it. */
  lemma CommitStepAdds(st: CommitState, c: CacheConfig, h: Hasher, v: Seq, i: nat, now: real)
    requires c.blockSize > 0 && i < |v.table| && v.table[i] < |st.store.blocks|
    requires (i + 1) * c.blockSize <= |v.tokens|
    ensures var r := CommitStep(st.(created := 0), c, h, v, i, now);
            CommitStep(st, c, h, v, i, now) == r.(created := st.created + r.created)
  {
  }

  lemma CommitUpToNext(s: Store, c: CacheConfig, h: Hasher, v: Seq, n: nat, now: real)
    requires CanCommit(s, c, v, n + 1)
    ensures CanCommit(s, c, v, n) && (n + 1) * c.blockSize <= |v.tokens|
    ensures CommitUpTo(s, c, h, v, n + 1, now) == CommitStep(CommitUpTo(s, c, h, v, n, now), c, h, v, n, now)
  {
    MulMonotone(n, n + 1, c.blockSize);
  }

  lemma CommitIgnoresCount(st: CommitState, c: CacheConfig, h: Hasher, v: Seq, w: Seq, i: nat, now: real)
    requires c.blockSize > 0 && i < |v.table| && v.table[i] < |st.store.blocks|
    requires (i + 1) * c.blockSize <= |v.tokens| && w == v.(cacheCreated := w.cacheCreated)
    ensures CommitStep(st, c, h, v, i, now) == CommitStep(st, c, h, w, i, now)
  {
  }

  function CommitUpTo(s: Store, c: CacheConfig, h: Hasher, v: Seq, n: nat, now: real): (r: CommitState)
    requires CanCommit(s, c, v, n)
    ensures |r.store.blocks| == |s.blocks|
    decreases n
  {
    if n == 0 then CommitState(s, InitialHash(h, v.req.namespace), 0)
    else
      MulMonotone(n - 1, n, c.blockSize);
      CommitStep(CommitUpTo(s, c, h, v, n - 1, now), c, h, v, n - 1, now)
  }

  /** A commit can begin, and reaches the limit within the table. */
  lemma CommitStarts(s: Store, c: CacheConfig, h: Hasher, v: Seq, upTo: nat, now: real)
    requires c.blockSize > 0 && upTo <= |v.tokens| && upTo <= |v.table| * c.blockSize
    requires forall i | 0 <= i < |v.table| :: v.table[i] < |s.blocks|
    ensures CanCommit(s, c, v, CommitLimit(c, v, upTo)) && CanCommit(s, c, v, 0) && 0 * c.blockSize <= |v.tokens|
    ensures CommitUpTo(s, c, h, v, 0, now) == CommitState(s, InitialHash(h, v.req.namespace), 0)
  {
    CommitLimitFits(c, v, upTo);
    assert 0 * c.blockSize == 0;
  }

  /** Every hashed block of v's table carries the chain hash of v's own prefix. */
  ghost predicate OwnHashes(s: Store, bs: nat, h: Hasher, v: Seq, n: nat)
    requires bs > 0 && n <= |v.table|
  {
    forall i | 0 <= i < n && v.table[i] < |s.blocks| && s.blocks[v.table[i]].hash != -1 ::
      && (i + 1) * bs <= |v.tokens|
      && s.blocks[v.table[i]].hash == ChainAt(h, bs, v.req.namespace, v.tokens, i + 1)
  }

  predicate HashedAs(b: Block, bs: nat, h: Hasher, v: Seq, i: nat)
    requires bs > 0 && (i + 1) * bs <= |v.tokens|
  {
    && b.hash == ChainAt(h, bs, v.req.namespace, v.tokens, i + 1)
    && b.tokenIds == Some(BlockOf(v.tokens, i, bs))
    && b.namespace == v.req.namespace
  }

  /** t is s after hashing some unhashed blocks among the first n of v's table, each as v's own. */
  ghost predicate CommittedTo(s: Store, t: Store, bs: nat, h: Hasher, v: Seq, n: nat)
    requires bs > 0 && n <= |v.table| && n * bs <= |v.tokens|
  {
    && |t.blocks| == |s.blocks| && t.free == s.free && t.cached == s.cached && t.used == s.used
    && (forall id | 0 <= id < |s.blocks| && id !in v.table[..n] :: t.blocks[id] == s.blocks[id])
    && (forall id | 0 <= id < |s.blocks| :: t.blocks[id].refCount == s.blocks[id].refCount)
    && (forall i | 0 <= i < n && v.table[i] < |s.blocks| ::
          || SameContent(s.blocks[v.table[i]], t.blocks[v.table[i]])
          || (&& s.blocks[v.table[i]].hash == -1 && (i + 1) * bs <= |v.tokens|
              && HashedAs(t.blocks[v.table[i]], bs, h, v, i)))
  }

  /** A block that occurs twice in a table has two references. */
  lemma TwiceCounted(table: seq<nat>, i: nat, j: nat)
    requires i < j < |table| && table[i] == table[j]
    ensures multiset(table)[table[i]] >= 2
  {
    var a, b := table[..j], table[j..];
    assert table == a + b;
    assert a[i] in a && b[0] in b;
  }

  /** An unhashed block is in the table once, so an earlier step of the commit did not touch it. */
  lemma CommitUntouched(s: Store, m: Store, c: CacheConfig, h: Hasher, v: Seq, n: nat)
    requires c.blockSize > 0 && n < |v.table| && n * c.blockSize <= |v.tokens|
    requires Valid(s, c.blockSize) && Holds(s, v.table)
    requires CommittedTo(s, m, c.blockSize, h, v, n)
    ensures v.table[n] < |s.blocks| && SameContent(s.blocks[v.table[n]], m.blocks[v.table[n]])
    ensures s.blocks[v.table[n]].hash == -1 ==> v.table[n] !in v.table[..n]
    ensures m.blocks[v.table[n]].refCount > 0
  {
    var id := v.table[n];
    assert multiset(v.table)[id] > 0;
    if id in v.table[..n] {
      var i :| 0 <= i < n && v.table[..n][i] == id;
      assert v.table[i] == id;
      TwiceCounted(v.table, i, n);
      assert BlockShape(s.blocks[id], c.blockSize);
    }
  }

  lemma CommitStepKeeps(s: Store, m: CommitState, c: CacheConfig, h: Hasher, v: Seq, n: nat, now: real)
    requires CanCommit(s, c, v, n + 1) && n * c.blockSize <= |v.tokens|
    requires Valid(s, c.blockSize) && Holds(s, v.table) && OwnHashes(s, c.blockSize, h, v, n + 1)
    requires Valid(m.store, c.blockSize) && CommittedTo(s, m.store, c.blockSize, h, v, n)
    requires m.prefix == ChainAt(h, c.blockSize, v.req.namespace, v.tokens, n)
    ensures var r := CommitStep(m, c, h, v, n, now);
            && Valid(r.store, c.blockSize) && CommittedTo(s, r.store, c.blockSize, h, v, n + 1)
            && r.prefix == ChainAt(h, c.blockSize, v.req.namespace, v.tokens, n + 1)
            && (WithinQuotas(m.store, c) ==> WithinQuotas(r.store, c))
  {
    hide Valid, WithinQuotas, Holds, OwnHashes, ChainAt, CommittedTo, DuplicateOf, UpdateHash, BlockOf;
    var id := v.table[n];
    var toks := BlockOf(v.tokens, n, c.blockSize);
    CommitUntouched(s, m.store, c, h, v, n);
    ChainAtStep(h, c.blockSize, v.req.namespace, v.tokens, n);
    CommitHashesNone(s, m.store, c, h, v, n);
    if m.store.blocks[id].hash == -1 {
      var hash := h.Block(toks, m.prefix);
      if !DuplicateOf(m.store, hash, id, toks) {
        UpdateHashKeeps(m.store, id, hash, toks, v.req.namespace, Expiry(v.req.ttl, now), c);
        CommitHashesOne(s, m.store, c, h, v, n, hash, now);
      }
    }
  }

  /** A step that leaves the block as it is. */
  lemma CommitHashesNone(s: Store, m: Store, c: CacheConfig, h: Hasher, v: Seq, n: nat)
    requires c.blockSize > 0 && n < |v.table| && n * c.blockSize <= |v.tokens| && (n + 1) * c.blockSize <= |v.tokens|
    requires CommittedTo(s, m, c.blockSize, h, v, n) && OwnHashes(s, c.blockSize, h, v, n + 1)
    requires v.table[n] < |s.blocks| && SameContent(s.blocks[v.table[n]], m.blocks[v.table[n]])
    ensures CommittedTo(s, m, c.blockSize, h, v, n + 1) && v.table[n] < |m.blocks|
    ensures m.blocks[v.table[n]].hash != -1 ==>
              m.blocks[v.table[n]].hash == ChainAt(h, c.blockSize, v.req.namespace, v.tokens, n + 1)
  {
    hide ChainAt, HashedAs;
    assert v.table[..n + 1] == v.table[..n] + [v.table[n]];
  }

  /** A step that hashes the block. */
  lemma CommitHashesOne(s: Store, m: Store, c: CacheConfig, h: Hasher, v: Seq, n: nat, hash: int, now: real)
    requires c.blockSize > 0 && n < |v.table| && n * c.blockSize <= |v.tokens| && (n + 1) * c.blockSize <= |v.tokens|
    requires CommittedTo(s, m, c.blockSize, h, v, n) && v.table[n] < |s.blocks|
    requires SameContent(s.blocks[v.table[n]], m.blocks[v.table[n]]) && s.blocks[v.table[n]].hash == -1
    requires v.table[n] !in v.table[..n]
    requires hash == ChainAt(h, c.blockSize, v.req.namespace, v.tokens, n + 1)
    ensures var t := UpdateHash(m, v.table[n], hash, BlockOf(v.tokens, n, c.blockSize), v.req.namespace,
                                Expiry(v.req.ttl, now));
            CommittedTo(s, t, c.blockSize, h, v, n + 1)
  {
    hide ChainAt, BlockOf;
    assert v.table[..n + 1] == v.table[..n] + [v.table[n]];
    forall i | 0 <= i < n ensures v.table[i] != v.table[n] { assert v.table[..n][i] == v.table[i]; }
  }

  /** A commit keeps every store invariant, touches only unhashed blocks of the sequence's own
      table, gives each the chain hash of the sequence's own prefix, and ends with the chain hash
      of the whole committed prefix. */
  lemma {:induction false} CommitUpToKeeps(s: Store, c: CacheConfig, h: Hasher, v: Seq, n: nat, now: real)
    requires CanCommit(s, c, v, n)
    requires Valid(s, c.blockSize) && Holds(s, v.table) && OwnHashes(s, c.blockSize, h, v, n)
    ensures var r := CommitUpTo(s, c, h, v, n, now);
            && Valid(r.store, c.blockSize) && CommittedTo(s, r.store, c.blockSize, h, v, n)
            && r.prefix == ChainAt(h, c.blockSize, v.req.namespace, v.tokens, n)
            && (WithinQuotas(s, c) ==> WithinQuotas(r.store, c))
    decreases n
  {
    hide Valid, WithinQuotas, Holds, CommitStep, ChainAt, HashedAs;
    if n == 0 {
      ChainAtZero(h, c.blockSize, v.req.namespace, v.tokens);
    } else {
      CommitUpToNext(s, c, h, v, n - 1, now);
      CommitUpToKeeps(s, c, h, v, n - 1, now);
      CommitStepKeeps(s, CommitUpTo(s, c, h, v, n - 1, now), c, h, v, n - 1, now);
    }
  }

  /** Some block caches block i of v: v's own, or another one with the same tokens. */
  ghost predicate IsCached(s: Store, bs: nat, h: Hasher, v: Seq, i: nat)
    requires bs > 0 && i < |v.table| && (i + 1) * bs <= |v.tokens|
  {
    exists id: nat :: id < |s.blocks| && IsCachedBy(s.blocks[id], id, bs, h, v, i)
  }

  ghost predicate IsCachedBy(b: Block, id: nat, bs: nat, h: Hasher, v: Seq, i: nat)
    requires bs > 0 && i < |v.table| && (i + 1) * bs <= |v.tokens|
  {
    && b.hash == ChainAt(h, bs, v.req.namespace, v.tokens, i + 1)
    && (id == v.table[i] || b.tokenIds == Some(BlockOf(v.tokens, i, bs)))
  }

  /** A later step of the commit leaves cached blocks as they are. */
  lemma KeptAfterStep(m: CommitState, c: CacheConfig, h: Hasher, v: Seq, n: nat, i: nat, now: real)
    requires c.blockSize > 0 && n < |v.table| && v.table[n] < |m.store.blocks|
    requires (n + 1) * c.blockSize <= |v.tokens|
    requires i < |v.table| && (i + 1) * c.blockSize <= |v.tokens| && IsCached(m.store, c.blockSize, h, v, i)
    ensures IsCached(CommitStep(m, c, h, v, n, now).store, c.blockSize, h, v, i)
  {
    hide ChainAt, BlockOf, DuplicateOf;
    ChainAtStep(h, c.blockSize, v.req.namespace, v.tokens, i);
    var id: nat :| id < |m.store.blocks| && IsCachedBy(m.store.blocks[id], id, c.blockSize, h, v, i);
    var t := CommitStep(m, c, h, v, n, now).store;
    assert t.blocks[id] == m.store.blocks[id];
  }

  lemma StepKeeps(s: Store, m: CommitState, c: CacheConfig, h: Hasher, v: Seq, n: nat, now: real)
    requires CanCommit(s, c, v, n + 1) && n * c.blockSize <= |v.tokens|
    requires Valid(s, c.blockSize) && Holds(s, v.table) && OwnHashes(s, c.blockSize, h, v, n + 1)
    requires Valid(m.store, c.blockSize) && CommittedTo(s, m.store, c.blockSize, h, v, n)
    requires m.prefix == ChainAt(h, c.blockSize, v.req.namespace, v.tokens, n)
    ensures IsCached(CommitStep(m, c, h, v, n, now).store, c.blockSize, h, v, n)
  {
    hide Holds, OwnHashes, ChainAt, CommittedTo, BlockOf, Partitioned, Shaped, Ticked;
    var bs, id := c.blockSize, v.table[n];
    CommitUntouched(s, m.store, c, h, v, n);
    ChainAtStep(h, bs, v.req.namespace, v.tokens, n);
    CommitHashesNone(s, m.store, c, h, v, n);
    var hash := ChainAt(h, bs, v.req.namespace, v.tokens, n + 1);
    var t := CommitStep(m, c, h, v, n, now).store;
    if m.store.blocks[id].hash == -1 && DuplicateOf(m.store, hash, id, BlockOf(v.tokens, n, bs)) {
      assert IsCachedBy(t.blocks[m.store.index[hash]], m.store.index[hash], bs, h, v, n);
    } else {
      assert IsCachedBy(t.blocks[id], id, bs, h, v, n);
    }
  }

  /** Every block a commit goes over is cached afterwards. */
  lemma {:induction false} CommitReachesAll(s: Store, c: CacheConfig, h: Hasher, v: Seq, n: nat, i: nat, now: real)
    requires CanCommit(s, c, v, n) && i < n
    requires Valid(s, c.blockSize) && Holds(s, v.table) && OwnHashes(s, c.blockSize, h, v, n)
    ensures (i + 1) * c.blockSize <= |v.tokens|
    ensures IsCached(CommitUpTo(s, c, h, v, n, now).store, c.blockSize, h, v, i)
    decreases n
  {
    hide Valid, WithinQuotas, Holds, CommitStep, ChainAt, HashedAs, IsCached, CommittedTo;
    MulMonotone(i + 1, n, c.blockSize);
    CommitUpToNext(s, c, h, v, n - 1, now);
    CommitUpToKeeps(s, c, h, v, n - 1, now);
    var m := CommitUpTo(s, c, h, v, n - 1, now);
    if i == n - 1 {
      StepKeeps(s, m, c, h, v, i, now);
    } else {
      CommitReachesAll(s, c, h, v, n - 1, i, now);
      KeptAfterStep(m, c, h, v, n - 1, i, now);
    }
  }

  /** t is s after a commit of v's first upTo tokens, seen from outside: every block that is to be
      cached is, and no block of the store has changed but those. */
  ghost predicate CachedTo(s: Store, t: Store, c: CacheConfig, h: Hasher, v: Seq, upTo: nat)
    requires c.blockSize > 0 && upTo <= |v.tokens|
  {
    forall b | IsBoundary(v.req, upTo, b) ::
      && (forall i: nat | i < |v.table| && MayCommit(c, v, upTo, b, i) :: IsCached(t, c.blockSize, h, v, i))
      && (forall id | 0 <= id < |s.blocks| && id < |t.blocks| && t.blocks[id] != s.blocks[id] ::
            exists i: nat | i < |v.table| :: v.table[i] == id && MayCommit(c, v, upTo, b, i))
  }

  /** For this only request, tokens and table matter. */
  lemma CachedToSame(s: Store, t: Store, c: CacheConfig, h: Hasher, v: Seq, w: Seq, upTo: nat)
    requires c.blockSize > 0 && upTo <= |v.tokens| && CachedTo(s, t, c, h, v, upTo)
    requires w.req == v.req && w.tokens == v.tokens && w.table == v.table
    ensures CachedTo(s, t, c, h, w, upTo)
  {
    hide IsBoundary, ChainAt, BlockOf;
    forall b, i: nat | IsBoundary(w.req, upTo, b) && i < |w.table| && MayCommit(c, w, upTo, b, i)
      ensures IsCached(t, c.blockSize, h, w, i)
    {
      assert MayCommit(c, v, upTo, b, i) && IsCached(t, c.blockSize, h, v, i);
      var id: nat :| id < |t.blocks| && IsCachedBy(t.blocks[id], id, c.blockSize, h, v, i);
      assert IsCachedBy(t.blocks[id], id, c.blockSize, h, w, i);
    }
    forall b, id | IsBoundary(w.req, upTo, b) && 0 <= id < |s.blocks| && id < |t.blocks| && t.blocks[id] != s.blocks[id]
      ensures exists i: nat | i < |w.table| :: w.table[i] == id && MayCommit(c, w, upTo, b, i)
    {
      var i: nat :| i < |v.table| && v.table[i] == id && MayCommit(c, v, upTo, b, i);
      assert w.table[i] == id && MayCommit(c, w, upTo, b, i);
    }
  }

  lemma CommitIsExact(s: Store, c: CacheConfig, h: Hasher, v: Seq, upTo: nat, now: real)
    requires c.blockSize > 0 && upTo <= |v.tokens| && upTo <= |v.table| * c.blockSize
    requires Valid(s, c.blockSize) && Holds(s, v.table) && OwnHashes(s, c.blockSize, h, v, |v.table|)
    requires Increasing(v.req.breakpoints)
    requires CanCommit(s, c, v, CommitLimit(c, v, upTo))
    ensures CachedTo(s, Committed(s, c, h, v, upTo, now).store, c, h, v, upTo)
  {
    hide Valid, Holds, CommitLimit, CommitUpTo, IsCached, IsBoundary, Increasing, ChainAt, HashedAs, WithinQuotas;
    var n := CommitLimit(c, v, upTo);
    CommitUpToKeeps(s, c, h, v, n, now);
    var t := Committed(s, c, h, v, upTo, now).store;
    forall b | IsBoundary(v.req, upTo, b)
      ensures forall i: nat | i < |v.table| && MayCommit(c, v, upTo, b, i) :: IsCached(t, c.blockSize, h, v, i)
      ensures forall id | 0 <= id < |s.blocks| && id < |t.blocks| && t.blocks[id] != s.blocks[id] ::
                exists i: nat | i < |v.table| :: v.table[i] == id && MayCommit(c, v, upTo, b, i)
    {
      forall i: nat ensures i < n <==> MayCommit(c, v, upTo, b, i) { CommitLimitExact(c, v, upTo, b, i); }
      forall i: nat | i < |v.table| && MayCommit(c, v, upTo, b, i) ensures IsCached(t, c.blockSize, h, v, i) {
        CommitReachesAll(s, c, h, v, n, i, now);
      }
      forall id | 0 <= id < |s.blocks| && id < |t.blocks| && t.blocks[id] != s.blocks[id]
        ensures exists i: nat | i < |v.table| :: v.table[i] == id && MayCommit(c, v, upTo, b, i)
      {
        assert id in v.table[..n];
        var i: nat :| i < n && v.table[..n][i] == id;
        assert v.table[i] == id && MayCommit(c, v, upTo, b, i);
      }
    }
  }

  /** One round of the commit loop, seen from its start. */
  lemma CommitAdvances(s: Store, c: CacheConfig, h: Hasher, v: Seq, w: Seq, i: nat, full: nat, now: real)
    requires i < full && CanCommit(s, c, v, full) && i * c.blockSize <= |v.tokens| && CanCommit(s, c, v, i)
    requires Valid(s, c.blockSize) && WithinQuotas(s, c)
    requires Holds(s, v.table) && OwnHashes(s, c.blockSize, h, v, |v.table|)
    requires w == v.(cacheCreated := w.cacheCreated)
    ensures CanCommit(s, c, v, i + 1) && (i + 1) * c.blockSize <= |v.tokens|
    ensures var m := CommitUpTo(s, c, h, v, i, now); var u := CommitUpTo(s, c, h, v, i + 1, now);
            && |m.store.blocks| == |s.blocks|
            && IndexSound(m.store)
            && var r := CommitStep(CommitState(m.store, m.prefix, 0), c, h, w, i, now);
            && u == r.(created := m.created + r.created)
            && Valid(u.store, c.blockSize) && WithinQuotas(u.store, c)
  {
    MulMonotone(i + 1, full, c.blockSize);
    CommitUpToNext(s, c, h, v, i, now);
    var m := CommitUpTo(s, c, h, v, i, now);
    CommitIgnoresCount(m, c, h, v, w, i, now);
    CommitStepAdds(m, c, h, w, i, now);
    CommitUpToKeeps(s, c, h, v, i, now);
    CommitUpToKeeps(s, c, h, v, i + 1, now);
    hide CommitStep, CommitUpTo, WithinQuotas, CommittedTo, ChainAt;
  }
}

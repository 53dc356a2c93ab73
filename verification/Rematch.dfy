/** The assertion in prepare_prefill that the lookup, repeated there, has not passed the chunk's
    target: exactly when it holds, that the cached-prefix estimate is a bound for it, and that it
    can fail. */
module Rematch {
  import opened Arithmetic
  import opened Blocks
  import opened BlockManagers
  import opened Hashing
  import opened LanguageModel
  import opened PrefixCache
  import opened Sequences
  import opened WorldOps
  import opened Worlds
  import opened Wrappers

  /** Block k is cached and none of the blocks in gone. */
  predicate HitOutside(s: Store, h: Hasher, bs: nat, v: Seq, k: nat, gone: set<nat>)
    requires bs > 0
  {
    Hit(s, h, bs, v, k) && HitBlock(s, h, bs, v, k) !in gone
  }

  /** The end of the run of such hits that starts at block k. */
  function LongestOutside(s: Store, h: Hasher, bs: nat, v: Seq, k: nat, limit: nat, gone: set<nat>): nat
    requires bs > 0
    decreases limit - k
  {
    if k < limit && HitOutside(s, h, bs, v, k, gone) then LongestOutside(s, h, bs, v, k + 1, limit, gone) else k
  }

  /** Tokens a lookup at time now will find cached, read off the state before it. */
  function WillMatch(s: Store, c: CacheConfig, h: Hasher, v: Seq, now: real): nat
    requires c.blockSize > 0
  {
    if MatchApplies(c, v) then LongestOutside(s, h, c.blockSize, v, 0, MatchLimit(c, v), Expired(s, now)) * c.blockSize
    else 0
  }

  /** After a purge exactly the hits on purged blocks are gone. */
  lemma HitAfterPurge(s: Store, t: Store, h: Hasher, bs: nat, v: Seq, k: nat, gone: set<nat>)
    requires bs > 0 && PurgedTo(s, t, gone) && IndexSound(s)
    ensures Hit(t, h, bs, v, k) <==> HitOutside(s, h, bs, v, k, gone)
  {
  }

  lemma {:induction false} LongestAfterPurge(s: Store, t: Store, h: Hasher, bs: nat, v: Seq, k: nat, limit: nat,
                                             gone: set<nat>)
    requires bs > 0 && PurgedTo(s, t, gone) && IndexSound(s)
    ensures LongestHit(t, h, bs, v, k, limit) == LongestOutside(s, h, bs, v, k, limit, gone)
    decreases limit - k
  {
    HitAfterPurge(s, t, h, bs, v, k, gone);
    if k < limit { LongestAfterPurge(s, t, h, bs, v, k + 1, limit, gone); }
  }

  /** The assertion holds if and only if what is cached and not expired leaves the chunk something
      to compute. */
  lemma AssertionHoldsExactly(s: Store, mid: Store, t: Store, c: CacheConfig, h: Hasher, v: Seq, w: Seq, now: real,
                              target: nat)
    requires c.blockSize > 0 && Valid(s, c.blockSize) && MatchedTo(s, mid, t, c, h, v, w, now)
    ensures w.numComputed < target <==> v.numComputed + WillMatch(s, c, h, v, now) < target
  {
    if MatchApplies(c, v) {
      LongestAfterPurge(s, mid, h, c.blockSize, v, 0, MatchLimit(c, v), Expired(s, now));
    }
  }

  /** Purging what has expired does not change what a lookup at the same time will find. */
  lemma WillMatchAfterPurge(s: Store, t: Store, c: CacheConfig, h: Hasher, v: Seq, now: real)
    requires c.blockSize > 0 && PurgedTo(s, t, Expired(s, now)) && IndexSound(s) && IndexSound(t)
    ensures WillMatch(t, c, h, v, now) == WillMatch(s, c, h, v, now)
  {
    if MatchApplies(c, v) {
      var limit := MatchLimit(c, v);
      assert Expired(t, now) == {} && PurgedTo(t, t, {});
      hide *;
      LongestAfterPurge(s, t, h, c.blockSize, v, 0, limit, Expired(s, now));
      LongestAfterPurge(t, t, h, c.blockSize, v, 0, limit, {});
    }
  }

  lemma {:induction false} OutsideAtMost(s: Store, h: Hasher, bs: nat, v: Seq, k: nat, limit: nat, gone: set<nat>)
    requires bs > 0 && k <= limit
    ensures LongestOutside(s, h, bs, v, k, limit, gone) <= LongestHit(s, h, bs, v, k, limit)
    decreases limit - k
  {
    if k < limit && HitOutside(s, h, bs, v, k, gone) { OutsideAtMost(s, h, bs, v, k + 1, limit, gone); }
  }

  /** The estimate, which ignores expiry, is never below what a lookup finds. */
  lemma EstimateIsBound(s: Store, c: CacheConfig, h: Hasher, v: Seq, now: real)
    requires c.blockSize > 0
    ensures WillMatch(s, c, h, v, now) <= MatchCount(s, c, h, v) * c.blockSize
  {
    if MatchApplies(c, v) {
      var n := LongestOutside(s, h, c.blockSize, v, 0, MatchLimit(c, v), Expired(s, now));
      OutsideAtMost(s, h, c.blockSize, v, 0, MatchLimit(c, v), Expired(s, now));
      MulMonotone(n, MatchCount(s, c, h, v), c.blockSize);
    }
  }

  /** Two blocks of one token.  Block 0 caches the first token of the two-token prompt [7, 8]; a running
      sequence with that prompt has no blocks yet. */
  function CachedFirst(h: Hasher): Store {
    var hash := h.Block([7], -1);
    Store([Block(0, hash, Some([7]), "", 1, None), Block(0, -1, None, "", 0, None)], map[hash := 0], [1], {0}, {}, 1)
  }

  function EmptyHanded(id: string): Seq {
    NewSeq(Request(id, [7, 8], Generation(1, false, 0.0), [], None, None, "", true)).(status := RUNNING)
  }

  function OneTokenBlocks(h: Hasher, m: Model, eos: Token, names: string -> bool): Env {
    Env(CacheConfig(1, true, 0, 0, 0), h, m, eos, names)
  }

  lemma CachedFirstCore(e: Env, v: Seq, id: string)
    requires e == OneTokenBlocks(e.hasher, e.model, e.eos, e.names) && e.Knows("") && v == EmptyHanded(id)
    ensures Core(e, CachedFirst(e.hasher), [v])
  {
    var s := CachedFirst(e.hasher);
    forall i | 0 <= i < |s.blocks| ensures Placed(s, i) && BlockShape(s.blocks[i], 1) { }
    assert Partitioned(s) && IndexSound(s) && Shaped(s, 1) && Ticked(s);
    EmptyTableCore(e, s, v);
    assert AllRefs([v]) == multiset(v.table) + AllRefs([]);
    assert RefsExact(s, [v]);
  }

  lemma ChainOfOne(h: Hasher, x: Token)
    ensures Chain(h, 1, "", [x]) == h.Block([x], -1) && WholeBlocks([x], 1)
  {
    assert [x][0..] == [x] && [x][..0] == [];
    assert Chain(h, 1, "", []) == -1;
  }

  /** Without collisions nothing but the prefix [7] of the default namespace has block 0's hash. */
  lemma FirstHashTrue(e: Env, mem: seq<KV>)
    requires e == OneTokenBlocks(e.hasher, e.model, e.eos, e.names) && e.Knows("")
    requires CollisionFree(e) && |mem| == 2 && mem[0] == KVs(e.model, [7])[0]
    ensures HashTrue(e, CachedFirst(e.hasher).blocks[0], mem, 0)
  {
    hide NoCollisions, Chain, WholeBlocks, KVs, Hasher.Block;
    var b, h := CachedFirst(e.hasher).blocks[0], e.hasher;
    ChainOfOne(h, 7);
    forall ns, t | e.Knows(ns) && |t| >= 1 && WholeBlocks(t, 1) && Chain(h, 1, ns, t) == b.hash
      ensures b.namespace == ns && b.tokenIds == Some(t[|t| - 1..]) && BlockHolds(e, mem, 0, t)
    {
      ChainInjective(h, 1, e.names, ns, t, "", [7]);
      assert [7][0..] == [7];
    }
  }

  lemma CachedFirstTrue(e: Env, mem: seq<KV>, v: Seq, id: string)
    requires e == OneTokenBlocks(e.hasher, e.model, e.eos, e.names) && e.Knows("") && v == EmptyHanded(id)
    requires CollisionFree(e) && |mem| == 2 && mem[0] == KVs(e.model, [7])[0]
    ensures Truth(e, CachedFirst(e.hasher), mem, [v])
  {
    hide NoCollisions, HashTrue, Generate, KVs, Hasher.Block;
    FirstHashTrue(e, mem);
    assert SeqTrue(e, mem, v);
  }

  /** The assertion can fail, whatever the hash function and the model, in a state that satisfies the
      invariant and in which the chunk [0, 1) has room. */
  lemma AssertionCanFail(h: Hasher, m: Model, eos: Token, names: string -> bool, id: string)
    returns (e: Env, s: Store, mem: seq<KV>, v: Seq, target: nat)
    requires names("")
    ensures e.hasher == h && e.model == m && e.eos == eos && e.names == names && e.BlockSize() > 0
    ensures Inv(e, s, mem, [v]) && |mem| == |s.blocks| * e.BlockSize()
    ensures v.status == RUNNING && Phase(v) && Prefilling(v) && v.table == [] && v.req.requestId == id
    ensures v.numComputed < target <= v.prefillTarget
    ensures Missing(v.table, target, e.BlockSize()) <= |s.blocks| - |s.used|
    ensures forall now :: v.numComputed + WillMatch(s, e.cache, h, v, now) >= target
  {
    hide Core, Truth, CollisionFree, WillMatch, KVs;
    e, s, v, target := OneTokenBlocks(h, m, eos, names), CachedFirst(h), EmptyHanded(id), 1;
    mem := [KVs(m, [7])[0], KV([], [])];
    CachedFirstCore(e, v, id);
    if CollisionFree(e) { CachedFirstTrue(e, mem, v, id); }
    forall now ensures v.numComputed + WillMatch(s, e.cache, h, v, now) >= target {
      CachedFirstFound(e, v, id, now);
    }
  }

  lemma CachedFirstFound(e: Env, v: Seq, id: string, now: real)
    requires e == OneTokenBlocks(e.hasher, e.model, e.eos, e.names) && v == EmptyHanded(id)
    ensures WillMatch(CachedFirst(e.hasher), e.cache, e.hasher, v, now) == 1
  {
    var s, h := CachedFirst(e.hasher), e.hasher;
    assert BlockOf(v.tokens, 0, 1) == [7];
    ChainAtStep(h, 1, "", v.tokens, 0);
    ChainAtZero(h, 1, "", v.tokens);
    assert Hit(s, h, 1, v, 0) && HitBlock(s, h, 1, v, 0) == 0;
    assert MatchLimit(e.cache, v) == 1;
    assert 0 !in Expired(s, now);
    assert LongestOutside(s, h, 1, v, 0, 1, Expired(s, now)) == LongestOutside(s, h, 1, v, 1, 1, Expired(s, now)) == 1;
  }
}

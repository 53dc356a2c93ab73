/** A sequence moves on: its computed frontier advances, a sampled token is appended, it ends. */
module WorldAdvance {
  import opened Arithmetic
  import opened Blocks
  import opened BlockSteps
  import opened Hashing
  import opened LanguageModel
  import opened PrefixCache
  import opened Sequences
  import opened WorldCommit
  import opened WorldOps
  import opened WorldRun
  import opened WorldSteps
  import opened Worlds
  import opened Wrappers

  /* ---------- The frontier ---------- */

  /** w is v with more positions computed; what the scheduler noted about the chunk may change too. */
  predicate Computed(v: Seq, w: Seq, n: nat) {
    v.numComputed <= n && w == v.(numComputed := n, schedStart := w.schedStart, schedEnd := w.schedEnd)
  }

  lemma ComputedCore(e: Env, b: Store, v: Seq, w: Seq, n: nat)
    requires e.BlockSize() > 0 && SeqCore(e, b, v) && Computed(v, w, n)
    requires n <= |v.tokens| && n <= |v.table| * e.BlockSize()
    ensures SeqCore(e, b, w)
  {
    SameUsage(b, v, w, |v.table|, e.BlockSize());
  }

  lemma ComputedInv(e: Env, b: Store, mem: seq<KV>, seqs: seq<Seq>, k: nat, w: Seq, n: nat)
    requires Inv(e, b, mem, seqs) && k < |seqs| && Computed(seqs[k], w, n)
    requires n <= |seqs[k].tokens| && n <= |seqs[k].table| * e.BlockSize()
    requires CollisionFree(e) ==> SeqHolds(e, mem, seqs[k], n)
    ensures Inv(e, b, mem, seqs[k := w])
  {
    CoreAt(e, b, seqs, k);
    ComputedCore(e, b, seqs[k], w, n);
    assert CollisionFree(e) && SeqTrue(e, mem, seqs[k]) ==> SeqTrue(e, mem, w);
    hide *;
    ViewInv(e, b, mem, seqs, k, w);
  }

  /* ---------- Appending the sampled token ---------- */

  function Appended(v: Seq, token: Token): Seq {
    v.(tokens := v.tokens + [token])
  }

  /** The chain hash of a prefix does not depend on later tokens. */
  lemma ChainAtAppend(h: Hasher, bs: nat, ns: string, t: seq<Token>, token: Token, k: nat)
    requires bs > 0 && k * bs <= |t|
    ensures ChainAt(h, bs, ns, t + [token], k) == ChainAt(h, bs, ns, t, k)
  {
    assert k * bs >= 0;
    assert (t + [token])[..k * bs] == t[..k * bs];
  }

  lemma AppendedOwned(e: Env, b: Store, v: Seq, token: Token)
    requires e.BlockSize() > 0 && Owned(e, b, v)
    ensures Owned(e, b, Appended(v, token))
  {
    hide ChainAt;
    var w := Appended(v, token);
    forall i | 0 <= i < |w.table| && w.table[i] < |b.blocks| && b.blocks[w.table[i]].hash != -1
      ensures (i + 1) * e.BlockSize() <= |v.tokens|
      ensures b.blocks[w.table[i]].hash
           == ChainAt(e.hasher, e.BlockSize(), w.req.namespace, w.tokens, i + 1)
    {
      ChainAtAppend(e.hasher, e.BlockSize(), v.req.namespace, v.tokens, token, i + 1);
    }
  }

  lemma AppendedCore(e: Env, b: Store, v: Seq, token: Token)
    requires e.BlockSize() > 0 && SeqCore(e, b, v) && Unfinished(Appended(v, token))
    ensures SeqCore(e, b, Appended(v, token))
  {
    var w := Appended(v, token);
    AppendedOwned(e, b, v, token);
    SameUsage(b, v, w, |v.table|, e.BlockSize());
    NumBlocksMonotone(|v.tokens|, |w.tokens|, e.BlockSize());
    hide Owned, HashedPrompt, NumBlocks;
  }

  lemma AppendedTrue(e: Env, mem: seq<KV>, v: Seq, token: Token)
    requires e.BlockSize() > 0 && v.req.prompt != [] && v.req.prompt <= v.tokens && SeqTrue(e, mem, v)
    requires v.numComputed <= |v.tokens| && |v.tokens| - |v.req.prompt| < v.req.gen.maxTokens
    requires token == NextToken(e.model, v.tokens, v.req.gen.temperature)
    requires !Stops(v.req.gen, e.eos, token)
    ensures SeqTrue(e, mem, Appended(v, token))
  {
    var w := Appended(v, token);
    KVsPrefix(e.model, w.tokens, |v.tokens|);
    assert w.tokens[..|v.tokens|] == v.tokens;
    forall p | 0 <= p < w.numComputed && p < |w.tokens| && p / e.BlockSize() < |w.table|
      ensures CellOf(e, mem, w, p) == KVs(e.model, w.tokens)[p]
    {
      assert CellOf(e, mem, v, p) == KVs(e.model, v.tokens)[p];
      assert KVs(e.model, w.tokens)[p] == KVs(e.model, w.tokens)[..|v.tokens|][p];
    }
  }

  lemma AppendInv(e: Env, b: Store, mem: seq<KV>, seqs: seq<Seq>, k: nat, token: Token)
    requires Inv(e, b, mem, seqs) && k < |seqs|
    requires seqs[k].req.gen.maxTokens > 0 && Unfinished(Appended(seqs[k], token))
    requires !Stops(seqs[k].req.gen, e.eos, token)
    requires CollisionFree(e) ==>
               seqs[k].tokens != [] && token == NextToken(e.model, seqs[k].tokens, seqs[k].req.gen.temperature)
    ensures Inv(e, b, mem, seqs[k := Appended(seqs[k], token)])
  {
    CoreAt(e, b, seqs, k);
    var v := seqs[k];
    AppendedCore(e, b, v, token);
    if CollisionFree(e) && SeqTrue(e, mem, v) { AppendedTrue(e, mem, v, token); }
    hide *;
    ViewInv(e, b, mem, seqs, k, Appended(v, token));
  }

  /* ---------- The end of a request ---------- */

  /** What a request generates alone: its prompt followed by its completion. */
  function Alone(e: Env, r: Request): seq<Token>
    requires r.prompt != []
  {
    Generate(e.model, e.eos, r.gen, |r.prompt|, r.prompt)
  }

  /** The token that ends a request completes exactly what the request generates alone. */
  lemma LastToken(e: Env, v: Seq, token: Token)
    requires v.req.prompt != [] && v.req.prompt <= v.tokens && OnTrack(e, v)
    requires v.req.gen.maxTokens > 0 && Unfinished(v)
    requires token == NextToken(e.model, v.tokens, v.req.gen.temperature)
    requires Stops(v.req.gen, e.eos, token) || |v.tokens| + 1 - |v.req.prompt| >= v.req.gen.maxTokens
    ensures v.tokens + [token] == Alone(e, v.req)
  {
  }

  /** At any moment, what a request has produced is a beginning of what it generates alone. */
  lemma OnTrackIsPrefix(e: Env, v: Seq)
    requires v.req.prompt != [] && v.req.prompt <= v.tokens && OnTrack(e, v)
    ensures v.tokens <= Alone(e, v.req)
  {
  }

  /** The three token counts reported for a request add up to its prompt, and the clamp at zero in
      the report never acts. */
  lemma UsageAddsUp(e: Env, b: Store, v: Seq)
    requires e.BlockSize() > 0 && SeqCore(e, b, v)
    ensures v.cacheRead + v.cacheCreated <= |v.req.prompt|
    ensures Max(0, |v.req.prompt| - v.cacheRead - v.cacheCreated) + v.cacheRead + v.cacheCreated == |v.req.prompt|
  {
    HashedPromptBound(b, v, |v.table|, e.BlockSize());
    PromptTokensTotal(v, |v.table|, e.BlockSize());
  }

  lemma {:induction false} HashedPromptBound(b: Store, v: Seq, k: nat, bs: nat)
    requires k <= |v.table|
    ensures HashedPrompt(b, v, k, bs) <= v.PromptTokensUpTo(k, bs)
  {
    if k > 0 { HashedPromptBound(b, v, k - 1, bs); }
  }

  /** When no request is left, no block is in use. */
  lemma NothingLeftNothingUsed(e: Env, b: Store)
    requires Core(e, b, [])
    ensures b.used == {} && |b.free| + |b.cached| == |b.blocks|
  {
    forall id: nat | id < |b.blocks| ensures id !in b.used { assert Placed(b, id); }
    assert b.used == {};
    PartitionCount(b);
  }

  /** At most one block exists per namespace and prefix. */
  lemma OneBlockPerPrefix(e: Env, b: Store, mem: seq<KV>, seqs: seq<Seq>, i: nat, j: nat)
    requires Inv(e, b, mem, seqs) && CollisionFree(e)
    requires i < |b.blocks| && j < |b.blocks| && b.blocks[i].hash == b.blocks[j].hash != -1
    ensures i == j
  {
  }

  /** The first k + 1 blocks of t. */
  function BlockPrefix(t: seq<Token>, k: nat, bs: nat): seq<Token> {
    if (k + 1) * bs <= |t| then t[..(k + 1) * bs] else t
  }

  /** Of all namespaces in use and all prefixes of whole blocks, only this one has this hash. */
  ghost predicate OnlyFor(e: Env, hash: int, namespace: string, t: seq<Token>)
    requires e.BlockSize() > 0
  {
    forall ns, u | e.Knows(ns) && WholeBlocks(u, e.BlockSize()) && |u| >= e.BlockSize()
                   && Chain(e.hasher, e.BlockSize(), ns, u) == hash :: ns == namespace && u == t
  }

  lemma ChainIsOnlyFor(e: Env, namespace: string, t: seq<Token>)
    requires CollisionFree(e) && e.Knows(namespace) && WholeBlocks(t, e.BlockSize())
    ensures OnlyFor(e, Chain(e.hasher, e.BlockSize(), namespace, t), namespace, t)
  {
    hide Chain, NoCollisions, WholeBlocks;
    var bs := e.BlockSize();
    forall ns, u | e.Knows(ns) && WholeBlocks(u, bs) && |u| >= bs
                   && Chain(e.hasher, bs, ns, u) == Chain(e.hasher, bs, namespace, t)
      ensures ns == namespace && u == t
    {
      ChainInjective(e.hasher, bs, e.names, ns, u, namespace, t);
    }
  }

  /** What a hit finds, on the store's own terms: a block with the chain hash of the sequence's prefix. */
  lemma HitHash(b: Store, h: Hasher, bs: nat, v: Seq, k: nat)
    requires bs > 0 && IndexSound(b) && Hit(b, h, bs, v, k)
    ensures (k + 1) * bs <= |v.tokens|
    ensures var t, id := BlockPrefix(v.tokens, k, bs), HitBlock(b, h, bs, v, k);
            && WholeBlocks(t, bs) && |t| >= bs && id < |b.blocks| && b.blocks[id].hash != -1
            && b.blocks[id].hash == Chain(h, bs, v.req.namespace, t)
  {
    hide Chain, WholeBlocks;
    WholePrefix(v.tokens, k, bs);
    ChainAtStep(h, bs, v.req.namespace, v.tokens, k);
  }

  /** A hit is isolated: a block found under a sequence's chain hash was cached for the same
      namespace and the same whole prefix, token for token. */
  lemma HitIsIsolated(e: Env, b: Store, mem: seq<KV>, seqs: seq<Seq>, v: Seq, k: nat)
    requires Inv(e, b, mem, seqs) && CollisionFree(e) && e.Knows(v.req.namespace)
    requires Hit(b, e.hasher, e.BlockSize(), v, k)
    ensures |BlockPrefix(v.tokens, k, e.BlockSize())| >= e.BlockSize()
    ensures var t, id := BlockPrefix(v.tokens, k, e.BlockSize()), HitBlock(b, e.hasher, e.BlockSize(), v, k);
            && id < |b.blocks| && b.blocks[id].namespace == v.req.namespace
            && BlockHolds(e, mem, id, t) && OnlyFor(e, b.blocks[id].hash, v.req.namespace, t)
  {
    hide Core, Hit, HitBlock, BlockPrefix, Chain, WholeBlocks, CollisionFree, BlockHolds, OnlyFor, SeqTrue, Valid;
    var bs, t := e.BlockSize(), BlockPrefix(v.tokens, k, e.BlockSize());
    InvStore(e, b, mem, seqs);
    assert IndexSound(b) by { ValidIndex(b, bs); }
    HitHash(b, e.hasher, bs, v, k);
    var id := HitBlock(b, e.hasher, bs, v, k);
    CorePrompts(e, b, seqs);
    assert HashTrue(e, b.blocks[id], mem, id);
    HashTrueAt(e, b.blocks[id], mem, id, v.req.namespace, t);
    ChainIsOnlyFor(e, v.req.namespace, t);
  }

  /** What is cached is found: a sequence of the same namespace that begins with the same i + 1 blocks
      gets a hit for block i. */
  lemma CachedIsFound(e: Env, b: Store, mem: seq<KV>, seqs: seq<Seq>, v: Seq, u: Seq, i: nat)
    requires e.BlockSize() > 0 && i < |v.table|
    requires (i + 1) * e.BlockSize() <= |v.tokens| && (i + 1) * e.BlockSize() <= |u.tokens|
    requires u.tokens[..(i + 1) * e.BlockSize()] == v.tokens[..(i + 1) * e.BlockSize()]
    requires IsCached(b, e.BlockSize(), e.hasher, v, i)
    requires e.Knows(v.req.namespace) && u.req.namespace == v.req.namespace
    requires Inv(e, b, mem, seqs) && CollisionFree(e)
    ensures Hit(b, e.hasher, e.BlockSize(), u, i)
  {
    hide Inv, Chain, WholeBlocks, CollisionFree, HashTrue, BlockOf, IndexComplete;
    var bs := e.BlockSize();
    InvStore(e, b, mem, seqs);
    InvTrue(e, b, mem, seqs);
    ChainAtStep(e.hasher, bs, v.req.namespace, v.tokens, i);
    LastBlock(v.tokens, u.tokens, i, bs);
    var id: nat :| id < |b.blocks| && IsCachedBy(b.blocks[id], id, bs, e.hasher, v, i);
    WholePrefix(v.tokens, i, bs);
    HashTrueAt(e, b.blocks[id], mem, id, v.req.namespace, v.tokens[..(i + 1) * bs]);
    Indexed(b, id);
  }

  lemma InvTrue(e: Env, b: Store, mem: seq<KV>, seqs: seq<Seq>)
    requires Inv(e, b, mem, seqs) && CollisionFree(e)
    ensures e.BlockSize() > 0 && StoreTrue(e, b, mem)
  {
    hide Valid, WithinQuotas, RefsExact, SeqCore, HashTrue, SeqTrue, IndexComplete;
  }

  lemma Indexed(b: Store, id: nat)
    requires IndexComplete(b) && id < |b.blocks| && b.blocks[id].hash != -1
    ensures b.blocks[id].hash in b.index && b.index[b.blocks[id].hash] == id
  {
  }

  /** Sequences that begin with the same i + 1 blocks have the same block i, the last one of them. */
  lemma LastBlock(t: seq<Token>, u: seq<Token>, i: nat, bs: nat)
    requires bs > 0 && (i + 1) * bs <= |t| && (i + 1) * bs <= |u|
    requires u[..(i + 1) * bs] == t[..(i + 1) * bs]
    ensures BlockOf(u, i, bs) == BlockOf(t, i, bs)
    ensures (i + 1) * bs >= bs && t[..(i + 1) * bs][(i + 1) * bs - bs..] == BlockOf(t, i, bs)
  {
    assert (i + 1) * bs == i * bs + bs && i * bs >= 0;
    assert BlockOf(u, i, bs) == u[..(i + 1) * bs][i * bs..];
    assert BlockOf(t, i, bs) == t[..(i + 1) * bs][i * bs..];
  }

  /** A second sequence finds what a first one has committed: if both are of one namespace and u
      begins with every block that u may look up as v does, and each of these was to be cached when
      v's first upTo tokens were committed, then a lookup for u attaches all it may. */
  lemma CommittedIsFound(e: Env, s: Store, b: Store, mem: seq<KV>, seqs: seq<Seq>, v: Seq, u: Seq, upTo: nat,
                         bv: int, bu: int, k: nat)
    requires Inv(e, b, mem, seqs) && CollisionFree(e) && e.Knows(v.req.namespace)
    requires upTo <= |v.tokens| && upTo <= |v.table| * e.BlockSize()
    requires CachedTo(s, b, e.cache, e.hasher, v, upTo)
    requires IsBoundary(v.req, upTo, bv) && IsBoundary(u.req, u.prefillTarget, bu) && Increasing(u.req.breakpoints)
    requires u.req.namespace == v.req.namespace && u.prefillTarget <= |u.tokens|
    requires k * e.BlockSize() <= |u.tokens| && k * e.BlockSize() <= |v.tokens|
    requires u.tokens[..k * e.BlockSize()] == v.tokens[..k * e.BlockSize()]
    requires forall i: nat | MayMatch(e.cache, u, bu, i) :: i < k && MayCommit(e.cache, v, upTo, bv, i)
    ensures forall i: nat :: MayMatch(e.cache, u, bu, i) <==> i < MatchCount(b, e.cache, e.hasher, u)
  {
    hide Inv, NoCollisions, Hit, IsBoundary, IsCached, Increasing, MatchLimit, MayMatch;
    InvStore(e, b, mem, seqs);
    var bs := e.BlockSize();
    var limit := MatchLimit(e.cache, u);
    LongestHitMeaning(b, e.hasher, bs, u, 0, limit);
    forall i: nat ensures i < limit <==> MayMatch(e.cache, u, bu, i) { MatchLimitExact(e.cache, u, bu, i); }
    var n := LongestHit(b, e.hasher, bs, u, 0, limit);
    if n < limit {
      assert MayCommit(e.cache, v, upTo, bv, n);
      MulMonotone(n + 1, k, bs);
      PrefixesAgree(u.tokens, v.tokens, (n + 1) * bs, k * bs);
      InTable(upTo, n, |v.table|, bs);
      CachedIsFound(e, b, mem, seqs, v, u, n);
    }
  }

  lemma PrefixesAgree(t: seq<Token>, u: seq<Token>, m: nat, n: nat)
    requires m <= n <= |t| && n <= |u| && t[..n] == u[..n]
    ensures t[..m] == u[..m]
  {
    assert t[..m] == t[..n][..m] && u[..m] == u[..n][..m];
  }

  lemma InTable(upTo: nat, i: nat, k: nat, bs: nat)
    requires bs > 0 && (i + 1) * bs <= upTo <= k * bs
    ensures i < k
  {
    assert (i + 1) * bs == i * bs + bs;
    if k <= i { MulMonotone(k, i, bs); }
  }

  lemma ValidIndex(b: Store, bs: nat)
    requires Valid(b, bs)
    ensures IndexSound(b)
  {
  }

  /** A computed position is read back, through its table, as the sequence's own entry. */
  lemma PositionHeld(e: Env, b: Store, mem: seq<KV>, seqs: seq<Seq>, k: nat, p: nat)
    requires Inv(e, b, mem, seqs) && CollisionFree(e) && e.BlockSize() > 0
    requires |mem| == |b.blocks| * e.BlockSize() && k < |seqs| && p < seqs[k].numComputed
    ensures var v := seqs[k];
            && p < |v.tokens| && p / e.BlockSize() < |v.table| && SlotAt(e, v, p) < |mem|
            && mem[SlotAt(e, v, p)] == KVs(e.model, v.tokens)[p]
  {
    hide Inv, KVs, Slot;
    var v := seqs[k];
    PositionKept(e, b, mem, seqs, k, p);
    PositionBlock(p, |v.table|, e.BlockSize());
    PositionSplit(p, e.BlockSize());
    SlotInRange(v.table[p / e.BlockSize()], p % e.BlockSize(), |b.blocks|, e.BlockSize());
    assert CellOf(e, mem, v, p) == KVs(e.model, v.tokens)[p];
  }

  lemma PositionKept(e: Env, b: Store, mem: seq<KV>, seqs: seq<Seq>, k: nat, p: nat)
    requires Inv(e, b, mem, seqs) && CollisionFree(e) && e.BlockSize() > 0
    requires k < |seqs| && p < seqs[k].numComputed
    ensures p < |seqs[k].tokens| && p < |seqs[k].table| * e.BlockSize()
    ensures SeqHolds(e, mem, seqs[k], seqs[k].numComputed)
    ensures forall i | 0 <= i < |seqs[k].table| :: seqs[k].table[i] < |b.blocks|
  {
    hide Valid, WithinQuotas, Owned, UsageExact, SeqHolds, IndexComplete, HashTrue, OnTrack, CollisionFree;
    InvAt(e, b, mem, seqs, k);
    CoreAt(e, b, seqs, k);
    assert SeqTrue(e, mem, seqs[k]);
  }
}

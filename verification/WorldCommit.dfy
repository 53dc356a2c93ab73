/** Committing computed blocks to the prefix cache keeps the invariants.  Only here is collision
    freedom used to learn something: that a hash in the index means one prefix. */
module WorldCommit {
  import opened Arithmetic
  import opened Blocks
  import opened BlockClaims
  import opened BlockSteps
  import opened Hashing
  import opened LanguageModel
  import opened PrefixCache
  import opened Sequences
  import opened WorldOps
  import opened WorldSteps
  import opened Worlds
  import opened Wrappers

  /* ---------- References and counts ---------- */

  /** Other sequences' blocks are shared or not v's, so a commit leaves them alone. */
  lemma CommitSparesOthers(e: Env, b: Store, b': Store, seqs: seq<Seq>, k: nat, j: nat, n: nat)
    requires Core(e, b, seqs) && k < |seqs| && j < |seqs| && j != k
    requires n <= |seqs[k].table| && n * e.BlockSize() <= |seqs[k].tokens|
    requires CommittedTo(b, b', e.BlockSize(), e.hasher, seqs[k], n)
    ensures SameTable(b, b', seqs[j])
  {
    var v, o := seqs[k], seqs[j];
    if j < k { AllRefsHasBoth(seqs, j, k); } else { AllRefsHasBoth(seqs, k, j); }
    forall i | 0 <= i < |o.table| && o.table[i] < |b.blocks| && o.table[i] < |b'.blocks|
      ensures SameContent(b.blocks[o.table[i]], b'.blocks[o.table[i]])
    {
      SharedIsSame(e, b, b', v, o, i, n, AllRefs(seqs));
    }
  }

  lemma SharedIsSame(e: Env, b: Store, b': Store, v: Seq, o: Seq, i: nat, n: nat, refs: multiset<nat>)
    requires e.BlockSize() > 0 && n <= |v.table| && n * e.BlockSize() <= |v.tokens|
    requires CommittedTo(b, b', e.BlockSize(), e.hasher, v, n) && Shaped(b, e.BlockSize())
    requires multiset(v.table) + multiset(o.table) <= refs
    requires i < |o.table| && o.table[i] < |b.blocks| && b.blocks[o.table[i]].refCount == refs[o.table[i]]
    ensures SameContent(b.blocks[o.table[i]], b'.blocks[o.table[i]])
  {
    var id := o.table[i];
    assert multiset(o.table)[id] > 0;
    if id in v.table[..n] {
      var x :| 0 <= x < n && v.table[..n][x] == id;
      assert v.table[x] == id && multiset(v.table)[id] > 0;
      assert refs[id] >= 2 && BlockShape(b.blocks[id], e.BlockSize());
    }
  }

  /** Hashing one block adds its prompt tokens to the count, once. */
  lemma {:induction false} HashedPromptOne(b: Store, b': Store, v: Seq, i: nat, k: nat, bs: nat)
    requires i < |v.table| && k <= |v.table| && |b'.blocks| == |b.blocks| && v.table[i] < |b.blocks|
    requires b.blocks[v.table[i]].hash == -1 && b'.blocks[v.table[i]].hash != -1
    requires forall x | 0 <= x < |v.table| && x != i && v.table[x] < |b.blocks| ::
               (b.blocks[v.table[x]].hash == -1) == (b'.blocks[v.table[x]].hash == -1)
    ensures HashedPrompt(b', v, k, bs) == HashedPrompt(b, v, k, bs) + if i < k then v.PromptTokens(i, bs) else 0
  {
    if k > 0 { HashedPromptOne(b, b', v, i, k - 1, bs); }
  }

  lemma CommitStepCounts(s: Store, m: CommitState, c: CacheConfig, h: Hasher, v: Seq, n: nat, now: real)
    requires c.blockSize > 0 && n < |v.table| && (n + 1) * c.blockSize <= |v.tokens|
    requires Valid(m.store, c.blockSize) && Holds(m.store, v.table)
    ensures v.table[n] < |m.store.blocks|
    ensures var r := CommitStep(m, c, h, v, n, now);
            HashedPrompt(r.store, v, |v.table|, c.blockSize) + m.created
              == HashedPrompt(m.store, v, |v.table|, c.blockSize) + r.created
  {
    var r := CommitStep(m, c, h, v, n, now);
    var id := v.table[n];
    assert BlockShape(m.store.blocks[id], c.blockSize);
    if r.store != m.store {
      forall x | 0 <= x < |v.table| && x != n ensures v.table[x] != id {
        if v.table[x] == id {
          TwiceCounted(v.table, if x < n then x else n, if x < n then n else x);
        }
      }
      HashedPromptOne(m.store, r.store, v, n, |v.table|, c.blockSize);
    }
  }

  lemma HoldsCommitted(s: Store, t: Store, bs: nat, h: Hasher, v: Seq, n: nat)
    requires bs > 0 && n <= |v.table| && n * bs <= |v.tokens|
    requires Holds(s, v.table) && CommittedTo(s, t, bs, h, v, n)
    ensures Holds(t, v.table)
  {
  }

  lemma {:induction false} CommitCounts(s: Store, c: CacheConfig, h: Hasher, v: Seq, n: nat, now: real)
    requires CanCommit(s, c, v, n)
    requires Valid(s, c.blockSize) && Holds(s, v.table) && OwnHashes(s, c.blockSize, h, v, |v.table|)
    ensures var r := CommitUpTo(s, c, h, v, n, now);
            HashedPrompt(r.store, v, |v.table|, c.blockSize)
              == HashedPrompt(s, v, |v.table|, c.blockSize) + r.created
    decreases n
  {
    hide Valid, Holds, OwnHashes, CommitStep, HashedPrompt, CommittedTo, ChainAt;
    if n > 0 {
      MulMonotone(n - 1, n, c.blockSize);
      CommitUpToNext(s, c, h, v, n - 1, now);
      CommitCounts(s, c, h, v, n - 1, now);
      OwnHashesLess(s, c.blockSize, h, v, n - 1);
      CommitUpToKeeps(s, c, h, v, n - 1, now);
      var m := CommitUpTo(s, c, h, v, n - 1, now);
      HoldsCommitted(s, m.store, c.blockSize, h, v, n - 1);
      CommitStepCounts(s, m, c, h, v, n - 1, now);
    } else {
      NoneCommitted(s, c, h, v, now);
    }
  }

  lemma OwnHashesLess(s: Store, bs: nat, h: Hasher, v: Seq, n: nat)
    requires bs > 0 && n <= |v.table| && OwnHashes(s, bs, h, v, |v.table|)
    ensures OwnHashes(s, bs, h, v, n)
  {
  }

  lemma NoneCommitted(s: Store, c: CacheConfig, h: Hasher, v: Seq, now: real)
    requires CanCommit(s, c, v, 0)
    ensures CommitUpTo(s, c, h, v, 0, now) == CommitState(s, InitialHash(h, v.req.namespace), 0)
  {
  }

  lemma CommittedOwned(e: Env, b: Store, b': Store, v: Seq, w: Seq, n: nat)
    requires e.BlockSize() > 0 && n <= |v.table| && n * e.BlockSize() <= v.numComputed <= |v.tokens|
    requires CommittedTo(b, b', e.BlockSize(), e.hasher, v, n) && Owned(e, b, v)
    requires Holds(b, v.table) && Shaped(b, e.BlockSize())
    requires w == v.(cacheCreated := w.cacheCreated)
    ensures Owned(e, b', w)
  {
    hide ChainAt;
    forall i | 0 <= i < |w.table| && w.table[i] < |b'.blocks| && b'.blocks[w.table[i]].hash != -1
      ensures OwnBlockAt(e, b', w, i) && (i + 1) * e.BlockSize() <= w.numComputed
    {
      CommittedOwnedAt(e, b, b', v, n, i);
    }
    forall i | 0 <= i < |w.table| && w.table[i] < |b'.blocks| && b'.blocks[w.table[i]].hash != -1
      ensures (i + 1) * e.BlockSize() <= |w.tokens|
      ensures b'.blocks[w.table[i]].hash
           == ChainAt(e.hasher, e.BlockSize(), w.req.namespace, w.tokens, i + 1)
    {
      assert OwnBlockAt(e, b', w, i);
    }
  }

  lemma CommittedOwnedAt(e: Env, b: Store, b': Store, v: Seq, n: nat, i: nat)
    requires e.BlockSize() > 0 && n <= |v.table| && n * e.BlockSize() <= v.numComputed <= |v.tokens|
    requires CommittedTo(b, b', e.BlockSize(), e.hasher, v, n) && Owned(e, b, v)
    requires Holds(b, v.table) && Shaped(b, e.BlockSize())
    requires i < |v.table| && v.table[i] < |b'.blocks| && b'.blocks[v.table[i]].hash != -1
    ensures OwnBlockAt(e, b', v, i) && (i + 1) * e.BlockSize() <= v.numComputed
  {
    var id := v.table[i];
    assert BlockShape(b.blocks[id], e.BlockSize());
    if b.blocks[id].hash == -1 {
      assert id in v.table[..n];
      var j :| 0 <= j < n && v.table[..n][j] == id;
      assert v.table[j] == id;
      if j < i { TwiceCounted(v.table, j, i); }
      if i < j { TwiceCounted(v.table, i, j); }
      MulMonotone(i + 1, n, e.BlockSize());
    }
  }

  lemma CommittedCore(e: Env, b: Store, seqs: seq<Seq>, k: nat, now: real)
    requires Core(e, b, seqs) && k < |seqs|
    ensures var v := seqs[k];
            && CommitLimit(e.cache, v, v.numComputed) <= |v.table|
            && CanCommit(b, e.cache, v, CommitLimit(e.cache, v, v.numComputed))
    ensures var r := Committed(b, e.cache, e.hasher, seqs[k], seqs[k].numComputed, now);
            Core(e, r.store, seqs[k := seqs[k].(cacheCreated := seqs[k].cacheCreated + r.created)])
  {
    var v := seqs[k];
    var n := CommitLimit(e.cache, v, v.numComputed);
    CoreAt(e, b, seqs, k);
    CommitLimitFits(e.cache, v, v.numComputed);
    CommitLimitWithin(e.cache, v, v.numComputed);
    CommitUpToKeeps(b, e.cache, e.hasher, v, n, now);
    CommitCounts(b, e.cache, e.hasher, v, n, now);
    var r := Committed(b, e.cache, e.hasher, v, v.numComputed, now);
    var w := v.(cacheCreated := v.cacheCreated + r.created);
    CommittedSeqCore(e, b, r, v, w, n);
    forall j | 0 <= j < |seqs| && j != k ensures SeqCore(e, r.store, seqs[j]) {
      hide *;
      CommitSparesOthers(e, b, r.store, seqs, k, j, n);
      CoreAt(e, b, seqs, j);
      SeqCoreKept(e, b, r.store, seqs[j]);
    }
    CommittedRefs(e, b, r.store, seqs, k, w, n);
    hide Valid, WithinQuotas, SeqCore, Committed, CommittedTo, RefsExact, CommitLimit;
  }

  lemma CommittedSeqCore(e: Env, b: Store, r: CommitState, v: Seq, w: Seq, n: nat)
    requires e.BlockSize() > 0 && n <= |v.table| && n * e.BlockSize() <= v.numComputed <= |v.tokens|
    requires SeqCore(e, b, v) && Holds(b, v.table) && Shaped(b, e.BlockSize())
    requires CommittedTo(b, r.store, e.BlockSize(), e.hasher, v, n)
    requires w == v.(cacheCreated := v.cacheCreated + r.created)
    requires HashedPrompt(r.store, v, |v.table|, e.BlockSize())
          == HashedPrompt(b, v, |v.table|, e.BlockSize()) + r.created
    ensures SeqCore(e, r.store, w)
  {
    CommittedOwned(e, b, r.store, v, w, n);
    SameUsage(r.store, v, w, |v.table|, e.BlockSize());
    hide Owned, CommittedTo, Holds, Shaped, HashedPrompt;
  }

  lemma {:induction false} SameUsage(b: Store, v: Seq, w: Seq, k: nat, bs: nat)
    requires v.table == w.table && v.req == w.req && k <= |v.table|
    ensures HashedPrompt(b, v, k, bs) == HashedPrompt(b, w, k, bs)
  {
    if k > 0 { SameUsage(b, v, w, k - 1, bs); }
  }

  lemma CommittedRefs(e: Env, b: Store, b': Store, seqs: seq<Seq>, k: nat, w: Seq, n: nat)
    requires e.BlockSize() > 0 && k < |seqs| && RefsExact(b, seqs) && w.table == seqs[k].table
    requires n <= |seqs[k].table| && n * e.BlockSize() <= |seqs[k].tokens|
    requires CommittedTo(b, b', e.BlockSize(), e.hasher, seqs[k], n)
    ensures RefsExact(b', seqs[k := w])
  {
    assert TableInRange(b, seqs[k]);
    RefsExactAfter(b, b', seqs, k, w);
  }

  /* ---------- Truth ---------- */

  /** Index and hashes tell the truth. */
  ghost predicate StoreTrue(e: Env, b: Store, mem: seq<KV>)
    requires e.BlockSize() > 0
  {
    && IndexComplete(b)
    && forall id | 0 <= id < |b.blocks| && b.blocks[id].hash != -1 :: HashTrue(e, b.blocks[id], mem, id)
  }

  /** If a hash is indexed, its block is a duplicate of what is being committed. */
  lemma IndexedIsDuplicate(e: Env, b: Store, mem: seq<KV>, v: Seq, n: nat, id: nat, hash: int)
    requires e.BlockSize() > 0 && (n + 1) * e.BlockSize() <= |v.tokens| && e.Knows(v.req.namespace)
    requires StoreTrue(e, b, mem) && IndexSound(b) && id < |b.blocks| && b.blocks[id].hash == -1
    requires hash == ChainAt(e.hasher, e.BlockSize(), v.req.namespace, v.tokens, n + 1) && hash in b.index
    ensures DuplicateOf(b, hash, id, BlockOf(v.tokens, n, e.BlockSize()))
  {
    hide HashTrue, IndexComplete, BlockHolds, Chain, WholeBlocks;
    var bs := e.BlockSize();
    var t := v.tokens[..(n + 1) * bs];
    WholePrefix(v.tokens, n, bs);
    var x := b.index[hash];
    assert HashTrue(e, b.blocks[x], mem, x);
    HashTrueAt(e, b.blocks[x], mem, x, v.req.namespace, t);
    assert t[|t| - bs..] == BlockOf(v.tokens, n, bs);
  }

  lemma HashTrueAt(e: Env, blk: Block, mem: seq<KV>, id: nat, ns: string, t: seq<Token>)
    requires e.BlockSize() > 0 && HashTrue(e, blk, mem, id) && e.Knows(ns)
    requires |t| >= e.BlockSize() && WholeBlocks(t, e.BlockSize())
    requires Chain(e.hasher, e.BlockSize(), ns, t) == blk.hash
    ensures blk.namespace == ns && blk.tokenIds == Some(t[|t| - e.BlockSize()..]) && BlockHolds(e, mem, id, t)
  {
  }

  /** The block just computed, under its new hash, tells the truth: no other prefix has this hash. */
  lemma NewHashTrue(e: Env, blk: Block, mem: seq<KV>, v: Seq, n: nat)
    requires e.BlockSize() > 0 && CollisionFree(e) && e.Knows(v.req.namespace)
    requires n < |v.table| && (n + 1) * e.BlockSize() <= v.numComputed <= |v.tokens|
    requires SeqHolds(e, mem, v, v.numComputed)
    requires HashedAs(blk, e.BlockSize(), e.hasher, v, n)
    ensures HashTrue(e, blk, mem, v.table[n])
  {
    hide NoCollisions, Chain, WholeBlocks, BlockHolds, SeqHolds;
    var bs := e.BlockSize();
    var t := v.tokens[..(n + 1) * bs];
    WholePrefix(v.tokens, n, bs);
    forall ns, u | e.Knows(ns) && |u| >= bs && WholeBlocks(u, bs) && Chain(e.hasher, bs, ns, u) == blk.hash
      ensures blk.namespace == ns && blk.tokenIds == Some(u[|u| - bs..]) && BlockHolds(e, mem, v.table[n], u)
    {
      ChainInjective(e.hasher, bs, e.names, ns, u, v.req.namespace, t);
      assert t[|t| - bs..] == BlockOf(v.tokens, n, bs);
      CommittedBlockHolds(e, mem, v, n);
    }
  }

  lemma CommittedBlockHolds(e: Env, mem: seq<KV>, v: Seq, n: nat)
    requires e.BlockSize() > 0
    requires n < |v.table| && (n + 1) * e.BlockSize() <= v.numComputed <= |v.tokens|
    requires SeqHolds(e, mem, v, v.numComputed)
    ensures |v.tokens[..(n + 1) * e.BlockSize()]| >= e.BlockSize()
    ensures BlockHolds(e, mem, v.table[n], v.tokens[..(n + 1) * e.BlockSize()])
  {
    var bs := e.BlockSize();
    WholePrefix(v.tokens, n, bs);
    var t := v.tokens[..(n + 1) * bs];
    KVsPrefix(e.model, v.tokens, (n + 1) * bs);
    forall off | 0 <= off < bs
      ensures Cell(mem, v.table[n], off, bs) == KVs(e.model, t)[|t| - bs + off]
    {
      var p := n * bs + off;
      DivModUnique(bs, n, off);
      assert bs * n + off == p;
      assert CellOf(e, mem, v, p) == KVs(e.model, v.tokens)[p];
    }
  }

  lemma CommitStepTrue(e: Env, m: CommitState, mem: seq<KV>, v: Seq, n: nat, now: real)
    requires e.BlockSize() > 0 && CollisionFree(e) && e.Knows(v.req.namespace)
    requires n < |v.table| && v.table[n] < |m.store.blocks|
    requires (n + 1) * e.BlockSize() <= v.numComputed <= |v.tokens| && 0 <= n * e.BlockSize() <= |v.tokens|
    requires SeqHolds(e, mem, v, v.numComputed)
    requires StoreTrue(e, m.store, mem) && IndexSound(m.store)
    requires m.prefix == ChainAt(e.hasher, e.BlockSize(), v.req.namespace, v.tokens, n)
    ensures StoreTrue(e, CommitStep(m, e.cache, e.hasher, v, n, now).store, mem)
  {
    var id := v.table[n];
    var toks := BlockOf(v.tokens, n, e.BlockSize());
    ChainAtStep(e.hasher, e.BlockSize(), v.req.namespace, v.tokens, n);
    var hash := e.hasher.Block(toks, m.prefix);
    var r := CommitStep(m, e.cache, e.hasher, v, n, now).store;
    if m.store.blocks[id].hash == -1 && !DuplicateOf(m.store, hash, id, toks) {
      if hash in m.store.index { IndexedIsDuplicate(e, m.store, mem, v, n, id, hash); }
      NewHashTrue(e, r.blocks[id], mem, v, n);
      NewHashKeepsOthers(e, m.store, r, mem, id, hash);
    }
  }

  lemma NewHashKeepsOthers(e: Env, b: Store, b': Store, mem: seq<KV>, id: nat, hash: int)
    requires e.BlockSize() > 0 && StoreTrue(e, b, mem) && id < |b.blocks|
    requires |b'.blocks| == |b.blocks| && b'.index == b.index[hash := id] && b'.blocks[id].hash == hash
    requires forall x | 0 <= x < |b.blocks| && x != id :: b'.blocks[x] == b.blocks[x]
    requires hash !in b.index && HashTrue(e, b'.blocks[id], mem, id)
    ensures StoreTrue(e, b', mem)
  {
    hide HashTrue;
  }

  /** What a commit has come to is sound and continues the chain of the sequence's own prefix. */
  lemma CommitUpToSound(s: Store, c: CacheConfig, h: Hasher, v: Seq, n: nat, now: real)
    requires CanCommit(s, c, v, n) && n < |v.table|
    requires Valid(s, c.blockSize) && Holds(s, v.table) && OwnHashes(s, c.blockSize, h, v, |v.table|)
    ensures var m := CommitUpTo(s, c, h, v, n, now);
            && IndexSound(m.store) && v.table[n] < |m.store.blocks|
            && n * c.blockSize <= |v.tokens|
            && m.prefix == ChainAt(h, c.blockSize, v.req.namespace, v.tokens, n)
  {
    hide CommitUpTo, Holds, ChainAt;
    CommitUpToKeeps(s, c, h, v, n, now);
  }

  lemma {:induction false} CommitUpToTrue(e: Env, b: Store, mem: seq<KV>, v: Seq, n: nat, now: real)
    requires e.BlockSize() > 0 && CollisionFree(e) && e.Knows(v.req.namespace) && CanCommit(b, e.cache, v, n)
    requires n * e.BlockSize() <= v.numComputed <= |v.tokens|
    requires Valid(b, e.BlockSize()) && Holds(b, v.table)
    requires OwnHashes(b, e.BlockSize(), e.hasher, v, |v.table|)
    requires SeqHolds(e, mem, v, v.numComputed) && StoreTrue(e, b, mem)
    ensures StoreTrue(e, CommitUpTo(b, e.cache, e.hasher, v, n, now).store, mem)
    decreases n
  {
    hide StoreTrue, SeqHolds, CommitStep, Holds, OwnHashes, Valid, CollisionFree, ChainAt, IndexSound;
    if n > 0 {
      CommitUpToNext(b, e.cache, e.hasher, v, n - 1, now);
      MulMonotone(0, n - 1, e.BlockSize());
      MulMonotone(n - 1, n, e.BlockSize());
      CommitUpToSound(b, e.cache, e.hasher, v, n - 1, now);
      var m := CommitUpTo(b, e.cache, e.hasher, v, n - 1, now);
      CommitUpToTrue(e, b, mem, v, n - 1, now);
      CommitStepTrue(e, m, mem, v, n - 1, now);
    }
  }

  /** A commit keeps everything. */
  lemma CommitInv(e: Env, b: Store, mem: seq<KV>, seqs: seq<Seq>, k: nat, now: real)
    requires Inv(e, b, mem, seqs) && k < |seqs|
    ensures var v := seqs[k]; CanCommit(b, e.cache, v, CommitLimit(e.cache, v, v.numComputed))
    ensures var r := Committed(b, e.cache, e.hasher, seqs[k], seqs[k].numComputed, now);
            Inv(e, r.store, mem, seqs[k := seqs[k].(cacheCreated := seqs[k].cacheCreated + r.created)])
  {
    CommittedCore(e, b, seqs, k, now);
    if CollisionFree(e) { CommittedTruth(e, b, mem, seqs, k, now); }
  }

  lemma CommittedStoreTrue(e: Env, b: Store, mem: seq<KV>, seqs: seq<Seq>, k: nat, now: real)
    requires Core(e, b, seqs) && Truth(e, b, mem, seqs) && k < |seqs| && CollisionFree(e)
    requires CanCommit(b, e.cache, seqs[k], CommitLimit(e.cache, seqs[k], seqs[k].numComputed))
    ensures StoreTrue(e, Committed(b, e.cache, e.hasher, seqs[k], seqs[k].numComputed, now).store, mem)
    ensures SeqTrue(e, mem, seqs[k])
  {
    var v := seqs[k];
    CoreAt(e, b, seqs, k);
    CommitLimitWithin(e.cache, v, v.numComputed);
    assert StoreTrue(e, b, mem) && SeqTrue(e, mem, v);
    CommitUpToTrue(e, b, mem, v, CommitLimit(e.cache, v, v.numComputed), now);
  }

  lemma CommittedTruth(e: Env, b: Store, mem: seq<KV>, seqs: seq<Seq>, k: nat, now: real)
    requires Core(e, b, seqs) && Truth(e, b, mem, seqs) && k < |seqs| && CollisionFree(e)
    requires CanCommit(b, e.cache, seqs[k], CommitLimit(e.cache, seqs[k], seqs[k].numComputed))
    ensures var r := Committed(b, e.cache, e.hasher, seqs[k], seqs[k].numComputed, now);
            var all := seqs[k := seqs[k].(cacheCreated := seqs[k].cacheCreated + r.created)];
            PromptsOk(all) && Truth(e, r.store, mem, all)
  {
    hide Core, HashTrue, CollisionFree, Committed, IndexComplete, CommitLimit, CanCommit, SeqHolds, OnTrack;
    CommittedStoreTrue(e, b, mem, seqs, k, now);
    CorePrompts(e, b, seqs);
    var r := Committed(b, e.cache, e.hasher, seqs[k], seqs[k].numComputed, now);
    var all := seqs[k := seqs[k].(cacheCreated := seqs[k].cacheCreated + r.created)];
    assert PromptsOk(all);
    assert StoreTrue(e, r.store, mem);
    forall j | 0 <= j < |all| ensures SeqTrue(e, mem, all[j]) {
      assert SeqTrue(e, mem, seqs[j]);
      SeqTrueRecounted(e, mem, seqs[j], all[j]);
    }
  }

  /** What is true of a sequence does not depend on its usage count. */
  lemma SeqTrueRecounted(e: Env, mem: seq<KV>, v: Seq, w: Seq)
    requires e.BlockSize() > 0 && v.req.prompt != [] && v.req.prompt <= v.tokens
    requires SeqTrue(e, mem, v) && w == v.(cacheCreated := w.cacheCreated)
    ensures SeqTrue(e, mem, w)
  {
  }
}

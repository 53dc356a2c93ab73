/** The invariants are kept by purging, matching, allocating and releasing. */
module WorldOps {
  import opened Arithmetic
  import opened Blocks
  import opened BlockClaims
  import opened BlockSteps
  import opened Hashing
  import opened LanguageModel
  import opened PrefixCache
  import opened Sequences
  import opened WorldSteps
  import opened Worlds
  import opened Wrappers

  /* ---------- Steps that only touch idle blocks ---------- */

  lemma StoreInv(e: Env, b: Store, b': Store, mem: seq<KV>, seqs: seq<Seq>)
    requires Inv(e, b, mem, seqs) && Evolves(b, b') && Counted(b, b', multiset{}, multiset{})
    requires Valid(b', e.BlockSize()) && WithinQuotas(b', e.cache)
    ensures Inv(e, b', mem, seqs)
  {
    StoreCore(e, b, b', seqs);
    if CollisionFree(e) { StoreTruth(e, b, b', mem, seqs); }
  }

  lemma StoreCore(e: Env, b: Store, b': Store, seqs: seq<Seq>)
    requires Core(e, b, seqs) && Evolves(b, b') && Counted(b, b', multiset{}, multiset{})
    requires Valid(b', e.BlockSize()) && WithinQuotas(b', e.cache)
    ensures Core(e, b', seqs)
  {
    assert RefsExact(b', seqs) by {
      forall j | 0 <= j < |seqs| ensures TableInRange(b', seqs[j]) { assert TableInRange(b, seqs[j]); }
    }
    hide Valid, WithinQuotas, RefsExact, Counted, TableInRange, SeqCore, Evolves;
    forall j | 0 <= j < |seqs| ensures SeqCore(e, b', seqs[j]) {
      HeldTableKept(b, b', seqs, seqs, j, j);
      SeqCoreKept(e, b, b', seqs[j]) by { EvolvesCount(b, b'); }
    }
  }

  lemma StoreTruth(e: Env, b: Store, b': Store, mem: seq<KV>, seqs: seq<Seq>)
    requires e.BlockSize() > 0 && PromptsOk(seqs)
    requires Truth(e, b, mem, seqs) && Evolves(b, b')
    ensures Truth(e, b', mem, seqs)
  {
    IndexCompleteKept(b, b');
    forall id | 0 <= id < |b'.blocks| && b'.blocks[id].hash != -1
      ensures HashTrue(e, b'.blocks[id], mem, id)
    {
      HashTrueKept(e, b, b', mem, id);
    }
    hide HashTrue, SeqTrue, Evolves, IndexComplete;
  }

  lemma PurgeInv(e: Env, b: Store, b': Store, mem: seq<KV>, seqs: seq<Seq>, gone: set<nat>)
    requires Inv(e, b, mem, seqs) && PurgedTo(b, b', gone)
    ensures Inv(e, b', mem, seqs)
  {
    hide SeqCore, RefsExact, Truth;
    PurgedSteps(b, b', gone);
    PurgedKeepsValid(b, b', gone, e.BlockSize());
    PurgedKeepsQuotas(b, b', gone, e.cache);
    GrowsEvolves(b, b');
    hide *;
    StoreInv(e, b, b', mem, seqs);
  }

  /* ---------- Matching ---------- */

  predicate Prefilling(v: Seq) {
    v.status != FINISHED && !v.PromptReady() && v.prefillTarget == |v.tokens|
  }

  lemma {:induction false} MatchedPrompt(b: Store, w: Seq, k: nat, bs: nat)
    requires k <= |w.table|
    requires forall i | 0 <= i < k :: w.table[i] < |b.blocks| && b.blocks[w.table[i]].hash != -1
    ensures HashedPrompt(b, w, k, bs) == w.PromptTokensUpTo(k, bs)
  {
    if k > 0 { MatchedPrompt(b, w, k - 1, bs); }
  }

  /** What matching attaches, seen from the store it attaches in. */
  ghost predicate Attached(e: Env, b: Store, v: Seq, w: Seq, k: nat)
    requires e.BlockSize() > 0
  {
    && v.table == [] && |w.table| == k && v.numComputed == 0
    && w == v.(table := w.table, numCached := w.numCached, numComputed := k * e.BlockSize(),
               cacheRead := w.PromptTokensUpTo(k, e.BlockSize()), cacheCreated := 0)
    && k * e.BlockSize() < v.prefillTarget
    && forall i | 0 <= i < k :: OwnBlockAt(e, b, w, i)
  }

  /** Block i of w's table is hashed, with the chain hash of w's own prefix. */
  ghost predicate OwnBlockAt(e: Env, b: Store, w: Seq, i: nat)
    requires e.BlockSize() > 0 && i < |w.table|
  {
    && w.table[i] < |b.blocks|
    && b.blocks[w.table[i]].hash != -1
    && (i + 1) * e.BlockSize() <= |w.tokens|
    && b.blocks[w.table[i]].hash == ChainAt(e.hasher, e.BlockSize(), w.req.namespace, w.tokens, i + 1)
  }

  lemma AttachedShape(e: Env, b: Store, v: Seq, w: Seq, k: nat)
    requires e.BlockSize() > 0 && Shape(e, v) && Attached(e, b, v, w, k)
    ensures Shape(e, w)
  {
    var n := NumBlocks(|w.tokens|, e.BlockSize());
    NumBlocksLeast(|w.tokens|, n, e.BlockSize());
    if k > n { MulMonotone(n, k, e.BlockSize()); }
  }

  lemma AttachedUsage(e: Env, b: Store, v: Seq, w: Seq, k: nat)
    requires e.BlockSize() > 0 && Attached(e, b, v, w, k)
    ensures UsageExact(e, b, w) && TableInRange(b, w)
  {
    forall i | 0 <= i < k ensures w.table[i] < |b.blocks| && b.blocks[w.table[i]].hash != -1 {
      assert OwnBlockAt(e, b, w, i);
    }
    MatchedPrompt(b, w, k, e.BlockSize());
  }

  lemma AttachedOwned(e: Env, b: Store, v: Seq, w: Seq, k: nat)
    requires e.BlockSize() > 0 && Attached(e, b, v, w, k)
    ensures Owned(e, b, w)
  {
    hide ChainAt;
    forall i | 0 <= i < |w.table| && w.table[i] < |b.blocks|
      ensures (i + 1) * e.BlockSize() <= w.numComputed && OwnBlockAt(e, b, w, i)
    {
      MulMonotone(i + 1, k, e.BlockSize());
    }
  }

  lemma AttachedCore(e: Env, b: Store, v: Seq, w: Seq, k: nat)
    requires e.BlockSize() > 0 && Shape(e, v) && Attached(e, b, v, w, k)
    ensures SeqCore(e, b, w) && TableInRange(b, w)
  {
    hide *;
    AttachedShape(e, b, v, w, k);
    AttachedUsage(e, b, v, w, k);
    AttachedOwned(e, b, v, w, k);
    SeqCoreOf(e, b, w);
  }

  lemma SeqCoreOf(e: Env, b: Store, w: Seq)
    requires e.BlockSize() > 0 && Shape(e, w) && Owned(e, b, w) && UsageExact(e, b, w)
    ensures SeqCore(e, b, w)
  {
  }

  /** A hit is sound: the attached blocks hold the sequence's own entries. */
  lemma AttachedHolds(e: Env, b: Store, mem: seq<KV>, v: Seq, w: Seq, k: nat)
    requires e.BlockSize() > 0 && Attached(e, b, v, w, k) && e.Knows(w.req.namespace)
    requires forall id | 0 <= id < |b.blocks| && b.blocks[id].hash != -1 :: HashTrue(e, b.blocks[id], mem, id)
    ensures SeqHolds(e, mem, w, w.numComputed)
  {
    var bs := e.BlockSize();
    forall p | 0 <= p < w.numComputed && p < |w.tokens| && p / bs < |w.table|
      ensures CellOf(e, mem, w, p) == KVs(e.model, w.tokens)[p]
    {
      var i := p / bs;
      AttachedCell(e, b, mem, v, w, k, i, p % bs);
      PositionSplit(p, bs);
    }
  }

  lemma AttachedCell(e: Env, b: Store, mem: seq<KV>, v: Seq, w: Seq, k: nat, i: nat, off: nat)
    requires e.BlockSize() > 0 && Attached(e, b, v, w, k) && i < k && off < e.BlockSize()
    requires e.Knows(w.req.namespace)
    requires forall id | 0 <= id < |b.blocks| && b.blocks[id].hash != -1 :: HashTrue(e, b.blocks[id], mem, id)
    ensures 0 <= i * e.BlockSize() && i * e.BlockSize() + off < |w.tokens|
    ensures Cell(mem, w.table[i], off, e.BlockSize()) == KVs(e.model, w.tokens)[i * e.BlockSize() + off]
  {
    assert OwnBlockAt(e, b, w, i);
    hide Attached, HashTrue, BlockHolds, Cell, KVs;
    OwnBlockTrue(e, b, mem, w, i);
    BlockOfPrefix(e, mem, w.table[i], w.tokens, i, off);
  }

  /** A block with the chain hash of w's own prefix holds that prefix's entries. */
  lemma OwnBlockTrue(e: Env, b: Store, mem: seq<KV>, w: Seq, i: nat)
    requires e.BlockSize() > 0 && i < |w.table| && OwnBlockAt(e, b, w, i) && e.Knows(w.req.namespace)
    requires HashTrue(e, b.blocks[w.table[i]], mem, w.table[i])
    ensures e.BlockSize() <= (i + 1) * e.BlockSize() <= |w.tokens|
    ensures BlockHolds(e, mem, w.table[i], w.tokens[..(i + 1) * e.BlockSize()])
  {
    hide BlockHolds, Chain, WholeBlocks, KVs;
    WholePrefix(w.tokens, i, e.BlockSize());
  }

  lemma WholePrefix(t: seq<Token>, n: nat, bs: nat)
    requires bs > 0 && (n + 1) * bs <= |t|
    ensures 0 <= n * bs && (n + 1) * bs == n * bs + bs
    ensures WholeBlocks(t[..(n + 1) * bs], bs) && |t[..(n + 1) * bs]| == n * bs + bs
  {
    assert (n + 1) * bs == n * bs + bs && n * bs >= 0;
    DivModUnique(bs, n + 1, 0);
    assert bs * (n + 1) + 0 == (n + 1) * bs;
  }

  lemma BlockOfPrefix(e: Env, mem: seq<KV>, id: nat, t: seq<Token>, i: nat, off: nat)
    requires off < e.BlockSize() <= (i + 1) * e.BlockSize() <= |t|
    requires BlockHolds(e, mem, id, t[..(i + 1) * e.BlockSize()])
    ensures 0 <= i * e.BlockSize() && i * e.BlockSize() + off < |t|
    ensures Cell(mem, id, off, e.BlockSize()) == KVs(e.model, t)[i * e.BlockSize() + off]
  {
    hide Cell, KVs;
    var bs := e.BlockSize();
    var whole := t[..(i + 1) * bs];
    assert (i + 1) * bs == i * bs + bs;
    KVsPrefix(e.model, t, (i + 1) * bs);
    assert KVs(e.model, whole)[i * bs + off] == KVs(e.model, t)[i * bs + off];
  }

  lemma MatchedAttaches(e: Env, b: Store, mid: Store, b': Store, v: Seq, w: Seq, now: real)
    requires e.BlockSize() > 0 && Shape(e, v) && Prefilling(v) && MatchApplies(e.cache, v)
    requires MatchedTo(b, mid, b', e.cache, e.hasher, v, w, now)
    ensures Attached(e, mid, v, w, MatchCount(mid, e.cache, e.hasher, v))
  {
    var k := MatchCount(mid, e.cache, e.hasher, v);
    HitBlocksExist(mid, e.cache, e.hasher, v, k);
    MatchLimitZero(e, v, k);
    SamePromptTokens(v, w, k, e.BlockSize());
    assert w == MatchedSeq(mid, e.cache, e.hasher, v, k);
    hide Hit, HitBlock, Valid, WithinQuotas, ChainAt, MatchedTo, MatchLimit, MatchCount, MatchIds;
    forall i | 0 <= i < k ensures OwnBlockAt(e, mid, w, i) {
      assert w.table[i] == MatchIds(mid, e.cache, e.hasher, v, k)[i];
    }
  }

  lemma AttachedSame(e: Env, b: Store, b': Store, v: Seq, w: Seq, k: nat)
    requires e.BlockSize() > 0 && |b'.blocks| == |b.blocks| && Attached(e, b, v, w, k)
    requires forall id | 0 <= id < |b.blocks| :: SameContent(b.blocks[id], b'.blocks[id])
    ensures Attached(e, b', v, w, k)
  {
    forall i | 0 <= i < k ensures OwnBlockAt(e, b', w, i) { assert OwnBlockAt(e, b, w, i); }
  }

  lemma MatchedGrows(e: Env, b: Store, mid: Store, b': Store, v: Seq, w: Seq, now: real)
    requires e.BlockSize() > 0 && MatchApplies(e.cache, v)
    requires MatchedTo(b, mid, b', e.cache, e.hasher, v, w, now)
    ensures Valid(b', e.BlockSize()) && Grows(mid, b')
    ensures Counted(mid, b', multiset(v.table), multiset(w.table))
    ensures WithinQuotas(mid, e.cache) ==> WithinQuotas(b', e.cache)
    ensures forall id | 0 <= id < |mid.blocks| :: SameContent(mid.blocks[id], b'.blocks[id])
  {
    var k := MatchCount(mid, e.cache, e.hasher, v);
    MatchedKeeps(mid, e.cache, e.hasher, v, k, now);
    hide Hit, HitBlock, Valid, WithinQuotas, Grows, MatchedStore, Selected, MatchCount, PurgedTo;
  }

  lemma MatchLimitZero(e: Env, v: Seq, k: nat)
    requires e.BlockSize() > 0 && Shape(e, v) && v.table == [] && k <= MatchLimit(e.cache, v)
    ensures v.numComputed == 0 && 0 <= k * e.BlockSize() < v.prefillTarget
  {
    assert 0 * e.BlockSize() == 0;
    MatchLimitLeavesLast(e.cache, v);
    MulMonotone(k, MatchLimit(e.cache, v), e.BlockSize());
  }

  lemma {:induction false} SamePromptTokens(v: Seq, w: Seq, k: nat, bs: nat)
    requires v.req == w.req
    ensures v.PromptTokensUpTo(k, bs) == w.PromptTokensUpTo(k, bs)
  {
    if k > 0 { SamePromptTokens(v, w, k - 1, bs); }
  }

  /** A lookup keeps everything, and leaves at least one token to compute. */
  lemma MatchInv(e: Env, b: Store, mid: Store, b': Store, mem: seq<KV>, seqs: seq<Seq>, k: nat, w: Seq, now: real)
    requires Inv(e, b, mem, seqs) && k < |seqs| && Prefilling(seqs[k])
    requires MatchedTo(b, mid, b', e.cache, e.hasher, seqs[k], w, now)
    ensures Inv(e, b', mem, seqs[k := w])
    ensures Prefilling(w) && w == seqs[k].(table := w.table, numCached := w.numCached,
                                           numComputed := w.numComputed, cacheRead := w.cacheRead,
                                           cacheCreated := w.cacheCreated)
  {
    var v := seqs[k];
    if !MatchApplies(e.cache, v) {
      assert seqs[k := w] == seqs;
    } else {
      PurgeInv(e, b, mid, mem, seqs, Expired(b, now));
      MatchedAttaches(e, b, mid, b', v, w, now);
      MatchedGrows(e, b, mid, b', v, w, now);
      GrowsEvolves(mid, b');
      var n := MatchCount(mid, e.cache, e.hasher, v);
      AttachedSame(e, mid, b', v, w, n);
      AttachedCore(e, b', v, w, n);
      if CollisionFree(e) { AttachedHolds(e, mid, mem, v, w, n); }
      hide Valid, WithinQuotas, Evolves, Counted, SeqCore, Core, MatchedTo, SeqHolds, MatchCount, TableInRange, HashTrue;
      StepInv(e, mid, b', mem, seqs, k, w);
    }
  }

  /* ---------- Allocating ---------- */

  ghost predicate Extended(b: Store, v: Seq, w: Seq, taken: seq<nat>) {
    && w == v.(table := v.table + taken)
    && forall i | 0 <= i < |taken| :: taken[i] < |b.blocks| && b.blocks[taken[i]].hash == -1
  }

  lemma {:induction false} ExtendedPrompt(b: Store, v: Seq, w: Seq, taken: seq<nat>, k: nat, bs: nat)
    requires Extended(b, v, w, taken) && k <= |w.table|
    ensures HashedPrompt(b, w, k, bs) == HashedPrompt(b, v, if k <= |v.table| then k else |v.table|, bs)
  {
    if k > 0 {
      ExtendedPrompt(b, v, w, taken, k - 1, bs);
      if k - 1 >= |v.table| { assert w.table[k - 1] == taken[k - 1 - |v.table|]; }
    }
  }

  lemma ExtendedOwned(e: Env, b: Store, v: Seq, w: Seq, taken: seq<nat>)
    requires e.BlockSize() > 0 && Extended(b, v, w, taken) && Owned(e, b, v)
    ensures Owned(e, b, w)
  {
    hide ChainAt;
    forall i | 0 <= i < |w.table| && w.table[i] < |b.blocks|
      ensures if i < |v.table| then w.table[i] == v.table[i] else b.blocks[w.table[i]].hash == -1
    {
      if i >= |v.table| { assert w.table[i] == taken[i - |v.table|]; }
    }
  }

  lemma ExtendedCore(e: Env, b: Store, v: Seq, w: Seq, taken: seq<nat>)
    requires e.BlockSize() > 0 && Extended(b, v, w, taken) && SeqCore(e, b, v)
    requires |w.table| <= NumBlocks(|w.tokens|, e.BlockSize())
    ensures SeqCore(e, b, w)
  {
    ExtendedOwned(e, b, v, w, taken);
    ExtendedPrompt(b, v, w, taken, |w.table|, e.BlockSize());
    MulMonotone(|v.table|, |w.table|, e.BlockSize());
    hide Owned, NumBlocks, HashedPrompt;
  }

  lemma ExtendedHolds(e: Env, b: Store, mem: seq<KV>, v: Seq, w: Seq, taken: seq<nat>)
    requires e.BlockSize() > 0 && Extended(b, v, w, taken) && Shape(e, v) && SeqTrue(e, mem, v)
    ensures SeqTrue(e, mem, w)
  {
    forall p | 0 <= p < w.numComputed && p < |w.tokens| && p / e.BlockSize() < |w.table|
      ensures CellOf(e, mem, w, p) == KVs(e.model, w.tokens)[p]
    {
      PositionBlock(p, |v.table|, e.BlockSize());
      assert CellOf(e, mem, v, p) == KVs(e.model, v.tokens)[p];
    }
  }

  lemma AllocatedExtends(b: Store, b': Store, v: Seq, w: Seq, taken: seq<nat>, expired: set<nat>)
    requires AllocatedTo(b, b', taken, expired) && w == v.(table := v.table + taken) && TableInRange(b, v)
    ensures Extended(b', v, w, taken) && Evolves(b, b') && TableInRange(b', w)
    ensures Counted(b, b', multiset(v.table), multiset(w.table))
  {
    GrowsEvolves(b, b');
    assert multiset(w.table) == multiset(v.table) + multiset(taken);
    forall i | 0 <= i < |w.table| ensures w.table[i] < |b'.blocks| {
      if i >= |v.table| { assert w.table[i] == taken[i - |v.table|]; }
    }
  }

  /** Claiming blocks for one sequence keeps everything. */
  lemma AllocInv(e: Env, b: Store, b': Store, mem: seq<KV>, seqs: seq<Seq>, k: nat, w: Seq,
                 taken: seq<nat>, expired: set<nat>)
    requires Inv(e, b, mem, seqs) && k < |seqs|
    requires AllocatedTo(b, b', taken, expired) && w == seqs[k].(table := seqs[k].table + taken)
    requires Valid(b', e.BlockSize()) && WithinQuotas(b', e.cache)
    requires |w.table| <= NumBlocks(|w.tokens|, e.BlockSize())
    ensures Inv(e, b', mem, seqs[k := w])
  {
    var v := seqs[k];
    assert TableInRange(b, v);
    AllocatedExtends(b, b', v, w, taken, expired);
    var all := seqs[k := w];
    hide Valid, WithinQuotas, AllocatedTo, NumBlocks, TableInRange, CellOf, SeqTrue;
    AllocatedKeepsCore(e, b, b', seqs, k, w, taken, expired);
    if CollisionFree(e) && SeqTrue(e, mem, v) { ExtendedHolds(e, b', mem, v, w, taken); }
    hide *;
    StepInv(e, b, b', mem, seqs, k, w);
  }

  lemma AllocatedKeepsCore(e: Env, b: Store, b': Store, seqs: seq<Seq>, k: nat, w: Seq,
                           taken: seq<nat>, expired: set<nat>)
    requires Core(e, b, seqs) && k < |seqs|
    requires AllocatedTo(b, b', taken, expired) && Extended(b', seqs[k], w, taken)
    requires |w.table| <= NumBlocks(|w.tokens|, e.BlockSize())
    ensures SeqCore(e, b', w)
  {
    var v := seqs[k];
    AllRefsHas(seqs, k);
    assert SameTable(b, b', v) by {
      forall i | 0 <= i < |v.table| && v.table[i] < |b.blocks| && v.table[i] < |b'.blocks|
        ensures SameContent(b.blocks[v.table[i]], b'.blocks[v.table[i]])
      {
        assert multiset(v.table)[v.table[i]] > 0;
      }
    }
    assert |b'.blocks| == |b.blocks|;
    hide *;
    SeqCoreKept(e, b, b', v) by { CoreAt(e, b, seqs, k); }
    ExtendedCore(e, b', v, w, taken);
  }

  lemma CoreAt(e: Env, b: Store, seqs: seq<Seq>, k: nat)
    requires Core(e, b, seqs) && k < |seqs|
    ensures SeqCore(e, b, seqs[k]) && TableInRange(b, seqs[k]) && Valid(b, e.BlockSize())
    ensures WithinQuotas(b, e.cache) && Holds(b, seqs[k].table)
  {
    AllRefsHas(seqs, k);
  }

  /* ---------- Releasing ---------- */

  /** Sequence k gives back its blocks and starts over: waiting, to be prefilled up to its last token. */
  function Restarted(v: Seq): Seq {
    v.(table := [], numCached := 0, numComputed := 0, cacheRead := 0, cacheCreated := 0,
       status := WAITING, prefillTarget := |v.tokens|)
  }

  lemma EmptyTableCore(e: Env, b: Store, w: Seq)
    requires e.BlockSize() > 0 && w.table == [] && w.numComputed == 0 && w.cacheRead == 0 && w.cacheCreated == 0
    requires w.req.prompt != [] && w.req.prompt <= w.tokens && Unfinished(w) && e.Knows(w.req.namespace)
    requires 0 < w.prefillTarget <= |w.tokens|
    ensures SeqCore(e, b, w) && TableInRange(b, w)
  {
    assert 0 * e.BlockSize() == 0;
  }

  lemma RestartInv(e: Env, b: Store, mem: seq<KV>, seqs: seq<Seq>, k: nat)
    requires Inv(e, b, mem, seqs) && k < |seqs|
    ensures Holds(b, seqs[k].table) && Valid(b, e.BlockSize()) && e.BlockSize() == e.cache.blockSize
    ensures Inv(e, ReleaseAll(b, e.cache, seqs[k].table), mem, seqs[k := Restarted(seqs[k])])
    ensures |ReleaseAll(b, e.cache, seqs[k].table).blocks| == |b.blocks|
  {
    CoreAt(e, b, seqs, k);
    var v, w := seqs[k], Restarted(seqs[k]);
    var b' := ReleaseAll(b, e.cache, v.table);
    ReleaseAllKeeps(b, e.cache, v.table);
    ShrinksEvolves(b, b');
    EmptyTableCore(e, b', w);
    assert multiset(w.table) == multiset{};
    hide *;
    StepInv(e, b, b', mem, seqs, k, w) by {
      RestartTrue(e, mem, v);
    }
  }

  lemma RestartTrue(e: Env, mem: seq<KV>, v: Seq)
    requires e.BlockSize() > 0 && v.req.prompt != [] && v.req.prompt <= v.tokens
    ensures SeqTrue(e, mem, v) ==> SeqTrue(e, mem, Restarted(v))
  {
  }

  /* ---------- Adding and removing sequences ---------- */

  ghost predicate MemberCore(e: Env, b: Store, v: Seq)
    requires e.BlockSize() > 0
  {
    SeqCore(e, b, v) && TableInRange(b, v)
  }

  /** The same references, spread over sequences that are each in order. */
  lemma MembersCore(e: Env, b: Store, seqs: seq<Seq>, all: seq<Seq>)
    requires Core(e, b, seqs) && AllRefs(all) == AllRefs(seqs)
    requires forall j | 0 <= j < |all| :: MemberCore(e, b, all[j])
    ensures Core(e, b, all)
  {
    hide SeqCore, TableInRange, Valid, WithinQuotas;
    forall j | 0 <= j < |all| ensures SeqCore(e, b, all[j]) && TableInRange(b, all[j]) {
      assert MemberCore(e, b, all[j]);
    }
  }

  /** What a scheduler step needs to know about the store and one sequence. */
  lemma InvAt(e: Env, b: Store, mem: seq<KV>, seqs: seq<Seq>, k: nat)
    requires Inv(e, b, mem, seqs) && k < |seqs|
    ensures e.BlockSize() == e.cache.blockSize > 0 && Valid(b, e.BlockSize()) && WithinQuotas(b, e.cache)
    ensures Holds(b, seqs[k].table) && Shape(e, seqs[k])
    ensures seqs[k].tokens != [] && seqs[k].req.prompt != []
  {
    CoreAt(e, b, seqs, k);
  }

  lemma InvStore(e: Env, b: Store, mem: seq<KV>, seqs: seq<Seq>)
    requires Inv(e, b, mem, seqs)
    ensures e.BlockSize() == e.cache.blockSize > 0 && Valid(b, e.BlockSize()) && WithinQuotas(b, e.cache)
  {
  }

  lemma CorePrompts(e: Env, b: Store, seqs: seq<Seq>)
    requires Core(e, b, seqs)
    ensures PromptsOk(seqs) && e.BlockSize() > 0
  {
  }

  lemma AddInv(e: Env, b: Store, mem: seq<KV>, seqs: seq<Seq>, r: Request)
    requires Inv(e, b, mem, seqs) && r.prompt != [] && e.Knows(r.namespace)
    ensures Inv(e, b, mem, seqs + [NewSeq(r)])
  {
    hide SeqCore, SeqTrue, TableInRange, Valid, WithinQuotas, HashTrue, IndexComplete, MemberCore, RefsExact, AllRefs;
    var w := NewSeq(r);
    var all := seqs + [w];
    AllRefsAppend(seqs, w);
    assert multiset(w.table) == multiset{};
    CorePrompts(e, b, seqs);
    EmptyTableCore(e, b, w);
    NewSeqTrue(e, mem, r);
    forall j | 0 <= j < |all| ensures MemberCore(e, b, all[j]) {
      hide *;
      if j < |seqs| {
        assert all[j] == seqs[j];
        CoreMember(e, b, mem, seqs, j);
      } else {
        assert all[j] == w;
        MemberOf(e, b, w);
      }
    }
    MembersCore(e, b, seqs, all);
    CorePrompts(e, b, all);
    if CollisionFree(e) {
      forall j | 0 <= j < |all| ensures SeqTrue(e, mem, all[j]) {
        if j < |seqs| { assert all[j] == seqs[j]; }
      }
    }
  }

  lemma NewSeqTrue(e: Env, mem: seq<KV>, r: Request)
    requires e.BlockSize() > 0 && r.prompt != []
    ensures SeqTrue(e, mem, NewSeq(r))
  {
  }

  lemma CoreMember(e: Env, b: Store, mem: seq<KV>, seqs: seq<Seq>, j: nat)
    requires Inv(e, b, mem, seqs) && j < |seqs|
    ensures MemberCore(e, b, seqs[j])
  {
    assert TableInRange(b, seqs[j]);
  }

  lemma MemberOf(e: Env, b: Store, w: Seq)
    requires e.BlockSize() > 0 && SeqCore(e, b, w) && TableInRange(b, w)
    ensures MemberCore(e, b, w)
  {
  }

  function Without(seqs: seq<Seq>, k: nat): seq<Seq>
    requires k < |seqs|
  {
    seqs[..k] + seqs[k + 1..]
  }

  /** Sequence k leaves: its blocks are released, everyone else's content stays. */
  lemma LeaveInv(e: Env, b: Store, mem: seq<KV>, seqs: seq<Seq>, k: nat)
    requires Inv(e, b, mem, seqs) && k < |seqs|
    ensures Holds(b, seqs[k].table) && Valid(b, e.BlockSize()) && e.BlockSize() == e.cache.blockSize
    ensures Inv(e, ReleaseAll(b, e.cache, seqs[k].table), mem, Without(seqs, k))
  {
    CoreAt(e, b, seqs, k);
    RestartInv(e, b, mem, seqs, k);
    var b' := ReleaseAll(b, e.cache, seqs[k].table);
    var w := Restarted(seqs[k]);
    var mid := seqs[k := w];
    AllRefsRemove(mid, k);
    assert Without(mid, k) == Without(seqs, k);
    assert multiset(mid[k].table) == multiset{};
    hide Valid, WithinQuotas, SeqCore, SeqTrue, HashTrue, IndexComplete, ReleaseAll, Restarted, Holds;
    RemovedKeeps(e, b', mem, mid, k);
  }

  lemma RemovedKeeps(e: Env, b: Store, mem: seq<KV>, seqs: seq<Seq>, k: nat)
    requires Inv(e, b, mem, seqs) && k < |seqs| && AllRefs(Without(seqs, k)) == AllRefs(seqs)
    ensures Inv(e, b, mem, Without(seqs, k))
  {
    var rest := Without(seqs, k);
    forall j | 0 <= j < |rest| ensures MemberCore(e, b, rest[j]) {
      hide *;
      var i := WithoutAt(seqs, k, j);
      CoreMember(e, b, mem, seqs, i);
    }
    hide SeqCore, SeqTrue, TableInRange, Valid, WithinQuotas, HashTrue, IndexComplete, MemberCore, Without;
    MembersCore(e, b, seqs, rest);
    CorePrompts(e, b, rest);
    if CollisionFree(e) {
      forall j | 0 <= j < |rest| ensures SeqTrue(e, mem, rest[j]) {
        var i := WithoutAt(seqs, k, j);
      }
    }
  }

  lemma WithoutAt(seqs: seq<Seq>, k: nat, j: nat) returns (i: nat)
    requires k < |seqs| && j < |Without(seqs, k)|
    ensures i < |seqs| && i == (if j < k then j else j + 1) && Without(seqs, k)[j] == seqs[i]
  {
    i := if j < k then j else j + 1;
  }

  /** A sequence's own fields change, the store and the memory do not. */
  lemma ViewInv(e: Env, b: Store, mem: seq<KV>, seqs: seq<Seq>, k: nat, w: Seq)
    requires Inv(e, b, mem, seqs) && k < |seqs| && w.table == seqs[k].table
    requires SeqCore(e, b, w)
    requires CollisionFree(e) && SeqTrue(e, mem, seqs[k]) ==> SeqTrue(e, mem, w)
    ensures Inv(e, b, mem, seqs[k := w])
  {
    CoreAt(e, b, seqs, k);
    assert Evolves(b, b);
    hide *;
    StepInv(e, b, b, mem, seqs, k, w);
  }
}

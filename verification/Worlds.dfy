/** The invariants that tie the block store, all unfinished sequences and the KV memory together. */
module Worlds {
  import opened Arithmetic
  import opened Blocks
  import opened BlockClaims
  import opened BlockSteps
  import opened Hashing
  import opened LanguageModel
  import opened PrefixCache
  import opened Sequences
  import opened Wrappers

  /** names: the namespaces that requests use. */
  datatype Env = Env(cache: CacheConfig, hasher: Hasher, model: Model, eos: Token, names: string -> bool)
  {
    function BlockSize(): nat { cache.blockSize }

    predicate Knows(namespace: string) { names(namespace) }
  }

  /** What statements about contents rest on. */
  ghost predicate CollisionFree(e: Env) {
    e.BlockSize() > 0 && NoCollisions(e.hasher, e.BlockSize(), e.names)
  }

  /* ---------- References ---------- */

  /** All occurrences of blocks in all tables. */
  ghost function AllRefs(seqs: seq<Seq>): multiset<nat> {
    if seqs == [] then multiset{} else multiset(seqs[0].table) + AllRefs(seqs[1..])
  }

  lemma Regroup(a: multiset<nat>, x: multiset<nat>, b: multiset<nat>, y: multiset<nat>, c: multiset<nat>)
    requires x + b == y + c
    ensures a + x + b == a + y + c
  {
    assert a + x + b == a + (x + b);
    assert a + y + c == a + (y + c);
  }

  lemma {:induction false} AllRefsUpdate(seqs: seq<Seq>, k: nat, w: Seq)
    requires k < |seqs|
    ensures AllRefs(seqs[k := w]) + multiset(seqs[k].table) == AllRefs(seqs) + multiset(w.table)
  {
    var all := seqs[k := w];
    if k > 0 {
      AllRefsUpdate(seqs[1..], k - 1, w);
      assert all[1..] == seqs[1..][k - 1 := w];
      Regroup(multiset(seqs[0].table), AllRefs(all[1..]), multiset(seqs[k].table),
              AllRefs(seqs[1..]), multiset(w.table));
    } else {
      assert all[1..] == seqs[1..];
    }
  }

  lemma {:induction false} AllRefsHas(seqs: seq<Seq>, k: nat)
    requires k < |seqs|
    ensures multiset(seqs[k].table) <= AllRefs(seqs)
  {
    if k > 0 { AllRefsHas(seqs[1..], k - 1); }
  }

  /** Two sequences' references are counted separately. */
  lemma {:induction false} AllRefsHasBoth(seqs: seq<Seq>, j: nat, k: nat)
    requires j < k < |seqs|
    ensures multiset(seqs[j].table) + multiset(seqs[k].table) <= AllRefs(seqs)
  {
    if j > 0 {
      AllRefsHasBoth(seqs[1..], j - 1, k - 1);
    } else {
      AllRefsHas(seqs[1..], k - 1);
    }
  }

  lemma {:induction false} AllRefsAppend(seqs: seq<Seq>, w: Seq)
    ensures AllRefs(seqs + [w]) == AllRefs(seqs) + multiset(w.table)
  {
    if seqs != [] {
      AllRefsAppend(seqs[1..], w);
      assert (seqs + [w])[1..] == seqs[1..] + [w];
    } else {
      assert seqs + [w] == [w] && [w][1..] == [];
    }
  }

  lemma {:induction false} AllRefsRemove(seqs: seq<Seq>, k: nat)
    requires k < |seqs|
    ensures AllRefs(seqs[..k] + seqs[k + 1..]) + multiset(seqs[k].table) == AllRefs(seqs)
  {
    if k > 0 {
      AllRefsRemove(seqs[1..], k - 1);
      assert (seqs[..k] + seqs[k + 1..])[1..] == seqs[1..][..k - 1] + seqs[1..][k..];
      assert seqs[1..][k..] == seqs[k + 1..];
    } else {
      assert seqs[..k] + seqs[k + 1..] == seqs[1..];
    }
  }

  ghost predicate TableInRange(b: Store, v: Seq) {
    forall i | 0 <= i < |v.table| :: v.table[i] < |b.blocks|
  }

  /** Every block's count is its number of occurrences in the tables of all sequences. */
  ghost predicate RefsExact(b: Store, seqs: seq<Seq>) {
    && (forall k | 0 <= k < |seqs| :: TableInRange(b, seqs[k]))
    && (forall id | 0 <= id < |b.blocks| :: b.blocks[id].refCount == AllRefs(seqs)[id])
  }

  /* ---------- One sequence ---------- */

  predicate Unfinished(v: Seq) {
    if v.req.gen.maxTokens == 0 then |v.tokens| == |v.req.prompt|
    else |v.tokens| - |v.req.prompt| < v.req.gen.maxTokens
  }

  /** How far a sequence is: still to be prefilled up to its last token, or one token ahead of
      what is computed. */
  predicate Phase(v: Seq) {
    match v.status
    case WAITING => !v.PromptReady() && v.prefillTarget == |v.tokens|
    case RUNNING =>
      if v.PromptReady() then v.numComputed + 1 == |v.tokens| && |v.tokens| > |v.req.prompt|
      else v.prefillTarget == |v.tokens|
    case FINISHED => false
  }

  predicate Shape(e: Env, v: Seq)
    requires e.BlockSize() > 0
  {
    && v.req.prompt != [] && v.req.prompt <= v.tokens && e.Knows(v.req.namespace)
    && Unfinished(v)
    && 0 < v.prefillTarget <= |v.tokens|
    && v.numComputed <= |v.tokens|
    && v.numComputed <= |v.table| * e.BlockSize()
    && |v.table| <= NumBlocks(|v.tokens|, e.BlockSize())
  }

  /** Every hashed block of v's table is whole and computed, and carries the chain hash of v's own
      prefix; blocks at or past the computed frontier are not hashed. */
  ghost predicate Owned(e: Env, b: Store, v: Seq)
    requires e.BlockSize() > 0
  {
    && OwnHashes(b, e.BlockSize(), e.hasher, v, |v.table|)
    && forall i | 0 <= i < |v.table| && v.table[i] < |b.blocks| && b.blocks[v.table[i]].hash != -1 ::
         (i + 1) * e.BlockSize() <= v.numComputed
  }

  /** Prompt tokens in the hashed blocks among the first k of v's table. */
  ghost function HashedPrompt(b: Store, v: Seq, k: nat, bs: nat): nat
    requires k <= |v.table|
  {
    if k == 0 then 0
    else HashedPrompt(b, v, k - 1, bs)
         + if v.table[k - 1] < |b.blocks| && b.blocks[v.table[k - 1]].hash != -1
           then v.PromptTokens(k - 1, bs) else 0
  }

  /** Each block is counted once, as read or as created, exactly if it is a cached prefix block. */
  ghost predicate UsageExact(e: Env, b: Store, v: Seq) {
    v.cacheRead + v.cacheCreated == HashedPrompt(b, v, |v.table|, e.BlockSize())
  }

  ghost predicate SeqCore(e: Env, b: Store, v: Seq)
    requires e.BlockSize() > 0
  {
    Shape(e, v) && Owned(e, b, v) && UsageExact(e, b, v)
  }

  /** The part of the invariant that needs nothing of the hash function. */
  ghost predicate Core(e: Env, b: Store, seqs: seq<Seq>) {
    && e.BlockSize() > 0
    && Valid(b, e.BlockSize()) && WithinQuotas(b, e.cache)
    && RefsExact(b, seqs)
    && forall k | 0 <= k < |seqs| :: SeqCore(e, b, seqs[k])
  }

  /* ---------- KV memory ---------- */

  /** The entry at an offset of a block. */
  function Cell(mem: seq<KV>, id: nat, off: nat, bs: nat): KV {
    var a := Slot(id, off, bs);
    if a < |mem| then mem[a] else KV([], [])
  }

  /** Block id holds the entries of the last block of prefix t. */
  ghost predicate BlockHolds(e: Env, mem: seq<KV>, id: nat, t: seq<Token>)
    requires |t| >= e.BlockSize()
  {
    forall off | 0 <= off < e.BlockSize() ::
      Cell(mem, id, off, e.BlockSize()) == KVs(e.model, t)[|t| - e.BlockSize() + off]
  }

  /** Position p of v is where its table says. */
  function CellOf(e: Env, mem: seq<KV>, v: Seq, p: nat): KV
    requires e.BlockSize() > 0 && p / e.BlockSize() < |v.table|
  {
    Cell(mem, v.table[p / e.BlockSize()], p % e.BlockSize(), e.BlockSize())
  }

  /** Read through v's table, the memory holds v's own private entries up to position n. */
  ghost predicate SeqHolds(e: Env, mem: seq<KV>, v: Seq, n: nat)
    requires e.BlockSize() > 0
  {
    forall p | 0 <= p < n && p < |v.tokens| && p / e.BlockSize() < |v.table| ::
      CellOf(e, mem, v, p) == KVs(e.model, v.tokens)[p]
  }

  /** Generating on from v's tokens gives what generating from its prompt alone gives. */
  ghost predicate OnTrack(e: Env, v: Seq)
    requires v.req.prompt != [] && v.req.prompt <= v.tokens
  {
    Generate(e.model, e.eos, v.req.gen, |v.req.prompt|, v.tokens)
      == Generate(e.model, e.eos, v.req.gen, |v.req.prompt|, v.req.prompt)
  }

  ghost predicate SeqTrue(e: Env, mem: seq<KV>, v: Seq)
    requires e.BlockSize() > 0 && v.req.prompt != [] && v.req.prompt <= v.tokens
  {
    SeqHolds(e, mem, v, v.numComputed) && OnTrack(e, v)
  }

  /** A block's hash tells the truth: whatever namespace and prefix have this hash, the block was
      cached for them and holds that prefix's last entries. */
  ghost predicate HashTrue(e: Env, b: Block, mem: seq<KV>, id: nat)
    requires e.BlockSize() > 0
  {
    forall ns, t | e.Knows(ns) && |t| >= e.BlockSize() && WholeBlocks(t, e.BlockSize())
                   && Chain(e.hasher, e.BlockSize(), ns, t) == b.hash ::
      && b.namespace == ns
      && b.tokenIds == Some(t[|t| - e.BlockSize()..])
      && BlockHolds(e, mem, id, t)
  }

  /** Every hashed block can be found under its hash. */
  ghost predicate IndexComplete(b: Store) {
    forall id | 0 <= id < |b.blocks| && b.blocks[id].hash != -1 ::
      b.blocks[id].hash in b.index && b.index[b.blocks[id].hash] == id
  }

  /** The part of the invariant that rests on collision freedom. */
  ghost predicate Truth(e: Env, b: Store, mem: seq<KV>, seqs: seq<Seq>)
    requires e.BlockSize() > 0
    requires forall k | 0 <= k < |seqs| :: seqs[k].req.prompt != [] && seqs[k].req.prompt <= seqs[k].tokens
  {
    && IndexComplete(b)
    && (forall id | 0 <= id < |b.blocks| && b.blocks[id].hash != -1 :: HashTrue(e, b.blocks[id], mem, id))
    && (forall k | 0 <= k < |seqs| :: SeqTrue(e, mem, seqs[k]))
  }

  ghost predicate Inv(e: Env, b: Store, mem: seq<KV>, seqs: seq<Seq>) {
    && Core(e, b, seqs)
    && (CollisionFree(e) ==> Truth(e, b, mem, seqs))
  }
}

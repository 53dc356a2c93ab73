/** Running the model on a batch: which slots it writes, and why that harms nobody. */
module WorldRun {
  import opened Arithmetic
  import opened Blocks
  import opened BlockSteps
  import opened Hashing
  import opened LanguageModel
  import opened PrefixCache
  import opened Sequences
  import opened WorldOps
  import opened WorldSteps
  import opened Worlds
  import opened Wrappers

  /** Where position p of v is written and read. */
  function SlotAt(e: Env, v: Seq, p: nat): nat
    requires e.BlockSize() > 0 && p / e.BlockSize() < |v.table|
  {
    Slot(v.table[p / e.BlockSize()], p % e.BlockSize(), e.BlockSize())
  }

  /** A block that reaches past the computed frontier is live, not hashed, and has no second owner. */
  lemma FrontierPrivate(e: Env, b: Store, seqs: seq<Seq>, k: nat, i: nat)
    requires Core(e, b, seqs) && k < |seqs| && i < |seqs[k].table|
    requires seqs[k].numComputed < (i + 1) * e.BlockSize()
    ensures var id := seqs[k].table[i];
            && id < |b.blocks| && b.blocks[id].hash == -1
            && b.blocks[id].refCount == 1 == AllRefs(seqs)[id] && id in b.used
  {
    CoreAt(e, b, seqs, k);
    FrontierUnhashed(e, b, seqs[k], i);
    LiveUnhashed(b, seqs[k].table, i, e.BlockSize());
    assert RefsExact(b, seqs);
    hide Valid, SeqCore, WithinQuotas, Holds, TableInRange;
  }

  lemma FrontierUnhashed(e: Env, b: Store, v: Seq, i: nat)
    requires e.BlockSize() > 0 && SeqCore(e, b, v) && TableInRange(b, v) && i < |v.table|
    requires v.numComputed < (i + 1) * e.BlockSize()
    ensures v.table[i] < |b.blocks| && b.blocks[v.table[i]].hash == -1
  {
    hide Shape, UsageExact;
  }

  lemma LiveUnhashed(b: Store, table: seq<nat>, i: nat, bs: nat)
    requires Valid(b, bs) && Holds(b, table) && i < |table|
    requires table[i] < |b.blocks| && b.blocks[table[i]].hash == -1
    ensures b.blocks[table[i]].refCount == 1 && table[i] in b.used
  {
    assert multiset(table)[table[i]] > 0;
    assert BlockShape(b.blocks[table[i]], bs);
    assert Placed(b, table[i]);
  }

  /** Such a block occurs nowhere else in any table. */
  lemma FrontierBlockOnce(e: Env, b: Store, seqs: seq<Seq>, k: nat, i: nat, o: nat, x: nat)
    requires Core(e, b, seqs) && k < |seqs| && o < |seqs|
    requires i < |seqs[k].table| && x < |seqs[o].table| && seqs[o].table[x] == seqs[k].table[i]
    requires seqs[k].numComputed < (i + 1) * e.BlockSize()
    ensures o == k && x == i
  {
    FrontierPrivate(e, b, seqs, k, i);
    hide Core;
    OnceIsOnce(seqs, k, i, o, x);
  }

  lemma OnceIsOnce(seqs: seq<Seq>, k: nat, i: nat, o: nat, x: nat)
    requires k < |seqs| && o < |seqs| && i < |seqs[k].table| && x < |seqs[o].table|
    requires seqs[o].table[x] == seqs[k].table[i] && AllRefs(seqs)[seqs[k].table[i]] == 1
    ensures o == k && x == i
  {
    assert multiset(seqs[k].table)[seqs[k].table[i]] > 0;
    assert multiset(seqs[o].table)[seqs[o].table[x]] > 0;
    if o < k { AllRefsHasBoth(seqs, o, k); }
    if k < o { AllRefsHasBoth(seqs, k, o); }
    AllRefsHas(seqs, k);
    if o == k && i < x { TwiceCounted(seqs[k].table, i, x); }
    if o == k && x < i { TwiceCounted(seqs[k].table, x, i); }
  }

  /** No slot written by one position is a slot of any other position of any sequence: written
      slots are pairwise different and none is shared. */
  lemma FrontierSlotsApart(e: Env, b: Store, seqs: seq<Seq>, k: nat, p: nat, o: nat, q: nat)
    requires e.BlockSize() > 0 && k < |seqs| && o < |seqs|
    requires seqs[k].numComputed <= p && p / e.BlockSize() < |seqs[k].table|
    requires q / e.BlockSize() < |seqs[o].table|
    requires SlotAt(e, seqs[k], p) == SlotAt(e, seqs[o], q)
    requires Core(e, b, seqs)
    ensures o == k && q == p
  {
    hide Core, Slot;
    var bs := e.BlockSize();
    var i, x := p / bs, q / bs;
    SlotInjective(seqs[k].table[i], p % bs, seqs[o].table[x], q % bs, bs);
    BeforeNextBlock(p, bs);
    FrontierBlockOnce(e, b, seqs, k, i, o, x);
    SamePosition(p, q, bs);
  }

  /** The part of a sequence one model run computes. */
  datatype Chunk = Chunk(v: Seq, start: nat, end: nat)

  ghost predicate ChunkOk(e: Env, mem: seq<KV>, c: Chunk)
    requires e.BlockSize() > 0
  {
    && c.start < c.end <= |c.v.tokens| && c.end <= |c.v.table| * e.BlockSize()
    && (forall i | 0 <= i < |c.v.table| :: c.v.table[i] * e.BlockSize() + e.BlockSize() <= |mem|)
  }

  /** Slots the batch writes are no other position's slots. */
  ghost predicate SlotsApart(e: Env, chunks: seq<Chunk>)
    requires e.BlockSize() > 0
  {
    forall j, p, i, q | 0 <= j < |chunks| && 0 <= i < |chunks|
        && chunks[j].start <= p < chunks[j].end && p / e.BlockSize() < |chunks[j].v.table|
        && 0 <= q < chunks[i].end && q / e.BlockSize() < |chunks[i].v.table|
        && SlotAt(e, chunks[j].v, p) == SlotAt(e, chunks[i].v, q) ::
      i == j && q == p
  }

  lemma CoveredPosition(e: Env, mem: seq<KV>, c: Chunk, p: nat)
    requires e.BlockSize() > 0 && ChunkOk(e, mem, c) && p < c.end
    ensures p / e.BlockSize() < |c.v.table| && SlotAt(e, c.v, p) < |mem|
  {
    PositionBlock(p, |c.v.table|, e.BlockSize());
    PositionSplit(p, e.BlockSize());
  }

  /** Writing one row leaves every other position's entry alone. */
  lemma WriteKeeps(e: Env, mem: seq<KV>, chunks: seq<Chunk>, j: nat, p: nat, kv: KV, i: nat, n: nat)
    requires e.BlockSize() > 0 && SlotsApart(e, chunks) && j < |chunks| && i < |chunks|
    requires ChunkOk(e, mem, chunks[j]) && chunks[j].start <= p < chunks[j].end
    requires n <= chunks[i].end && SeqHolds(e, mem, chunks[i].v, n)
    requires i != j || n <= p
    ensures p / e.BlockSize() < |chunks[j].v.table| && SlotAt(e, chunks[j].v, p) < |mem|
    ensures SeqHolds(e, mem[SlotAt(e, chunks[j].v, p) := kv], chunks[i].v, n)
  {
    CoveredPosition(e, mem, chunks[j], p);
    var a := SlotAt(e, chunks[j].v, p);
    var v := chunks[i].v;
    forall q | 0 <= q < n && q < |v.tokens| && q / e.BlockSize() < |v.table|
      ensures CellOf(e, mem[a := kv], v, q) == KVs(e.model, v.tokens)[q]
    {
      assert CellOf(e, mem, v, q) == KVs(e.model, v.tokens)[q];
      assert SlotAt(e, v, q) != a;
    }
  }

  /** Writing position p's own entry extends what the memory holds of the sequence. */
  lemma WriteExtends(e: Env, mem: seq<KV>, c: Chunk, p: nat, kv: KV)
    requires e.BlockSize() > 0 && ChunkOk(e, mem, c) && p < c.end
    requires kv == KVs(e.model, c.v.tokens)[p]
    ensures p / e.BlockSize() < |c.v.table| && SlotAt(e, c.v, p) < |mem|
    ensures SeqHolds(e, mem[SlotAt(e, c.v, p) := kv], c.v, p)
        ==> SeqHolds(e, mem[SlotAt(e, c.v, p) := kv], c.v, p + 1)
  {
    CoveredPosition(e, mem, c, p);
  }

  /** Reading a sequence through its table gives its private entries. */
  lemma ReadBack(e: Env, mem: seq<KV>, v: Seq, n: nat, row: seq<KV>)
    requires e.BlockSize() > 0 && n <= |v.tokens| && SeqHolds(e, mem, v, n) && |row| == n
    requires forall p | 0 <= p < n :: p / e.BlockSize() < |v.table| && row[p] == CellOf(e, mem, v, p)
    ensures row == KVs(e.model, v.tokens)[..n] == KVs(e.model, v.tokens[..n])
  {
    KVsPrefix(e.model, v.tokens, n);
  }

  /* ---------- A whole batch, in the world ---------- */

  /** Chunk j is the next part of sequence idx[j], and no sequence is in the batch twice. */
  ghost predicate BatchOf(e: Env, seqs: seq<Seq>, idx: seq<nat>, chunks: seq<Chunk>)
    requires e.BlockSize() > 0
  {
    && |idx| == |chunks| && NoDup(idx)
    && forall j | 0 <= j < |idx| :: BatchAt(e, seqs, idx[j], chunks[j])
  }

  ghost predicate BatchAt(e: Env, seqs: seq<Seq>, k: nat, c: Chunk)
    requires e.BlockSize() > 0
  {
    && k < |seqs| && c.v == seqs[k] && c.start == seqs[k].numComputed
    && c.start < c.end <= |c.v.tokens| && c.end <= |c.v.table| * e.BlockSize()
  }

  /** All slots one batch writes are pairwise distinct and belong to no other position. */
  lemma BatchSlotsApart(e: Env, b: Store, seqs: seq<Seq>, idx: seq<nat>, chunks: seq<Chunk>)
    requires e.BlockSize() > 0 && Core(e, b, seqs) && BatchOf(e, seqs, idx, chunks)
    ensures SlotsApart(e, chunks)
  {
    hide Core, SlotAt;
    forall j, p, i, q | 0 <= j < |chunks| && 0 <= i < |chunks|
        && chunks[j].start <= p < chunks[j].end && p / e.BlockSize() < |chunks[j].v.table|
        && 0 <= q < chunks[i].end && q / e.BlockSize() < |chunks[i].v.table|
        && SlotAt(e, chunks[j].v, p) == SlotAt(e, chunks[i].v, q)
      ensures i == j && q == p
    {
      assert BatchAt(e, seqs, idx[j], chunks[j]) && BatchAt(e, seqs, idx[i], chunks[i]);
      FrontierSlotsApart(e, b, seqs, idx[j], p, idx[i], q);
    }
  }

  /** Address a is one the batch writes. */
  ghost predicate WrittenBy(e: Env, chunks: seq<Chunk>, a: nat)
    requires e.BlockSize() > 0
  {
    exists j, p :: 0 <= j < |chunks| && chunks[j].start <= p < chunks[j].end
      && p / e.BlockSize() < |chunks[j].v.table| && SlotAt(e, chunks[j].v, p) == a
  }

  ghost predicate OnlyWritten(e: Env, mem: seq<KV>, mem': seq<KV>, chunks: seq<Chunk>)
    requires e.BlockSize() > 0
  {
    |mem'| == |mem| && forall a | 0 <= a < |mem| && mem'[a] != mem[a] :: WrittenBy(e, chunks, a)
  }

  lemma CellKept(e: Env, b: Store, mem: seq<KV>, mem': seq<KV>, seqs: seq<Seq>, idx: seq<nat>,
                 chunks: seq<Chunk>, id: nat, off: nat)
    requires e.BlockSize() > 0 && Core(e, b, seqs) && BatchOf(e, seqs, idx, chunks)
    requires OnlyWritten(e, mem, mem', chunks)
    requires id < |b.blocks| && b.blocks[id].hash != -1 && off < e.BlockSize()
    ensures Cell(mem', id, off, e.BlockSize()) == Cell(mem, id, off, e.BlockSize())
  {
    hide Core, BatchOf, Slot;
    assert |mem'| == |mem|;
    var a := Slot(id, off, e.BlockSize());
    if a < |mem| && mem'[a] != mem[a] {
      var k, p := WriterOf(e, mem, mem', seqs, idx, chunks, a);
      var i := p / e.BlockSize();
      SlotInjective(id, off, seqs[k].table[i], p % e.BlockSize(), e.BlockSize());
      PositionBlock(p, i + 1, e.BlockSize());
      FrontierPrivate(e, b, seqs, k, i);
    }
  }

  /** Who wrote address a. */
  lemma WriterOf(e: Env, mem: seq<KV>, mem': seq<KV>, seqs: seq<Seq>, idx: seq<nat>, chunks: seq<Chunk>, a: nat)
    returns (k: nat, p: nat)
    requires e.BlockSize() > 0 && BatchOf(e, seqs, idx, chunks) && OnlyWritten(e, mem, mem', chunks)
    requires a < |mem| && mem'[a] != mem[a]
    ensures k < |seqs| && seqs[k].numComputed <= p && p / e.BlockSize() < |seqs[k].table|
    ensures SlotAt(e, seqs[k], p) == a
  {
    hide SlotAt;
    var j, q :| 0 <= j < |chunks| && chunks[j].start <= q < chunks[j].end
      && q / e.BlockSize() < |chunks[j].v.table| && SlotAt(e, chunks[j].v, q) == a;
    assert BatchAt(e, seqs, idx[j], chunks[j]);
    k, p := idx[j], q;
  }

  lemma HashTrueThroughRun(e: Env, b: Store, mem: seq<KV>, mem': seq<KV>, seqs: seq<Seq>, idx: seq<nat>,
                           chunks: seq<Chunk>, id: nat)
    requires e.BlockSize() > 0 && Core(e, b, seqs) && BatchOf(e, seqs, idx, chunks)
    requires OnlyWritten(e, mem, mem', chunks)
    requires id < |b.blocks| && b.blocks[id].hash != -1 && HashTrue(e, b.blocks[id], mem, id)
    ensures HashTrue(e, b.blocks[id], mem', id)
  {
    hide Core, BatchOf, OnlyWritten, Cell;
    forall off | 0 <= off < e.BlockSize()
      ensures Cell(mem', id, off, e.BlockSize()) == Cell(mem, id, off, e.BlockSize())
    {
      CellKept(e, b, mem, mem', seqs, idx, chunks, id, off);
    }
  }

  lemma SeqHoldsThroughRun(e: Env, b: Store, mem: seq<KV>, mem': seq<KV>, seqs: seq<Seq>, idx: seq<nat>,
                           chunks: seq<Chunk>, o: nat)
    requires e.BlockSize() > 0 && Core(e, b, seqs) && BatchOf(e, seqs, idx, chunks)
    requires OnlyWritten(e, mem, mem', chunks) && o < |seqs|
    requires SeqHolds(e, mem, seqs[o], seqs[o].numComputed)
    ensures SeqHolds(e, mem', seqs[o], seqs[o].numComputed)
  {
    hide Core;
    var v := seqs[o];
    forall q | 0 <= q < v.numComputed && q < |v.tokens| && q / e.BlockSize() < |v.table|
      ensures CellOf(e, mem', v, q) == KVs(e.model, v.tokens)[q]
    {
      assert CellOf(e, mem, v, q) == KVs(e.model, v.tokens)[q];
      var a := SlotAt(e, v, q);
      if a < |mem| && mem'[a] != mem[a] {
        var k, p := WriterOf(e, mem, mem', seqs, idx, chunks, a);
        FrontierSlotsApart(e, b, seqs, k, p, o, q);
      }
    }
  }

  /** Running a batch keeps everything: no cached block and no computed position is overwritten. */
  lemma RunInv(e: Env, b: Store, mem: seq<KV>, mem': seq<KV>, seqs: seq<Seq>, idx: seq<nat>, chunks: seq<Chunk>)
    requires Inv(e, b, mem, seqs) && e.BlockSize() > 0
    requires BatchOf(e, seqs, idx, chunks) && OnlyWritten(e, mem, mem', chunks)
    ensures Inv(e, b, mem', seqs)
  {
    hide Core, BatchOf, OnlyWritten, HashTrue, SeqHolds;
    if CollisionFree(e) {
      CorePrompts(e, b, seqs);
      forall id | 0 <= id < |b.blocks| && b.blocks[id].hash != -1 ensures HashTrue(e, b.blocks[id], mem', id) {
        HashTrueThroughRun(e, b, mem, mem', seqs, idx, chunks, id);
      }
      forall k | 0 <= k < |seqs| ensures SeqTrue(e, mem', seqs[k]) {
        assert SeqTrue(e, mem, seqs[k]);
        SeqHoldsThroughRun(e, b, mem, mem', seqs, idx, chunks, k);
      }
    }
  }
}

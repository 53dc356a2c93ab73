/** From a scheduled batch to a model run and back. */
module Batches {
  import opened Arithmetic
  import opened Blocks
  import opened Hashing
  import opened LanguageModel
  import opened ModelRunners
  import opened Outcomes
  import opened Packing
  import opened Queues
  import opened Scheduling
  import opened Sequences
  import opened WorldOps
  import opened WorldRun
  import opened Worlds
  import opened Wrappers

  /** What a batch computes of v. */
  function ChunkFor(v: Seq, isPrefill: bool): Chunk {
    if isPrefill then PrefillChunk(v) else Chunk(v, Max(0, |v.tokens| - 1), |v.tokens|)
  }

  ghost function ChunksFor(vs: seq<Seq>, isPrefill: bool): (cs: seq<Chunk>)
    ensures |cs| == |vs| && forall j | 0 <= j < |vs| :: cs[j] == ChunkFor(vs[j], isPrefill)
  {
    seq(|vs|, j requires 0 <= j < |vs| => ChunkFor(vs[j], isPrefill))
  }

  /** v has been scheduled. */
  ghost predicate Chosen(e: Env, v: Seq, isPrefill: bool) {
    && v.status == RUNNING && Phase(v)
    && if isPrefill then Prefilling(v) && Planned(e, v)
       else v.PromptReady() && |v.tokens| <= |v.table| * e.BlockSize()
  }

  /** A scheduled sequence's chunk starts at its computed frontier, and its table covers it. */
  lemma ChosenChunk(e: Env, b: Store, mem: seq<KV>, vs: seq<Seq>, k: nat, isPrefill: bool)
    requires Inv(e, b, mem, vs) && k < |vs| && Chosen(e, vs[k], isPrefill)
    ensures e.BlockSize() > 0 && vs[k].tokens != []
    ensures BatchAt(e, vs, k, ChunkFor(vs[k], isPrefill)) && Covered(e, ChunkFor(vs[k], isPrefill))
    ensures ChunkFor(vs[k], isPrefill).end == Reached(vs[k], isPrefill)
    ensures CollisionFree(e) ==> SeqHolds(e, mem, vs[k], vs[k].numComputed)
  {
    InvAt(e, b, mem, vs, k);
    assert CollisionFree(e) ==> SeqTrue(e, mem, vs[k]);
  }

  /** The memory has room for the blocks of the chunk. */
  lemma ChunkInMemory(e: Env, b: Store, mem: seq<KV>, vs: seq<Seq>, k: nat, isPrefill: bool)
    requires Inv(e, b, mem, vs) && k < |vs| && Chosen(e, vs[k], isPrefill)
    requires |mem| == |b.blocks| * e.BlockSize()
    ensures e.BlockSize() > 0 && ChunkOk(e, mem, ChunkFor(vs[k], isPrefill))
  {
    ChosenChunk(e, b, mem, vs, k, isPrefill);
    CoreAt(e, b, vs, k);
    var v := vs[k];
    hide Inv, Valid, WithinQuotas, SeqCore, SeqHolds, Chosen;
    forall i | 0 <= i < |v.table| ensures v.table[i] * e.BlockSize() + e.BlockSize() <= |mem| {
      assert v.table[i] < |b.blocks|;
      MulMonotone(v.table[i] + 1, |b.blocks|, e.BlockSize());
      assert (v.table[i] + 1) * e.BlockSize() == v.table[i] * e.BlockSize() + e.BlockSize();
    }
  }

  /** Sequences idx of vs, in this order. */
  ghost predicate Picks(vs: seq<Seq>, idx: seq<nat>, us: seq<Seq>) {
    |us| == |idx| && NoDup(idx) && forall j | 0 <= j < |idx| :: idx[j] < |vs| && us[j] == vs[idx[j]]
  }

  /** A scheduled batch can be run. */
  lemma BatchRuns(e: Env, b: Store, mem: seq<KV>, vs: seq<Seq>, idx: seq<nat>, us: seq<Seq>, isPrefill: bool)
    requires Inv(e, b, mem, vs) && Picks(vs, idx, us) && |mem| == |b.blocks| * e.BlockSize()
    requires forall j | 0 <= j < |us| :: Chosen(e, us[j], isPrefill)
    ensures e.BlockSize() > 0
    ensures var cs := ChunksFor(us, isPrefill);
            && BatchOf(e, vs, idx, cs) && AllCovered(e, cs) && ChunksOk(e, mem, cs)
            && (CollisionFree(e) ==> Held(e, mem, cs))
    ensures forall j | 0 <= j < |us| :: us[j].tokens != []
  {
    InvStore(e, b, mem, vs);
    assert Core(e, b, vs);
    hide Inv, Chosen, SeqHolds, Valid, WithinQuotas, ChunkFor, Core, BatchAt, Covered, ChunkOk, SlotsApart;
    var cs := ChunksFor(us, isPrefill);
    forall j | 0 <= j < |us|
      ensures BatchAt(e, vs, idx[j], cs[j]) && Covered(e, cs[j]) && ChunkOk(e, mem, cs[j]) && us[j].tokens != []
    {
      ChosenChunk(e, b, mem, vs, idx[j], isPrefill);
      ChunkInMemory(e, b, mem, vs, idx[j], isPrefill);
    }
    BatchSlotsApart(e, b, vs, idx, cs);
    if CollisionFree(e) {
      forall j | 0 <= j < |cs| ensures SeqHolds(e, mem, cs[j].v, cs[j].start) {
        ChosenChunk(e, b, mem, vs, idx[j], isPrefill);
        ChunkStarts(e, vs, idx[j], isPrefill);
      }
    }
  }

  lemma ChunkStarts(e: Env, vs: seq<Seq>, k: nat, isPrefill: bool)
    requires e.BlockSize() > 0 && k < |vs| && BatchAt(e, vs, k, ChunkFor(vs[k], isPrefill))
    ensures ChunkFor(vs[k], isPrefill).v == vs[k] && ChunkFor(vs[k], isPrefill).start == vs[k].numComputed
  {
  }

  /** After the run, everything is kept and each sequence of the batch has its sample. */
  lemma BatchSampled(e: Env, b: Store, mem: seq<KV>, mem': seq<KV>, vs: seq<Seq>, idx: seq<nat>, us: seq<Seq>,
                     tokens: seq<Token>, isPrefill: bool)
    requires Inv(e, b, mem, vs) && Picks(vs, idx, us) && e.BlockSize() > 0 && |tokens| == |us|
    requires forall j | 0 <= j < |us| :: Chosen(e, us[j], isPrefill)
    requires BatchOf(e, vs, idx, ChunksFor(us, isPrefill)) && OnlyWritten(e, mem, mem', ChunksFor(us, isPrefill))
    requires CollisionFree(e) ==>
               forall j | 0 <= j < |us| :: SampleOk(e, mem', ChunksFor(us, isPrefill), j, tokens[j])
    ensures Inv(e, b, mem', vs)
    ensures forall j | 0 <= j < |us| :: Sampled(e, mem', us[j], tokens[j], isPrefill)
  {
    hide Inv, SeqHolds, BatchAt, Covered, OnlyWritten, NextToken, BatchOf;
    RunInv(e, b, mem, mem', vs, idx, ChunksFor(us, isPrefill));
    forall j | 0 <= j < |us| ensures Sampled(e, mem', us[j], tokens[j], isPrefill) {
      ChosenChunk(e, b, mem, vs, idx[j], isPrefill);
      ChosenReaches(e, b, mem, vs, idx[j], isPrefill);
      if CollisionFree(e) { assert SampleOk(e, mem', ChunksFor(us, isPrefill), j, tokens[j]); }
    }
  }

  lemma ChosenReaches(e: Env, b: Store, mem: seq<KV>, vs: seq<Seq>, k: nat, isPrefill: bool)
    requires Inv(e, b, mem, vs) && k < |vs| && Chosen(e, vs[k], isPrefill)
    ensures 0 < Reached(vs[k], isPrefill) <= |vs[k].tokens|
  {
    InvAt(e, b, mem, vs, k);
  }

  /** Every sequence of a batch is chosen. */
  lemma BatchChosen(e: Env, live: seq<Sequence>, waiting: seq<Sequence>, running: seq<Sequence>, vs: seq<Seq>,
                    seqs: seq<Sequence>, idx: seq<nat>, us: seq<Seq>, isPrefill: bool)
    requires Apart(live, waiting, running) && Ranked(live, waiting, vs)
    requires if isPrefill then PrefillBatch(e, live, running, vs, seqs, idx)
             else DecodeBatch(e, live, running, vs, seqs, idx)
    requires |us| == |seqs| && forall j | 0 <= j < |idx| :: us[j] == vs[idx[j]]
    ensures Picks(vs, idx, us) && NoDup(seqs)
    ensures forall j | 0 <= j < |us| :: Chosen(e, us[j], isPrefill) && seqs[j] in running && seqs[j] in live
  {
    assert Batch(live, running, seqs, idx);
    hide Phase;
  }
}

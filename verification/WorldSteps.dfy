/** What each kind of step keeps of the invariants in Worlds. */
module WorldSteps {
  import opened Arithmetic
  import opened Blocks
  import opened BlockClaims
  import opened BlockSteps
  import opened Hashing
  import opened LanguageModel
  import opened PrefixCache
  import opened Sequences
  import opened Worlds
  import opened Wrappers

  /** Content is lost only by blocks that were idle before or are idle after. */
  ghost predicate Evolves(b: Store, b': Store) {
    && |b'.blocks| == |b.blocks| && IndexFollows(b, b')
    && forall id | 0 <= id < |b.blocks| ::
         || SameContent(b.blocks[id], b'.blocks[id])
         || (b'.blocks[id].hash == -1 && (b.blocks[id].refCount == 0 || b'.blocks[id].refCount == 0))
  }

  lemma GrowsEvolves(b: Store, b': Store)
    requires Grows(b, b')
    ensures Evolves(b, b')
  {
  }

  lemma ShrinksEvolves(b: Store, b': Store)
    requires Shrinks(b, b')
    ensures Evolves(b, b')
  {
  }

  /** The blocks of v's table have the same content in both stores. */
  ghost predicate SameTable(b: Store, b': Store, v: Seq) {
    forall i | 0 <= i < |v.table| && v.table[i] < |b.blocks| && v.table[i] < |b'.blocks| ::
      SameContent(b.blocks[v.table[i]], b'.blocks[v.table[i]])
  }

  lemma {:induction false} SameHashedPrompt(b: Store, b': Store, v: Seq, k: nat, bs: nat)
    requires k <= |v.table| && |b'.blocks| == |b.blocks| && SameTable(b, b', v)
    ensures HashedPrompt(b', v, k, bs) == HashedPrompt(b, v, k, bs)
  {
    if k > 0 { SameHashedPrompt(b, b', v, k - 1, bs); }
  }

  lemma SeqCoreKept(e: Env, b: Store, b': Store, v: Seq)
    requires e.BlockSize() > 0 && |b'.blocks| == |b.blocks|
    requires SeqCore(e, b, v) && SameTable(b, b', v)
    ensures SeqCore(e, b', v)
  {
    SameHashedPrompt(b, b', v, |v.table|, e.BlockSize());
  }

  /** A sequence that holds references throughout keeps its blocks' content. */
  lemma HeldTableKept(b: Store, b': Store, seqs: seq<Seq>, seqs': seq<Seq>, j: nat, j': nat)
    requires j < |seqs| && j' < |seqs'| && seqs'[j'] == seqs[j]
    requires RefsExact(b, seqs) && RefsExact(b', seqs') && Evolves(b, b')
    ensures SameTable(b, b', seqs[j])
  {
    var v := seqs[j];
    AllRefsHas(seqs, j);
    AllRefsHas(seqs', j');
    forall i | 0 <= i < |v.table| && v.table[i] < |b.blocks| && v.table[i] < |b'.blocks|
      ensures SameContent(b.blocks[v.table[i]], b'.blocks[v.table[i]])
    {
      assert multiset(v.table)[v.table[i]] > 0;
    }
  }

  lemma RefsExactAfter(b: Store, b': Store, seqs: seq<Seq>, k: nat, w: Seq)
    requires k < |seqs| && RefsExact(b, seqs) && TableInRange(b', w)
    requires Counted(b, b', multiset(seqs[k].table), multiset(w.table))
    ensures RefsExact(b', seqs[k := w])
  {
    AllRefsUpdate(seqs, k, w);
    var all := seqs[k := w];
    forall j | 0 <= j < |all| ensures TableInRange(b', all[j]) {
      if j != k { assert TableInRange(b, seqs[j]); }
    }
    forall id | 0 <= id < |b'.blocks| ensures b'.blocks[id].refCount == AllRefs(all)[id] {
      assert (AllRefs(all) + multiset(seqs[k].table))[id] == (AllRefs(seqs) + multiset(w.table))[id];
    }
  }

  /** One sequence's view and table change, together with the store. */
  lemma CoreAfter(e: Env, b: Store, b': Store, seqs: seq<Seq>, k: nat, w: Seq)
    requires Core(e, b, seqs) && k < |seqs|
    requires Evolves(b, b') && Valid(b', e.BlockSize()) && WithinQuotas(b', e.cache)
    requires Counted(b, b', multiset(seqs[k].table), multiset(w.table)) && TableInRange(b', w)
    requires SeqCore(e, b', w)
    ensures Core(e, b', seqs[k := w])
  {
    RefsExactAfter(b, b', seqs, k, w);
    var all := seqs[k := w];
    hide Valid, WithinQuotas, RefsExact, Counted, TableInRange, SeqCore, Evolves;
    forall j | 0 <= j < |all| ensures SeqCore(e, b', all[j]) {
      if j != k {
        HeldTableKept(b, b', seqs, all, j, j);
        SeqCoreKept(e, b, b', seqs[j]) by { EvolvesCount(b, b'); }
      }
    }
  }

  lemma EvolvesCount(b: Store, b': Store)
    requires Evolves(b, b')
    ensures |b'.blocks| == |b.blocks|
  {
  }

  lemma IndexCompleteKept(b: Store, b': Store)
    requires Evolves(b, b') && IndexComplete(b)
    ensures IndexComplete(b')
  {
  }

  lemma HashTrueKept(e: Env, b: Store, b': Store, mem: seq<KV>, id: nat)
    requires e.BlockSize() > 0 && Evolves(b, b') && id < |b.blocks|
    requires b.blocks[id].hash != -1 ==> HashTrue(e, b.blocks[id], mem, id)
    requires b'.blocks[id].hash != -1
    ensures HashTrue(e, b'.blocks[id], mem, id)
  {
    assert SameContent(b.blocks[id], b'.blocks[id]);
  }

  predicate PromptsOk(seqs: seq<Seq>) {
    forall k | 0 <= k < |seqs| :: seqs[k].req.prompt != [] && seqs[k].req.prompt <= seqs[k].tokens
  }

  lemma TruthAfter(e: Env, b: Store, b': Store, mem: seq<KV>, seqs: seq<Seq>, k: nat, w: Seq)
    requires e.BlockSize() > 0 && PromptsOk(seqs) && k < |seqs|
    requires w.req.prompt != [] && w.req.prompt <= w.tokens
    requires Truth(e, b, mem, seqs) && Evolves(b, b') && SeqTrue(e, mem, w)
    ensures Truth(e, b', mem, seqs[k := w])
  {
    IndexCompleteKept(b, b');
    forall id | 0 <= id < |b'.blocks| && b'.blocks[id].hash != -1
      ensures HashTrue(e, b'.blocks[id], mem, id)
    {
      HashTrueKept(e, b, b', mem, id);
    }
    hide HashTrue, SeqTrue, Evolves, IndexComplete;
  }

  /** The general step: one sequence changes, no hash is added, the memory stays. */
  lemma StepInv(e: Env, b: Store, b': Store, mem: seq<KV>, seqs: seq<Seq>, k: nat, w: Seq)
    requires Inv(e, b, mem, seqs) && k < |seqs|
    requires Evolves(b, b') && Valid(b', e.BlockSize()) && WithinQuotas(b', e.cache)
    requires Counted(b, b', multiset(seqs[k].table), multiset(w.table)) && TableInRange(b', w)
    requires SeqCore(e, b', w)
    requires CollisionFree(e) && SeqTrue(e, mem, seqs[k]) ==> SeqTrue(e, mem, w)
    ensures Inv(e, b', mem, seqs[k := w])
  {
    CoreAfter(e, b, b', seqs, k, w);
    if CollisionFree(e) { TruthAfter(e, b, b', mem, seqs, k, w); }
  }
}

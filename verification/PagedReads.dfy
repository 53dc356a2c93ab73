/** The decode kernel reads the paged cache where the model runner wrote it. */
module PagedReads {
  import opened Arithmetic
  import opened WorldRun
  import opened Worlds
  import Attention
  import Kernels
  import Packing

  /** The kernel is given the padded tables, one after the other. */
  ghost predicate Flat(x: Kernels.PagedLaunch, padded: seq<seq<int>>) {
    && (forall j | 0 <= j < |padded| :: |padded[j]| == x.maxBlocks)
    && forall j, i | 0 <= j < |padded| && 0 <= i < x.maxBlocks ::
         Slot(j, i, x.maxBlocks) < |x.tables| && x.tables[Slot(j, i, x.maxBlocks)] == padded[j][i]
  }

  /** The kernel sees position t of sequence j and reads it in the slot that the sequence's own block
      table names: for a position of the batch, the very slot to which the slot mapping sends its row. */
  lemma ReadsWhereWritten(e: Env, cs: seq<Chunk>, padded: seq<seq<int>>, x: Kernels.PagedLaunch, j: nat, t: nat,
                          hq: nat, hkv: nat)
    requires Packing.AllCovered(e, cs) && Packing.TablesOk(padded, cs) && Flat(x, padded) && x.bs == e.BlockSize() > 0
    requires j < |cs| && t < cs[j].end
    ensures t / e.BlockSize() < |cs[j].v.table|
    ensures var r := Kernels.PagedHeadRow(x, j, hq, hkv);
            && Attention.Sees(r, t)
            && Attention.KeyAt(r, t) == Kernels.Vector(SlotAt(e, cs[j].v, t), hkv, x.Hkv, x.D)
            && (cs[j].start <= t ==>
                  var row, slots := Packing.Offset(cs, j) + t - cs[j].start, Packing.Slots(e, cs, |cs|);
                  row < |slots| && Attention.KeyAt(r, t) == Kernels.Vector(slots[row], hkv, x.Hkv, x.D))
  {
    hide Packing.Offset, Packing.Slots, Kernels.Vector, Slot;
    Packing.CoveredTable(e, cs[j], t);
    assert padded[j][t / e.BlockSize()] == cs[j].v.table[t / e.BlockSize()];
    assert x.tables[Slot(j, t / e.BlockSize(), x.maxBlocks)] == padded[j][t / e.BlockSize()];
    if cs[j].start <= t { Packing.RowOf(e, cs, j, t); }
  }

  /** Past its own table it sees nothing. */
  lemma NothingPastTheTable(cs: seq<Chunk>, padded: seq<seq<int>>, x: Kernels.PagedLaunch, j: nat, t: nat,
                            hq: nat, hkv: nat)
    requires x.bs > 0 && Packing.TablesOk(padded, cs) && Flat(x, padded)
    requires j < |cs| && t / x.bs >= |cs[j].v.table|
    ensures !Attention.Sees(Kernels.PagedHeadRow(x, j, hq, hkv), t)
  {
    hide Slot;
    if t / x.bs < x.maxBlocks {
      assert x.tables[Slot(j, t / x.bs, x.maxBlocks)] == padded[j][t / x.bs];
    }
  }
}

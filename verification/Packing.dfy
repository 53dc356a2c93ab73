/** How a batch of chunks is laid out in flat arrays: one row per token to compute. */
module Packing {
  import opened Arithmetic
  import opened LanguageModel
  import opened Sequences
  import opened WorldRun
  import opened Worlds
  import opened Wrappers

  /** The chunk of a sequence that a prefill computes; without a noted end, all of it. */
  function PrefillChunk(v: Seq): Chunk {
    Chunk(v, v.schedStart, if v.schedEnd != 0 then v.schedEnd else |v.tokens|)
  }

  /** A decode computes the last token only. */
  function DecodeChunk(v: Seq): Chunk
    requires v.tokens != []
  {
    Chunk(v, |v.tokens| - 1, |v.tokens|)
  }

  /** There are tokens to compute, and the table covers them. */
  predicate Covered(e: Env, c: Chunk) {
    c.start < c.end <= |c.v.tokens| && c.end <= |c.v.table| * e.BlockSize()
  }

  predicate AllCovered(e: Env, cs: seq<Chunk>) {
    e.BlockSize() > 0 && forall j | 0 <= j < |cs| :: Covered(e, cs[j])
  }

  lemma CoveredTable(e: Env, c: Chunk, p: nat)
    requires e.BlockSize() > 0 && Covered(e, c) && p < c.end
    ensures p / e.BlockSize() < |c.v.table|
  {
    PositionBlock(p, |c.v.table|, e.BlockSize());
  }

  function Range(start: nat, end: nat): (r: seq<nat>)
    requires start <= end
    ensures |r| == end - start && forall i | 0 <= i < |r| :: r[i] == start + i
  {
    seq(end - start, i requires 0 <= i => start + i)
  }

  /** Where the i-th token of a chunk is written. */
  function ChunkSlot(e: Env, c: Chunk, i: nat): nat
    requires e.BlockSize() > 0 && Covered(e, c) && c.start + i < c.end
  {
    CoveredTable(e, c, c.start + i);
    SlotAt(e, c.v, c.start + i)
  }

  function ChunkSlots(e: Env, c: Chunk): (r: seq<nat>)
    requires e.BlockSize() > 0 && Covered(e, c)
    ensures |r| == c.end - c.start && forall i | 0 <= i < |r| :: r[i] == ChunkSlot(e, c, i)
  {
    seq(c.end - c.start, i requires 0 <= i < c.end - c.start => ChunkSlot(e, c, i))
  }

  /** The row at which chunk j begins. */
  function Offset(cs: seq<Chunk>, j: nat): nat
    requires j <= |cs|
  {
    if j == 0 then 0 else Offset(cs, j - 1) + Max(0, cs[j - 1].end - cs[j - 1].start)
  }

  /** Tokens up to the end of each of the first j chunks together. */
  function KeyOffset(cs: seq<Chunk>, j: nat): nat
    requires j <= |cs|
  {
    if j == 0 then 0 else KeyOffset(cs, j - 1) + cs[j - 1].end
  }

  function Ids(e: Env, cs: seq<Chunk>, j: nat): seq<Token>
    requires AllCovered(e, cs) && j <= |cs|
  {
    if j == 0 then [] else Ids(e, cs, j - 1) + cs[j - 1].v.tokens[cs[j - 1].start..cs[j - 1].end]
  }

  function Positions(e: Env, cs: seq<Chunk>, j: nat): seq<nat>
    requires AllCovered(e, cs) && j <= |cs|
  {
    if j == 0 then [] else Positions(e, cs, j - 1) + Range(cs[j - 1].start, cs[j - 1].end)
  }

  function Slots(e: Env, cs: seq<Chunk>, j: nat): seq<nat>
    requires AllCovered(e, cs) && j <= |cs|
  {
    if j == 0 then [] else Slots(e, cs, j - 1) + ChunkSlots(e, cs[j - 1])
  }

  lemma {:induction false} Sizes(e: Env, cs: seq<Chunk>, j: nat)
    requires AllCovered(e, cs) && j <= |cs|
    ensures |Ids(e, cs, j)| == |Positions(e, cs, j)| == |Slots(e, cs, j)| == Offset(cs, j)
  {
    if j > 0 { Sizes(e, cs, j - 1); }
  }

  lemma BoundsAt(e: Env, cs: seq<Chunk>, j: nat)
    requires AllCovered(e, cs) && j < |cs|
    ensures e.BlockSize() > 0 && Covered(e, cs[j]) && cs[j].start < cs[j].end <= |cs[j].v.tokens|
  {
  }

  lemma PackedNone(e: Env, cs: seq<Chunk>)
    requires AllCovered(e, cs)
    ensures Ids(e, cs, 0) == [] && Positions(e, cs, 0) == [] && Slots(e, cs, 0) == []
    ensures Offset(cs, 0) == 0 && KeyOffset(cs, 0) == 0
  {
  }

  lemma PackedNext(e: Env, cs: seq<Chunk>, j: nat)
    requires AllCovered(e, cs) && j < |cs|
    ensures Ids(e, cs, j + 1) == Ids(e, cs, j) + cs[j].v.tokens[cs[j].start..cs[j].end]
    ensures Positions(e, cs, j + 1) == Positions(e, cs, j) + Range(cs[j].start, cs[j].end)
    ensures Slots(e, cs, j + 1) == Slots(e, cs, j) + ChunkSlots(e, cs[j])
    ensures Offset(cs, j + 1) == Offset(cs, j) + (cs[j].end - cs[j].start)
    ensures KeyOffset(cs, j + 1) == KeyOffset(cs, j) + cs[j].end
  {
  }

  lemma FrontAt<T>(a: seq<T>, b: seq<T>, i: nat)
    requires i < |a|
    ensures (a + b)[i] == a[i]
  {
  }

  lemma BackAt<T>(a: seq<T>, b: seq<T>, i: nat)
    requires i < |b|
    ensures |a| + i < |a + b| && (a + b)[|a| + i] == b[i]
  {
  }

  lemma {:induction false} IdAt(e: Env, cs: seq<Chunk>, j: nat, i: nat, n: nat)
    requires AllCovered(e, cs) && j < n <= |cs| && cs[j].start + i < cs[j].end
    ensures Offset(cs, j) + i < |Ids(e, cs, n)| && Ids(e, cs, n)[Offset(cs, j) + i] == cs[j].v.tokens[cs[j].start + i]
  {
    hide Offset, AllCovered, Covered;
    BoundsAt(e, cs, j);
    BoundsAt(e, cs, n - 1);
    var front, back := Ids(e, cs, n - 1), cs[n - 1].v.tokens[cs[n - 1].start..cs[n - 1].end];
    Sizes(e, cs, n - 1);
    if j < n - 1 {
      IdAt(e, cs, j, i, n - 1);
      FrontAt(front, back, Offset(cs, j) + i);
    } else {
      BackAt(front, back, i);
    }
  }

  lemma {:induction false} PositionAt(e: Env, cs: seq<Chunk>, j: nat, i: nat, n: nat)
    requires AllCovered(e, cs) && j < n <= |cs| && cs[j].start + i < cs[j].end
    ensures Offset(cs, j) + i < |Positions(e, cs, n)| && Positions(e, cs, n)[Offset(cs, j) + i] == cs[j].start + i
  {
    hide Offset, AllCovered, Covered;
    BoundsAt(e, cs, j);
    BoundsAt(e, cs, n - 1);
    var front, back := Positions(e, cs, n - 1), Range(cs[n - 1].start, cs[n - 1].end);
    Sizes(e, cs, n - 1);
    if j < n - 1 {
      PositionAt(e, cs, j, i, n - 1);
      FrontAt(front, back, Offset(cs, j) + i);
    } else {
      BackAt(front, back, i);
    }
  }

  lemma {:induction false} SlotRow(e: Env, cs: seq<Chunk>, j: nat, i: nat, n: nat)
    requires AllCovered(e, cs) && j < n <= |cs| && cs[j].start + i < cs[j].end
    ensures Offset(cs, j) + i < |Slots(e, cs, n)| && Slots(e, cs, n)[Offset(cs, j) + i] == ChunkSlot(e, cs[j], i)
  {
    hide Offset, ChunkSlot, AllCovered, Covered;
    BoundsAt(e, cs, j);
    BoundsAt(e, cs, n - 1);
    var front, back := Slots(e, cs, n - 1), ChunkSlots(e, cs[n - 1]);
    Sizes(e, cs, n - 1);
    if j < n - 1 {
      SlotRow(e, cs, j, i, n - 1);
      FrontAt(front, back, Offset(cs, j) + i);
    } else {
      BackAt(front, back, i);
    }
  }

  /** The row of chunk j for position p carries p's token, and writes where p's table entry says. */
  lemma RowOf(e: Env, cs: seq<Chunk>, j: nat, p: nat)
    requires AllCovered(e, cs) && j < |cs| && cs[j].start <= p < cs[j].end
    ensures p / e.BlockSize() < |cs[j].v.table|
    ensures var n, r := |cs|, Offset(cs, j) + p - cs[j].start;
            && r < |Ids(e, cs, n)| == |Positions(e, cs, n)| == |Slots(e, cs, n)| == Offset(cs, n)
            && Ids(e, cs, n)[r] == cs[j].v.tokens[p] && Positions(e, cs, n)[r] == p
            && Slots(e, cs, n)[r] == SlotAt(e, cs[j].v, p)
  {
    hide Ids, Positions, Slots, SlotAt, Offset;
    CoveredTable(e, cs[j], p);
    Sizes(e, cs, |cs|);
    IdAt(e, cs, j, p - cs[j].start, |cs|);
    PositionAt(e, cs, j, p - cs[j].start, |cs|);
    SlotRow(e, cs, j, p - cs[j].start, |cs|);
  }

  lemma {:induction false} OffsetMonotone(e: Env, cs: seq<Chunk>, i: nat, j: nat)
    requires AllCovered(e, cs) && i <= j <= |cs|
    ensures Offset(cs, i) + j - i <= Offset(cs, j)
  {
    if i < j { OffsetMonotone(e, cs, i, j - 1); }
  }

  /** As many keys as queries means that no sequence has a prefix it does not compute itself. */
  lemma {:induction false} NoPrefix(e: Env, cs: seq<Chunk>, j: nat)
    requires AllCovered(e, cs) && j <= |cs|
    ensures KeyOffset(cs, j) >= Offset(cs, j)
    ensures KeyOffset(cs, j) == Offset(cs, j) <==> forall i | 0 <= i < j :: cs[i].start == 0
  {
    if j > 0 { NoPrefix(e, cs, j - 1); }
  }

  /** What one row is sampled from: the entries up to its position, and its token. */
  datatype Row = Row(entries: seq<KV>, token: Token)

  /** The tables, padded with -1 to one length. */
  ghost predicate TablesOk(tables: seq<seq<int>>, cs: seq<Chunk>) {
    && |tables| == |cs|
    && (forall j | 0 <= j < |cs| ::
          && |cs[j].v.table| <= |tables[j]|
          && (forall i | 0 <= i < |cs[j].v.table| :: tables[j][i] == cs[j].v.table[i])
          && (forall i | |cs[j].v.table| <= i < |tables[j]| :: tables[j][i] == -1))
    && (forall i, j | 0 <= i < j < |tables| :: |tables[i]| == |tables[j]|)
  }

  /* ---------- The state of a run ---------- */

  /** How far chunk i is computed when the run has come to position p of chunk j. */
  function Upto(cs: seq<Chunk>, i: nat, j: nat, p: nat): nat
    requires i < |cs|
  {
    if i < j then cs[i].end else if i == j then p else cs[i].start
  }

  ghost predicate RunSoFar(e: Env, mem: seq<KV>, cs: seq<Chunk>, j: nat, p: nat)
    requires e.BlockSize() > 0
  {
    forall i | 0 <= i < |cs| :: SeqHolds(e, mem, cs[i].v, Upto(cs, i, j, p))
  }

  ghost predicate ChunksOk(e: Env, mem: seq<KV>, cs: seq<Chunk>) {
    e.BlockSize() > 0 && SlotsApart(e, cs) && forall j | 0 <= j < |cs| :: ChunkOk(e, mem, cs[j])
  }

  /** One row written, one more position held; nothing else lost. */
  lemma RunStep(e: Env, mem: seq<KV>, cs: seq<Chunk>, j: nat, p: nat, kv: KV)
    requires ChunksOk(e, mem, cs) && j < |cs| && cs[j].start <= p < cs[j].end
    ensures p / e.BlockSize() < |cs[j].v.table| && SlotAt(e, cs[j].v, p) < |mem|
    ensures RunSoFar(e, mem, cs, j, p) && kv == KVs(e.model, cs[j].v.tokens)[p] ==>
              RunSoFar(e, mem[SlotAt(e, cs[j].v, p) := kv], cs, j, p + 1)
  {
    hide SeqHolds, SlotsApart, SlotAt;
    CoveredPosition(e, mem, cs[j], p);
    var a := SlotAt(e, cs[j].v, p);
    if RunSoFar(e, mem, cs, j, p) && kv == KVs(e.model, cs[j].v.tokens)[p] {
      forall i | 0 <= i < |cs| ensures SeqHolds(e, mem[a := kv], cs[i].v, Upto(cs, i, j, p + 1)) {
        assert ChunkOk(e, mem, cs[i]) && SeqHolds(e, mem, cs[i].v, Upto(cs, i, j, p));
        WriteKeeps(e, mem, cs, j, p, kv, i, Upto(cs, i, j, p));
        if i == j { WriteExtends(e, mem, cs[j], p, kv); }
      }
    }
  }

  lemma OnlyWrittenStep(e: Env, was: seq<KV>, mem: seq<KV>, cs: seq<Chunk>, j: nat, p: nat, kv: KV)
    requires ChunksOk(e, mem, cs) && j < |cs| && cs[j].start <= p < cs[j].end
    requires OnlyWritten(e, was, mem, cs)
    ensures p / e.BlockSize() < |cs[j].v.table| && SlotAt(e, cs[j].v, p) < |mem|
    ensures OnlyWritten(e, was, mem[SlotAt(e, cs[j].v, p) := kv], cs)
    ensures ChunksOk(e, mem[SlotAt(e, cs[j].v, p) := kv], cs)
  {
    hide SlotsApart, SlotAt;
    CoveredPosition(e, mem, cs[j], p);
    var a := SlotAt(e, cs[j].v, p);
    forall b | 0 <= b < |was| && mem[a := kv][b] != was[b] ensures WrittenBy(e, cs, b) {
      if b != a { assert mem[b] != was[b]; }
    }
    forall i | 0 <= i < |cs| ensures ChunkOk(e, mem[a := kv], cs[i]) { assert ChunkOk(e, mem, cs[i]); }
  }

  lemma NextChunk(e: Env, mem: seq<KV>, cs: seq<Chunk>, j: nat)
    requires e.BlockSize() > 0 && j < |cs| && RunSoFar(e, mem, cs, j, cs[j].end)
    ensures RunSoFar(e, mem, cs, j + 1, if j + 1 < |cs| then cs[j + 1].start else 0)
  {
    var p := if j + 1 < |cs| then cs[j + 1].start else 0;
    forall i | 0 <= i < |cs| ensures Upto(cs, i, j + 1, p) == Upto(cs, i, j, cs[j].end) { }
  }

  /** A row's sample is what the model makes of exactly the tokens up to it. */
  lemma RowSample(m: Model, t: seq<Token>, p: nat, temperature: real)
    requires p < |t|
    ensures m.sample(KVs(m, t[..p + 1]), t[p], temperature) == NextToken(m, t[..p + 1], temperature)
    ensures KVs(m, t[..p]) + [m.compute(KVs(m, t[..p]), t[p])] == KVs(m, t[..p + 1])
    ensures m.compute(KVs(m, t[..p]), t[p]) == KVs(m, t)[p]
  {
    KVsAt(m, t, p);
    assert t[..p + 1][..p] == t[..p];
  }
}

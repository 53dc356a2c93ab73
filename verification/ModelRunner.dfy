/** The model runner: lays a batch out, runs the model over its rows, and samples one token a
    sequence.  The KV memory is one flat array of blocks. */
module ModelRunners {
  import opened Arithmetic
  import opened LanguageModel
  import opened Packing
  import opened Sequences
  import opened WorldRun
  import opened Worlds
  import opened Wrappers

  /** The packed batch.  bounds[j] is the row at which sequence j begins; tables are there unless
      every key is computed in this very batch. */
  datatype Inputs = Inputs(
    ids: seq<Token>,
    positions: seq<nat>,
    bounds: seq<nat>,
    slots: seq<nat>,
    tables: Option<seq<seq<int>>>)

  ghost predicate Laid(e: Env, cs: seq<Chunk>, x: Inputs)
    requires AllCovered(e, cs)
  {
    && x.ids == Ids(e, cs, |cs|) && x.positions == Positions(e, cs, |cs|) && x.slots == Slots(e, cs, |cs|)
    && |x.bounds| == |cs| + 1 && (forall j | 0 <= j <= |cs| :: x.bounds[j] == Offset(cs, j))
    && match x.tables
       case Some(tables) => TablesOk(tables, cs)
       case None => forall j | 0 <= j < |cs| :: cs[j].start == 0
  }

  /** A decode chunk is one row. */
  lemma OneRow(e: Env, c: Chunk, p: nat)
    requires e.BlockSize() > 0 && Covered(e, c) && c.start == p && c.end == p + 1
    ensures p / e.BlockSize() < |c.v.table|
    ensures c.v.tokens[p..p + 1] == [c.v.tokens[p]] && Range(p, p + 1) == [p]
    ensures ChunkSlots(e, c) == [c.v.table[p / e.BlockSize()] * e.BlockSize() + p % e.BlockSize()]
  {
    CoveredTable(e, c, p);
    assert ChunkSlots(e, c)[0] == ChunkSlot(e, c, 0);
  }

  lemma LaidAt(e: Env, cs: seq<Chunk>, x: Inputs, j: nat)
    requires AllCovered(e, cs) && Laid(e, cs, x) && j < |cs|
    ensures |x.bounds| == |cs| + 1 && x.bounds[j] == Offset(cs, j) && x.bounds[j + 1] == Offset(cs, j + 1)
  {
  }

  lemma LaidRow(e: Env, cs: seq<Chunk>, x: Inputs, j: nat, p: nat)
    requires AllCovered(e, cs) && Laid(e, cs, x) && j < |cs| && cs[j].start <= p < cs[j].end
    ensures p / e.BlockSize() < |cs[j].v.table|
    ensures var r := Offset(cs, j) + p - cs[j].start;
            && r < |x.ids| == |x.positions| == |x.slots|
            && x.ids[r] == cs[j].v.tokens[p] && x.positions[r] == p && x.slots[r] == SlotAt(e, cs[j].v, p)
  {
    hide Ids, Positions, Slots, Offset, SlotAt;
    RowOf(e, cs, j, p);
  }

  /** The rows of chunk j computed so far in this batch are its own entries. */
  ghost predicate FreshHold(m: Model, cs: seq<Chunk>, j: nat, p: nat, kvs: seq<KV>)
    requires j < |cs| && cs[j].start <= p
  {
    forall i | cs[j].start <= i < p && i < |cs[j].v.tokens| ::
      var r := Offset(cs, j) + i - cs[j].start;
      r < |kvs| && kvs[r] == KVs(m, cs[j].v.tokens)[i]
  }

  lemma NothingFresh(m: Model, cs: seq<Chunk>, j: nat, kvs: seq<KV>)
    requires j < |cs|
    ensures FreshHold(m, cs, j, cs[j].start, kvs)
  {
  }

  lemma FreshStep(m: Model, cs: seq<Chunk>, j: nat, p: nat, kvs: seq<KV>)
    requires j < |cs| && cs[j].start <= p < |cs[j].v.tokens| && |kvs| == Offset(cs, j) + p - cs[j].start
    ensures FreshHold(m, cs, j, p, kvs) ==> FreshHold(m, cs, j, p + 1, kvs + [KVs(m, cs[j].v.tokens)[p]])
  {
  }

  lemma HeldAt(e: Env, mem: seq<KV>, cs: seq<Chunk>, j: nat, p: nat)
    requires e.BlockSize() > 0 && RunSoFar(e, mem, cs, j, p) && j < |cs|
    ensures SeqHolds(e, mem, cs[j].v, p)
  {
    assert Upto(cs, j, j, p) == p;
  }

  /** The last row of chunk j has exactly the tokens up to the chunk's end behind it. */
  ghost predicate LastRowOk(m: Model, cs: seq<Chunk>, j: nat, rows: seq<Row>)
    requires j < |cs|
  {
    && 0 < cs[j].end <= |cs[j].v.tokens| && 0 < Offset(cs, j + 1) <= |rows|
    && rows[Offset(cs, j + 1) - 1]
         == Row(KVs(m, cs[j].v.tokens[..cs[j].end]), cs[j].v.tokens[cs[j].end - 1])
  }

  /** A covered position's entry is in memory where the table says. */
  lemma EntryAt(e: Env, mem: seq<KV>, c: Chunk, q: nat)
    requires e.BlockSize() > 0 && ChunkOk(e, mem, c) && q < c.end
    ensures q / e.BlockSize() < |c.v.table|
    ensures var a := c.v.table[q / e.BlockSize()] * e.BlockSize() + q % e.BlockSize();
            a < |mem| && mem[a] == CellOf(e, mem, c.v, q)
  {
    CoveredPosition(e, mem, c, q);
  }

  /** Before a run, the memory holds what each chunk builds on. */
  ghost predicate Held(e: Env, mem: seq<KV>, cs: seq<Chunk>) {
    e.BlockSize() > 0 && forall i | 0 <= i < |cs| :: SeqHolds(e, mem, cs[i].v, cs[i].start)
  }

  /** After it, the memory holds the chunks too, and the rows to sample from are there. */
  ghost predicate Computed(e: Env, mem: seq<KV>, cs: seq<Chunk>, rows: seq<Row>) {
    && e.BlockSize() > 0
    && (forall i | 0 <= i < |cs| :: SeqHolds(e, mem, cs[i].v, cs[i].end))
    && (forall i | 0 <= i < |cs| :: LastRowOk(e.model, cs, i, rows))
  }

  lemma HeldStarts(e: Env, mem: seq<KV>, cs: seq<Chunk>)
    requires Held(e, mem, cs)
    ensures e.BlockSize() > 0 && RunSoFar(e, mem, cs, 0, if cs != [] then cs[0].start else 0)
  {
    var p := if cs != [] then cs[0].start else 0;
    forall i | 0 <= i < |cs| ensures Upto(cs, i, 0, p) == cs[i].start { }
  }

  lemma AllHeldNow(e: Env, mem: seq<KV>, cs: seq<Chunk>)
    requires e.BlockSize() > 0 && RunSoFar(e, mem, cs, |cs|, 0)
    ensures forall i | 0 <= i < |cs| :: SeqHolds(e, mem, cs[i].v, cs[i].end)
  {
    forall i | 0 <= i < |cs| ensures SeqHolds(e, mem, cs[i].v, cs[i].end) {
      assert Upto(cs, i, |cs|, 0) == cs[i].end;
    }
  }

  lemma RowsNone(cs: seq<Chunk>)
    ensures Offset(cs, 0) == 0
  {
  }

  lemma LastRowStays(m: Model, cs: seq<Chunk>, i: nat, before: seq<Row>, rows: seq<Row>)
    requires i < |cs| && LastRowOk(m, cs, i, before) && before <= rows
    ensures LastRowOk(m, cs, i, rows)
  {
  }

  lemma BlocksReal(e: Env, cs: seq<Chunk>)
    requires AllCovered(e, cs)
    ensures e.BlockSize() > 0
  {
  }

  lemma LaidBounds(e: Env, cs: seq<Chunk>, x: Inputs)
    requires AllCovered(e, cs) && Laid(e, cs, x)
    ensures |x.bounds| == |cs| + 1
    ensures forall j | 0 < j <= |cs| :: x.bounds[j] == Offset(cs, j) && 0 < x.bounds[j] <= Offset(cs, |cs|)
  {
    hide Ids, Positions, Slots, Offset, AllCovered;
    RowsNone(cs);
    forall j | 0 < j <= |cs| ensures x.bounds[j] == Offset(cs, j) && 0 < x.bounds[j] <= Offset(cs, |cs|) {
      OffsetMonotone(e, cs, 0, j);
      OffsetMonotone(e, cs, j, |cs|);
    }
  }

  /** logits[j] is chunk j's last row. */
  ghost predicate RowFor(cs: seq<Chunk>, j: nat, rows: seq<Row>, logits: seq<Row>)
    requires j < |cs|
  {
    0 < Offset(cs, j + 1) <= |rows| && j < |logits| && logits[j] == rows[Offset(cs, j + 1) - 1]
  }

  lemma RowsSelected(cs: seq<Chunk>, indices: seq<nat>, rows: seq<Row>, before: seq<Row>, logits: seq<Row>)
    requires |indices| == |cs| == |logits|
    requires forall j | 0 <= j < |cs| :: PicksRow(cs, j, indices, rows, before)
    requires forall j | 0 <= j < |cs| && indices[j] < |before| :: logits[j] == before[indices[j]]
    ensures forall j | 0 <= j < |cs| :: RowFor(cs, j, rows, logits)
  {
    forall j | 0 <= j < |cs| ensures RowFor(cs, j, rows, logits) {
      assert PicksRow(cs, j, indices, rows, before);
    }
  }

  /** With as many rows as sequences, each sequence has one row. */
  lemma OnlyRows(e: Env, cs: seq<Chunk>, j: nat)
    requires AllCovered(e, cs) && Offset(cs, |cs|) == |cs| && j <= |cs|
    ensures Offset(cs, j) == j
  {
    OffsetMonotone(e, cs, 0, j);
    OffsetMonotone(e, cs, j, |cs|);
  }

  /** The token is what the model makes of exactly the chunk's tokens, and the chunk is in memory. */
  ghost predicate SampleOk(e: Env, mem: seq<KV>, cs: seq<Chunk>, j: nat, token: Token)
    requires e.BlockSize() > 0 && j < |cs|
  {
    && 0 < cs[j].end <= |cs[j].v.tokens| && SeqHolds(e, mem, cs[j].v, cs[j].end)
    && token == NextToken(e.model, cs[j].v.tokens[..cs[j].end], cs[j].v.req.gen.temperature)
  }

  /** Row lastIndices[j] of logits is chunk j's last row. */
  ghost predicate PicksRow(cs: seq<Chunk>, j: nat, lastIndices: seq<nat>, rows: seq<Row>, logits: seq<Row>)
    requires j < |cs|
  {
    && 0 < Offset(cs, j + 1) <= |rows| && j < |lastIndices| && lastIndices[j] < |logits|
    && logits[lastIndices[j]] == rows[Offset(cs, j + 1) - 1]
  }

  /** Selecting by lastIndices gives each sequence's last row, also where it was selected before. */
  lemma LastIndicesRight(e: Env, cs: seq<Chunk>, lastIndices: seq<nat>, rows: seq<Row>, logits: seq<Row>)
    requires AllCovered(e, cs) && |rows| == Offset(cs, |cs|) && |lastIndices| == |cs|
    requires forall j | 0 <= j < |cs| :: lastIndices[j] + 1 == Offset(cs, j + 1)
    requires logits == rows || (|logits| == |cs| && forall j | 0 <= j < |cs| :: RowFor(cs, j, rows, logits))
    ensures |logits| == |rows| ==> forall j | 0 <= j < |cs| :: PicksRow(cs, j, lastIndices, rows, logits)
    ensures |logits| != |rows| ==> |logits| == |cs| && forall j | 0 <= j < |cs| :: RowFor(cs, j, rows, logits)
  {
    hide AllCovered;
    forall j | 0 <= j < |cs| && |logits| == |rows| ensures PicksRow(cs, j, lastIndices, rows, logits) {
      OffsetMonotone(e, cs, 0, j + 1);
      OffsetMonotone(e, cs, j + 1, |cs|);
      if logits != rows {
        OnlyRows(e, cs, j + 1);
        assert RowFor(cs, j, rows, logits);
      }
    }
  }

  lemma {:induction false} OneRowEach(e: Env, cs: seq<Chunk>, rows: seq<Row>)
    requires AllCovered(e, cs) && |rows| == Offset(cs, |cs|)
    requires forall j | 0 <= j < |cs| :: cs[j].end == cs[j].start + 1
    ensures |rows| == |cs| && forall j | 0 <= j < |cs| :: RowFor(cs, j, rows, rows)
  {
    OneEach(cs, |cs|);
    forall j | 0 <= j < |cs| ensures RowFor(cs, j, rows, rows) { OneEach(cs, j + 1); }
  }

  lemma {:induction false} OneEach(cs: seq<Chunk>, n: nat)
    requires n <= |cs| && forall j | 0 <= j < n :: cs[j].end == cs[j].start + 1
    ensures Offset(cs, n) == n
  {
    if n > 0 { OneEach(cs, n - 1); }
  }

  lemma SampledRight(e: Env, mem: seq<KV>, cs: seq<Chunk>, rows: seq<Row>, logits: seq<Row>, j: nat, token: Token)
    requires Computed(e, mem, cs, rows) && j < |cs| && RowFor(cs, j, rows, logits)
    requires token == e.model.sample(logits[j].entries, logits[j].token, cs[j].v.req.gen.temperature)
    ensures SampleOk(e, mem, cs, j, token)
  {
    hide SeqHolds, Offset;
    assert LastRowOk(e.model, cs, j, rows);
  }

  class ModelRunner {
    const env: Env
    /** Whether the model's output layer already selects each sequence's last row in a prefill. */
    const selectsLastRows: bool
    const kvCache: array<KV>

    constructor (env: Env, numBlocks: nat, selectsLastRows: bool)
      ensures this.env == env && this.selectsLastRows == selectsLastRows
      ensures fresh(kvCache) && kvCache.Length == numBlocks * env.BlockSize()
    {
      this.env, this.selectsLastRows := env, selectsLastRows;
      kvCache := new KV[numBlocks * env.BlockSize()](_ => KV([], []));
    }

    method PrepareBlockTables(seqs: seq<Sequence>, ghost cs: seq<Chunk>) returns (tables: seq<seq<int>>)
      requires |cs| == |seqs| && forall j | 0 <= j < |seqs| :: cs[j].v == seqs[j].View()
      ensures TablesOk(tables, cs)
    {
      var maxLen := 0;
      for j := 0 to |seqs|
        invariant forall i | 0 <= i < j :: |seqs[i].blockTable| <= maxLen
      {
        maxLen := Max(maxLen, |seqs[j].blockTable|);
      }
      tables := [];
      for j := 0 to |seqs|
        invariant |tables| == j && forall i | 0 <= i < j :: tables[i] == Padded(seqs[i].blockTable, maxLen)
      {
        tables := tables + [Padded(seqs[j].blockTable, maxLen)];
      }
    }

    function Padded(table: seq<nat>, n: nat): (r: seq<int>)
      requires |table| <= n
      ensures |r| == n && forall i | 0 <= i < n :: r[i] == if i < |table| then table[i] else -1
    {
      seq(n, i requires 0 <= i => if i < |table| then table[i] as int else -1)
    }

    method PreparePrefill(seqs: seq<Sequence>, ghost cs: seq<Chunk>) returns (x: Inputs)
      requires |cs| == |seqs| && forall j | 0 <= j < |seqs| :: cs[j] == PrefillChunk(seqs[j].View())
      requires AllCovered(env, cs)
      ensures Laid(env, cs, x)
      ensures x.tables.Some? <==> exists j :: 0 <= j < |cs| && cs[j].start != 0
    {
      hide AllCovered, Covered, ChunkSlot, SlotAt, Ids, Positions, Slots, Offset, KeyOffset, ChunkSlots, TablesOk;
      PackedNone(env, cs);
      var ids: seq<Token>, positions: seq<nat>, slots: seq<nat> := [], [], [];
      var bounds, keys := [0], 0;
      for j := 0 to |seqs|
        invariant ids == Ids(env, cs, j) && positions == Positions(env, cs, j) && slots == Slots(env, cs, j)
        invariant |bounds| == j + 1 && forall i | 0 <= i <= j :: bounds[i] == Offset(cs, i)
        invariant keys == KeyOffset(cs, j)
      {
        var s := seqs[j];
        BoundsAt(env, cs, j);
        PackedNext(env, cs, j);
        var start := s.scheduledPrefillStart;
        var end := if s.scheduledPrefillEnd != 0 then s.scheduledPrefillEnd else |s.tokenIds|;
        ids := ids + s.tokenIds[start..end];
        positions := positions + Range(start, end);
        bounds := bounds + [bounds[j] + (end - start)];
        keys := keys + end;
        var more := AddSlots(s, start, end, cs[j]);
        slots := slots + more;
      }
      NoPrefix(env, cs, |cs|);
      var tables := None;
      if keys > bounds[|seqs|] {
        var t := PrepareBlockTables(seqs, cs);
        tables := Some(t);
      }
      x := Inputs(ids, positions, bounds, slots, tables);
    }

    /** Slots of the positions from start to end. */
    method AddSlots(s: Sequence, start: nat, end: nat, ghost c: Chunk) returns (slots: seq<nat>)
      requires env.BlockSize() > 0 && Covered(env, c) && c == Chunk(s.View(), start, end)
      ensures slots == ChunkSlots(env, c)
    {
      slots := [];
      for pos := start to end
        invariant |slots| == pos - start && forall i | 0 <= i < |slots| :: slots[i] == ChunkSlot(env, c, i)
      {
        CoveredTable(env, c, pos);
        var bs := env.BlockSize();
        slots := slots + [s.blockTable[pos / bs] * bs + pos % bs];
      }
    }

    method PrepareDecode(seqs: seq<Sequence>, ghost cs: seq<Chunk>) returns (x: Inputs)
      requires |cs| == |seqs|
      requires forall j | 0 <= j < |seqs| :: seqs[j].tokenIds != [] && cs[j] == DecodeChunk(seqs[j].View())
      requires AllCovered(env, cs)
      ensures Laid(env, cs, x)
    {
      hide AllCovered, Covered, ChunkSlot, SlotAt, Ids, Positions, Slots, Offset, KeyOffset, ChunkSlots, TablesOk;
      PackedNone(env, cs);
      var ids: seq<Token>, positions: seq<nat>, slots: seq<nat> := [], [], [];
      for j := 0 to |seqs|
        invariant ids == Ids(env, cs, j) && positions == Positions(env, cs, j) && slots == Slots(env, cs, j)
        invariant Offset(cs, j) == j && forall i | 0 <= i <= j :: Offset(cs, i) == i
      {
        var s := seqs[j];
        BoundsAt(env, cs, j);
        PackedNext(env, cs, j);
        var pos := |s.tokenIds| - 1;
        var bs := env.BlockSize();
        OneRow(env, cs[j], pos);
        var slot := s.blockTable[pos / bs] * bs + pos % bs;
        ids := ids + [s.tokenIds[pos]];
        positions := positions + [pos];
        slots := slots + [slot];
      }
      var tables := PrepareBlockTables(seqs, cs);
      x := Inputs(ids, positions, seq(|seqs| + 1, i requires 0 <= i => i), slots, Some(tables));
    }

    /** The first p entries of a sequence, read through its padded table. */
    method ReadTable(table: seq<int>, p: nat, ghost c: Chunk) returns (entries: seq<KV>)
      requires env.BlockSize() > 0 && ChunkOk(env, kvCache[..], c) && p <= c.end
      requires |c.v.table| <= |table| && forall i | 0 <= i < |c.v.table| :: table[i] == c.v.table[i]
      ensures |entries| == p
      ensures forall q | 0 <= q < p :: q / env.BlockSize() < |c.v.table| && entries[q] == CellOf(env, kvCache[..], c.v, q)
    {
      hide ChunkOk, CellOf;
      entries := [];
      for q := 0 to p
        invariant |entries| == q
        invariant forall i | 0 <= i < q ::
                    i / env.BlockSize() < |c.v.table| && entries[i] == CellOf(env, kvCache[..], c.v, i)
      {
        EntryAt(env, kvCache[..], c, q);
        var bs := env.BlockSize();
        entries := entries + [kvCache[table[q / bs] * bs + q % bs]];
      }
    }

    /** The entries a row attends to: through the table, or the rows of this batch where no sequence
        has a prefix.  kvs are the entries computed so far in this batch. */
    method Attend(x: Inputs, ghost cs: seq<Chunk>, j: nat, r: nat, ghost p: nat, kvs: seq<KV>)
      returns (entries: seq<KV>)
      requires ChunksOk(env, kvCache[..], cs) && AllCovered(env, cs) && Laid(env, cs, x)
      requires j < |cs| && cs[j].start <= p < cs[j].end && r == Offset(cs, j) + p - cs[j].start && |kvs| == r
      ensures SeqHolds(env, kvCache[..], cs[j].v, p) && FreshHold(env.model, cs, j, p, kvs) ==>
                entries == KVs(env.model, cs[j].v.tokens[..p])
    {
      hide SlotsApart, SeqHolds, Ids, Positions, Slots, Offset, Covered, ChunkOk;
      assert ChunkOk(env, kvCache[..], cs[j]);
      RowOf(env, cs, j, p);
      BoundsAt(env, cs, j);
      if x.tables.Some? {
        entries := ReadTable(x.tables.value[j], x.positions[r], cs[j]);
        if SeqHolds(env, kvCache[..], cs[j].v, p) { ReadBack(env, kvCache[..], cs[j].v, p, entries); }
      } else {
        entries := kvs[x.bounds[j]..r];
        if FreshHold(env.model, cs, j, p, kvs) {
          KVsPrefix(env.model, cs[j].v.tokens, p);
          assert entries == KVs(env.model, cs[j].v.tokens)[..p];
        }
      }
    }

    /** Computes one row: its entry goes to its slot. */
    method RunRow(x: Inputs, ghost cs: seq<Chunk>, j: nat, r: nat, ghost p: nat, kvs: seq<KV>, ghost was: seq<KV>)
      returns (row: Row, kv: KV)
      requires ChunksOk(env, kvCache[..], cs) && AllCovered(env, cs) && Laid(env, cs, x)
      requires j < |cs| && cs[j].start <= p < cs[j].end <= |cs[j].v.tokens|
      requires r == Offset(cs, j) + p - cs[j].start && |kvs| == r
      requires OnlyWritten(env, was, kvCache[..], cs)
      modifies kvCache
      ensures ChunksOk(env, kvCache[..], cs) && OnlyWritten(env, was, kvCache[..], cs)
      ensures old(RunSoFar(env, kvCache[..], cs, j, p)) && FreshHold(env.model, cs, j, p, kvs) ==>
                && RunSoFar(env, kvCache[..], cs, j, p + 1) && FreshHold(env.model, cs, j, p + 1, kvs + [kv])
                && row == Row(KVs(env.model, cs[j].v.tokens[..p + 1]), cs[j].v.tokens[p])
    {
      hide ChunksOk, OnlyWritten, Covered, Laid, Offset, RunSoFar, SlotAt, FreshHold, NextToken, SeqHolds, AllCovered;
      BoundsAt(env, cs, j);
      LaidRow(env, cs, x, j, p);
      ghost var mem := kvCache[..];
      var entries := Attend(x, cs, j, r, p, kvs);
      kv := env.model.compute(entries, x.ids[r]);
      row := Row(entries + [kv], x.ids[r]);
      RowSample(env.model, cs[j].v.tokens, p, 0.0);
      RunStep(env, mem, cs, j, p, kv);
      OnlyWrittenStep(env, was, mem, cs, j, p, kv);
      if RunSoFar(env, mem, cs, j, p) && FreshHold(env.model, cs, j, p, kvs) {
        HeldAt(env, mem, cs, j, p);
        FreshStep(env.model, cs, j, p, kvs);
      }
      kvCache[x.slots[r]] := kv;
      assert kvCache[..] == mem[x.slots[r] := kv];
    }

    /** Runs the rows of sequence j. */
    method RunSequence(x: Inputs, ghost cs: seq<Chunk>, j: nat, before: seq<Row>, kvsBefore: seq<KV>, ghost was: seq<KV>)
      returns (rows: seq<Row>, kvs: seq<KV>)
      requires ChunksOk(env, kvCache[..], cs) && AllCovered(env, cs) && Laid(env, cs, x) && j < |cs|
      requires |before| == |kvsBefore| == Offset(cs, j)
      requires OnlyWritten(env, was, kvCache[..], cs)
      modifies kvCache
      ensures ChunksOk(env, kvCache[..], cs) && OnlyWritten(env, was, kvCache[..], cs)
      ensures before <= rows && |rows| == |kvs| == Offset(cs, j + 1)
      ensures old(RunSoFar(env, kvCache[..], cs, j, cs[j].start)) ==>
                RunSoFar(env, kvCache[..], cs, j, cs[j].end) && LastRowOk(env.model, cs, j, rows)
    {
      hide ChunksOk, OnlyWritten, AllCovered, Covered, Laid, Offset, RunSoFar, FreshHold;
      BoundsAt(env, cs, j);
      LaidAt(env, cs, x, j);
      PackedNext(env, cs, j);
      ghost var held := RunSoFar(env, kvCache[..], cs, j, cs[j].start);
      rows, kvs := before, kvsBefore;
      ghost var p := cs[j].start;
      NothingFresh(env.model, cs, j, kvs);
      for r := x.bounds[j] to x.bounds[j + 1]
        invariant p == cs[j].start + (r - x.bounds[j]) <= cs[j].end
        invariant |rows| == |kvs| == r && before <= rows
        invariant ChunksOk(env, kvCache[..], cs) && OnlyWritten(env, was, kvCache[..], cs)
        invariant held ==> RunSoFar(env, kvCache[..], cs, j, p) && FreshHold(env.model, cs, j, p, kvs)
        invariant held && p > cs[j].start ==>
                    rows[r - 1] == Row(KVs(env.model, cs[j].v.tokens[..p]), cs[j].v.tokens[p - 1])
      {
        var row, kv := RunRow(x, cs, j, r, p, kvs, was);
        rows, kvs := rows + [row], kvs + [kv];
        p := p + 1;
      }
    }

    /** Runs the model over all rows of the batch. */
    method RunModel(x: Inputs, n: nat, ghost cs: seq<Chunk>) returns (rows: seq<Row>)
      requires ChunksOk(env, kvCache[..], cs) && AllCovered(env, cs) && Laid(env, cs, x) && n == |cs|
      modifies kvCache
      ensures OnlyWritten(env, old(kvCache[..]), kvCache[..], cs) && |rows| == Offset(cs, n)
      ensures old(Held(env, kvCache[..], cs)) ==> Computed(env, kvCache[..], cs, rows)
    {
      hide ChunksOk, AllCovered, Laid, Offset, RunSoFar, LastRowOk, SeqHolds, WrittenBy;
      ghost var was := kvCache[..];
      ghost var held := Held(env, was, cs);
      BlocksReal(env, cs);
      if held { HeldStarts(env, was, cs); }
      var kvs: seq<KV>;
      rows, kvs := [], [];
      RowsNone(cs);
      for j := 0 to n
        invariant ChunksOk(env, kvCache[..], cs) && OnlyWritten(env, was, kvCache[..], cs)
        invariant |rows| == |kvs| == Offset(cs, j)
        invariant held ==> RunSoFar(env, kvCache[..], cs, j, if j < n then cs[j].start else 0)
        invariant held ==> forall i | 0 <= i < j :: LastRowOk(env.model, cs, i, rows)
      {
        ghost var before := rows;
        rows, kvs := RunSequence(x, cs, j, rows, kvs, was);
        if held {
          NextChunk(env, kvCache[..], cs, j);
          forall i | 0 <= i < j ensures LastRowOk(env.model, cs, i, rows) { LastRowStays(env.model, cs, i, before, rows); }
        }
      }
      if held { AllHeldNow(env, kvCache[..], cs); }
    }

    /** Every sequence's sample comes from its own last row, whichever of the two output layers the
        model has. */
    method Run(seqs: seq<Sequence>, isPrefill: bool, ghost cs: seq<Chunk>) returns (tokens: seq<Token>)
      requires |cs| == |seqs| && AllCovered(env, cs) && ChunksOk(env, kvCache[..], cs)
      requires forall j | 0 <= j < |seqs| ::
                 && (isPrefill ==> cs[j] == PrefillChunk(seqs[j].View()))
                 && (!isPrefill ==> seqs[j].tokenIds != [] && cs[j] == DecodeChunk(seqs[j].View()))
      modifies kvCache
      ensures OnlyWritten(env, old(kvCache[..]), kvCache[..], cs) && |tokens| == |seqs|
      ensures old(Held(env, kvCache[..], cs)) ==>
                forall j | 0 <= j < |cs| :: SampleOk(env, kvCache[..], cs, j, tokens[j])
    {
      hide ChunksOk, AllCovered, Laid, Offset, SeqHolds, OnlyWritten, Held, Covered;
      ghost var held := Held(env, kvCache[..], cs);
      var x;
      if isPrefill { x := PreparePrefill(seqs, cs); } else { x := PrepareDecode(seqs, cs); }
      LaidBounds(env, cs, x);
      var rows := RunModel(x, |seqs|, cs);
      var logits := rows;
      if isPrefill { logits := LastLogits(seqs, x, rows, cs); } else { OneRowEach(env, cs, rows); }
      tokens := [];
      for j := 0 to |seqs|
        invariant |tokens| == j
        invariant forall i | 0 <= i < j ::
          tokens[i] == env.model.sample(logits[i].entries, logits[i].token, cs[i].v.req.gen.temperature)
      {
        tokens := tokens + [env.model.sample(logits[j].entries, logits[j].token, seqs[j].req.gen.temperature)];
      }
      if held {
        forall j | 0 <= j < |cs| ensures SampleOk(env, kvCache[..], cs, j, tokens[j]) {
          SampledRight(env, kvCache[..], cs, rows, logits, j, tokens[j]);
        }
      }
    }

    /** The logits to sample from in a prefill: one row a sequence, by whichever way. */
    method LastLogits(seqs: seq<Sequence>, x: Inputs, rows: seq<Row>, ghost cs: seq<Chunk>) returns (logits: seq<Row>)
      requires |cs| == |seqs| && AllCovered(env, cs) && |rows| == Offset(cs, |cs|) && |x.bounds| == |cs| + 1
      requires forall j | 0 <= j < |seqs| :: cs[j] == PrefillChunk(seqs[j].View())
      requires forall j | 0 < j <= |cs| :: x.bounds[j] == Offset(cs, j) && 0 < x.bounds[j] <= Offset(cs, |cs|)
      ensures |logits| == |seqs| && forall j | 0 <= j < |seqs| :: RowFor(cs, j, rows, logits)
    {
      hide AllCovered, Offset, Covered;
      logits := rows;
      if selectsLastRows {
        logits := Select(rows, LastRows(x.bounds));
        RowsSelected(cs, LastRows(x.bounds), rows, rows, logits);
      }
      var lastIndices, offset := LastIndices(seqs, cs);
      LastIndicesRight(env, cs, lastIndices, rows, logits);
      if |logits| == offset {
        ghost var before := logits;
        logits := Select(logits, lastIndices);
        RowsSelected(cs, lastIndices, rows, before, logits);
      }
    }

    /** Row numbers of the last rows, from where the sequences begin. */
    function LastRows(bounds: seq<nat>): (r: seq<nat>)
      requires |bounds| > 0 && forall j | 0 < j < |bounds| :: bounds[j] > 0
    {
      seq(|bounds| - 1, j requires 0 <= j < |bounds| - 1 => bounds[j + 1] - 1)
    }

    function Select(rows: seq<Row>, indices: seq<nat>): (r: seq<Row>)
      requires forall j | 0 <= j < |indices| :: indices[j] < |rows|
      ensures |r| == |indices| && forall j | 0 <= j < |r| :: r[j] == rows[indices[j]]
    {
      seq(|indices|, j requires 0 <= j < |indices| => rows[indices[j]])
    }

    /** The row of each sequence's last token, counted over the chunks; offset is the number of rows. */
    method LastIndices(seqs: seq<Sequence>, ghost cs: seq<Chunk>) returns (lastIndices: seq<nat>, offset: nat)
      requires |cs| == |seqs| && AllCovered(env, cs)
      requires forall j | 0 <= j < |seqs| :: cs[j] == PrefillChunk(seqs[j].View())
      ensures |lastIndices| == |cs| && offset == Offset(cs, |cs|)
      ensures forall j | 0 <= j < |cs| :: lastIndices[j] + 1 == Offset(cs, j + 1)
    {
      hide Covered, AllCovered, Offset;
      RowsNone(cs);
      lastIndices, offset := [], 0;
      for j := 0 to |seqs|
        invariant |lastIndices| == j && offset == Offset(cs, j)
        invariant forall i | 0 <= i < j :: lastIndices[i] + 1 == Offset(cs, i + 1)
      {
        BoundsAt(env, cs, j);
        PackedNext(env, cs, j);
        var end := if seqs[j].scheduledPrefillEnd != 0 then seqs[j].scheduledPrefillEnd else |seqs[j].tokenIds|;
        offset := offset + end - seqs[j].scheduledPrefillStart;
        lastIndices := lastIndices + [offset - 1];
      }
    }
  }
}

/** Linear layers whose weights are split over ranks, and that the split preserves what they compute. */
module TensorParallel {
  import opened Arithmetic
  import opened Wrappers

  type Matrix = seq<seq<real>>

  /* ---------- Products ---------- */

  function Dot(a: seq<real>, b: seq<real>): real
    requires |a| == |b|
  {
    if a == [] then 0.0 else Dot(a[..|a| - 1], b[..|b| - 1]) + a[|a| - 1] * b[|b| - 1]
  }

  lemma {:induction false} DotSplit(a: seq<real>, b: seq<real>, k: nat)
    requires |a| == |b| && k <= |a|
    ensures Dot(a, b) == Dot(a[..k], b[..k]) + Dot(a[k..], b[k..])
  {
    if k == |a| {
      assert a[..k] == a && b[..k] == b && a[k..] == [] && b[k..] == [];
    } else {
      var n := |a| - 1;
      DotSplit(a[..n], b[..n], k);
      assert a[..n][..k] == a[..k] && b[..n][..k] == b[..k];
      assert a[k..][..n - k] == a[..n][k..] && b[k..][..n - k] == b[..n][k..];
    }
  }

  /** The product of two vectors adds up the products of their components. */
  lemma DotAddsUp(a: seq<real>, b: seq<real>, x: real, y: real)
    requires |a| == |b|
    ensures Dot([], []) == 0.0 && Dot(a + [x], b + [y]) == Dot(a, b) + x * y
  {
    assert Dot([], []) == 0.0;
    hide Dot;
    var p, q := a + [x], b + [y];
    assert p[..|a|] == a && q[..|b|] == b;
    DotLast(p, q);
    SameTerm(p[|a|], q[|b|], x, y);
  }

  lemma DotLast(a: seq<real>, b: seq<real>)
    requires |a| == |b| > 0
    ensures Dot(a, b) == Dot(a[..|a| - 1], b[..|b| - 1]) + a[|a| - 1] * b[|b| - 1]
  {
  }

  lemma SameTerm(a: real, b: real, x: real, y: real)
    requires a == x && b == y
    ensures a * b == x * y
  {
  }

  function Linear(w: Matrix, x: seq<real>): (y: seq<real>)
    requires forall i | 0 <= i < |w| :: |w[i]| == |x|
    ensures |y| == |w| && forall i | 0 <= i < |w| :: y[i] == Dot(w[i], x)
  {
    seq(|w|, i requires 0 <= i < |w| => Dot(w[i], x))
  }

  /** The first half through silu, times the second half. */
  function SiluAndMul(silu: real -> real, x: seq<real>): (y: seq<real>)
    ensures |y| == |x| / 2 && forall i | 0 <= i < |y| :: y[i] == silu(x[i]) * x[|x| / 2 + i]
  {
    seq(|x| / 2, i requires 0 <= i < |x| / 2 => silu(x[i]) * x[|x| / 2 + i])
  }

  /* ---------- Shards ---------- */

  /** The first row of rank r when every rank has size of them. */
  function Base(r: nat, size: nat): nat {
    r * size
  }

  lemma BaseStep(r: nat, size: nat)
    ensures Base(r + 1, size) == Base(r, size) + size && Base(0, size) == 0
  {
    assert (r + 1) * size == r * size + size;
  }

  /** Equal parts: n of them make up the whole, and each rank's part lies inside it. */
  lemma EvenParts(length: nat, n: nat, r: nat)
    requires r <= n && n > 0 && length % n == 0
    ensures Base(n, length / n) == length && Base(r, length / n) <= length
    ensures r < n ==> Base(r, length / n) + length / n <= length
  {
    var size := length / n;
    assert n * size == length;
    MulMonotone(r, n, size);
    if r < n {
      MulMonotone(r + 1, n, size);
      BaseStep(r, size);
    }
  }

  /** Rank r's part of xs when it is cut evenly into n. */
  function Shard<T>(xs: seq<T>, r: nat, n: nat): (s: seq<T>)
    requires r < n && |xs| % n == 0
    ensures |s| == |xs| / n
  {
    EvenParts(|xs|, n, r);
    var size := |xs| / n;
    xs[Base(r, size)..Base(r, size) + size]
  }

  /** A stretch of a shard is a stretch of the whole. */
  lemma ShardPart<T>(xs: seq<T>, r: nat, n: nat, lo: nat, hi: nat)
    requires r < n && |xs| % n == 0 && lo <= hi <= |xs| / n
    ensures Base(r, |xs| / n) + |xs| / n <= |xs|
    ensures Shard(xs, r, n)[lo..hi] == xs[Base(r, |xs| / n) + lo..Base(r, |xs| / n) + hi]
  {
    EvenParts(|xs|, n, r);
    Slices(xs, Base(r, |xs| / n), |xs| / n, lo, hi);
  }

  lemma Slices<T>(xs: seq<T>, at: nat, size: nat, lo: nat, hi: nat)
    requires at + size <= |xs| && lo <= hi <= size
    ensures xs[at..at + size][lo..hi] == xs[at + lo..at + hi]
  {
    var part, whole := xs[at..at + size][lo..hi], xs[at + lo..at + hi];
    forall i | 0 <= i < hi - lo ensures part[i] == whole[i] {
      assert xs[at..at + size][lo + i] == xs[at + (lo + i)];
    }
  }

  /** torch.chunk: pieces of the rounded-up size, the last ones shorter or missing. */
  function Chunk<T>(xs: seq<T>, n: nat, r: nat): seq<T>
    requires n > 0
  {
    var size := NumBlocks(|xs|, n);
    BaseStep(r, size);
    xs[Min(|xs|, Base(r, size))..Min(|xs|, Base(r + 1, size))]
  }

  /** Where n divides the length, chunks are even shards. */
  lemma EvenChunk<T>(xs: seq<T>, n: nat, r: nat)
    requires r < n && |xs| % n == 0
    ensures Chunk(xs, n, r) == Shard(xs, r, n)
  {
    var size := |xs| / n;
    assert |xs| == n * size;
    DivModUnique(n, size, n - 1);
    assert NumBlocks(|xs|, n) == size;
    BaseStep(r, size);
    EvenParts(|xs|, n, r);
  }

  /** The columns of w that rank r owns. */
  function ColumnShard(w: Matrix, r: nat, n: nat): (s: Matrix)
    requires r < n && forall i | 0 <= i < |w| :: |w[i]| % n == 0
    ensures |s| == |w| && forall i | 0 <= i < |w| :: s[i] == Shard(w[i], r, n)
  {
    seq(|w|, i requires 0 <= i < |w| => Shard(w[i], r, n))
  }

  /* ---------- Layers ---------- */

  /** s with rows written over it from an offset on. */
  function Pasted<T>(s: seq<T>, offset: nat, rows: seq<T>): (r: seq<T>)
    requires offset + |rows| <= |s|
    ensures |r| == |s|
  {
    s[..offset] + rows + s[offset + |rows|..]
  }

  lemma PastedPart<T>(s: seq<T>, offset: nat, rows: seq<T>)
    requires offset + |rows| <= |s|
    ensures Pasted(s, offset, rows)[offset..offset + |rows|] == rows
  {
  }

  /** A stretch that ends before the rows or begins after them is as it was. */
  lemma PastedApart<T>(s: seq<T>, offset: nat, rows: seq<T>, lo: nat, hi: nat)
    requires offset + |rows| <= |s| && lo <= hi <= |s| && (hi <= offset || offset + |rows| <= lo)
    ensures Pasted(s, offset, rows)[lo..hi] == s[lo..hi]
  {
    var r := Pasted(s, offset, rows);
    forall i | lo <= i < hi ensures r[i] == s[i] { }
  }

  /** Copies rows into a parameter from an offset on. */
  method CopyRows(param: array<seq<real>>, offset: nat, rows: Matrix)
    requires offset + |rows| <= param.Length
    modifies param
    ensures param[..] == Pasted(old(param[..]), offset, rows)
  {
    for i := 0 to |rows|
      invariant forall j | 0 <= j < i :: param[offset + j] == rows[j]
      invariant forall j | 0 <= j < param.Length && !(offset <= j < offset + i) :: param[j] == old(param[j])
    {
      param[offset + i] := rows[i];
    }
  }

  /** Sum of the first k sizes. */
  function SumSizes(sizes: seq<nat>, k: nat): nat
    requires k <= |sizes|
  {
    if k == 0 then 0 else SumSizes(sizes, k - 1) + sizes[k - 1]
  }

  lemma DivideSum(a: nat, b: nat, n: nat)
    requires n > 0 && a % n == 0 && b % n == 0
    ensures (a + b) % n == 0 && (a + b) / n == a / n + b / n
  {
    var p, q := a / n, b / n;
    assert a == n * p && b == n * q;
    assert n * (p + q) == n * p + n * q;
    DivModUnique(n, p + q, 0);
  }

  /** Where the sizes are divisible, a rank's parts follow each other without gaps. */
  lemma {:induction false} PartsFollow(sizes: seq<nat>, n: nat, j: nat, k: nat)
    requires n > 0 && j <= k <= |sizes| && forall i | 0 <= i < |sizes| :: sizes[i] % n == 0
    ensures SumSizes(sizes, k) % n == 0 && SumSizes(sizes, j) % n == 0
    ensures SumSizes(sizes, j) / n <= SumSizes(sizes, k) / n
    ensures k < |sizes| ==> SumSizes(sizes, k + 1) / n == SumSizes(sizes, k) / n + sizes[k] / n
    decreases k
  {
    if k == 0 {
    } else if j < k {
      PartsFollow(sizes, n, j, k - 1);
      DivideSum(SumSizes(sizes, k - 1), sizes[k - 1], n);
    } else {
      PartsFollow(sizes, n, k - 1, k - 1);
      DivideSum(SumSizes(sizes, k - 1), sizes[k - 1], n);
    }
    if k < |sizes| { DivideSum(SumSizes(sizes, k), sizes[k], n); }
  }

  /** Several projections of one input in one parameter, each cut by output rows. */
  class MergedColumnParallelLinear {
    const outputSizes: seq<nat>
    const tpSize: nat
    const tpRank: nat
    const weight: array<seq<real>>

    ghost predicate Valid() {
      && tpRank < tpSize && (forall i | 0 <= i < |outputSizes| :: outputSizes[i] % tpSize == 0)
      && weight.Length == SumSizes(outputSizes, |outputSizes|) / tpSize
    }

    constructor (outputSizes: seq<nat>, tpSize: nat, tpRank: nat)
      requires tpRank < tpSize && forall i | 0 <= i < |outputSizes| :: outputSizes[i] % tpSize == 0
      ensures Valid() && this.outputSizes == outputSizes && this.tpSize == tpSize && this.tpRank == tpRank
      ensures fresh(weight)
    {
      this.outputSizes, this.tpSize, this.tpRank := outputSizes, tpSize, tpRank;
      weight := new seq<real>[SumSizes(outputSizes, |outputSizes|) / tpSize](_ => []);
    }

    /** Where a projection's rows begin. */
    function Offset(shardId: nat): nat
      requires tpSize > 0 && shardId <= |outputSizes|
    {
      SumSizes(outputSizes, shardId) / tpSize
    }

    function Size(shardId: nat): nat
      requires tpSize > 0 && shardId < |outputSizes|
    {
      outputSizes[shardId] / tpSize
    }

    /** The projections' rows lie one after the other within the parameter. */
    lemma Layout(shardId: nat, other: nat)
      requires Valid() && shardId < |outputSizes| && other < |outputSizes|
      ensures Offset(shardId + 1) == Offset(shardId) + Size(shardId) <= weight.Length
      ensures other < shardId ==> Offset(other) + Size(other) <= Offset(shardId)
      ensures shardId < other ==> Offset(shardId) + Size(shardId) <= Offset(other)
      ensures Offset(other) + Size(other) <= weight.Length
    {
      hide SumSizes;
      PartsFollow(outputSizes, tpSize, shardId, shardId);
      PartsFollow(outputSizes, tpSize, other, other);
      PartsFollow(outputSizes, tpSize, shardId + 1, |outputSizes|);
      PartsFollow(outputSizes, tpSize, other + 1, |outputSizes|);
      if other < shardId { PartsFollow(outputSizes, tpSize, other + 1, shardId); }
      if shardId < other { PartsFollow(outputSizes, tpSize, shardId + 1, other); }
    }

    /** The rows of the parameter that hold a projection. */
    ghost function Part(shardId: nat): Matrix
      requires Valid() && shardId < |outputSizes|
      reads weight
    {
      Layout(shardId, shardId);
      weight[Offset(shardId)..Offset(shardId) + Size(shardId)]
    }

    /** Loads this rank's part of one projection; the other projections' rows stay. */
    method WeightLoader(loaded: Matrix, shardId: nat)
      requires Valid() && shardId < |outputSizes| && |loaded| == outputSizes[shardId]
      modifies weight
      ensures Part(shardId) == Shard(loaded, tpRank, tpSize)
      ensures forall other | 0 <= other < |outputSizes| && other != shardId :: Part(other) == old(Part(other))
    {
      hide Chunk, Shard, Pasted, SumSizes, Offset, Size;
      EvenChunk(loaded, tpSize, tpRank);
      var rows := Chunk(loaded, tpSize, tpRank);
      SizeIs(shardId);
      Layout(shardId, shardId);
      ghost var was := weight[..];
      CopyRows(weight, Offset(shardId), rows);
      ghost var now := weight[..];
      PastedPart(was, Offset(shardId), rows);
      assert Part(shardId) == now[Offset(shardId)..Offset(shardId) + Size(shardId)];
      forall other | 0 <= other < |outputSizes| && other != shardId ensures Part(other) == old(Part(other)) {
        Layout(shardId, other);
        PastedApart(was, Offset(shardId), rows, Offset(other), Offset(other) + Size(other));
        assert Part(other) == now[Offset(other)..Offset(other) + Size(other)];
        assert old(Part(other)) == was[Offset(other)..Offset(other) + Size(other)];
      }
    }

    lemma SizeIs(shardId: nat)
      requires tpSize > 0 && shardId < |outputSizes|
      ensures Size(shardId) == outputSizes[shardId] / tpSize
    {
    }

    /** After loading, the product of the input with every row of this rank's shards, shard after shard. */
    method Forward(x: seq<real>) returns (y: seq<real>)
      requires forall i | 0 <= i < weight.Length :: |weight[i]| == |x|
      ensures |y| == weight.Length && forall i | 0 <= i < |y| :: y[i] == Dot(weight[i], x)
    {
      y := Linear(weight[..], x);
    }
  }

  /** Loaded in any order, every projection holds its own shard. */
  method LoadMerged(layer: MergedColumnParallelLinear, loaded: seq<Matrix>, order: seq<nat>)
    requires layer.Valid() && |loaded| == |layer.outputSizes|
    requires forall i | 0 <= i < |loaded| :: |loaded[i]| == layer.outputSizes[i]
    requires forall i | 0 <= i < |order| :: order[i] < |loaded|
    modifies layer.weight
    ensures forall p | p in order :: p < |loaded| && layer.Part(p) == Shard(loaded[p], layer.tpRank, layer.tpSize)
  {
    hide Shard, MergedColumnParallelLinear.Part;
    for i := 0 to |order|
      invariant forall p | p in order[..i] :: p < |loaded| && layer.Part(p) == Shard(loaded[p], layer.tpRank, layer.tpSize)
    {
      layer.WeightLoader(loaded[order[i]], order[i]);
      assert order[..i + 1] == order[..i] + [order[i]];
    }
  }

  /** Both projections of an MLP loaded, in whichever order: gate's shard, then up's. */
  method LoadGateUp(layer: MergedColumnParallelLinear, gate: Matrix, up: Matrix, upFirst: bool)
    requires layer.Valid() && |layer.outputSizes| == 2
    requires |gate| == layer.outputSizes[0] && |up| == layer.outputSizes[1]
    modifies layer.weight
    ensures layer.weight[..] == Shard(gate, layer.tpRank, layer.tpSize) + Shard(up, layer.tpRank, layer.tpSize)
  {
    hide Shard, SumSizes;
    var order := if upFirst then [1, 0] else [0, 1];
    LoadMerged(layer, [gate, up], order);
    assert 0 in order && 1 in order;
    TwoParts(layer);
  }

  lemma TwoParts(layer: MergedColumnParallelLinear)
    requires layer.Valid() && |layer.outputSizes| == 2
    ensures layer.weight[..] == layer.Part(0) + layer.Part(1)
  {
    layer.Layout(0, 1);
    layer.Layout(1, 0);
    assert layer.Offset(0) == 0 && layer.Offset(2) == layer.weight.Length;
  }

  /** A projection cut by input columns; only rank 0 adds the bias. */
  class RowParallelLinear {
    const tpSize: nat
    const tpRank: nat
    const weight: array<seq<real>>
    const bias: seq<real>

    constructor (outputSize: nat, bias: seq<real>, tpSize: nat, tpRank: nat)
      requires tpRank < tpSize && |bias| == outputSize
      ensures this.tpSize == tpSize && this.tpRank == tpRank && this.bias == bias
      ensures fresh(weight) && weight.Length == outputSize
    {
      this.tpSize, this.tpRank, this.bias := tpSize, tpRank, bias;
      weight := new seq<real>[outputSize](_ => []);
    }

    method WeightLoader(loaded: Matrix)
      requires tpRank < tpSize && |loaded| == weight.Length
      requires forall i | 0 <= i < |loaded| :: |loaded[i]| % tpSize == 0
      modifies weight
      ensures weight[..] == ColumnShard(loaded, tpRank, tpSize)
    {
      for i := 0 to weight.Length
        invariant forall j | 0 <= j < i :: weight[j] == Shard(loaded[j], tpRank, tpSize)
      {
        weight[i] := Shard(loaded[i], tpRank, tpSize);
      }
    }

    /** This rank's addend; the all-reduce sums the addends of all ranks. */
    method Partial(x: seq<real>) returns (y: seq<real>)
      requires |bias| == weight.Length && forall i | 0 <= i < weight.Length :: |weight[i]| == |x|
      ensures |y| == weight.Length
      ensures forall i | 0 <= i < |y| :: y[i] == Addend(weight[i], x, if tpRank == 0 then bias[i] else 0.0)
    {
      y := [];
      for i := 0 to weight.Length
        invariant |y| == i
        invariant forall j | 0 <= j < i :: y[j] == Addend(weight[j], x, if tpRank == 0 then bias[j] else 0.0)
      {
        y := y + [Dot(weight[i], x) + if tpRank == 0 then bias[i] else 0.0];
      }
    }
  }

  function Addend(row: seq<real>, x: seq<real>, bias: real): real
    requires |row| == |x|
  {
    Dot(row, x) + bias
  }

  /* ---------- The split preserves the meaning ---------- */

  /** The unsharded MLP's inner activation. */
  function Inner(silu: real -> real, gate: Matrix, up: Matrix, x: seq<real>): (h: seq<real>)
    requires |gate| == |up|
    requires forall i | 0 <= i < |gate| :: |gate[i]| == |x| && |up[i]| == |x|
    ensures |h| == |gate|
    ensures forall i | 0 <= i < |h| :: h[i] == silu(Dot(gate[i], x)) * Dot(up[i], x)
  {
    seq(|gate|, i requires 0 <= i < |gate| => silu(Dot(gate[i], x)) * Dot(up[i], x))
  }

  /** Merging a stretch of gate with the same stretch of up gives that stretch of the inner activation. */
  lemma InnerStretch(silu: real -> real, gate: Matrix, up: Matrix, x: seq<real>, at: nat, size: nat)
    requires |gate| == |up| && at + size <= |gate|
    requires forall i | 0 <= i < |gate| :: |gate[i]| == |x| && |up[i]| == |x|
    ensures var w := gate[at..at + size] + up[at..at + size];
            && (forall i | 0 <= i < |w| :: |w[i]| == |x|)
            && SiluAndMul(silu, Linear(w, x)) == Inner(silu, gate, up, x)[at..at + size]
  {
    hide Dot, SiluAndMul, Linear, Inner;
    var g, u := gate[at..at + size], up[at..at + size];
    forall i | 0 <= i < size ensures |g[i]| == |x| && |u[i]| == |x| {
      assert g[i] == gate[at + i] && u[i] == up[at + i];
    }
    Merged(silu, g, u, x);
    var whole, part := Inner(silu, gate, up, x), Inner(silu, g, u, x);
    forall i | 0 <= i < size ensures whole[at + i] == part[i] {
      assert g[i] == gate[at + i] && u[i] == up[at + i];
    }
    assert whole[at..at + size] == part;
  }

  lemma Merged(silu: real -> real, g: Matrix, u: Matrix, x: seq<real>)
    requires |g| == |u|
    requires forall i | 0 <= i < |g| :: |g[i]| == |x| && |u[i]| == |x|
    ensures forall i | 0 <= i < |g + u| :: |(g + u)[i]| == |x|
    ensures SiluAndMul(silu, Linear(g + u, x)) == Inner(silu, g, u, x)
  {
    hide Dot, SiluAndMul, Linear, Inner;
    var w := g + u;
    forall i | 0 <= i < |w| ensures |w[i]| == |x| {
      assert w[i] == if i < |g| then g[i] else u[i - |g|];
    }
    var z := Linear(w, x);
    var y := SiluAndMul(silu, z);
    assert |z| / 2 == |g|;
    forall i | 0 <= i < |g| ensures y[i] == Inner(silu, g, u, x)[i] {
      assert z[i] == Dot(g[i], x) && z[|g| + i] == Dot(u[i], x);
    }
  }

  /** A rank's merged projection and activation give its shard of the inner activation. */
  lemma InnerShard(silu: real -> real, gate: Matrix, up: Matrix, x: seq<real>, r: nat, n: nat)
    requires r < n && |gate| == |up| && |gate| % n == 0
    requires forall i | 0 <= i < |gate| :: |gate[i]| == |x| && |up[i]| == |x|
    ensures var w := Shard(gate, r, n) + Shard(up, r, n);
            && (forall i | 0 <= i < |w| :: |w[i]| == |x|)
            && SiluAndMul(silu, Linear(w, x)) == Shard(Inner(silu, gate, up, x), r, n)
  {
    hide Dot, Base, SiluAndMul, Linear, Inner, Shard;
    var size, h := |gate| / n, Inner(silu, gate, up, x);
    ShardPart(gate, r, n, 0, size);
    ShardPart(up, r, n, 0, size);
    ShardPart(h, r, n, 0, size);
    assert Shard(gate, r, n)[..size] == Shard(gate, r, n) && Shard(up, r, n)[..size] == Shard(up, r, n);
    assert Shard(h, r, n)[..size] == Shard(h, r, n);
    InnerStretch(silu, gate, up, x, Base(r, size), size);
  }

  /** What one rank contributes to one output: its shard of the inner activation, computed from its
      merged weights, against its columns of the output's row. */
  function Contribution(silu: real -> real, gate: Matrix, up: Matrix, down: seq<real>, bias: real, x: seq<real>,
                        r: nat, n: nat): real
    requires r < n && |gate| == |up| == |down| && |gate| % n == 0
    requires forall i | 0 <= i < |gate| :: |gate[i]| == |x| && |up[i]| == |x|
  {
    InnerShard(silu, gate, up, x, r, n);
    Addend(Shard(down, r, n), SiluAndMul(silu, Linear(Shard(gate, r, n) + Shard(up, r, n), x)),
           if r == 0 then bias else 0.0)
  }

  /** A rank's pass through its two loaded layers computes its contribution to every output. */
  method RankMlp(silu: real -> real, gateUp: MergedColumnParallelLinear, downProj: RowParallelLinear,
                 gate: Matrix, up: Matrix, down: Matrix, x: seq<real>) returns (y: seq<real>)
    requires gateUp.Valid() && downProj.tpRank == gateUp.tpRank && downProj.tpSize == gateUp.tpSize
    requires |gate| == |up| && |gate| % gateUp.tpSize == 0
    requires forall i | 0 <= i < |gate| :: |gate[i]| == |x| && |up[i]| == |x|
    requires forall i | 0 <= i < |down| :: |down[i]| == |gate|
    requires gateUp.weight[..] == Shard(gate, gateUp.tpRank, gateUp.tpSize) + Shard(up, gateUp.tpRank, gateUp.tpSize)
    requires downProj.weight[..] == ColumnShard(down, gateUp.tpRank, gateUp.tpSize) && |downProj.bias| == |down|
    ensures |y| == |down|
    ensures forall i | 0 <= i < |y| ::
              y[i] == Contribution(silu, gate, up, down[i], downProj.bias[i], x, gateUp.tpRank, gateUp.tpSize)
  {
    hide Dot, Base, SiluAndMul, Linear, Inner, Shard, ColumnShard;
    InnerShard(silu, gate, up, x, gateUp.tpRank, gateUp.tpSize);
    assert |downProj.weight[..]| == |down|;
    var z := gateUp.Forward(x);
    assert z == Linear(gateUp.weight[..], x);
    y := downProj.Partial(SiluAndMul(silu, z));
  }

  /** The sum of the first k ranks' contributions. */
  function Reduced(silu: real -> real, gate: Matrix, up: Matrix, down: seq<real>, bias: real, x: seq<real>,
                   n: nat, k: nat): real
    requires 0 < n && k <= n && |gate| == |up| == |down| && |gate| % n == 0
    requires forall i | 0 <= i < |gate| :: |gate[i]| == |x| && |up[i]| == |x|
  {
    if k == 0 then 0.0
    else Reduced(silu, gate, up, down, bias, x, n, k - 1) + Contribution(silu, gate, up, down, bias, x, k - 1, n)
  }

  lemma NoDot(a: seq<real>, b: seq<real>)
    ensures Dot(a[..0], b[..0]) == 0.0
  {
  }

  lemma DotStep(a: seq<real>, b: seq<real>, cut: nat, size: nat)
    requires |a| == |b| && cut + size <= |a|
    ensures Dot(a[..cut + size], b[..cut + size]) == Dot(a[..cut], b[..cut]) + Dot(a[cut..cut + size], b[cut..cut + size])
  {
    hide Dot;
    DotSplit(a[..cut + size], b[..cut + size], cut);
    assert a[..cut + size][..cut] == a[..cut] && b[..cut + size][..cut] == b[..cut];
    assert a[..cut + size][cut..] == a[cut..cut + size] && b[..cut + size][cut..] == b[cut..cut + size];
  }

  lemma ContributionIsDot(silu: real -> real, gate: Matrix, up: Matrix, down: seq<real>, bias: real, x: seq<real>,
                          r: nat, n: nat)
    requires r < n && |gate| == |up| == |down| && |gate| % n == 0
    requires forall i | 0 <= i < |gate| :: |gate[i]| == |x| && |up[i]| == |x|
    ensures Contribution(silu, gate, up, down, bias, x, r, n)
         == Dot(Shard(down, r, n), Shard(Inner(silu, gate, up, x), r, n)) + if r == 0 then bias else 0.0
  {
    hide Dot, Base, SiluAndMul, Linear, Inner, Shard;
    InnerShard(silu, gate, up, x, r, n);
  }

  lemma DotRanks(a: seq<real>, b: seq<real>, n: nat, r: nat)
    requires r < n && |a| == |b| && |a| % n == 0
    ensures Base(r, |a| / n) <= Base(r + 1, |a| / n) <= |a|
    ensures Dot(a[..Base(r + 1, |a| / n)], b[..Base(r + 1, |a| / n)])
         == Dot(a[..Base(r, |a| / n)], b[..Base(r, |a| / n)]) + Dot(Shard(a, r, n), Shard(b, r, n))
  {
    hide Dot, Base;
    EvenParts(|a|, n, r);
    BaseStep(r, |a| / n);
    DotStep(a, b, Base(r, |a| / n), |a| / n);
  }

  lemma {:induction false} ReducedIsDot(silu: real -> real, gate: Matrix, up: Matrix, down: seq<real>, bias: real,
                                        x: seq<real>, n: nat, k: nat)
    requires 0 < n && k <= n && |gate| == |up| == |down| && |gate| % n == 0
    requires forall i | 0 <= i < |gate| :: |gate[i]| == |x| && |up[i]| == |x|
    ensures Base(k, |gate| / n) <= |gate|
    ensures var h, cut := Inner(silu, gate, up, x), Base(k, |gate| / n);
            Reduced(silu, gate, up, down, bias, x, n, k) == Dot(down[..cut], h[..cut]) + if k > 0 then bias else 0.0
  {
    hide Base, SiluAndMul, Linear, Inner, Contribution, Shard, Dot;
    EvenParts(|gate|, n, k);
    if k == 0 {
      BaseStep(0, |gate| / n);
      NoDot(down, Inner(silu, gate, up, x));
    } else {
      ReducedIsDot(silu, gate, up, down, bias, x, n, k - 1);
      ContributionIsDot(silu, gate, up, down, bias, x, k - 1, n);
      DotRanks(down, Inner(silu, gate, up, x), n, k - 1);
    }
  }

  /** For every number of ranks that divides the inner size: the sharded MLP, summed over the ranks,
      is the unsharded MLP, its bias added once. */
  lemma ShardedMlp(silu: real -> real, gate: Matrix, up: Matrix, down: seq<real>, bias: real, x: seq<real>, n: nat)
    requires n > 0 && |gate| == |up| == |down| && |gate| % n == 0
    requires forall i | 0 <= i < |gate| :: |gate[i]| == |x| && |up[i]| == |x|
    ensures Reduced(silu, gate, up, down, bias, x, n, n) == Dot(down, Inner(silu, gate, up, x)) + bias
  {
    hide Base, Dot, SiluAndMul, Linear, Inner, Contribution;
    var h := Inner(silu, gate, up, x);
    ReducedIsDot(silu, gate, up, down, bias, x, n, n);
    EvenParts(|gate|, n, n);
    assert down[..|down|] == down && h[..|h|] == h;
  }

  /* ---------- Attention heads ---------- */

  lemma EqualFactors(n: nat, a: nat, b: nat)
    requires n > 0 && n * a == n * b
    ensures a == b
  {
    DivModUnique(n, a, 0);
    DivModUnique(n, b, 0);
  }

  /** Heads per key head on a rank are heads per key head of the whole model. */
  lemma SameGroups(heads: nat, kvHeads: nat, tpSize: nat)
    requires tpSize > 0 && kvHeads > 0 && heads % tpSize == 0 && kvHeads % tpSize == 0 && heads % kvHeads == 0
    ensures kvHeads / tpSize > 0 && heads / tpSize == (kvHeads / tpSize) * (heads / kvHeads)
  {
    var local, localKv, group := heads / tpSize, kvHeads / tpSize, heads / kvHeads;
    assert heads == tpSize * local && kvHeads == tpSize * localKv && heads == kvHeads * group;
    assert tpSize * local == tpSize * (localKv * group) by {
      assert (tpSize * localKv) * group == tpSize * (localKv * group);
    }
    EqualFactors(tpSize, local, localKv * group);
  }

  lemma PairingInRank(rank: nat, localKv: nat, group: nat, j: nat)
    requires group > 0 && j < localKv * group
    ensures j / group < localKv && (rank * (localKv * group) + j) / group == rank * localKv + j / group
  {
    PositionBlock(j, localKv, group);
    var q := rank * localKv + j / group;
    assert rank * (localKv * group) + j == group * q + j % group by {
      assert rank * (localKv * group) == group * (rank * localKv);
      assert group * q == group * (rank * localKv) + group * (j / group);
    }
    DivModUnique(group, q, j % group);
  }

  /** On every rank, a local query head is paired with the key head that the unsharded model pairs
      its global head with. */
  lemma HeadPairing(heads: nat, kvHeads: nat, tpSize: nat, rank: nat, j: nat)
    requires tpSize > 0 && kvHeads > 0 && heads % tpSize == 0 && kvHeads % tpSize == 0 && heads % kvHeads == 0
    requires rank < tpSize && j < heads / tpSize
    ensures var local, localKv := heads / tpSize, kvHeads / tpSize;
            && localKv > 0 && local % localKv == 0 && local / localKv > 0 && heads / kvHeads > 0
            && j / (local / localKv) < localKv
            && (rank * local + j) / (heads / kvHeads) == rank * localKv + j / (local / localKv)
  {
    SameGroups(heads, kvHeads, tpSize);
    var localKv, group := kvHeads / tpSize, heads / kvHeads;
    DivModUnique(localKv, group, 0);
    assert group > 0;
    PairingInRank(rank, localKv, group, j);
  }

  datatype Projection = Q | K | V

  /** Query, key and value projections in one parameter, each cut by heads. */
  class QKVParallelLinear {
    const headSize: nat
    const numHeads: nat      // of this rank
    const numKvHeads: nat    // of this rank
    const tpSize: nat
    const tpRank: nat
    const weight: array<seq<real>>

    constructor (headSize: nat, totalHeads: nat, totalKvHeads: nat, tpSize: nat, tpRank: nat)
      requires tpRank < tpSize && totalHeads % tpSize == 0 && totalKvHeads % tpSize == 0
      ensures this.headSize == headSize && numHeads == totalHeads / tpSize && numKvHeads == totalKvHeads / tpSize
      ensures this.tpSize == tpSize && this.tpRank == tpRank && Valid() && fresh(weight)
    {
      this.headSize, this.tpSize, this.tpRank := headSize, tpSize, tpRank;
      numHeads, numKvHeads := totalHeads / tpSize, totalKvHeads / tpSize;
      weight := new seq<real>[(totalHeads / tpSize) * headSize + (totalKvHeads / tpSize) * headSize
                              + (totalKvHeads / tpSize) * headSize](_ => []);
    }

    ghost predicate Valid() {
      && tpRank < tpSize
      && weight.Length == numHeads * headSize + numKvHeads * headSize + numKvHeads * headSize
    }

    function Size(p: Projection): nat {
      if p.Q? then numHeads * headSize else numKvHeads * headSize
    }

    function Offset(p: Projection): nat {
      match p
      case Q => 0
      case K => numHeads * headSize
      case V => numHeads * headSize + numKvHeads * headSize
    }

    /** The rows of the parameter that hold a projection. */
    ghost function Part(p: Projection): Matrix
      requires Valid()
      reads weight
    {
      weight[Offset(p)..Offset(p) + Size(p)]
    }

    /** The projections' rows do not overlap. */
    lemma Layout(p: Projection, q: Projection)
      requires Valid()
      ensures Offset(p) + Size(p) <= weight.Length && Offset(q) + Size(q) <= weight.Length
      ensures p != q ==> Offset(p) + Size(p) <= Offset(q) || Offset(q) + Size(q) <= Offset(p)
    {
    }

    /** Loads this rank's heads of one projection; the rows of the other projections stay. */
    method WeightLoader(loaded: Matrix, p: Projection)
      requires Valid() && |loaded| % tpSize == 0 && |loaded| / tpSize == Size(p)
      modifies weight
      ensures Part(p) == Shard(loaded, tpRank, tpSize)
      ensures forall q | q != p :: Part(q) == old(Part(q))
    {
      hide Chunk, Shard, Pasted, Offset, Size;
      EvenChunk(loaded, tpSize, tpRank);
      var rows := Chunk(loaded, tpSize, tpRank);
      Layout(p, p);
      ghost var was := weight[..];
      CopyRows(weight, Offset(p), rows);
      ghost var now := weight[..];
      PastedPart(was, Offset(p), rows);
      assert Part(p) == now[Offset(p)..Offset(p) + Size(p)];
      forall q | q != p ensures Part(q) == old(Part(q)) {
        Layout(p, q);
        PastedApart(was, Offset(p), rows, Offset(q), Offset(q) + Size(q));
        assert Part(q) == now[Offset(q)..Offset(q) + Size(q)];
        assert old(Part(q)) == was[Offset(q)..Offset(q) + Size(q)];
      }
    }
  }

  /** Loaded in any order, every projection holds its own shard, and the parameter is the shards of the
      query, the key and the value projection, in that order. */
  method LoadQkv(layer: QKVParallelLinear, loaded: Projection -> Matrix, order: seq<Projection>)
    requires layer.Valid()
    requires forall p :: |loaded(p)| % layer.tpSize == 0 && |loaded(p)| / layer.tpSize == layer.Size(p)
    modifies layer.weight
    ensures forall p | p in order :: layer.Part(p) == Shard(loaded(p), layer.tpRank, layer.tpSize)
    ensures Q in order && K in order && V in order ==>
              layer.weight[..] == Shard(loaded(Q), layer.tpRank, layer.tpSize)
                                  + Shard(loaded(K), layer.tpRank, layer.tpSize)
                                  + Shard(loaded(V), layer.tpRank, layer.tpSize)
  {
    for i := 0 to |order|
      invariant forall p | p in order[..i] :: layer.Part(p) == Shard(loaded(p), layer.tpRank, layer.tpSize)
    {
      layer.WeightLoader(loaded(order[i]), order[i]);
    }
    assert order[..|order|] == order;
    ThreeParts(layer);
  }

  lemma ThreeParts(layer: QKVParallelLinear)
    requires layer.Valid()
    ensures layer.weight[..] == layer.Part(Q) + layer.Part(K) + layer.Part(V)
  {
  }

  lemma HeadBase(rank: nat, local: nat, headSize: nat, j: nat)
    requires j < local
    ensures Base(j, headSize) + headSize <= Base(local, headSize)
    ensures Base(rank * local + j, headSize) == Base(rank, Base(local, headSize)) + Base(j, headSize)
  {
    MulMonotone(j + 1, local, headSize);
    BaseStep(j, headSize);
    assert (rank * local + j) * headSize == rank * (local * headSize) + j * headSize;
  }

  /** Local head j of a rank is, row for row, head rank * local + j of the unsharded projection. */
  lemma LocalHead(loaded: Matrix, rank: nat, tpSize: nat, local: nat, headSize: nat, j: nat)
    requires rank < tpSize && |loaded| % tpSize == 0 && |loaded| / tpSize == Base(local, headSize) && j < local
    ensures Base(j, headSize) + headSize <= Base(local, headSize)
    ensures Base(rank * local + j, headSize) + headSize <= |loaded|
    ensures Shard(loaded, rank, tpSize)[Base(j, headSize)..Base(j, headSize) + headSize]
         == loaded[Base(rank * local + j, headSize)..Base(rank * local + j, headSize) + headSize]
  {
    hide Base, Shard;
    HeadBase(rank, local, headSize, j);
    ShardPart(loaded, rank, tpSize, Base(j, headSize), Base(j, headSize) + headSize);
  }
}

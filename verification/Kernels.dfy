/** The attention kernels: flat tensors, one grid row after the other. */
module Kernels {
  import opened Arithmetic
  import opened Attention
  import opened Softmax
  import opened Wrappers

  /* ---------- Decoding through a table ---------- */

  /** One query against the keys that the table covers, recomputing each product as it is needed. */
  method PagedRow(e: real -> real, r: Row, n: nat, out: array<real>, base: nat)
    requires ExpLaw(e) && Readable(r, n) && base + r.dim <= out.Length
    modifies out
    ensures forall d | 0 <= d < r.dim :: out[base + d] == Plain(e, r, n, d)
    ensures forall i | 0 <= i < out.Length && !(base <= i < base + r.dim) :: out[i] == old(out[i])
  {
    hide Readable, ExpLaw, Plain, ShiftedSum, Score, Shifted;
    var rowMax := PagedMax(r, n);
    var rowSum := PagedSum(e, r, n, rowMax);
    for d := 0 to r.dim
      invariant forall i | 0 <= i < d :: out[base + i] == Plain(e, r, n, i)
      invariant forall i | 0 <= i < out.Length && !(base <= i < base + d) :: out[i] == old(out[i])
    {
      var acc := PagedMean(e, r, n, rowMax, rowSum, d);
      out[base + d] := acc;
    }
  }

  method PagedMax(r: Row, n: nat) returns (top: real)
    requires Readable(r, n)
    ensures top == MaxScore(Scores(r, n))
  {
    top := MASKED;
    for t := 0 to n
      invariant top == MaxScore(Scores(r, t))
    {
      ScoresNext(r, t);
      MaxScoreLeast(Scores(r, t));
      if Sees(r, t) {
        var product := ScaledProduct(r, t);
        top := MaxReal(top, product);
      }
    }
  }

  method PagedSum(e: real -> real, r: Row, n: nat, top: real) returns (sum: real)
    requires Readable(r, n)
    ensures sum == ShiftedSum(e, Scores(r, n), top)
  {
    sum := 0.0;
    for t := 0 to n
      invariant sum == ShiftedSum(e, Scores(r, t), top)
    {
      ScoresNext(r, t);
      if Sees(r, t) {
        var product := ScaledProduct(r, t);
        sum := sum + e(product - top);
      }
    }
  }

  method PagedMean(e: real -> real, r: Row, n: nat, top: real, sum: real, d: nat) returns (acc: real)
    requires ExpLaw(e) && Readable(r, n) && d < r.dim && sum == ShiftedSum(e, Scores(r, n), top)
    ensures acc == Plain(e, r, n, d)
  {
    hide ShiftedSum, ShiftedDot, Shifted, Plain, MaxScore, Readable, ExpLaw, Score;
    acc := 0.0;
    DotFirst(e, top);
    ghost var s, x := Scores(r, n), Column(r, d, n);
    for t := 0 to n
      invariant sum != 0.0 ==> acc * sum == ShiftedDot(e, s[..t], x[..t], top)
      invariant (forall i | 0 <= i < t :: !Sees(r, i)) ==> acc == 0.0
    {
      DotNext(e, s, x, top, t);
      if Sees(r, t) {
        SumNotZero(e, r, n, top, t);
        var term := MeanTerm(e, r, n, t, d, top, sum);
        Distribute(acc, term, sum);
        acc := acc + term;
      } else {
        UnseenWeight(e, r, n, top, t, x[t]);
      }
    }
    assert s[..n] == s && x[..n] == x;
    PagedRight(e, r, n, top, d, acc);
  }

  /** The share of key t, recomputed. */
  method MeanTerm(e: real -> real, r: Row, ghost n: nat, t: nat, d: nat, top: real, sum: real) returns (term: real)
    requires Readable(r, n) && t < n && Sees(r, t) && d < r.dim && sum != 0.0
    ensures term * sum == Shifted(e, Scores(r, n)[t], top) * Column(r, d, n)[t]
  {
    hide Shifted, Product;
    SeenWeight(e, r, n, top, t);
    ReadValue(r, n, t, d);
    ReadKey(r, n, t);
    var product := ScaledProduct(r, t);
    var p := e(product - top);
    var value := r.v[KeyAt(r, t) + d];
    QuotientTerm(0.0, p, sum, value);
    SameProduct(p, Shifted(e, Scores(r, n)[t], top), value, Column(r, d, n)[t]);
    term := (p / sum) * value;
  }

  lemma ReadKey(r: Row, n: nat, t: nat)
    requires Readable(r, n) && t < n && Sees(r, t)
    ensures r.qBase + r.dim <= |r.q| && KeyAt(r, t) + r.dim <= |r.k|
  {
  }

  lemma ReadValue(r: Row, n: nat, t: nat, d: nat)
    requires Readable(r, n) && t < n && Sees(r, t) && d < r.dim
    ensures KeyAt(r, t) + d < |r.v| && r.v[KeyAt(r, t) + d] == Column(r, d, n)[t]
  {
  }

  lemma SumNotZero(e: real -> real, r: Row, n: nat, m: real, t: nat)
    requires ExpLaw(e) && Readable(r, n) && t < n && Sees(r, t)
    ensures ShiftedSum(e, Scores(r, n), m) != 0.0
  {
    RowSum(e, r, n, m);
  }

  lemma SeenWeight(e: real -> real, r: Row, n: nat, m: real, t: nat)
    requires Readable(r, n) && t < n && Sees(r, t)
    ensures Shifted(e, Scores(r, n)[t], m) == e(Product(r, t) - m)
  {
  }

  lemma UnseenWeight(e: real -> real, r: Row, n: nat, m: real, t: nat, x: real)
    requires t < n && !Sees(r, t)
    ensures Shifted(e, Scores(r, n)[t], m) == 0.0 && Shifted(e, Scores(r, n)[t], m) * x == 0.0
  {
  }

  lemma PagedRight(e: real -> real, r: Row, n: nat, m: real, d: nat, acc: real)
    requires ExpLaw(e) && Readable(r, n)
    requires ShiftedSum(e, Scores(r, n), m) != 0.0 ==>
               acc * ShiftedSum(e, Scores(r, n), m) == ShiftedDot(e, Scores(r, n), Column(r, d, n), m)
    requires (forall t | 0 <= t < n :: !Sees(r, t)) ==> acc == 0.0
    ensures acc == Plain(e, r, n, d)
  {
    hide ShiftedSum, ShiftedDot, Readable, ExpLaw;
    if t :| 0 <= t < n && Sees(r, t) {
      RowRight(e, r, n, m, d);
      DivideBack(acc, ShiftedSum(e, Scores(r, n), m));
    } else {
      NothingSeen(e, r, n);
    }
  }

  lemma {:induction false} NothingSeen(e: real -> real, r: Row, n: nat)
    requires forall t | 0 <= t < n :: !Sees(r, t)
    ensures PlainDenom(e, r, n) == 0.0
  {
    if n > 0 { NothingSeen(e, r, n - 1); }
  }

  /* ---------- Index arithmetic ---------- */

  /** A grid row determines batch entry, head and query position, and the other way round. */
  lemma GridIndex(row: nat, B: nat, H: nat, T: nat)
    requires H > 0 && T > 0 && row < B * H * T
    ensures T * H > 0 && row / (T * H) < B && (row / T) % H < H
    ensures (row / (T * H) * H + (row / T) % H) * T + row % T == row
  {
    var x := row / T;
    PositionBlock(row, B * H, T);
    PositionBlock(x, B, H);
    PositionSplit(row, T);
    PositionSplit(x, H);
    assert T * H > 0 by { MulMonotone(1, T, H); }
    NestedDivision(row, T, H);
  }

  lemma NestedDivision(row: nat, T: nat, H: nat)
    requires H > 0 && T > 0 && T * H > 0
    ensures row / (T * H) == (row / T) / H
  {
    var x := row / T;
    var q, r := x / H, (x % H) * T + row % T;
    PositionSplit(row, T);
    PositionSplit(x, H);
    MulMonotone(x % H + 1, H, T);
    assert (x % H + 1) * T == (x % H) * T + T;
    assert H * T == T * H && r < T * H;
    assert x * T == (q * H + x % H) * T == q * H * T + (x % H) * T;
    assert q * H * T == T * H * q;
    DivModUnique(T * H, q, r);
  }

  /** The D entries of one vector lie within the tensor. */
  lemma VectorInRange(a: nat, A: nat, t: nat, T: nat, D: nat)
    requires a < A && t < T
    ensures (a * T + t) * D + D <= A * T * D
  {
    SlotInRange(a, t, A, T);
    MulMonotone(a * T + t + 1, A * T, D);
    assert (a * T + t + 1) * D == (a * T + t) * D + D;
  }

  lemma HeadInRange(hq: nat, Hq: nat, Hkv: nat)
    requires Hkv > 0 && hq < Hq && Hq % Hkv == 0
    ensures Hq / Hkv > 0 && hq / (Hq / Hkv) < Hkv
  {
    var g := Hq / Hkv;
    assert Hq == Hkv * g;
    assert g > 0;
    PositionBlock(hq, Hkv, g);
  }

  /* ---------- Grid rows ---------- */

  /** Where vector t of row a of a flat tensor begins. */
  function Vector(a: nat, t: nat, T: nat, D: nat): nat {
    (a * T + t) * D
  }

  /** What a kernel is launched on: q of shape [B, Hq, Tq, D], and k and v of shape [B, Hkv, Tk, D], flat. */
  datatype Launch = Launch(
    q: seq<real>, k: seq<real>, v: seq<real>,
    B: nat, Hq: nat, Hkv: nat, Tq: nat, Tk: nat, D: nat,
    causal: bool, scale: real)

  /** Tensors of these sizes; a causal query may not precede the keys. */
  ghost predicate Sized(x: Launch) {
    && x.Tq > 0 && x.Tk > 0 && (x.causal ==> x.Tq <= x.Tk) && x.Hq > 0 && x.Hkv > 0
    && |x.q| == x.B * x.Hq * x.Tq * x.D && |x.k| == |x.v| == x.B * x.Hkv * x.Tk * x.D
  }

  /** Grid row of the grouped-query kernels. */
  function GridRow(x: Launch, row: nat): Row
    requires x.Tq > 0 && x.Hq > 0 && x.Hkv > 0 && x.Hq / x.Hkv > 0 && x.Tq * x.Hq > 0
  {
    var tq, hq, b := row % x.Tq, (row / x.Tq) % x.Hq, row / (x.Tq * x.Hq);
    var hkv := hq / (x.Hq / x.Hkv);
    Row(x.q, Vector(Slot(b, hq, x.Hq), tq, x.Tq, x.D), x.k, x.v, (t: nat) => Vector(Slot(b, hkv, x.Hkv), t, x.Tk, x.D),
        (t: nat) => !x.causal || t <= x.Tk - x.Tq + tq, x.D, x.scale)
  }

  /** Grid row of the dense kernel: as many key heads as query heads. */
  function DenseRow(x: Launch, row: nat): Row
    requires x.Tq > 0 && x.Hq > 0 && x.Tq * x.Hq > 0
  {
    var tq, h, b := row % x.Tq, (row / x.Tq) % x.Hq, row / (x.Tq * x.Hq);
    Row(x.q, Vector(Slot(b, h, x.Hq), tq, x.Tq, x.D), x.k, x.v, (t: nat) => Vector(Slot(b, h, x.Hq), t, x.Tk, x.D),
        (t: nat) => !x.causal || t <= x.Tk - x.Tq + tq, x.D, x.scale)
  }

  /* ---------- What the rows mean, in tensor coordinates ---------- */

  /** The reference: query [b, hq, tq] against the keys and values [b, hkv, 0], [b, hkv, 1], …, of
      which a causal query sees those that lie at least as far from the end as itself. */
  ghost function HeadRow(x: Launch, b: nat, hq: nat, hkv: nat, tq: nat): Row {
    Row(x.q, Vector(Slot(b, hq, x.Hq), tq, x.Tq, x.D), x.k, x.v, (t: nat) => Vector(Slot(b, hkv, x.Hkv), t, x.Tk, x.D),
        (t: nat) => !x.causal || t + x.Tq <= x.Tk + tq, x.D, x.scale)
  }

  /** The query heads share the key heads in groups of Hq / Hkv neighbours. */
  ghost predicate Shares(hq: nat, hkv: nat, Hq: nat, Hkv: nat)
    requires Hkv > 0
  {
    hq < Hq && hkv < Hkv && hkv * (Hq / Hkv) <= hq < (hkv + 1) * (Hq / Hkv)
  }

  ghost predicate Query(x: Launch, b: nat, hq: nat, hkv: nat, tq: nat)
    requires x.Hkv > 0
  {
    b < x.B && tq < x.Tq && Shares(hq, hkv, x.Hq, x.Hkv)
  }

  /** All scores lie above the mask value, as finite floats do. */
  ghost predicate AboveMask(r: Row, n: nat) {
    forall t | 0 <= t < n && Sees(r, t) :: Product(r, t) > MASKED
  }

  ghost predicate ScoresAboveMask(x: Launch)
    requires x.Hkv > 0
  {
    forall b: nat, hq: nat, hkv: nat, tq: nat | Query(x, b, hq, hkv, tq) :: AboveMask(HeadRow(x, b, hq, hkv, tq), x.Tk)
  }

  /** A row's part of the output is its plain attention. */
  ghost predicate RowDone(e: real -> real, out: seq<real>, base: nat, r: Row, n: nat) {
    base + r.dim <= |out| && forall d | 0 <= d < r.dim :: out[base + d] == Plain(e, r, n, d)
  }

  /** The output [b, hq, tq] of every query is its plain attention over the key head that it shares. */
  ghost predicate Attended(e: real -> real, out: seq<real>, x: Launch)
    requires x.Hkv > 0
  {
    forall b: nat, hq: nat, hkv: nat, tq: nat | Query(x, b, hq, hkv, tq) ::
      RowDone(e, out, Vector(Slot(b, hq, x.Hq), tq, x.Tq, x.D), HeadRow(x, b, hq, hkv, tq), x.Tk)
  }

  /** The same where every query head has a key head of its own. */
  ghost predicate DenseAboveMask(x: Launch) {
    forall b: nat, h: nat, tq: nat | b < x.B && h < x.Hq && tq < x.Tq :: AboveMask(HeadRow(x, b, h, h, tq), x.Tk)
  }

  ghost predicate DenseAttended(e: real -> real, out: seq<real>, x: Launch) {
    forall b: nat, h: nat, tq: nat | b < x.B && h < x.Hq && tq < x.Tq ::
      RowDone(e, out, Vector(Slot(b, h, x.Hq), tq, x.Tq, x.D), HeadRow(x, b, h, h, tq), x.Tk)
  }

  lemma SharesItself(hq: nat, hkv: nat, H: nat)
    requires H > 0
    ensures Shares(hq, hkv, H, H) <==> hq == hkv < H
  {
    assert H / H == 1;
  }

  /** With as many key heads as query heads, grouped attention is dense attention. */
  lemma EqualHeadsAreDense(e: real -> real, out: seq<real>, x: Launch)
    requires x.Hq == x.Hkv > 0
    ensures Attended(e, out, x) <==> DenseAttended(e, out, x)
    ensures ScoresAboveMask(x) <==> DenseAboveMask(x)
  {
    hide RowDone, AboveMask, Vector, HeadRow, Shares;
    forall hq: nat, hkv: nat ensures Shares(hq, hkv, x.Hq, x.Hkv) <==> hq == hkv < x.Hq {
      SharesItself(hq, hkv, x.Hq);
    }
    assert forall b: nat, h: nat, tq: nat | b < x.B && h < x.Hq && tq < x.Tq :: Query(x, b, h, h, tq);
  }

  /** Two rows that read the same entries at the same addresses. */
  ghost predicate SameEntries(r: Row, o: Row, n: nat) {
    && o.q == r.q && o.qBase == r.qBase && o.k == r.k && o.v == r.v && o.dim == r.dim && o.scale == r.scale
    && forall t | 0 <= t < n :: Sees(o, t) == Sees(r, t) && (Sees(r, t) ==> KeyAt(o, t) == KeyAt(r, t))
  }

  lemma SameDone(e: real -> real, out: seq<real>, base: nat, r: Row, o: Row, n: nat)
    requires SameEntries(r, o, n) && RowDone(e, out, base, r, n)
    ensures RowDone(e, out, base, o, n)
  {
    hide Plain;
    forall d | 0 <= d < o.dim ensures Plain(e, o, n, d) == Plain(e, r, n, d) { SameAttention(e, r, o, n, d); }
  }

  lemma SameAbove(r: Row, o: Row, n: nat)
    requires SameEntries(r, o, n) && AboveMask(o, n)
    ensures AboveMask(r, n)
  {
    hide Dot;
    forall t | 0 <= t < n && Sees(r, t) ensures Product(r, t) > MASKED {
      SameDot(r, o, t, r.dim);
      assert Product(o, t) > MASKED;
    }
  }

  /** The row of a query, and the query of a row. */
  lemma QueryRow(B: nat, H: nat, T: nat, b: nat, h: nat, t: nat)
    requires b < B && h < H && t < T
    ensures T * H > 0
    ensures var row := Slot(Slot(b, h, H), t, T);
            row < B * H * T && row % T == t && (row / T) % H == h && row / (T * H) == b
  {
    var row := Slot(Slot(b, h, H), t, T);
    SlotInRange(b, h, B, H);
    SlotInRange(Slot(b, h, H), t, B * H, T);
    assert row == T * Slot(b, h, H) + t && Slot(b, h, H) == H * b + h;
    DivModUnique(T, Slot(b, h, H), t);
    DivModUnique(H, b, h);
    assert T * H > 0 by { MulMonotone(1, T, H); }
    NestedDivision(row, T, H);
  }

  lemma SharedHead(hq: nat, hkv: nat, Hq: nat, Hkv: nat)
    requires Hkv > 0 && hq < Hq && Hq % Hkv == 0
    ensures Hq / Hkv > 0
    ensures Shares(hq, hkv, Hq, Hkv) <==> hkv == hq / (Hq / Hkv)
  {
    HeadInRange(hq, Hq, Hkv);
    PositionBlock(hq, hkv, Hq / Hkv);
    PositionBlock(hq, hkv + 1, Hq / Hkv);
  }

  lemma GridRowIs(x: Launch, b: nat, hq: nat, hkv: nat, tq: nat)
    requires x.Hkv > 0 && x.Hq % x.Hkv == 0 && Query(x, b, hq, hkv, tq)
    ensures x.Hq / x.Hkv > 0 && x.Tq * x.Hq > 0
    ensures var row := Slot(Slot(b, hq, x.Hq), tq, x.Tq);
            && row < x.B * x.Hq * x.Tq && Vector(Slot(b, hq, x.Hq), tq, x.Tq, x.D) == row * x.D
            && SameEntries(GridRow(x, row), HeadRow(x, b, hq, hkv, tq), x.Tk)
  {
    QueryRow(x.B, x.Hq, x.Tq, b, hq, tq);
    SharedHead(hq, hkv, x.Hq, x.Hkv);
  }

  lemma DenseRowIs(x: Launch, b: nat, h: nat, tq: nat)
    requires x.Hkv == x.Hq && b < x.B && h < x.Hq && tq < x.Tq
    ensures x.Tq * x.Hq > 0
    ensures var row := Slot(Slot(b, h, x.Hq), tq, x.Tq);
            && row < x.B * x.Hq * x.Tq && Vector(Slot(b, h, x.Hq), tq, x.Tq, x.D) == row * x.D
            && SameEntries(DenseRow(x, row), HeadRow(x, b, h, h, tq), x.Tk)
  {
    QueryRow(x.B, x.Hq, x.Tq, b, h, tq);
  }

  /** Every row is the row of a query; its vectors lie within the tensors, and a causal query sees at
      least the first key. */
  lemma GridRowReadable(x: Launch, row: nat)
    requires Sized(x) && x.Hq % x.Hkv == 0 && row < x.B * x.Hq * x.Tq
    ensures x.Hq / x.Hkv > 0 && x.Tq * x.Hq > 0
    ensures var r := GridRow(x, row);
            && r.dim == x.D && r.v == x.v && Sees(r, 0)
            && (forall t | 0 <= t < x.Tk :: KeyAt(r, t) + x.D <= |x.v|)
            && r.qBase == row * x.D && row * x.D + x.D <= |x.q|
            && (ScoresAboveMask(x) ==> Readable(r, x.Tk))
  {
    hide Product, SameEntries, Shares, Slot, Vector, HeadRow, ScoresAboveMask, AboveMask;
    var b, hq, hkv, tq := QueryOf(x, row);
    GridRowIs(x, b, hq, hkv, tq);
    InTensors(x, row, b, hkv);
    var r := GridRow(x, row);
    if ScoresAboveMask(x) {
      QueryAbove(x, b, hq, hkv, tq);
      SameAbove(r, HeadRow(x, b, hq, hkv, tq), x.Tk);
      AllAbove(r, x.Tk);
    }
  }

  lemma QueryOf(x: Launch, row: nat) returns (b: nat, hq: nat, hkv: nat, tq: nat)
    requires Sized(x) && x.Hq % x.Hkv == 0 && row < x.B * x.Hq * x.Tq
    ensures x.Hq / x.Hkv > 0 && x.Tq * x.Hq > 0 && Query(x, b, hq, hkv, tq) && b < x.B && hkv < x.Hkv
    ensures tq == row % x.Tq && hq == (row / x.Tq) % x.Hq && b == row / (x.Tq * x.Hq) && hkv == hq / (x.Hq / x.Hkv)
    ensures Slot(Slot(b, hq, x.Hq), tq, x.Tq) == row
  {
    GridIndex(row, x.B, x.Hq, x.Tq);
    b, hq, tq := row / (x.Tq * x.Hq), (row / x.Tq) % x.Hq, row % x.Tq;
    HeadInRange(hq, x.Hq, x.Hkv);
    hkv := hq / (x.Hq / x.Hkv);
    SharedHead(hq, hkv, x.Hq, x.Hkv);
  }

  lemma QueryAbove(x: Launch, b: nat, hq: nat, hkv: nat, tq: nat)
    requires x.Hkv > 0 && ScoresAboveMask(x) && Query(x, b, hq, hkv, tq)
    ensures AboveMask(HeadRow(x, b, hq, hkv, tq), x.Tk)
  {
  }

  lemma AllAbove(r: Row, n: nat)
    requires AboveMask(r, n)
    ensures forall t | 0 <= t < n && Sees(r, t) :: Product(r, t) > MASKED
  {
  }

  lemma InTensors(x: Launch, row: nat, b: nat, hkv: nat)
    requires Sized(x) && row < x.B * x.Hq * x.Tq && b < x.B && hkv < x.Hkv
    ensures row * x.D + x.D <= |x.q|
    ensures forall t | 0 <= t < x.Tk :: Vector(Slot(b, hkv, x.Hkv), t, x.Tk, x.D) + x.D <= |x.v|
  {
    MulMonotone(row + 1, x.B * x.Hq * x.Tq, x.D);
    assert (row + 1) * x.D == row * x.D + x.D;
    SlotInRange(b, hkv, x.B, x.Hkv);
    forall t | 0 <= t < x.Tk ensures Vector(Slot(b, hkv, x.Hkv), t, x.Tk, x.D) + x.D <= |x.v| {
      VectorInRange(Slot(b, hkv, x.Hkv), x.B * x.Hkv, t, x.Tk, x.D);
    }
  }

  lemma DenseRowReadable(x: Launch, row: nat)
    requires Sized(x) && x.Hkv == x.Hq && row < x.B * x.Hq * x.Tq
    ensures x.Tq * x.Hq > 0
    ensures var r := DenseRow(x, row);
            && r.dim == x.D && r.v == x.v && Sees(r, 0)
            && (forall t | 0 <= t < x.Tk :: KeyAt(r, t) + x.D <= |x.v|)
            && r.qBase == row * x.D && row * x.D + x.D <= |x.q|
            && (DenseAboveMask(x) ==> Readable(r, x.Tk))
  {
    GridIndex(row, x.B, x.Hq, x.Tq);
    var tq, h, b := row % x.Tq, (row / x.Tq) % x.Hq, row / (x.Tq * x.Hq);
    DenseRowIs(x, b, h, tq);
    InTensors(x, row, b, h);
    var r := DenseRow(x, row);
    hide Product, SameEntries, Slot, Vector;
    if DenseAboveMask(x) { SameAbove(r, HeadRow(x, b, h, h, tq), x.Tk); }
  }

  /* ---------- Whole kernels ---------- */

  /** The first m rows of the output are done; lens says over how many keys. */
  ghost predicate RowsDone(e: real -> real, out: seq<real>, rows: seq<Row>, lens: seq<nat>, m: nat, D: nat) {
    m <= |rows| == |lens| && forall p | 0 <= p < m :: rows[p].dim == D && RowDone(e, out, p * D, rows[p], lens[p])
  }

  lemma NoneDone(e: real -> real, out: seq<real>, rows: seq<Row>, lens: seq<nat>, D: nat)
    requires |rows| == |lens|
    ensures RowsDone(e, out, rows, lens, 0, D)
  {
  }

  /** Writing a later row leaves the rows before it. */
  lemma RowStays(e: real -> real, before: seq<real>, after: seq<real>, p: nat, row: nat, r: Row, n: nat)
    requires p < row && RowDone(e, before, p * r.dim, r, n) && |after| == |before|
    requires forall i | 0 <= i < |before| && i < row * r.dim :: after[i] == before[i]
    ensures RowDone(e, after, p * r.dim, r, n)
  {
    hide Plain;
    MulMonotone(p + 1, row, r.dim);
    assert (p + 1) * r.dim == p * r.dim + r.dim;
  }

  /** One row more is done, and those before it still are. */
  lemma RowFinished(e: real -> real, before: seq<real>, after: seq<real>, rows: seq<Row>, lens: seq<nat>, row: nat, D: nat)
    requires RowsDone(e, before, rows, lens, row, D) && row < |rows| && |after| == |before|
    requires rows[row].dim == D && row * D + D <= |after|
    requires forall d | 0 <= d < D :: after[row * D + d] == Plain(e, rows[row], lens[row], d)
    requires forall i | 0 <= i < |before| && !(row * D <= i < row * D + D) :: after[i] == before[i]
    ensures RowsDone(e, after, rows, lens, row + 1, D)
  {
    hide Plain;
    forall p | 0 <= p < row ensures RowDone(e, after, p * D, rows[p], lens[p]) {
      hide RowDone;
      RowStays(e, before, after, p, row, rows[p], lens[p]);
    }
  }

  /** The rows of a whole launch, each over all keys. */
  ghost function GridRows(x: Launch): (rows: seq<Row>)
    requires x.Tq > 0 && x.Hq > 0 && x.Hkv > 0 && x.Hq / x.Hkv > 0 && x.Tq * x.Hq > 0
    ensures |rows| == x.B * x.Hq * x.Tq && forall i | 0 <= i < |rows| :: rows[i] == GridRow(x, i)
  {
    seq(x.B * x.Hq * x.Tq, i requires 0 <= i => GridRow(x, i))
  }

  ghost function DenseRows(x: Launch): (rows: seq<Row>)
    requires x.Tq > 0 && x.Hq > 0 && x.Tq * x.Hq > 0
    ensures |rows| == x.B * x.Hq * x.Tq && forall i | 0 <= i < |rows| :: rows[i] == DenseRow(x, i)
  {
    seq(x.B * x.Hq * x.Tq, i requires 0 <= i => DenseRow(x, i))
  }

  ghost function Repeated(n: nat, len: nat): (xs: seq<nat>)
    ensures |xs| == n && forall i | 0 <= i < n :: xs[i] == len
  {
    seq(n, _ => len)
  }

  /** When all rows are done, every query has attended. */
  lemma GridAttended(e: real -> real, out: seq<real>, x: Launch)
    requires Sized(x) && x.Hq % x.Hkv == 0 && x.Hq / x.Hkv > 0 && x.Tq * x.Hq > 0
    requires var n := x.B * x.Hq * x.Tq; RowsDone(e, out, GridRows(x), Repeated(n, x.Tk), n, x.D)
    ensures Attended(e, out, x)
  {
    hide RowDone, GridRow, HeadRow, Vector, SameEntries;
    forall b: nat, hq: nat, hkv: nat, tq: nat | Query(x, b, hq, hkv, tq)
      ensures RowDone(e, out, Vector(Slot(b, hq, x.Hq), tq, x.Tq, x.D), HeadRow(x, b, hq, hkv, tq), x.Tk)
    {
      GridRowIs(x, b, hq, hkv, tq);
      var row := Slot(Slot(b, hq, x.Hq), tq, x.Tq);
      SameDone(e, out, row * x.D, GridRow(x, row), HeadRow(x, b, hq, hkv, tq), x.Tk);
    }
  }

  lemma RowsAttended(e: real -> real, out: seq<real>, x: Launch)
    requires Sized(x) && x.Hkv == x.Hq && x.Tq * x.Hq > 0
    requires var n := x.B * x.Hq * x.Tq; RowsDone(e, out, DenseRows(x), Repeated(n, x.Tk), n, x.D)
    ensures DenseAttended(e, out, x)
  {
    hide RowDone, DenseRow, HeadRow, Vector, SameEntries;
    forall b: nat, h: nat, tq: nat | b < x.B && h < x.Hq && tq < x.Tq
      ensures RowDone(e, out, Vector(Slot(b, h, x.Hq), tq, x.Tq, x.D), HeadRow(x, b, h, h, tq), x.Tk)
    {
      DenseRowIs(x, b, h, tq);
      var row := Slot(Slot(b, h, x.Hq), tq, x.Tq);
      SameDone(e, out, row * x.D, DenseRow(x, row), HeadRow(x, b, h, h, tq), x.Tk);
    }
  }

  /** The grouped-query kernel, two passes a row; it does nothing when the heads cannot be grouped. */
  method GqaMqaKernel(e: real -> real, x: Launch, out: array<real>)
    requires ExpLaw(e) && Sized(x) && out.Length == |x.q| && (x.Hq % x.Hkv == 0 ==> ScoresAboveMask(x))
    modifies out
    ensures if x.Hq % x.Hkv != 0 then out[..] == old(out[..]) else Attended(e, out[..], x)
  {
    hide GridRow, Plain, ScoresAboveMask, Attended, Readable, ExpLaw, RowsDone;
    if x.Hq % x.Hkv != 0 { return; }
    HeadInRange(0, x.Hq, x.Hkv);
    MulMonotone(1, x.Tq, x.Hq);
    ghost var rows, lens := GridRows(x), Repeated(x.B * x.Hq * x.Tq, x.Tk);
    NoneDone(e, out[..], rows, lens, x.D);
    for row := 0 to x.B * x.Hq * x.Tq
      invariant RowsDone(e, out[..], rows, lens, row, x.D)
    {
      GridRowReadable(x, row);
      ghost var before := out[..];
      var r := GridRow(x, row);
      AttendRow(e, r, x.Tk, out, r.qBase);
      RowFinished(e, before, out[..], rows, lens, row, x.D);
    }
    GridAttended(e, out[..], x);
  }

  /** The streaming kernel, tile by tile of bk keys: for every bk the same output. */
  method StreamingGqaKernel(e: real -> real, x: Launch, out: array<real>, bk: nat)
    requires ExpLaw(e) && Sized(x) && out.Length == |x.q| && (x.Hq % x.Hkv == 0 ==> ScoresAboveMask(x)) && bk > 0
    modifies out
    ensures if x.Hq % x.Hkv != 0 then out[..] == old(out[..]) else Attended(e, out[..], x)
  {
    hide GridRow, Plain, ScoresAboveMask, Attended, Readable, ExpLaw, RowsDone;
    if x.Hq % x.Hkv != 0 { return; }
    HeadInRange(0, x.Hq, x.Hkv);
    MulMonotone(1, x.Tq, x.Hq);
    ghost var rows, lens := GridRows(x), Repeated(x.B * x.Hq * x.Tq, x.Tk);
    NoneDone(e, out[..], rows, lens, x.D);
    for row := 0 to x.B * x.Hq * x.Tq
      invariant RowsDone(e, out[..], rows, lens, row, x.D)
    {
      GridRowReadable(x, row);
      ghost var before := out[..];
      var r := GridRow(x, row);
      StreamRow(e, r, x.Tk, bk, out, r.qBase);
      RowFinished(e, before, out[..], rows, lens, row, x.D);
    }
    GridAttended(e, out[..], x);
  }

  /** The dense kernel. */
  method DenseMhaKernel(e: real -> real, x: Launch, out: array<real>)
    requires ExpLaw(e) && Sized(x) && x.Hkv == x.Hq && out.Length == |x.q| && DenseAboveMask(x)
    modifies out
    ensures DenseAttended(e, out[..], x)
  {
    hide DenseRow, Plain, DenseAboveMask, DenseAttended, Readable, ExpLaw, RowsDone;
    MulMonotone(1, x.Tq, x.Hq);
    ghost var rows, lens := DenseRows(x), Repeated(x.B * x.Hq * x.Tq, x.Tk);
    NoneDone(e, out[..], rows, lens, x.D);
    for row := 0 to x.B * x.Hq * x.Tq
      invariant RowsDone(e, out[..], rows, lens, row, x.D)
    {
      DenseRowReadable(x, row);
      ghost var before := out[..];
      var r := DenseRow(x, row);
      AttendRow(e, r, x.Tk, out, r.qBase);
      RowFinished(e, before, out[..], rows, lens, row, x.D);
    }
    RowsAttended(e, out[..], x);
  }

  /* ---------- Decoding through block tables ---------- */

  /** What the decode kernel is launched on: q of shape [B, Hq, D], kc and vc of shape
      [numBlocks, bs, Hkv, D], and tables of shape [B, maxBlocks], padded with -1. */
  datatype PagedLaunch = PagedLaunch(
    q: seq<real>, kc: seq<real>, vc: seq<real>, contextLens: seq<nat>, tables: seq<int>,
    B: nat, Hq: nat, Hkv: nat, D: nat, bs: nat, maxBlocks: nat, scale: real)

  ghost predicate PagedSized(x: PagedLaunch, numBlocks: nat) {
    && x.Hq > 0 && x.Hkv > 0 && x.bs > 0 && |x.q| == x.B * x.Hq * x.D && |x.contextLens| == x.B
    && |x.kc| == |x.vc| == numBlocks * x.bs * x.Hkv * x.D
    && |x.tables| == x.B * x.maxBlocks && forall i | 0 <= i < |x.tables| :: x.tables[i] < numBlocks
  }

  /** Entry of the padded table of batch entry b for position t; -1 past the table. */
  function TableEntry(tables: seq<int>, b: nat, t: nat, bs: nat, maxBlocks: nat): int
    requires bs > 0
  {
    if t / bs < maxBlocks && Slot(b, t / bs, maxBlocks) < |tables| then tables[Slot(b, t / bs, maxBlocks)] else -1
  }

  /** Where the key of position t and head hkv is read. */
  function PagedAddress(tables: seq<int>, b: nat, t: nat, hkv: nat, Hkv: nat, D: nat, bs: nat, maxBlocks: nat): nat
    requires bs > 0
  {
    Vector(Slot(Max(0, TableEntry(tables, b, t, bs, maxBlocks)), t % bs, bs), hkv, Hkv, D)
  }

  function PagedGridRow(x: PagedLaunch, row: nat): Row
    requires x.Hq > 0 && x.Hkv > 0 && x.Hq / x.Hkv > 0 && x.bs > 0
  {
    var hq, b := row % x.Hq, row / x.Hq;
    var hkv := hq / (x.Hq / x.Hkv);
    Row(x.q, Slot(b, hq, x.Hq) * x.D, x.kc, x.vc,
        (t: nat) => PagedAddress(x.tables, b, t, hkv, x.Hkv, x.D, x.bs, x.maxBlocks),
        (t: nat) => TableEntry(x.tables, b, t, x.bs, x.maxBlocks) >= 0, x.D, x.scale)
  }

  /** Position t of batch entry b lies in a block that its table names. */
  ghost predicate Covered(x: PagedLaunch, b: nat, t: nat)
    requires x.bs > 0
  {
    && t / x.bs < x.maxBlocks && Slot(b, t / x.bs, x.maxBlocks) < |x.tables|
    && x.tables[Slot(b, t / x.bs, x.maxBlocks)] >= 0
  }

  /** The reference: query [b, hq] against the keys and values [block, offset, hkv] of the positions
      that its table covers. */
  ghost function PagedHeadRow(x: PagedLaunch, b: nat, hq: nat, hkv: nat): Row
    requires x.bs > 0
  {
    Row(x.q, Slot(b, hq, x.Hq) * x.D, x.kc, x.vc,
        (t: nat) => if Covered(x, b, t)
                    then Vector(Slot(x.tables[Slot(b, t / x.bs, x.maxBlocks)], t % x.bs, x.bs), hkv, x.Hkv, x.D) else 0,
        (t: nat) => Covered(x, b, t), x.D, x.scale)
  }

  ghost predicate PagedQuery(x: PagedLaunch, b: nat, hq: nat, hkv: nat)
    requires x.Hkv > 0
  {
    b < x.B && b < |x.contextLens| && Shares(hq, hkv, x.Hq, x.Hkv)
  }

  ghost predicate PagedAboveMask(x: PagedLaunch)
    requires x.Hkv > 0 && x.bs > 0
  {
    forall b: nat, hq: nat, hkv: nat | PagedQuery(x, b, hq, hkv) :: AboveMask(PagedHeadRow(x, b, hq, hkv), x.contextLens[b])
  }

  /** The output [b, hq] of every query is its plain attention over its context. */
  ghost predicate PagedAttended(e: real -> real, out: seq<real>, x: PagedLaunch)
    requires x.Hkv > 0 && x.bs > 0
  {
    forall b: nat, hq: nat, hkv: nat | PagedQuery(x, b, hq, hkv) ::
      RowDone(e, out, Slot(b, hq, x.Hq) * x.D, PagedHeadRow(x, b, hq, hkv), x.contextLens[b])
  }

  lemma PagedRowIs(x: PagedLaunch, b: nat, hq: nat, hkv: nat, n: nat)
    requires x.Hkv > 0 && x.bs > 0 && x.Hq % x.Hkv == 0 && PagedQuery(x, b, hq, hkv)
    ensures x.Hq > 0 && x.Hq / x.Hkv > 0
    ensures var row := Slot(b, hq, x.Hq);
            && row < x.B * x.Hq && row / x.Hq == b
            && SameEntries(PagedGridRow(x, row), PagedHeadRow(x, b, hq, hkv), n)
  {
    hide Vector;
    RowHeads(x.B, x.Hq, x.Hkv, b, hq, hkv);
  }

  lemma PagedRowReadable(x: PagedLaunch, row: nat, b: nat, hq: nat, hkv: nat, numBlocks: nat)
    requires PagedSized(x, numBlocks) && x.Hq % x.Hkv == 0 && PagedQuery(x, b, hq, hkv) && row == Slot(b, hq, x.Hq)
    ensures x.Hq > 0 && x.Hq / x.Hkv > 0 && row < x.B * x.Hq && row / x.Hq == b
    ensures var r := PagedGridRow(x, row);
            && r.dim == x.D && r.qBase == row * x.D && row * x.D + x.D <= |x.q|
            && (PagedAboveMask(x) ==> Readable(r, x.contextLens[b]))
  {
    hide Product, TableEntry, PagedAddress, AboveMask, PagedAboveMask, Slot;
    var n := x.contextLens[b];
    PagedRowIs(x, b, hq, hkv, n);
    MulMonotone(row + 1, x.B * x.Hq, x.D);
    assert (row + 1) * x.D == row * x.D + x.D;
    var r := PagedGridRow(x, row);
    forall t | 0 <= t < n && Sees(r, t) ensures KeyAt(r, t) + x.D <= |x.kc| { PagedKeyIn(x, b, hq, hkv, row, t, numBlocks); }
    if PagedAboveMask(x) {
      PagedQueryAbove(x, b, hq, hkv);
      SameAbove(r, PagedHeadRow(x, b, hq, hkv), n);
      AllAbove(r, n);
    }
  }

  lemma PagedKeyIn(x: PagedLaunch, b: nat, hq: nat, hkv: nat, row: nat, t: nat, numBlocks: nat)
    requires PagedSized(x, numBlocks) && x.Hq % x.Hkv == 0 && PagedQuery(x, b, hq, hkv) && row == Slot(b, hq, x.Hq)
    requires x.Hq / x.Hkv > 0 && Sees(PagedGridRow(x, row), t)
    ensures KeyAt(PagedGridRow(x, row), t) + x.D <= |x.kc|
  {
    hide TableEntry, PagedAddress, Slot;
    RowHeads(x.B, x.Hq, x.Hkv, b, hq, hkv);
    PagedKeyInRange(x.tables, b, t, hkv, x.Hkv, x.D, x.bs, x.maxBlocks, numBlocks);
  }

  /** Batch entry, query head and key head of a row with one query a head. */
  lemma RowHeads(B: nat, Hq: nat, Hkv: nat, b: nat, hq: nat, hkv: nat)
    requires Hkv > 0 && Hq % Hkv == 0 && b < B && Shares(hq, hkv, Hq, Hkv)
    ensures Hq > 0 && Hq / Hkv > 0 && Slot(b, hq, Hq) < B * Hq
    ensures Slot(b, hq, Hq) / Hq == b && Slot(b, hq, Hq) % Hq == hq && hq / (Hq / Hkv) == hkv
  {
    SlotInRange(b, hq, B, Hq);
    assert Slot(b, hq, Hq) == Hq * b + hq;
    DivModUnique(Hq, b, hq);
    SharedHead(hq, hkv, Hq, Hkv);
  }

  lemma HeadsOf(row: nat, B: nat, Hq: nat, Hkv: nat) returns (b: nat, hq: nat, hkv: nat)
    requires Hq > 0 && Hkv > 0 && Hq % Hkv == 0 && row < B * Hq
    ensures b < B && Shares(hq, hkv, Hq, Hkv) && Slot(b, hq, Hq) == row
  {
    PositionBlock(row, B, Hq);
    PositionSplit(row, Hq);
    b, hq := row / Hq, row % Hq;
    HeadInRange(hq, Hq, Hkv);
    hkv := hq / (Hq / Hkv);
    SharedHead(hq, hkv, Hq, Hkv);
  }

  lemma PagedQueryAbove(x: PagedLaunch, b: nat, hq: nat, hkv: nat)
    requires x.Hkv > 0 && x.bs > 0 && PagedAboveMask(x) && PagedQuery(x, b, hq, hkv)
    ensures AboveMask(PagedHeadRow(x, b, hq, hkv), x.contextLens[b])
  {
  }

  /** A key found through the table lies within the cache. */
  lemma PagedKeyInRange(tables: seq<int>, b: nat, t: nat, hkv: nat, Hkv: nat, D: nat, bs: nat, maxBlocks: nat, numBlocks: nat)
    requires bs > 0 && hkv < Hkv && TableEntry(tables, b, t, bs, maxBlocks) >= 0
    requires forall i | 0 <= i < |tables| :: tables[i] < numBlocks
    ensures PagedAddress(tables, b, t, hkv, Hkv, D, bs, maxBlocks) + D <= numBlocks * bs * Hkv * D
  {
    var id := TableEntry(tables, b, t, bs, maxBlocks);
    hide TableEntry;
    TableEntryBelow(tables, b, t, bs, maxBlocks, numBlocks);
    PositionSplit(t, bs);
    SlotInRange(id, t % bs, numBlocks, bs);
    VectorInRange(Slot(id, t % bs, bs), numBlocks * bs, hkv, Hkv, D);
  }

  lemma TableEntryBelow(tables: seq<int>, b: nat, t: nat, bs: nat, maxBlocks: nat, numBlocks: nat)
    requires bs > 0 && TableEntry(tables, b, t, bs, maxBlocks) >= 0
    requires forall i | 0 <= i < |tables| :: tables[i] < numBlocks
    ensures TableEntry(tables, b, t, bs, maxBlocks) < numBlocks
  {
  }

  ghost function PagedRows(x: PagedLaunch): (rows: seq<Row>)
    requires x.Hq > 0 && x.Hkv > 0 && x.Hq / x.Hkv > 0 && x.bs > 0
    ensures |rows| == x.B * x.Hq && forall i | 0 <= i < |rows| :: rows[i] == PagedGridRow(x, i)
  {
    seq(x.B * x.Hq, i requires 0 <= i => PagedGridRow(x, i))
  }

  /** Over how many positions each row runs. */
  ghost function ContextLens(x: PagedLaunch): (lens: seq<nat>)
    requires x.Hq > 0 && |x.contextLens| == x.B
    ensures |lens| == x.B * x.Hq
    ensures forall i | 0 <= i < |lens| :: i / x.Hq < x.B && lens[i] == x.contextLens[i / x.Hq]
  {
    assert forall i: nat | i < x.B * x.Hq :: i / x.Hq < x.B by {
      forall i: nat | i < x.B * x.Hq ensures i / x.Hq < x.B { PositionBlock(i, x.B, x.Hq); }
    }
    seq(x.B * x.Hq, i requires 0 <= i < x.B * x.Hq => x.contextLens[i / x.Hq])
  }

  lemma PagedRowsAttended(e: real -> real, out: seq<real>, x: PagedLaunch, numBlocks: nat)
    requires PagedSized(x, numBlocks) && x.Hq % x.Hkv == 0 && x.Hq / x.Hkv > 0
    requires RowsDone(e, out, PagedRows(x), ContextLens(x), x.B * x.Hq, x.D)
    ensures PagedAttended(e, out, x)
  {
    hide RowDone, PagedGridRow, PagedHeadRow, SameEntries, Shares, Slot;
    forall b: nat, hq: nat, hkv: nat | PagedQuery(x, b, hq, hkv)
      ensures RowDone(e, out, Slot(b, hq, x.Hq) * x.D, PagedHeadRow(x, b, hq, hkv), x.contextLens[b])
    {
      PagedRowIs(x, b, hq, hkv, x.contextLens[b]);
      var row := Slot(b, hq, x.Hq);
      assert ContextLens(x)[row] == x.contextLens[b];
      SameDone(e, out, row * x.D, PagedGridRow(x, row), PagedHeadRow(x, b, hq, hkv), x.contextLens[b]);
    }
  }

  /** The decode kernel: one query a head, keys and values read through the block tables. */
  method PagedDecodeKernel(e: real -> real, x: PagedLaunch, out: array<real>, ghost numBlocks: nat)
    requires ExpLaw(e) && PagedSized(x, numBlocks) && out.Length == |x.q|
    requires x.Hq % x.Hkv == 0 ==> PagedAboveMask(x)
    modifies out
    ensures if x.Hq % x.Hkv != 0 then out[..] == old(out[..]) else PagedAttended(e, out[..], x)
  {
    hide PagedGridRow, Plain, PagedAboveMask, PagedAttended, Readable, ExpLaw, RowsDone;
    if x.Hq % x.Hkv != 0 { return; }
    HeadInRange(0, x.Hq, x.Hkv);
    ghost var rows, lens := PagedRows(x), ContextLens(x);
    NoneDone(e, out[..], rows, lens, x.D);
    for row := 0 to x.B * x.Hq
      invariant RowsDone(e, out[..], rows, lens, row, x.D)
    {
      ghost var b, hq, hkv := HeadsOf(row, x.B, x.Hq, x.Hkv);
      PagedRowReadable(x, row, b, hq, hkv, numBlocks);
      ghost var before := out[..];
      var r := PagedGridRow(x, row);
      PagedRow(e, r, x.contextLens[row / x.Hq], out, r.qBase);
      RowFinished(e, before, out[..], rows, lens, row, x.D);
    }
    PagedRowsAttended(e, out[..], x, numBlocks);
  }

  /** Where the table covers the context and the cache holds, position by position, what contiguous
      tensors hold, decoding through the table is single-query grouped attention over those tensors. */
  lemma PagedIsContiguous(e: real -> real, x: PagedLaunch, g: Launch, b: nat, hq: nat, hkv: nat, n: nat, d: nat)
    requires x.bs > 0 && d < x.D
    requires g.q == x.q && g.Hq == x.Hq && g.Hkv == x.Hkv && g.D == x.D && g.scale == x.scale
    requires g.Tq == 1 && g.Tk == n
    requires forall t | 0 <= t < n :: Covered(x, b, t)
    requires forall t, i | 0 <= t < n && 0 <= i < x.D ::
               && KAt(PagedHeadRow(x, b, hq, hkv), t, i) == KAt(HeadRow(g, b, hq, hkv, 0), t, i)
               && VAt(PagedHeadRow(x, b, hq, hkv), t, i) == VAt(HeadRow(g, b, hq, hkv, 0), t, i)
    ensures Plain(e, PagedHeadRow(x, b, hq, hkv), n, d) == Plain(e, HeadRow(g, b, hq, hkv, 0), n, d)
  {
    hide KAt, VAt, Plain;
    SameAttention(e, HeadRow(g, b, hq, hkv, 0), PagedHeadRow(x, b, hq, hkv), n, d);
  }
}

/** The attention kernels over exact reals, one grid row after the other: two-pass dense attention,
    grouped queries, streaming by tiles, and decoding through a block table.  All equal one plain
    softmax. */
module Attention {
  import opened Arithmetic
  import opened Softmax
  import opened Wrappers

  /** What one row of a kernel works on: a query vector, and the keys and values at addr(0), addr(1), …;
      visible says which keys the row may see. */
  datatype Row = Row(
    q: seq<real>, qBase: nat,
    k: seq<real>, v: seq<real>,
    addr: nat -> nat, visible: nat -> bool,
    dim: nat, scale: real)

  function At(x: seq<real>, i: nat): real {
    if i < |x| then x[i] else 0.0
  }

  predicate Sees(r: Row, t: nat) { r.visible(t) }

  function KeyAt(r: Row, t: nat): nat { r.addr(t) }

  function QAt(r: Row, d: nat): real { At(r.q, r.qBase + d) }

  function KAt(r: Row, t: nat, d: nat): real { At(r.k, KeyAt(r, t) + d) }

  function VAt(r: Row, t: nat, d: nat): real { At(r.v, KeyAt(r, t) + d) }

  /** The first n products of the query with key t. */
  function Dot(r: Row, t: nat, n: nat): real {
    if n == 0 then 0.0 else Dot(r, t, n - 1) + QAt(r, n - 1) * KAt(r, t, n - 1)
  }

  /** The scaled product of the query with key t. */
  function Product(r: Row, t: nat): real { Dot(r, t, r.dim) * r.scale }

  /** The weight of key t. */
  function PlainWeight(e: real -> real, r: Row, t: nat): real {
    if Sees(r, t) then e(Product(r, t)) else 0.0
  }

  /** The reference: weights exp(q k scale) of the visible keys, and their weighted mean of values. */
  function PlainDenom(e: real -> real, r: Row, n: nat): real {
    if n == 0 then 0.0
    else PlainDenom(e, r, n - 1) + PlainWeight(e, r, n - 1)
  }

  function PlainNumer(e: real -> real, r: Row, n: nat, d: nat): real {
    if n == 0 then 0.0
    else PlainNumer(e, r, n - 1, d) + PlainWeight(e, r, n - 1) * VAt(r, n - 1, d)
  }

  function Plain(e: real -> real, r: Row, n: nat, d: nat): real {
    if PlainDenom(e, r, n) == 0.0 then 0.0 else PlainNumer(e, r, n, d) / PlainDenom(e, r, n)
  }

  /* ---------- Scores with the mask value ---------- */

  function Score(r: Row, t: nat): real {
    if Sees(r, t) then Product(r, t) else MASKED
  }

  function Scores(r: Row, n: nat): (s: seq<real>)
    ensures |s| == n && forall t | 0 <= t < n :: s[t] == Score(r, t)
  {
    seq(n, t requires 0 <= t => Score(r, t))
  }

  function Column(r: Row, d: nat, n: nat): (x: seq<real>)
    ensures |x| == n && forall t | 0 <= t < n :: x[t] == VAt(r, t, d)
  {
    seq(n, t requires 0 <= t => VAt(r, t, d))
  }

  /** The visible keys and values are there, and their scores are above the mask value. */
  ghost predicate Readable(r: Row, n: nat) {
    && r.qBase + r.dim <= |r.q|
    && forall t | 0 <= t < n && Sees(r, t) ::
         KeyAt(r, t) + r.dim <= |r.k| && KeyAt(r, t) + r.dim <= |r.v| && Product(r, t) > MASKED
  }

  lemma {:induction false} PlainIsAttend(e: real -> real, r: Row, n: nat, d: nat)
    requires Readable(r, n)
    ensures PlainDenom(e, r, n) == Denom(e, Scores(r, n))
    ensures PlainNumer(e, r, n, d) == Numer(e, Scores(r, n), Column(r, d, n))
    ensures Plain(e, r, n, d) == Attend(e, Scores(r, n), Column(r, d, n))
  {
    hide Dot, VAt, PlainWeight, Weight, Score;
    if n > 0 {
      PlainIsAttend(e, r, n - 1, d);
      assert Scores(r, n)[..n - 1] == Scores(r, n - 1);
      assert Column(r, d, n)[..n - 1] == Column(r, d, n - 1);
      PlainWeightIs(e, r, n, n - 1);
    }
  }

  lemma PlainWeightIs(e: real -> real, r: Row, n: nat, t: nat)
    requires Readable(r, n) && t < n
    ensures PlainWeight(e, r, t) == Weight(e, Score(r, t))
  {
    hide Dot;
  }

  lemma ScoresBounded(r: Row, n: nat)
    requires Readable(r, n)
    ensures forall t | 0 <= t < n :: Scores(r, n)[t] >= MASKED && (Scores(r, n)[t] == MASKED <==> !Sees(r, t))
  {
  }

  lemma ScoresNext(r: Row, n: nat)
    ensures Scores(r, n + 1) == Scores(r, n) + [Score(r, n)]
  {
  }

  /** A visible key makes the maximum a score and the sum of weights positive. */
  lemma SomeVisible(e: real -> real, r: Row, n: nat, t: nat)
    requires ExpLaw(e) && Readable(r, n) && t < n && Sees(r, t)
    ensures MaxScore(Scores(r, n)) != MASKED && Denom(e, Scores(r, n)) > 0.0
  {
    ScoresBounded(r, n);
    MaxScoreIsGreatest(Scores(r, n), t);
    AllMasked(e, Scores(r, n), Column(r, 0, n));
  }

  /** Rows that see the same keys and values attend alike, wherever those are stored. */
  lemma {:induction false} SameAttention(e: real -> real, r: Row, o: Row, n: nat, d: nat)
    requires o.dim == r.dim && o.scale == r.scale && d < r.dim
    requires forall i | 0 <= i < r.dim :: QAt(o, i) == QAt(r, i)
    requires forall t | 0 <= t < n :: Sees(o, t) == Sees(r, t)
    requires forall t, i | 0 <= t < n && Sees(r, t) && 0 <= i < r.dim ::
               KAt(o, t, i) == KAt(r, t, i) && VAt(o, t, i) == VAt(r, t, i)
    ensures PlainDenom(e, o, n) == PlainDenom(e, r, n) && PlainNumer(e, o, n, d) == PlainNumer(e, r, n, d)
    ensures Plain(e, o, n, d) == Plain(e, r, n, d)
  {
    hide QAt, KAt, VAt;
    if n > 0 {
      SameAttention(e, r, o, n - 1, d);
      var a, b := VAt(o, n - 1, d), VAt(r, n - 1, d);
      if Sees(r, n - 1) {
        SameDot(r, o, n - 1, r.dim);
        SameProduct(Dot(o, n - 1, o.dim), Dot(r, n - 1, r.dim), o.scale, r.scale);
        assert Product(o, n - 1) == Product(r, n - 1);
        SameProduct(PlainWeight(e, o, n - 1), PlainWeight(e, r, n - 1), a, b);
      } else {
        assert 0.0 * a == 0.0 * b;
      }
    }
  }

  lemma SameProduct(x: real, y: real, a: real, b: real)
    requires x == y && a == b
    ensures x * a == y * b
  {
  }

  lemma {:induction false} SameDot(r: Row, o: Row, t: nat, n: nat)
    requires forall i | 0 <= i < n :: QAt(o, i) == QAt(r, i)
    requires forall i | 0 <= i < n :: KAt(o, t, i) == KAt(r, t, i)
    ensures Dot(o, t, n) == Dot(r, t, n)
  {
    hide QAt, KAt;
    if n > 0 { SameDot(r, o, t, n - 1); }
  }

  method DotProduct(r: Row, t: nat) returns (dot: real)
    requires r.qBase + r.dim <= |r.q| && KeyAt(r, t) + r.dim <= |r.k|
    ensures dot == Dot(r, t, r.dim)
  {
    dot := 0.0;
    for d := 0 to r.dim
      invariant dot == Dot(r, t, d)
    {
      dot := dot + r.q[r.qBase + d] * r.k[KeyAt(r, t) + d];
    }
  }

  method ScaledProduct(r: Row, t: nat) returns (product: real)
    requires r.qBase + r.dim <= |r.q| && KeyAt(r, t) + r.dim <= |r.k|
    ensures product == Product(r, t)
  {
    var dot := DotProduct(r, t);
    product := dot * r.scale;
  }

  /** Scores of the keys from start on, written to scores[0..n), and their maximum. */
  method ScoreKeys(r: Row, start: nat, n: nat, scores: array<real>) returns (top: real)
    requires Readable(r, start + n) && n <= scores.Length
    modifies scores
    ensures scores[..n] == Scores(r, start + n)[start..] && top == MaxScore(scores[..n])
  {
    top := MASKED;
    for j := 0 to n
      invariant forall i | 0 <= i < j :: scores[i] == Score(r, start + i)
      invariant top == MaxScore(scores[..j])
    {
      var score := MASKED;
      if Sees(r, start + j) {
        score := ScaledProduct(r, start + j);
      }
      ghost var before := scores[..j];
      scores[j] := score;
      assert scores[..j + 1][..j] == before;
      top := MaxReal(top, score);
    }
  }

  /** Turns the scores into weights relative to top and sums them. */
  method WeighKeys(e: real -> real, scores: array<real>, n: nat, top: real) returns (sum: real)
    requires n <= scores.Length
    modifies scores
    ensures forall i | 0 <= i < n :: scores[i] == Shifted(e, old(scores[i]), top)
    ensures sum == ShiftedSum(e, old(scores[..n]), top)
  {
    ghost var s := scores[..n];
    sum := 0.0;
    for i := 0 to n
      invariant forall j | 0 <= j < i :: scores[j] == Shifted(e, s[j], top)
      invariant forall j | i <= j < n :: scores[j] == s[j]
      invariant sum == ShiftedSum(e, s[..i], top)
    {
      assert s[..i + 1][..i] == s[..i];
      var p := if scores[i] == MASKED then 0.0 else e(scores[i] - top);
      scores[i] := p;
      sum := sum + p;
    }
    assert s[..n] == s;
  }

  /** Two passes over all keys, as the dense and the grouped kernel do for a row. */
  method AttendRow(e: real -> real, r: Row, n: nat, out: array<real>, base: nat)
    requires ExpLaw(e) && Readable(r, n) && base + r.dim <= out.Length
    requires forall t | 0 <= t < n :: KeyAt(r, t) + r.dim <= |r.v|
    requires exists t :: 0 <= t < n && Sees(r, t)
    modifies out
    ensures forall d | 0 <= d < r.dim :: out[base + d] == Plain(e, r, n, d)
    ensures forall i | 0 <= i < out.Length && !(base <= i < base + r.dim) :: out[i] == old(out[i])
  {
    hide ShiftedSum, Plain, Readable, MaxScore, ExpLaw, Score;
    var scores := new real[n];
    var rowMax := ScoreKeys(r, 0, n, scores);
    ghost var s := Scores(r, n);
    assert scores[..n] == s;
    var rowSum := WeighKeys(e, scores, n, rowMax);
    RowSum(e, r, n, rowMax);
    WriteRow(e, r, n, scores, rowSum, rowMax, out, base);
  }

  /** The sum of the weights relative to any m is not zero where some key is visible. */
  lemma RowSum(e: real -> real, r: Row, n: nat, m: real)
    requires ExpLaw(e) && Readable(r, n) && exists t :: 0 <= t < n && Sees(r, t)
    ensures ShiftedSum(e, Scores(r, n), m) != 0.0
  {
    hide Denom, MaxScore, Readable, ShiftedSum;
    var t :| 0 <= t < n && Sees(r, t);
    SomeVisible(e, r, n, t);
    ShiftedAttend(e, Scores(r, n), Column(r, 0, n), m);
  }

  lemma RowRight(e: real -> real, r: Row, n: nat, m: real, d: nat)
    requires ExpLaw(e) && Readable(r, n) && exists t :: 0 <= t < n && Sees(r, t)
    ensures ShiftedSum(e, Scores(r, n), m) != 0.0
    ensures ShiftedDot(e, Scores(r, n), Column(r, d, n), m) / ShiftedSum(e, Scores(r, n), m) == Plain(e, r, n, d)
  {
    hide Denom, MaxScore, Readable, ShiftedSum, ShiftedDot, Attend, Plain;
    var t :| 0 <= t < n && Sees(r, t);
    SomeVisible(e, r, n, t);
    ShiftedAttend(e, Scores(r, n), Column(r, d, n), m);
    PlainIsAttend(e, r, n, d);
  }

  /** The weighted mean of the values, one component after the other. */
  method WriteRow(e: real -> real, r: Row, n: nat, scores: array<real>, sum: real, ghost top: real,
                  out: array<real>, base: nat)
    requires ExpLaw(e) && Readable(r, n) && base + r.dim <= out.Length && scores != out
    requires exists t :: 0 <= t < n && Sees(r, t)
    requires forall t | 0 <= t < n :: KeyAt(r, t) + r.dim <= |r.v|
    requires n <= scores.Length && forall t | 0 <= t < n :: scores[t] == Shifted(e, Scores(r, n)[t], top)
    requires sum == ShiftedSum(e, Scores(r, n), top) != 0.0
    modifies out
    ensures forall d | 0 <= d < r.dim :: out[base + d] == Plain(e, r, n, d)
    ensures forall i | 0 <= i < out.Length && !(base <= i < base + r.dim) :: out[i] == old(out[i])
  {
    hide ShiftedSum, ShiftedDot, Shifted, Plain, Readable, ExpLaw, Score;
    for d := 0 to r.dim
      invariant forall i | 0 <= i < d :: out[base + i] == Plain(e, r, n, i)
      invariant forall i | 0 <= i < out.Length && !(base <= i < base + d) :: out[i] == old(out[i])
      invariant forall t | 0 <= t < n :: scores[t] == Shifted(e, Scores(r, n)[t], top)
    {
      RowRight(e, r, n, top, d);
      var acc := WeightedMean(e, r, n, scores, sum, d, Scores(r, n), top);
      out[base + d] := acc;
    }
  }

  method WeightedMean(e: real -> real, r: Row, n: nat, scores: array<real>, sum: real, d: nat,
                      ghost s: seq<real>, ghost top: real) returns (acc: real)
    requires n <= scores.Length && |s| == n && sum != 0.0 && d < r.dim
    requires forall t | 0 <= t < n :: scores[t] == Shifted(e, s[t], top) && KeyAt(r, t) + r.dim <= |r.v|
    ensures acc == ShiftedDot(e, s, Column(r, d, n), top) / sum
  {
    hide ShiftedDot, Shifted;
    ghost var x := Column(r, d, n);
    acc := 0.0;
    DotFirst(e, top);
    for t := 0 to n
      invariant acc * sum == ShiftedDot(e, s[..t], x[..t], top)
    {
      DotNext(e, s, x, top, t);
      QuotientTerm(acc, scores[t], sum, r.v[KeyAt(r, t) + d]);
      acc := acc + (scores[t] / sum) * r.v[KeyAt(r, t) + d];
    }
    assert s[..n] == s && x[..n] == x;
    DivideBack(acc, sum);
  }

  lemma DotFirst(e: real -> real, m: real)
    ensures ShiftedDot(e, [], [], m) == 0.0
  {
  }

  lemma DotNext(e: real -> real, s: seq<real>, x: seq<real>, m: real, t: nat)
    requires |x| == |s| && t < |s|
    ensures ShiftedDot(e, s[..t + 1], x[..t + 1], m) == ShiftedDot(e, s[..t], x[..t], m) + Shifted(e, s[t], m) * x[t]
  {
    assert s[..t + 1][..t] == s[..t] && x[..t + 1][..t] == x[..t];
  }

  lemma DotGrows(e: real -> real, s: seq<real>, x: seq<real>, m: real, t: nat, acc: real, p: real, v: real)
    requires |x| == |s| && t < |s| && acc == ShiftedDot(e, s[..t], x[..t], m)
    requires p == Shifted(e, s[t], m) && v == x[t]
    ensures acc + p * v == ShiftedDot(e, s[..t + 1], x[..t + 1], m)
  {
    hide ShiftedDot, Shifted;
    DotNext(e, s, x, m, t);
  }

  lemma QuotientTerm(acc: real, p: real, sum: real, v: real)
    requires sum != 0.0
    ensures (acc + (p / sum) * v) * sum == acc * sum + p * v
  {
    var w := p / sum;
    assert w * sum == p;
    Distribute(acc, w * v, sum);
    Swap(w, v, sum);
  }

  lemma DivideBack(acc: real, sum: real)
    requires sum != 0.0
    ensures acc * sum / sum == acc
  {
  }

  /* ---------- Streaming by tiles ---------- */

  /** What has been accumulated over the first n keys. */
  ghost predicate Accumulated(e: real -> real, r: Row, n: nat, m: real, l: real, acc: seq<real>) {
    && |acc| == r.dim && Running(e, Scores(r, n), m, l)
    && forall d | 0 <= d < r.dim :: RunningDot(e, Scores(r, n), Column(r, d, n), m, acc[d])
  }

  lemma NothingAccumulated(e: real -> real, r: Row, acc: seq<real>)
    requires |acc| == r.dim && forall d | 0 <= d < r.dim :: acc[d] == 0.0
    ensures Accumulated(e, r, 0, MASKED, 0.0, acc)
  {
  }

  lemma TileJoins(r: Row, n: nat, len: nat, d: nat)
    ensures Scores(r, n + len) == Scores(r, n) + Scores(r, n + len)[n..]
    ensures Column(r, d, n + len) == Column(r, d, n) + Column(r, d, n + len)[n..]
  {
    assert Scores(r, n + len)[..n] == Scores(r, n);
    assert Column(r, d, n + len)[..n] == Column(r, d, n);
  }

  /** One more tile is accounted for. */
  lemma TileAccumulated(e: real -> real, r: Row, n: nat, len: nat, m: real, mNew: real, l: real, lNew: real,
                        acc: seq<real>, accNew: seq<real>)
    requires ExpLaw(e) && Readable(r, n + len) && Accumulated(e, r, n, m, l, acc) && |accNew| == r.dim
    requires mNew == MaxReal(m, MaxScore(Scores(r, n + len)[n..]))
    requires forall d | 0 <= d < r.dim ::
      accNew[d] == OldScale(e, m, mNew) * acc[d]
                   + ShiftedDot(e, Scores(r, n + len)[n..], Column(r, d, n + len)[n..], mNew)
    requires lNew == OldScale(e, m, mNew) * l + ShiftedSum(e, Scores(r, n + len)[n..], mNew)
    ensures Accumulated(e, r, n + len, mNew, lNew, accNew)
  {
    hide Running, RunningDot, ShiftedSum, ShiftedDot, OldScale, MaxScore, Readable, ExpLaw;
    var s, t := Scores(r, n), Scores(r, n + len)[n..];
    TileJoins(r, n, len, 0);
    ReadableLess(r, n, n + len);
    ScoresBounded(r, n);
    ScoresBounded(r, n + len);
    NextTile(e, s, t, m, mNew, l, lNew);
    forall d | 0 <= d < r.dim ensures RunningDot(e, Scores(r, n + len), Column(r, d, n + len), mNew, accNew[d]) {
      TileJoins(r, n, len, d);
      NextTileDot(e, s, Column(r, d, n), t, Column(r, d, n + len)[n..], m, mNew, l, acc[d], accNew[d]);
    }
  }

  lemma ReadableLess(r: Row, n: nat, m: nat)
    requires Readable(r, m) && n <= m
    ensures Readable(r, n)
  {
  }

  /** The next len keys as one tile. */
  method AddTile(e: real -> real, r: Row, n: nat, len: nat, tile: array<real>, acc: array<real>, m: real, l: real)
    returns (mNew: real, lNew: real)
    requires ExpLaw(e) && Readable(r, n + len) && len <= tile.Length && tile != acc && acc.Length == r.dim
    requires forall t | 0 <= t < n + len :: KeyAt(r, t) + r.dim <= |r.v|
    requires Accumulated(e, r, n, m, l, acc[..])
    modifies tile, acc
    ensures Accumulated(e, r, n + len, mNew, lNew, acc[..])
  {
    hide Accumulated, ShiftedSum, ShiftedDot, Shifted, Readable, ExpLaw, Score, MaxScore;
    ghost var s, before := Scores(r, n + len)[n..], acc[..];
    var tileMax := ScoreKeys(r, n, len, tile);
    assert tile[..len] == s;
    mNew := MaxReal(m, tileMax);
    var oldScale := OldScale(e, m, mNew);
    var tileSum := WeighKeys(e, tile, len, mNew);
    lNew := oldScale * l + tileSum;
    for d := 0 to r.dim
      invariant forall i | 0 <= i < d ::
        acc[i] == oldScale * before[i] + ShiftedDot(e, s, Column(r, i, n + len)[n..], mNew)
      invariant forall i | d <= i < r.dim :: acc[i] == before[i]
      invariant forall j | 0 <= j < len :: tile[j] == Shifted(e, s[j], mNew)
    {
      var tileAcc := TileDot(e, r, n, len, tile, d, mNew);
      acc[d] := oldScale * acc[d] + tileAcc;
    }
    TileAccumulated(e, r, n, len, m, mNew, l, lNew, before, acc[..]);
  }

  method TileDot(e: real -> real, r: Row, n: nat, len: nat, tile: array<real>, d: nat, ghost m: real)
    returns (tileAcc: real)
    requires len <= tile.Length && d < r.dim
    requires forall t | 0 <= t < n + len :: KeyAt(r, t) + r.dim <= |r.v|
    requires forall j | 0 <= j < len :: tile[j] == Shifted(e, Scores(r, n + len)[n..][j], m)
    ensures tileAcc == ShiftedDot(e, Scores(r, n + len)[n..], Column(r, d, n + len)[n..], m)
  {
    hide ShiftedDot, Shifted, Score;
    ghost var s, x := Scores(r, n + len)[n..], Column(r, d, n + len)[n..];
    tileAcc := 0.0;
    DotFirst(e, m);
    for j := 0 to len
      invariant tileAcc == ShiftedDot(e, s[..j], x[..j], m)
    {
      assert x[j] == Column(r, d, n + len)[n + j] == VAt(r, n + j, d);
      var p, v := tile[j], r.v[KeyAt(r, n + j) + d];
      DotGrows(e, s, x, m, j, tileAcc, p, v);
      tileAcc := tileAcc + p * v;
    }
    assert s[..len] == s && x[..len] == x;
  }

  /** Keys in tiles of bk, with a running maximum, sum and weighted sum. */
  method StreamRow(e: real -> real, r: Row, n: nat, bk: nat, out: array<real>, base: nat)
    requires ExpLaw(e) && Readable(r, n) && base + r.dim <= out.Length && bk > 0
    requires forall t | 0 <= t < n :: KeyAt(r, t) + r.dim <= |r.v|
    requires exists t :: 0 <= t < n && Sees(r, t)
    modifies out
    ensures forall d | 0 <= d < r.dim :: out[base + d] == Plain(e, r, n, d)
    ensures forall i | 0 <= i < out.Length && !(base <= i < base + r.dim) :: out[i] == old(out[i])
  {
    hide Accumulated, Readable, ExpLaw, Plain, Score;
    var tile, acc := new real[bk], new real[r.dim](_ => 0.0);
    var m, l := MASKED, 0.0;
    var tileStart := 0;
    NothingAccumulated(e, r, acc[..]);
    while tileStart < n
      invariant Accumulated(e, r, Min(tileStart, n), m, l, acc[..])
      invariant out[..] == old(out[..])
    {
      var tileLen := Min(bk, n - tileStart);
      ReadableLess(r, tileStart + tileLen, n);
      m, l := AddTile(e, r, tileStart, tileLen, tile, acc, m, l);
      tileStart := tileStart + bk;
    }
    for d := 0 to r.dim
      invariant Accumulated(e, r, n, m, l, acc[..])
      invariant forall i | 0 <= i < d :: out[base + i] == Plain(e, r, n, i)
      invariant forall i | 0 <= i < out.Length && !(base <= i < base + d) :: out[i] == old(out[i])
    {
      AccumulatedRight(e, r, n, m, l, acc[..], d);
      out[base + d] := acc[d] / l;
    }
  }

  lemma AccumulatedRight(e: real -> real, r: Row, n: nat, m: real, l: real, acc: seq<real>, d: nat)
    requires ExpLaw(e) && Readable(r, n) && Accumulated(e, r, n, m, l, acc) && d < r.dim
    requires exists t :: 0 <= t < n && Sees(r, t)
    ensures |acc| == r.dim && l != 0.0 && acc[d] / l == Plain(e, r, n, d)
  {
    hide RunningDot, Plain, Denom, Attend, Readable, ExpLaw;
    var t :| 0 <= t < n && Sees(r, t);
    SomeVisible(e, r, n, t);
    ScoresBounded(r, n);
    RunningAttend(e, Scores(r, n), Column(r, d, n), m, l, acc[d]);
    PlainIsAttend(e, r, n, d);
  }
}

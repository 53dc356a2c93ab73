/** Softmax-weighted sums over exact reals, for any positive exp with exp(a + b) = exp(a) exp(b):
    plain, shifted by a maximum, and accumulated tile by tile. */
module Softmax {
  import opened Wrappers

  /** The score of a masked key: the lowest finite float. */
  const MASKED: real := -340282346638528859811704183484516925440.0

  ghost predicate ExpLaw(e: real -> real) {
    (forall a :: e(a) > 0.0) && forall a, b :: e(a + b) == e(a) * e(b)
  }

  function MaxReal(a: real, b: real): real { if a >= b then a else b }

  /** A key's weight, relative to m; a masked key has none. */
  function Shifted(e: real -> real, score: real, m: real): real {
    if score == MASKED then 0.0 else e(score - m)
  }

  function Weight(e: real -> real, score: real): real {
    if score == MASKED then 0.0 else e(score)
  }

  /** Sum of the weights of these scores. */
  function Denom(e: real -> real, s: seq<real>): real {
    if s == [] then 0.0 else Denom(e, s[..|s| - 1]) + Weight(e, s[|s| - 1])
  }

  /** Weighted sum of x. */
  function Numer(e: real -> real, s: seq<real>, x: seq<real>): real
    requires |x| == |s|
  {
    if s == [] then 0.0
    else Numer(e, s[..|s| - 1], x[..|s| - 1]) + Weight(e, s[|s| - 1]) * x[|s| - 1]
  }

  /** The softmax of s applied to x; 0 where every key is masked. */
  function Attend(e: real -> real, s: seq<real>, x: seq<real>): real
    requires |x| == |s|
  {
    if Denom(e, s) == 0.0 then 0.0 else Numer(e, s, x) / Denom(e, s)
  }

  function MaxScore(s: seq<real>): real {
    if s == [] then MASKED else MaxReal(MaxScore(s[..|s| - 1]), s[|s| - 1])
  }

  lemma {:induction false} MaxScoreIsGreatest(s: seq<real>, i: nat)
    requires i < |s|
    ensures s[i] <= MaxScore(s)
  {
    if i < |s| - 1 {
      MaxScoreIsGreatest(s[..|s| - 1], i);
      assert s[..|s| - 1][i] == s[i];
    }
  }

  lemma {:induction false} MaxScoreJoin(s: seq<real>, t: seq<real>)
    ensures MaxScore(s + t) == MaxReal(MaxScore(s), MaxScore(t))
  {
    if t == [] {
      assert s + t == s;
      MaxScoreLeast(s);
    } else {
      assert (s + t)[..|s + t| - 1] == s + t[..|t| - 1];
      MaxScoreJoin(s, t[..|t| - 1]);
    }
  }

  lemma {:induction false} MaxScoreLeast(s: seq<real>)
    ensures MaxScore(s) >= MASKED
  {
    if s != [] { MaxScoreLeast(s[..|s| - 1]); }
  }

  /** Nothing is visible exactly where the maximum is the mask; then there is no weight. */
  lemma {:induction false} AllMasked(e: real -> real, s: seq<real>, x: seq<real>)
    requires ExpLaw(e) && |x| == |s| && forall i | 0 <= i < |s| :: s[i] >= MASKED
    ensures MaxScore(s) == MASKED ==> Denom(e, s) == 0.0 && Numer(e, s, x) == 0.0
    ensures MaxScore(s) != MASKED ==> Denom(e, s) > 0.0
  {
    if s != [] {
      AllMasked(e, s[..|s| - 1], x[..|s| - 1]);
      MaxScoreLeast(s[..|s| - 1]);
    }
  }

  /** Shifting by m divides every weight by e(m). */
  lemma ShiftedWeight(e: real -> real, score: real, m: real)
    requires ExpLaw(e)
    ensures Shifted(e, score, m) * e(m) == Weight(e, score)
  {
    if score != MASKED {
      assert (score - m) + m == score;
      assert e((score - m) + m) == e(score - m) * e(m);
    }
  }

  /** Sum of the shifted weights. */
  function ShiftedSum(e: real -> real, s: seq<real>, m: real): real {
    if s == [] then 0.0 else ShiftedSum(e, s[..|s| - 1], m) + Shifted(e, s[|s| - 1], m)
  }

  function ShiftedDot(e: real -> real, s: seq<real>, x: seq<real>, m: real): real
    requires |x| == |s|
  {
    if s == [] then 0.0
    else ShiftedDot(e, s[..|s| - 1], x[..|s| - 1], m) + Shifted(e, s[|s| - 1], m) * x[|s| - 1]
  }

  lemma {:induction false} ShiftedSums(e: real -> real, s: seq<real>, x: seq<real>, m: real)
    requires ExpLaw(e) && |x| == |s|
    ensures ShiftedSum(e, s, m) * e(m) == Denom(e, s)
    ensures ShiftedDot(e, s, x, m) * e(m) == Numer(e, s, x)
  {
    hide ShiftedSum, ShiftedDot, Denom, Numer, Shifted, Weight;
    SumsUnfold(e, s, x, m);
    if s != [] {
      var n := |s| - 1;
      ShiftedSums(e, s[..n], x[..n], m);
      ShiftedWeight(e, s[n], m);
      AddTerm(ShiftedSum(e, s[..n], m), Shifted(e, s[n], m), 1.0, e(m), Denom(e, s[..n]), Weight(e, s[n]));
      AddTerm(ShiftedDot(e, s[..n], x[..n], m), Shifted(e, s[n], m), x[n], e(m), Numer(e, s[..n], x[..n]),
              Weight(e, s[n]));
    }
  }

  lemma AddTerm(a: real, p: real, x: real, c: real, total: real, w: real)
    requires a * c == total && p * c == w
    ensures (a + p * x) * c == total + w * x
  {
    Distribute(a, p * x, c);
    Swap(p, x, c);
  }

  lemma SumsUnfold(e: real -> real, s: seq<real>, x: seq<real>, m: real)
    requires |x| == |s|
    ensures s == [] ==> ShiftedSum(e, s, m) == ShiftedDot(e, s, x, m) == Denom(e, s) == Numer(e, s, x) == 0.0
    ensures s != [] ==>
              var n := |s| - 1;
              && ShiftedSum(e, s, m) == ShiftedSum(e, s[..n], m) + Shifted(e, s[n], m) * 1.0
              && ShiftedDot(e, s, x, m) == ShiftedDot(e, s[..n], x[..n], m) + Shifted(e, s[n], m) * x[n]
              && Denom(e, s) == Denom(e, s[..n]) + Weight(e, s[n]) * 1.0
              && Numer(e, s, x) == Numer(e, s[..n], x[..n]) + Weight(e, s[n]) * x[n]
  {
  }

  lemma SameRatio(a: real, b: real, c: real, n: real, d: real)
    requires a * c == n && b * c == d && d != 0.0
    ensures b != 0.0 && c != 0.0 && a / b == n / d
  {
    CancelRatio(a, b, c);
  }

  lemma Distribute(a: real, b: real, c: real)
    ensures (a + b) * c == a * c + b * c
  {
  }

  lemma Swap(a: real, b: real, c: real)
    ensures a * b * c == a * c * b
  {
  }

  lemma CancelRatio(a: real, b: real, c: real)
    requires b != 0.0 && c != 0.0
    ensures b * c != 0.0 && (a * c) / (b * c) == a / b
  {
    var r := a / b;
    assert r * b == a;
    assert r * (b * c) == a * c;
  }

  /** The two-pass form: shifting all scores by any m changes nothing. */
  lemma ShiftedAttend(e: real -> real, s: seq<real>, x: seq<real>, m: real)
    requires ExpLaw(e) && |x| == |s| && Denom(e, s) != 0.0
    ensures ShiftedSum(e, s, m) != 0.0
    ensures ShiftedDot(e, s, x, m) / ShiftedSum(e, s, m) == Attend(e, s, x)
  {
    hide Denom, Numer, ShiftedSum, ShiftedDot;
    ShiftedSums(e, s, x, m);
    SameRatio(ShiftedDot(e, s, x, m), ShiftedSum(e, s, m), e(m), Numer(e, s, x), Denom(e, s));
  }

  lemma {:induction false} SumsJoin(e: real -> real, s: seq<real>, x: seq<real>, t: seq<real>, y: seq<real>)
    requires |x| == |s| && |y| == |t|
    ensures Denom(e, s + t) == Denom(e, s) + Denom(e, t)
    ensures Numer(e, s + t, x + y) == Numer(e, s, x) + Numer(e, t, y)
  {
    if t == [] {
      assert s + t == s && x + y == x;
    } else {
      var n := |t| - 1;
      assert (s + t)[..|s + t| - 1] == s + t[..n] && (x + y)[..|s + t| - 1] == x + y[..n];
      SumsJoin(e, s, x, t[..n], y[..n]);
    }
  }

  /* ---------- Running sums ---------- */

  /** What the streaming form keeps for the scores seen: their maximum m and the sums relative to it. */
  ghost predicate Running(e: real -> real, s: seq<real>, m: real, l: real) {
    m == MaxScore(s) && if m == MASKED then l == 0.0 else l * e(m) == Denom(e, s)
  }

  ghost predicate RunningDot(e: real -> real, s: seq<real>, x: seq<real>, m: real, acc: real)
    requires |x| == |s|
  {
    if m == MASKED then acc == 0.0 else acc * e(m) == Numer(e, s, x)
  }

  /** The factor by which earlier sums shrink when the maximum grows. */
  function OldScale(e: real -> real, m: real, mNew: real): real {
    if m == MASKED then 0.0 else e(m - mNew)
  }

  lemma Rescaled(e: real -> real, m: real, mNew: real, l: real, total: real)
    requires ExpLaw(e) && m != MASKED && l * e(m) == total
    ensures OldScale(e, m, mNew) * l * e(mNew) == total
  {
    assert (m - mNew) + mNew == m;
    assert e((m - mNew) + mNew) == e(m - mNew) * e(mNew);
    Swap(e(m - mNew), l, e(mNew));
  }

  /** One more tile t, whose weights are taken relative to the new maximum. */
  lemma NextTile(e: real -> real, s: seq<real>, t: seq<real>, m: real, mNew: real, l: real, lNew: real)
    requires ExpLaw(e) && Running(e, s, m, l) && mNew == MaxReal(m, MaxScore(t))
    requires forall i | 0 <= i < |s| :: s[i] >= MASKED
    requires forall i | 0 <= i < |t| :: t[i] >= MASKED
    requires lNew == OldScale(e, m, mNew) * l + ShiftedSum(e, t, mNew)
    ensures Running(e, s + t, mNew, lNew)
  {
    hide Denom, Numer, ShiftedSum, ShiftedDot, MaxScore, ExpLaw;
    var zeros, more := seq(|s|, i => 0.0), seq(|t|, i => 0.0);
    MaxScoreJoin(s, t);
    SumsJoin(e, s, zeros, t, more);
    ShiftedSums(e, t, more, mNew);
    AllMasked(e, s, zeros);
    MaxScoreLeast(s);
    MaxScoreLeast(t);
    if m != MASKED {
      Rescaled(e, m, mNew, l, Denom(e, s));
      Combine(OldScale(e, m, mNew) * l, ShiftedSum(e, t, mNew), e(mNew), lNew);
    } else {
      Combine(0.0, ShiftedSum(e, t, mNew), e(mNew), lNew);
      if mNew == MASKED { NoWeight(e, t, more, mNew); }
    }
  }

  lemma Combine(a: real, b: real, c: real, sum: real)
    requires sum == a + b
    ensures sum * c == a * c + b * c
  {
    Distribute(a, b, c);
  }

  lemma {:induction false} NoWeight(e: real -> real, t: seq<real>, y: seq<real>, m: real)
    requires |y| == |t| && MaxScore(t) == MASKED && forall i | 0 <= i < |t| :: t[i] >= MASKED
    ensures ShiftedSum(e, t, m) == 0.0 && ShiftedDot(e, t, y, m) == 0.0
  {
    if t != [] {
      MaxScoreLeast(t[..|t| - 1]);
      NoWeight(e, t[..|t| - 1], y[..|t| - 1], m);
    }
  }

  lemma NextTileDot(e: real -> real, s: seq<real>, x: seq<real>, t: seq<real>, y: seq<real>, m: real, mNew: real,
                    l: real, acc: real, accNew: real)
    requires ExpLaw(e) && |x| == |s| && |y| == |t|
    requires Running(e, s, m, l) && RunningDot(e, s, x, m, acc) && mNew == MaxReal(m, MaxScore(t))
    requires forall i | 0 <= i < |s| :: s[i] >= MASKED
    requires forall i | 0 <= i < |t| :: t[i] >= MASKED
    requires accNew == OldScale(e, m, mNew) * acc + ShiftedDot(e, t, y, mNew)
    ensures RunningDot(e, s + t, x + y, mNew, accNew)
  {
    hide Denom, Numer, ShiftedSum, ShiftedDot, MaxScore, ExpLaw, Running;
    RunningMax(e, s, m, l);
    SumsJoin(e, s, x, t, y);
    ShiftedSums(e, t, y, mNew);
    AllMasked(e, s, x);
    MaxScoreLeast(s);
    MaxScoreLeast(t);
    if m != MASKED {
      Rescaled(e, m, mNew, acc, Numer(e, s, x));
      Combine(OldScale(e, m, mNew) * acc, ShiftedDot(e, t, y, mNew), e(mNew), accNew);
    } else {
      Combine(0.0, ShiftedDot(e, t, y, mNew), e(mNew), accNew);
      if mNew == MASKED { NoWeight(e, t, y, mNew); }
    }
  }

  lemma RunningMax(e: real -> real, s: seq<real>, m: real, l: real)
    requires Running(e, s, m, l)
    ensures m == MaxScore(s)
  {
  }

  /** Once some key is visible, the running quotient is the softmax of everything seen. */
  lemma RunningAttend(e: real -> real, s: seq<real>, x: seq<real>, m: real, l: real, acc: real)
    requires ExpLaw(e) && |x| == |s| && Running(e, s, m, l) && RunningDot(e, s, x, m, acc) && m != MASKED
    requires forall i | 0 <= i < |s| :: s[i] >= MASKED
    ensures l != 0.0 && acc / l == Attend(e, s, x)
  {
    AllMasked(e, s, x);
    SameRatio(acc, l, e(m), Numer(e, s, x), Denom(e, s));
  }
}

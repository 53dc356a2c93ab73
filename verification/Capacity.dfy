/** How much room the unfinished sequences can need, and that it is there when the worst cases fit. */
module Capacity {
  import opened Arithmetic
  import opened Blocks
  import opened BlockSteps
  import opened BlockManagers
  import opened LanguageModel
  import opened Sequences
  import opened WorldOps
  import opened WorldSteps
  import opened Worlds
  import opened Wrappers

  /** Blocks a request needs if it generates as many tokens as it may. */
  function Worst(v: Seq, bs: nat): nat
    requires bs > 0
  {
    NumBlocks(|v.req.prompt| + v.req.gen.maxTokens, bs)
  }

  ghost function SumWorst(seqs: seq<Seq>, bs: nat): nat
    requires bs > 0
  {
    if seqs == [] then 0 else Worst(seqs[0], bs) + SumWorst(seqs[1..], bs)
  }

  ghost predicate Fits(e: Env, b: Store, seqs: seq<Seq>) {
    e.BlockSize() > 0 && SumWorst(seqs, e.BlockSize()) <= |b.blocks|
  }

  ghost function SumTables(seqs: seq<Seq>): nat {
    if seqs == [] then 0 else |seqs[0].table| + SumTables(seqs[1..])
  }

  lemma {:induction false} AllRefsSize(seqs: seq<Seq>)
    ensures |AllRefs(seqs)| == SumTables(seqs)
  {
    if seqs != [] { AllRefsSize(seqs[1..]); }
  }

  lemma {:induction false} DistinctAtMost(ids: set<nat>, m: multiset<nat>)
    requires forall id | id in ids :: id in m
    ensures |ids| <= |m|
  {
    if ids != {} {
      var x :| x in ids;
      var rest := m - multiset{x};
      assert m == rest + multiset{x};
      DistinctAtMost(ids - {x}, rest);
    }
  }

  lemma UsedAtMostTables(e: Env, b: Store, seqs: seq<Seq>)
    requires Core(e, b, seqs)
    ensures |b.used| <= SumTables(seqs)
  {
    forall id | id in b.used ensures id in AllRefs(seqs) { assert Placed(b, id); }
    hide Core;
    DistinctAtMost(b.used, AllRefs(seqs));
    AllRefsSize(seqs);
  }

  /** Tokens a sequence can still reach need no more than its worst case. */
  lemma TokensWithinWorst(e: Env, v: Seq, target: nat)
    requires e.BlockSize() > 0 && Unfinished(v) && target <= |v.tokens|
    ensures NumBlocks(target, e.BlockSize()) <= Worst(v, e.BlockSize())
  {
    NumBlocksMonotone(target, |v.req.prompt| + v.req.gen.maxTokens, e.BlockSize());
  }

  lemma {:induction false} RoomInSum(e: Env, seqs: seq<Seq>, k: nat, needed: nat)
    requires e.BlockSize() > 0 && k < |seqs| && needed <= Worst(seqs[k], e.BlockSize())
    requires forall j | 0 <= j < |seqs| :: |seqs[j].table| <= Worst(seqs[j], e.BlockSize())
    ensures Max(0, needed - |seqs[k].table|) + SumTables(seqs) <= SumWorst(seqs, e.BlockSize())
  {
    if k > 0 {
      RoomInSum(e, seqs[1..], k - 1, needed);
    } else {
      TablesWithinWorst(e, seqs[1..]);
    }
  }

  lemma {:induction false} TablesWithinWorst(e: Env, seqs: seq<Seq>)
    requires e.BlockSize() > 0
    requires forall j | 0 <= j < |seqs| :: |seqs[j].table| <= Worst(seqs[j], e.BlockSize())
    ensures SumTables(seqs) <= SumWorst(seqs, e.BlockSize())
  {
    if seqs != [] { TablesWithinWorst(e, seqs[1..]); }
  }

  lemma WorstTable(e: Env, b: Store, seqs: seq<Seq>, j: nat)
    requires Core(e, b, seqs) && j < |seqs|
    ensures Unfinished(seqs[j]) && |seqs[j].table| <= Worst(seqs[j], e.BlockSize())
  {
    assert SeqCore(e, b, seqs[j]);
    hide Core, Owned, UsageExact;
    TokensWithinWorst(e, seqs[j], |seqs[j].tokens|);
  }

  /** While all worst cases fit, any sequence can be given the blocks for any tokens it has. */
  lemma RoomForAnyone(e: Env, b: Store, seqs: seq<Seq>, k: nat, target: nat)
    requires Core(e, b, seqs) && Fits(e, b, seqs) && k < |seqs| && target <= |seqs[k].tokens|
    ensures Missing(seqs[k].table, target, e.BlockSize()) <= |b.blocks| - |b.used|
  {
    forall j | 0 <= j < |seqs| ensures |seqs[j].table| <= Worst(seqs[j], e.BlockSize()) {
      WorstTable(e, b, seqs, j);
    }
    WorstTable(e, b, seqs, k);
    UsedAtMostTables(e, b, seqs);
    hide Core;
    TokensWithinWorst(e, seqs[k], target);
    RoomInSum(e, seqs, k, NumBlocks(target, e.BlockSize()));
  }

  /** Worst cases depend on the requests only. */
  lemma {:induction false} SameRequestsSameWorst(seqs: seq<Seq>, all: seq<Seq>, bs: nat)
    requires bs > 0 && |all| == |seqs| && forall j | 0 <= j < |seqs| :: all[j].req == seqs[j].req
    ensures SumWorst(all, bs) == SumWorst(seqs, bs)
  {
    if seqs != [] { SameRequestsSameWorst(seqs[1..], all[1..], bs); }
  }

  lemma {:induction false} WithoutWorst(seqs: seq<Seq>, k: nat, bs: nat)
    requires bs > 0 && k < |seqs|
    ensures SumWorst(Without(seqs, k), bs) + Worst(seqs[k], bs) == SumWorst(seqs, bs)
  {
    if k > 0 {
      WithoutWorst(seqs[1..], k - 1, bs);
      assert Without(seqs, k)[1..] == Without(seqs[1..], k - 1);
    } else {
      assert Without(seqs, k) == seqs[1..];
    }
  }

  /* ---------- Work left ---------- */

  /** Positions a request may still have to compute. */
  function Work(v: Seq): nat {
    Max(0, |v.req.prompt| + v.req.gen.maxTokens - v.numComputed)
  }

  ghost function SumWork(seqs: seq<Seq>): nat {
    if seqs == [] then 0 else Work(seqs[0]) + SumWork(seqs[1..])
  }

  lemma {:induction false} WorkMonotone(seqs: seq<Seq>, all: seq<Seq>)
    requires |all| == |seqs| && forall j | 0 <= j < |seqs| :: Work(all[j]) <= Work(seqs[j])
    ensures SumWork(all) <= SumWork(seqs)
    ensures (exists j :: 0 <= j < |seqs| && Work(all[j]) < Work(seqs[j])) ==> SumWork(all) < SumWork(seqs)
  {
    if seqs != [] {
      WorkMonotone(seqs[1..], all[1..]);
      if j :| 0 < j < |seqs| && Work(all[j]) < Work(seqs[j]) {
        assert all[1..][j - 1] == all[j] && seqs[1..][j - 1] == seqs[j];
      }
    }
  }

  lemma {:induction false} WithoutWork(seqs: seq<Seq>, k: nat)
    requires k < |seqs|
    ensures SumWork(Without(seqs, k)) + Work(seqs[k]) == SumWork(seqs)
  {
    if k > 0 {
      WithoutWork(seqs[1..], k - 1);
      assert Without(seqs, k)[1..] == Without(seqs[1..], k - 1);
    } else {
      assert Without(seqs, k) == seqs[1..];
    }
  }
}

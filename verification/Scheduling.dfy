/** What the scheduler's steps keep, stated on queues of sequence objects and their values. */
module Scheduling {
  import opened Arithmetic
  import opened Blocks
  import opened BlockClaims
  import opened BlockManagers
  import opened BlockSteps
  import opened Capacity
  import opened Hashing
  import opened LanguageModel
  import opened Policies
  import opened PrefixCache
  import opened Queues
  import opened Sequences
  import opened Stalls
  import opened WorldAdvance
  import opened WorldCommit
  import opened WorldOps
  import opened WorldRun
  import opened WorldSteps
  import opened Worlds
  import opened Wrappers

  /** seqs are different running sequences; idx says which of live they are. */
  ghost predicate Batch(live: seq<Sequence>, running: seq<Sequence>, seqs: seq<Sequence>, idx: seq<nat>) {
    && |idx| == |seqs| && NoDup(idx)
    && forall j | 0 <= j < |idx| :: idx[j] < |live| && live[idx[j]] == seqs[j] && seqs[j] in running
  }

  /** The candidates from i on are different running sequences that are to be prefilled. */
  ghost predicate Candidates(live: seq<Sequence>, running: seq<Sequence>, candidates: seq<Sequence>,
                             cand: seq<nat>, vs: seq<Seq>, i: nat) {
    && |vs| == |live| && |cand| == |candidates| && NoDup(cand) && NoDup(live)
    && (forall j | 0 <= j < |cand| :: cand[j] < |live| && live[cand[j]] == candidates[j] && candidates[j] in running)
    && (forall j | i <= j < |cand| :: Prefilling(vs[cand[j]]))
  }

  /** A batch of planned prefill chunks. */
  ghost predicate PrefillBatch(e: Env, live: seq<Sequence>, running: seq<Sequence>, vs: seq<Seq>,
                               seqs: seq<Sequence>, idx: seq<nat>) {
    && Batch(live, running, seqs, idx) && |vs| == |live|
    && forall j | 0 <= j < |idx| :: Prefilling(vs[idx[j]]) && Planned(e, vs[idx[j]])
  }

  lemma PrefillStart(e: Env, live: seq<Sequence>, running: seq<Sequence>, vs: seq<Seq>,
                     seqs: seq<Sequence>, idx: seq<nat>)
    requires |vs| == |live| && seqs == [] && idx == []
    ensures PrefillBatch(e, live, running, vs, seqs, idx) && SumChunks(vs, idx) == 0
    ensures AllKept(live, [], vs, vs)
  {
  }

  lemma CandidateAt(live: seq<Sequence>, running: seq<Sequence>, candidates: seq<Sequence>, cand: seq<nat>,
                    vs: seq<Seq>, i: nat) returns (k: nat)
    requires Candidates(live, running, candidates, cand, vs, i) && i < |candidates|
    ensures i < |cand| && k == cand[i] && k < |live| && live[k] == candidates[i] && Prefilling(vs[k])
    ensures |vs| == |live| && candidates[i] in running && live[k] in live && |cand| == |candidates|
  {
    k := cand[i];
  }

  lemma CandidateViews(live: seq<Sequence>, running: seq<Sequence>, candidates: seq<Sequence>, cand: seq<nat>,
                       vs: seq<Seq>, cs: seq<Seq>)
    requires Candidates(live, running, candidates, cand, vs, 0) && |cs| == |candidates|
    requires forall j | 0 <= j < |live| :: vs[j] == live[j].View()
    requires forall j | 0 <= j < |cs| :: cs[j] == candidates[j].View()
    ensures |cand| == |cs| && forall j | 0 <= j < |cs| :: cand[j] < |vs| && cs[j] == vs[cand[j]]
  {
  }

  /** One candidate has been dealt with: nothing else has changed. */
  lemma CandidateDone(e: Env, live: seq<Sequence>, running: seq<Sequence>, candidates: seq<Sequence>,
                      cand: seq<nat>, vs: seq<Seq>, us: seq<Seq>, i: nat, w: Seq,
                      seqs: seq<Sequence>, idx: seq<nat>)
    requires Candidates(live, running, candidates, cand, us, i) && i < |candidates|
    requires cand[i] < |us| && Forward(us[cand[i]], w) && Prefilling(w)
    requires AllKept(live, [], vs, us)
    requires PrefillBatch(e, live, running, us, seqs, idx)
    requires forall j | 0 <= j < |idx| :: idx[j] in cand[..i]
    ensures var ws := us[cand[i] := w];
            && AllKept(live, [], vs, ws)
            && Candidates(live, running, candidates, cand, ws, i + 1)
            && PrefillBatch(e, live, running, ws, seqs, idx)
            && SumChunks(ws, idx) == SumChunks(us, idx)
    ensures cand[i] !in idx
    ensures forall j | 0 <= j < |idx| :: idx[j] in cand[..i + 1]
    ensures cand[i] in cand[..i + 1]
  {
    var k := cand[i];
    ReplaceKept(live, [], us, k, w);
    KeptTrans(live, [], [], vs, us, us[k := w]);
    forall j | 0 <= j < i ensures cand[..i][j] != k { assert cand[j] != cand[i]; }
    assert cand[..i + 1] == cand[..i] + [k];
    if k in idx { var j := IndexIn(idx, k); }
    SumChunksSame(us, us[k := w], idx);
  }

  lemma {:induction false} SumChunksSame(vs: seq<Seq>, ws: seq<Seq>, idx: seq<nat>)
    requires |ws| == |vs| && forall j | 0 <= j < |idx| && idx[j] < |vs| :: ws[idx[j]] == vs[idx[j]]
    ensures SumChunks(ws, idx) == SumChunks(vs, idx)
    decreases |idx|
  {
    if idx != [] { SumChunksSame(vs, ws, idx[..|idx| - 1]); }
  }

  lemma TakeChunk(e: Env, live: seq<Sequence>, running: seq<Sequence>, vs: seq<Seq>,
                  seqs: seq<Sequence>, idx: seq<nat>, s: Sequence, k: nat)
    requires PrefillBatch(e, live, running, vs, seqs, idx) && k < |live| && live[k] == s && s in running
    requires k !in idx && Prefilling(vs[k]) && Planned(e, vs[k])
    ensures PrefillBatch(e, live, running, vs, seqs + [s], idx + [k])
    ensures SumChunks(vs, idx + [k]) == SumChunks(vs, idx) + vs[k].schedEnd - vs[k].schedStart
  {
    var all := idx + [k];
    assert all[..|all| - 1] == idx;
    forall j | 0 <= j < |idx| ensures idx[j] != k { assert idx[j] in idx; }
  }

  /** The state of a prefill pass that has dealt with the first i candidates. */
  ghost predicate PrefillSoFar(e: Env, live: seq<Sequence>, running: seq<Sequence>, candidates: seq<Sequence>,
                               cand: seq<nat>, vs: seq<Seq>, us: seq<Seq>, i: nat,
                               seqs: seq<Sequence>, idx: seq<nat>, batched: nat) {
    && AllKept(live, [], vs, us) && i <= |cand|
    && Candidates(live, running, candidates, cand, us, i)
    && PrefillBatch(e, live, running, us, seqs, idx)
    && (forall j | 0 <= j < |idx| :: idx[j] in cand[..i])
    && SumChunks(us, idx) == batched
  }

  lemma PrefillBegins(e: Env, live: seq<Sequence>, running: seq<Sequence>, candidates: seq<Sequence>,
                      cand: seq<nat>, vs: seq<Seq>)
    requires Candidates(live, running, candidates, cand, vs, 0)
    ensures PrefillSoFar(e, live, running, candidates, cand, vs, vs, 0, [], [], 0)
  {
    PrefillStart(e, live, running, vs, [], []);
  }

  lemma PrefillPasses(e: Env, live: seq<Sequence>, running: seq<Sequence>, candidates: seq<Sequence>,
                      cand: seq<nat>, vs: seq<Seq>, us: seq<Seq>, i: nat,
                      seqs: seq<Sequence>, idx: seq<nat>, batched: nat)
    requires PrefillSoFar(e, live, running, candidates, cand, vs, us, i, seqs, idx, batched)
    ensures AllKept(live, [], vs, us) && PrefillBatch(e, live, running, us, seqs, idx) && SumChunks(us, idx) == batched
    ensures i < |candidates| ==> Candidates(live, running, candidates, cand, us, i)
  {
  }

  /** One more candidate has been tried. */
  lemma CandidateTried(e: Env, live: seq<Sequence>, running: seq<Sequence>, candidates: seq<Sequence>,
                       cand: seq<nat>, vs: seq<Seq>, us: seq<Seq>, i: nat, w: Seq, r: PrefillTry,
                       seqs: seq<Sequence>, idx: seq<nat>, batched: nat)
    requires PrefillSoFar(e, live, running, candidates, cand, vs, us, i, seqs, idx, batched) && i < |candidates|
    requires cand[i] < |us| && Forward(us[cand[i]], w) && Prefilling(w)
    requires r.Scheduled? ==> Planned(e, w) && r.tokens == w.schedEnd - w.schedStart
    ensures var ws := us[cand[i] := w];
            && (r.Scheduled? ==> PrefillSoFar(e, live, running, candidates, cand, vs, ws, i + 1,
                                              seqs + [candidates[i]], idx + [cand[i]], batched + r.tokens))
            && (!r.Scheduled? ==> PrefillSoFar(e, live, running, candidates, cand, vs, ws, i + 1, seqs, idx, batched))
  {
    hide AllKept, Candidates, PrefillBatch, SumChunks, Forward, Planned, NoDup;
    var k := CandidateAt(live, running, candidates, cand, us, i);
    CandidateDone(e, live, running, candidates, cand, vs, us, i, w, seqs, idx);
    if r.Scheduled? { TakeChunk(e, live, running, us[k := w], seqs, idx, candidates[i], k); }
  }

  /** No chunk has more tokens than most. */
  ghost predicate ChunksAtMost(vs: seq<Seq>, idx: seq<nat>, most: nat) {
    forall j | 0 <= j < |idx| :: idx[j] < |vs| && vs[idx[j]].schedEnd - vs[idx[j]].schedStart <= most
  }

  lemma NoChunks(vs: seq<Seq>, most: nat)
    ensures ChunksAtMost(vs, [], most)
  {
  }

  lemma ChunksStill(e: Env, live: seq<Sequence>, running: seq<Sequence>, candidates: seq<Sequence>, cand: seq<nat>,
                    vs: seq<Seq>, us: seq<Seq>, i: nat, w: Seq, r: PrefillTry, seqs: seq<Sequence>, idx: seq<nat>,
                    batched: nat, most: nat)
    requires PrefillSoFar(e, live, running, candidates, cand, vs, us, i, seqs, idx, batched) && i < |cand|
    requires cand[i] < |us| && ChunksAtMost(us, idx, most)
    requires r.Scheduled? ==> w.schedEnd - w.schedStart == r.tokens <= most
    ensures ChunksAtMost(us[cand[i] := w], if r.Scheduled? then idx + [cand[i]] else idx, most)
  {
    hide PrefillSoFar;
    ChosenBefore(e, live, running, candidates, cand, vs, us, i, seqs, idx, batched);
  }

  /** A candidate that has not been tried has no chunk yet. */
  lemma ChosenBefore(e: Env, live: seq<Sequence>, running: seq<Sequence>, candidates: seq<Sequence>, cand: seq<nat>,
                     vs: seq<Seq>, us: seq<Seq>, i: nat, seqs: seq<Sequence>, idx: seq<nat>, batched: nat)
    requires PrefillSoFar(e, live, running, candidates, cand, vs, us, i, seqs, idx, batched) && i < |cand|
    ensures forall j | 0 <= j < |idx| :: idx[j] != cand[i]
  {
    hide AllKept, PrefillBatch, SumChunks;
    forall j | 0 <= j < |idx| ensures idx[j] != cand[i] {
      assert idx[j] in cand[..i];
      var x := IndexIn(cand[..i], idx[j]);
      assert cand[x] != cand[i];
    }
  }

  /** Tokens planned for these sequences together. */
  ghost function SumChunks(vs: seq<Seq>, idx: seq<nat>): int {
    if idx == [] then 0
    else SumChunks(vs, idx[..|idx| - 1])
         + if idx[|idx| - 1] < |vs| then vs[idx[|idx| - 1]].schedEnd - vs[idx[|idx| - 1]].schedStart else 0
  }

  /** What became of one prefill candidate. */
  datatype PrefillTry = NoRoom | LookupPassed | Scheduled(tokens: nat)

  /** v's next chunk is noted: it starts at the computed frontier, is not empty, and has blocks. */
  predicate Planned(e: Env, v: Seq) {
    && v.schedStart == v.numComputed && v.schedStart < v.schedEnd <= v.prefillTarget
    && v.schedEnd <= |v.table| * e.BlockSize()
  }

  /** The queues hold each unfinished sequence once. */
  ghost predicate Apart(live: seq<Sequence>, waiting: seq<Sequence>, running: seq<Sequence>) {
    && NoDup(live) && NoDup(waiting) && NoDup(running)
    && (forall s | s in live :: s in waiting || s in running)
    && (forall s | s in waiting :: s in live && s !in running)
    && (forall s | s in running :: s in live)
  }

  /** Each sequence has the status of its queue and is in a phase that status allows. */
  ghost predicate Ranked(live: seq<Sequence>, waiting: seq<Sequence>, vs: seq<Seq>) {
    && |vs| == |live|
    && forall j | 0 <= j < |live| ::
         Phase(vs[j]) && vs[j].status == if live[j] in waiting then WAITING else RUNNING
  }

  /** Same request, same tokens, same queue; nothing computed is lost. */
  predicate Forward(v: Seq, w: Seq) {
    && w.req == v.req && w.tokens == v.tokens && w.prefillTarget == v.prefillTarget
    && w.status == v.status && w.numComputed >= v.numComputed
  }

  /** Like Forward, for a sequence that may change queues. */
  predicate Kept(v: Seq, w: Seq) {
    && w.req == v.req && w.tokens == v.tokens && w.prefillTarget == v.prefillTarget
    && w.numComputed >= v.numComputed && w.PromptReady() == v.PromptReady()
  }

  /** All sequences are kept, and those in runs are not touched at all. */
  ghost predicate AllKept(live: seq<Sequence>, runs: seq<Sequence>, vs: seq<Seq>, ws: seq<Seq>) {
    && |ws| == |vs| == |live|
    && (forall j | 0 <= j < |vs| :: Kept(vs[j], ws[j]))
    && (forall j | 0 <= j < |live| && live[j] in runs :: ws[j] == vs[j])
  }

  lemma KeptAll(live: seq<Sequence>, runs: seq<Sequence>, vs: seq<Seq>)
    requires |vs| == |live|
    ensures AllKept(live, runs, vs, vs)
  {
  }

  lemma KeptTrans(live: seq<Sequence>, runs: seq<Sequence>, more: seq<Sequence>, vs: seq<Seq>, us: seq<Seq>, ws: seq<Seq>)
    requires AllKept(live, runs, vs, us) && AllKept(live, more, us, ws) && runs <= more
    ensures AllKept(live, runs, vs, ws)
  {
    forall j | 0 <= j < |live| && live[j] in runs ensures live[j] in more {
      var i := IndexIn(runs, live[j]);
      assert more[i] == live[j];
    }
    forall j | 0 <= j < |vs| ensures Kept(vs[j], ws[j]) {
      assert Kept(vs[j], us[j]) && Kept(us[j], ws[j]);
    }
  }

  lemma ReplaceKept(live: seq<Sequence>, runs: seq<Sequence>, vs: seq<Seq>, k: nat, w: Seq)
    requires |vs| == |live| && k < |live| && live[k] !in runs && Kept(vs[k], w) && NoDup(live)
    ensures AllKept(live, runs, vs, vs[k := w])
  {
  }

  lemma KeptFits(e: Env, b: Store, b': Store, live: seq<Sequence>, runs: seq<Sequence>, vs: seq<Seq>, ws: seq<Seq>)
    requires AllKept(live, runs, vs, ws) && |b'.blocks| == |b.blocks|
    ensures Fits(e, b, vs) ==> Fits(e, b', ws)
  {
    if e.BlockSize() > 0 {
      forall j | 0 <= j < |vs| ensures ws[j].req == vs[j].req { assert Kept(vs[j], ws[j]); }
      SameRequestsSameWorst(vs, ws, e.BlockSize());
    }
  }

  lemma SameFits(e: Env, b: Store, b': Store, vs: seq<Seq>)
    requires |b'.blocks| == |b.blocks|
    ensures Fits(e, b, vs) == Fits(e, b', vs)
  {
  }

  lemma NoReadyNoReserve(live: seq<Sequence>, waiting: seq<Sequence>, running: seq<Sequence>, vs: seq<Seq>)
    requires Apart(live, waiting, running) && |vs| == |live|
    requires forall j | 0 <= j < |live| :: vs[j] == live[j].View()
    ensures (exists s | s in running :: s.View().PromptReady()) ==> AnyReady(vs)
  {
    if s :| s in running && s.View().PromptReady() {
      var j := IndexIn(live, s);
      assert vs[j].PromptReady();
    }
  }

  ghost predicate AnyReady(vs: seq<Seq>) {
    exists j :: 0 <= j < |vs| && vs[j].PromptReady()
  }

  lemma HeadIndex(live: seq<Sequence>, waiting: seq<Sequence>, running: seq<Sequence>, vs: seq<Seq>) returns (k: nat)
    requires Apart(live, waiting, running) && Ranked(live, waiting, vs) && waiting != []
    ensures k < |live| && live[k] == waiting[0] && Prefilling(vs[k]) && live[k] !in running
  {
    assert waiting[0] in waiting;
    k := IndexIn(live, waiting[0]);
  }

  lemma Differ(live: seq<Sequence>, waiting: seq<Sequence>, running: seq<Sequence>, k: nat)
    requires Apart(live, waiting, running) && k < |live|
    ensures forall j | 0 <= j < |live| && j != k :: live[j] != live[k]
  {
  }

  lemma RankedPlan(live: seq<Sequence>, waiting: seq<Sequence>, vs: seq<Seq>, k: nat, target: nat)
    requires Ranked(live, waiting, vs) && k < |live|
    ensures Ranked(live, waiting, vs[k := vs[k].(schedStart := vs[k].numComputed, schedEnd := target)])
  {
  }

  lemma Enqueued(live: seq<Sequence>, waiting: seq<Sequence>, running: seq<Sequence>, vs: seq<Seq>, s: Sequence)
    requires Apart(live, waiting, running) && Ranked(live, waiting, vs)
    requires s !in live && s.req.prompt != [] && s.View() == NewSeq(s.req)
    ensures Apart(live + [s], waiting + [s], running)
    ensures Ranked(live + [s], waiting + [s], vs + [s.View()])
  {
  }

  lemma Admitted(live: seq<Sequence>, waiting: seq<Sequence>, running: seq<Sequence>, vs: seq<Seq>, k: nat)
    requires Apart(live, waiting, running) && Ranked(live, waiting, vs) && k < |live|
    requires waiting != [] && waiting[0] == live[k] && Prefilling(vs[k])
    ensures Apart(live, waiting[1..], running + [live[k]])
    ensures Ranked(live, waiting[1..], vs[k := vs[k].(status := RUNNING)])
  {
    var rest := waiting[1..];
    assert waiting == [waiting[0]] + rest;
    assert live[k] in waiting && live[k] !in running;
    forall j | 0 <= j < |running| ensures running[j] != live[k] { assert running[j] in running; }
    forall j | 0 <= j < |rest| ensures rest[j] != live[k] { assert waiting[j + 1] == rest[j]; }
    forall j | 0 <= j < |live| ensures live[j] in waiting && j != k ==> live[j] in rest { }
  }

  lemma RankedRestart(live: seq<Sequence>, waiting: seq<Sequence>, running: seq<Sequence>, vs: seq<Seq>, k: nat)
    requires Apart(live, waiting, running) && Ranked(live, waiting, vs) && k < |live|
    requires live[k] in running && vs[k].tokens != []
    ensures Ranked(live, [live[k]] + waiting, vs[k := Restarted(vs[k])])
  {
  }

  lemma RankedPrefilling(live: seq<Sequence>, waiting: seq<Sequence>, vs: seq<Seq>, k: nat, w: Seq)
    requires Ranked(live, waiting, vs) && k < |live| && Prefilling(w) && w.status == vs[k].status
    ensures Ranked(live, waiting, vs[k := w])
  {
  }

  /** Moving s from the running to the waiting queue keeps them in order. */
  lemma Parked(live: seq<Sequence>, waiting: seq<Sequence>, running: seq<Sequence>, s: Sequence)
    requires Apart(live, waiting, running) && s in running
    ensures s in live && Apart(live, [s] + waiting, Remove(running, s))
  {
    RemoveKeeps(running, s);
    forall j | 0 <= j < |waiting| ensures waiting[j] != s { assert waiting[j] in waiting; }
  }

  lemma MatchedForward(b: Store, mid: Store, b': Store, c: CacheConfig, h: Hasher, v: Seq, w: Seq, now: real)
    requires c.blockSize > 0 && MatchedTo(b, mid, b', c, h, v, w, now)
    ensures Forward(v, w) && |b'.blocks| == |b.blocks|
    ensures !MatchApplies(c, v) ==> w == v
  {
    hide Hit, HitBlock, MatchCount, Valid, Selected;
  }

  /** Nothing changed but that somebody may run now. */
  predicate AdmittedAsIs(vs: seq<Seq>, ws: seq<Seq>) {
    |ws| == |vs| && forall j | 0 <= j < |vs| :: ws[j] == vs[j].(status := ws[j].status)
  }

  lemma AsIs(vs: seq<Seq>)
    ensures AdmittedAsIs(vs, vs)
  {
  }

  lemma AsIsAgain(vs: seq<Seq>, us: seq<Seq>, ws: seq<Seq>)
    ensures AdmittedAsIs(vs, us) && AdmittedAsIs(us, ws) ==> AdmittedAsIs(vs, ws)
  {
  }

  /** A sequence without blocks has read and created nothing. */
  lemma NothingRead(e: Env, b: Store, mem: seq<KV>, vs: seq<Seq>, k: nat)
    requires Inv(e, b, mem, vs) && k < |vs|
    ensures vs[k].table == [] ==> vs[k].cacheRead == 0 && vs[k].cacheCreated == 0
  {
    CoreAt(e, b, vs, k);
  }

  lemma PurgedUsed(b: Store, b': Store, gone: set<nat>)
    requires PurgedTo(b, b', gone)
    ensures b'.used == b.used && |b'.blocks| == |b.blocks|
  {
  }

  lemma UsedAtMostAll(b: Store, bs: nat)
    requires Valid(b, bs)
    ensures |b.used| <= |b.blocks|
  {
    PartitionCount(b);
  }

  lemma RoomFits(e: Env, b: Store, mem: seq<KV>, vs: seq<Seq>, live: seq<Sequence>, s: Sequence, target: nat)
    requires Inv(e, b, mem, vs) && |vs| == |live| && forall j | 0 <= j < |live| :: vs[j] == live[j].View()
    ensures e.BlockSize() > 0
    ensures Fits(e, b, vs) && s in live && target <= |s.tokenIds| ==>
              Missing(s.blockTable, target, e.BlockSize()) <= |b.blocks| - |b.used|
  {
    hide Core, Truth, NumBlocks;
    CorePrompts(e, b, vs);
    if Fits(e, b, vs) && s in live && target <= |s.tokenIds| {
      var k := IndexIn(live, s);
      RoomForAnyone(e, b, vs, k, target);
    }
  }

  /** Lookup and allocation together keep everything. */
  lemma PrepareInv(e: Env, b: Store, mid: Store, m: Store, b': Store, mem: seq<KV>, vs: seq<Seq>, k: nat,
                   found: Seq, w: Seq, taken: seq<nat>, target: nat, now: real, ok: bool)
    requires Inv(e, b, mem, vs) && k < |vs| && Prefilling(vs[k]) && target <= vs[k].prefillTarget
    requires e.BlockSize() > 0 && MatchedTo(b, mid, m, e.cache, e.hasher, vs[k], found, now)
    requires Valid(b', e.BlockSize()) && WithinQuotas(b', e.cache)
    requires ok ==> && AllocatedTo(m, b', taken, Expired(m, now))
                    && |taken| == Missing(found.table, target, e.BlockSize())
                    && w == found.(table := found.table + taken)
    requires !ok ==> b' == m && w == found
    ensures Inv(e, b', mem, vs[k := w]) && |b'.blocks| == |b.blocks|
    ensures Prefilling(w) && Forward(vs[k], w) && w.numComputed == found.numComputed
    ensures ok ==> target <= |w.table| * e.BlockSize()
    ensures !MatchApplies(e.cache, vs[k]) ==> w.numComputed == vs[k].numComputed
  {
    MatchInv(e, b, mid, m, mem, vs, k, found, now);
    MatchedForward(b, mid, m, e.cache, e.hasher, vs[k], found, now);
    hide Inv, AllocatedTo, MatchedTo, Valid, WithinQuotas, NumBlocks;
    if ok {
      GrowInv(e, m, b', mem, vs[k := found], k, target, taken, now);
      assert vs[k := found][k := w] == vs[k := w];
    }
  }

  /** Claiming the blocks that target tokens need keeps everything, and then they are covered. */
  lemma GrowInv(e: Env, b: Store, b': Store, mem: seq<KV>, vs: seq<Seq>, k: nat, target: nat,
                taken: seq<nat>, now: real)
    requires Inv(e, b, mem, vs) && k < |vs| && target <= |vs[k].tokens| && e.BlockSize() > 0
    requires AllocatedTo(b, b', taken, Expired(b, now))
    requires |taken| == Missing(vs[k].table, target, e.BlockSize())
    requires Valid(b', e.BlockSize()) && WithinQuotas(b', e.cache)
    ensures Inv(e, b', mem, vs[k := vs[k].(table := vs[k].table + taken)])
    ensures target <= |vs[k].table + taken| * e.BlockSize() && |b'.blocks| == |b.blocks|
  {
    InvAt(e, b, mem, vs, k);
    NumBlocksMonotone(target, |vs[k].tokens|, e.BlockSize());
    NumBlocksLeast(target, |vs[k].table + taken|, e.BlockSize());
    TakenCount(b, b', taken, Expired(b, now));
    hide Inv, AllocatedTo, Valid, WithinQuotas, NumBlocks;
    AllocInv(e, b, b', mem, vs, k, vs[k].(table := vs[k].table + taken), taken, Expired(b, now));
  }

  lemma PlanInv(e: Env, b: Store, mem: seq<KV>, vs: seq<Seq>, k: nat, target: nat)
    requires Inv(e, b, mem, vs) && k < |vs|
    ensures Inv(e, b, mem, vs[k := vs[k].(schedStart := vs[k].numComputed, schedEnd := target)])
  {
    var v := vs[k];
    InvAt(e, b, mem, vs, k);
    assert CollisionFree(e) ==> SeqHolds(e, mem, v, v.numComputed) by {
      if CollisionFree(e) { assert SeqTrue(e, mem, v); }
    }
    hide Inv;
    ComputedInv(e, b, mem, vs, k, v.(schedStart := v.numComputed, schedEnd := target), v.numComputed);
  }

  lemma StatusInv(e: Env, b: Store, mem: seq<KV>, vs: seq<Seq>, k: nat, status: Status)
    requires Inv(e, b, mem, vs) && k < |vs|
    ensures Inv(e, b, mem, vs[k := vs[k].(status := status)])
  {
    var v, w := vs[k], vs[k].(status := status);
    CoreAt(e, b, vs, k);
    SameUsage(b, v, w, |v.table|, e.BlockSize());
    assert SeqCore(e, b, w);
    assert SeqTrue(e, mem, v) ==> SeqTrue(e, mem, w);
    hide *;
    ViewInv(e, b, mem, vs, k, w);
  }

  /* ---------- Decode ---------- */

  /** Only a table has changed. */
  lemma RankedTable(live: seq<Sequence>, waiting: seq<Sequence>, vs: seq<Seq>, k: nat, w: Seq)
    requires Ranked(live, waiting, vs) && k < |live| && w == vs[k].(table := w.table)
    ensures Ranked(live, waiting, vs[k := w])
  {
  }

  /** A batch of sequences that can all take their next token. */
  ghost predicate DecodeBatch(e: Env, live: seq<Sequence>, running: seq<Sequence>, vs: seq<Seq>,
                              seqs: seq<Sequence>, idx: seq<nat>) {
    && Batch(live, running, seqs, idx) && |vs| == |live|
    && forall j | 0 <= j < |idx| ::
         vs[idx[j]].PromptReady() && |vs[idx[j]].tokens| <= |vs[idx[j]].table| * e.BlockSize()
  }

  /** No sequence has lost or gained a token, and none has become ready to decode. */
  ghost predicate AllHeld(vs: seq<Seq>, ws: seq<Seq>) {
    |ws| == |vs| && forall j | 0 <= j < |vs| ::
      && ws[j].req == vs[j].req && ws[j].tokens == vs[j].tokens && (ws[j].PromptReady() ==> vs[j].PromptReady())
  }

  lemma HeldSame(vs: seq<Seq>)
    ensures AllHeld(vs, vs)
  {
  }

  /** Waiting sequences hold no blocks. */
  ghost predicate WaitingIdle(live: seq<Sequence>, waiting: seq<Sequence>, vs: seq<Seq>) {
    |vs| == |live| && forall j | 0 <= j < |live| && live[j] in waiting :: vs[j].table == []
  }

  lemma {:induction false} OneTable(vs: seq<Seq>, k: nat)
    requires k < |vs| && forall j | 0 <= j < |vs| && j != k :: vs[j].table == []
    ensures SumTables(vs) == |vs[k].table|
  {
    if k > 0 {
      OneTable(vs[1..], k - 1);
    } else {
      NoTables(vs[1..]);
    }
  }

  lemma {:induction false} NoTables(vs: seq<Seq>)
    requires forall j | 0 <= j < |vs| :: vs[j].table == []
    ensures SumTables(vs) == 0
  {
    if vs != [] { NoTables(vs[1..]); }
  }

  lemma UsedWithinTables(e: Env, b: Store, mem: seq<KV>, vs: seq<Seq>)
    requires Inv(e, b, mem, vs)
    ensures |b.used| <= SumTables(vs)
  {
    UsedAtMostTables(e, b, vs);
  }

  lemma TakeDecode(e: Env, live: seq<Sequence>, running: seq<Sequence>, vs: seq<Seq>,
                   seqs: seq<Sequence>, idx: seq<nat>, s: Sequence, k: nat, w: Seq)
    requires DecodeBatch(e, live, running, vs, seqs, idx) && k < |live| && live[k] == s && s in running
    requires s !in seqs && NoDup(live) && vs[k].PromptReady() && w == vs[k].(table := w.table)
    requires |w.tokens| <= |w.table| * e.BlockSize()
    ensures DecodeBatch(e, live, running, vs[k := w], seqs + [s], idx + [k])
  {
    forall j | 0 <= j < |idx| ensures idx[j] != k { assert seqs[j] in seqs; }
  }

  lemma HeldReplace(vs: seq<Seq>, us: seq<Seq>, k: nat, w: Seq)
    requires AllHeld(vs, us) && k < |us| && w == us[k].(table := w.table)
    ensures AllHeld(vs, us[k := w])
  {
  }

  lemma HeldTrans(vs: seq<Seq>, us: seq<Seq>, ws: seq<Seq>)
    requires AllHeld(vs, us) && AllHeld(us, ws)
    ensures AllHeld(vs, ws)
  {
  }

  lemma TableKept(live: seq<Sequence>, vs: seq<Seq>, k: nat, w: Seq)
    requires |vs| == |live| && k < |vs| && w == vs[k].(table := w.table)
    ensures AllKept(live, [], vs, vs[k := w])
  {
  }

  /** The sequences of xs that may be preempted for s: all but s and the scheduled ones. */
  function Preemptible(xs: seq<Sequence>, s: Sequence, scheduled: seq<Sequence>): seq<Sequence> {
    if xs == [] then []
    else
      var last := xs[|xs| - 1];
      Preemptible(xs[..|xs| - 1], s, scheduled) + if last != s && last !in scheduled then [last] else []
  }

  lemma {:induction false} PreemptibleIn(xs: seq<Sequence>, s: Sequence, scheduled: seq<Sequence>)
    ensures forall j | 0 <= j < |Preemptible(xs, s, scheduled)| ::
              var x := Preemptible(xs, s, scheduled)[j]; x in xs && x != s && x !in scheduled
    ensures forall x | x in xs && x != s && x !in scheduled :: x in Preemptible(xs, s, scheduled)
  {
    if xs != [] { PreemptibleIn(xs[..|xs| - 1], s, scheduled); }
  }

  /** Without the last of them, the others may still be preempted, in the same order. */
  lemma {:induction false} WithoutVictim(xs: seq<Sequence>, s: Sequence, scheduled: seq<Sequence>)
    requires NoDup(xs) && Preemptible(xs, s, scheduled) != []
    ensures var p := Preemptible(xs, s, scheduled);
            p[|p| - 1] in xs && Preemptible(Remove(xs, p[|p| - 1]), s, scheduled) == p[..|p| - 1]
  {
    var n := |xs| - 1;
    var last, p := xs[n], Preemptible(xs, s, scheduled);
    if last != s && last !in scheduled {
      RemoveAt(xs, n);
      assert xs[..n] + xs[n + 1..] == xs[..n];
    } else {
      WithoutVictim(xs[..n], s, scheduled);
      RemoveInFront(xs[..n], [last], p[|p| - 1]);
      assert xs[..n] + [last] == xs;
      var rest := Remove(xs[..n], p[|p| - 1]);
      assert (rest + [last])[..|rest|] == rest;
    }
  }

  /** Of the sequences in all, those from spared on have been preempted for s: they wait, in their
      old order, in front of what waited before. */
  ghost predicate Preempted(all: seq<Sequence>, spared: nat, s: Sequence, scheduled: seq<Sequence>,
                            running: seq<Sequence>, was: seq<Sequence>, waiting: seq<Sequence>) {
    spared <= |all| && Preemptible(running, s, scheduled) == all[..spared] && waiting == all[spared..] + was
  }

  /** What has become of the queues when s can grow, or is preempted too. */
  ghost predicate MadeRoom(all: seq<Sequence>, spared: nat, s: Sequence, scheduled: seq<Sequence>, ok: bool,
                           running: seq<Sequence>, was: seq<Sequence>, waiting: seq<Sequence>) {
    && spared <= |all|
    && (ok ==> Preemptible(running, s, scheduled) == all[..spared] && waiting == all[spared..] + was)
    && (!ok ==> spared == 0 && waiting == [s] + all + was)
  }

  lemma RoomMade(all: seq<Sequence>, spared: nat, s: Sequence, scheduled: seq<Sequence>,
                 running: seq<Sequence>, was: seq<Sequence>, waiting: seq<Sequence>)
    requires Preempted(all, spared, s, scheduled, running, was, waiting)
    ensures MadeRoom(all, spared, s, scheduled, true, running, was, waiting) && spared <= |all|
    ensures spared == 0 ==> forall rest :: MadeRoom(all, 0, s, scheduled, false, rest, was, [s] + waiting)
  {
    if spared == 0 {
      assert all[spared..] == all;
      assert [s] + (all + was) == [s] + all + was;
    }
  }

  /** The victim is the last sequence spared so far. */
  lemma VictimIs(all: seq<Sequence>, spared: nat, s: Sequence, scheduled: seq<Sequence>,
                 running: seq<Sequence>, was: seq<Sequence>, waiting: seq<Sequence>)
    requires Preempted(all, spared, s, scheduled, running, was, waiting)
    ensures var p := Preemptible(running, s, scheduled);
            && spared <= |all| && (p == [] <==> spared == 0) && (p != [] ==> p[|p| - 1] == all[spared - 1])
  {
  }

  lemma NonePreempted(s: Sequence, scheduled: seq<Sequence>, running: seq<Sequence>, waiting: seq<Sequence>)
    ensures var all := Preemptible(running, s, scheduled);
            Preempted(all, |all|, s, scheduled, running, waiting, waiting)
  {
  }

  /** The next victim is the last of those that are left. */
  lemma NextPreempted(all: seq<Sequence>, spared: nat, s: Sequence, scheduled: seq<Sequence>,
                      running: seq<Sequence>, was: seq<Sequence>, waiting: seq<Sequence>)
    requires NoDup(running) && Preempted(all, spared, s, scheduled, running, was, waiting) && spared > 0
    ensures all[spared - 1] in running && all[spared - 1] != s && all[spared - 1] !in scheduled
    ensures Preempted(all, spared - 1, s, scheduled, Remove(running, all[spared - 1]), was, [all[spared - 1]] + waiting)
  {
    WithoutVictim(running, s, scheduled);
    PreemptibleIn(running, s, scheduled);
    assert all[..spared][..spared - 1] == all[..spared - 1];
    assert all[spared - 1..] == [all[spared - 1]] + all[spared..];
  }

  /** The pool can hold each sequence that is ready to decode, on its own. */
  ghost predicate LengthsFit(e: Env, b: Store, vs: seq<Seq>) {
    e.BlockSize() > 0 && forall j | 0 <= j < |vs| && vs[j].PromptReady() ::
      NumBlocks(|vs[j].tokens|, e.BlockSize()) <= |b.blocks|
  }

  lemma FitLength(e: Env, b: Store, vs: seq<Seq>, k: nat)
    requires LengthsFit(e, b, vs) && k < |vs| && vs[k].PromptReady()
    ensures e.BlockSize() > 0 && NumBlocks(|vs[k].tokens|, e.BlockSize()) <= |b.blocks|
  {
  }

  /** The same sequences in some order. */
  ghost predicate Shuffled(xs: seq<Sequence>, ys: seq<Sequence>) {
    && |ys| == |xs| && NoDup(ys)
    && (forall j | 0 <= j < |xs| :: xs[j] in ys)
    && (forall j | 0 <= j < |ys| :: ys[j] in xs)
  }

  /** Moving one sequence to the end. */
  lemma MovedToEnd(was: seq<Sequence>, xs: seq<Sequence>, s: Sequence)
    requires Shuffled(was, xs) && s in xs
    ensures Shuffled(was, Remove(xs, s) + [s])
  {
    RemoveKeeps(xs, s);
    var rest, ys := Remove(xs, s), Remove(xs, s) + [s];
    forall j | 0 <= j < |was| ensures was[j] in ys {
      var i := IndexIn(xs, was[j]);
      if xs[i] != s { assert xs[i] in rest; }
    }
    forall j | 0 <= j < |ys| ensures ys[j] in was {
      if j < |rest| { assert ys[j] == rest[j] && rest[j] in xs; }
      var i := IndexIn(xs, ys[j]);
    }
  }

  lemma {:induction false} RemoveInFront<T>(a: seq<T>, b: seq<T>, x: T)
    requires x in a
    ensures Remove(a + b, x) == Remove(a, x) + b
  {
    if a[0] == x {
      assert (a + b)[1..] == a[1..] + b;
    } else {
      assert a == [a[0]] + a[1..];
      assert (a + b)[1..] == a[1..] + b;
      RemoveInFront(a[1..], b, x);
    }
  }

  lemma {:induction false} RemoveSpares(xs: seq<Sequence>, seqs: seq<Sequence>, i: nat)
    requires NoDup(seqs) && i < |seqs| && forall j | i <= j < |seqs| :: seqs[j] in xs
    ensures forall j | i < j < |seqs| :: seqs[j] in Remove(xs, seqs[i])
  {
    forall j | i < j < |seqs| ensures seqs[j] in Remove(xs, seqs[i]) {
      RemoveOther(xs, seqs[i], seqs[j]);
    }
  }

  lemma {:induction false} RemoveOther<T>(xs: seq<T>, x: T, y: T)
    requires y in xs && y != x
    ensures y in Remove(xs, x)
  {
    if xs[0] != x && xs[0] != y { RemoveOther(xs[1..], x, y); }
  }

  lemma BatchDistinct(live: seq<Sequence>, running: seq<Sequence>, seqs: seq<Sequence>, idx: seq<nat>)
    requires Batch(live, running, seqs, idx) && NoDup(live) && NoDup(running)
    ensures NoDup(seqs) && Shuffled(running, running) && forall j | 0 <= j < |seqs| :: seqs[j] in running
  {
  }

  lemma ShuffledQueues(live: seq<Sequence>, waiting: seq<Sequence>, was: seq<Sequence>, running: seq<Sequence>,
                       seqs: seq<Sequence>, idx: seq<nat>)
    requires Apart(live, waiting, was) && Batch(live, was, seqs, idx) && Shuffled(was, running)
    ensures Apart(live, waiting, running) && Batch(live, running, seqs, idx) && |running| == |was|
  {
    forall s | s in was ensures s in running { var j := IndexIn(was, s); }
    forall s | s in running ensures s in was { var j := IndexIn(running, s); }
  }

  /** Of the sequences in among, every one that is ready to decode is scheduled. */
  ghost predicate ReadyScheduled(live: seq<Sequence>, vs: seq<Seq>, among: seq<Sequence>, seqs: seq<Sequence>) {
    |vs| == |live| && forall j | 0 <= j < |live| && live[j] in among && vs[j].PromptReady() :: live[j] in seqs
  }

  /** The state of a decode pass that has dealt with the first i sequences of the snapshot. */
  ghost predicate DecodeSoFar(e: Env, live: seq<Sequence>, running: seq<Sequence>, vs: seq<Seq>, us: seq<Seq>,
                              snapshot: seq<Sequence>, i: nat, seqs: seq<Sequence>, idx: seq<nat>) {
    && NoDup(live) && NoDup(snapshot) && i <= |snapshot| && AllHeld(vs, us)
    && (forall j | 0 <= j < |snapshot| :: snapshot[j] in live)
    && ReadyScheduled(live, vs, live, snapshot)
    && DecodeBatch(e, live, running, us, seqs, idx)
    && (forall j | 0 <= j < |seqs| :: seqs[j] in snapshot[..i])
    && ReadyScheduled(live, us, snapshot[..i], seqs)
  }

  lemma SnapshotLive(e: Env, live: seq<Sequence>, running: seq<Sequence>, vs: seq<Seq>, us: seq<Seq>,
                     snapshot: seq<Sequence>, i: nat, seqs: seq<Sequence>, idx: seq<nat>)
    requires DecodeSoFar(e, live, running, vs, us, snapshot, i, seqs, idx) && i < |snapshot|
    ensures snapshot[i] in live
  {
    hide DecodeBatch, ReadyScheduled, AllHeld;
  }

  lemma NotYet(e: Env, live: seq<Sequence>, running: seq<Sequence>, vs: seq<Seq>, us: seq<Seq>,
               snapshot: seq<Sequence>, i: nat, seqs: seq<Sequence>, idx: seq<nat>)
    requires DecodeSoFar(e, live, running, vs, us, snapshot, i, seqs, idx) && i < |snapshot|
    ensures snapshot[i] !in seqs && snapshot[i] in live && DecodeBatch(e, live, running, us, seqs, idx)
  {
    hide DecodeBatch, ReadyScheduled, AllHeld;
  }

  lemma Tried(e: Env, live: seq<Sequence>, running: seq<Sequence>, vs: seq<Seq>, us: seq<Seq>, ws: seq<Seq>,
              snapshot: seq<Sequence>, i: nat, seqs: seq<Sequence>, idx: seq<nat>, k: nat, ok: bool)
    requires exists runs :: DecodeSoFar(e, live, runs, vs, us, snapshot, i, seqs, idx)
    requires i < |snapshot| && k < |live| && live[k] == snapshot[i] && AllHeld(us, ws)
    requires ok ==> DecodeBatch(e, live, running, ws, seqs + [snapshot[i]], idx + [k])
    requires !ok ==> DecodeBatch(e, live, running, ws, seqs, idx) && !ws[k].PromptReady()
    ensures ok ==> DecodeSoFar(e, live, running, vs, ws, snapshot, i + 1, seqs + [snapshot[i]], idx + [k])
    ensures !ok ==> DecodeSoFar(e, live, running, vs, ws, snapshot, i + 1, seqs, idx)
  {
    hide DecodeBatch;
    assert snapshot[..i + 1] == snapshot[..i] + [snapshot[i]];
  }

  lemma Skipped(e: Env, live: seq<Sequence>, running: seq<Sequence>, vs: seq<Seq>, us: seq<Seq>,
                snapshot: seq<Sequence>, i: nat, seqs: seq<Sequence>, idx: seq<nat>)
    requires DecodeSoFar(e, live, running, vs, us, snapshot, i, seqs, idx) && i < |snapshot|
    requires forall j | 0 <= j < |live| && live[j] == snapshot[i] :: !us[j].PromptReady()
    ensures DecodeSoFar(e, live, running, vs, us, snapshot, i + 1, seqs, idx)
  {
    hide DecodeBatch;
    assert snapshot[..i + 1] == snapshot[..i] + [snapshot[i]];
  }

  lemma SnapshotDone(e: Env, live: seq<Sequence>, running: seq<Sequence>, vs: seq<Seq>, us: seq<Seq>,
                   snapshot: seq<Sequence>, i: nat, seqs: seq<Sequence>, idx: seq<nat>)
    requires DecodeSoFar(e, live, running, vs, us, snapshot, i, seqs, idx)
    ensures DecodeBatch(e, live, running, us, seqs, idx) && AllHeld(vs, us)
    ensures i == |snapshot| ==> ReadyScheduled(live, us, live, seqs)
  {
    hide DecodeBatch;
    assert snapshot[..|snapshot|] == snapshot;
  }

  /* ---------- The order of the waiting queue ---------- */

  const STARVATION_LIMIT: nat := 8

  function AgeOf(ages: map<string, nat>, id: string): nat {
    if id in ages then ages[id] else 0
  }

  /** No age has grown: each is what it was, or begins anew. */
  ghost predicate NoneOlder(was: map<string, nat>, now: map<string, nat>) {
    forall id :: AgeOf(now, id) == AgeOf(was, id) || AgeOf(now, id) == 0
  }

  lemma NoneOlderAgain(was: map<string, nat>, mid: map<string, nat>, now: map<string, nat>)
    requires NoneOlder(was, mid) && NoneOlder(mid, now)
    ensures NoneOlder(was, now)
  {
  }

  lemma NoneOlderSame(ages: map<string, nat>)
    ensures NoneOlder(ages, ages)
  {
  }

  ghost function IdsOf(xs: seq<Sequence>): set<string> {
    set s | s in xs :: s.req.requestId
  }

  /** These ids have no age any more; all other ages are what they were. */
  ghost predicate AgedBut(was: map<string, nat>, now: map<string, nat>, gone: set<string>) {
    forall id :: AgeOf(now, id) == if id in gone then 0 else AgeOf(was, id)
  }

  lemma AgedSame(ages: map<string, nat>)
    ensures AgedBut(ages, ages, IdsOf([]))
  {
  }

  lemma AgedOneMore(was: map<string, nat>, ages: map<string, nat>, xs: seq<Sequence>, s: Sequence)
    requires AgedBut(was, ages, IdsOf(xs))
    ensures AgedBut(was, ages - {s.req.requestId}, IdsOf(xs + [s]))
  {
    assert IdsOf(xs + [s]) == IdsOf(xs) + {s.req.requestId};
  }

  lemma AgedNoneOlder(was: map<string, nat>, now: map<string, nat>, gone: set<string>)
    requires AgedBut(was, now, gone)
    ensures NoneOlder(was, now)
  {
  }

  /** Ages after a step in which those at the end of mid were admitted: runs and waits are the queues
      before it, and running holds the same as mid. */
  lemma AdmittedAges(live: seq<Sequence>, was: map<string, nat>, now: map<string, nat>, waits: seq<Sequence>,
                     runs: seq<Sequence>, mid: seq<Sequence>, running: seq<Sequence>)
    requires runs <= mid && AgedBut(was, now, IdsOf(mid[|runs|..])) && NoDup(mid)
    requires Apart(live, waits, runs) && forall s | s in mid :: s in runs || s in waits
    requires forall s :: s in running <==> s in mid
    ensures AgedBut(was, now, set s | s in running && s in waits :: s.req.requestId)
  {
    hide AgedBut;
    var more := mid[|runs|..];
    assert mid == runs + more;
    assert forall s :: s in more <==> s in running && s in waits;
    assert IdsOf(more) == set s | s in running && s in waits :: s.req.requestId;
  }

  lemma ReshuffledAges(was: map<string, nat>, now: map<string, nat>, waits: seq<Sequence>, mid: seq<Sequence>,
                       running: seq<Sequence>)
    requires AgedBut(was, now, set s | s in mid && s in waits :: s.req.requestId) && Shuffled(mid, running)
    ensures AgedBut(was, now, set s | s in running && s in waits :: s.req.requestId)
  {
    hide AgedBut;
    assert forall s :: s in running <==> s in mid;
    assert (set s | s in running && s in waits :: s.req.requestId) == set s | s in mid && s in waits :: s.req.requestId;
  }

  /** Nobody was admitted. */
  lemma SameAges(live: seq<Sequence>, ages: map<string, nat>, waits: seq<Sequence>, runs: seq<Sequence>,
                 running: seq<Sequence>)
    requires Apart(live, waits, runs) && Shuffled(runs, running)
    ensures AgedBut(ages, ages, set s | s in running && s in waits :: s.req.requestId)
  {
    assert (set s | s in running && s in waits :: s.req.requestId) == {} by {
      forall s | s in running ensures s !in waits { var i := IndexIn(running, s); }
    }
  }

  /** How many sequences of the queue have this request id. */
  function Occurrences(xs: seq<Sequence>, id: string): nat {
    if xs == [] then 0
    else Occurrences(xs[..|xs| - 1], id) + if xs[|xs| - 1].req.requestId == id then 1 else 0
  }

  /** Prompt tokens a lookup would find cached. */
  function CachedNow(b: Store, c: CacheConfig, h: Hasher, v: Seq): nat
    requires c.blockSize > 0
  {
    if c.enablePrefixCache && v.req.cacheEnabled then MatchCount(b, c, h, v) * c.blockSize else 0
  }

  lemma ReorderedQueues(live: seq<Sequence>, was: seq<Sequence>, running: seq<Sequence>,
                        now: seq<Sequence>, ranks: seq<Rank>, ranked: seq<Rank>)
    requires Ranking(ranks, |was|) && |now| == |was| == |ranked|
    requires forall i | 0 <= i < |was| :: ranked[i].index == i && ranked[i] in ranks
    requires forall i | 0 <= i < |was| :: now[i] == was[ranks[i].index]
    ensures Apart(live, was, running) ==> Apart(live, now, running)
    ensures forall s :: s in now <==> s in was
  {
    forall s | s in was ensures s in now {
      var i := IndexIn(was, s);
      var j := IndexIn(ranks, ranked[i]);
      assert now[j] == s;
    }
    forall s | s in now ensures s in was { var i := IndexIn(now, s); }
  }

  lemma SameRanked(live: seq<Sequence>, was: seq<Sequence>, now: seq<Sequence>, vs: seq<Seq>)
    requires forall s :: s in now <==> s in was
    ensures Ranked(live, was, vs) ==> Ranked(live, now, vs)
  {
  }

  lemma KeptLess(live: seq<Sequence>, runs: seq<Sequence>, vs: seq<Seq>, ws: seq<Seq>)
    requires AllKept(live, runs, vs, ws)
    ensures AllKept(live, [], vs, ws)
  {
  }

  lemma SameReady(live: seq<Sequence>, vs: seq<Seq>, ws: seq<Seq>)
    requires AllKept(live, [], vs, ws)
    ensures AnyReady(vs) <==> AnyReady(ws)
  {
    forall j | 0 <= j < |vs| ensures vs[j].PromptReady() == ws[j].PromptReady() {
      assert Kept(vs[j], ws[j]);
    }
  }

  lemma {:induction false} IndicesIn(live: seq<Sequence>, xs: seq<Sequence>) returns (idx: seq<nat>)
    requires forall j | 0 <= j < |xs| :: xs[j] in live
    ensures |idx| == |xs| && forall j | 0 <= j < |idx| :: idx[j] < |live| && live[idx[j]] == xs[j]
  {
    if xs == [] {
      idx := [];
    } else {
      idx := IndicesIn(live, xs[..|xs| - 1]);
      var k := IndexIn(live, xs[|xs| - 1]);
      idx := idx + [k];
    }
  }

  /* ---------- Putting a step together ---------- */

  /** us came from vs by scheduling steps: no token changed, and while all worst cases fit, nothing
      computed was lost and they still fit. */
  ghost predicate Stepped(e: Env, live: seq<Sequence>, vs: seq<Seq>, us: seq<Seq>, b: Store, b': Store) {
    && |b'.blocks| == |b.blocks| && AllHeld(vs, us)
    && (Fits(e, b, vs) ==> AllKept(live, [], vs, us) && Fits(e, b', us))
  }

  lemma NothingYet(e: Env, live: seq<Sequence>, vs: seq<Seq>, b: Store)
    requires |vs| == |live|
    ensures Stepped(e, live, vs, vs, b, b)
  {
  }

  lemma PrefillDone(e: Env, live: seq<Sequence>, vs: seq<Seq>, us: seq<Seq>, ws: seq<Seq>,
                    b: Store, mid: Store, b': Store)
    requires Stepped(e, live, vs, us, b, mid) && AllKept(live, [], us, ws) && |b'.blocks| == |mid.blocks|
    ensures Stepped(e, live, vs, ws, b, b')
  {
    forall j | 0 <= j < |us| ensures ws[j].req == us[j].req && ws[j].tokens == us[j].tokens
                                     && ws[j].PromptReady() == us[j].PromptReady()
    {
      assert Kept(us[j], ws[j]);
    }
    HeldTrans(vs, us, ws);
    if Fits(e, b, vs) { KeptTrans(live, [], [], vs, us, ws); }
    KeptFits(e, mid, b', live, [], us, ws);
  }

  lemma DecodeDone(e: Env, live: seq<Sequence>, vs: seq<Seq>, us: seq<Seq>, ws: seq<Seq>,
                   b: Store, mid: Store, b': Store)
    requires Stepped(e, live, vs, us, b, mid) && AllHeld(us, ws) && |b'.blocks| == |mid.blocks|
    requires Fits(e, mid, us) ==> AllKept(live, [], us, ws)
    ensures Stepped(e, live, vs, ws, b, b')
  {
    HeldTrans(vs, us, ws);
    if Fits(e, b, vs) {
      KeptTrans(live, [], [], vs, us, ws);
      KeptFits(e, mid, b', live, [], us, ws);
    }
  }

  lemma StepMeans(e: Env, live: seq<Sequence>, vs: seq<Seq>, us: seq<Seq>, b: Store, b': Store)
    requires Stepped(e, live, vs, us, b, b')
    ensures |b'.blocks| == |b.blocks| && AllHeld(vs, us)
    ensures Fits(e, b, vs) ==> AllKept(live, [], vs, us) && Fits(e, b', us)
  {
  }
}

/** The continuous-batching scheduler: admission, chunked prefill, decode with preemption, and
    what happens to a batch after the model has run. */
module Schedulers {
  import opened Arithmetic
  import opened Blocks
  import opened BlockClaims
  import opened BlockManagers
  import opened BlockSteps
  import opened Capacity
  import opened Hashing
  import opened LanguageModel
  import opened Outcomes
  import opened Policies
  import opened PrefixCache
  import opened Queues
  import opened Rematch
  import opened Scheduling
  import opened Sequences
  import opened Stalls
  import opened WorldAdvance
  import opened WorldCommit
  import opened WorldOps
  import opened WorldRun
  import opened WorldSteps
  import opened Worlds
  import opened Wrappers

  datatype SchedulerConfig = SchedulerConfig(
    maxNumSeqs: nat,
    maxNumBatchedTokens: nat,
    maxPrefillChunkTokens: nat,
    minPrefillChunkTokens: nat,
    watermarkBlocks: nat,
    fairness: Fairness)
  {
    /** The limits a configuration is checked for. */
    predicate Sane() {
      maxNumSeqs > 0 && maxNumBatchedTokens > 0 && maxPrefillChunkTokens > 0 && minPrefillChunkTokens > 0
    }
  }

  /** What one call of schedule comes to: a batch; no batch, for want of blocks; or the failed
      assertion about a repeated lookup. */
  datatype Scheduled = Batch(seqs: seq<Sequence>, isPrefill: bool) | NoSchedulable | RematchFailed

  class Scheduler {
    const cfg: SchedulerConfig
    const env: Env
    const blockManager: BlockManager
    var waiting: seq<Sequence>
    var running: seq<Sequence>
    var waitingAges: map<string, nat>
    var lastStepWasPrefill: bool
    var preemptions: nat
    /** All unfinished sequences, in order of arrival. */
    ghost var live: seq<Sequence>

    /** Queues, block store, KV memory and all unfinished sequences fit together. */
    ghost predicate Ok(mem: seq<KV>)
      reads this, blockManager, live
    {
      && blockManager.cfg == env.cache && blockManager.hasher == env.hasher
      && Apart(live, waiting, running)
      && Ranked(live, waiting, Views(live))
      && Inv(env, blockManager.State(), mem, Views(live))
    }

    constructor (cfg: SchedulerConfig, env: Env, numBlocks: nat, ghost mem: seq<KV>)
      requires numBlocks > 0 && env.BlockSize() > 0
      ensures Ok(mem) && this.cfg == cfg && this.env == env && fresh(blockManager)
      ensures live == [] && |blockManager.blocks| == numBlocks && preemptions == 0
      ensures waitingAges == map[] && !lastStepWasPrefill
    {
      this.cfg, this.env := cfg, env;
      blockManager := new BlockManager(numBlocks, env.cache, env.hasher);
      waiting, running, live := [], [], [];
      waitingAges := map[];
      lastStepWasPrefill := false;
      preemptions := 0;
    }

    predicate IsFinished()
      reads this
    {
      waiting == [] && running == []
    }

    method Add(s: Sequence, ghost mem: seq<KV>)
      requires Ok(mem) && s !in live && s.req.prompt != [] && s.View() == NewSeq(s.req)
      requires env.Knows(s.req.namespace)
      modifies this
      ensures Ok(mem) && live == old(live) + [s] && waiting == old(waiting) + [s] && running == old(running)
      ensures preemptions == old(preemptions) && waitingAges == old(waitingAges)[s.req.requestId := 0]
    {
      hide Inv, Apart, Ranked;
      AddInv(env, blockManager.State(), mem, Views(live), s.req);
      ViewsAppend(live, s);
      Enqueued(live, waiting, running, Views(live), s);
      waiting := waiting + [s];
      waitingAges := waitingAges[s.req.requestId := 0];
      live := live + [s];
    }

    /** Moves a running sequence to the front of the waiting queue. */
    method Park(s: Sequence)
      modifies this`waiting, this`running, this`waitingAges, this`preemptions
      ensures running == Remove(old(running), s) && waiting == [s] + old(waiting)
      ensures waitingAges == old(waitingAges)[s.req.requestId := 0]
      ensures preemptions == old(preemptions) + 1
    {
      running := Remove(running, s);
      waiting := [s] + waiting;
      waitingAges := waitingAges[s.req.requestId := 0];
      preemptions := preemptions + 1;
    }

    /** Takes a running sequence's blocks away; it waits, first in line, to be prefilled again. */
    method Preempt(s: Sequence, ghost k: nat, ghost mem: seq<KV>)
      requires Ok(mem) && k < |live| && live[k] == s && s in running
      modifies this`waiting, this`running, this`waitingAges, this`preemptions, blockManager, s
      ensures Ok(mem)
      ensures running == Remove(old(running), s) && waiting == [s] + old(waiting)
      ensures s.View() == Restarted(old(s.View()))
      ensures Views(live) == old(Views(live))[k := s.View()]
      ensures |blockManager.blocks| == old(|blockManager.blocks|)
      ensures preemptions == old(preemptions) + 1 && waitingAges == old(waitingAges)[s.req.requestId := 0]
    {
      hide Inv, Apart, Ranked, Valid, WithinQuotas, Holds, ReleaseAll, NumBlocks, Shape;
      ghost var vs := Views(live);
      Parked(live, waiting, running, s);
      InvAt(env, blockManager.State(), mem, vs, k);
      RankedRestart(live, waiting, running, vs, k);
      RestartInv(env, blockManager.State(), mem, vs, k);
      Differ(live, waiting, running, k);
      s.WaitAgain();
      blockManager.Deallocate(s);
      Park(s);
      ViewsUpdated(live, vs, k);
    }

    /** Attaches what is cached of a sequence that is still to be prefilled. */
    method Lookup(s: Sequence, ghost k: nat, now: real, ghost mem: seq<KV>) returns (ghost mid: Store)
      requires Ok(mem) && k < |live| && live[k] == s && Prefilling(s.View())
      modifies blockManager, s
      ensures Ok(mem) && |blockManager.blocks| == old(|blockManager.blocks|)
      ensures Views(live) == old(Views(live))[k := s.View()]
      ensures MatchedTo(old(blockManager.State()), mid, blockManager.State(), env.cache, env.hasher,
                        old(s.View()), s.View(), now)
      ensures Prefilling(s.View()) && Forward(old(s.View()), s.View())
      ensures Cold(blockManager.State(), env.cache, env.hasher, s.View())
      ensures old(Cold(blockManager.State(), env.cache, env.hasher, s.View())) ==>
                s.View() == old(s.View()) && Poorer(old(blockManager.State()), blockManager.State())
    {
      hide Inv, Valid, WithinQuotas, Ranked, Apart, Shape, Cold, Poorer;
      ghost var vs, before := Views(live), blockManager.State();
      InvAt(env, before, mem, vs, k);
      Differ(live, waiting, running, k);
      mid := blockManager.MatchCachedPrefix(s, now);
      MatchInv(env, before, mid, blockManager.State(), mem, vs, k, s.View(), now);
      MatchedForward(before, mid, blockManager.State(), env.cache, env.hasher, vs[k], s.View(), now);
      LookedUp(before, mid, blockManager.State(), env.cache, env.hasher, vs[k], s.View(), now);
      NothingRead(env, before, mem, vs, k);
      if Cold(before, env.cache, env.hasher, vs[k]) {
        ColdLookup(before, mid, blockManager.State(), env.cache, env.hasher, vs[k], s.View(), now);
      }
      ViewsUpdated(live, vs, k);
      RankedPrefilling(live, waiting, vs, k, s.View());
    }

    /** Blocks to be had besides the reserve. */
    function Spare(reserve: nat): nat
      reads blockManager
    {
      Max(0, |blockManager.blocks| - |blockManager.usedBlockIds| - reserve)
    }

    /** Whether s can grow to target tokens.  While all worst cases fit, it always can. */
    method Room(s: Sequence, target: nat, reserve: nat, now: real, ghost mem: seq<KV>) returns (ok: bool)
      requires Ok(mem)
      modifies blockManager
      ensures Ok(mem) && |blockManager.blocks| == old(|blockManager.blocks|)
      ensures PurgedTo(old(blockManager.State()), blockManager.State(), Expired(old(blockManager.State()), now))
      ensures Poorer(old(blockManager.State()), blockManager.State())
      ensures ok <==> Missing(s.blockTable, target, env.BlockSize()) <= Spare(reserve)
      ensures ok ==> Missing(s.blockTable, target, env.BlockSize())
                     <= |blockManager.blocks| - |blockManager.usedBlockIds|
      ensures Fits(env, old(blockManager.State()), Views(live)) && s in live && target <= |s.tokenIds| && reserve == 0
              ==> ok
    {
      hide Inv, Valid, WithinQuotas, Ranked, Apart, Selected, PurgedTo;
      ghost var vs, before := Views(live), blockManager.State();
      InvStore(env, before, mem, vs);
      ok := blockManager.CanAllocate(s, target, reserve, now);
      PurgeInv(env, before, blockManager.State(), mem, vs, Expired(before, now));
      PurgedUsed(before, blockManager.State(), Expired(before, now));
      PurgedPoorer(before, blockManager.State(), Expired(before, now));
      UsedAtMostAll(before, env.BlockSize());
      SameFits(env, before, blockManager.State(), vs);
      RoomFits(env, blockManager.State(), mem, vs, live, s, target);
    }

    /** Blocks for one prefill chunk.  The lookup is repeated for a sequence without blocks; ok is false,
        and no blocks are claimed, exactly if that passes the chunk. */
    method Prepare(s: Sequence, target: nat, ghost k: nat, now: real, ghost mem: seq<KV>) returns (ok: bool)
      requires Ok(mem) && k < |live| && live[k] == s && Prefilling(s.View())
      requires 0 < target <= s.View().prefillTarget
      requires Missing(s.blockTable, target, env.BlockSize())
               <= |blockManager.blocks| - |blockManager.usedBlockIds|
      modifies blockManager, s
      ensures Ok(mem) && |blockManager.blocks| == old(|blockManager.blocks|)
      ensures Prefilling(s.View()) && Forward(old(s.View()), s.View())
      ensures Views(live) == old(Views(live))[k := s.View()]
      ensures env.BlockSize() > 0
      ensures ok <==> s.View().numComputed < target
      ensures ok <==> old(s.View().numComputed + WillMatch(blockManager.State(), env.cache, env.hasher, s.View(), now))
                      < target
      ensures ok ==> target <= |s.blockTable| * env.BlockSize()
      ensures !MatchApplies(env.cache, old(s.View())) ==> s.View().numComputed == old(s.View()).numComputed
    {
      hide Inv, Valid, WithinQuotas, Ranked, Apart, MatchedTo, AllocatedTo, NumBlocks, WillMatch;
      ghost var vs, before := Views(live), blockManager.State();
      InvAt(env, before, mem, vs, k);
      Differ(live, waiting, running, k);
      ghost var mid, matched, found, taken;
      ok, mid, matched, found, taken := blockManager.PreparePrefill(s, target, now);
      AssertionHoldsExactly(before, mid, matched, env.cache, env.hasher, vs[k], found, now, target);
      PrepareInv(env, before, mid, matched, blockManager.State(), mem, vs, k, found, s.View(), taken, target, now, ok);
      ViewsUpdated(live, vs, k);
      RankedPrefilling(live, waiting, vs, k, s.View());
    }

    /** Notes the chunk of s that is to be computed now. */
    method Plan(s: Sequence, target: nat, ghost k: nat, ghost mem: seq<KV>)
      requires Ok(mem) && k < |live| && live[k] == s
      requires s.View().numComputed < target <= s.View().prefillTarget
      modifies s
      ensures Ok(mem) && Views(live) == old(Views(live))[k := s.View()]
      ensures s.View() == old(s.View()).(schedStart := old(s.View()).numComputed, schedEnd := target)
    {
      hide Inv, Ranked, Apart;
      ghost var vs := Views(live);
      PlanInv(env, blockManager.State(), mem, vs, k, target);
      RankedPlan(live, waiting, vs, k, target);
      Differ(live, waiting, running, k);
      s.SetPrefillChunk(s.numComputedTokens, target);
      ViewsUpdated(live, vs, k);
    }

    /** The head of the waiting queue starts running. */
    method Admit(s: Sequence, ghost k: nat, ghost mem: seq<KV>)
      requires Ok(mem) && k < |live| && live[k] == s && waiting != [] && waiting[0] == s && Prefilling(s.View())
      modifies this`waiting, this`running, this`waitingAges, s
      ensures Ok(mem) && Views(live) == old(Views(live))[k := s.View()]
      ensures waiting == old(waiting)[1..] && running == old(running) + [s]
      ensures waitingAges == old(waitingAges) - {s.req.requestId}
      ensures s.View() == old(s.View()).(status := RUNNING)
    {
      hide Inv, Ranked, Apart;
      ghost var vs := Views(live);
      StatusInv(env, blockManager.State(), mem, vs, k, RUNNING);
      Differ(live, waiting, running, k);
      Admitted(live, waiting, running, vs, k);
      waiting := waiting[1..];
      waitingAges := waitingAges - {s.req.requestId};
      running := running + [s];
      s.StartRunning();
      ViewsUpdated(live, vs, k);
    }

    /** Some running sequence has its prompt computed and can decode. */
    predicate HasDecodeWork()
      reads this`running, running
    {
      exists s | s in running :: s.View().PromptReady()
    }

    /** Some running sequence is still to be prefilled. */
    predicate HasUnready()
      reads this`running, running
    {
      exists s | s in running :: !s.View().PromptReady()
    }

    predicate HasPrefillWork()
      reads this`waiting, this`running, running
    {
      waiting != [] || HasUnready()
    }

    /** Blocks kept back from prefill while there is something to decode. */
    function PrefillReserveBlocks(): nat
      reads this`running, running
    {
      if HasDecodeWork() then cfg.watermarkBlocks else 0
    }

    /** What is kept back: the watermark while some running sequence is ready to decode, and else nothing. */
    lemma ReserveMeans()
      ensures (forall s | s in running :: s.View().numComputed < s.View().prefillTarget) ==> PrefillReserveBlocks() == 0
      ensures (exists s :: s in running && s.View().numComputed >= s.View().prefillTarget) ==>
                PrefillReserveBlocks() == cfg.watermarkBlocks
    {
      if s :| s in running && s.View().numComputed >= s.View().prefillTarget { assert s.View().PromptReady(); }
    }

    /** The first chunk an admitted sequence would get. */
    function AdmissionTarget(v: Seq): nat {
      Min(v.prefillTarget, Max(v.numComputed + 1, Min(v.prefillTarget, cfg.maxPrefillChunkTokens)))
    }

    /** It is not empty and within the target, has at most as many tokens as a chunk may have, unless
        the lookup has left no more than one to take, and falls short of the target only for that limit. */
    lemma AdmissionTargetMeans(v: Seq)
      requires v.numComputed < v.prefillTarget
      ensures v.numComputed < AdmissionTarget(v) <= v.prefillTarget
      ensures AdmissionTarget(v) <= cfg.maxPrefillChunkTokens || AdmissionTarget(v) == v.numComputed + 1
      ensures AdmissionTarget(v) == v.prefillTarget || AdmissionTarget(v) >= cfg.maxPrefillChunkTokens
    {
    }

    /** The pool, but for the reserve, has the blocks that the first waiting sequence still lacks for
        its first chunk. */
    ghost predicate HeadHasRoom(reserve: nat)
      requires waiting != [] && env.BlockSize() > 0
      reads this`waiting, blockManager, waiting[0]
    {
      Missing(waiting[0].blockTable, AdmissionTarget(waiting[0].View()), env.BlockSize()) <= Spare(reserve)
    }

    /** A lookup for the first waiting sequence finds nothing. */
    ghost predicate HeadCold()
      requires waiting != [] && env.BlockSize() > 0
      reads this`waiting, blockManager, waiting[0]
    {
      Cold(blockManager.State(), env.cache, env.hasher, waiting[0].View())
    }

    /** Nobody can be admitted: no one waits, no seat is free, or the first in line has no room. */
    ghost predicate NoAdmission(reserve: nat)
      requires env.BlockSize() > 0
      reads this`waiting, this`running, blockManager, waiting
    {
      waiting != [] && |running| < cfg.maxNumSeqs ==> !HeadHasRoom(reserve) && HeadCold()
    }

    /** The first in line has a seat and room, and looking it up again changes nothing. */
    ghost predicate Admissible(reserve: nat)
      requires env.BlockSize() > 0
      reads this`waiting, this`running, blockManager, waiting
    {
      waiting != [] && |running| < cfg.maxNumSeqs && HeadHasRoom(reserve) && HeadCold()
    }

    /** Waiting sequences, first in line first, start running while there is a seat and room for their first chunk. */
    method AdmitLoop(now: real, ghost mem: seq<KV>)
      requires Ok(mem)
      modifies this`waiting, this`running, this`waitingAges, blockManager, live
      ensures Ok(mem) && |blockManager.blocks| == old(|blockManager.blocks|)
      ensures old(running) <= running && |running| <= Max(old(|running|), cfg.maxNumSeqs)
      ensures AllKept(live, old(running), old(Views(live)), Views(live))
      ensures running + waiting == old(running) + old(waiting)
      ensures AgedBut(old(waitingAges), waitingAges, IdsOf(running[|old(running)|..]))
      ensures env.BlockSize() > 0 && NoAdmission(old(PrefillReserveBlocks()))
      ensures old(NoAdmission(PrefillReserveBlocks())) ==>
                && running == old(running) && waiting == old(waiting) && Views(live) == old(Views(live))
                && Poorer(old(blockManager.State()), blockManager.State())
      ensures old(Admissible(PrefillReserveBlocks())) ==> old(running) < running
      ensures !env.cache.enablePrefixCache ==>
                && Poorer(old(blockManager.State()), blockManager.State())
                && AdmittedAsIs(old(Views(live)), Views(live))
      ensures (Fits(env, old(blockManager.State()), old(Views(live))) && !AnyReady(old(Views(live)))
               && old(waiting) != [] && cfg.maxNumSeqs > 0) ==> running != []
    {
      hide Ok, Inv, Apart, Ranked, Fits, AllKept, AnyReady, Valid, HeadHasRoom, HeadCold, Poorer, AdmittedAsIs, Views,
           HasDecodeWork, AdmissionTarget, Spare, AgedBut, IdsOf;
      ghost var vs, runs, n := Views(live), running, |blockManager.blocks|;
      AgedSame(waitingAges);
      assert running[|runs|..] == [];
      ghost var fits := Fits(env, blockManager.State(), vs) && !AnyReady(vs) && cfg.maxNumSeqs > 0;
      var reserve := PrefillReserveBlocks();
      Start(mem);
      BlocksAreReal(mem);
      PoorerSame(blockManager.State());
      AsIs(vs);
      ghost var ends, sure, off := NoAdmission(reserve), Admissible(reserve), !env.cache.enablePrefixCache;
      var done := false;
      while !done && waiting != [] && |running| < cfg.maxNumSeqs
        invariant Ok(mem) && |blockManager.blocks| == n
        invariant runs <= running && |running| <= Max(|runs|, cfg.maxNumSeqs)
        invariant running + waiting == runs + old(waiting)
        invariant AgedBut(old(waitingAges), waitingAges, IdsOf(running[|runs|..]))
        invariant env.BlockSize() > 0 && (done ==> waiting != [] && !HeadHasRoom(reserve) && HeadCold())
        invariant ends ==> running == runs && waiting == old(waiting) && Views(live) == vs
                           && Poorer(old(blockManager.State()), blockManager.State())
        invariant ends && !done ==> NoAdmission(reserve)
        invariant sure && running == runs ==> !done && Admissible(reserve)
        invariant off ==> Poorer(old(blockManager.State()), blockManager.State()) && AdmittedAsIs(vs, Views(live))
        invariant AllKept(live, runs, vs, Views(live))
        invariant fits && running == [] ==> waiting == old(waiting) && !done
        decreases !done, |waiting|
      {
        ghost var us, before, mid := Views(live), running, blockManager.State();
        KeptFits(env, old(blockManager.State()), mid, live, runs, vs, us);
        UncachedIsCold();
        AgedOneMore(old(waitingAges), waitingAges, running[|runs|..], waiting[0]);
        assert (running + [waiting[0]])[|runs|..] == running[|runs|..] + [waiting[0]];
        done := AdmitNext(reserve, now, mem);
        KeptTrans(live, runs, before, vs, us, Views(live));
        PoorerAgain(old(blockManager.State()), mid, blockManager.State());
        AsIsAgain(vs, us, Views(live));
      }
    }

    lemma UncachedIsCold()
      requires waiting != [] && env.BlockSize() > 0
      ensures !env.cache.enablePrefixCache ==> HeadCold()
    {
    }

    lemma Head(mem: seq<KV>) returns (k: nat)
      requires Ok(mem) && waiting != []
      ensures k < |live| && live[k] == waiting[0] && Prefilling(live[k].View()) && live[k] !in running && NoDup(live)
    {
      k := HeadIndex(live, waiting, running, Views(live));
    }

    lemma Start(mem: seq<KV>)
      requires Ok(mem)
      ensures AllKept(live, running, Views(live), Views(live))
      ensures HasDecodeWork() ==> AnyReady(Views(live))
    {
      NoReadyNoReserve(live, waiting, running, Views(live));
      KeptAll(live, running, Views(live));
    }

    /** Looks up and, if there is room, admits the head of the waiting queue. */
    method AdmitNext(reserve: nat, now: real, ghost mem: seq<KV>) returns (done: bool)
      requires Ok(mem) && waiting != []
      modifies this`waiting, this`running, this`waitingAges, blockManager, live
      ensures Ok(mem) && |blockManager.blocks| == old(|blockManager.blocks|)
      ensures AllKept(live, old(running), old(Views(live)), Views(live))
      ensures env.BlockSize() > 0
      ensures done ==> waiting == old(waiting) && running == old(running) && !HeadHasRoom(reserve) && HeadCold()
      ensures waitingAges == if done then old(waitingAges) else old(waitingAges) - {old(waiting)[0].req.requestId}
      ensures !done ==> waiting == old(waiting)[1..] && running == old(running) + [old(waiting)[0]]
      ensures !done ==> var s := old(waiting)[0];
                        Missing(s.blockTable, AdmissionTarget(s.View()), env.BlockSize()) <= Spare(reserve)
      ensures Fits(env, old(blockManager.State()), old(Views(live))) && reserve == 0 ==> !done
      ensures old(HeadCold()) ==>
                && (done <==> !old(HeadHasRoom(reserve)))
                && Poorer(old(blockManager.State()), blockManager.State())
                && AdmittedAsIs(old(Views(live)), Views(live)) && (done ==> Views(live) == old(Views(live)))
    {
      hide Ok, Inv, Apart, Ranked, MatchedTo, PurgedTo, NumBlocks, AllKept, Fits, NoDup, Missing, Valid, Cold, Poorer;
      BlocksAreReal(mem);
      var s := waiting[0];
      ghost var vs, runs, before := Views(live), running, blockManager.State();
      ghost var k := Head(mem);
      ghost var mid := Lookup(s, k, now, mem);
      ghost var found, looked := s.View(), blockManager.State();
      if Cold(before, env.cache, env.hasher, vs[k]) { PoorerUsed(before, looked); }
      ReplaceKept(live, runs, vs, k, found);
      KeptFits(env, before, looked, live, runs, vs, Views(live));
      var room := Room(s, AdmissionTarget(s.View()), reserve, now, mem);
      PoorerUsed(looked, blockManager.State());
      PoorerAgain(before, looked, blockManager.State());
      PoorerCold(looked, blockManager.State(), env.cache, env.hasher, found);
      done := !room;
      if room {
        Admit(s, k, mem);
        UpdateTwice(vs, k, found, s.View());
        ReplaceKept(live, runs, vs, k, s.View());
      }
    }

    /** Tries to schedule the next chunk of one candidate, of at most budget tokens. */
    method TryPrefill(s: Sequence, ghost k: nat, budget: nat, reserve: nat, now: real, ghost mem: seq<KV>)
      returns (r: PrefillTry)
      requires Ok(mem) && k < |live| && live[k] == s && Prefilling(s.View()) && budget > 0
      modifies blockManager, s
      ensures Ok(mem) && |blockManager.blocks| == old(|blockManager.blocks|)
      ensures Views(live) == old(Views(live))[k := s.View()]
      ensures Prefilling(s.View()) && Forward(old(s.View()), s.View())
      ensures env.BlockSize() > 0
      ensures r.NoRoom? <==> !old(ChunkFits(s.View(), budget, env.BlockSize(), Spare(reserve)))
      ensures r.NoRoom? ==> s.View() == old(s.View()) && Poorer(old(blockManager.State()), blockManager.State())
      ensures r.LookupPassed? ==> MatchApplies(env.cache, old(s.View()))
      ensures r.LookupPassed? <==> old(
        && ChunkFits(s.View(), budget, env.BlockSize(), Spare(reserve))
        && ChunkEnd(s.View(), budget)
           <= s.View().numComputed + WillMatch(blockManager.State(), env.cache, env.hasher, s.View(), now))
      ensures r.Scheduled? ==> Planned(env, s.View()) && r.tokens == s.View().schedEnd - s.View().schedStart <= budget
      ensures r.Scheduled? ==> s.View().schedEnd == old(ChunkEnd(s.View(), budget))
      ensures Fits(env, old(blockManager.State()), old(Views(live))) && reserve == 0 ==> !r.NoRoom?
    {
      hide Ok, Inv, Apart, Ranked, PurgedTo, NumBlocks, Missing, Fits, Valid, Poorer, WillMatch, Expired, IndexSound;
      BlocksAreReal(mem);
      StoreSound(mem);
      var target := Min(s.prefillTargetTokens, s.numComputedTokens + budget);
      ghost var vs, before := Views(live), blockManager.State();
      var room := Room(s, target, reserve, now, mem);
      StoreSound(mem);
      PurgedUsed(before, blockManager.State(), Expired(before, now));
      WillMatchAfterPurge(before, blockManager.State(), env.cache, env.hasher, s.View(), now);
      if !room {
        UpdateSame(vs, k);
        return NoRoom;
      }
      var ok := Prepare(s, target, k, now, mem);
      if !ok { return LookupPassed; }
      ghost var w := s.View();
      Plan(s, target, k, mem);
      UpdateTwice(vs, k, w, s.View());
      r := Scheduled(target - s.numComputedTokens);
    }

    /** Running sequences that are ready to decode. */
    function DecodePressure(xs: seq<Sequence>): nat
      reads xs
    {
      if xs == [] then 0
      else (if xs[0].View().PromptReady() then 1 else 0) + DecodePressure(xs[1..])
    }

    /** The most tokens one chunk may have; smaller while others wait to decode. */
    function PrefillChunkBudget(): nat
      reads this`running, running
    {
      var budget := Min(cfg.maxPrefillChunkTokens, cfg.maxNumBatchedTokens);
      var pressure := DecodePressure(running);
      if pressure == 0 then budget
      else Max(cfg.minPrefillChunkTokens, budget / Min(pressure + 1, 8))
    }

    /** With r running sequences ready to decode, a chunk gets a share of one in r + 1, or in 8 if they
        are more, of the chunk limit, rounded down; but the least chunk size, if that is more. */
    lemma ChunkBudgetMeans(mem: seq<KV>, share: nat)
      requires Ok(mem)
      requires var whole := Min(cfg.maxPrefillChunkTokens, cfg.maxNumBatchedTokens);
               var d := Min(|set s | s in running && s.View().PromptReady()| + 1, 8);
               share * d <= whole < (share + 1) * d
      ensures PrefillChunkBudget() == if forall s | s in running :: !s.View().PromptReady() then share
                                      else Max(cfg.minPrefillChunkTokens, share)
    {
      hide Inv, Ranked;
      var ready := set s | s in running && s.View().PromptReady();
      PressureIs(running);
      if s :| s in running && s.View().PromptReady() { assert s in ready; } else { assert ready == {}; }
      var whole: nat, d: nat := Min(cfg.maxPrefillChunkTokens, cfg.maxNumBatchedTokens), Min(|ready| + 1, 8);
      assert (share + 1) * d == share * d + d;
      DivModUnique(d, share, whole - share * d);
      assert d * share + (whole - share * d) == whole;
    }

    /** The most tokens that the first chunk of a prefill step may have. */
    function FirstBudget(): nat
      reads this`running, running
    {
      Min(PrefillChunkBudget(), cfg.maxNumBatchedTokens)
    }

    /** There is no chunk for any of xs: no seat, no budget, or each lacks more blocks than there are. */
    ghost predicate NothingFits(xs: seq<Sequence>)
      requires env.BlockSize() > 0
      reads this`running, running, blockManager, xs
    {
      cfg.maxNumSeqs > 0 && FirstBudget() > 0 ==>
        NoneFits(Views(xs), FirstBudget(), env.BlockSize(), Spare(PrefillReserveBlocks()))
    }

    /** Running sequences whose prompt is not computed yet, in queue order. */
    function Unready(xs: seq<Sequence>): seq<Sequence>
      reads xs
    {
      if xs == [] then []
      else if xs[0].View().PromptReady() then Unready(xs[1..])
      else [xs[0]] + Unready(xs[1..])
    }

    /** While all worst cases fit and nothing is kept back, the first candidate's chunk does. */
    lemma FirstFits(candidates: seq<Sequence>, cand: seq<nat>, mem: seq<KV>)
      requires Ok(mem) && Candidates(live, running, candidates, cand, Views(live), 0) && env.BlockSize() > 0
      ensures (&& Fits(env, blockManager.State(), Views(live)) && PrefillReserveBlocks() == 0
               && candidates != [] && cfg.maxNumSeqs > 0 && FirstBudget() > 0) ==> !NothingFits(candidates)
    {
      hide Inv, Ranked, Apart, Missing, FirstBudget, PrefillReserveBlocks;
      if Fits(env, blockManager.State(), Views(live)) && PrefillReserveBlocks() == 0
         && candidates != [] && cfg.maxNumSeqs > 0 && FirstBudget() > 0 {
        var s := candidates[0];
        RoomFits(env, blockManager.State(), mem, Views(live), live, s, ChunkEnd(s.View(), FirstBudget()));
        assert !NoneFits(Views(candidates), FirstBudget(), env.BlockSize(), Spare(0)) by {
          assert ChunkFits(Views(candidates)[0], FirstBudget(), env.BlockSize(), Spare(0));
        }
      }
    }

    /** Schedules chunks of the candidates in turn, within the token and sequence limits.  Without a
        failed lookup the result is empty exactly if there is nothing that fits, and then at most cached
        content has been purged. */
    method PrefillLoop(candidates: seq<Sequence>, ghost cand: seq<nat>, now: real, ghost mem: seq<KV>)
      returns (seqs: seq<Sequence>, ok: bool, ghost idx: seq<nat>)
      requires Ok(mem) && Candidates(live, running, candidates, cand, Views(live), 0)
      modifies blockManager, live
      ensures Ok(mem) && |blockManager.blocks| == old(|blockManager.blocks|)
      ensures AllKept(live, [], old(Views(live)), Views(live))
      ensures |seqs| <= cfg.maxNumSeqs
      ensures PrefillBatch(env, live, running, Views(live), seqs, idx)
      ensures SumChunks(Views(live), idx) <= cfg.maxNumBatchedTokens
      ensures ChunksAtMost(Views(live), idx, old(PrefillChunkBudget()))
      ensures !ok ==> env.cache.enablePrefixCache
      ensures env.BlockSize() > 0 && (ok && seqs == [] <==> old(NothingFits(candidates)))
      ensures ok && seqs == [] ==>
                Views(live) == old(Views(live)) && Poorer(old(blockManager.State()), blockManager.State())
      ensures (&& Fits(env, old(blockManager.State()), old(Views(live))) && old(PrefillReserveBlocks()) == 0
               && candidates != [] && cfg.maxNumSeqs > 0 && old(PrefillChunkBudget()) > 0
               && cfg.maxNumBatchedTokens > 0) ==> !ok || seqs != []
    {
      hide Ok, Candidates, PrefillSoFar, PrefillBatch, AllKept, Fits, SumChunks, NoneFits, ChunkFits, Poorer, Views,
           PrefillChunkBudget, PrefillReserveBlocks, Spare, ChunksAtMost;
      seqs, idx, ok := [], [], true;
      ghost var vs, before, cs := Views(live), blockManager.State(), Views(candidates);
      var batched: nat := 0;
      var budget, reserve := PrefillChunkBudget(), PrefillReserveBlocks();
      ghost var first, spare := Min(budget, cfg.maxNumBatchedTokens), Spare(reserve);
      var i := 0;
      BlocksAreReal(mem);
      PoorerSame(before);
      SpareIs(reserve);
      PrefillBegins(env, live, running, candidates, cand, vs);
      FirstFits(candidates, cand, mem);
      CandidatesSeen(candidates, cand);
      NoneFitsNone(first, env.BlockSize(), spare);
      NoChunks(vs, budget);
      while i < |candidates| && ok && |seqs| < cfg.maxNumSeqs
            && Min(budget, cfg.maxNumBatchedTokens - batched) > 0
        invariant i <= |candidates| && Ok(mem) && |blockManager.blocks| == |before.blocks|
        invariant PrefillSoFar(env, live, running, candidates, cand, vs, Views(live), i, seqs, idx, batched)
        invariant |seqs| <= cfg.maxNumSeqs && batched <= cfg.maxNumBatchedTokens
        invariant ChunksAtMost(Views(live), idx, budget)
        invariant !ok ==> env.cache.enablePrefixCache
        invariant i > 0 ==> cfg.maxNumSeqs > 0 && first > 0
        invariant ok && seqs == [] <==> NoneFits(cs[..i], first, env.BlockSize(), spare)
        invariant ok && seqs == [] ==> Views(live) == vs && batched == 0 && Poorer(before, blockManager.State())
        decreases |candidates| - i, ok
      {
        ghost var mid := blockManager.State();
        NoneFitsNext(cs, i, first, env.BlockSize(), spare);
        if seqs == [] && ok { PoorerSpare(before, reserve, spare); }
        var r;
        ghost var k;
        r, k := PrefillNext(candidates, cand, i, Min(budget, cfg.maxNumBatchedTokens - batched), reserve,
                            seqs, idx, batched, vs, budget, now, mem);
        PoorerAgain(before, mid, blockManager.State());
        if r.LookupPassed? { ok := false; }
        if r.Scheduled? { batched, seqs, idx := batched + r.tokens, seqs + [candidates[i]], idx + [k]; }
        i := i + 1;
      }
      PrefillPasses(env, live, running, candidates, cand, vs, Views(live), i, seqs, idx, batched);
      assert cs[..|cs|] == cs;
      if NoneFits(cs, first, env.BlockSize(), spare) { NoneFitsPart(cs, i, first, env.BlockSize(), spare); }
    }

    /** Tries the i-th candidate; k is its place among all sequences. */
    method PrefillNext(candidates: seq<Sequence>, ghost cand: seq<nat>, i: nat, budget: nat, reserve: nat,
                       ghost seqs: seq<Sequence>, ghost idx: seq<nat>, ghost batched: nat, ghost vs: seq<Seq>,
                       ghost most: nat, now: real, ghost mem: seq<KV>) returns (r: PrefillTry, ghost k: nat)
      requires Ok(mem) && i < |candidates| && budget > 0
      requires PrefillSoFar(env, live, running, candidates, cand, vs, Views(live), i, seqs, idx, batched)
      requires budget <= most && ChunksAtMost(Views(live), idx, most)
      modifies blockManager, live
      ensures Ok(mem) && |blockManager.blocks| == old(|blockManager.blocks|) && env.BlockSize() > 0
      ensures |cand| == |candidates| && k == cand[i] < |live|
      ensures r.NoRoom? <==> !ChunkFits(old(Views(live))[k], budget, env.BlockSize(), old(Spare(reserve)))
      ensures r.NoRoom? ==>
                Views(live) == old(Views(live)) && Poorer(old(blockManager.State()), blockManager.State())
      ensures r.LookupPassed? ==> env.cache.enablePrefixCache
      ensures r.Scheduled? ==> r.tokens <= budget
      ensures PrefillSoFar(env, live, running, candidates, cand, vs, Views(live), i + 1,
                           if r.Scheduled? then seqs + [candidates[i]] else seqs,
                           if r.Scheduled? then idx + [k] else idx,
                           if r.Scheduled? then batched + r.tokens else batched)
      ensures ChunksAtMost(Views(live), if r.Scheduled? then idx + [k] else idx, most)
    {
      hide Ok, Candidates, PrefillSoFar, PrefillBatch, AllKept, Fits, SumChunks, NoDup, Forward, ChunkFits, Poorer,
           WillMatch, ChunkEnd, ChunksAtMost;
      ghost var us := Views(live);
      PrefillPasses(env, live, running, candidates, cand, vs, us, i, seqs, idx, batched);
      k := CandidateAt(live, running, candidates, cand, us, i);
      r := TryPrefill(candidates[i], k, budget, reserve, now, mem);
      CandidateTried(env, live, running, candidates, cand, vs, us, i, candidates[i].View(), r, seqs, idx, batched);
      ChunksStill(env, live, running, candidates, cand, vs, us, i, candidates[i].View(), r, seqs, idx, batched, most);
    }

    lemma CandidatesSeen(candidates: seq<Sequence>, cand: seq<nat>)
      requires Candidates(live, running, candidates, cand, Views(live), 0)
      ensures |cand| == |candidates|
      ensures forall j | 0 <= j < |cand| :: cand[j] < |live| && Views(candidates)[j] == Views(live)[cand[j]]
    {
      CandidateViews(live, running, candidates, cand, Views(live), Views(candidates));
    }

    lemma SpareIs(reserve: nat)
      ensures Spare(reserve)
           == Max(0, |blockManager.State().blocks| - |blockManager.State().used| - reserve)
    {
    }

    /** With the same blocks in use there is the same to spare. */
    lemma PoorerSpare(before: Store, reserve: nat, spare: nat)
      requires Poorer(before, blockManager.State()) && spare == Max(0, |before.blocks| - |before.used| - reserve)
      ensures Spare(reserve) == spare
    {
    }

    /** The last running sequence other than s that is not scheduled yet. */
    function PreemptionVictim(xs: seq<Sequence>, s: Sequence, scheduled: seq<Sequence>): (r: Option<Sequence>)
      ensures r.Some? ==> r.value in xs && r.value != s && r.value !in scheduled
      ensures r.None? ==> forall j | 0 <= j < |xs| :: xs[j] == s || xs[j] in scheduled
      ensures var p := Preemptible(xs, s, scheduled); r == if p == [] then None else Some(p[|p| - 1])
    {
      if xs == [] then None
      else
        var last := xs[|xs| - 1];
        if last != s && last !in scheduled then Some(last)
        else PreemptionVictim(xs[..|xs| - 1], s, scheduled)
    }

    /** Claims the block the next token of s needs. */
    method GrowForDecode(s: Sequence, ghost k: nat, now: real, ghost mem: seq<KV>)
      requires Ok(mem) && k < |live| && live[k] == s && CanGrow(s)
      modifies blockManager, s
      ensures Ok(mem) && |blockManager.blocks| == old(|blockManager.blocks|)
      ensures Views(live) == old(Views(live))[k := s.View()]
      ensures s.View() == old(s.View()).(table := s.blockTable)
      ensures |s.tokenIds| <= |s.blockTable| * env.BlockSize()
      ensures old(s.View().PromptReady()) ==>
                Denser(old(Views(live)), Views(live), old(blockManager.State()), blockManager.State())
    {
      hide Inv, Valid, WithinQuotas, Ranked, Apart, AllocatedTo, NumBlocks, Shape, Missing, Denser, IndexSound;
      ghost var vs, before := Views(live), blockManager.State();
      InvAt(env, before, mem, vs, k);
      Differ(live, waiting, running, k);
      ghost var taken := blockManager.MayAppend(s, now);
      GrowInv(env, before, blockManager.State(), mem, vs, k, |vs[k].tokens|, taken, now);
      ValidIndex(blockManager.State(), env.BlockSize());
      if vs[k].PromptReady() { DenserGrown(vs, k, s.View(), before, blockManager.State(), taken, Expired(before, now)); }
      ViewsUpdated(live, vs, k);
      RankedTable(live, waiting, vs, k, s.View());
    }

    /** Preempts s among other unscheduled sequences: the batch so far is not touched. */
    method PreemptFor(s: Sequence, ghost k: nat, scheduled: seq<Sequence>, ghost idx: seq<nat>,
                      ghost vs: seq<Seq>, ghost mem: seq<KV>)
      requires Ok(mem) && k < |live| && live[k] == s && s in running && s !in scheduled
      requires DecodeBatch(env, live, running, Views(live), scheduled, idx) && AllHeld(vs, Views(live))
      modifies this`waiting, this`running, this`waitingAges, this`preemptions, blockManager, s
      ensures Ok(mem) && |blockManager.blocks| == old(|blockManager.blocks|)
      ensures DecodeBatch(env, live, running, Views(live), scheduled, idx) && AllHeld(vs, Views(live))
      ensures |running| == old(|running|) - 1 && s !in running
      ensures forall x | x in old(running) && x != s :: x in running
      ensures running == Remove(old(running), s) && waiting == [s] + old(waiting)
      ensures preemptions == old(preemptions) + 1 && waitingAges == old(waitingAges)[s.req.requestId := 0]
      ensures WaitingIdle(live, old(waiting), old(Views(live))) ==> WaitingIdle(live, waiting, Views(live))
    {
      hide Ok, DecodeBatch, AllHeld, WaitingIdle;
      ghost var us, runs := Views(live), running;
      PreemptSpares(mem, s, k, scheduled, idx, vs);
      Preempt(s, k, mem);
    }

    lemma PreemptSpares(mem: seq<KV>, s: Sequence, k: nat, scheduled: seq<Sequence>, idx: seq<nat>, vs: seq<Seq>)
      requires Ok(mem) && k < |live| && live[k] == s && s in running && s !in scheduled
      requires DecodeBatch(env, live, running, Views(live), scheduled, idx) && AllHeld(vs, Views(live))
      ensures var us, rest := Views(live)[k := Restarted(s.View())], Remove(running, s);
              && DecodeBatch(env, live, rest, us, scheduled, idx) && AllHeld(vs, us)
              && |rest| == |running| - 1 && s !in rest
              && (forall x | x in running && x != s :: x in rest)
              && (WaitingIdle(live, waiting, Views(live)) ==> WaitingIdle(live, [s] + waiting, us))
    {
      hide Inv, Ranked;
      RemoveKeeps(running, s);
      InvAt(env, blockManager.State(), mem, Views(live), k);
    }

    /** The pool has the blocks that the next token of s needs. */
    ghost predicate CanGrow(s: Sequence)
      reads this, blockManager, s
    {
      && env.BlockSize() > 0
      && Missing(s.blockTable, |s.tokenIds|, env.BlockSize()) <= |blockManager.blocks| - |blockManager.usedBlockIds|
    }

    method RoomToGrow(s: Sequence, now: real, ghost mem: seq<KV>) returns (ok: bool)
      requires Ok(mem) && s in live
      modifies blockManager
      ensures Ok(mem) && |blockManager.blocks| == old(|blockManager.blocks|)
      ensures (ok <==> CanGrow(s)) && (ok <==> old(CanGrow(s)))
      ensures Fits(env, old(blockManager.State()), Views(live)) ==> ok
      ensures Poorer(old(blockManager.State()), blockManager.State())
    {
      hide Ok, Fits, Missing, PurgedTo, Poorer;
      ghost var before := blockManager.State();
      BlocksAreReal(mem);
      ok := Room(s, |s.tokenIds|, 0, now, mem);
      PurgedUsed(before, blockManager.State(), Expired(before, now));
    }

    /** Preempts the last sequence that may be preempted for s. */
    method PreemptLast(victim: Sequence, s: Sequence, scheduled: seq<Sequence>, ghost idx: seq<nat>, ghost vs: seq<Seq>,
                       ghost all: seq<Sequence>, ghost was: seq<Sequence>, ghost spared: nat, ghost mem: seq<KV>)
      requires Ok(mem) && s in running
      requires DecodeBatch(env, live, running, Views(live), scheduled, idx) && AllHeld(vs, Views(live))
      requires Preempted(all, spared, s, scheduled, running, was, waiting)
      requires 0 < spared <= |all| && victim == all[spared - 1]
      modifies this`waiting, this`running, this`waitingAges, this`preemptions, blockManager, victim
      ensures Ok(mem) && |blockManager.blocks| == old(|blockManager.blocks|) && victim != s && victim in live
      ensures DecodeBatch(env, live, running, Views(live), scheduled, idx) && AllHeld(vs, Views(live))
      ensures |running| < old(|running|) && s in running && preemptions == old(preemptions) + 1
      ensures waitingAges == old(waitingAges)[victim.req.requestId := 0]
      ensures WaitingIdle(live, old(waiting), old(Views(live))) ==> WaitingIdle(live, waiting, Views(live))
      ensures Preempted(all, spared - 1, s, scheduled, running, was, waiting)
    {
      hide Ok, DecodeBatch, AllHeld, WaitingIdle, Preempted, Remove, NoDup, Preemptible;
      RunningDistinct(mem);
      NextPreempted(all, spared, s, scheduled, running, was, waiting);
      ghost var x := LiveIndex(mem, victim);
      PreemptFor(victim, x, scheduled, idx, vs, mem);
    }

    lemma VictimLive(victim: Sequence, mem: seq<KV>)
      requires Ok(mem) && victim in running
      ensures victim in live
    {
    }

    /** Since the ages were these and so many had been preempted, ages have begun anew only by preemption. */
    ghost predicate AgesFrom(ages: map<string, nat>, count: nat)
      reads this`waitingAges, this`preemptions
    {
      NoneOlder(ages, waitingAges) && (preemptions == count ==> waitingAges == ages)
    }

    lemma AgesKnown(ages: map<string, nat>, count: nat)
      requires AgesFrom(ages, count)
      ensures NoneOlder(ages, waitingAges)
    {
    }

    lemma AgesNow(ages: map<string, nat>, was: map<string, nat>, id: string, count: nat)
      requires (waitingAges == ages && preemptions == count)
               || (NoneOlder(ages, was) && preemptions > count && waitingAges == was[id := 0])
      ensures AgesFrom(ages, count)
    {
    }

    /** Preempts other running sequences, last first, until s can take its next token; if only
        scheduled ones are left, s itself is preempted.  Those from spared on have been. */
    method MakeRoom(s: Sequence, ghost k: nat, scheduled: seq<Sequence>, ghost idx: seq<nat>,
                    now: real, ghost mem: seq<KV>) returns (ok: bool, ghost spared: nat)
      requires Ok(mem) && k < |live| && live[k] == s && s in running && s !in scheduled
      requires DecodeBatch(env, live, running, Views(live), scheduled, idx)
      modifies this`waiting, this`running, this`waitingAges, this`preemptions, blockManager, live
      ensures Ok(mem) && |blockManager.blocks| == old(|blockManager.blocks|)
      ensures DecodeBatch(env, live, running, Views(live), scheduled, idx)
      ensures AllHeld(old(Views(live)), Views(live))
      ensures ok ==> s in running && s.View() == old(s.View())
                     && CanGrow(s)
      ensures !ok ==> s !in running
      ensures var all := old(Preemptible(running, s, scheduled));
              && MadeRoom(all, spared, s, scheduled, ok, running, old(waiting), waiting)
              && preemptions == old(preemptions) + |all| - spared + if ok then 0 else 1
      ensures old(CanGrow(s)) ==> ok && preemptions == old(preemptions)
      ensures AgesFrom(old(waitingAges), old(preemptions))
      ensures Fits(env, old(blockManager.State()), old(Views(live))) ==>
                ok && preemptions == old(preemptions) && Views(live) == old(Views(live))
                && running == old(running) && waiting == old(waiting)
      ensures preemptions == old(preemptions) ==>
                && Views(live) == old(Views(live)) && running == old(running) && waiting == old(waiting)
                && Poorer(old(blockManager.State()), blockManager.State())
      ensures (&& scheduled == [] && WaitingIdle(live, old(waiting), old(Views(live)))
               && NumBlocks(|old(s.tokenIds)|, env.BlockSize()) <= old(|blockManager.blocks|)) ==> ok
    {
      hide Ok, DecodeBatch, AllHeld, Fits, WaitingIdle, CanGrow, NumBlocks, Preempted, MadeRoom, Remove, NoDup, Preemptible,
           Poorer, Views, NoneOlder, AgesFrom;
      ghost var vs, before, v, ages, count := Views(live), blockManager.State(), s.View(), waitingAges, preemptions;
      BlocksAreReal(mem);
      AgesNow(ages, ages, "", count);
      ghost var all, was := Preemptible(running, s, scheduled), waiting;
      spared := |all|;
      NonePreempted(s, scheduled, running, was);
      ghost var idle := scheduled == [] && WaitingIdle(live, waiting, vs)
                        && NumBlocks(|s.tokenIds|, env.BlockSize()) <= |before.blocks|;
      HeldSame(vs);
      var room := RoomToGrow(s, now, mem);
      while !room
        invariant Ok(mem) && |blockManager.blocks| == |before.blocks|
        invariant Making(vs, before, v, ages, count, was, old(running), all, s, scheduled, idx, spared, idle)
        invariant room <==> CanGrow(s)
        invariant old(CanGrow(s)) || Fits(env, before, vs) ==> room && spared == |all|
        decreases |running|
      {
        var victim := PreemptionVictim(running, s, scheduled);
        VictimIs(all, spared, s, scheduled, running, was, waiting);
        if victim.None? {
          if idle { AloneHasRoom(mem, s, k); }
          RoomMade(all, spared, s, scheduled, running, was, waiting);
          AgesKnown(ages, count);
          ghost var aged := waitingAges;
          PreemptFor(s, k, scheduled, idx, vs, mem);
          AgesNow(ages, aged, s.req.requestId, count);
          return false, 0;
        }
        VictimLive(victim.value, mem);
        room := MakeRoomNext(victim.value, s, scheduled, vs, before, v, ages, count, was, old(running), all, idx, spared,
                             idle, now, mem);
        spared := spared - 1;
      }
      RoomMade(all, spared, s, scheduled, running, was, waiting);
      ok := true;
    }

    /** What is so while room is made for s: those from spared on have been preempted, and until one has, nothing
        else has changed. */
    ghost predicate Making(vs: seq<Seq>, before: Store, v: Seq, ages: map<string, nat>, count: nat, was: seq<Sequence>,
                           runs: seq<Sequence>, all: seq<Sequence>, s: Sequence, scheduled: seq<Sequence>,
                           idx: seq<nat>, spared: nat, idle: bool)
      reads this, blockManager, live, s
    {
      && s in running && s.View() == v
      && DecodeBatch(env, live, running, Views(live), scheduled, idx) && AllHeld(vs, Views(live))
      && (idle ==> WaitingIdle(live, waiting, Views(live)))
      && Preempted(all, spared, s, scheduled, running, was, waiting)
      && spared <= |all| && preemptions == count + (|all| - spared) && AgesFrom(ages, count)
      && (spared == |all| ==>
            && Views(live) == vs && running == runs && waiting == was
            && Poorer(before, blockManager.State()))
    }

    /** Preempts one more and looks for room again. */
    method MakeRoomNext(victim: Sequence, s: Sequence, scheduled: seq<Sequence>, ghost vs: seq<Seq>, ghost before: Store,
                        ghost v: Seq, ghost ages: map<string, nat>, ghost count: nat, ghost was: seq<Sequence>,
                        ghost runs: seq<Sequence>, ghost all: seq<Sequence>, ghost idx: seq<nat>, ghost spared: nat,
                        ghost idle: bool, now: real, ghost mem: seq<KV>) returns (room: bool)
      requires Ok(mem) && s in live
      requires Making(vs, before, v, ages, count, was, runs, all, s, scheduled, idx, spared, idle)
      requires 0 < spared <= |all| && victim == all[spared - 1] && victim in live
      modifies this`waiting, this`running, this`waitingAges, this`preemptions, blockManager, victim
      ensures Ok(mem) && |blockManager.blocks| == old(|blockManager.blocks|) && |running| < old(|running|)
      ensures Making(vs, before, v, ages, count, was, runs, all, s, scheduled, idx, spared - 1, idle)
      ensures room <==> CanGrow(s)
    {
      hide Ok, DecodeBatch, AllHeld, Fits, WaitingIdle, CanGrow, Preempted, Preemptible, Poorer, Views, NoneOlder,
           AgesFrom;
      AgesKnown(ages, count);
      ghost var aged := waitingAges;
      PreemptLast(victim, s, scheduled, idx, vs, all, was, spared, mem);
      AgesNow(ages, aged, victim.req.requestId, count);
      room := RoomToGrow(s, now, mem);
    }

    lemma RunningDistinct(mem: seq<KV>)
      requires Ok(mem)
      ensures NoDup(running)
    {
    }

    lemma BlocksAreReal(mem: seq<KV>)
      requires Ok(mem)
      ensures env.BlockSize() > 0
    {
      InvStore(env, blockManager.State(), mem, Views(live));
    }

    lemma StoreSound(mem: seq<KV>)
      requires Ok(mem)
      ensures IndexSound(blockManager.State())
    {
      InvStore(env, blockManager.State(), mem, Views(live));
    }

    lemma LiveIndex(mem: seq<KV>, s: Sequence) returns (k: nat)
      requires Ok(mem) && s in running
      ensures k < |live| && live[k] == s && NoDup(live)
    {
      k := IndexIn(live, s);
    }

    /** A sequence that runs alone, while the waiting ones hold nothing, has room to grow to any
        length the pool can hold. */
    lemma AloneHasRoom(mem: seq<KV>, s: Sequence, k: nat)
      requires Ok(mem) && k < |live| && live[k] == s
      requires forall j | 0 <= j < |running| :: running[j] == s
      requires WaitingIdle(live, waiting, Views(live)) && env.BlockSize() > 0
      requires NumBlocks(|s.tokenIds|, env.BlockSize()) <= |blockManager.blocks|
      ensures CanGrow(s)
    {
      hide Inv, Ranked, NumBlocks;
      var vs := Views(live);
      forall j | 0 <= j < |live| && j != k ensures vs[j].table == [] {
        assert live[j] != live[k];
      }
      OneTable(vs, k);
      UsedWithinTables(env, blockManager.State(), mem, vs);
      InvStore(env, blockManager.State(), mem, vs);
      UsedAtMostAll(blockManager.State(), env.BlockSize());
    }

    /** Makes room for one more token of s and claims the block, or preempts s. */
    method TryDecode(s: Sequence, ghost k: nat, scheduled: seq<Sequence>, ghost idx: seq<nat>,
                     now: real, ghost mem: seq<KV>) returns (ok: bool)
      requires Ok(mem) && k < |live| && live[k] == s && s in running && s !in scheduled && s.View().PromptReady()
      requires DecodeBatch(env, live, running, Views(live), scheduled, idx)
      modifies this`waiting, this`running, this`waitingAges, this`preemptions, blockManager, live
      ensures Ok(mem) && |blockManager.blocks| == old(|blockManager.blocks|)
      ensures ok ==> DecodeBatch(env, live, running, Views(live), scheduled + [s], idx + [k])
      ensures !ok ==> DecodeBatch(env, live, running, Views(live), scheduled, idx) && !s.View().PromptReady()
      ensures AllHeld(old(Views(live)), Views(live))
      ensures preemptions >= old(preemptions) + (if ok then 0 else 1) && AgesFrom(old(waitingAges), old(preemptions))
      ensures Fits(env, old(blockManager.State()), old(Views(live))) ==>
                ok && preemptions == old(preemptions) && running == old(running) && waiting == old(waiting)
                && AllKept(live, [], old(Views(live)), Views(live))
      ensures preemptions == old(preemptions) ==>
                && running == old(running) && waiting == old(waiting)
                && Denser(old(Views(live)), Views(live), old(blockManager.State()), blockManager.State())
      ensures (&& scheduled == [] && WaitingIdle(live, old(waiting), old(Views(live)))
               && env.BlockSize() > 0
               && NumBlocks(|old(s.tokenIds)|, env.BlockSize()) <= old(|blockManager.blocks|)) ==> ok
    {
      hide Ok, DecodeBatch, AllHeld, AllKept, Fits, WaitingIdle, Missing, NumBlocks, NoDup, Denser, Poorer, NoneOlder;
      ghost var vs, before := Views(live), blockManager.State();
      Distinct(mem);
      ghost var spared;
      ok, spared := MakeRoom(s, k, scheduled, idx, now, mem);
      if ok {
        ghost var us, mid := Views(live), blockManager.State();
        if preemptions == old(preemptions) { DenserSame(vs, before, mid); }
        GrowForDecode(s, k, now, mem);
        if preemptions == old(preemptions) { DenserAgain(vs, us, Views(live), before, mid, blockManager.State()); }
        TakeDecode(env, live, running, us, scheduled, idx, s, k, s.View());
        HeldReplace(vs, us, k, s.View());
        TableKept(live, us, k, s.View());
      } else {
        if s.View().PromptReady() { ghost var x := ReadyRuns(mem, s); }
      }
    }

    lemma Distinct(mem: seq<KV>)
      requires Ok(mem)
      ensures NoDup(live)
    {
    }

    /** Schedules every sequence that is ready to decode, up to the limit, preempting others where
        the pool is exhausted; the scheduled ones move to the end of the running queue. */
    method ScheduleDecode(now: real, ghost mem: seq<KV>) returns (seqs: seq<Sequence>, ghost idx: seq<nat>)
      requires Ok(mem)
      modifies this`waiting, this`running, this`waitingAges, this`preemptions, blockManager, live
      ensures Ok(mem) && |blockManager.blocks| == old(|blockManager.blocks|)
      ensures |seqs| <= cfg.maxNumSeqs && DecodeBatch(env, live, running, Views(live), seqs, idx)
      ensures |seqs| <= |running| && running[|running| - |seqs|..] == seqs
      ensures AllHeld(old(Views(live)), Views(live)) && preemptions >= old(preemptions)
      ensures AgesFrom(old(waitingAges), old(preemptions))
      ensures |seqs| == cfg.maxNumSeqs || ReadyScheduled(live, Views(live), live, seqs)
      ensures seqs == [] && preemptions == old(preemptions) ==> Untouched()
      ensures !old(HasDecodeWork()) ==> seqs == [] && preemptions == old(preemptions)
      ensures preemptions == old(preemptions) ==>
                && Shuffled(old(running), running) && waiting == old(waiting)
                && Denser(old(Views(live)), Views(live), old(blockManager.State()), blockManager.State())
      ensures Fits(env, old(blockManager.State()), old(Views(live))) ==>
                && preemptions == old(preemptions) && waiting == old(waiting)
                && AllKept(live, [], old(Views(live)), Views(live))
                && (old(HasDecodeWork()) && cfg.maxNumSeqs > 0 ==> seqs != [])
      ensures (&& old(HasDecodeWork()) && cfg.maxNumSeqs > 0 && WaitingIdle(live, old(waiting), old(Views(live)))
               && LengthsFit(env, old(blockManager.State()), old(Views(live)))) ==> seqs != []
    {
      hide Ok, DecodeBatch, AllHeld, AllKept, Fits, WaitingIdle, LengthsFit, ReadyScheduled, Views, HasDecodeWork, Denser,
           Shuffled, NoneOlder;
      seqs, idx := DecodeLoop(now, mem);
      Requeue(seqs, idx, mem);
    }

    /** The scheduling pass over the running sequences as they are at its start. */
    method DecodeLoop(now: real, ghost mem: seq<KV>) returns (seqs: seq<Sequence>, ghost idx: seq<nat>)
      requires Ok(mem)
      modifies this`waiting, this`running, this`waitingAges, this`preemptions, blockManager, live
      ensures Ok(mem) && |blockManager.blocks| == old(|blockManager.blocks|)
      ensures |seqs| <= cfg.maxNumSeqs && DecodeBatch(env, live, running, Views(live), seqs, idx)
      ensures AllHeld(old(Views(live)), Views(live)) && preemptions >= old(preemptions)
      ensures AgesFrom(old(waitingAges), old(preemptions))
      ensures |seqs| == cfg.maxNumSeqs || ReadyScheduled(live, Views(live), live, seqs)
      ensures seqs == [] && preemptions == old(preemptions) ==> Untouched()
      ensures !old(HasDecodeWork()) ==> seqs == [] && preemptions == old(preemptions)
      ensures preemptions == old(preemptions) ==>
                && running == old(running) && waiting == old(waiting)
                && Denser(old(Views(live)), Views(live), old(blockManager.State()), blockManager.State())
      ensures Fits(env, old(blockManager.State()), old(Views(live))) ==>
                && preemptions == old(preemptions) && waiting == old(waiting)
                && AllKept(live, [], old(Views(live)), Views(live))
                && (old(HasDecodeWork()) && cfg.maxNumSeqs > 0 ==> seqs != [])
      ensures (&& old(HasDecodeWork()) && cfg.maxNumSeqs > 0 && WaitingIdle(live, old(waiting), old(Views(live)))
               && LengthsFit(env, old(blockManager.State()), old(Views(live)))) ==> seqs != []
    {
      hide Ok, DecodeSoFar, Denser, AllHeld, AllKept, Fits, WaitingIdle, LengthsFit, ReadyScheduled, Views, Apart,
           Untouched, HasDecodeWork, DecodeBatch, AnyReady, NoneOlder;
      ghost var vs, before := Views(live), blockManager.State();
      NoneOlderSame(waitingAges);
      ghost var idle := WaitingIdle(live, waiting, vs) && LengthsFit(env, before, vs);
      var snapshot := running;
      seqs, idx := [], [];
      PrefillStarts(mem);
      QueuesApart(mem);
      DecodeStart(mem);
      PoorerSame(before);
      DenserSame(vs, before, before);
      var i := 0;
      while i < |snapshot| && |seqs| < cfg.maxNumSeqs
        invariant i <= |snapshot| && |seqs| <= cfg.maxNumSeqs
        invariant Ok(mem) && |blockManager.blocks| == |before.blocks|
        invariant DecodeSoFar(env, live, running, vs, Views(live), snapshot, i, seqs, idx)
        invariant Passing(vs, before, old(waiting), old(waitingAges), old(preemptions), idle, snapshot, i, seqs)
      {
        var taken;
        ghost var k;
        taken, k := DecodeNext(snapshot, i, vs, before, old(waiting), old(waitingAges), old(preemptions), idle, seqs, idx,
                               now, mem);
        if taken { seqs, idx := seqs + [snapshot[i]], idx + [k]; }
        i := i + 1;
      }
      SnapshotDone(env, live, running, vs, Views(live), snapshot, i, seqs, idx);
      if seqs == [] && preemptions == old(preemptions) {
        NotTouched();
        SameDecodeWork();
      }
    }

    /** What is so after the first i sequences of a decode pass that began with vs, before, waits, ages, count and
        snapshot; idle: then waiting sequences held nothing and each ready one fitted the pool alone. */
    ghost predicate Passing(vs: seq<Seq>, before: Store, waits: seq<Sequence>, ages: map<string, nat>, count: nat,
                            idle: bool, snapshot: seq<Sequence>, i: nat, seqs: seq<Sequence>)
      reads this`running, this`waiting, this`waitingAges, this`preemptions, this`live, live, blockManager, snapshot
    {
      && preemptions >= count && AgesFrom(ages, count)
      && (preemptions == count ==>
            running == snapshot && waiting == waits && Denser(vs, Views(live), before, blockManager.State()))
      && (Fits(env, before, vs) ==>
            preemptions == count && waiting == waits && AllKept(live, [], vs, Views(live)))
      && ((idle || !AnyReady(vs)) && seqs == [] ==> preemptions == count)
      && (!AnyReady(vs) ==> seqs == [])
      && (seqs == [] && preemptions == count ==>
            && Views(live) == vs && blockManager.State() == before
            && forall j | 0 <= j < i && j < |snapshot| :: !snapshot[j].View().PromptReady())
    }

    /** The i-th sequence of the pass: if it is ready, it joins the batch or is preempted. */
    method DecodeNext(snapshot: seq<Sequence>, i: nat, ghost vs: seq<Seq>, ghost before: Store,
                      ghost waits: seq<Sequence>, ghost ages: map<string, nat>, ghost count: nat, ghost idle: bool,
                      seqs: seq<Sequence>, ghost idx: seq<nat>, now: real, ghost mem: seq<KV>)
      returns (taken: bool, ghost k: nat)
      requires Ok(mem) && i < |snapshot| && |blockManager.blocks| == |before.blocks|
      requires DecodeSoFar(env, live, running, vs, Views(live), snapshot, i, seqs, idx)
      requires Passing(vs, before, waits, ages, count, idle, snapshot, i, seqs)
      requires idle ==> WaitingIdle(live, waits, vs) && LengthsFit(env, before, vs)
      modifies this`waiting, this`running, this`waitingAges, this`preemptions, blockManager, live
      ensures Ok(mem) && |blockManager.blocks| == old(|blockManager.blocks|)
      ensures DecodeSoFar(env, live, running, vs, Views(live), snapshot, i + 1,
                          if taken then seqs + [snapshot[i]] else seqs, if taken then idx + [k] else idx)
      ensures Passing(vs, before, waits, ages, count, idle, snapshot, i + 1,
                      if taken then seqs + [snapshot[i]] else seqs)
    {
      hide Ok, DecodeSoFar, Denser, AllHeld, AllKept, Fits, WaitingIdle, LengthsFit, NumBlocks, NoDup, ReadyScheduled,
           Views, DecodeBatch, NoneOlder;
      var s := snapshot[i];
      ghost var us, mid, aged := Views(live), blockManager.State(), waitingAges;
      taken, k := false, 0;
      if s.View().PromptReady() {
        SnapshotLive(env, live, running, vs, us, snapshot, i, seqs, idx);
        k := ReadyRuns(mem, s);
        if Fits(env, before, vs) { KeptFits(env, before, mid, live, [], vs, us); }
        if idle && seqs == [] { FitLength(env, before, vs, k); }
        NotYet(env, live, running, vs, us, snapshot, i, seqs, idx);
        taken := TryDecode(s, k, seqs, idx, now, mem);
        NoneOlderAgain(ages, aged, waitingAges);
        ViewsOf(s);
        Tried(env, live, running, vs, us, Views(live), snapshot, i, seqs, idx, k, taken);
        if Fits(env, before, vs) { KeptTrans(live, [], [], vs, us, Views(live)); }
        if preemptions == count { DenserAgain(vs, us, Views(live), before, mid, blockManager.State()); }
      } else {
        ViewsOf(s);
        Skipped(env, live, running, vs, us, snapshot, i, seqs, idx);
      }
    }

    /** No queue, sequence or block has changed. */
    twostate predicate Untouched()
      reads this`live, this`waiting, this`running, live, blockManager
    {
      && live == old(live) && waiting == old(waiting) && running == old(running)
      && Views(live) == old(Views(live)) && blockManager.State() == old(blockManager.State())
    }

    twostate lemma NotTouched()
      requires live == old(live) && waiting == old(waiting) && running == old(running)
      requires Views(live) == old(Views(live)) && blockManager.State() == old(blockManager.State())
      ensures Untouched()
    {
    }

    twostate lemma SameDecodeWork()
      requires Untouched() && old(Apart(live, waiting, running))
      ensures running == old(running) && HasDecodeWork() == old(HasDecodeWork())
      ensures (forall j | 0 <= j < |running| :: !running[j].View().PromptReady()) ==> !HasDecodeWork()
    {
      hide Apart, Poorer;
      PoorerSame(blockManager.State());
      SameQueues();
      SameReserve();
    }

    lemma ViewsOf(s: Sequence)
      ensures forall j | 0 <= j < |live| && live[j] == s :: Views(live)[j] == s.View()
    {
    }

    lemma DecodeStart(mem: seq<KV>)
      requires Ok(mem)
      ensures NoDup(live) && NoDup(running) && forall j | 0 <= j < |running| :: running[j] in live
      ensures DecodeSoFar(env, live, running, Views(live), Views(live), running, 0, [], [])
      ensures AllKept(live, [], Views(live), Views(live))
    {
      forall j | 0 <= j < |running| ensures running[j] in live { assert running[j] in running; }
      forall j | 0 <= j < |live| && Views(live)[j].PromptReady() ensures live[j] in running {
        var k := ReadyRuns(mem, live[j]);
      }
    }

    /** What is ready to decode is running. */
    lemma ReadyRuns(mem: seq<KV>, s: Sequence) returns (k: nat)
      requires Ok(mem) && s in live && s.View().PromptReady()
      ensures k < |live| && live[k] == s && s in running && Views(live)[k] == s.View()
    {
      k := IndexIn(live, s);
      assert Views(live)[k] == s.View();
    }

    /** Moves the scheduled sequences, in order, to the end of the running queue. */
    method Requeue(seqs: seq<Sequence>, ghost idx: seq<nat>, ghost mem: seq<KV>)
      requires Ok(mem) && DecodeBatch(env, live, running, Views(live), seqs, idx)
      modifies this`running
      ensures Ok(mem) && DecodeBatch(env, live, running, Views(live), seqs, idx)
      ensures |running| == old(|running|) && |seqs| <= |running| && running[|running| - |seqs|..] == seqs
      ensures seqs == [] ==> running == old(running)
      ensures Shuffled(old(running), running)
    {
      hide Inv, Ranked, Shuffled;
      ghost var was, front := running, running;
      BatchDistinct(live, running, seqs, idx);
      var i := 0;
      while i < |seqs|
        invariant i <= |seqs| && running == front + seqs[..i]
        invariant Shuffled(was, running) && (i == 0 ==> running == was)
        invariant forall j | i <= j < |seqs| :: seqs[j] in front
      {
        MovedToEnd(was, running, seqs[i]);
        RemoveInFront(front, seqs[..i], seqs[i]);
        RemoveSpares(front, seqs, i);
        front := Remove(front, seqs[i]);
        running := Remove(running, seqs[i]) + [seqs[i]];
        AppendAssoc(front, seqs[..i], seqs[i]);
        assert seqs[..i + 1] == seqs[..i] + [seqs[i]];
        i := i + 1;
      }
      assert seqs[..i] == seqs;
      ShuffledQueues(live, waiting, was, running, seqs, idx);
    }

    /* ---------- The order of the waiting queue ---------- */

    /** Every waiting sequence is one step older. */
    method AgeWaiting(ghost mem: seq<KV>)
      requires Ok(mem)
      modifies this`waitingAges
      ensures Ok(mem)
      ensures forall id :: AgeOf(waitingAges, id) == AgeOf(old(waitingAges), id) + Occurrences(waiting, id)
    {
      var i := 0;
      while i < |waiting|
        invariant i <= |waiting|
        invariant forall id :: AgeOf(waitingAges, id) == AgeOf(old(waitingAges), id) + Occurrences(waiting[..i], id)
      {
        assert waiting[..i + 1] == waiting[..i] + [waiting[i]];
        var id := waiting[i].req.requestId;
        waitingAges := waitingAges[id := AgeOf(waitingAges, id) + 1];
        i := i + 1;
      }
      assert waiting[..i] == waiting;
    }

    /** The rank of the waiting sequence at place i. */
    ghost function RankAt(i: nat): Rank
      requires i < |waiting| && env.BlockSize() > 0
      reads this, blockManager, waiting
    {
      var id := waiting[i].req.requestId;
      var age := if id in waitingAges then waitingAges[id] else 0;
      Rank(age >= 8,
           CachedNow(blockManager.State(), env.cache, env.hasher, waiting[i].View()), age, i)
    }

    /** Under the cache-aware policy the starved, then those with the longest cached prefix, then
        the oldest come first; equals keep their order.  Other policies keep the order of arrival. */
    method ReorderWaiting(ghost mem: seq<KV>) returns (ghost ranks: seq<Rank>)
      requires Ok(mem)
      modifies this`waiting
      ensures Ok(mem) && |waiting| == old(|waiting|)
      ensures old(KeepsOrder()) ==> waiting == old(waiting)
      ensures forall s :: s in waiting <==> s in old(waiting)
      ensures cfg.fairness == CacheAwareLpm ==>
                && env.BlockSize() > 0 && Ranking(ranks, |waiting|)
                && forall i | 0 <= i < |waiting| ::
                     waiting[i] == old(waiting)[ranks[i].index] && ranks[i] == old(RankAt(ranks[i].index))
    {
      BlocksAreReal(mem);
      hide Inv, Ranked, NoDup;
      if cfg.fairness != CacheAwareLpm || |waiting| <= 1 {
        ranks := if waiting == [] then [] else [RankAt(0)];
        return;
      }
      var ranked := RankWaiting(mem);
      SortRanks(ranked);
      ranks := Sort(ranked);
      var was, order := waiting, Sort(ranked);
      waiting := seq(|order|, i requires 0 <= i < |order| && order[i].index < |was| => was[order[i].index]);
      ReorderedQueues(live, was, running, waiting, ranks, ranked);
      SameRanked(live, was, waiting, Views(live));
    }

    method RankWaiting(ghost mem: seq<KV>) returns (ranked: seq<Rank>)
      requires Ok(mem) && env.BlockSize() > 0
      ensures |ranked| == |waiting| && forall i | 0 <= i < |waiting| :: ranked[i] == RankAt(i)
    {
      hide Inv, Ranked, Apart;
      ranked := [];
      while |ranked| < |waiting|
        invariant |ranked| <= |waiting| && forall i | 0 <= i < |ranked| :: ranked[i] == RankAt(i)
      {
        var i := |ranked|;
        ghost var k := WaitingIndex(mem, i);
        InvAt(env, blockManager.State(), mem, Views(live), k);
        var age := AgeOf(waitingAges, waiting[i].req.requestId);
        var cached := blockManager.EstimateCachedPrefixTokens(waiting[i]);
        ranked := ranked + [Rank(age >= STARVATION_LIMIT, cached, age, i)];
      }
    }

    lemma WaitingIndex(mem: seq<KV>, i: nat) returns (k: nat)
      requires Ok(mem) && i < |waiting|
      ensures k < |live| && live[k] == waiting[i]
    {
      assert waiting[i] in waiting;
      k := IndexIn(live, waiting[i]);
    }

    /* ---------- One scheduling step ---------- */

    /** The waiting queue is not put in another order. */
    predicate KeepsOrder()
      reads this`waiting
    {
      cfg.fairness != CacheAwareLpm || |waiting| <= 1
    }

    /** Nobody can be admitted, and no running sequence can get its next chunk. */
    ghost predicate PrefillStuck()
      requires env.BlockSize() > 0
      reads this`waiting, this`running, waiting, running, blockManager, Unready(running)
    {
      NoAdmission(PrefillReserveBlocks()) && NothingFits(Unready(running))
    }

    /** Without caching and with nothing to decode, the first in line, of which nothing is computed yet,
        has a seat and room for its first chunk. */
    ghost predicate PlainAdmission()
      requires env.BlockSize() > 0
      reads this`waiting, this`running, waiting, running, blockManager
    {
      && !env.cache.enablePrefixCache && cfg.Sane() && !HasDecodeWork() && KeepsOrder()
      && waiting != [] && waiting[0].View().numComputed == 0 && Admissible(0)
    }

    /** At most cached content has gone. */
    twostate predicate Unmoved()
      reads this`live, this`waiting, this`running, live, blockManager
    {
      && live == old(live) && waiting == old(waiting) && running == old(running)
      && Views(live) == old(Views(live))
      && Poorer(old(blockManager.State()), blockManager.State())
    }

    twostate lemma SameWork(xs: seq<Sequence>)
      requires forall j | 0 <= j < |xs| :: xs[j].View() == old(xs[j].View())
      ensures DecodePressure(xs) == old(DecodePressure(xs)) && Unready(xs) == old(Unready(xs))
    {
      if xs != [] { SameWork(xs[1..]); }
    }

    twostate lemma SameQueues()
      requires Unmoved() && old(Apart(live, waiting, running))
      ensures forall s | s in live :: s.View() == old(s.View())
      ensures forall j | 0 <= j < |running| :: running[j].View() == old(running[j].View())
      ensures forall j | 0 <= j < |waiting| :: waiting[j].View() == old(waiting[j].View())
    {
      forall s | s in live ensures s.View() == old(s.View()) {
        var k := IndexIn(live, s);
        assert Views(live)[k] == old(Views(live))[k];
      }
      forall j | 0 <= j < |running| ensures running[j] in live { assert running[j] in running; }
      forall j | 0 <= j < |waiting| ensures waiting[j] in live { assert waiting[j] in waiting; }
    }

    /** Where nothing has moved there is the same to do, with no more room for it. */
    twostate lemma StillStuck()
      requires Unmoved() && old(Apart(live, waiting, running)) && env.BlockSize() > 0
      ensures HasDecodeWork() == old(HasDecodeWork()) && HasUnready() == old(HasUnready())
      ensures NothingFits(Unready(running)) == old(NothingFits(Unready(running)))
      ensures old(NoAdmission(PrefillReserveBlocks())) ==> NoAdmission(PrefillReserveBlocks())
    {
      hide Apart, Poorer, NothingFits, NoAdmission, PrefillReserveBlocks;
      SameQueues();
      SameReserve();
      PoorerUsed(old(blockManager.State()), blockManager.State());
      SameFit();
      if old(NoAdmission(PrefillReserveBlocks())) { NobodyYet(PrefillReserveBlocks()); }
    }

    twostate lemma SameFit()
      requires running == old(running) && forall j | 0 <= j < |running| :: running[j].View() == old(running[j].View())
      requires |blockManager.usedBlockIds| == old(|blockManager.usedBlockIds|)
      requires |blockManager.blocks| == old(|blockManager.blocks|) && env.BlockSize() > 0
      ensures NothingFits(Unready(running)) == old(NothingFits(Unready(running)))
    {
      hide Missing, ChunkFits;
      SameWork(running);
      SameReserve();
      assert Views(Unready(running)) == old(Views(Unready(running))) by { UnreadyIn(running); }
    }

    twostate lemma NobodyYet(reserve: nat)
      requires waiting == old(waiting) && |running| == old(|running|)
      requires forall j | 0 <= j < |waiting| :: waiting[j].View() == old(waiting[j].View())
      requires Poorer(old(blockManager.State()), blockManager.State()) && env.BlockSize() > 0
      requires old(NoAdmission(reserve))
      ensures NoAdmission(reserve)
    {
      hide Missing, Cold, Poorer;
      PoorerUsed(old(blockManager.State()), blockManager.State());
      if waiting != [] && old(HeadCold()) {
        PoorerCold(old(blockManager.State()), blockManager.State(), env.cache, env.hasher, waiting[0].View());
      }
    }

    twostate lemma SameReserve()
      requires running == old(running) && forall j | 0 <= j < |running| :: running[j].View() == old(running[j].View())
      ensures HasDecodeWork() == old(HasDecodeWork()) && HasUnready() == old(HasUnready())
      ensures PrefillReserveBlocks() == old(PrefillReserveBlocks())
    {
    }

    lemma {:induction false} UnreadyIn(xs: seq<Sequence>)
      ensures forall s | s in Unready(xs) :: s in xs && !s.View().PromptReady()
    {
      if xs != [] { UnreadyIn(xs[1..]); }
    }
    /** Plans one chunk for each running sequence that is still to be prefilled, within the limits. */
    method PrefillAdmitted(now: real, ghost mem: seq<KV>)
      returns (seqs: seq<Sequence>, ok: bool, ghost idx: seq<nat>)
      requires Ok(mem)
      modifies blockManager, live
      ensures Ok(mem) && |blockManager.blocks| == old(|blockManager.blocks|)
      ensures AllKept(live, [], old(Views(live)), Views(live))
      ensures |seqs| <= cfg.maxNumSeqs && PrefillBatch(env, live, running, Views(live), seqs, idx)
      ensures SumChunks(Views(live), idx) <= cfg.maxNumBatchedTokens
      ensures ChunksAtMost(Views(live), idx, old(PrefillChunkBudget()))
      ensures !ok ==> env.cache.enablePrefixCache
      ensures env.BlockSize() > 0 && (ok && seqs == [] <==> old(NothingFits(Unready(running))))
      ensures ok && seqs == [] ==> Unmoved() && (old(NoAdmission(PrefillReserveBlocks())) ==> PrefillStuck())
      ensures (&& Fits(env, old(blockManager.State()), old(Views(live))) && old(PrefillReserveBlocks()) == 0
               && old(Unready(running)) != [] && cfg.Sane()) ==> !ok || seqs != []
    {
      hide Inv, Ok, Apart, AllKept, Fits, PrefillBatch, Candidates, SumChunks, NoDup, Poorer, NothingFits, NoAdmission,
           Views, PrefillReserveBlocks, PrefillChunkBudget, ChunksAtMost;
      QueuesApart(mem);
      BudgetThere();
      ghost var cand := CandidateIndices(mem);
      seqs, ok, idx := PrefillLoop(Unready(running), cand, now, mem);
      if ok && seqs == [] { StillStuck(); }
    }

    lemma BudgetThere()
      ensures cfg.Sane() ==> PrefillChunkBudget() > 0
    {
    }

    lemma QueuesApart(mem: seq<KV>)
      requires Ok(mem)
      ensures Apart(live, waiting, running)
    {
    }

    /** Admits what it can, then plans one chunk for each running sequence that is still to be
        prefilled, within the limits.  If that yields nothing, the scheduler is stuck with prefilling, and
        it stays so: where nobody can be admitted the result is empty exactly if nothing fits. */
    method SchedulePrefill(now: real, ghost mem: seq<KV>)
      returns (seqs: seq<Sequence>, ok: bool, ghost idx: seq<nat>, ghost ranks: seq<Rank>)
      requires Ok(mem)
      modifies this`waiting, this`running, this`waitingAges, blockManager, live
      ensures Ok(mem) && |blockManager.blocks| == old(|blockManager.blocks|)
      ensures AllKept(live, [], old(Views(live)), Views(live))
      ensures |seqs| <= cfg.maxNumSeqs && PrefillBatch(env, live, running, Views(live), seqs, idx)
      ensures SumChunks(Views(live), idx) <= cfg.maxNumBatchedTokens
      ensures !ok ==> env.cache.enablePrefixCache
      ensures old(HasDecodeWork()) <==> HasDecodeWork()
      ensures old(running) <= running && |running| + |waiting| == |old(running)| + |old(waiting)|
      ensures cfg.fairness != CacheAwareLpm ==> running + waiting == old(running) + old(waiting)
      ensures cfg.fairness == CacheAwareLpm ==>
                && env.BlockSize() > 0 && Ranking(ranks, |old(waiting)|)
                && forall i | 0 <= i < |old(waiting)| ::
                     && (running + waiting)[|old(running)| + i] == old(waiting)[ranks[i].index]
                     && ranks[i] == old(RankAt(ranks[i].index))
      ensures forall s | s in running :: s in old(running) || s in old(waiting)
      ensures AgedBut(old(waitingAges), waitingAges, IdsOf(running[|old(running)|..]))
      ensures env.BlockSize() > 0 && (ok && seqs == [] ==> PrefillStuck())
      ensures old(KeepsOrder() && NoAdmission(PrefillReserveBlocks())) ==>
                && (ok && seqs == [] <==> old(NothingFits(Unready(running))))
                && (ok && seqs == [] ==> Unmoved())
      ensures old(PlainAdmission()) ==> ok && seqs != []
      ensures (&& Fits(env, old(blockManager.State()), old(Views(live))) && live != [] && cfg.Sane()
               && (!old(HasDecodeWork()) || (cfg.watermarkBlocks == 0 && old(HasUnready())))) ==> !ok || seqs != []
    {
      hide Inv, Ok, AllKept, Fits, PrefillBatch, SumChunks, AnyReady, NoDup, Apart, Poorer, NothingFits, NoAdmission,
           Admissible, Views, HasDecodeWork, HasUnready, PlainAdmission, Ranking, RankAt, AgedBut, IdsOf;
      ghost var vs, before := Views(live), blockManager.State();
      QueuesApart(mem);
      PrefillStarts(mem);
      ranks := AdmitWaiting(now, mem);
      ghost var us, mid := Views(live), blockManager.State();
      KeptFits(env, before, mid, live, [], vs, us);
      AfterAdmission(mem, vs);
      if old(KeepsOrder() && NoAdmission(PrefillReserveBlocks())) { StillStuck(); }
      seqs, ok, idx := PrefillAdmitted(now, mem);
      KeptTrans(live, [], [], vs, us, Views(live));
      PoorerAgain(before, mid, blockManager.State());
      WorkKept(mem, vs);
    }

    /** Puts the waiting queue in order and admits from its front. */
    method AdmitWaiting(now: real, ghost mem: seq<KV>) returns (ghost ranks: seq<Rank>)
      requires Ok(mem)
      modifies this`waiting, this`running, this`waitingAges, blockManager, live
      ensures Ok(mem) && |blockManager.blocks| == old(|blockManager.blocks|)
      ensures old(running) <= running && AllKept(live, [], old(Views(live)), Views(live))
      ensures cfg.fairness != CacheAwareLpm ==> running + waiting == old(running) + old(waiting)
      ensures |running| + |waiting| == |old(running)| + |old(waiting)|
      ensures cfg.fairness == CacheAwareLpm ==>
                && env.BlockSize() > 0 && Ranking(ranks, |old(waiting)|)
                && forall i | 0 <= i < |old(waiting)| ::
                     && (running + waiting)[|old(running)| + i] == old(waiting)[ranks[i].index]
                     && ranks[i] == old(RankAt(ranks[i].index))
      ensures forall s | s in running :: s in old(running) || s in old(waiting)
      ensures AgedBut(old(waitingAges), waitingAges, IdsOf(running[|old(running)|..]))
      ensures HasDecodeWork() == old(HasDecodeWork()) && (old(HasUnready()) ==> HasUnready())
      ensures env.BlockSize() > 0 && NoAdmission(PrefillReserveBlocks())
      ensures old(KeepsOrder() && NoAdmission(PrefillReserveBlocks())) ==> Unmoved()
      ensures old(PlainAdmission()) ==> !env.cache.enablePrefixCache && !NothingFits(Unready(running))
      ensures (Fits(env, old(blockManager.State()), old(Views(live))) && !AnyReady(old(Views(live)))
               && old(waiting) != [] && cfg.maxNumSeqs > 0) ==> running != []
    {
      hide Inv, Ok, AllKept, Fits, AnyReady, NoDup, Apart, Poorer, NothingFits, NoAdmission, Admissible, Views, Missing,
           Ranking, RankAt, AgedBut, IdsOf;
      BlocksAreReal(mem);
      ghost var vs, plain := Views(live), PlainAdmission();
      PrefillStarts(mem);
      UnreadyIndex(mem);
      ranks := ReorderWaiting(mem);
      ghost var order := waiting;
      AdmitLoop(now, mem);
      InOrder(old(running), order, running, waiting);
      KeptLess(live, old(running), vs, Views(live));
      if old(HasUnready()) { StillUnready(old(running), vs, mem); }
      WorkKept(mem, vs);
      if plain { PlainFits(mem); }
    }

    /** Whoever has moved on from the front of the queue stands in the same order. */
    lemma InOrder(runs: seq<Sequence>, order: seq<Sequence>, xs: seq<Sequence>, ys: seq<Sequence>)
      requires runs <= xs && xs + ys == runs + order
      ensures |xs| + |ys| == |runs| + |order|
      ensures forall i | 0 <= i < |order| :: (xs + ys)[|runs| + i] == order[i]
      ensures forall s | s in xs :: s in runs || s in order
    {
      forall s | s in xs ensures s in runs || s in order {
        var i := IndexIn(xs, s);
        assert (runs + order)[i] == (xs + ys)[i] == s;
      }
    }

    /** A plain admission gets its chunk. */
    twostate lemma PlainFits(mem: seq<KV>)
      requires old(Ok(mem)) && env.BlockSize() > 0 && old(PlainAdmission()) && live == old(live)
      requires old(running) < running && running + waiting == old(running) + old(waiting)
      requires AdmittedAsIs(old(Views(live)), Views(live)) && !HasDecodeWork()
      requires Poorer(old(blockManager.State()), blockManager.State())
      ensures !NothingFits(Unready(running))
    {
      hide Inv, Ranked, Missing, Poorer;
      var s := old(waiting)[0];
      var k := IndexIn(live, s);
      assert Views(live)[k] == s.View() && old(Views(live))[k] == old(s.View());
      assert running[|old(running)|] == (running + waiting)[|old(running)|] == s;
      PoorerUsed(old(blockManager.State()), blockManager.State());
      FirstChunkFits(s);
    }

    /** Nothing of s is computed, and its first chunk, as far as admission looks, has room. */
    lemma FirstChunkFits(s: Sequence)
      requires env.BlockSize() > 0 && cfg.Sane() && !HasDecodeWork() && s in running && s.numComputedTokens == 0
      requires Missing(s.blockTable, AdmissionTarget(s.View()), env.BlockSize()) <= Spare(0)
      ensures !NothingFits(Unready(running))
    {
      NoPressure(running);
      UnreadyHas(running, s);
      var xs, budget := Unready(running), FirstBudget();
      NumBlocksMonotone(ChunkEnd(s.View(), budget), AdmissionTarget(s.View()), env.BlockSize());
      hide NumBlocks;
      var j := IndexIn(xs, s);
      assert Views(xs)[j] == s.View() && ChunkFits(s.View(), budget, env.BlockSize(), Spare(0));
    }

    lemma {:induction false} NoPressure(xs: seq<Sequence>)
      requires forall s | s in xs :: !s.View().PromptReady()
      ensures DecodePressure(xs) == 0
    {
      if xs != [] { NoPressure(xs[1..]); }
    }

    lemma PrefillStarts(mem: seq<KV>)
      requires Ok(mem)
      ensures HasDecodeWork() <==> AnyReady(Views(live))
      ensures live != [] ==> waiting != [] || running != []
    {
      hide Inv;
      Start(mem);
      if AnyReady(Views(live)) {
        var j :| 0 <= j < |live| && Views(live)[j].PromptReady();
        var k := ReadyRuns(mem, live[j]);
        assert live[j].View().PromptReady();
      }
      if live != [] { assert live[0] in live; }
    }

    /** Keeping all sequences keeps the work there is. */
    lemma WorkKept(mem: seq<KV>, vs: seq<Seq>)
      requires Ok(mem) && AllKept(live, [], vs, Views(live))
      ensures HasDecodeWork() <==> AnyReady(vs)
    {
      hide Inv, Ok, Kept;
      PrefillStarts(mem);
      SameReady(live, vs, Views(live));
    }

    lemma AfterAdmission(mem: seq<KV>, vs: seq<Seq>)
      requires Ok(mem) && AllKept(live, [], vs, Views(live))
      ensures !AnyReady(vs) ==> !HasDecodeWork() && Unready(running) == running
      ensures HasUnready() ==> Unready(running) != []
    {
      hide Inv, Ok;
      WorkKept(mem, vs);
      if !HasDecodeWork() { AllUnready(running); }
      if HasUnready() {
        var s :| s in running && !s.View().PromptReady();
        UnreadyHas(running, s);
      }
    }

    lemma {:induction false} UnreadyHas(xs: seq<Sequence>, s: Sequence)
      requires s in xs && !s.View().PromptReady()
      ensures s in Unready(xs)
    {
      if xs[0] != s { UnreadyHas(xs[1..], s); }
    }

    /** Admission adds to the running sequences and leaves those that ran as they were. */
    lemma StillUnready(runs: seq<Sequence>, vs: seq<Seq>, mem: seq<KV>)
      requires Ok(mem) && runs <= running && AllKept(live, [], vs, Views(live))
      requires exists j :: 0 <= j < |live| && live[j] in runs && !vs[j].PromptReady()
      ensures HasUnready()
    {
      hide Inv, Ranked;
      var j :| 0 <= j < |live| && live[j] in runs && !vs[j].PromptReady();
      assert live[j] in running && !live[j].View().PromptReady();
    }

    lemma UnreadyIndex(mem: seq<KV>)
      requires Ok(mem)
      ensures HasUnready() ==> exists j :: 0 <= j < |live| && live[j] in running && !Views(live)[j].PromptReady()
    {
      hide Inv, Ranked;
      if HasUnready() {
        var s :| s in running && !s.View().PromptReady();
        var j := IndexIn(live, s);
      }
    }

    lemma {:induction false} AllUnready(xs: seq<Sequence>)
      requires forall j | 0 <= j < |xs| :: !xs[j].View().PromptReady()
      ensures Unready(xs) == xs
    {
      if xs != [] { AllUnready(xs[1..]); }
    }

    lemma {:induction false} UnreadyKeeps(xs: seq<Sequence>)
      requires NoDup(xs)
      ensures NoDup(Unready(xs))
      ensures forall j | 0 <= j < |Unready(xs)| :: Unready(xs)[j] in xs && !Unready(xs)[j].View().PromptReady()
    {
      if xs != [] {
        var rest := xs[1..];
        assert xs == [xs[0]] + rest;
        UnreadyKeeps(rest);
        forall j | 0 <= j < |Unready(rest)| ensures Unready(rest)[j] != xs[0] {
          var i := IndexIn(rest, Unready(rest)[j]);
        }
      }
    }

    lemma CandidateIndices(mem: seq<KV>) returns (cand: seq<nat>)
      requires Ok(mem)
      ensures Candidates(live, running, Unready(running), cand, Views(live), 0)
    {
      hide Inv;
      var xs := Unready(running);
      UnreadyKeeps(running);
      cand := IndicesIn(live, xs);
      forall j | 0 <= j < |cand| ensures Prefilling(Views(live)[cand[j]]) {
        assert live[cand[j]] == xs[j] && xs[j] in running;
      }
    }

    /** No running sequence that is still to be prefilled can get its next chunk. */
    ghost predicate NobodyFits()
      requires env.BlockSize() > 0
      reads this`running, running, blockManager
    {
      cfg.maxNumSeqs > 0 && FirstBudget() > 0 ==>
        forall s | s in running && !s.View().PromptReady() ::
          !ChunkFits(s.View(), FirstBudget(), env.BlockSize(), Spare(PrefillReserveBlocks()))
    }

    /** That is what it means that nothing fits. */
    lemma NothingFitsMeans()
      requires env.BlockSize() > 0
      ensures NothingFits(Unready(running)) <==> NobodyFits()
    {
      hide ChunkFits, FirstBudget, Spare, PrefillReserveBlocks;
      var xs := Unready(running);
      UnreadyIn(running);
      forall s | s in running && !s.View().PromptReady() ensures exists j :: 0 <= j < |xs| && xs[j] == s {
        UnreadyHas(running, s);
        var j := IndexIn(xs, s);
      }
      assert forall j | 0 <= j < |xs| :: Views(xs)[j] == xs[j].View() && xs[j] in xs;
    }

    /** How many running sequences are ready, in whatever order they stand. */
    lemma {:induction false} PressureIs(xs: seq<Sequence>)
      requires NoDup(xs)
      ensures DecodePressure(xs) == |set s | s in xs && s.View().PromptReady()|
    {
      if xs != [] {
        var rest := xs[1..];
        PressureIs(rest);
        assert xs == [xs[0]] + rest;
        var some := set s | s in rest && s.View().PromptReady();
        assert xs[0] !in rest;
        assert (set s | s in xs && s.View().PromptReady()) == if xs[0].View().PromptReady() then some + {xs[0]} else some;
      }
    }

    /** Decoding without a preemption leaves no more room, so prefilling stays stuck. */
    twostate lemma StillCrowded()
      requires live == old(live) && waiting == old(waiting) && Shuffled(old(running), running) && env.BlockSize() > 0
      requires old(Apart(live, waiting, running)) && forall s | s in waiting :: !old(s.View().PromptReady())
      requires Denser(old(Views(live)), Views(live), old(blockManager.State()), blockManager.State())
      requires old(NobodyFits() && NoAdmission(PrefillReserveBlocks()))
      ensures PrefillStuck()
    {
      hide Apart, Denser, Shuffled, NothingFits, NoAdmission, PrefillReserveBlocks, FirstBudget, Spare, ChunkFits,
           NobodyFits, Leaner, Cold, Missing;
      DenserViews();
      SameMembersRun();
      SameBudget();
      CrowdedOut();
      NothingFitsMeans();
      forall j | 0 <= j < |waiting| ensures waiting[j].View() == old(waiting[j].View()) {
        assert waiting[j] in waiting;
      }
      StillNobody(PrefillReserveBlocks());
    }

    twostate lemma DenserViews()
      requires live == old(live) && old(Apart(live, waiting, running))
      requires Denser(old(Views(live)), Views(live), old(blockManager.State()), blockManager.State())
      ensures forall s | s in live ::
                && s.View().PromptReady() == old(s.View().PromptReady())
                && (!s.View().PromptReady() ==> s.View() == old(s.View()))
      ensures old(forall s | s in running :: s in live) && old(forall s | s in waiting :: s in live)
      ensures |blockManager.usedBlockIds| >= old(|blockManager.usedBlockIds|)
      ensures |blockManager.blocks| == old(|blockManager.blocks|)
      ensures Leaner(old(blockManager.State()), blockManager.State())
    {
      hide Leaner;
      forall s | s in live
        ensures s.View().PromptReady() == old(s.View().PromptReady())
        ensures !s.View().PromptReady() ==> s.View() == old(s.View())
      {
        var k := IndexIn(live, s);
        assert Views(live)[k] == s.View() && old(Views(live))[k] == old(s.View());
      }
    }

    twostate lemma SameMembersRun()
      requires Shuffled(old(running), running) && old(Apart(live, waiting, running))
      ensures (forall s :: s in running <==> s in old(running)) && NoDup(running) && old(NoDup(running))
      ensures |running| == old(|running|)
    {
      forall s ensures s in running <==> s in old(running) {
        if s in running { var j := IndexIn(running, s); }
        if s in old(running) { var j := IndexIn(old(running), s); }
      }
    }

    twostate lemma SameBudget()
      requires forall s :: s in running <==> s in old(running)
      requires NoDup(running) && old(NoDup(running))
      requires forall s | s in running :: s.View().PromptReady() == old(s.View().PromptReady())
      ensures FirstBudget() == old(FirstBudget()) && PrefillReserveBlocks() == old(PrefillReserveBlocks())
      ensures HasDecodeWork() == old(HasDecodeWork())
    {
      hide NoDup;
      PressureIs(running);
      PressureWas();
      assert (set s | s in running && s.View().PromptReady())
          == (set s | s in old(running) && old(s.View().PromptReady()));
    }

    twostate lemma PressureWas()
      requires old(NoDup(running))
      ensures old(DecodePressure(running)) == |set s | s in old(running) && old(s.View().PromptReady())|
    {
      WasPressure(old(running));
    }

    twostate lemma WasPressure(xs: seq<Sequence>)
      requires NoDup(xs)
      ensures old(DecodePressure(xs)) == |set s | s in xs && old(s.View().PromptReady())|
    {
      if xs != [] {
        var rest := xs[1..];
        WasPressure(rest);
        assert xs == [xs[0]] + rest;
        var some := set s | s in rest && old(s.View().PromptReady());
        assert xs[0] !in rest;
        assert (set s | s in xs && old(s.View().PromptReady()))
            == if old(xs[0].View().PromptReady()) then some + {xs[0]} else some;
      }
    }

    twostate lemma CrowdedOut()
      requires env.BlockSize() > 0 && forall s :: s in running <==> s in old(running)
      requires forall s | s in running ::
                 && s.View().PromptReady() == old(s.View().PromptReady())
                 && (!s.View().PromptReady() ==> s.View() == old(s.View()))
      requires FirstBudget() == old(FirstBudget()) && PrefillReserveBlocks() == old(PrefillReserveBlocks())
      requires |blockManager.usedBlockIds| >= old(|blockManager.usedBlockIds|)
      requires |blockManager.blocks| == old(|blockManager.blocks|)
      ensures old(NobodyFits()) ==> NobodyFits()
    {
      hide FirstBudget, PrefillReserveBlocks, Missing;
    }

    twostate lemma StillNobody(reserve: nat)
      requires waiting == old(waiting) && |running| == old(|running|) && env.BlockSize() > 0
      requires forall j | 0 <= j < |waiting| :: waiting[j].View() == old(waiting[j].View())
      requires |blockManager.usedBlockIds| >= old(|blockManager.usedBlockIds|)
      requires |blockManager.blocks| == old(|blockManager.blocks|)
      requires Leaner(old(blockManager.State()), blockManager.State()) && old(NoAdmission(reserve))
      ensures NoAdmission(reserve)
    {
      hide Missing, Cold, Leaner;
      if waiting != [] && old(HeadCold()) {
        LeanerCold(old(blockManager.State()), blockManager.State(), env.cache, env.hasher, waiting[0].View());
      }
    }

    /** The policy's choice. */
    predicate PreferPrefill()
      reads this`waiting, this`running, this`lastStepWasPrefill, running
    {
      Prefers(cfg.fairness, HasUnready(), HasDecodeWork(), HasPrefillWork(), lastStepWasPrefill)
    }

    /** A batch within the limits: chunks that are planned and have blocks, or sequences that can
        take their next token. */
    ghost predicate BatchOk(r: Scheduled, idx: seq<nat>)
      reads this, live
    {
      r.Batch? ==>
        && r.seqs != [] && |r.seqs| <= cfg.maxNumSeqs && lastStepWasPrefill == r.isPrefill
        && (r.isPrefill ==> && PrefillBatch(env, live, running, Views(live), r.seqs, idx)
                            && SumChunks(Views(live), idx) <= cfg.maxNumBatchedTokens)
        && (!r.isPrefill ==> DecodeBatch(env, live, running, Views(live), r.seqs, idx))
    }

    /** Nothing can decode, nobody can be admitted, and nothing running can get its next chunk. */
    ghost predicate Stuck()
      requires env.BlockSize() > 0
      reads this`waiting, this`running, waiting, running, blockManager, Unready(running)
    {
      !HasDecodeWork() && PrefillStuck()
    }

    /** One step of scheduling: ages the waiting queue, then prefill or decode as the policy
        prefers, and the other kind if that yields nothing: against a preference for decoding only
        when nothing can decode, and never against one for a prefill that has room.  While all worst cases fit the pool,
        a step never fails for want of blocks and never preempts. */
    method Schedule(now: real, ghost mem: seq<KV>) returns (r: Scheduled, ghost idx: seq<nat>)
      requires Ok(mem)
      modifies this`waiting, this`running, this`waitingAges, this`preemptions, this`lastStepWasPrefill,
               blockManager, live
      ensures Ok(mem) && |blockManager.blocks| == old(|blockManager.blocks|)
      ensures BatchOk(r, idx)
      ensures r.RematchFailed? ==> env.cache.enablePrefixCache
      ensures env.BlockSize() > 0 && (r.NoSchedulable? && cfg.maxNumSeqs > 0 ==>
                !HasDecodeWork() && (preemptions == old(preemptions) || !old(PreferPrefill()) ==> Stuck()))
      ensures old(Clear()) ==> (r.NoSchedulable? <==> old(Stuck())) && (r.NoSchedulable? ==> Unmoved())
      ensures AllHeld(old(Views(live)), Views(live)) && preemptions >= old(preemptions)
      ensures forall id :: AgeOf(waitingAges, id) == AgeOf(old(waitingAges), id) + Occurrences(old(waiting), id)
                           || AgeOf(waitingAges, id) == 0
      ensures preemptions == old(preemptions) ==>
                var admitted := set s | s in running && s in old(waiting) :: s.req.requestId;
                forall id | id !in admitted ::
                  AgeOf(waitingAges, id) == AgeOf(old(waitingAges), id) + Occurrences(old(waiting), id)
      ensures Fits(env, old(blockManager.State()), old(Views(live))) ==>
                preemptions == old(preemptions) && AllKept(live, [], old(Views(live)), Views(live))
      ensures Fits(env, old(blockManager.State()), old(Views(live))) && live != [] && cfg.Sane() ==> !r.NoSchedulable?
      ensures r.Batch? && !r.isPrefill ==>
                DecodeRight(cfg.fairness, old(HasUnready()), old(waiting != [] || HasUnready()),
                            old(lastStepWasPrefill), preemptions > old(preemptions) || PrefillStuck())
      ensures r.Batch? && !r.isPrefill && old(KeepsOrder() && NoAdmission(PrefillReserveBlocks())) ==>
                DecodeRight(cfg.fairness, old(HasUnready()), old(waiting != [] || HasUnready()),
                            old(lastStepWasPrefill), old(PrefillStuck()))
      ensures (r.RematchFailed? || (r.Batch? && r.isPrefill)) && cfg.maxNumSeqs > 0 ==>
                PrefillRight(cfg.fairness, old(HasUnready()), old(lastStepWasPrefill), !HasDecodeWork())
      ensures r.Batch? && r.isPrefill && !old(PreferPrefill()) && cfg.maxNumSeqs > 0 ==> !HasDecodeWork()
      ensures (&& Fits(env, old(blockManager.State()), old(Views(live))) && live != [] && cfg.Sane()
               && old(PreferPrefill()) && (!old(HasDecodeWork()) || (cfg.watermarkBlocks == 0 && old(HasUnready()))))
              ==> r.RematchFailed? || (r.Batch? && r.isPrefill)
    {
      hide Inv, Ok, AllKept, AllHeld, Fits, AnyReady, Kept, Stepped, Unready, PrefillReserveBlocks, NoAdmission,
           NothingFits, Views, HasDecodeWork, HasUnready, PlainAdmission, Poorer, Apart, BatchOk, AgeOf, Occurrences;
      NothingYet(env, live, Views(live), blockManager.State());
      PlainMeans(mem);
      AgeWaiting(mem);
      assert Unready(running) == old(Unready(running));
      assert NothingFits(Unready(running)) == old(NothingFits(Unready(running)));
      assert Stuck() == old(Stuck());
      SomethingToDo(mem);
      r, idx := Choose(now, mem);
      StepMeans(env, live, old(Views(live)), Views(live), old(blockManager.State()), blockManager.State());
    }

    /** What can be told before a call of schedule: nothing can decode, and the first in line, if there
        is one with a seat, surely does not get in, or surely does. */
    ghost predicate Clear()
      requires env.BlockSize() > 0
      reads this`waiting, this`running, waiting, running, blockManager
    {
      !HasDecodeWork() && KeepsOrder() && (NoAdmission(PrefillReserveBlocks()) || PlainAdmission())
    }

    /** The kind of work that the policy prefers, and the other kind if that yields nothing. */
    method Choose(now: real, ghost mem: seq<KV>) returns (r: Scheduled, ghost idx: seq<nat>)
      requires Ok(mem)
      modifies this`waiting, this`running, this`waitingAges, this`preemptions, this`lastStepWasPrefill,
               blockManager, live
      ensures Ok(mem) && BatchOk(r, idx)
      ensures Stepped(env, live, old(Views(live)), Views(live), old(blockManager.State()), blockManager.State())
      ensures r.RematchFailed? ==> env.cache.enablePrefixCache
      ensures env.BlockSize() > 0 && (r.NoSchedulable? && cfg.maxNumSeqs > 0 ==>
                !HasDecodeWork() && (preemptions == old(preemptions) || !old(PreferPrefill()) ==> Stuck()))
      ensures old(Clear()) ==> (r.NoSchedulable? <==> old(Stuck())) && (r.NoSchedulable? ==> Unmoved())
      ensures preemptions >= old(preemptions) && NoneOlder(old(waitingAges), waitingAges)
      ensures preemptions == old(preemptions) ==>
                AgedBut(old(waitingAges), waitingAges, set s | s in running && s in old(waiting) :: s.req.requestId)
      ensures Fits(env, old(blockManager.State()), old(Views(live))) ==> preemptions == old(preemptions)
      ensures (&& Fits(env, old(blockManager.State()), old(Views(live))) && live != [] && cfg.Sane()
               && (old(PreferPrefill()) || old(HasDecodeWork()))) ==> !r.NoSchedulable?
      ensures r.Batch? && !r.isPrefill ==>
                DecodeRight(cfg.fairness, old(HasUnready()), old(waiting != [] || HasUnready()),
                            old(lastStepWasPrefill), preemptions > old(preemptions) || PrefillStuck())
      ensures r.Batch? && !r.isPrefill && old(KeepsOrder() && NoAdmission(PrefillReserveBlocks())) ==>
                DecodeRight(cfg.fairness, old(HasUnready()), old(waiting != [] || HasUnready()),
                            old(lastStepWasPrefill), old(PrefillStuck()))
      ensures (r.RematchFailed? || (r.Batch? && r.isPrefill)) && cfg.maxNumSeqs > 0 ==>
                PrefillRight(cfg.fairness, old(HasUnready()), old(lastStepWasPrefill), !HasDecodeWork())
      ensures r.Batch? && r.isPrefill && !old(PreferPrefill()) && cfg.maxNumSeqs > 0 ==> !HasDecodeWork()
      ensures (&& Fits(env, old(blockManager.State()), old(Views(live))) && live != [] && cfg.Sane()
               && old(PreferPrefill()) && (!old(HasDecodeWork()) || (cfg.watermarkBlocks == 0 && old(HasUnready()))))
              ==> r.RematchFailed? || (r.Batch? && r.isPrefill)
    {
      hide Inv, Ok, AllKept, AllHeld, Fits, AnyReady, Kept, Stepped, Unready, PrefillReserveBlocks, NoAdmission,
           NothingFits, Views, HasDecodeWork, HasUnready, PlainAdmission, Poorer, Apart, PrefillBatch, DecodeBatch,
           SumChunks, AgedBut, NoneOlder, IdsOf, Shuffled;
      ghost var vs, before, ages, waits, runs := Views(live), blockManager.State(), waitingAges, waiting, running;
      NothingYet(env, live, vs, before);
      NoneOlderSame(ages);
      QueuesApart(mem);
      PlainMeans(mem);
      var batch;
      var prefillFirst := PreferPrefill();
      if prefillFirst {
        batch, idx := PrefillStep(now, mem, vs, before);
        StepAges(ages, ages, waits, runs, mem);
      } else {
        batch, idx := DecodeStep(now, mem, vs, before);
        if batch.None? && preemptions == old(preemptions) { StillUntouched(); }
        if preemptions == old(preemptions) { SameAges(live, ages, waits, runs, running); }
      }
      PoorerSame(blockManager.State());
      QueuesApart(mem);
      ghost var aged, waited, ran := waitingAges, waiting, running;
      label second:
      if batch.None? {
        if prefillFirst {
          batch, idx := DecodeStep(now, mem, vs, before);
          if batch.None? && preemptions == old(preemptions) { StillUntouched@second(); }
          NoneOlderAgain(ages, aged, waitingAges);
          if preemptions == old(preemptions) { ReshuffledAges(ages, waitingAges, waits, ran, running); }
        } else {
          batch, idx := PrefillStep(now, mem, vs, before);
          StepAges(ages, aged, waited, ran, mem);
        }
      }
      r := if batch.Some? then batch.value else NoSchedulable;
    }

    /** What ages have become in one step, and in the two steps together. */
    lemma StepAges(first: map<string, nat>, mid: map<string, nat>, waits: seq<Sequence>, runs: seq<Sequence>,
                   mem: seq<KV>)
      requires Ok(mem) && Apart(live, waits, runs) && NoneOlder(first, mid)
      requires runs <= running && AgedBut(mid, waitingAges, IdsOf(running[|runs|..]))
      requires forall s | s in running :: s in runs || s in waits
      ensures NoneOlder(first, waitingAges)
      ensures AgedBut(mid, waitingAges, set s | s in running && s in waits :: s.req.requestId)
    {
      hide AgedBut, NoneOlder, Inv, Ranked, IdsOf;
      AdmittedAges(live, mid, waitingAges, waits, runs, running, running);
      AgedNoneOlder(mid, waitingAges, IdsOf(running[|runs|..]));
      NoneOlderAgain(first, mid, waitingAges);
    }

    lemma PlainMeans(mem: seq<KV>)
      requires Ok(mem)
      ensures env.BlockSize() > 0 && (PlainAdmission() ==> !NoAdmission(PrefillReserveBlocks()))
    {
      hide Missing, Cold;
      BlocksAreReal(mem);
    }

    /** Where nothing has changed there is the same to do. */
    twostate lemma StillUntouched()
      requires Untouched() && old(Apart(live, waiting, running)) && env.BlockSize() > 0
      ensures HasDecodeWork() == old(HasDecodeWork())
      ensures NothingFits(Unready(running)) == old(NothingFits(Unready(running)))
      ensures old(NoAdmission(PrefillReserveBlocks())) ==> NoAdmission(PrefillReserveBlocks())
      ensures old(PlainAdmission()) ==> PlainAdmission()
    {
      hide Apart, Poorer, NothingFits, NoAdmission, PrefillReserveBlocks, Missing, Cold, HasDecodeWork;
      PoorerSame(blockManager.State());
      StillStuck();
      SameQueues();
    }

    method PrefillStep(now: real, ghost mem: seq<KV>, ghost vs: seq<Seq>, ghost before: Store)
      returns (batch: Option<Scheduled>, ghost idx: seq<nat>)
      requires Ok(mem) && Stepped(env, live, vs, Views(live), before, blockManager.State())
      modifies this`waiting, this`running, this`waitingAges, this`lastStepWasPrefill, blockManager, live
      ensures Ok(mem) && Stepped(env, live, vs, Views(live), before, blockManager.State())
      ensures batch.Some? ==> !batch.value.NoSchedulable? && BatchOk(batch.value, idx)
      ensures batch == Some(RematchFailed) ==> env.cache.enablePrefixCache
      ensures batch.Some? ==> batch.value.RematchFailed? || batch.value.isPrefill
      ensures old(HasDecodeWork()) <==> HasDecodeWork()
      ensures env.BlockSize() > 0 && (batch.None? ==> PrefillStuck())
      ensures old(KeepsOrder() && NoAdmission(PrefillReserveBlocks())) ==>
                && (batch.None? <==> old(NothingFits(Unready(running)))) && (batch.None? ==> Unmoved())
      ensures old(PlainAdmission()) ==> batch.Some?
      ensures old(running) <= running && AgedBut(old(waitingAges), waitingAges, IdsOf(running[|old(running)|..]))
      ensures forall s | s in running :: s in old(running) || s in old(waiting)
      ensures (&& Fits(env, before, vs) && live != [] && cfg.Sane()
               && (!old(HasDecodeWork()) || (cfg.watermarkBlocks == 0 && old(HasUnready())))) ==> batch.Some?
    {
      hide Inv, Ok, AllKept, AllHeld, Fits, PrefillBatch, SumChunks, Kept, Stepped, PrefillReserveBlocks, NoAdmission,
           NothingFits, Unready, Views, HasDecodeWork, HasUnready, PlainAdmission, Unmoved, AgedBut, IdsOf;
      ghost var us, mid := Views(live), blockManager.State();
      StepMeans(env, live, vs, us, before, mid);
      var seqs, ok;
      ghost var ranks;
      seqs, ok, idx, ranks := SchedulePrefill(now, mem);
      PrefillDone(env, live, vs, us, Views(live), before, mid, blockManager.State());
      if !ok { return Some(RematchFailed), idx; }
      if seqs == [] { return None, idx; }
      Mark(true, mem);
      batch := Some(Batch(seqs, true));
    }

    method DecodeStep(now: real, ghost mem: seq<KV>, ghost vs: seq<Seq>, ghost before: Store)
      returns (batch: Option<Scheduled>, ghost idx: seq<nat>)
      requires Ok(mem) && Stepped(env, live, vs, Views(live), before, blockManager.State())
      modifies this`waiting, this`running, this`waitingAges, this`preemptions, this`lastStepWasPrefill,
               blockManager, live
      ensures Ok(mem) && Stepped(env, live, vs, Views(live), before, blockManager.State())
      ensures batch.Some? ==> batch.value.Batch? && !batch.value.isPrefill && BatchOk(batch.value, idx)
      ensures Fits(env, before, vs) ==> preemptions == old(preemptions)
      ensures Fits(env, before, vs) && old(HasDecodeWork()) && cfg.Sane() ==> batch.Some?
      ensures batch.None? && cfg.maxNumSeqs > 0 ==> !HasDecodeWork()
      ensures preemptions >= old(preemptions) && (batch.None? && preemptions == old(preemptions) ==> Untouched())
      ensures AgesFrom(old(waitingAges), old(preemptions))
      ensures preemptions == old(preemptions) ==> waiting == old(waiting) && Shuffled(old(running), running)
      ensures !old(HasDecodeWork()) ==> batch.None? && preemptions == old(preemptions)
      ensures env.BlockSize() > 0 && (old(PrefillStuck()) && preemptions == old(preemptions) ==> PrefillStuck())
    {
      hide Inv, Ok, AllKept, AllHeld, Fits, DecodeBatch, Kept, Stepped, Untouched, Views, HasDecodeWork, NoAdmission,
           NothingFits, Unready, NobodyFits, PrefillReserveBlocks, Shuffled, Denser, Apart, NoneOlder;
      BlocksAreReal(mem);
      QueuesApart(mem);
      WaitingUnready(mem);
      NothingFitsMeans();
      ghost var us, mid := Views(live), blockManager.State();
      StepMeans(env, live, vs, us, before, mid);
      var seqs;
      seqs, idx := ScheduleDecode(now, mem);
      DecodeDone(env, live, vs, us, Views(live), before, mid, blockManager.State());
      if old(PrefillStuck()) && preemptions == old(preemptions) { StillCrowded(); }
      if seqs == [] {
        if cfg.maxNumSeqs > 0 { NoneReady(mem); }
        return None, idx;
      }
      Mark(false, mem);
      batch := Some(Batch(seqs, false));
    }

    lemma WaitingUnready(mem: seq<KV>)
      requires Ok(mem)
      ensures forall s | s in waiting :: !s.View().PromptReady()
    {
      forall s | s in waiting ensures !s.View().PromptReady() {
        var k := IndexIn(live, s);
        assert Views(live)[k] == s.View();
      }
    }

    lemma NoneReady(mem: seq<KV>)
      requires Ok(mem) && ReadyScheduled(live, Views(live), live, [])
      ensures !HasDecodeWork()
    {
      hide Ok;
      PrefillStarts(mem);
    }

    method Mark(wasPrefill: bool, ghost mem: seq<KV>)
      requires Ok(mem)
      modifies this`lastStepWasPrefill
      ensures Ok(mem) && lastStepWasPrefill == wasPrefill
      ensures env.BlockSize() > 0 ==> PrefillStuck() == old(PrefillStuck())
    {
      hide Inv, NoAdmission, PrefillReserveBlocks, NothingFits;
      lastStepWasPrefill := wasPrefill;
    }

    /** Unless everything has finished, the policy chooses a kind of work there is. */
    lemma SomethingToDo(mem: seq<KV>)
      requires Ok(mem)
      ensures live != [] ==> PreferPrefill() || HasDecodeWork()
    {
      hide Inv, Prefers;
      PrefillStarts(mem);
      if live != [] {
        assert running != [] ==> running[0] in running;
        PrefersWork(cfg.fairness, HasUnready(), waiting != [], HasDecodeWork(), lastStepWasPrefill);
      }
    }

    /* ---------- After the model has run ---------- */

    /** Everything fits together except that sequence k is between two phases. */
    ghost predicate Midway(mem: seq<KV>, k: nat)
      reads this, blockManager, live
    {
      && blockManager.cfg == env.cache && blockManager.hasher == env.hasher
      && k < |live| && Apart(live, waiting, running)
      && RankedBut(live, waiting, Views(live), k)
      && Inv(env, blockManager.State(), mem, Views(live))
    }

    /** Notes what the run has computed for s and commits the blocks that have become whole. */
    method Advance(s: Sequence, ghost k: nat, ghost token: Token, isPrefill: bool, now: real, ghost mem: seq<KV>)
      requires Ok(mem) && k < |live| && live[k] == s && Sampled(env, mem, s.View(), token, isPrefill)
      modifies blockManager, s
      ensures Midway(mem, k) && |blockManager.blocks| == old(|blockManager.blocks|)
      ensures Advanced(old(s.View()), s.View(), isPrefill)
      ensures Views(live) == old(Views(live))[k := s.View()]
      ensures s.numComputedTokens <= |s.tokenIds| && env.BlockSize() > 0
      ensures Increasing(s.req.breakpoints) ==>
                CachedTo(old(blockManager.State()), blockManager.State(), env.cache, env.hasher, s.View(),
                         s.numComputedTokens)
    {
      hide Inv, Ranked, Apart, Sampled, Valid, WithinQuotas, Committed, CommitLimit, CanCommit, Holds, OwnHashes, CachedTo,
           Increasing;
      ghost var vs, before := Views(live), blockManager.State();
      FrontierInv(env, before, mem, vs, k, token, isPrefill);
      ghost var us := vs[k := Frontier(vs[k], isPrefill)];
      OwnHashesAt(env, before, mem, us, k);
      if !isPrefill { DecodeReaches(env, mem, vs[k], token); }
      Differ(live, waiting, running, k);
      s.SetComputed(if isPrefill then s.scheduledPrefillEnd else Max(s.numComputedTokens, |s.tokenIds|));
      blockManager.CommitComputedTokens(s, s.numComputedTokens, now);
      if isPrefill { s.ClearPrefillChunk(); }
      if Increasing(s.req.breakpoints) {
        CachedToSame(before, blockManager.State(), env.cache, env.hasher, us[k], s.View(), s.numComputedTokens);
      }
      CommittedInv(env, before, mem, us, k, s.View(), now);
      UpdateTwice(vs, k, us[k], s.View());
      ViewsUpdated(live, vs, k);
      RankedMid(live, waiting, vs, k, s.View());
    }

    /** s has one more token and goes on. */
    method GoOn(s: Sequence, ghost k: nat, ghost v: Seq, token: Token, isPrefill: bool, ghost mem: seq<KV>)
      requires Midway(mem, k) && live[k] == s && s in running
      requires Sampled(env, mem, v, token, isPrefill) && Advanced(v, s.View(), isPrefill)
      requires FateOf(env, v, token, isPrefill) == Goes(token)
      modifies s
      ensures Ok(mem) && s.View() == Appended(old(s.View()), token) && GoesOn(env.eos, s.req, s.tokenIds)
      ensures Views(live) == old(Views(live))[k := s.View()]
    {
      hide Inv, RankedBut, Sampled, Advanced, FateOf, Phase;
      ghost var vs := Views(live);
      GoesInv(env, blockManager.State(), mem, vs, k, v, token, isPrefill);
      StillGoing(env, blockManager.State(), mem, vs, k, v, token, isPrefill);
      Differ(live, waiting, running, k);
      s.AppendToken(token);
      ViewsUpdated(live, vs, k);
      RankedAgain(live, waiting, vs, k, s.View());
    }

    /** Takes s, whose blocks have been released, out of its queue.  before and vs are how the
        blocks and the sequences looked while s still had them. */
    method Leave(s: Sequence, ghost k: nat, ghost before: Store, ghost vs: seq<Seq>, ghost mem: seq<KV>)
      requires blockManager.cfg == env.cache && blockManager.hasher == env.hasher
      requires |vs| == |live| && k < |live| && live[k] == s
      requires Apart(live, waiting, running) && RankedBut(live, waiting, vs, k)
      requires Inv(env, before, mem, vs) && Holds(before, vs[k].table)
      requires blockManager.State() == ReleaseAll(before, env.cache, vs[k].table)
      requires forall j | 0 <= j < |live| && j != k :: live[j].View() == vs[j]
      modifies this`waiting, this`running, this`live
      ensures Ok(mem)
      ensures live == old(live)[..k] + old(live)[k + 1..] && Views(live) == Without(vs, k)
      ensures waiting == Remove(old(waiting), s) && running == Remove(old(running), s)
    {
      hide Inv, RankedBut, Ranked, Apart, ReleaseAll, NoDup, Holds, Remove;
      LeavingInv(env, before, mem, vs, k);
      ApartWithout(live, waiting, running, k);
      Distinctness(live, waiting, running);
      RankedWithout(live, waiting, vs, k);
      Queued(live, waiting, running, k);
      if s in running { running := Remove(running, s); } else { waiting := Remove(waiting, s); }
      live := live[..k] + live[k + 1..];
      ViewsWithout(live, vs, k);
    }

    /** Releases the blocks of s and takes it out of its queue. */
    method Retire(s: Sequence, ghost k: nat, ghost vs: seq<Seq>, ghost mem: seq<KV>)
      requires blockManager.cfg == env.cache && blockManager.hasher == env.hasher
      requires |vs| == |live| && k < |live| && live[k] == s
      requires Apart(live, waiting, running) && RankedBut(live, waiting, vs, k)
      requires Inv(env, blockManager.State(), mem, vs) && s.blockTable == vs[k].table
      requires forall j | 0 <= j < |live| && j != k :: live[j].View() == vs[j]
      modifies this`waiting, this`running, this`live, blockManager, s
      ensures Ok(mem) && |blockManager.blocks| == old(|blockManager.blocks|)
      ensures live == old(live)[..k] + old(live)[k + 1..] && Views(live) == Without(vs, k)
      ensures waiting == Remove(old(waiting), s) && running == Remove(old(running), s)
      ensures s.View() == Emptied(old(s.View()))
    {
      hide Inv, RankedBut, Apart, Valid, WithinQuotas, Holds, ReleaseAll;
      ghost var before := blockManager.State();
      LeavingInv(env, before, mem, vs, k);
      Differ(live, waiting, running, k);
      blockManager.Deallocate(s);
      Leave(s, k, before, vs, mem);
    }

    /** s has ended: its usage is reported, its blocks are released, and it leaves the queues. */
    method End(s: Sequence, ghost k: nat, ghost v: Seq, token: Token, isPrefill: bool, ghost mem: seq<KV>)
      returns (usage: Usage)
      requires Midway(mem, k) && live[k] == s && s in running
      requires Sampled(env, mem, v, token, isPrefill) && Advanced(v, s.View(), isPrefill)
      requires FateOf(env, v, token, isPrefill).Ends?
      modifies this`waiting, this`running, this`live, blockManager, s
      ensures Ok(mem) && |blockManager.blocks| == old(|blockManager.blocks|)
      ensures live == old(live)[..k] + old(live)[k + 1..] && Views(live) == Without(old(Views(live)), k)
      ensures waiting == old(waiting) && running == Remove(old(running), s)
      ensures var fate := FateOf(env, v, token, isPrefill);
              && s.View() == Ended(old(s.View()), fate)
              && usage == UsageOf(old(s.View())) && AddsUp(usage)
              && EndedRight(env, v.req, s.tokenIds, fate.reason)
    {
      hide Inv, RankedBut, Apart, Sampled;
      ghost var vs, before := Views(live), blockManager.State();
      EndsRight(env, before, mem, vs, k, v, token, isPrefill);
      ApartWithout(live, waiting, running, k);
      Differ(live, waiting, running, k);
      usage := Usage(|s.req.prompt|, Max(0, |s.req.prompt| - s.cacheReadInputTokens - s.cacheCreationInputTokens),
                     s.cacheReadInputTokens, s.cacheCreationInputTokens);
      if isPrefill && s.req.gen.maxTokens == 0 {
        s.Finish(CacheWarmed);
      } else {
        s.AppendToken(token);
        if !s.req.gen.ignoreEos && token == env.eos { s.Finish(Stop); } else { s.Finish(Length); }
      }
      Retire(s, k, vs, mem);
    }

    /** One scheduled sequence after the run: its frontier moves; an unfinished prompt just waits for
        its next chunk; otherwise the sampled token is appended, and the sequence goes on or ends. */
    method PostprocessOne(s: Sequence, ghost k: nat, token: Token, isPrefill: bool, now: real, ghost mem: seq<KV>)
      returns (event: Option<Event>)
      requires Ok(mem) && k < |live| && live[k] == s && s in running
      requires Sampled(env, mem, s.View(), token, isPrefill)
      modifies this`waiting, this`running, this`live, blockManager, s
      ensures Ok(mem) && |blockManager.blocks| == old(|blockManager.blocks|)
      ensures var fate := FateOf(env, old(s.View()), token, isPrefill);
              && Settled(old(s.View()), s.View(), fate) && Reported(s, s.View(), fate, event)
              && (!fate.Ends? ==> live == old(live) && running == old(running)
                                  && Views(live) == old(Views(live))[k := s.View()])
              && (fate.Ends? ==> live == old(live)[..k] + old(live)[k + 1..] && running == Remove(old(running), s)
                                 && Views(live) == Without(old(Views(live)), k)
                                 && EndedRight(env, s.req, s.tokenIds, fate.reason))
              && (fate.Goes? ==> GoesOn(env.eos, s.req, s.tokenIds))
      ensures SumWork(Views(live)) < old(SumWork(Views(live)))
      ensures Fits(env, old(blockManager.State()), old(Views(live))) ==> Fits(env, blockManager.State(), Views(live))
    {
      hide Inv, RankedBut, Apart, Ranked, Sampled, SumWork, Fits;
      ghost var vs, before, v := Views(live), blockManager.State(), s.View();
      Advance(s, k, token, isPrefill, now, mem);
      ghost var us, u := Views(live), s.View();
      Fated(env, mem, v, u, token, isPrefill);
      if !s.View().PromptReady() {
        RunProgress(env, before, blockManager.State(), mem, vs, k, u, token, isPrefill);
        StillRunning(mem, k);
        return None;
      }
      if (isPrefill && s.req.gen.maxTokens == 0) || (!s.req.gen.ignoreEos && token == env.eos)
         || |s.tokenIds| + 1 - |s.req.prompt| >= s.req.gen.maxTokens {
        var usage := End(s, k, v, token, isPrefill, mem);
        assert Without(us, k) == Without(vs, k);
        RunProgress(env, before, blockManager.State(), mem, vs, k, u, token, isPrefill);
        event := Some(Event(s, if isPrefill && s.req.gen.maxTokens == 0 then None else Some(token), true,
                            s.finishReason, Some(usage)));
      } else {
        GoOn(s, k, v, token, isPrefill, mem);
        UpdateTwice(vs, k, u, s.View());
        RunProgress(env, before, blockManager.State(), mem, vs, k, s.View(), token, isPrefill);
        event := Some(Event(s, Some(token), false, None, None));
      }
    }

    lemma StillRunning(mem: seq<KV>, k: nat)
      requires Midway(mem, k) && live[k] in running && Phase(Views(live)[k]) && Views(live)[k].status == RUNNING
      ensures Ok(mem)
    {
      hide Inv;
      RankedAgain(live, waiting, Views(live), k, Views(live)[k]);
      UpdateSame(Views(live), k);
    }

    /** Takes the sampled tokens of a batch, one sequence after the other. */
    method Postprocess(seqs: seq<Sequence>, tokens: seq<Token>, isPrefill: bool, now: real, ghost mem: seq<KV>)
      returns (events: seq<Event>)
      requires Ok(mem) && |tokens| == |seqs| && NoDup(seqs)
      requires forall i | 0 <= i < |seqs| ::
                 seqs[i] in running && Sampled(env, mem, seqs[i].View(), tokens[i], isPrefill)
      modifies this`waiting, this`running, this`live, blockManager, seqs
      ensures Ok(mem) && |blockManager.blocks| == old(|blockManager.blocks|)
      ensures forall i | 0 <= i < |seqs| ::
                var fate := FateOf(env, old(seqs[i].View()), tokens[i], isPrefill);
                && Settled(old(seqs[i].View()), seqs[i].View(), fate)
                && (seqs[i] in live <==> !fate.Ends?)
                && (fate.Ends? ==> EndedRight(env, seqs[i].req, seqs[i].tokenIds, fate.reason))
                && (fate.Goes? ==> GoesOn(env.eos, seqs[i].req, seqs[i].tokenIds))
      ensures forall j | 0 <= j < |old(live)| && old(live)[j] !in seqs :: old(live)[j] in live
      ensures forall j | 0 <= j < |live| :: live[j] in old(live)
      ensures Told(env, seqs, old(Views(seqs)), Views(seqs), tokens, isPrefill, events)
      ensures seqs != [] ==> SumWork(Views(live)) < old(SumWork(Views(live)))
      ensures Fits(env, old(blockManager.State()), old(Views(live))) ==> Fits(env, blockManager.State(), Views(live))
    {
      hide Inv, Ok, Sampled, FateOf, Settled, Told, SumWork, Fits, PostSoFar, Reported, CollisionFree, Remove,
        Alone;
      events := [];
      ghost var was, vs, before := live, Views(seqs), blockManager.State();
      ghost var work, fits := SumWork(Views(live)), Fits(env, blockManager.State(), Views(live));
      PostStarts(mem, seqs, tokens, isPrefill);
      var i := 0;
      while i < |seqs|
        invariant i <= |seqs| && Ok(mem) && |blockManager.blocks| == |before.blocks|
        invariant PostSoFar(env, was, live, running, seqs, vs, Views(seqs), tokens, isPrefill, i)
        invariant Told(env, seqs[..i], vs[..i], Views(seqs)[..i], tokens[..i], isPrefill, events)
        invariant if i == 0 then SumWork(Views(live)) == work else SumWork(Views(live)) < work
        invariant fits ==> Fits(env, blockManager.State(), Views(live))
      {
        var event := PostprocessNext(seqs, tokens, isPrefill, i, was, vs, events, now, mem);
        if event.Some? { events := events + [event.value]; }
        i := i + 1;
      }
      PostDone(env, was, live, running, seqs, vs, Views(seqs), tokens, isPrefill, events);
    }

    /** Settles the i-th sequence of the batch. */
    method PostprocessNext(seqs: seq<Sequence>, tokens: seq<Token>, isPrefill: bool, i: nat, ghost was: seq<Sequence>,
                           ghost vs: seq<Seq>, ghost events: seq<Event>, now: real, ghost mem: seq<KV>)
      returns (event: Option<Event>)
      requires Ok(mem) && i < |seqs| == |vs| == |tokens|
      requires PostSoFar(env, was, live, running, seqs, vs, Views(seqs), tokens, isPrefill, i)
      requires Sampled(env, mem, vs[i], tokens[i], isPrefill)
      requires Told(env, seqs[..i], vs[..i], Views(seqs)[..i], tokens[..i], isPrefill, events)
      modifies this`waiting, this`running, this`live, blockManager, seqs[i]
      ensures Ok(mem) && |blockManager.blocks| == old(|blockManager.blocks|)
      ensures PostSoFar(env, was, live, running, seqs, vs, Views(seqs), tokens, isPrefill, i + 1)
      ensures Told(env, seqs[..i + 1], vs[..i + 1], Views(seqs)[..i + 1], tokens[..i + 1], isPrefill,
                   if event.Some? then events + [event.value] else events)
      ensures SumWork(Views(live)) < old(SumWork(Views(live)))
      ensures Fits(env, old(blockManager.State()), old(Views(live))) ==> Fits(env, blockManager.State(), Views(live))
    {
      hide Inv, Ok, Sampled, FateOf, Settled, Told, SumWork, Fits, PostSoFar, Reported, CollisionFree, Remove, Alone;
      ghost var k := PostAt(env, was, live, running, seqs, vs, Views(seqs), tokens, isPrefill, i);
      ghost var cur, lives, runs := Views(seqs), live, running;
      event := PostprocessOne(seqs[i], k, tokens[i], isPrefill, now, mem);
      ViewsUpdated(seqs, cur, i);
      PostStep(env, was, lives, runs, live, running, seqs, vs, cur, seqs[i].View(), tokens, isPrefill, i, k);
      ToldStep(env, seqs, vs, cur, seqs[i].View(), tokens, isPrefill, i, events, event);
    }

    lemma PostStarts(mem: seq<KV>, seqs: seq<Sequence>, tokens: seq<Token>, isPrefill: bool)
      requires Ok(mem) && |tokens| == |seqs| && NoDup(seqs)
      requires forall i | 0 <= i < |seqs| :: seqs[i] in running
      ensures PostSoFar(env, live, live, running, seqs, Views(seqs), Views(seqs), tokens, isPrefill, 0)
      ensures Told(env, seqs[..0], Views(seqs)[..0], Views(seqs)[..0], tokens[..0], isPrefill, [])
    {
      hide Inv, Ranked;
    }

    /* ---------- Requests from outside ---------- */

    /** The first sequence of a queue with this request id. */
    function Find(xs: seq<Sequence>, requestId: string): (r: Option<Sequence>)
      ensures r.Some? ==> r.value in xs && r.value.req.requestId == requestId
      ensures r.Some? ==> exists j :: 0 <= j < |xs| && xs[j] == r.value
                                      && forall i | 0 <= i < j :: xs[i].req.requestId != requestId
      ensures r.None? ==> forall j | 0 <= j < |xs| :: xs[j].req.requestId != requestId
    {
      if xs == [] then None
      else if xs[0].req.requestId == requestId then Some(xs[0])
      else
        var r := Find(xs[1..], requestId);
        assert r.Some? ==> exists j :: 0 < j < |xs| && xs[j] == r.value
                                       && forall i | 0 <= i < j :: xs[i].req.requestId != requestId by {
          if r.Some? {
            var k :| 0 <= k < |xs| - 1 && xs[1..][k] == r.value
                     && forall i | 0 <= i < k :: xs[1..][i].req.requestId != requestId;
            forall i | 0 <= i < k + 1 ensures xs[i].req.requestId != requestId {
              if i > 0 { assert xs[i] == xs[1..][i - 1]; }
            }
            assert xs[k + 1] == r.value;
          }
        }
        r
    }

    /** Cancels a request wherever it is queued; its blocks are free for others afterwards. */
    method Abort(requestId: string, ghost mem: seq<KV>) returns (found: bool, ghost k: nat)
      requires Ok(mem)
      modifies this`waiting, this`running, this`waitingAges, this`live, blockManager, live
      ensures Ok(mem) && |blockManager.blocks| == old(|blockManager.blocks|)
      ensures found <==> exists j :: 0 <= j < |old(live)| && old(live)[j].req.requestId == requestId
      ensures !found ==> live == old(live) && Views(live) == old(Views(live))
      ensures waitingAges == if found then old(waitingAges) - {requestId} else old(waitingAges)
      ensures found ==>
                && k < |old(live)| && old(live)[k].req.requestId == requestId
                && old(live)[k].finishReason == Some(Cancelled) && old(live)[k].status == FINISHED
                && old(live)[k].blockTable == []
                && Some(old(live)[k]) == (if Find(old(waiting), requestId).Some? then Find(old(waiting), requestId)
                                          else Find(old(running), requestId))
                && live == old(live)[..k] + old(live)[k + 1..] && Views(live) == Without(old(Views(live)), k)
    {
      hide Ok, Find;
      var s := Find(waiting, requestId);
      if s.None? { s := Find(running, requestId); }
      k := 0;
      if s.None? {
        NotFound(requestId, mem);
        return false, k;
      }
      k := FoundAt(s.value, mem);
      Cancel(s.value, k, mem);
      found := true;
    }

    lemma NotFound(requestId: string, mem: seq<KV>)
      requires Ok(mem) && Find(waiting, requestId).None? && Find(running, requestId).None?
      ensures forall j | 0 <= j < |live| :: live[j].req.requestId != requestId
    {
      hide Inv, Ranked;
      forall j | 0 <= j < |live| ensures live[j].req.requestId != requestId {
        assert live[j] in live;
      }
    }

    lemma FoundAt(s: Sequence, mem: seq<KV>) returns (k: nat)
      requires Ok(mem) && (s in waiting || s in running)
      ensures k < |live| && live[k] == s
    {
      hide Inv, Ranked;
      k := IndexIn(live, s);
    }

    method Cancel(s: Sequence, ghost k: nat, ghost mem: seq<KV>)
      requires Ok(mem) && k < |live| && live[k] == s
      modifies this`waiting, this`running, this`waitingAges, this`live, blockManager, s
      ensures Ok(mem) && |blockManager.blocks| == old(|blockManager.blocks|)
      ensures live == old(live)[..k] + old(live)[k + 1..] && Views(live) == Without(old(Views(live)), k)
      ensures s.finishReason == Some(Cancelled) && s.status == FINISHED && s.blockTable == []
      ensures waitingAges == old(waitingAges) - {s.req.requestId}
    {
      hide Inv, Ranked, Apart, Valid, WithinQuotas, Holds;
      ghost var vs, before := Views(live), blockManager.State();
      LeavingInv(env, before, mem, vs, k);
      RankedIsBut(live, waiting, vs, k);
      Differ(live, waiting, running, k);
      waitingAges := waitingAges - {s.req.requestId};
      if s.blockTable != [] { blockManager.Deallocate(s); }
      Distinctness(live, waiting, running);
      NotInRest(live, k);
      Leave(s, k, before, vs, mem);
      s.Finish(Cancelled);
    }

    /** Clears idle cached blocks: all or only the expired ones, of one namespace or of all. */
    method PurgePrefixCache(namespace: Option<string>, expiredOnly: bool, now: real, ghost mem: seq<KV>)
      returns (purged: nat)
      requires Ok(mem)
      modifies blockManager
      ensures Ok(mem) && |blockManager.blocks| == old(|blockManager.blocks|)
      ensures var gone := Selected(old(blockManager.State()), namespace, if expiredOnly then Some(now) else None);
              PurgedTo(old(blockManager.State()), blockManager.State(), gone) && purged == |gone|
      ensures Views(live) == old(Views(live))
    {
      hide Inv, Ranked, Apart, Valid, WithinQuotas, Selected, PurgedTo;
      ghost var before := blockManager.State();
      InvStore(env, before, mem, Views(live));
      purged := blockManager.PurgeWhere(namespace, if expiredOnly then Some(now) else None);
      PurgeInv(env, before, blockManager.State(), mem, Views(live),
               Selected(before, namespace, if expiredOnly then Some(now) else None));
      PurgedUsed(before, blockManager.State(), Selected(before, namespace, if expiredOnly then Some(now) else None));
    }
  }
}

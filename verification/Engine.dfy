/** The engine: requests come in, steps schedule, run and settle batches, completions come out. */
module Engines {
  import opened Arithmetic
  import opened Batches
  import opened Blocks
  import opened BlockManagers
  import opened BlockSteps
  import opened Capacity
  import opened Hashing
  import opened LanguageModel
  import opened ModelRunners
  import opened Outcomes
  import opened Packing
  import opened Queues
  import opened Scheduling
  import opened Schedulers
  import opened Sequences
  import opened WorldAdvance
  import opened WorldOps
  import opened WorldRun
  import opened Worlds
  import opened Wrappers

  /* ---------- Request limits ---------- */

  datatype Refusal = EmptyPrompt | NegativeMaxTokens | PromptTooLong | CompletionTooLong | TooManyBlocks

  /** Why a request is refused, if it is; numBlocks is not positive before the pool is sized. */
  function ValidateRequestLimits(promptLen: int, maxTokens: int, maxModelLen: int, blockSize: int, numBlocks: int):
    (r: Option<Refusal>)
    requires blockSize > 0
    ensures r == None <==>
              && promptLen > 0 && maxTokens >= 0 && promptLen + maxTokens <= maxModelLen
              && (numBlocks > 0 ==> promptLen + maxTokens <= numBlocks * blockSize)
  {
    if promptLen <= 0 then Some(EmptyPrompt)
    else if maxTokens < 0 then Some(NegativeMaxTokens)
    else if promptLen > maxModelLen then Some(PromptTooLong)
    else if promptLen + maxTokens > maxModelLen then Some(CompletionTooLong)
    else
      NumBlocksLeast(promptLen + maxTokens, Max(0, numBlocks), blockSize);
      if numBlocks > 0 && NumBlocks(promptLen + maxTokens, blockSize) > numBlocks then Some(TooManyBlocks)
      else None
  }

  /** What a caller asks for. */
  datatype Ask = Ask(
    requestId: string,
    prompt: seq<Token>,
    maxTokens: int,
    ignoreEos: bool,
    temperature: real,
    cacheablePrefix: Option<int>,
    breakpoints: seq<int>,
    ttl: Option<real>,
    namespace: string,
    cacheEnabled: bool)

  /** The request made of it; the last breakpoint replaces the cacheable prefix. */
  function RequestOf(a: Ask): Request
    requires a.maxTokens >= 0
  {
    var points := NormalizeBreakpoints(a.cacheablePrefix, a.breakpoints);
    Request(a.requestId, a.prompt, Generation(a.maxTokens, a.ignoreEos, a.temperature), points,
            if points != [] then Some(points[|points| - 1]) else a.cacheablePrefix,
            a.ttl, a.namespace, a.cacheEnabled)
  }

  datatype Output = Output(
    requestId: string,
    tokenId: Option<Token>,
    completion: seq<Token>,
    finished: bool,
    reason: Option<FinishReason>,
    usage: Option<Usage>)

  /** Outputs, or the error a step raises: no sequence can be scheduled, or the assertion about a
      repeated lookup fails. */
  datatype StepResult = Outputs(outputs: seq<Output>) | RuntimeError | AssertionFailed

  function CompletionOf(s: Sequence): seq<Token>
    reads s
  {
    if |s.req.prompt| <= |s.tokenIds| then s.tokenIds[|s.req.prompt|..] else []
  }

  function OutputOf(ev: Event): Output
    reads ev.seq_
  {
    Output(ev.seq_.req.requestId, ev.tokenId, CompletionOf(ev.seq_), ev.finished, ev.reason, ev.usage)
  }

  /** The token an event tells of. */
  function Gained(ev: Event): seq<Token> {
    if ev.tokenId.Some? then [ev.tokenId.value] else []
  }

  /** Since they looked like was, these sequences have gained exactly the tokens the events tell of. */
  ghost predicate Followed(lives: seq<Sequence>, was: seq<Seq>, events: seq<Event>)
    reads lives
  {
    && |was| == |lives|
    && (forall i, j | 0 <= i < |events| && 0 <= j < |lives| && lives[j] == events[i].seq_ ::
          lives[j].tokenIds == was[j].tokens + Gained(events[i]))
    && (forall j | 0 <= j < |lives| && (forall i | 0 <= i < |events| :: events[i].seq_ != lives[j]) ::
          lives[j].tokenIds == was[j].tokens)
  }

  lemma Unchanged(lives: seq<Sequence>)
    ensures Followed(lives, Views(lives), [])
  {
  }

  lemma FollowedFrom(lives: seq<Sequence>, was: seq<Seq>, mid: seq<Seq>, events: seq<Event>)
    requires |was| == |mid| && forall j | 0 <= j < |mid| :: mid[j].tokens == was[j].tokens
    ensures Followed(lives, mid, events) ==> Followed(lives, was, events)
  {
  }

  /** What generating a list of prompts comes to. */
  datatype Generated = Completions(completions: seq<seq<Token>>) | Refused(refusal: Refusal)
                     | StepFailed(error: StepResult) | OutOfSteps

  /** Positions, and blocks, that new requests can come to need. */
  function AskedTokens(asks: seq<Ask>): nat {
    if asks == [] then 0
    else AskedTokens(asks[..|asks| - 1]) + |asks[|asks| - 1].prompt| + Max(0, asks[|asks| - 1].maxTokens)
  }

  function AskedBlocks(asks: seq<Ask>, bs: nat): nat
    requires bs > 0
  {
    if asks == [] then 0
    else AskedBlocks(asks[..|asks| - 1], bs)
         + NumBlocks(|asks[|asks| - 1].prompt| + Max(0, asks[|asks| - 1].maxTokens), bs)
  }

  ghost predicate DistinctIds(xs: seq<Sequence>) {
    forall i, j | 0 <= i < j < |xs| :: xs[i].req.requestId != xs[j].req.requestId
  }

  /** The new request ids differ from each other and from those of xs. */
  ghost predicate NewIds(xs: seq<Sequence>, asks: seq<Ask>) {
    && (forall i, j | 0 <= i < j < |asks| :: asks[i].requestId != asks[j].requestId)
    && (forall i, j | 0 <= i < |xs| && 0 <= j < |asks| :: xs[i].req.requestId != asks[j].requestId)
  }

  class LLMEngine {
    const env: Env
    const maxModelLen: nat
    const scheduler: Scheduler
    const runner: ModelRunner

    ghost predicate Ok()
      reads scheduler, scheduler.blockManager, scheduler.live, runner.kvCache
    {
      && scheduler.env == env && runner.env == env
      && runner.kvCache.Length == |scheduler.blockManager.blocks| * env.BlockSize()
      && scheduler.Ok(runner.kvCache[..])
    }

    ghost predicate AllFit()
      reads scheduler, scheduler.blockManager, scheduler.live
    {
      Fits(env, scheduler.blockManager.State(), Views(scheduler.live))
    }

    constructor (cfg: SchedulerConfig, env: Env, numBlocks: nat, maxModelLen: nat, selectsLastRows: bool)
      requires numBlocks > 0 && env.BlockSize() > 0
      ensures Ok() && this.env == env && this.maxModelLen == maxModelLen && scheduler.cfg == cfg
      ensures fresh(scheduler) && fresh(scheduler.blockManager) && fresh(runner.kvCache)
      ensures scheduler.live == [] && |scheduler.blockManager.blocks| == numBlocks
    {
      this.env, this.maxModelLen := env, maxModelLen;
      var r := new ModelRunner(env, numBlocks, selectsLastRows);
      runner := r;
      scheduler := new Scheduler(cfg, env, numBlocks, r.kvCache[..]);
    }

    /** Refuses what can never be served; queues the rest. */
    method AddRequest(a: Ask) returns (refused: Option<Refusal>, ghost s: Option<Sequence>)
      requires Ok() && env.Knows(a.namespace)
      modifies scheduler
      ensures Ok() && scheduler.preemptions == old(scheduler.preemptions)
      ensures refused == ValidateRequestLimits(|a.prompt|, a.maxTokens, maxModelLen, env.BlockSize(),
                                               |scheduler.blockManager.blocks|)
      ensures refused.Some? ==> scheduler.live == old(scheduler.live)
      ensures refused.None? ==>
                && a.maxTokens >= 0 && s.Some? && fresh(s.value) && s.value.View() == NewSeq(RequestOf(a))
                && scheduler.live == old(scheduler.live) + [s.value]
    {
      hide Inv;
      ghost var mem := runner.kvCache[..];
      InvStore(env, scheduler.blockManager.State(), mem, Views(scheduler.live));
      refused := ValidateRequestLimits(|a.prompt|, a.maxTokens, maxModelLen, env.BlockSize(),
                                       |scheduler.blockManager.blocks|);
      s := None;
      if refused.None? {
        var seq_ := new Sequence(RequestOf(a));
        scheduler.Add(seq_, mem);
        s := Some(seq_);
      }
    }

    /** Runs the model on a scheduled batch. */
    method RunBatch(seqs: seq<Sequence>, isPrefill: bool, ghost idx: seq<nat>) returns (tokens: seq<Token>)
      requires Ok() && scheduler.BatchOk(Batch(seqs, isPrefill), idx)
      modifies runner.kvCache
      ensures Ok() && |tokens| == |seqs| && NoDup(seqs)
      ensures forall j | 0 <= j < |seqs| ::
                && seqs[j] in scheduler.running && seqs[j] in scheduler.live
                && Sampled(env, runner.kvCache[..], seqs[j].View(), tokens[j], isPrefill)
    {
      hide Inv, Apart, Ranked, PrefillBatch, DecodeBatch, SumChunks, Chosen, Picks, AllCovered, ChunksOk, Held,
           BatchOf, SampleOk, OnlyWritten, Sampled, NoDup;
      ghost var vs, us, b, mem := Views(scheduler.live), Views(seqs), scheduler.blockManager.State(), runner.kvCache[..];
      BatchViews(scheduler.live, scheduler.running, vs, seqs, idx, isPrefill);
      BatchChosen(env, scheduler.live, scheduler.waiting, scheduler.running, vs, seqs, idx, us, isPrefill);
      BatchRuns(env, b, mem, vs, idx, us, isPrefill);
      ghost var cs := ChunksFor(us, isPrefill);
      tokens := runner.Run(seqs, isPrefill, cs);
      BatchSampled(env, b, mem, runner.kvCache[..], vs, idx, us, tokens, isPrefill);
    }

    /** What an event says is so: a finished sequence has left, with exactly what it generates
        alone and usage that adds up; an unfinished one goes on from a beginning of that. */
    ghost predicate EventOk(ev: Event)
      reads scheduler, ev.seq_
    {
      var s := ev.seq_;
      && s.req.prompt != [] && (ev.finished <==> s !in scheduler.live)
      && (ev.finished <==> ev.usage.Some?) && (ev.finished <==> ev.reason.Some?)
      && (ev.usage.Some? ==> AddsUp(ev.usage.value) && ev.usage.value.promptTokens == |s.req.prompt|)
      && (ev.finished ==> ev.reason == s.finishReason && EndsAs(env.eos, s.req, s.tokenIds, ev.reason.value))
      && (!ev.finished ==> GoesOn(env.eos, s.req, s.tokenIds))
      && (ev.tokenId.None? <==> s.req.gen.maxTokens == 0)
      && (ev.tokenId.Some? ==> s.tokenIds != [] && s.tokenIds[|s.tokenIds| - 1] == ev.tokenId.value)
      && (CollisionFree(env) ==>
            if ev.finished then s.tokenIds == Alone(env, s.req) else s.tokenIds <= Alone(env, s.req))
    }

    /** In every state, every unfinished request has produced a beginning of what it generates alone. */
    lemma LiveOnTrack(j: nat)
      requires Ok() && j < |scheduler.live|
      ensures scheduler.live[j].req.prompt != []
      ensures CollisionFree(env) ==> scheduler.live[j].tokenIds <= Alone(env, scheduler.live[j].req)
    {
      var vs, b, mem := Views(scheduler.live), scheduler.blockManager.State(), runner.kvCache[..];
      InvAt(env, b, mem, vs, j);
      if CollisionFree(env) {
        assert SeqTrue(env, mem, vs[j]);
        OnTrackIsPrefix(env, vs[j]);
      }
    }

    /** The paged memory is a private contiguous one to every request: wherever sharing, eviction,
        reuse and preemption have put it, each computed position is read back as its own entry. */
    lemma PagedIsPrivate(j: nat, p: nat)
      requires Ok() && CollisionFree(env)
      requires j < |scheduler.live| && p < scheduler.live[j].numComputedTokens
      ensures var v := scheduler.live[j].View();
              && env.BlockSize() > 0 && p < |v.tokens| && p / env.BlockSize() < |v.table|
              && SlotAt(env, v, p) < runner.kvCache.Length
              && runner.kvCache[SlotAt(env, v, p)] == KVs(env.model, v.tokens)[p]
    {
      hide Inv, Apart, Ranked, SlotAt;
      BlocksReal();
      PositionHeld(env, scheduler.blockManager.State(), runner.kvCache[..], Views(scheduler.live), j, p);
    }

    /** When every request has left, no block is in use: all are free or cached. */
    lemma NothingInUse()
      requires Ok() && scheduler.IsFinished()
      ensures scheduler.blockManager.usedBlockIds == {}
      ensures |scheduler.blockManager.freeBlockIds| + |scheduler.blockManager.cachedBlockIds|
           == |scheduler.blockManager.blocks|
    {
      hide Ranked, Valid;
      FinishedMeansNone();
      assert Views(scheduler.live) == [];
      NothingLeftNothingUsed(env, scheduler.blockManager.State());
    }

    /** Cancels a request; the others are not affected. */
    method AbortRequest(requestId: string) returns (found: bool, ghost k: nat)
      requires Ok()
      modifies scheduler, scheduler.blockManager, scheduler.live
      ensures Ok() && |scheduler.blockManager.blocks| == old(|scheduler.blockManager.blocks|)
      ensures scheduler.preemptions == old(scheduler.preemptions)
      ensures found <==> exists j :: 0 <= j < |old(scheduler.live)| && old(scheduler.live)[j].req.requestId == requestId
      ensures !found ==> scheduler.live == old(scheduler.live)
      ensures found ==>
                && k < |old(scheduler.live)| && old(scheduler.live)[k].req.requestId == requestId
                && old(scheduler.live)[k].finishReason == Some(Cancelled)
                && scheduler.live == old(scheduler.live)[..k] + old(scheduler.live)[k + 1..]
                && Views(scheduler.live) == Without(old(Views(scheduler.live)), k)
    {
      hide Inv, Apart, Ranked;
      found, k := scheduler.Abort(requestId, runner.kvCache[..]);
    }

    /** Clears idle cached blocks; no request is affected. */
    method PurgePrefixCache(namespace: Option<string>, expiredOnly: bool, now: real) returns (purged: nat)
      requires Ok()
      modifies scheduler.blockManager
      ensures Ok() && Views(scheduler.live) == old(Views(scheduler.live))
      ensures var before := old(scheduler.blockManager.State());
              var gone := Selected(before, namespace, if expiredOnly then Some(now) else None);
              PurgedTo(before, scheduler.blockManager.State(), gone) && purged == |gone|
    {
      hide Inv, Apart, Ranked, PurgedTo, Selected;
      purged := scheduler.PurgePrefixCache(namespace, expiredOnly, now, runner.kvCache[..]);
    }

    /** The scheduling part of a step. */
    method Plan(now: real) returns (r: Scheduled, ghost idx: seq<nat>)
      requires Ok()
      modifies scheduler`waiting, scheduler`running, scheduler`waitingAges, scheduler`preemptions,
               scheduler`lastStepWasPrefill, scheduler.blockManager, scheduler.live
      ensures Ok() && |scheduler.blockManager.blocks| == old(|scheduler.blockManager.blocks|)
      ensures scheduler.BatchOk(r, idx) && (r.RematchFailed? ==> env.cache.enablePrefixCache)
      ensures scheduler.env.BlockSize() > 0 && (old(scheduler.Clear()) ==> (r.NoSchedulable? <==> old(scheduler.Stuck())))
      ensures (&& r.NoSchedulable? && scheduler.cfg.maxNumSeqs > 0
               && (scheduler.preemptions == old(scheduler.preemptions) || !old(scheduler.PreferPrefill())))
              ==> scheduler.Stuck()
      ensures forall j | 0 <= j < |scheduler.live| :: Views(scheduler.live)[j].tokens == old(Views(scheduler.live))[j].tokens
      ensures old(AllFit()) ==>
                && AllFit() && scheduler.preemptions == old(scheduler.preemptions)
                && SumWork(Views(scheduler.live)) <= old(SumWork(Views(scheduler.live)))
                && (scheduler.live != [] && scheduler.cfg.Sane() ==> !r.NoSchedulable?)
    {
      hide Inv, SumWork, Fits, AllKept, AllHeld, PrefillBatch, DecodeBatch, SumChunks, Ranked, Apart;
      ghost var vs, b := Views(scheduler.live), scheduler.blockManager.State();
      r, idx := scheduler.Schedule(now, runner.kvCache[..]);
      HeldTokens(vs, Views(scheduler.live));
      if Fits(env, b, vs) {
        KeptFits(env, b, scheduler.blockManager.State(), scheduler.live, [], vs, Views(scheduler.live));
        KeptWork(scheduler.live, vs, Views(scheduler.live));
      }
    }

    lemma HeldTokens(vs: seq<Seq>, ws: seq<Seq>)
      requires AllHeld(vs, ws)
      ensures |ws| == |vs| && forall j | 0 <= j < |vs| :: ws[j].tokens == vs[j].tokens
    {
    }

    /** The part of a step after the model has run. */
    method Settle(seqs: seq<Sequence>, tokens: seq<Token>, isPrefill: bool, now: real) returns (events: seq<Event>)
      requires Ok() && |tokens| == |seqs| && NoDup(seqs) && seqs != []
      requires forall j | 0 <= j < |seqs| ::
                 && seqs[j] in scheduler.running && seqs[j] in scheduler.live
                 && Sampled(env, runner.kvCache[..], seqs[j].View(), tokens[j], isPrefill)
      modifies scheduler`waiting, scheduler`running, scheduler`live, scheduler.blockManager, seqs
      ensures Ok() && |scheduler.blockManager.blocks| == old(|scheduler.blockManager.blocks|)
      ensures forall j | 0 <= j < |scheduler.live| :: scheduler.live[j] in old(scheduler.live)
      ensures forall i | 0 <= i < |events| :: events[i].seq_ in seqs && EventOk(events[i])
      ensures NoEventTwice(events)
      ensures Followed(old(scheduler.live), old(Views(scheduler.live)), events)
      ensures forall j | 0 <= j < |old(scheduler.live)| && old(scheduler.live)[j] !in scheduler.live ::
                exists i :: 0 <= i < |events| && events[i].seq_ == old(scheduler.live)[j] && events[i].finished
      ensures old(AllFit()) ==> AllFit()
      ensures SumWork(Views(scheduler.live)) < old(SumWork(Views(scheduler.live)))
    {
      hide Inv, SumWork, Fits, Sampled, FateOf, Told, Alone, Apart, Ranked, NoDup, Views, EventOk, Followed, Settled,
           NoEventTwice, CollisionFree;
      ghost var vs, lives, was := Views(seqs), scheduler.live, Views(scheduler.live);
      BatchWas(seqs, lives);
      events := scheduler.Postprocess(seqs, tokens, isPrefill, now, runner.kvCache[..]);
      OneEventEach(env, seqs, vs, Views(seqs), tokens, isPrefill, events);
      EventsTrue(seqs, vs, tokens, isPrefill, events);
      EventsFollowed(seqs, vs, tokens, isPrefill, events, lives, was);
      LeaversTold(seqs, vs, tokens, isPrefill, events, lives);
    }

    /** The batch after it was settled: its samples were vs before. */
    ghost predicate BatchSettled(seqs: seq<Sequence>, vs: seq<Seq>, tokens: seq<Token>, isPrefill: bool,
                                 events: seq<Event>)
      reads scheduler, seqs
    {
      && |vs| == |tokens| == |seqs|
      && Told(env, seqs, vs, Views(seqs), tokens, isPrefill, events)
      && forall i | 0 <= i < |seqs| :: SettledAt(env, scheduler.live, seqs[i], vs[i], seqs[i].View(), tokens[i], isPrefill)
    }

    lemma EventsTrue(seqs: seq<Sequence>, vs: seq<Seq>, tokens: seq<Token>, isPrefill: bool, events: seq<Event>)
      requires Ok() && BatchSettled(seqs, vs, tokens, isPrefill, events)
      ensures forall i | 0 <= i < |events| :: events[i].seq_ in seqs && EventOk(events[i])
    {
      hide Ok, FateOf, Told, SettledAt, EventOk;
      forall i | 0 <= i < |events| ensures events[i].seq_ in seqs && EventOk(events[i]) {
        var j := WhoseEvent(env, seqs, vs, Views(seqs), tokens, isPrefill, events, i);
        Truthful(seqs[j], vs[j], tokens[j], isPrefill, events[i]);
      }
    }

    lemma EventsFollowed(seqs: seq<Sequence>, vs: seq<Seq>, tokens: seq<Token>, isPrefill: bool, events: seq<Event>,
                         lives: seq<Sequence>, was: seq<Seq>)
      requires Ok() && BatchSettled(seqs, vs, tokens, isPrefill, events) && |was| == |lives|
      requires forall x, j | 0 <= x < |seqs| && 0 <= j < |lives| && lives[j] == seqs[x] :: was[j] == vs[x]
      requires forall j | 0 <= j < |lives| && lives[j] !in seqs :: lives[j].tokenIds == was[j].tokens
      ensures Followed(lives, was, events)
    {
      hide Ok, FateOf, Told, EventOk;
      forall i, j | 0 <= i < |events| && 0 <= j < |lives| && lives[j] == events[i].seq_
        ensures lives[j].tokenIds == was[j].tokens + Gained(events[i])
      {
        var x := WhoseEvent(env, seqs, vs, Views(seqs), tokens, isPrefill, events, i);
        Truthful(seqs[x], vs[x], tokens[x], isPrefill, events[i]);
      }
      forall j | 0 <= j < |lives| && (forall i | 0 <= i < |events| :: events[i].seq_ != lives[j])
        ensures lives[j].tokenIds == was[j].tokens
      {
        if lives[j] in seqs {
          var x := IndexIn(seqs, lives[j]);
          Untold(seqs, vs, Views(seqs), tokens, isPrefill, events, x);
        }
      }
    }

    /** Who has left was of the batch and is told of as finished. */
    lemma LeaversTold(seqs: seq<Sequence>, vs: seq<Seq>, tokens: seq<Token>, isPrefill: bool, events: seq<Event>,
                      lives: seq<Sequence>)
      requires BatchSettled(seqs, vs, tokens, isPrefill, events)
      requires forall j | 0 <= j < |lives| && lives[j] !in seqs :: lives[j] in scheduler.live
      ensures forall j | 0 <= j < |lives| && lives[j] !in scheduler.live ::
                exists i :: 0 <= i < |events| && events[i].seq_ == lives[j] && events[i].finished
    {
      hide FateOf, Told;
      forall j | 0 <= j < |lives| && lives[j] !in scheduler.live
        ensures exists i :: 0 <= i < |events| && events[i].seq_ == lives[j] && events[i].finished
      {
        var x := IndexIn(seqs, lives[j]);
        var i := EventOf(env, seqs, vs, Views(seqs), tokens, isPrefill, events, x);
      }
    }

    lemma BatchWas(seqs: seq<Sequence>, lives: seq<Sequence>)
      ensures forall x, j | 0 <= x < |seqs| && 0 <= j < |lives| && lives[j] == seqs[x] ::
                Views(lives)[j] == Views(seqs)[x]
      ensures forall j | 0 <= j < |lives| :: Views(lives)[j].tokens == lives[j].tokenIds
      ensures forall x | 0 <= x < |seqs| :: Views(seqs)[x] == seqs[x].View()
    {
    }

    /** A sequence of the batch that no event tells of has gained no token. */
    lemma Untold(seqs: seq<Sequence>, vs: seq<Seq>, ws: seq<Seq>, tokens: seq<Token>, isPrefill: bool,
                 events: seq<Event>, x: nat)
      requires Told(env, seqs, vs, ws, tokens, isPrefill, events) && x < |seqs| == |vs| == |ws| == |tokens|
      requires Settled(vs[x], ws[x], FateOf(env, vs[x], tokens[x], isPrefill))
      requires forall i | 0 <= i < |events| :: events[i].seq_ != seqs[x]
      ensures ws[x].tokens == vs[x].tokens
    {
      hide Told, FateOf;
      if FateOf(env, vs[x], tokens[x], isPrefill) != Partial {
        var i := EventOf(env, seqs, vs, ws, tokens, isPrefill, events, x);
      }
    }

    lemma Truthful(s: Sequence, v: Seq, token: Token, isPrefill: bool, ev: Event)
      requires Ok() && SettledAt(env, scheduler.live, s, v, s.View(), token, isPrefill)
      requires Reported(s, s.View(), FateOf(env, v, token, isPrefill), Some(ev))
      ensures ev.seq_ == s && EventOk(ev) && s.tokenIds == v.tokens + Gained(ev)
    {
      hide Inv, FateOf, Alone, Apart, Ranked, CollisionFree, AddsUp, Ok;
      LastToWarm(env, v, token, isPrefill);
      if s in scheduler.live {
        var k := IndexIn(scheduler.live, s);
        LiveOnTrack(k);
      }
    }

    /** One step of the engine. */
    method Step(now: real) returns (r: StepResult, ghost events: seq<Event>)
      requires Ok()
      modifies scheduler, scheduler.blockManager, scheduler.live, runner.kvCache
      ensures Ok() && |scheduler.blockManager.blocks| == old(|scheduler.blockManager.blocks|)
      ensures forall j | 0 <= j < |scheduler.live| :: scheduler.live[j] in old(scheduler.live)
      ensures !r.Outputs? ==> scheduler.live == old(scheduler.live) && events == []
      ensures Followed(old(scheduler.live), old(Views(scheduler.live)), events) && NoEventTwice(events)
      ensures r.AssertionFailed? ==> env.cache.enablePrefixCache
      ensures r.Outputs? ==>
                && |r.outputs| == |events|
                && (forall i | 0 <= i < |events| ::
                      events[i].seq_ in old(scheduler.live) && r.outputs[i] == OutputOf(events[i]) && EventOk(events[i]))
                && (forall j | 0 <= j < |old(scheduler.live)| && old(scheduler.live)[j] !in scheduler.live ::
                      exists i :: 0 <= i < |events| && events[i].seq_ == old(scheduler.live)[j] && events[i].finished)
      ensures old(AllFit()) ==> AllFit() && scheduler.preemptions == old(scheduler.preemptions)
      ensures old(AllFit()) && old(scheduler.live) != [] && scheduler.cfg.Sane() ==> !r.RuntimeError?
      ensures scheduler.env.BlockSize() > 0 && (old(scheduler.Clear()) ==> (r.RuntimeError? <==> old(scheduler.Stuck())))
      ensures (&& r.RuntimeError? && scheduler.cfg.maxNumSeqs > 0
               && (scheduler.preemptions == old(scheduler.preemptions) || !old(scheduler.PreferPrefill())))
              ==> scheduler.Stuck()
      ensures old(AllFit()) && r.Outputs? ==> SumWork(Views(scheduler.live)) < old(SumWork(Views(scheduler.live)))
    {
      hide Ok, AllFit, SumWork, Sampled, EventOk, OutputOf, NoDup, Followed, Views, Scheduler.Clear, Scheduler.Stuck,
           Scheduler.PreferPrefill, PrefillBatch, DecodeBatch, SumChunks;
      events := [];
      ghost var lives, was := scheduler.live, Views(scheduler.live);
      var batch;
      ghost var idx;
      batch, idx := Plan(now);
      ghost var mid := Views(scheduler.live);
      FollowedFrom(lives, was, mid, []);
      Unchanged(lives);
      if batch.NoSchedulable? { return RuntimeError, events; }
      if batch.RematchFailed? { return AssertionFailed, events; }
      var tokens := RunBatch(batch.seqs, batch.isPrefill, idx);
      var told := Settle(batch.seqs, tokens, batch.isPrefill, now);
      events := told;
      FollowedFrom(lives, was, mid, told);
      var outputs := Report(told);
      r := Outputs(outputs);
    }

    method Report(told: seq<Event>) returns (outputs: seq<Output>)
      ensures |outputs| == |told| && forall i | 0 <= i < |told| :: outputs[i] == OutputOf(told[i])
    {
      hide OutputOf;
      outputs := [];
      while |outputs| < |told|
        invariant |outputs| <= |told| && forall i | 0 <= i < |outputs| :: outputs[i] == OutputOf(told[i])
      {
        outputs := outputs + [OutputOf(told[|outputs|])];
      }
    }

    /** An output tells the truth about its request: the completion so far is a beginning of, and
        the last one is exactly, what the prompt generates alone; it ends with the token told of; the
        usage is that of the whole prompt; and the reason is how it has ended. */
    ghost predicate OutputTrue(a: Ask, o: Output) {
      && a.maxTokens >= 0 && a.prompt != [] && o.requestId == a.requestId
      && (o.finished <==> o.usage.Some?)
      && (o.usage.Some? ==> AddsUp(o.usage.value) && o.usage.value.promptTokens == |a.prompt|)
      && (o.tokenId.None? <==> a.maxTokens == 0)
      && (o.tokenId.Some? ==> o.completion != [] && o.completion[|o.completion| - 1] == o.tokenId.value)
      && (if o.finished then o.reason.Some? && EndedAs(a, o.completion, o.reason.value)
          else o.reason.None? && 0 < |o.completion| < a.maxTokens
               && (a.ignoreEos || o.completion[|o.completion| - 1] != env.eos))
      && (CollisionFree(env) ==>
            if o.finished then CompletionRight(a, o.completion)
            else a.prompt + o.completion <= Alone(env, RequestOf(a)))
    }

    /** How the completion of a prompt has come to its end. */
    predicate EndedAs(a: Ask, c: seq<Token>, reason: FinishReason) {
      match reason
      case CacheWarmed => |c| == a.maxTokens == 0
      case Stop => 0 < |c| <= a.maxTokens && !a.ignoreEos && c[|c| - 1] == env.eos
      case Length => |c| == a.maxTokens > 0 && (a.ignoreEos || c[|c| - 1] != env.eos)
      case Cancelled => false
    }

    lemma OutputIsTrue(a: Ask, ev: Event)
      requires a.maxTokens >= 0 && ev.seq_.req == RequestOf(a) && EventOk(ev)
      ensures OutputTrue(a, OutputOf(ev))
    {
      hide Ok, AddsUp, Alone, CollisionFree, Completes, RequestOf;
      var s := ev.seq_;
      Requested(a);
      CompletionTail(s);
      if CollisionFree(env) && ev.finished { RightCompletes(a, CompletionOf(s)); }
    }

    lemma CompletionTail(s: Sequence)
      requires s.req.prompt <= s.tokenIds
      ensures s.req.prompt + CompletionOf(s) == s.tokenIds
      ensures |s.tokenIds| > |s.req.prompt| ==>
                CompletionOf(s) != [] && CompletionOf(s)[|CompletionOf(s)| - 1] == s.tokenIds[|s.tokenIds| - 1]
    {
    }

    /* ---------- Generating a list of prompts ---------- */

    lemma BlocksReal()
      requires Ok()
      ensures env.BlockSize() > 0
    {
      hide Inv;
      InvStore(env, scheduler.blockManager.State(), runner.kvCache[..], Views(scheduler.live));
    }

    lemma LiveDistinct()
      requires Ok()
      ensures NoDup(scheduler.live)
    {
    }

    lemma FinishedMeansNone()
      requires Ok()
      ensures scheduler.IsFinished() <==> scheduler.live == []
    {
      hide Inv, Ranked;
      var live := scheduler.live;
      if live != [] { assert live[0] in live; }
      if scheduler.waiting != [] { assert scheduler.waiting[0] in scheduler.waiting; }
      if scheduler.running != [] { assert scheduler.running[0] in scheduler.running; }
    }

    /** An unfinished request has work left. */
    lemma WorkLeft()
      requires Ok()
      ensures scheduler.live != [] ==> SumWork(Views(scheduler.live)) > 0
    {
      hide Inv, Apart;
      if scheduler.live != [] {
        var vs := Views(scheduler.live);
        InvAt(env, scheduler.blockManager.State(), runner.kvCache[..], vs, 0);
        assert vs[0].status == if scheduler.live[0] in scheduler.waiting then WAITING else RUNNING;
        assert Work(vs[0]) > 0;
      }
    }

    predicate Acceptable(a: Ask)
      requires env.BlockSize() > 0
      reads scheduler.blockManager
    {
      ValidateRequestLimits(|a.prompt|, a.maxTokens, maxModelLen, env.BlockSize(),
                            |scheduler.blockManager.blocks|).None?
    }

    method AddAll(asks: seq<Ask>) returns (refused: Option<Refusal>, ghost mine: seq<Sequence>)
      requires Ok() && forall i | 0 <= i < |asks| :: env.Knows(asks[i].namespace)
      modifies scheduler
      ensures Ok() && scheduler.preemptions == old(scheduler.preemptions)
      ensures env.BlockSize() > 0 && (refused.None? <==> forall i | 0 <= i < |asks| :: Acceptable(asks[i]))
      ensures refused.None? ==>
                && |mine| == |asks| && scheduler.live == old(scheduler.live) + mine
                && (forall i | 0 <= i < |asks| ::
                      fresh(mine[i]) && asks[i].maxTokens >= 0 && mine[i].req == RequestOf(asks[i]))
                && SumWork(Views(scheduler.live)) <= old(SumWork(Views(scheduler.live))) + AskedTokens(asks)
                && SumWorst(Views(scheduler.live), env.BlockSize())
                   == SumWorst(old(Views(scheduler.live)), env.BlockSize()) + AskedBlocks(asks, env.BlockSize())
    {
      hide Ok, SumWork, SumWorst, ValidateRequestLimits, AskedTokens, AskedBlocks, NumBlocks, RequestOf;
      mine := [];
      BlocksReal();
      AskedNone(asks, env.BlockSize());
      ghost var was, bs := Views(scheduler.live), env.BlockSize();
      refused := None;
      var i := 0;
      while i < |asks|
        invariant i <= |asks| && Ok() && bs > 0 && scheduler.preemptions == old(scheduler.preemptions)
        invariant refused.None? && forall j | 0 <= j < i :: Acceptable(asks[j])
        invariant |mine| == i && scheduler.live == old(scheduler.live) + mine
        invariant forall j | 0 <= j < i :: fresh(mine[j]) && asks[j].maxTokens >= 0 && mine[j].req == RequestOf(asks[j])
        invariant SumWork(Views(scheduler.live)) <= SumWork(was) + AskedTokens(asks[..i])
        invariant SumWorst(Views(scheduler.live), bs) == SumWorst(was, bs) + AskedBlocks(asks[..i], bs)
      {
        ghost var s, vs, lives;
        vs, lives := Views(scheduler.live), scheduler.live;
        refused, s := AddRequest(asks[i]);
        if refused.Some? {
          assert !Acceptable(asks[i]);
          return;
        }
        ViewsAppend(lives, s.value);
        AskedMore(vs, asks, i, bs);
        AppendAssoc(old(scheduler.live), mine, s.value);
        mine := mine + [s.value];
        i := i + 1;
      }
      assert asks[..i] == asks;
    }

    /** s has left, and its completion is among the outputs. */
    ghost predicate Delivered(s: Sequence, outputs: map<string, seq<Token>>) {
      && s.req.prompt != [] && s.req.requestId in outputs
      && (CollisionFree(env) ==> s.req.prompt + outputs[s.req.requestId] == Alone(env, s.req))
    }

    /** Finished outputs are noted under their request id. */
    function Note(outputs: map<string, seq<Token>>, outs: seq<Output>): map<string, seq<Token>> {
      if outs == [] then outputs
      else
        var before, o := Note(outputs, outs[..|outs| - 1]), outs[|outs| - 1];
        if o.finished then before[o.requestId := o.completion] else before
    }

    lemma {:induction false} NoteHas(outputs: map<string, seq<Token>>, outs: seq<Output>, id: string, c: seq<Token>)
      requires forall i | 0 <= i < |outs| && outs[i].finished && outs[i].requestId == id :: outs[i].completion == c
      requires (id in outputs && outputs[id] == c)
               || exists i :: 0 <= i < |outs| && outs[i].finished && outs[i].requestId == id
      ensures id in Note(outputs, outs) && Note(outputs, outs)[id] == c
    {
      if outs != [] {
        var n := |outs| - 1;
        if !(outs[n].finished && outs[n].requestId == id) { NoteHas(outputs, outs[..n], id, c); }
      }
    }

    /** A step keeps what is delivered and delivers what has left. */
    lemma StepDelivers(all: seq<Sequence>, was: seq<Sequence>, s: Sequence, events: seq<Event>, outs: seq<Output>,
                       outputs: map<string, seq<Token>>)
      requires Ok() && DistinctIds(all) && s in all && (forall j | 0 <= j < |was| :: was[j] in all)
      requires |outs| == |events|
      requires forall i | 0 <= i < |events| ::
                 events[i].seq_ in was && outs[i] == OutputOf(events[i]) && EventOk(events[i])
      requires s !in scheduler.live
      requires s in was ==> exists i :: 0 <= i < |events| && events[i].seq_ == s && events[i].finished
      requires s !in was ==> Delivered(s, outputs)
      ensures Delivered(s, Note(outputs, outs))
    {
      hide Ok, Alone, CollisionFree;
      var id := s.req.requestId;
      forall i | 0 <= i < |outs| && outs[i].finished && outs[i].requestId == id ensures events[i].seq_ == s {
        var x := IndexIn(all, s);
        var y := IndexIn(all, events[i].seq_);
      }
      if s in was {
        var i :| 0 <= i < |events| && events[i].seq_ == s && events[i].finished;
        assert EventOk(events[i]) && outs[i].finished && outs[i].requestId == id;
        NoteHas(outputs, outs, id, CompletionOf(s));
        CompletionWhole(s);
      } else {
        NoteHas(outputs, outs, id, outputs[id]);
      }
    }

    lemma CompletionWhole(s: Sequence)
      requires s.req.prompt != [] && (CollisionFree(env) ==> s.tokenIds == Alone(env, s.req))
      ensures CollisionFree(env) ==> s.req.prompt + CompletionOf(s) == Alone(env, s.req)
    {
    }

    /** All have been delivered or are still being worked on. */
    ghost predicate Served(mine: seq<Sequence>, live: seq<Sequence>, outputs: map<string, seq<Token>>) {
      forall i | 0 <= i < |mine| :: mine[i] in live || Delivered(mine[i], outputs)
    }

    /** Steps until nothing is left, or for at most limit steps. */
    method Serve(clock: nat -> real, limit: nat, ghost all: seq<Sequence>, ghost mine: seq<Sequence>)
      returns (outputs: map<string, seq<Token>>, failure: Option<Generated>)
      requires Ok() && DistinctIds(all) && scheduler.live == all
      requires forall i | 0 <= i < |mine| :: mine[i] in all
      modifies scheduler, scheduler.blockManager, scheduler.live, runner.kvCache
      ensures Ok()
      ensures failure.Some? ==> failure.value.StepFailed? || failure.value.OutOfSteps?
      ensures failure.None? ==> scheduler.live == [] && forall i | 0 <= i < |mine| :: Delivered(mine[i], outputs)
      ensures old(AllFit()) && scheduler.cfg.Sane() && limit >= old(SumWork(Views(scheduler.live))) ==>
                && scheduler.preemptions == old(scheduler.preemptions)
                && (failure.None? || (failure == Some(StepFailed(AssertionFailed)) && env.cache.enablePrefixCache))
    {
      hide Ok, AllFit, EventOk, OutputOf, Delivered, SumWork, DistinctIds, Note, Served, Scheduler.IsFinished, SchedulerConfig.Sane;
      ghost var fit, budget := AllFit(), SumWork(Views(scheduler.live));
      outputs := map[];
      var steps := 0;
      FinishedMeansNone();
      AllWaiting(mine, scheduler.live, outputs);
      while !scheduler.IsFinished() && steps < limit
        invariant steps <= limit && Ok() && (scheduler.IsFinished() <==> scheduler.live == [])
        invariant forall j | 0 <= j < |scheduler.live| :: scheduler.live[j] in all
        invariant Served(mine, scheduler.live, outputs)
        invariant fit ==> && AllFit() && scheduler.preemptions == old(scheduler.preemptions)
                          && SumWork(Views(scheduler.live)) + steps <= budget
      {
        ghost var lives := scheduler.live;
        var step;
        ghost var events;
        step, events := Step(clock(steps));
        if !step.Outputs? { return outputs, Some(StepFailed(step)); }
        ServedOn(all, lives, mine, events, step.outputs, outputs);
        outputs := Note(outputs, step.outputs);
        steps := steps + 1;
        FinishedMeansNone();
      }
      if !scheduler.IsFinished() {
        WorkLeft();
        return outputs, Some(OutOfSteps);
      }
      AllServed(mine, scheduler.live, outputs);
      failure := None;
    }

    lemma AllServed(mine: seq<Sequence>, live: seq<Sequence>, outputs: map<string, seq<Token>>)
      requires Served(mine, live, outputs) && live == []
      ensures forall i | 0 <= i < |mine| :: Delivered(mine[i], outputs)
    {
    }

    /** The pool has room for the worst case of every unfinished and every new request. */
    ghost predicate WillFit(asks: seq<Ask>)
      requires env.BlockSize() > 0
      reads scheduler, scheduler.blockManager, scheduler.live
    {
      SumWorst(Views(scheduler.live), env.BlockSize()) + AskedBlocks(asks, env.BlockSize())
        <= |scheduler.blockManager.blocks|
    }

    /** Queues the prompts and steps until nothing is left.  A completion is what its prompt
        generates alone.  While all worst cases fit the pool, this ends within the sum of prompt
        and completion lengths without preempting, and only the repeated-lookup assertion, which
        needs prefix caching, can stop it. */
    method Generate(asks: seq<Ask>, clock: nat -> real, limit: nat) returns (r: Generated)
      requires Ok() && env.BlockSize() > 0 && forall i | 0 <= i < |asks| :: env.Knows(asks[i].namespace)
      requires DistinctIds(scheduler.live) && NewIds(scheduler.live, asks)
      modifies scheduler, scheduler.blockManager, scheduler.live, runner.kvCache
      ensures Ok()
      ensures r.Refused? <==> !forall i | 0 <= i < |asks| :: old(Acceptable(asks[i]))
      ensures r.Completions? ==>
                && scheduler.live == [] && |r.completions| == |asks|
                && forall i | 0 <= i < |asks| :: CompletionRight(asks[i], r.completions[i])
      ensures (&& old(WillFit(asks)) && scheduler.cfg.Sane()
               && limit >= old(SumWork(Views(scheduler.live))) + AskedTokens(asks)) ==>
                && scheduler.preemptions == old(scheduler.preemptions)
                && (r.Completions? || r.Refused? || (r == StepFailed(AssertionFailed) && env.cache.enablePrefixCache))
    {
      hide Ok, Delivered, Acceptable, SumWork, SumWorst, DistinctIds, NewIds, SchedulerConfig.Sane,
           AskedTokens, AskedBlocks, RequestOf, Alone;
      ghost var mine;
      var refused;
      ghost var lives := scheduler.live;
      refused, mine := AddAll(asks);
      if refused.Some? { return Refused(refused.value); }
      StillDistinct(lives, asks, mine);
      var outputs, failure := Serve(clock, limit, scheduler.live, mine);
      if failure.Some? { return failure.value; }
      var completions := Collect(asks, outputs, mine);
      r := Completions(completions);
    }

    /** The completions in the order of the prompts. */
    method Collect(asks: seq<Ask>, outputs: map<string, seq<Token>>, ghost mine: seq<Sequence>)
      returns (completions: seq<seq<Token>>)
      requires |mine| == |asks|
      requires forall i | 0 <= i < |asks| ::
                 asks[i].maxTokens >= 0 && mine[i].req == RequestOf(asks[i]) && Delivered(mine[i], outputs)
      ensures |completions| == |asks| && forall i | 0 <= i < |asks| :: CompletionRight(asks[i], completions[i])
    {
      hide Delivered, RequestOf, Alone, CollisionFree, Completes;
      completions := [];
      while |completions| < |asks|
        invariant |completions| <= |asks|
        invariant forall i | 0 <= i < |completions| :: CompletionRight(asks[i], completions[i])
      {
        var n := |completions|;
        DeliveredHas(mine[n], outputs);
        Requested(asks[n]);
        if CollisionFree(env) { RightCompletes(asks[n], outputs[asks[n].requestId]); }
        completions := completions + [outputs[asks[n].requestId]];
      }
    }

    /** c is the completion that this prompt generates alone: every token is the model's choice, the
        number and the end are as asked for. */
    ghost predicate CompletionRight(a: Ask, c: seq<Token>) {
      && a.maxTokens >= 0 && a.prompt != []
      && (CollisionFree(env) ==>
            && a.prompt + c == Alone(env, RequestOf(a))
            && Completes(env.model, env.eos, a.maxTokens, a.ignoreEos, a.temperature, a.prompt, c))
    }

    lemma RightCompletes(a: Ask, c: seq<Token>)
      requires a.maxTokens >= 0 && a.prompt != [] && a.prompt + c == Alone(env, RequestOf(a))
      ensures CompletionRight(a, c)
    {
      hide Completes;
      Requested(a);
      GenerateExactly(env.model, env.eos, RequestOf(a).gen, a.prompt, c);
    }

    /** The request is what was asked for.  Its breakpoints are the positive ones given, in order and once
        each, together with the cacheable prefix; if there are any, the last one is its prefix. */
    lemma Requested(a: Ask)
      requires a.maxTokens >= 0
      ensures var r := RequestOf(a);
              && r.requestId == a.requestId && r.prompt == a.prompt && r.namespace == a.namespace
              && r.gen == Generation(a.maxTokens, a.ignoreEos, a.temperature)
              && r.ttl == a.ttl && r.cacheEnabled == a.cacheEnabled && Increasing(r.breakpoints)
              && (forall x :: x in r.breakpoints <==> x > 0 && (x in a.breakpoints || a.cacheablePrefix == Some(x)))
              && (if r.breakpoints == [] then r.cacheablePrefix == a.cacheablePrefix
                  else r.cacheablePrefix == Some(r.breakpoints[|r.breakpoints| - 1]))
    {
      SortedPositivesMeaning(if a.cacheablePrefix.Some? then a.breakpoints + [a.cacheablePrefix.value] else a.breakpoints);
    }

    lemma DeliveredHas(s: Sequence, outputs: map<string, seq<Token>>)
      requires Delivered(s, outputs)
      ensures s.req.prompt != [] && s.req.requestId in outputs
      ensures CollisionFree(env) ==> s.req.prompt + outputs[s.req.requestId] == Alone(env, s.req)
    {
    }

    lemma AllWaiting(mine: seq<Sequence>, live: seq<Sequence>, outputs: map<string, seq<Token>>)
      requires forall i | 0 <= i < |mine| :: mine[i] in live
      ensures Served(mine, live, outputs)
    {
    }

    lemma ServedOn(all: seq<Sequence>, was: seq<Sequence>, mine: seq<Sequence>, events: seq<Event>,
                   outs: seq<Output>, outputs: map<string, seq<Token>>)
      requires Ok() && DistinctIds(all) && (forall j | 0 <= j < |was| :: was[j] in all)
      requires (forall i | 0 <= i < |mine| :: mine[i] in all) && Served(mine, was, outputs)
      requires |outs| == |events|
      requires forall i | 0 <= i < |events| ::
                 events[i].seq_ in was && outs[i] == OutputOf(events[i]) && EventOk(events[i])
      requires forall j | 0 <= j < |was| && was[j] !in scheduler.live ::
                 exists i :: 0 <= i < |events| && events[i].seq_ == was[j] && events[i].finished
      requires forall j | 0 <= j < |scheduler.live| :: scheduler.live[j] in was
      ensures Served(mine, scheduler.live, Note(outputs, outs))
    {
      hide Ok, EventOk, OutputOf, Delivered, DistinctIds, Note;
      forall i | 0 <= i < |mine| && mine[i] !in scheduler.live ensures Delivered(mine[i], Note(outputs, outs)) {
        if mine[i] in was { var j := IndexIn(was, mine[i]); }
        StepDelivers(all, was, mine[i], events, outs, outputs);
      }
    }
  }

  lemma StillDistinct(live: seq<Sequence>, asks: seq<Ask>, mine: seq<Sequence>)
    requires DistinctIds(live) && NewIds(live, asks) && |mine| == |asks|
    requires forall i | 0 <= i < |asks| :: asks[i].maxTokens >= 0 && mine[i].req == RequestOf(asks[i])
    ensures DistinctIds(live + mine)
    ensures forall i | 0 <= i < |mine| :: mine[i] in live + mine && mine[i].req.requestId == asks[i].requestId
  {
    forall i | 0 <= i < |mine| ensures mine[i] in live + mine { assert (live + mine)[|live| + i] == mine[i]; }
  }

  /** One more request adds what it can come to need. */
  lemma AskedMore(vs: seq<Seq>, asks: seq<Ask>, i: nat, bs: nat)
    requires i < |asks| && asks[i].maxTokens >= 0 && bs > 0
    ensures var all := vs + [NewSeq(RequestOf(asks[i]))];
            && SumWork(all) == SumWork(vs) + |asks[i].prompt| + asks[i].maxTokens
            && SumWorst(all, bs) == SumWorst(vs, bs) + NumBlocks(|asks[i].prompt| + asks[i].maxTokens, bs)
    ensures AskedTokens(asks[..i + 1]) == AskedTokens(asks[..i]) + |asks[i].prompt| + asks[i].maxTokens
    ensures AskedBlocks(asks[..i + 1], bs)
         == AskedBlocks(asks[..i], bs) + NumBlocks(|asks[i].prompt| + asks[i].maxTokens, bs)
  {
    var w := NewSeq(RequestOf(asks[i]));
    SumsAppend(vs, w, bs);
    assert asks[..i + 1][..i] == asks[..i];
  }

  lemma AskedNone(asks: seq<Ask>, bs: nat)
    requires bs > 0
    ensures AskedTokens(asks[..0]) == 0 && AskedBlocks(asks[..0], bs) == 0
  {
    assert asks[..0] == [];
  }

  lemma {:induction false} SumsAppend(vs: seq<Seq>, w: Seq, bs: nat)
    requires bs > 0
    ensures SumWork(vs + [w]) == SumWork(vs) + Work(w)
    ensures SumWorst(vs + [w], bs) == SumWorst(vs, bs) + Worst(w, bs)
  {
    if vs != [] {
      SumsAppend(vs[1..], w, bs);
      assert (vs + [w])[1..] == vs[1..] + [w];
    } else {
      assert vs + [w] == [w] && [w][1..] == [];
    }
  }

  lemma BatchViews(live: seq<Sequence>, running: seq<Sequence>, vs: seq<Seq>, seqs: seq<Sequence>, idx: seq<nat>,
                   isPrefill: bool)
    requires |vs| == |live| && forall j | 0 <= j < |live| :: vs[j] == live[j].View()
    requires exists e ::
               if isPrefill then PrefillBatch(e, live, running, vs, seqs, idx)
               else DecodeBatch(e, live, running, vs, seqs, idx)
    ensures |idx| == |seqs| && forall j | 0 <= j < |idx| :: idx[j] < |vs| && seqs[j].View() == vs[idx[j]]
  {
  }
}

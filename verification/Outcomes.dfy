/** What becomes of a scheduled sequence once the model has run. */
module Outcomes {
  import opened Arithmetic
  import opened Blocks
  import opened BlockClaims
  import opened BlockManagers
  import opened BlockSteps
  import opened Capacity
  import opened Hashing
  import opened LanguageModel
  import opened PrefixCache
  import opened Queues
  import opened Scheduling
  import opened Sequences
  import opened WorldAdvance
  import opened WorldCommit
  import opened WorldOps
  import opened Worlds
  import opened Wrappers

  /** Partial: an earlier chunk, whose sample is thrown away.  Goes: one more token.  Ends: the last
      token, or none where the request only warms the cache. */
  datatype Fate = Partial | Goes(token: Token) | Ends(reason: FinishReason, last: Option<Token>)

  /** How far v is computed after the run. */
  function Reached(v: Seq, isPrefill: bool): nat {
    if isPrefill then v.schedEnd else |v.tokens|
  }

  function FateOf(e: Env, v: Seq, token: Token, isPrefill: bool): Fate {
    if isPrefill && v.schedEnd < v.prefillTarget then Partial
    else if isPrefill && v.req.gen.maxTokens == 0 then Ends(CacheWarmed, None)
    else if Stops(v.req.gen, e.eos, token) then Ends(Stop, Some(token))
    else if |v.tokens| + 1 - |v.req.prompt| >= v.req.gen.maxTokens then Ends(Length, Some(token))
    else Goes(token)
  }

  /** v was scheduled, the model has run, and token is the sample of its last row. */
  ghost predicate Sampled(e: Env, mem: seq<KV>, v: Seq, token: Token, isPrefill: bool) {
    && e.BlockSize() > 0 && v.status == RUNNING
    && (if isPrefill then Prefilling(v) && Planned(e, v)
        else v.PromptReady() && Phase(v) && |v.tokens| <= |v.table| * e.BlockSize())
    && 0 < Reached(v, isPrefill) <= |v.tokens|
    && (CollisionFree(e) ==>
          && SeqHolds(e, mem, v, Reached(v, isPrefill))
          && token == NextToken(e.model, v.tokens[..Reached(v, isPrefill)], v.req.gen.temperature))
  }

  /** w is v with its computed frontier moved to where the run reached. */
  predicate Advanced(v: Seq, w: Seq, isPrefill: bool) {
    w == v.(numComputed := Reached(v, isPrefill), cacheCreated := w.cacheCreated,
            schedStart := if isPrefill then 0 else v.schedStart,
            schedEnd := if isPrefill then 0 else v.schedEnd)
  }

  function Frontier(v: Seq, isPrefill: bool): Seq {
    v.(numComputed := Reached(v, isPrefill))
  }

  /** The frontier can move to where the run reached. */
  lemma FrontierInv(e: Env, b: Store, mem: seq<KV>, vs: seq<Seq>, k: nat, token: Token, isPrefill: bool)
    requires Inv(e, b, mem, vs) && k < |vs| && Sampled(e, mem, vs[k], token, isPrefill)
    ensures var u := Frontier(vs[k], isPrefill);
            && Inv(e, b, mem, vs[k := u]) && vs[k].numComputed < u.numComputed <= |u.tokens|
            && u.numComputed <= |u.table| * e.BlockSize()
  {
    InvAt(e, b, mem, vs, k);
    hide Inv, Holds, SeqHolds;
    ComputedInv(e, b, mem, vs, k, Frontier(vs[k], isPrefill), Reached(vs[k], isPrefill));
  }

  lemma OwnHashesAt(e: Env, b: Store, mem: seq<KV>, vs: seq<Seq>, k: nat)
    requires Inv(e, b, mem, vs) && k < |vs|
    ensures e.BlockSize() == e.cache.blockSize > 0 && Valid(b, e.BlockSize()) && WithinQuotas(b, e.cache)
    ensures Holds(b, vs[k].table) && OwnHashes(b, e.BlockSize(), e.hasher, vs[k], |vs[k].table|)
  {
    CoreAt(e, b, vs, k);
  }

  lemma CommitSize(e: Env, b: Store, mem: seq<KV>, vs: seq<Seq>, k: nat, now: real)
    requires Inv(e, b, mem, vs) && k < |vs| && e.BlockSize() > 0
    requires CanCommit(b, e.cache, vs[k], CommitLimit(e.cache, vs[k], vs[k].numComputed))
    ensures |Committed(b, e.cache, e.hasher, vs[k], vs[k].numComputed, now).store.blocks| == |b.blocks|
  {
    OwnHashesAt(e, b, mem, vs, k);
    hide Inv, Valid, WithinQuotas, CommitUpTo, Holds;
    CommitUpToKeeps(b, e.cache, e.hasher, vs[k], CommitLimit(e.cache, vs[k], vs[k].numComputed), now);
  }

  /** Then the blocks that have become whole are committed, and the chunk is forgotten. */
  lemma CommittedInv(e: Env, b: Store, mem: seq<KV>, vs: seq<Seq>, k: nat, w: Seq, now: real)
    requires Inv(e, b, mem, vs) && k < |vs| && e.BlockSize() > 0
    requires CanCommit(b, e.cache, vs[k], CommitLimit(e.cache, vs[k], vs[k].numComputed))
    requires var r := Committed(b, e.cache, e.hasher, vs[k], vs[k].numComputed, now);
             w == vs[k].(cacheCreated := vs[k].cacheCreated + r.created, schedStart := w.schedStart,
                         schedEnd := w.schedEnd)
    ensures Inv(e, Committed(b, e.cache, e.hasher, vs[k], vs[k].numComputed, now).store, mem, vs[k := w])
    ensures |Committed(b, e.cache, e.hasher, vs[k], vs[k].numComputed, now).store.blocks| == |b.blocks|
  {
    hide *;
    CommitSize(e, b, mem, vs, k, now);
    InvAt(e, b, mem, vs, k);
    var r := Committed(b, e.cache, e.hasher, vs[k], vs[k].numComputed, now);
    CommitInv(e, b, mem, vs, k, now);
    var u := vs[k].(cacheCreated := vs[k].cacheCreated + r.created);
    RelabelInv(e, r.store, mem, vs[k := u], k, w);
    UpdateTwice(vs, k, u, w);
  }

  /** The scheduler's note of a chunk is no part of the invariant. */
  lemma RelabelInv(e: Env, b: Store, mem: seq<KV>, vs: seq<Seq>, k: nat, w: Seq)
    requires Inv(e, b, mem, vs) && k < |vs|
    requires w == vs[k].(schedStart := w.schedStart, schedEnd := w.schedEnd)
    ensures Inv(e, b, mem, vs[k := w])
  {
    InvAt(e, b, mem, vs, k);
    assert CollisionFree(e) ==> SeqTrue(e, mem, vs[k]);
    assert CollisionFree(e) ==> SeqHolds(e, mem, vs[k], vs[k].numComputed);
    hide Inv, Holds, SeqHolds;
    ComputedInv(e, b, mem, vs, k, w, vs[k].numComputed);
  }

  /* ---------- Going on ---------- */

  lemma GoesInv(e: Env, b: Store, mem: seq<KV>, vs: seq<Seq>, k: nat, v: Seq, token: Token, isPrefill: bool)
    requires Inv(e, b, mem, vs) && k < |vs|
    requires Sampled(e, mem, v, token, isPrefill) && Advanced(v, vs[k], isPrefill)
    requires FateOf(e, v, token, isPrefill) == Goes(token)
    ensures Inv(e, b, mem, vs[k := Appended(vs[k], token)])
    ensures Phase(Appended(vs[k], token)) && Appended(vs[k], token).status == RUNNING
  {
    InvAt(e, b, mem, vs, k);
    assert v.tokens[..|v.tokens|] == v.tokens;
    hide Inv, Holds, SeqHolds;
    AppendInv(e, b, mem, vs, k, token);
  }

  lemma StillGoing(e: Env, b: Store, mem: seq<KV>, vs: seq<Seq>, k: nat, v: Seq, token: Token, isPrefill: bool)
    requires Inv(e, b, mem, vs) && k < |vs| && Advanced(v, vs[k], isPrefill)
    requires FateOf(e, v, token, isPrefill) == Goes(token)
    ensures GoesOn(e.eos, vs[k].req, vs[k].tokens + [token])
  {
    hide Inv, Holds;
    InvAt(e, b, mem, vs, k);
  }

  /** After the run: only an unfinished prompt is not ready, and it is still in its phase. */
  lemma Fated(e: Env, mem: seq<KV>, v: Seq, w: Seq, token: Token, isPrefill: bool)
    requires Sampled(e, mem, v, token, isPrefill) && Advanced(v, w, isPrefill)
    ensures w.PromptReady() <==> FateOf(e, v, token, isPrefill) != Partial
    ensures FateOf(e, v, token, isPrefill) == Partial ==> Phase(w) && w.status == RUNNING
    ensures FateOf(e, v, token, isPrefill).Ends? <==>
              w.PromptReady() && (FateOf(e, w, token, false).Ends? || (isPrefill && w.req.gen.maxTokens == 0))
    ensures w.status == RUNNING && w.numComputed == Reached(v, isPrefill) && w.req == v.req && w.tokens == v.tokens
    ensures w.table == v.table
  {
    hide SeqHolds;
  }

  /* ---------- Ending ---------- */

  datatype Usage = Usage(promptTokens: nat, inputTokens: nat, cacheRead: nat, cacheCreation: nat)

  function UsageOf(v: Seq): Usage {
    Usage(|v.req.prompt|, Max(0, |v.req.prompt| - v.cacheRead - v.cacheCreated), v.cacheRead, v.cacheCreated)
  }

  predicate AddsUp(u: Usage) {
    u.inputTokens + u.cacheRead + u.cacheCreation == u.promptTokens
  }

  function LastOf(fate: Fate): seq<Token>
    requires fate.Ends?
  {
    if fate.last.Some? then [fate.last.value] else []
  }

  /** How a request that has come to these tokens has ended: by warming the cache only, at the first
      end-of-sequence token it does not ignore, or at its token limit without one. */
  predicate EndsAs(eos: Token, r: Request, tokens: seq<Token>, reason: FinishReason) {
    && r.prompt <= tokens
    && var n := |tokens| - |r.prompt|;
       match reason
       case CacheWarmed => n == r.gen.maxTokens == 0
       case Stop => 0 < n <= r.gen.maxTokens && !r.gen.ignoreEos && tokens[|tokens| - 1] == eos
       case Length => n == r.gen.maxTokens > 0 && (r.gen.ignoreEos || tokens[|tokens| - 1] != eos)
       case Cancelled => false
  }

  /** Only a request that just warms the cache ends without a token. */
  lemma LastToWarm(e: Env, v: Seq, token: Token, isPrefill: bool)
    ensures var fate := FateOf(e, v, token, isPrefill);
            fate.Ends? ==> (fate.last.None? <==> fate.reason == CacheWarmed)
  {
  }

  /** What is true of a request that has ended. */
  ghost predicate EndedRight(e: Env, r: Request, tokens: seq<Token>, reason: FinishReason) {
    && r.prompt != [] && EndsAs(e.eos, r, tokens, reason)
    && (CollisionFree(e) ==> tokens == Alone(e, r))
  }

  /** A request that goes on has tokens left and has not met an end-of-sequence token it heeds. */
  predicate GoesOn(eos: Token, r: Request, tokens: seq<Token>) {
    && r.prompt < tokens && |tokens| - |r.prompt| < r.gen.maxTokens
    && (r.gen.ignoreEos || tokens[|tokens| - 1] != eos)
  }

  /** A request that ends has generated exactly what it generates alone, and its usage adds up. */
  lemma EndsRight(e: Env, b: Store, mem: seq<KV>, vs: seq<Seq>, k: nat, v: Seq, token: Token, isPrefill: bool)
    requires Inv(e, b, mem, vs) && k < |vs|
    requires Sampled(e, mem, v, token, isPrefill) && Advanced(v, vs[k], isPrefill)
    requires FateOf(e, v, token, isPrefill).Ends?
    ensures v.req.prompt != [] && AddsUp(UsageOf(vs[k]))
    ensures var fate := FateOf(e, v, token, isPrefill); EndedRight(e, v.req, v.tokens + LastOf(fate), fate.reason)
  {
    hide SeqHolds, Valid, WithinQuotas, Holds, Owned, UsageExact, TableInRange, RefsExact, IndexComplete, HashTrue;
    InvAt(e, b, mem, vs, k);
    CoreAt(e, b, vs, k);
    UsageAddsUp(e, b, vs[k]);
    if CollisionFree(e) {
      assert SeqTrue(e, mem, vs[k]);
      assert v.tokens[..|v.tokens|] == v.tokens;
      if v.req.gen.maxTokens > 0 {
        LastToken(e, vs[k], token);
      } else {
        assert v.tokens == v.req.prompt;
      }
    }
  }

  /* ---------- Work ---------- */

  /** The run has brought the sequence forward. */
  lemma AdvancedWork(e: Env, mem: seq<KV>, v: Seq, w: Seq, token: Token, isPrefill: bool)
    requires Sampled(e, mem, v, token, isPrefill) && Shape(e, v) && w.req == v.req
    requires w.numComputed == Reached(v, isPrefill)
    ensures Work(w) < Work(v)
  {
  }

  lemma {:induction false} WorkUpdate(vs: seq<Seq>, k: nat, w: Seq)
    requires k < |vs|
    ensures SumWork(vs[k := w]) + Work(vs[k]) == SumWork(vs) + Work(w)
  {
    var all := vs[k := w];
    if k > 0 {
      WorkUpdate(vs[1..], k - 1, w);
      assert all[1..] == vs[1..][k - 1 := w];
    } else {
      assert all[1..] == vs[1..];
    }
  }

  /** A run leaves less work, and if all worst cases fitted before, they still do. */
  lemma RunProgress(e: Env, b: Store, b': Store, mem: seq<KV>, vs: seq<Seq>, k: nat, w: Seq, token: Token,
                    isPrefill: bool)
    requires Inv(e, b, mem, vs) && k < |vs| && Sampled(e, mem, vs[k], token, isPrefill)
    requires w.req == vs[k].req && w.numComputed == Reached(vs[k], isPrefill) && |b'.blocks| == |b.blocks|
    ensures SumWork(vs[k := w]) < SumWork(vs) && SumWork(Without(vs, k)) < SumWork(vs)
    ensures Fits(e, b, vs) ==> Fits(e, b', vs[k := w]) && Fits(e, b', Without(vs, k))
  {
    InvAt(e, b, mem, vs, k);
    hide Inv, Holds, Valid, WithinQuotas;
    AdvancedWork(e, mem, vs[k], w, token, isPrefill);
    WorkUpdate(vs, k, w);
    WithoutWork(vs, k);
    SameRequestsSameWorst(vs, vs[k := w], e.BlockSize());
    WithoutWorst(vs, k, e.BlockSize());
  }

  /* ---------- The queues ---------- */

  /** All sequences but the k-th fit their queues. */
  ghost predicate RankedBut(live: seq<Sequence>, waiting: seq<Sequence>, vs: seq<Seq>, k: nat) {
    && |vs| == |live|
    && forall j | 0 <= j < |live| && j != k ::
         Phase(vs[j]) && vs[j].status == if live[j] in waiting then WAITING else RUNNING
  }

  lemma RankedAgain(live: seq<Sequence>, waiting: seq<Sequence>, vs: seq<Seq>, k: nat, w: Seq)
    requires RankedBut(live, waiting, vs, k) && k < |live| && live[k] !in waiting
    requires Phase(w) && w.status == RUNNING
    ensures Ranked(live, waiting, vs[k := w])
  {
  }

  lemma RankedWithout(live: seq<Sequence>, waiting: seq<Sequence>, vs: seq<Seq>, k: nat)
    requires RankedBut(live, waiting, vs, k) && k < |live| && NoDup(live) && NoDup(waiting)
    ensures Ranked(live[..k] + live[k + 1..], waiting, Without(vs, k))
    ensures Ranked(live[..k] + live[k + 1..], Remove(waiting, live[k]), Without(vs, k))
  {
    hide Phase;
    RemoveKeeps(waiting, live[k]);
    var rest := live[..k] + live[k + 1..];
    forall j | 0 <= j < |rest|
      ensures rest[j] == live[if j < k then j else j + 1] && Without(vs, k)[j] == vs[if j < k then j else j + 1] { }
  }

  /** Sequence k leaves all queues. */
  lemma ApartWithout(live: seq<Sequence>, waiting: seq<Sequence>, running: seq<Sequence>, k: nat)
    requires Apart(live, waiting, running) && k < |live|
    ensures var s := live[k];
            Apart(live[..k] + live[k + 1..], Remove(waiting, s), Remove(running, s))
    ensures live[k] in running ==> Remove(waiting, live[k]) == waiting
    ensures live[k] in waiting ==> Remove(running, live[k]) == running
  {
    var s, rest := live[k], live[..k] + live[k + 1..];
    RemoveKeeps(waiting, s);
    RemoveKeeps(running, s);
    RemoveKeeps(live, s);
    RemoveAt(live, k);
    forall x | x in rest ensures x in Remove(waiting, s) || x in Remove(running, s) {
      var j := IndexIn(rest, x);
      if x in waiting { var i := IndexIn(waiting, x); } else { var i := IndexIn(running, x); }
    }
    forall x | x in Remove(waiting, s) ensures x in rest && x !in Remove(running, s) {
      var j := IndexIn(Remove(waiting, s), x);
      var i := IndexIn(live, x);
      if x in Remove(running, s) { var l := IndexIn(Remove(running, s), x); }
    }
    forall x | x in Remove(running, s) ensures x in rest {
      var j := IndexIn(Remove(running, s), x);
      var i := IndexIn(live, x);
    }
  }

  lemma RankedMid(live: seq<Sequence>, waiting: seq<Sequence>, vs: seq<Seq>, k: nat, w: Seq)
    requires Ranked(live, waiting, vs) && k < |live|
    ensures RankedBut(live, waiting, vs[k := w], k)
  {
  }

  /** What a decode computes is one position more. */
  lemma DecodeReaches(e: Env, mem: seq<KV>, v: Seq, token: Token)
    requires Sampled(e, mem, v, token, false)
    ensures Reached(v, false) == Max(v.numComputed, |v.tokens|) && v.numComputed + 1 == |v.tokens|
  {
  }

  /** How a sequence looks after its end. */
  function Ended(v: Seq, fate: Fate): Seq
    requires fate.Ends?
  {
    Emptied(v.(tokens := v.tokens + LastOf(fate), status := FINISHED, finish := Some(fate.reason)))
  }

  lemma LeavingInv(e: Env, b: Store, mem: seq<KV>, vs: seq<Seq>, k: nat)
    requires Inv(e, b, mem, vs) && k < |vs|
    ensures e.BlockSize() == e.cache.blockSize > 0 && Valid(b, e.BlockSize()) && WithinQuotas(b, e.cache)
    ensures Holds(b, vs[k].table) && |ReleaseAll(b, e.cache, vs[k].table).blocks| == |b.blocks|
    ensures Inv(e, ReleaseAll(b, e.cache, vs[k].table), mem, Without(vs, k))
  {
    hide *;
    InvAt(e, b, mem, vs, k);
    LeaveInv(e, b, mem, vs, k);
    RestartInv(e, b, mem, vs, k);
  }

  lemma Queued(live: seq<Sequence>, waiting: seq<Sequence>, running: seq<Sequence>, k: nat)
    requires Apart(live, waiting, running) && k < |live|
    ensures live[k] in running <==> live[k] !in waiting
  {
    assert live[k] in live;
  }

  /** The views once one sequence has been taken out of the queue. */
  lemma ViewsWithout(rest: seq<Sequence>, vs: seq<Seq>, k: nat)
    requires k < |vs| && |rest| == |vs| - 1
    requires forall j | 0 <= j < |rest| :: rest[j].View() == vs[if j < k then j else j + 1]
    ensures Views(rest) == Without(vs, k)
  {
  }

  lemma Distinctness(live: seq<Sequence>, waiting: seq<Sequence>, running: seq<Sequence>)
    requires Apart(live, waiting, running)
    ensures NoDup(live) && NoDup(waiting) && NoDup(running)
  {
  }

  /* ---------- What is reported ---------- */

  /** What the caller learns of one sequence after a step. */
  datatype Event = Event(seq_: Sequence, tokenId: Option<Token>, finished: bool,
                         reason: Option<FinishReason>, usage: Option<Usage>)

  /** w is what fate makes of v. */
  predicate Settled(v: Seq, w: Seq, fate: Fate) {
    && w.req == v.req
    && match fate
       case Partial => w.tokens == v.tokens && w.status == RUNNING && !w.PromptReady() && w.table == v.table
       case Goes(token) => w.tokens == v.tokens + [token] && w.status == RUNNING && w.PromptReady() && w.table == v.table
       case Ends(reason, _) => && w.tokens == v.tokens + LastOf(fate) && w.status == FINISHED
                               && w.finish == Some(reason) && w.table == []
  }

  /** Only a thrown-away sample goes unreported; an end is reported with its reason and usage. */
  predicate Reported(s: Sequence, w: Seq, fate: Fate, event: Option<Event>) {
    match fate
    case Partial => event == None
    case Goes(token) => event == Some(Event(s, Some(token), false, None, None))
    case Ends(reason, last) =>
      && event.Some? && event.value.usage.Some? && AddsUp(event.value.usage.value)
      && event.value.usage.value.promptTokens == |w.req.prompt|
      && event == Some(Event(s, last, true, Some(reason), event.value.usage))
  }

  /** The events tell of the sequences in order, leaving out thrown-away samples only. */
  ghost predicate Told(e: Env, seqs: seq<Sequence>, vs: seq<Seq>, ws: seq<Seq>, tokens: seq<Token>,
                       isPrefill: bool, events: seq<Event>)
    decreases |seqs|
  {
    && |vs| == |ws| == |tokens| == |seqs|
    && if seqs == [] then events == []
       else
         var n := |seqs| - 1;
         var fate := FateOf(e, vs[n], tokens[n], isPrefill);
         if fate.Partial? then Told(e, seqs[..n], vs[..n], ws[..n], tokens[..n], isPrefill, events)
         else
           && events != [] && Reported(seqs[n], ws[n], fate, Some(events[|events| - 1]))
           && Told(e, seqs[..n], vs[..n], ws[..n], tokens[..n], isPrefill, events[..|events| - 1])
  }

  /** After the first i sequences of a batch: those are settled, the others are as they were. */
  ghost predicate PostSoFar(e: Env, was: seq<Sequence>, live: seq<Sequence>, running: seq<Sequence>,
                            seqs: seq<Sequence>, vs: seq<Seq>, ws: seq<Seq>, tokens: seq<Token>,
                            isPrefill: bool, i: nat) {
    && |vs| == |ws| == |tokens| == |seqs| && i <= |seqs| && NoDup(seqs) && NoDup(live)
    && (forall j | 0 <= j < i :: SettledAt(e, live, seqs[j], vs[j], ws[j], tokens[j], isPrefill))
    && (forall j | i <= j < |seqs| :: ws[j] == vs[j] && seqs[j] in live && seqs[j] in running)
    && (forall j | 0 <= j < |was| && was[j] !in seqs :: was[j] in live)
    && (forall j | 0 <= j < |live| :: live[j] in was)
  }

  ghost predicate SettledAt(e: Env, live: seq<Sequence>, s: Sequence, v: Seq, w: Seq, token: Token, isPrefill: bool) {
    var fate := FateOf(e, v, token, isPrefill);
    && Settled(v, w, fate) && (s in live <==> !fate.Ends?)
    && (fate.Ends? ==> EndedRight(e, w.req, w.tokens, fate.reason))
    && (fate.Goes? ==> GoesOn(e.eos, w.req, w.tokens))
  }

  lemma PostAt(e: Env, was: seq<Sequence>, live: seq<Sequence>, running: seq<Sequence>,
               seqs: seq<Sequence>, vs: seq<Seq>, ws: seq<Seq>, tokens: seq<Token>, isPrefill: bool, i: nat)
    returns (k: nat)
    requires PostSoFar(e, was, live, running, seqs, vs, ws, tokens, isPrefill, i) && i < |seqs|
    ensures |vs| == |ws| == |tokens| == |seqs| && NoDup(seqs) && NoDup(live)
    ensures ws[i] == vs[i] && k < |live| && live[k] == seqs[i] && seqs[i] in running
  {
    k := IndexIn(live, seqs[i]);
  }

  lemma PostStep(e: Env, was: seq<Sequence>, lives: seq<Sequence>, runs: seq<Sequence>,
                 live: seq<Sequence>, running: seq<Sequence>, seqs: seq<Sequence>, vs: seq<Seq>, ws: seq<Seq>,
                 w: Seq, tokens: seq<Token>, isPrefill: bool, i: nat, k: nat)
    requires PostSoFar(e, was, lives, runs, seqs, vs, ws, tokens, isPrefill, i) && i < |seqs|
    requires k < |lives| && lives[k] == seqs[i] && NoDup(live)
    requires var fate := FateOf(e, vs[i], tokens[i], isPrefill);
             && Settled(vs[i], w, fate)
             && (fate.Ends? ==> EndedRight(e, w.req, w.tokens, fate.reason))
             && (fate.Goes? ==> GoesOn(e.eos, w.req, w.tokens))
             && (!fate.Ends? ==> live == lives && running == runs)
             && (fate.Ends? ==> live == lives[..k] + lives[k + 1..] && running == Remove(runs, seqs[i]))
    ensures PostSoFar(e, was, live, running, seqs, vs, ws[i := w], tokens, isPrefill, i + 1)
  {
    hide Settled, FateOf;
    var s := seqs[i];
    forall x | x != s ensures (x in lives <==> x in live) && (x in runs ==> x in running) {
      if x in lives { var j := IndexIn(lives, x); }
      if x in runs && running != runs { RemoveOther(runs, s, x); }
    }
  }

  lemma ToldStep(e: Env, seqs: seq<Sequence>, vs: seq<Seq>, ws: seq<Seq>, w: Seq, tokens: seq<Token>,
                 isPrefill: bool, i: nat, events: seq<Event>, event: Option<Event>)
    requires |vs| == |ws| == |tokens| == |seqs| && i < |seqs|
    requires Told(e, seqs[..i], vs[..i], ws[..i], tokens[..i], isPrefill, events)
    requires Reported(seqs[i], w, FateOf(e, vs[i], tokens[i], isPrefill), event)
    ensures Told(e, seqs[..i + 1], vs[..i + 1], ws[i := w][..i + 1], tokens[..i + 1], isPrefill,
                 if event.Some? then events + [event.value] else events)
  {
    var us := ws[i := w];
    assert seqs[..i + 1][..i] == seqs[..i] && vs[..i + 1][..i] == vs[..i] && tokens[..i + 1][..i] == tokens[..i];
    assert us[..i + 1][..i] == ws[..i];
    if event.Some? { assert (events + [event.value])[..|events|] == events; }
  }

  lemma PostDone(e: Env, was: seq<Sequence>, live: seq<Sequence>, running: seq<Sequence>,
                 seqs: seq<Sequence>, vs: seq<Seq>, ws: seq<Seq>, tokens: seq<Token>, isPrefill: bool,
                 events: seq<Event>)
    requires PostSoFar(e, was, live, running, seqs, vs, ws, tokens, isPrefill, |seqs|)
    requires Told(e, seqs[..|seqs|], vs[..|seqs|], ws[..|seqs|], tokens[..|seqs|], isPrefill, events)
    ensures Told(e, seqs, vs, ws, tokens, isPrefill, events)
    ensures forall j | 0 <= j < |seqs| :: SettledAt(e, live, seqs[j], vs[j], ws[j], tokens[j], isPrefill)
    ensures forall j | 0 <= j < |was| && was[j] !in seqs :: was[j] in live
    ensures forall j | 0 <= j < |live| :: live[j] in was
  {
    assert seqs[..|seqs|] == seqs && vs[..|seqs|] == vs && ws[..|seqs|] == ws && tokens[..|seqs|] == tokens;
  }

  lemma RankedIsBut(live: seq<Sequence>, waiting: seq<Sequence>, vs: seq<Seq>, k: nat)
    requires Ranked(live, waiting, vs)
    ensures RankedBut(live, waiting, vs, k)
  {
  }

  lemma NotInRest<T>(xs: seq<T>, k: nat)
    requires k < |xs| && NoDup(xs)
    ensures xs[k] !in xs[..k] + xs[k + 1..]
  {
  }

  /** Every event is some sequence's report. */
  lemma {:induction false} WhoseEvent(e: Env, seqs: seq<Sequence>, vs: seq<Seq>, ws: seq<Seq>, tokens: seq<Token>,
                                      isPrefill: bool, events: seq<Event>, i: nat) returns (j: nat)
    requires Told(e, seqs, vs, ws, tokens, isPrefill, events) && i < |events|
    ensures j < |seqs| == |vs| == |ws| == |tokens|
    ensures Reported(seqs[j], ws[j], FateOf(e, vs[j], tokens[j], isPrefill), Some(events[i]))
    decreases |seqs|
  {
    var n := |seqs| - 1;
    if FateOf(e, vs[n], tokens[n], isPrefill).Partial? {
      j := WhoseEvent(e, seqs[..n], vs[..n], ws[..n], tokens[..n], isPrefill, events, i);
    } else if i == |events| - 1 {
      j := n;
    } else {
      j := WhoseEvent(e, seqs[..n], vs[..n], ws[..n], tokens[..n], isPrefill, events[..|events| - 1], i);
    }
  }

  /** No two events tell of the same sequence. */
  ghost predicate NoEventTwice(events: seq<Event>) {
    forall i, j | 0 <= i < j < |events| :: events[i].seq_ != events[j].seq_
  }

  lemma {:induction false} OneEventEach(e: Env, seqs: seq<Sequence>, vs: seq<Seq>, ws: seq<Seq>, tokens: seq<Token>,
                                        isPrefill: bool, events: seq<Event>)
    requires Told(e, seqs, vs, ws, tokens, isPrefill, events) && NoDup(seqs)
    ensures NoEventTwice(events)
    decreases |seqs|
  {
    if seqs != [] {
      var n := |seqs| - 1;
      if FateOf(e, vs[n], tokens[n], isPrefill).Partial? {
        OneEventEach(e, seqs[..n], vs[..n], ws[..n], tokens[..n], isPrefill, events);
      } else {
        var front := events[..|events| - 1];
        OneEventEach(e, seqs[..n], vs[..n], ws[..n], tokens[..n], isPrefill, front);
        forall i | 0 <= i < |front| ensures front[i].seq_ != seqs[n] {
          var j := WhoseEvent(e, seqs[..n], vs[..n], ws[..n], tokens[..n], isPrefill, front, i);
        }
      }
    }
  }

  /** Every sequence whose sample counts is reported. */
  lemma {:induction false} EventOf(e: Env, seqs: seq<Sequence>, vs: seq<Seq>, ws: seq<Seq>, tokens: seq<Token>,
                                   isPrefill: bool, events: seq<Event>, j: nat) returns (i: nat)
    requires Told(e, seqs, vs, ws, tokens, isPrefill, events) && j < |seqs|
    requires |seqs| == |vs| == |tokens| && FateOf(e, vs[j], tokens[j], isPrefill) != Partial
    ensures i < |events| && events[i].seq_ == seqs[j]
    ensures events[i].finished <==> FateOf(e, vs[j], tokens[j], isPrefill).Ends?
    decreases |seqs|
  {
    var n := |seqs| - 1;
    if j == n {
      i := |events| - 1;
    } else if FateOf(e, vs[n], tokens[n], isPrefill).Partial? {
      i := EventOf(e, seqs[..n], vs[..n], ws[..n], tokens[..n], isPrefill, events, j);
    } else {
      i := EventOf(e, seqs[..n], vs[..n], ws[..n], tokens[..n], isPrefill, events[..|events| - 1], j);
    }
  }

  /** Scheduling loses no progress. */
  lemma KeptWork(live: seq<Sequence>, vs: seq<Seq>, ws: seq<Seq>)
    requires AllKept(live, [], vs, ws)
    ensures SumWork(ws) <= SumWork(vs)
  {
    forall j | 0 <= j < |vs| ensures Work(ws[j]) <= Work(vs[j]) { assert Kept(vs[j], ws[j]); }
    WorkMonotone(vs, ws);
  }
}

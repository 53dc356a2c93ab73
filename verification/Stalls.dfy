/** What it takes for a sequence to get its next prefill chunk, and that purging idle content never
    helps: the ground on which the scheduler can come to a standstill. */
module Stalls {
  import opened Blocks
  import opened BlockClaims
  import opened BlockManagers
  import opened BlockSteps
  import opened Hashing
  import opened PrefixCache
  import opened Sequences
  import opened Wrappers

  /** Where the next chunk of at most budget tokens ends. */
  function ChunkEnd(v: Seq, budget: nat): nat {
    Min(v.prefillTarget, v.numComputed + budget)
  }

  /** The blocks that v lacks for its next chunk are to be had. */
  predicate ChunkFits(v: Seq, budget: nat, bs: nat, spare: nat)
    requires bs > 0
  {
    Missing(v.table, ChunkEnd(v, budget), bs) <= spare
  }

  /** None of them can get its next chunk. */
  predicate NoneFits(vs: seq<Seq>, budget: nat, bs: nat, spare: nat)
    requires bs > 0
  {
    forall j | 0 <= j < |vs| :: !ChunkFits(vs[j], budget, bs, spare)
  }

  lemma NoneFitsNone(budget: nat, bs: nat, spare: nat)
    requires bs > 0
    ensures NoneFits([], budget, bs, spare)
  {
  }

  lemma NoneFitsNext(vs: seq<Seq>, i: nat, budget: nat, bs: nat, spare: nat)
    requires bs > 0 && i < |vs|
    ensures NoneFits(vs[..i + 1], budget, bs, spare)
       <==> NoneFits(vs[..i], budget, bs, spare) && !ChunkFits(vs[i], budget, bs, spare)
  {
    hide ChunkFits;
    assert vs[..i + 1] == vs[..i] + [vs[i]];
  }

  /** A chunk that fits among the first i. */
  lemma NoneFitsPart(vs: seq<Seq>, i: nat, budget: nat, bs: nat, spare: nat)
    requires bs > 0 && i <= |vs| && NoneFits(vs, budget, bs, spare)
    ensures NoneFits(vs[..i], budget, bs, spare)
  {
  }

  /** Of s nothing but cached content may be gone in t. */
  ghost predicate Poorer(s: Store, t: Store) {
    && |t.blocks| == |s.blocks| && t.used == s.used
    && forall hash | hash in t.index ::
         && hash in s.index && t.index[hash] == s.index[hash]
         && (t.index[hash] < |t.blocks| ==> t.blocks[t.index[hash]] == s.blocks[t.index[hash]])
  }

  lemma PurgedPoorer(s: Store, t: Store, gone: set<nat>)
    requires PurgedTo(s, t, gone)
    ensures Poorer(s, t)
  {
  }

  lemma PoorerSame(s: Store)
    ensures Poorer(s, s)
  {
  }

  lemma PoorerUsed(s: Store, t: Store)
    requires Poorer(s, t)
    ensures t.used == s.used && |t.blocks| == |s.blocks|
  {
  }

  lemma PoorerAgain(s: Store, m: Store, t: Store)
    ensures Poorer(s, m) && Poorer(m, t) ==> Poorer(s, t)
  {
  }

  /** A lookup for v finds nothing. */
  predicate Cold(s: Store, c: CacheConfig, h: Hasher, v: Seq)
    requires c.blockSize > 0
  {
    MatchApplies(c, v) ==> MatchLimit(c, v) == 0 || !Hit(s, h, c.blockSize, v, 0)
  }

  /** Every index entry of t is one of s, for the same tokens. */
  ghost predicate Leaner(s: Store, t: Store) {
    forall hash | hash in t.index && t.index[hash] < |t.blocks| ::
      && hash in s.index && t.index[hash] == s.index[hash] < |s.blocks|
      && t.blocks[t.index[hash]].tokenIds == s.blocks[s.index[hash]].tokenIds
  }

  lemma PoorerLeaner(s: Store, t: Store)
    requires Poorer(s, t)
    ensures Leaner(s, t)
  {
  }

  lemma LeanerAgain(s: Store, m: Store, t: Store)
    ensures Leaner(s, m) && Leaner(m, t) ==> Leaner(s, t)
  {
  }

  /** Claiming blocks adds no index entry. */
  lemma AllocatedLeaner(s: Store, t: Store, taken: seq<nat>, expired: set<nat>)
    requires AllocatedTo(s, t, taken, expired) && IndexSound(t)
    ensures Leaner(s, t)
  {
    hide Elements, Counted, IndexFollows;
  }

  lemma LeanerCold(s: Store, t: Store, c: CacheConfig, h: Hasher, v: Seq)
    requires c.blockSize > 0 && Leaner(s, t) && Cold(s, c, h, v)
    ensures Cold(t, c, h, v)
  {
    hide MatchLimit, BlockOf, ChainAt;
  }

  lemma PoorerCold(s: Store, t: Store, c: CacheConfig, h: Hasher, v: Seq)
    requires c.blockSize > 0 && Poorer(s, t) && Cold(s, c, h, v)
    ensures Cold(t, c, h, v)
  {
    hide Cold;
    PoorerLeaner(s, t);
    LeanerCold(s, t, c, h, v);
  }

  /** Only a ready sequence can have another table, more blocks are in use, and no index entry is new. */
  ghost predicate Denser(vs: seq<Seq>, ws: seq<Seq>, b: Store, b': Store) {
    && |ws| == |vs| && |b'.blocks| == |b.blocks| && |b'.used| >= |b.used| && Leaner(b, b')
    && forall j | 0 <= j < |vs| :: ws[j] == (if vs[j].PromptReady() then vs[j].(table := ws[j].table) else vs[j])
  }

  lemma DenserSame(vs: seq<Seq>, b: Store, b': Store)
    requires Poorer(b, b')
    ensures Denser(vs, vs, b, b')
  {
    PoorerLeaner(b, b');
  }

  lemma DenserAgain(vs: seq<Seq>, us: seq<Seq>, ws: seq<Seq>, b: Store, m: Store, b': Store)
    requires Denser(vs, us, b, m) && Denser(us, ws, m, b')
    ensures Denser(vs, ws, b, b')
  {
    LeanerAgain(b, m, b');
  }

  /** A ready sequence has claimed blocks. */
  lemma DenserGrown(vs: seq<Seq>, k: nat, w: Seq, b: Store, b': Store, taken: seq<nat>, expired: set<nat>)
    requires k < |vs| && vs[k].PromptReady() && w == vs[k].(table := w.table)
    requires AllocatedTo(b, b', taken, expired) && IndexSound(b')
    ensures Denser(vs, vs[k := w], b, b')
  {
    AllocatedLeaner(b, b', taken, expired);
    TakenCount(b, b', taken, expired);
  }

  /** A lookup that finds nothing at most purges. */
  lemma ColdLookup(s: Store, mid: Store, t: Store, c: CacheConfig, h: Hasher, v: Seq, w: Seq, now: real)
    requires c.blockSize > 0 && MatchedTo(s, mid, t, c, h, v, w, now) && Cold(s, c, h, v)
    requires v.table == [] ==> v.cacheRead == 0 && v.cacheCreated == 0
    ensures w == v && Poorer(s, t)
  {
    hide MatchLimit, BlockOf, ChainAt, Valid, Selected;
    if MatchApplies(c, v) {
      PurgedPoorer(s, mid, Expired(s, now));
      PoorerCold(s, mid, c, h, v);
      MatchedNone(mid, c, h, v, now);
    }
  }

  /** Looking up twice finds nothing more. */
  lemma LookedUp(s: Store, mid: Store, t: Store, c: CacheConfig, h: Hasher, v: Seq, w: Seq, now: real)
    requires c.blockSize > 0 && MatchedTo(s, mid, t, c, h, v, w, now)
    ensures Cold(t, c, h, w)
  {
    hide BlockOf, ChainAt, Valid, Selected;
    if MatchApplies(c, v) && MatchCount(mid, c, h, v) == 0 { MatchedNone(mid, c, h, v, now); }
  }
}

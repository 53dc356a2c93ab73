/** Requests and their progress: the Sequence object, its value view, and what of it is cacheable. */
module Sequences {
  import opened Arithmetic
  import opened Hashing
  import opened LanguageModel
  import opened Wrappers

  datatype Status = WAITING | RUNNING | FINISHED

  datatype FinishReason = Stop | Length | CacheWarmed | Cancelled

  /** What never changes about a sequence. */
  datatype Request = Request(
    requestId: string,
    prompt: seq<Token>,
    gen: Generation,
    breakpoints: seq<int>,
    cacheablePrefix: Option<int>,
    ttl: Option<real>,
    namespace: string,
    cacheEnabled: bool)

  /* ---------- Cache breakpoints ---------- */

  function InsertDistinct(xs: seq<int>, x: int): seq<int> {
    if xs == [] || x < xs[0] then [x] + xs
    else if x == xs[0] then xs
    else [xs[0]] + InsertDistinct(xs[1..], x)
  }

  /** The distinct positive numbers of xs in increasing order. */
  function SortedPositives(xs: seq<int>): seq<int> {
    if xs == [] then []
    else if xs[0] > 0 then InsertDistinct(SortedPositives(xs[1..]), xs[0])
    else SortedPositives(xs[1..])
  }

  function NormalizeBreakpoints(cacheablePrefix: Option<int>, breakpoints: seq<int>): seq<int> {
    SortedPositives(if cacheablePrefix.Some? then breakpoints + [cacheablePrefix.value] else breakpoints)
  }

  ghost predicate Increasing(xs: seq<int>) {
    forall i, j | 0 <= i < j < |xs| :: xs[i] < xs[j]
  }

  lemma {:induction false} InsertDistinctMeaning(xs: seq<int>, x: int)
    requires Increasing(xs)
    ensures Increasing(InsertDistinct(xs, x))
    ensures forall y :: y in InsertDistinct(xs, x) <==> y in xs || y == x
  {
    if xs != [] && x > xs[0] {
      InsertDistinctMeaning(xs[1..], x);
      var r := InsertDistinct(xs[1..], x);
      assert xs == [xs[0]] + xs[1..];
      forall j | 0 <= j < |r| ensures xs[0] < r[j] { assert r[j] in r; }
    }
  }

  lemma {:induction false} SortedPositivesMeaning(xs: seq<int>)
    ensures Increasing(SortedPositives(xs))
    ensures forall y :: y in SortedPositives(xs) <==> y in xs && y > 0
  {
    if xs != [] {
      SortedPositivesMeaning(xs[1..]);
      assert xs == [xs[0]] + xs[1..];
      if xs[0] > 0 { InsertDistinctMeaning(SortedPositives(xs[1..]), xs[0]); }
    }
  }

  /** The last entry that is at most limit; 0 if there is none. */
  function LastAtMost(xs: seq<int>, limit: int): int {
    if xs == [] then 0
    else if xs[|xs| - 1] <= limit then xs[|xs| - 1]
    else LastAtMost(xs[..|xs| - 1], limit)
  }

  function MaxCacheable(r: Request, upTo: nat): int {
    if r.breakpoints != [] then LastAtMost(r.breakpoints, upTo)
    else if r.cacheablePrefix.None? then upTo
    else r.cacheablePrefix.value
  }

  /** On increasing breakpoints the boundary is the largest one not beyond upTo. */
  lemma {:induction false} LastAtMostIsLargest(xs: seq<int>, limit: int)
    requires Increasing(xs)
    ensures var r := LastAtMost(xs, limit);
            && (forall x | x in xs && x <= limit :: x <= r)
            && ((r in xs && r <= limit) || (r == 0 && forall x | x in xs :: x > limit))
  {
    if xs != [] {
      var rest := xs[..|xs| - 1];
      assert xs == rest + [xs[|xs| - 1]];
      LastAtMostIsLargest(rest, limit);
    }
  }

  /** b is how far a request may be cached once upTo tokens are computed: at its largest breakpoint
      among them, or nowhere if they contain none; without breakpoints at its cacheable prefix, or
      at everything computed. */
  ghost predicate IsBoundary(r: Request, upTo: nat, b: int) {
    if r.breakpoints != [] then
      && (forall x | x in r.breakpoints && x <= upTo :: x <= b)
      && ((b in r.breakpoints && b <= upTo) || (b == 0 && forall x | x in r.breakpoints :: x > upTo))
    else if r.cacheablePrefix.Some? then b == r.cacheablePrefix.value
    else b == upTo
  }

  /** There is exactly one such boundary, and MaxCacheable computes it. */
  lemma BoundaryUnique(r: Request, upTo: nat)
    requires Increasing(r.breakpoints)
    ensures forall b :: IsBoundary(r, upTo, b) <==> b == MaxCacheable(r, upTo)
  {
    LastAtMostIsLargest(r.breakpoints, upTo);
  }

  /* ---------- Blocks of a token sequence ---------- */

  function Expiry(ttl: Option<real>, now: real): Option<real> {
    if ttl.None? then None else Some(now + ttl.value)
  }

  function BlockOf(t: seq<Token>, i: nat, bs: nat): seq<Token>
    requires bs > 0 && (i + 1) * bs <= |t|
  {
    assert i * bs >= 0;
    t[i * bs..(i + 1) * bs]
  }

  /** Chain hash of the first k blocks of t. */
  function ChainAt(h: Hasher, bs: nat, namespace: string, t: seq<Token>, k: nat): int
    requires bs > 0 && k * bs <= |t|
  {
    Chain(h, bs, namespace, t[..k * bs])
  }

  lemma ChainAtStep(h: Hasher, bs: nat, namespace: string, t: seq<Token>, k: nat)
    requires bs > 0 && (k + 1) * bs <= |t|
    ensures k * bs + bs == (k + 1) * bs && |BlockOf(t, k, bs)| == bs
    ensures ChainAt(h, bs, namespace, t, k + 1)
         == h.Block(BlockOf(t, k, bs), ChainAt(h, bs, namespace, t, k))
    ensures ChainAt(h, bs, namespace, t, k + 1) >= 0
  {
    assert (k + 1) * bs == k * bs + bs;
    assert k * bs >= 0;
    var whole := t[..(k + 1) * bs];
    assert whole[..|whole| - bs] == t[..k * bs];
    assert whole[|whole| - bs..] == BlockOf(t, k, bs);
  }

  lemma ChainAtZero(h: Hasher, bs: nat, namespace: string, t: seq<Token>)
    requires bs > 0
    ensures 0 * bs == 0 && ChainAt(h, bs, namespace, t, 0) == InitialHash(h, namespace)
  {
    assert 0 * bs == 0;
  }

  /* ---------- The view of a sequence ---------- */

  datatype Seq = Seq(
    req: Request,
    tokens: seq<Token>,
    prefillTarget: nat,
    numCached: nat,
    numComputed: nat,
    table: seq<nat>,
    cacheRead: nat,
    cacheCreated: nat,
    schedStart: nat,
    schedEnd: nat,
    status: Status,
    finish: Option<FinishReason>)
  {
    predicate PromptReady() { numComputed >= prefillTarget }

    /** Prompt tokens in block i. */
    function PromptTokens(i: nat, bs: nat): nat {
      assert i * bs >= 0;
      Max(0, Min((i + 1) * bs, |req.prompt|) - i * bs)
    }

    /** Prompt tokens in the first k blocks. */
    function PromptTokensUpTo(k: nat, bs: nat): nat {
      if k == 0 then 0 else PromptTokensUpTo(k - 1, bs) + PromptTokens(k - 1, bs)
    }
  }

  function NewSeq(r: Request): Seq {
    Seq(r, r.prompt, |r.prompt|, 0, 0, [], 0, 0, 0, 0, WAITING, None)
  }

  lemma {:induction false} PromptTokensTotal(v: Seq, k: nat, bs: nat)
    ensures k * bs >= 0 && v.PromptTokensUpTo(k, bs) == Min(k * bs, |v.req.prompt|)
  {
    if k > 0 {
      PromptTokensTotal(v, k - 1, bs);
      assert (k - 1) * bs + bs == k * bs;
      assert (k - 1 + 1) * bs == k * bs;
    } else {
      assert k * bs == 0;
    }
  }

  class Sequence {
    const req: Request
    var tokenIds: seq<Token>
    var prefillTargetTokens: nat
    var numCachedTokens: nat
    var numComputedTokens: nat
    var blockTable: seq<nat>
    var cacheReadInputTokens: nat
    var cacheCreationInputTokens: nat
    var scheduledPrefillStart: nat
    var scheduledPrefillEnd: nat
    var status: Status
    var finishReason: Option<FinishReason>

    constructor (r: Request)
      requires r.prompt != []
      ensures View() == NewSeq(r)
    {
      req := r;
      tokenIds := r.prompt;
      prefillTargetTokens := |r.prompt|;
      numCachedTokens, numComputedTokens := 0, 0;
      blockTable := [];
      cacheReadInputTokens, cacheCreationInputTokens := 0, 0;
      scheduledPrefillStart, scheduledPrefillEnd := 0, 0;
      status := WAITING;
      finishReason := None;
    }

    function View(): Seq
      reads this
    {
      Seq(req, tokenIds, prefillTargetTokens, numCachedTokens, numComputedTokens, blockTable,
          cacheReadInputTokens, cacheCreationInputTokens, scheduledPrefillStart, scheduledPrefillEnd,
          status, finishReason)
    }

    method SetPrefillChunk(start: nat, end: nat)
      requires start < end <= prefillTargetTokens
      modifies this
      ensures View() == old(View()).(schedStart := start, schedEnd := end)
    {
      scheduledPrefillStart, scheduledPrefillEnd := start, end;
    }

    method SetComputed(n: nat)
      modifies this
      ensures View() == old(View()).(numComputed := n)
    {
      numComputedTokens := n;
    }

    method ClearPrefillChunk()
      modifies this
      ensures View() == old(View()).(schedStart := 0, schedEnd := 0)
    {
      scheduledPrefillStart, scheduledPrefillEnd := 0, 0;
    }

    method AppendToken(token: Token)
      modifies this
      ensures View() == old(View()).(tokens := old(tokenIds) + [token])
    {
      tokenIds := tokenIds + [token];
    }

    method Finish(reason: FinishReason)
      modifies this
      ensures View() == old(View()).(status := FINISHED, finish := Some(reason))
    {
      status := FINISHED;
      finishReason := Some(reason);
    }

    method StartRunning()
      modifies this
      ensures View() == old(View()).(status := RUNNING)
    {
      status := RUNNING;
    }

    /** Back to waiting; all tokens so far are to be prefilled. */
    method WaitAgain()
      modifies this
      ensures View() == old(View()).(status := WAITING, prefillTarget := |tokenIds|)
    {
      status := WAITING;
      prefillTargetTokens := |tokenIds|;
    }

    method ResetCacheUsage()
      modifies this
      ensures View() == old(View()).(cacheRead := 0, cacheCreated := 0)
    {
      cacheReadInputTokens, cacheCreationInputTokens := 0, 0;
    }
  }
}

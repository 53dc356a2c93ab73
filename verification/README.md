# A verified model of nano-vLLM's serving engine

This project models the online serving core of nano-vLLM in Dafny and proves that sharing, eviction,
chunking, batching and preemption do not change what a request generates. `dafny verify dfyconfig.toml`
checks all of it.

## What is modelled

**Paged KV cache and prefix cache** (`Blocks`, `BlockSteps`, `BlockClaims`, `PrefixCache`, `BlockManager`).
`class BlockManager` updates its blocks, free queue, cached and used sets, hash index and clock in place, and every
method is proved against a function or relation on the value of that state.

**The world** (`Worlds`, `WorldSteps`, `WorldOps`, `WorldCommit`, `WorldRun`, `WorldAdvance`). One invariant, `Inv`,
ties the block store, the views of all unfinished sequences and the KV memory together: exact reference counts,
partitioned ids, hashes only behind the computed frontier, usage counted once, and, if the hash is collision-free,
every hashed block and every computed position holding the entries of exactly the token prefix it stands for. Each
step of the engine is proved to keep it.

**Scheduler, model runner and engine** (`Scheduling`, `Policies`, `Stalls`, `Scheduler`, `Standstill`, `Outcomes`,
`Packing`, `ModelRunner`, `Batches`, `Engine`). `class Scheduler` with its deques, `class ModelRunner` with a flat KV array, and `class LLMEngine`
with `Step` and `Generate`. The model is an abstract deterministic transformer: an entry depends on the earlier entries
and its token, the next token on the entries so far. `LanguageModel.Generate` is the reference, one request at a time.

**Asynchronous front end** (`AsyncRequests`, `AsyncEngine`), as atomic steps over pending queue, active requests, output
queues and counters; its token budgets are composed with the scheduler's block arithmetic.

**Attention kernels** (`Softmax`, `Attention`, `Kernels`, `PagedReads`) over exact reals with an abstract positive exp satisfying
exp(a + b) = exp(a) exp(b): dense, grouped, streaming and paged kernels all equal one plain softmax.

**Tensor-parallel linear layers** (`TensorParallel`).

## Assumptions, all of them explicit in contracts

- `CollisionFree`: different inputs of the hash function have different hashes, and no namespace in use has the very
  bytes that are hashed for some block. `names`, the namespaces in use, is a free parameter that every request has to
  satisfy. `Hashing.HashesCanBeDistinct` shows that this can be met. Only statements about contents and generated tokens
  need it; counts, partition, quotas, capacity and progress do not.
- `Fits` / `WillFit`: the worst-case blocks of all unfinished requests fit the pool. Progress and absence of preemption
  are claimed under it only; `Sane` says that the scheduler's limits are positive.
- `ExpLaw`, and scores above the mask value -FLT_MAX, as finite floats are.
- Time is a parameter of each operation; `RunOnce` takes the sequence of clock readings.

## What the proofs found

- The assertion in `prepare_prefill` (nanovllm/engine/block_manager.py:448) can fail: a running sequence without blocks
  is looked up again after another one has committed the same prefix. `Rematch.AssertionHoldsExactly` gives the exact
  condition, `Rematch.AssertionCanFail` a state within the invariant for any hash; in the model it is the outcome `RematchFailed` / `AssertionFailed`.
- A namespace whose UTF-8 bytes are those of a packed block is not isolated: it is seeded with that block's hash
  (nanovllm/engine/block_manager.py:95-121) and finds what the default namespace cached behind the block.
  `Hashing.ChainsIdentifyExactly` gives the exact condition, `OtherLengthsAreSafe` the lengths that cannot collide.
- When an output queue is full, a timeout or failure is counted as cancelled too
  (nanovllm/engine/async_engine.py:842-850); `CountedTwice` shows it. The balance of the counters is therefore proved with
  the term `overcounted`: it grows by exactly the number of active requests that expire or fail with a full queue, and
  not at all in rounds in which every queue has room for two.
- A last message followed by the stop item needs room for two. With room for one the stop item clears the queue
  (nanovllm/engine/async_engine.py:834-841) and the client never sees the message: `LastOutputArrives`.
- `schedule` can reach its RuntimeError (nanovllm/engine/scheduler.py:158) although each request fits the pool:
  half-prefilled sequences hold all blocks and none is ever preempted for a prefill. `Standstill` has the state; the
  contract of `Schedule` says when it comes, and it is excluded under `Fits`. Repeating the call then ends the same way, unless
  the cache-aware policy brings another request to the front.
- `estimate_cached_prefix_tokens` ignores expiry, so it is an upper bound of what a lookup finds, not its value.
- The branch of the drain loop for cancelled pending requests (nanovllm/engine/async_engine.py:727-729) is never taken:
  pending requests are never cancelled ones.

## Model

| member | source | states |
|---|---|---|
| Engines.LLMEngine.Generate | nanovllm/engine/llm_engine.py:126-167 | generating a list of prompts returns, in order, for each prompt exactly the completion it generates alone, which under collision freedom is: each token the model's choice for the tokens before it, no eos before the last one unless ignore_eos, and max_tokens tokens, or fewer with an eos at the end where eos counts; it refuses exactly when some prompt breaks the limits; while every worst case fits the pool it ends within the sum of prompt and completion lengths without a preemption, and only the repeated-lookup assertion, which needs prefix caching, can stop it |
| Engines.LLMEngine.Serve | nanovllm/engine/llm_engine.py:141-156 | the step loop on any queue of requests: when it ends nothing is left and every request has been delivered what it generates alone; total under the capacity condition |
| Engines.LLMEngine.Step | nanovllm/engine/llm_engine.py:85-107 | after one step, from any reachable state: every sequence has gained exactly the tokens the outputs tell of and no other, no two outputs telling of the same one; an unfinished one has a beginning of, a finished one exactly, what its prompt generates alone; usage adds up; while all worst cases fit there is no RuntimeError and no preemption, and the work left shrinks; otherwise the RuntimeError comes exactly as for Schedule |
| Engines.LLMEngine.Settle | nanovllm/engine/llm_engine.py:92-106 | the same for the part after the model has run: who leaves is told as finished, who is not told of has gained no token |
| Engines.LLMEngine.EventsTrue | nanovllm/engine/llm_engine.py:92-106 | every event tells the truth about a sequence of the batch |
| Engines.LLMEngine.EventsFollowed | nanovllm/engine/llm_engine.py:92-106 | each sequence has gained exactly the tokens the events tell of |
| Engines.LLMEngine.LeaversTold | nanovllm/engine/llm_engine.py:92-106 | who has left was of the batch and is told of as finished |
| Engines.LLMEngine.RunBatch | nanovllm/engine/llm_engine.py:91 | running any scheduled batch keeps all invariants and gives each sequence the model's choice for exactly its own tokens |
| Engines.LLMEngine.Plan | nanovllm/engine/llm_engine.py:86 | scheduling changes no token; under the capacity condition it loses no progress; when it finds nothing, and when not, is as for Schedule |
| Engines.LLMEngine.LiveOnTrack | nanovllm/engine/scheduler.py:278-288 | in every reachable state, every unfinished request has produced a beginning of what it generates alone |
| Engines.LLMEngine.PagedIsPrivate | nanovllm/engine/model_runner.py:197-200 | in every reachable state, slot table[p / bs] * bs + p % bs holds the entry of exactly the sequence's own token prefix, for every computed position p: the paged store refines a private contiguous one |
| Engines.LLMEngine.NothingInUse | nanovllm/engine/scheduler.py:40-41 | when no request is left, no block is in use: free and cached ones are all there are |
| Engines.LLMEngine.OutputIsTrue | nanovllm/engine/llm_engine.py:94-106 | an output's completion list is a beginning of, or when finished exactly, what its prompt generates alone; its token is the last one; the finish reason is stop, length or cache_warmed exactly as the completion ends; the usage counts add up to the prompt |
| Engines.LLMEngine.Report | nanovllm/engine/llm_engine.py:93-106 | one output per event, in order, with the whole completion so far |
| Engines.LLMEngine.AddRequest | nanovllm/engine/llm_engine.py:49-80 | refuses exactly per the limits and then changes nothing; otherwise exactly one new waiting sequence, of the request that was asked for |
| Engines.LLMEngine.Requested | nanovllm/engine/sequence.py:57-66 | the request is what was asked for; its breakpoints are exactly the positive ones given together with the cacheable prefix, strictly increasing; if there are any the last one becomes its cacheable prefix |
| Engines.LLMEngine.RightCompletes | nanovllm/engine/scheduler.py:278-288 | what a request generates alone is the one completion that the independent description allows |
| Engines.LLMEngine.constructor | nanovllm/engine/llm_engine.py:18-36 | an engine starts valid, with an empty queue and memory for every block |
| Engines.LLMEngine.AddAll | nanovllm/engine/llm_engine.py:136-138 | all prompts are queued iff all are within the limits; the work and blocks they can need are added up exactly |
| Engines.LLMEngine.AbortRequest | nanovllm/engine/llm_engine.py:82-83 | found iff some unfinished sequence has the id; exactly that one leaves, all others are as they were |
| Engines.LLMEngine.PurgePrefixCache | nanovllm/engine/llm_engine.py:120-121 | clears exactly the selected idle blocks; no request is affected |
| Engines.LLMEngine.StepDelivers | nanovllm/engine/llm_engine.py:154-156 | a finished output is stored under its own id and never overwritten by another request's |
| Engines.LLMEngine.Collect | nanovllm/engine/llm_engine.py:161-167 | completions come out in the order of the prompts |
| Engines.LLMEngine.WorkLeft | nanovllm/engine/llm_engine.py:141 | an unfinished request always has work left, so the loop's measure is well founded |
| Engines.LLMEngine.FinishedMeansNone | nanovllm/engine/scheduler.py:40-41 | both queues are empty iff no request is unfinished |
| Engines.ValidateRequestLimits | nanovllm/engine/request_validation.py:5-27 | accepted iff prompt non-empty, max_tokens not negative, total within the model length and, once the pool is sized, total <= blocks * block size |
| LanguageModel.KVsPrefix | nanovllm/engine/model_runner.py:185-195 | entries of a prefix do not depend on later tokens: what makes chunks and cached prefixes reusable |
| LanguageModel.GenerateTokens | nanovllm/engine/scheduler.py:278-288 | the reference: every generated token is the model's choice for exactly the tokens before it, and none but the last is a stop token |
| LanguageModel.GenerateEnds | nanovllm/engine/scheduler.py:285-288 | the reference ends at the token limit or at a stop token |
| LanguageModel.GenerateExactly | nanovllm/engine/scheduler.py:278-288 | c is what the reference generates iff c completes the prompt: every token is the model's choice for the tokens before it; with max_tokens 0 there is none; otherwise, unless ignore_eos, no eos comes before the last token, and c has max_tokens tokens or, where eos counts, ends in eos |
| LanguageModel.GenerateCompletes | nanovllm/engine/scheduler.py:278-288 | one direction: the reference is such a completion |
| LanguageModel.CompletesUniquely | nanovllm/engine/scheduler.py:278-288 | the other: there is only one such completion, from any point on |
| WorldSteps.StepInv | nanovllm/engine/block_manager.py:223-343 | any step that changes one sequence, keeps counts exact and drops content of idle blocks only keeps everything |
| WorldOps.PurgeInv | nanovllm/engine/block_manager.py:210-250 | purging keeps the invariant |
| WorldOps.MatchInv | nanovllm/engine/block_manager.py:387-437 | a lookup keeps the invariant and leaves at least one token to compute |
| WorldOps.AttachedHolds | nanovllm/engine/block_manager.py:404-427 | a hit is sound: every attached block holds the sequence's own entries |
| WorldOps.AllocInv | nanovllm/engine/block_manager.py:439-444 | claiming blocks for one sequence keeps everybody's content |
| WorldOps.RestartInv | nanovllm/engine/scheduler.py:241-249 | preemption keeps everybody's content; the victim starts over with all its tokens |
| WorldOps.LeaveInv | nanovllm/engine/scheduler.py:47-57 | a sequence that leaves takes only its own references along |
| WorldOps.AddInv | nanovllm/engine/scheduler.py:43-45 | a new sequence joins without disturbing anyone |
| WorldCommit.CommitSparesOthers | nanovllm/engine/block_manager.py:465-487 | hashing a sequence's blocks changes no block of any other sequence |
| WorldCommit.CommitCounts | nanovllm/engine/block_manager.py:488-489 | each newly hashed block is counted once as created, by its prompt tokens |
| WorldCommit.IndexedIsDuplicate | nanovllm/engine/block_manager.py:474-483 | under collision freedom an indexed hash is a true duplicate, so skipping it is right |
| WorldCommit.NewHashTrue | nanovllm/engine/block_manager.py:484-486 | under collision freedom a new hash identifies namespace and whole prefix, and the block holds its entries |
| WorldCommit.CommitInv | nanovllm/engine/block_manager.py:457-495 | a commit keeps the invariant |
| WorldRun.FrontierPrivate | nanovllm/engine/block_manager.py:303-326 | a block reaching past the computed frontier is live, unhashed and referenced once |
| WorldRun.FrontierBlockOnce | nanovllm/engine/model_runner.py:197-200 | such a block occurs nowhere else in any table |
| WorldRun.FrontierSlotsApart | nanovllm/engine/model_runner.py:197-200 | a slot that is written is the slot of no other position of any sequence |
| WorldRun.BatchSlotsApart | nanovllm/engine/model_runner.py:180-200 | all slots one batch writes are pairwise distinct and shared with nobody |
| WorldRun.RunInv | nanovllm/engine/model_runner.py:276-280 | a model run overwrites no cached block and no computed position |
| WorldAdvance.ComputedInv | nanovllm/engine/scheduler.py:255 | moving the computed frontier to what the run has written keeps the invariant |
| WorldAdvance.AppendInv | nanovllm/engine/scheduler.py:278 | appending the model's own token, unless it ends the request, keeps the invariant |
| WorldAdvance.LastToken | nanovllm/engine/scheduler.py:285-288 | the ending token completes exactly what the request generates alone |
| WorldAdvance.UsageAddsUp | nanovllm/engine/sequence.py:160-170 | read + created never exceed the prompt: the clamp at zero never acts, and the three counts sum to the prompt |
| WorldAdvance.NothingLeftNothingUsed | nanovllm/engine/block_manager.py:328-343 | with no sequence left nothing is used |
| WorldAdvance.OneBlockPerPrefix | nanovllm/engine/block_manager.py:474-486 | under collision freedom at most one block carries a given namespace and prefix |
| WorldAdvance.HitIsIsolated | nanovllm/engine/block_manager.py:404-423 | under collision freedom a hit was cached for the same namespace and the same whole prefix, not merely the same last block, and for no other namespace in use and no other prefix |
| WorldAdvance.CachedIsFound | nanovllm/engine/block_manager.py:404-423 | under collision freedom a block that is cached is found: any sequence of the same namespace that begins with the same blocks gets a hit |
| WorldAdvance.CommittedIsFound | nanovllm/engine/block_manager.py:387-495 | under collision freedom a second sequence that begins as a first one does, in the same namespace, attaches every block its lookup may use, if each of them was to be cached when the first one was committed |
| WorldAdvance.PositionHeld | nanovllm/engine/model_runner.py:223-230 | a computed position is read back as the sequence's own entry |
| Hashing.ChainInjective | nanovllm/engine/block_manager.py:95-121 | under collision freedom the chain hash of whole blocks identifies namespace and whole prefix, among the namespaces in use |
| Hashing.ChainsIdentifyExactly | nanovllm/engine/block_manager.py:95-121 | where different hash inputs have different hashes, chain hashes identify namespace and prefix iff no namespace in use has the very bytes hashed for some block |
| Hashing.OtherLengthsAreSafe | nanovllm/engine/block_manager.py:109-121 | only a namespace of exactly as many 8-byte words as a block has tokens, or one more, can have such bytes |
| Hashing.NamespaceOfOneBlock | nanovllm/engine/block_manager.py:95-121 | a namespace that does is not isolated: one whose bytes are a block of tokens has, under every prefix, the chain hash that the default namespace has for that block followed by the prefix |
| Hashing.HashesCanBeDistinct | nanovllm/engine/block_manager.py:95-121 | the hypothesis of collision freedom can be met: for any unambiguous packing and any namespaces of other lengths there are hash functions of this shape without collisions |
| Blocks.PartitionCount | nanovllm/engine/block_manager.py:68-72 | free, cached and used ids together are all ids, each once |
| Blocks.PurgeKeepsValid | nanovllm/engine/block_manager.py:223-229 | purging one idle block keeps partition, index, shapes and ticks |
| Blocks.LruUnique | nanovllm/engine/block_manager.py:258 | access ticks of idle blocks differ, so the eviction victim is unique |
| BlockSteps.EnforceNamespaceTrims | nanovllm/engine/block_manager.py:267-283 | exactly the oldest cached blocks that carry this namespace go, exactly as many as are over the quota |
| BlockSteps.EnforceGlobalTrims | nanovllm/engine/block_manager.py:285-295 | the same for the global quota |
| BlockSteps.EnforceBothKeepsQuotas | nanovllm/engine/block_manager.py:338-339 | enforcing both quotas after a release restores both |
| BlockSteps.ReleaseKeepsValid | nanovllm/engine/block_manager.py:328-343 | a release keeps all store invariants |
| BlockSteps.ReleaseKeepsQuotas | nanovllm/engine/block_manager.py:328-343 | the quotas hold after every release |
| BlockSteps.ReleaseSteps | nanovllm/engine/block_manager.py:328-343 | a release drops exactly one reference; only idle blocks can lose content |
| BlockSteps.ReleaseAllKeeps | nanovllm/engine/block_manager.py:497-499 | releasing a table drops exactly its references and keeps validity and quotas |
| BlockClaims.AttachKeeps | nanovllm/engine/block_manager.py:319-326 | attaching adds exactly one reference and moves an idle block to used |
| BlockClaims.AttachAllKeeps | nanovllm/engine/block_manager.py:424-425 | attaching a prefix adds one reference per block and changes no content and no index entry |
| BlockClaims.AllocateHeadKeeps | nanovllm/engine/block_manager.py:303-311 | the allocated block was idle and is now live, unhashed, with one owner |
| BlockClaims.EvictIfFullKeeps | nanovllm/engine/block_manager.py:256-265 | eviction happens only when nothing is free, and only of the least recently used cached block |
| BlockClaims.AllocateStep | nanovllm/engine/block_manager.py:297-311 | one allocation: expired blocks first, then free ones, then the least recently used |
| BlockClaims.AllocatedThen | nanovllm/engine/block_manager.py:439-444 | allocations in a row: every evicted block is older than every cached block that stays |
| BlockClaims.UpdateHashKeeps | nanovllm/engine/block_manager.py:484-486 | hashing a live unhashed block keeps the store valid |
| PrefixCache.LongestHitMeaning | nanovllm/engine/block_manager.py:405-425 | the attached run is the longest: all in it hit, the next one does not |
| PrefixCache.MatchLimitLeavesLast | nanovllm/engine/block_manager.py:395-403 | a lookup never covers the last token to prefill |
| PrefixCache.MatchLimitExact | nanovllm/engine/block_manager.py:395-403 | a lookup may use exactly the blocks that end within the boundary and before the last token to prefill, where both are at least prefix_cache_min_tokens |
| PrefixCache.MatchIsLongest | nanovllm/engine/block_manager.py:395-425 | what a lookup attaches: k such blocks, all cached, and the next one is not such a block or not cached |
| PrefixCache.LookupMeaning | nanovllm/engine/block_manager.py:409-423 | after k attachments the index lookup and token guard decide exactly as on the store before them |
| PrefixCache.MatchSparesRoom | nanovllm/engine/block_manager.py:446-449 | room that was enough before a lookup is enough after it |
| PrefixCache.CommitLimitWithin | nanovllm/engine/block_manager.py:460-463 | only whole blocks within the computed tokens are committed |
| PrefixCache.CommitLimitExact | nanovllm/engine/block_manager.py:457-463 | a commit goes over exactly the blocks that end within the computed tokens and within the boundary, where caching is on and the boundary is at least prefix_cache_min_tokens |
| PrefixCache.CommitReachesAll | nanovllm/engine/block_manager.py:464-487 | every block a commit goes over is afterwards hashed, or another block with its chain hash holds its tokens |
| PrefixCache.CommitIsExact | nanovllm/engine/block_manager.py:457-487 | both together: every block that is to be cached is, and no block changes but those |
| PrefixCache.CommitUntouched | nanovllm/engine/block_manager.py:465-472 | a block still unhashed occurs once in the table, so no earlier round of the loop touched it |
| PrefixCache.CommitUpToKeeps | nanovllm/engine/block_manager.py:464-487 | a commit gives each unhashed block of the sequence the chain hash of its own prefix, resumes right from hashed ones, and touches nothing else |
| BlockManagers.BlockManager.constructor | nanovllm/engine/block_manager.py:53-73 | all blocks free, nothing cached or used, invariants hold |
| BlockManagers.BlockManager.PurgeCachedBlock | nanovllm/engine/block_manager.py:223-229 | exactly this block becomes free and loses its index entry |
| BlockManagers.BlockManager.RemoveHashMapping | nanovllm/engine/block_manager.py:252-254 | an index entry goes only if it names this very block |
| BlockManagers.BlockManager.PurgeWhere | nanovllm/engine/block_manager.py:231-250 | exactly the idle blocks of the namespace, or of all, and if so asked only those whose expiry is at or before the given time, are cleared, and counted |
| BlockManagers.BlockManager.PurgeExpired | nanovllm/engine/block_manager.py:210-221 | exactly the idle blocks with an expiry at or before now are cleared |
| BlockManagers.BlockManager.FindLru | nanovllm/engine/block_manager.py:258 | the search finds the unique least recently used block |
| BlockManagers.BlockManager.EvictCachedBlock | nanovllm/engine/block_manager.py:256-265 | evicts that block and hands out its id |
| BlockManagers.BlockManager.TakeFreeBlockId | nanovllm/engine/block_manager.py:297-301 | never reaches the empty-cache assertion while some block is not used |
| BlockManagers.BlockManager.AllocateNewBlock | nanovllm/engine/block_manager.py:303-311 | claims one idle block, evicting only when nothing is free |
| BlockManagers.BlockManager.AvailableBlocks | nanovllm/engine/block_manager.py:345-347 | free + cached = all - used, whatever expires meanwhile |
| BlockManagers.BlockManager.CanAllocate | nanovllm/engine/block_manager.py:380-385 | true iff the missing blocks fit into what is not used, less the reserve |
| BlockManagers.BlockManager.EnsureBlocks | nanovllm/engine/block_manager.py:439-444 | a positive can_allocate is a promise: exactly the missing blocks are claimed, other tables and counts stay |
| BlockManagers.BlockManager.AttachCachedBlock | nanovllm/engine/block_manager.py:319-326 | one more reference, fresh tick; it expires ttl after now, or never without a ttl |
| BlockManagers.BlockManager.AttachNext | nanovllm/engine/block_manager.py:424-429 | the sequence advances by one block and counts that block's prompt tokens as read |
| BlockManagers.BlockManager.AttachIfCached | nanovllm/engine/block_manager.py:410-425 | attaches iff the hash is indexed and the token guard agrees; otherwise nothing changes |
| BlockManagers.BlockManager.MatchCachedPrefix | nanovllm/engine/block_manager.py:387-429 | if the sequence has no blocks and caching is on for it, expired blocks go and the longest cached prefix within the boundary and before the last token is attached; otherwise nothing changes |
| BlockManagers.BlockManager.MatchLoop | nanovllm/engine/block_manager.py:404-429 | the loop attaches exactly the longest run of hits |
| BlockManagers.BlockManager.EstimateCachedPrefixTokens | nanovllm/engine/block_manager.py:359-378 | the tokens of the longest run of hits now, expiry ignored |
| BlockManagers.BlockManager.PreparePrefill | nanovllm/engine/block_manager.py:446-449 | lookup, then exactly the missing blocks; ok iff the lookup has not reached the target |
| BlockManagers.BlockManager.CanAppend | nanovllm/engine/block_manager.py:451-452 | true iff the next token's block can be had |
| BlockManagers.BlockManager.MayAppend | nanovllm/engine/block_manager.py:454-455 | claims exactly what the next token needs |
| BlockManagers.BlockManager.EnforceNamespaceQuota | nanovllm/engine/block_manager.py:267-283 | the loop does what the trimming function does |
| BlockManagers.BlockManager.EnforceGlobalQuota | nanovllm/engine/block_manager.py:285-295 | the loop does what the trimming function does |
| BlockManagers.BlockManager.ReleaseBlock | nanovllm/engine/block_manager.py:328-343 | one reference fewer; the last one parks or frees the block and enforces both quotas |
| BlockManagers.BlockManager.Deallocate | nanovllm/engine/block_manager.py:497-503 | all references of the table are given back last block first, and the sequence's progress is reset |
| BlockManagers.BlockManager.CommitComputedTokens | nanovllm/engine/block_manager.py:457-495 | the loop computes exactly the commit function, for store, usage count and chain hash; with increasing breakpoints every whole block within the computed tokens and the largest breakpoint at most that, or all computed tokens without breakpoints and prefix, is hashed afterwards or an indexed duplicate holds its tokens, and no other block changes |
| BlockManagers.BlockManager.CommitBlock | nanovllm/engine/block_manager.py:465-495 | one round: skip a hashed block, skip a duplicate, or hash and index the block |
| Retention.ReleaseNext | nanovllm/engine/block_manager.py:328-339 | releasing the next block of a chain puts it in front of the cached stretch and, over the quota, evicts the stretch's last block |
| Retention.ChainBeginningStays | nanovllm/engine/block_manager.py:497-499 | a solely owned chain of hashed blocks released into an empty namespace with quota q keeps exactly its first min(k, q) blocks |
| Rematch.AssertionHoldsExactly | nanovllm/engine/block_manager.py:446-449 | the assertion holds iff the unexpired cached prefix leaves the chunk something to compute |
| Rematch.WillMatchAfterPurge | nanovllm/engine/block_manager.py:387-393 | clearing what has expired, as can_allocate does, does not change what the lookup then finds |
| Rematch.AssertionCanFail | nanovllm/engine/block_manager.py:447-448 | whatever the hash function and the model, there is a state within the invariant, with room for the chunk, in which it fails at any time |
| Rematch.EstimateIsBound | nanovllm/engine/block_manager.py:359-378 | the estimate, which ignores expiry, is never below what a lookup finds |
| Sequences.SortedPositivesMeaning | nanovllm/engine/sequence.py:104-114 | breakpoints: strictly increasing, exactly the positive ones given |
| Sequences.LastAtMostIsLargest | nanovllm/engine/sequence.py:116-128 | the cacheable boundary is the largest breakpoint within the computed tokens, 0 if there is none |
| Sequences.BoundaryUnique | nanovllm/engine/sequence.py:111-123 | the boundary is the largest breakpoint at most the computed tokens, 0 if there is none; without breakpoints the cacheable prefix, or all computed tokens; and nothing else is |
| Sequences.PromptTokensTotal | nanovllm/engine/block_manager.py:202-205 | per-block prompt tokens add up to min(k * bs, prompt length) |
| Sequences.ChainAtStep | nanovllm/engine/block_manager.py:406-409 | block by block the loop's hash is the chain hash of the prefix |
| Sequences.Sequence.constructor | nanovllm/engine/sequence.py:29-60 | a new sequence waits, with nothing computed and the whole prompt to prefill |
| Sequences.Sequence.SetPrefillChunk | nanovllm/engine/sequence.py:138-141 | notes a non-empty chunk within the target; nothing else changes |
| Sequences.Sequence.ClearPrefillChunk | nanovllm/engine/sequence.py:143-145 | forgets it |
| Sequences.Sequence.AppendToken | nanovllm/engine/sequence.py:147-150 | one token at the end |
| Sequences.Sequence.Finish | nanovllm/engine/sequence.py:152-154 | finished, with the reason |
| Sequences.Sequence.ResetCacheUsage | nanovllm/engine/sequence.py:156-158 | both usage counts are zero again |
| Schedulers.Scheduler.constructor | nanovllm/engine/scheduler.py:12-38 | starts valid and empty |
| Schedulers.Scheduler.Add | nanovllm/engine/scheduler.py:43-45 | exactly one sequence more, last in line |
| Schedulers.Scheduler.Abort | nanovllm/engine/scheduler.py:47-57 | found iff some queued sequence has the id; the first one, waiting ones before running ones, leaves, cancelled and without blocks; the others stay |
| Schedulers.Scheduler.Find | nanovllm/engine/scheduler.py:48-50 | the first sequence with the id, none iff there is none |
| Schedulers.Scheduler.Cancel | nanovllm/engine/scheduler.py:51-55 | the invariant survives the removal; the sequence is finished as cancelled and holds no block |
| Schedulers.Scheduler.PurgePrefixCache | nanovllm/engine/scheduler.py:72-75 | exactly the selected blocks, no sequence affected |
| Schedulers.Scheduler.Preempt | nanovllm/engine/scheduler.py:241-249 | the victim waits first in line, without blocks, with age 0, to be prefilled with all its tokens |
| Schedulers.Scheduler.Lookup | nanovllm/engine/scheduler.py:166 | a lookup keeps everything; no token or status changes |
| Schedulers.Scheduler.Room | nanovllm/engine/block_manager.py:380-385 | while all worst cases fit there is always room |
| Capacity.RoomForAnyone | nanovllm/engine/request_validation.py:22-27 | while the worst cases of all unfinished requests fit the pool, any of them can be given the blocks for every token it has |
| Schedulers.Scheduler.Prepare | nanovllm/engine/block_manager.py:446-449 | the chunk has blocks; fails iff frontier + unexpired cached prefix reaches its end |
| Schedulers.Scheduler.AdmitNext | nanovllm/engine/scheduler.py:165-178 | the head is refused iff its first chunk does not fit next to the reserve, and a further lookup would find nothing more; where a lookup finds nothing the state before the call decides; never refuses while all worst cases fit |
| Schedulers.Scheduler.AdmissionTargetMeans | nanovllm/engine/scheduler.py:167-170 | the chunk an admission must have room for: not empty, within the target, of at most max_prefill_chunk_tokens unless a single token, and short of the target only for that limit |
| Schedulers.Scheduler.ReserveMeans | nanovllm/engine/scheduler.py:127-128 | the watermark is kept back iff some running sequence is ready to decode |
| Schedulers.Scheduler.AdmitLoop | nanovllm/engine/scheduler.py:160-180 | first in, first out; it ends when nobody can be admitted: no seat, no one waiting, or no room for the head; if that was so before it changes nothing; running ones are untouched |
| Schedulers.Scheduler.AdmitWaiting | nanovllm/engine/scheduler.py:160-180 | reordering and admission together: in arrival order, or under the cache-aware policy in the order of the ranks, from the front; the admitted lose their age, nobody else; afterwards nobody can be admitted; ready work stays what it was |
| Schedulers.Scheduler.FirstChunkFits | nanovllm/engine/scheduler.py:166-208 | a sequence of which nothing is computed gets its first chunk wherever admission found room for it |
| Schedulers.Scheduler.Admit | nanovllm/engine/scheduler.py:175-178 | the head moves to the end of the running queue |
| Schedulers.Scheduler.TryPrefill | nanovllm/engine/scheduler.py:194-208 | no room iff the chunk up to min(target, frontier + budget) lacks more blocks than are to spare; the assertion of the repeated lookup fails iff there is room and frontier + unexpired cached prefix reaches that end; otherwise exactly that chunk is scheduled |
| Schedulers.Scheduler.PrefillLoop | nanovllm/engine/scheduler.py:184-209 | chunks are non-empty, of different sequences, backed by blocks, of at most the chunk budget each and within token and sequence limits; none is scheduled iff there is no candidate, seat or budget, or every candidate lacks more blocks than are to spare, and then at most cached content has gone |
| Schedulers.Scheduler.PrefillNext | nanovllm/engine/scheduler.py:189-208 | one candidate: passed over iff its chunk does not fit; the batch so far stays as it is |
| Schedulers.Scheduler.ChunkBudgetMeans | nanovllm/engine/scheduler.py:119-125 | with r running sequences ready to decode the chunk budget is the limit divided by min(r + 1, 8), rounded down, but at least min_prefill_chunk_tokens; with none it is the limit |
| Schedulers.Scheduler.FirstFits | nanovllm/engine/scheduler.py:199-208 | while all worst cases fit and nothing is kept back the first chunk fits |
| Schedulers.Scheduler.SchedulePrefill | nanovllm/engine/scheduler.py:182-209 | admission and chunks together, in arrival order, or under the cache-aware policy in the order of the ranks; an empty result means that nobody can be admitted and no chunk fits, then and after; where nobody could be admitted before, it is empty iff nothing fitted |
| Schedulers.Scheduler.PrefillAdmitted | nanovllm/engine/scheduler.py:184-209 | the same for the running sequences |
| Stalls.ColdLookup | nanovllm/engine/block_manager.py:387-429 | a lookup that finds nothing at most clears what expired |
| Stalls.LookedUp | nanovllm/engine/block_manager.py:387-429 | after a lookup another one finds nothing more |
| Schedulers.Scheduler.UnreadyKeeps | nanovllm/engine/scheduler.py:188 | the candidates are different running sequences still to be prefilled |
| Scheduling.WithoutVictim | nanovllm/engine/scheduler.py:234-239 | without the last victim the other candidates for preemption stay, in the same order |
| Scheduling.NextPreempted | nanovllm/engine/scheduler.py:218-223 | the next victim is the last running sequence that is neither scheduled nor the one that needs room |
| Schedulers.Scheduler.PreemptionVictim | nanovllm/engine/scheduler.py:234-239 | the last of the preemptible ones, none iff only scheduled ones are left |
| Schedulers.Scheduler.PreemptLast | nanovllm/engine/scheduler.py:223 | preempting it touches neither the batch so far nor the others |
| Schedulers.Scheduler.PreemptFor | nanovllm/engine/scheduler.py:241-249 | no scheduled sequence is preempted in the same pass |
| Schedulers.Scheduler.MakeRoom | nanovllm/engine/scheduler.py:218-223 | the loop ends; the victims are exactly a last stretch of the preemptible ones and wait in their old order in front; none while there is room; the one that needs room goes last of all; ages change by preemption only |
| Schedulers.Scheduler.MakeRoomNext | nanovllm/engine/scheduler.py:218-223 | one more victim, the last of those spared so far |
| Schedulers.Scheduler.AloneHasRoom | nanovllm/engine/scheduler.py:218-223 | a sequence left alone, with nothing held by waiting ones, can grow to any length the pool holds |
| Schedulers.Scheduler.GrowForDecode | nanovllm/engine/scheduler.py:226 | the next token is covered |
| Schedulers.Scheduler.TryDecode | nanovllm/engine/scheduler.py:216-227 | joins the batch with room for its token, or is preempted |
| Schedulers.Scheduler.DecodeLoop | nanovllm/engine/scheduler.py:211-227 | every ready sequence is scheduled unless the batch is full; nothing changes if nothing is ready; without a preemption no sequence loses a block and no block becomes idle; an empty batch without a preemption means nothing was touched |
| Schedulers.Scheduler.DecodeNext | nanovllm/engine/scheduler.py:213-227 | one running sequence of the pass: scheduled, preempted or passed over |
| Schedulers.Scheduler.NothingFitsMeans | nanovllm/engine/scheduler.py:188-208 | no chunk fits iff every running sequence still to be prefilled lacks more blocks for its chunk than are to spare, in whatever order they stand |
| Schedulers.Scheduler.ScheduleDecode | nanovllm/engine/scheduler.py:211-232 | safe and productive: scheduled ones have blocks and end up last in the queue, in order; at least one is scheduled if lengths fit the pool and waiting sequences hold nothing |
| Scheduling.MovedToEnd | nanovllm/engine/scheduler.py:228-231 | requeueing permutes the queue |
| Schedulers.Scheduler.Requeue | nanovllm/engine/scheduler.py:228-231 | the scheduled ones are the end of the queue, in batch order |
| Schedulers.Scheduler.AgeWaiting | nanovllm/engine/scheduler.py:103-105 | every id ages by its number of waiting sequences |
| Policies.SortKeeps | nanovllm/engine/scheduler.py:116 | sorting keeps exactly the ranks, and puts the starved before the others, then more cached tokens, higher age and the lower place first |
| Policies.SortRanks | nanovllm/engine/scheduler.py:110-117 | the order is a permutation of the places |
| Scheduling.AdmittedAges | nanovllm/engine/scheduler.py:103-105 | without a preemption exactly the ids of the sequences that went from waiting to running lose their age |
| Schedulers.Scheduler.RankWaiting | nanovllm/engine/scheduler.py:110-115 | ranks by starvation, cached tokens, age and place |
| Schedulers.Scheduler.ReorderWaiting | nanovllm/engine/scheduler.py:107-117 | cache-aware: a permutation in which those that waited 8 or more steps come first, then more cached tokens, then higher age, then the old place; otherwise unchanged |
| Policies.PrefersWork | nanovllm/engine/scheduler.py:86-101 | every policy prefers a kind of work that exists |
| Schedulers.Scheduler.SomethingToDo | nanovllm/engine/scheduler.py:86-101 | with anything unfinished, the preferred kind of work exists |
| Standstill.HalvesStuck | nanovllm/engine/scheduler.py:158 | two requests, each within the limits, can fill the pool when each is prefilled by two thirds: a state within the invariant, for any hash function and model, in which no block is left and each needs one |
| Standstill.FullIsStuck | nanovllm/engine/scheduler.py:130-158 | in such a state, with nobody waiting, the scheduler is stuck: its next call ends in the RuntimeError |
| Schedulers.Scheduler.Schedule | nanovllm/engine/scheduler.py:130-158 | the batch is within limits and backed by blocks. The policy is kept: with both kinds of work, alternate and cache-aware decode after a decode only if no prefill is possible and prefill after a prefill only if nothing can be decoded; prefill-first decodes only if there is nothing to prefill or no prefill is possible; decode-first prefills only if nothing can be decoded; fcfs decodes only if no running sequence is unready or no prefill is possible, and admits only if nothing can be decoded; of a decode that has preempted this is claimed where nobody could be admitted before the step, and then of the state before it. Every age grows by the number of waiting sequences of its id or begins anew, without a preemption only where one of them was admitted. While all worst cases fit: no RuntimeError, no preemption, no lost progress. After the RuntimeError nothing can decode, nobody can be admitted and no chunk fits, unless the decode pass preempted everything after the prefill had been tried; where nothing can decode and it is clear whether the head gets in, the RuntimeError comes iff that was so before the call, and the call changes nothing but cached content |
| Schedulers.Scheduler.Choose | nanovllm/engine/scheduler.py:132-158 | the same for the two attempts, in the order the policy prefers |
| Schedulers.Scheduler.PrefillStep | nanovllm/engine/scheduler.py:133-138 | a prefill attempt yields a batch under the capacity condition; without one nobody can be admitted and no chunk fits |
| Schedulers.Scheduler.DecodeStep | nanovllm/engine/scheduler.py:139-144 | a decode attempt without a batch means nothing can decode, and without a preemption that nothing was touched; without a preemption prefilling stays impossible if it was |
| Schedulers.Scheduler.Advance | nanovllm/engine/scheduler.py:254-276 | the frontier moves to what was computed, and every block that is to be cached then is, and no other block changes |
| Outcomes.Fated | nanovllm/engine/scheduler.py:258-288 | after the run only an unfinished prompt is not ready |
| Outcomes.EndsRight | nanovllm/engine/scheduler.py:260-295 | a request that ends has exactly what it generates alone, the reason that goes with that ending, and usage that adds up |
| Outcomes.RunProgress | nanovllm/engine/scheduler.py:254-276 | every settled sequence leaves less work |
| Outcomes.WhoseEvent | nanovllm/engine/scheduler.py:279-296 | every event reports some sequence of the batch |
| Outcomes.EventOf | nanovllm/engine/scheduler.py:279-296 | every sequence whose sample counts has its event; samples of unfinished prompts are thrown away |
| Outcomes.OneEventEach | nanovllm/engine/scheduler.py:253-296 | no two events of a step tell of the same sequence |
| Schedulers.Scheduler.GoOn | nanovllm/engine/scheduler.py:278-284 | one more token, still on track |
| Schedulers.Scheduler.End | nanovllm/engine/scheduler.py:260-295 | usage is read before the blocks are given back; exactly this sequence leaves; it ends with stop iff its last token is eos and eos counts, with length iff not and the limit is reached, with cache_warmed iff the limit is 0 |
| Schedulers.Scheduler.Retire | nanovllm/engine/scheduler.py:269-271 | releasing the blocks of one sequence and unqueueing it keeps the invariant for the others |
| Schedulers.Scheduler.PostprocessOne | nanovllm/engine/scheduler.py:253-296 | partial, one more token, or the end, with the right event and less work |
| Schedulers.Scheduler.Postprocess | nanovllm/engine/scheduler.py:251-297 | the whole batch, in order; everyone else stays |
| Packing.RowOf | nanovllm/engine/model_runner.py:185-200 | each row of a packed batch carries its token and position and writes to the slot its table says |
| Packing.NoPrefix | nanovllm/engine/model_runner.py:203-204 | as many keys as queries iff no sequence builds on computed positions, so tables are missing only when not needed |
| Packing.RunStep | nanovllm/engine/model_runner.py:197-200 | one row written, one more position held, none lost |
| ModelRunners.ModelRunner.PrepareBlockTables | nanovllm/engine/model_runner.py:162-167 | tables padded with -1 to one length |
| ModelRunners.ModelRunner.PreparePrefill | nanovllm/engine/model_runner.py:169-215 | ids, positions, offsets and slots are those of the chunks laid end to end |
| ModelRunners.ModelRunner.AddSlots | nanovllm/engine/model_runner.py:197-200 | one slot per position of the chunk |
| ModelRunners.ModelRunner.PrepareDecode | nanovllm/engine/model_runner.py:217-237 | one row per sequence: its last token at its last position |
| ModelRunners.ModelRunner.ReadTable | nanovllm/engine/model_runner.py:162-167 | reading through a padded table gives the entries at the slots |
| ModelRunners.ModelRunner.Attend | nanovllm/engine/model_runner.py:203-215 | with or without tables a row sees exactly its own sequence's entries |
| ModelRunners.ModelRunner.RunRow | nanovllm/engine/model_runner.py:247-252 | a row writes its own slot only and computes its own entry |
| ModelRunners.ModelRunner.RunSequence | nanovllm/engine/model_runner.py:247-252 | the rows of a sequence end with its own last row |
| ModelRunners.ModelRunner.RunModel | nanovllm/engine/model_runner.py:247-252 | all rows of the batch |
| ModelRunners.LastIndicesRight | nanovllm/engine/model_runner.py:281-298 | selecting by last_indices gives each sequence's own last row, whether or not the output layer has selected before |
| ModelRunners.ModelRunner.LastIndices | nanovllm/engine/model_runner.py:283-289 | last_indices[j] + 1 is where sequence j + 1 begins |
| ModelRunners.ModelRunner.LastLogits | nanovllm/engine/model_runner.py:281-298 | one row per sequence, its own last one; the row-count error cannot occur |
| ModelRunners.ModelRunner.Run | nanovllm/engine/model_runner.py:276-300 | each sequence is sampled from its own tokens; only the batch's slots are written |
| Batches.BatchRuns | nanovllm/engine/llm_engine.py:86-91 | any scheduled batch can be run |
| Batches.BatchSampled | nanovllm/engine/llm_engine.py:91-92 | after it everyone's memory is right and each sample is the model's choice |
| AsyncEngines.AsyncLLMEngine.constructor | nanovllm/engine/async_engine.py:53-111 | starts with balanced empty books |
| AsyncEngines.AsyncLLMEngine.Judge | nanovllm/engine/async_engine.py:464-577 | taken iff not failed, not draining, valid, of a new id and within all pending and single-request budgets; each refusal names a reason that applies |
| AsyncEngines.AsyncLLMEngine.Submit | nanovllm/engine/async_engine.py:452-596 | accepted iff so judged after expiry, with its own namespace or else that of its cache options and its own or else the default timeouts; then queued by priority; only what expired is counted, as timed out; nothing is cancelled, failed or counted twice |
| AsyncEngines.AsyncLLMEngine.TakeOn | nanovllm/engine/async_engine.py:578-596 | the new request is what was asked for, in its place in the queue |
| AsyncEngines.AsyncLLMEngine.Accept | nanovllm/engine/async_engine.py:592-594 | the books stay balanced with one request more |
| AsyncEngines.AsyncLLMEngine.EnqueuePending | nanovllm/engine/async_engine.py:598-606 | inserted in front of the first lower priority |
| AsyncRequests.FirstLower | nanovllm/engine/async_engine.py:602-605 | the first place with a lower priority |
| AsyncRequests.LastNotLower | nanovllm/engine/async_engine.py:599-601 | the shortcut at the end of the queue finds the same place as the search |
| AsyncRequests.InsertedOrdered | nanovllm/engine/async_engine.py:598-606 | pending stays sorted by priority, first-in-first-out among equals |
| AsyncRequests.RemovedOrdered | nanovllm/engine/async_engine.py:751 | taking one out keeps the order |
| AsyncRequests.AdmittedWithinCaps | nanovllm/engine/async_engine.py:340-361 | a request that is not empty and not cancelled may become active iff the active ones are within all caps with it: totals, and number and estimated tokens of the requests of every namespace |
| AsyncRequests.WaitingWithinCaps | nanovllm/engine/async_engine.py:499-551 | a request that is not empty may wait iff the pending ones are within their caps with it |
| AsyncRequests.OfMeaning | nanovllm/engine/async_engine.py:320-338 | the requests of a namespace are exactly those with that namespace, each as often as it is there |
| AsyncRequests.OfCount | nanovllm/engine/async_engine.py:334-338 | they are as many as there are places with such a request |
| AsyncRequests.NamespaceSums | nanovllm/engine/async_engine.py:327-338 | the counted number and the summed estimates of a namespace are number and sum over those requests |
| AsyncRequests.TokensAddUp | nanovllm/engine/async_engine.py:294-301 | the sums over requests add up request by request: prompt length, and prompt length plus max_tokens |
| AsyncRequests.BookSubmitted | nanovllm/engine/async_engine.py:592-594 | pending and pending_by_id agree after a submission |
| AsyncRequests.BookUnpended | nanovllm/engine/async_engine.py:723-726 | and after a removal |
| AsyncRequests.BookActivated | nanovllm/engine/async_engine.py:741 | ids in pending and active stay disjoint |
| AsyncRequests.BookDeactivated | nanovllm/engine/async_engine.py:773 | and when one leaves |
| AsyncEngines.AsyncLLMEngine.PutOrDrop | nanovllm/engine/async_engine.py:827-851 | delivered iff there is room or it is the stop item; otherwise the request leaves engine and books and its queue holds only the stop item |
| AsyncEngines.AsyncLLMEngine.Put | nanovllm/engine/async_engine.py:829-841 | appended, or, for the stop item in a full queue, instead of everything in it |
| AsyncEngines.AsyncLLMEngine.Drop | nanovllm/engine/async_engine.py:842-850 | a slow consumer leaves engine and books and finds only the stop item |
| AsyncEngines.AsyncLLMEngine.Conclude | nanovllm/engine/async_engine.py:784-825 | the last message reaches the client iff the queue has room for two items; with a full queue the request is counted as cancelled as well |
| AsyncEngines.AsyncLLMEngine.ConcludeLoose | nanovllm/engine/async_engine.py:784-825 | the books are off by exactly one for each such full queue, recorded in overcounted |
| AsyncEngines.AsyncLLMEngine.ExpirePending | nanovllm/engine/async_engine.py:755-763 | exactly those go whose time in the queue was over by now, each counted once as timed out and none as cancelled: the queue of a pending request is empty |
| AsyncEngines.AsyncLLMEngine.ExpireWaiting | nanovllm/engine/async_engine.py:758-763 | the same for one of them |
| AsyncEngines.AsyncLLMEngine.Unpend | nanovllm/engine/async_engine.py:761-762 | a request leaves pending and pending_by_id together |
| AsyncEngines.AsyncLLMEngine.ExpireActive | nanovllm/engine/async_engine.py:765-774 | exactly those go whose time was over by now, from the engine too; as cancelled are counted besides exactly those whose queue is full; the others keep their queues |
| AsyncEngines.AsyncLLMEngine.ExpireNext | nanovllm/engine/async_engine.py:767-774 | one request of a snapshot |
| AsyncEngines.AsyncLLMEngine.ExpireOne | nanovllm/engine/async_engine.py:767-774 | the same for one of them |
| AsyncEngines.AsyncLLMEngine.CountedTwice | nanovllm/engine/async_engine.py:842-850 | one active request, overdue with a full queue, is counted as timed out and as cancelled: the counters then add up to one more than was submitted |
| AsyncEngines.AsyncLLMEngine.AbortInEngine | nanovllm/engine/async_engine.py:771-772 | the request's sequence, if any, leaves the engine; all others stay |
| AsyncEngines.AsyncLLMEngine.FirstAdmissible | nanovllm/engine/async_engine.py:748-753 | none iff nothing pending may be admitted |
| AsyncEngines.AsyncLLMEngine.FirstAt | nanovllm/engine/async_engine.py:748-753 | it is the first in queue order |
| AsyncEngines.AsyncLLMEngine.DrainOne | nanovllm/engine/async_engine.py:717-741 | one round takes exactly the first pending request with which the active ones stay within all caps; it becomes active, with an empty queue, or fails; nothing is counted twice |
| AsyncEngines.AsyncLLMEngine.DrainPending | nanovllm/engine/async_engine.py:715-753 | stops only when with every pending request the active ones would exceed some cap; no request is lost, cancelled or counted twice; active ones keep their queues; each round reads the clock |
| AsyncEngines.AsyncLLMEngine.AdmitNext | nanovllm/engine/async_engine.py:723-741 | active, or failed if the engine refuses it, counted once |
| AsyncEngines.AsyncLLMEngine.Activate | nanovllm/engine/async_engine.py:731-741 | the engine gets exactly one sequence, which belongs to the request |
| AsyncEngines.AsyncLLMEngine.Abort | nanovllm/engine/async_engine.py:608-633 | found iff pending or active; then in neither, counted once |
| AsyncEngines.AsyncLLMEngine.CancelLoose | nanovllm/engine/async_engine.py:617-620 | counted as cancelled once; its stream ends |
| AsyncEngines.AsyncLLMEngine.Deliver | nanovllm/engine/async_engine.py:875-910 | goes to the request of that id only; finished iff the output is; dropped if nobody has the id; every other request stays as it is |
| AsyncEngines.AsyncLLMEngine.LastOutputArrives | nanovllm/engine/async_engine.py:829-841 | the client gets the last output iff its queue has room for two; with queues of length one never |
| AsyncEngines.AsyncLLMEngine.Receive | nanovllm/engine/async_engine.py:701-706 | a client takes the first item of its queue; everything stays in order |
| AsyncEngines.AsyncLLMEngine.DeliverTo | nanovllm/engine/async_engine.py:890-910 | room for one only: the stop item clears the queue and the last output is lost |
| AsyncEngines.AsyncLLMEngine.PutActive | nanovllm/engine/async_engine.py:890 | the output joins the queue, whose outputs are all true |
| AsyncEngines.AsyncLLMEngine.FinishActive | nanovllm/engine/async_engine.py:893-910 | finished once; it and nobody else leaves the active ones |
| AsyncEngines.AsyncLLMEngine.FinishLoose | nanovllm/engine/async_engine.py:893-909 | counted as finished once; its stream ends |
| AsyncEngines.AsyncLLMEngine.DropActive | nanovllm/engine/async_engine.py:842-850 | a slow consumer is cancelled and its sequence leaves the engine |
| AsyncEngines.AsyncLLMEngine.ToldTrue | nanovllm/engine/async_engine.py:875-879 | what the engine tells of a sequence is true for the active request it belongs to |
| AsyncEngines.AsyncLLMEngine.EngineStep | nanovllm/engine/async_engine.py:865 | outputs are true for their requests, at most one for each; what finished has left the engine; under the budgets no preemption and no RuntimeError |
| AsyncEngines.AsyncLLMEngine.DeliverAll | nanovllm/engine/async_engine.py:875-910 | every output is handed to the active request of its id, once; all others stay active with the queues they had; nobody is dropped while queues have room |
| AsyncEngines.AsyncLLMEngine.DeliverNext | nanovllm/engine/async_engine.py:876-910 | the same for one more output |
| AsyncEngines.AsyncLLMEngine.Fatal | nanovllm/engine/async_engine.py:912-924 | every pending and active request fails, once; as cancelled are counted besides exactly the active ones with a full queue; both queues are empty |
| AsyncEngines.AsyncLLMEngine.FailAll | nanovllm/engine/async_engine.py:917-921 | each is counted as failed once, and as cancelled besides iff its queue is full |
| AsyncEngines.LiveWorst | nanovllm/engine/async_engine.py:300-301 | worst-case blocks of the engine's sequences, in tokens, are at most the active estimates plus bs - 1 per request |
| AsyncEngines.AsyncLLMEngine.BudgetFits | nanovllm/engine/async_engine.py:340-361 | if max_active_tokens + max_active_requests * (bs - 1) <= blocks * bs, every worst case fits |
| AsyncEngines.AsyncLLMEngine.RunOnce | nanovllm/engine/async_engine.py:853-924 | one round refreshes and, unless the engine has nothing to do, makes one step and delivers it; it keeps submitted + overcounted = pending + active + finished + failed + timed out + cancelled; with unbounded queues, or bounded ones longer than one in which every active request has room for two, nothing is counted twice and nobody dropped, so that without earlier overcounts the counters add up exactly; under the active budgets it never preempts |
| AsyncEngines.AsyncLLMEngine.Refresh | nanovllm/engine/async_engine.py:857-860 | the first half: what has waited or taken too long leaves; then pending requests become active until with every one left the active ones would exceed some cap; who has expired meanwhile leaves, too |
| AsyncEngines.AsyncLLMEngine.ExpireBoth | nanovllm/engine/async_engine.py:857-858 | exactly those leave whose time in the queue or altogether is over |
| AsyncEngines.AsyncLLMEngine.StepAndDeliver | nanovllm/engine/async_engine.py:861-924 | the second half: one step; its outputs reach the requests of their ids and who has taken too long leaves, or its error fails every request |
| Softmax.ShiftedAttend | nanovllm/kernels/cuda_ext/attention.cu:98-113 | shifting by any maximum changes nothing |
| Softmax.AllMasked | nanovllm/kernels/cuda_ext/attention.cu:102 | no weight iff everything is masked |
| Softmax.NextTile | nanovllm/kernels/cuda_ext/attention.cu:211-222 | the running maximum and sum stay right over one more tile, masked ones included |
| Softmax.NextTileDot | nanovllm/kernels/cuda_ext/attention.cu:213-232 | so does the running weighted sum |
| Softmax.RunningAttend | nanovllm/kernels/cuda_ext/attention.cu:237-240 | the quotient is the softmax of everything seen |
| Attention.PlainIsAttend | nanovllm/kernels/cuda_ext/attention.cu:85-113 | the mask value stands for an invisible key |
| Attention.SameAttention | nanovllm/kernels/cuda_ext/attention.cu:69-117 | rows that see the same keys and values attend alike, wherever those are stored |
| Attention.DotProduct | nanovllm/kernels/cuda_ext/attention.cu:89-92 | the product loop |
| Attention.ScoreKeys | nanovllm/kernels/cuda_ext/attention.cu:84-97 | scores and their maximum |
| Attention.WeighKeys | nanovllm/kernels/cuda_ext/attention.cu:100-106 | weights in place, and their sum |
| Attention.WeightedMean | nanovllm/kernels/cuda_ext/attention.cu:109-113 | the mean of one component |
| Attention.AttendRow | nanovllm/kernels/cuda_ext/attention.cu:69-117 | two passes compute plain softmax attention of the row and write only its part |
| Attention.TileDot | nanovllm/kernels/cuda_ext/attention.cu:225-230 | the weighted sum of a tile |
| Attention.AddTile | nanovllm/kernels/cuda_ext/attention.cu:194-235 | one tile keeps the (m, l, acc) invariant |
| Attention.StreamRow | nanovllm/kernels/cuda_ext/attention.cu:192-240 | for every tile size the streamed row equals plain softmax attention |
| Kernels.GridIndex | nanovllm/kernels/cuda_ext/attention.cu:74-81 | a grid row and (batch, head, position) determine each other |
| Kernels.QueryRow | nanovllm/kernels/cuda_ext/attention.cu:126-128 | row (b * Hq + hq) * Tq + tq splits into b, hq and tq again |
| Kernels.SharedHead | nanovllm/kernels/cuda_ext/attention.cu:131 | key head hq / (Hq / Hkv) is the one whose group of neighbours hq belongs to |
| Kernels.GridRowIs | nanovllm/kernels/cuda_ext/attention.cu:126-145 | the grid row of query [b, hq, tq] reads that query, the keys and values of its shared head, and sees what it may |
| Kernels.DenseRowIs | nanovllm/kernels/cuda_ext/attention.cu:74-92 | the same for the dense kernel |
| Kernels.PagedRowIs | nanovllm/kernels/cuda_ext/attention.cu:249-270 | the same for the decode kernel |
| Kernels.RowHeads | nanovllm/kernels/cuda_ext/attention.cu:249-257 | row b * Hq + hq splits into b and hq again, with the key head whose group hq belongs to |
| Kernels.GridRowReadable | nanovllm/kernels/cuda_ext/attention.cu:126-145 | every grid row is the row of a query; its addresses are in range, and a causal row sees at least the first key when Tk >= Tq |
| Kernels.DenseMhaKernel | nanovllm/kernels/cuda_ext/attention.cu:69-117 | output [b, h, tq] is plain attention of query [b, h, tq] over the keys and values [b, h, t], of which a causal query sees those with t + Tq <= Tk + tq |
| Kernels.GqaMqaKernel | nanovllm/kernels/cuda_ext/attention.cu:119-168 | output [b, hq, tq] is plain attention of query [b, hq, tq] over the keys and values [b, hkv, t] of the key head with hkv * g <= hq < (hkv + 1) * g, g = Hq / Hkv, of which a causal query sees those with t + Tq <= Tk + tq; nothing is written if heads cannot be grouped |
| Kernels.StreamingGqaKernel | nanovllm/kernels/cuda_ext/attention.cu:170-241 | the same outputs for every tile size |
| Kernels.EqualHeadsAreDense | nanovllm/kernels/cuda_ext/attention.cu:119-168 | with Hkv = Hq grouped attention of all queries is dense attention of all queries |
| Kernels.PagedMax | nanovllm/kernels/cuda_ext/attention.cu:258-276 | maximum over the covered keys |
| Kernels.PagedSum | nanovllm/kernels/cuda_ext/attention.cu:277-295 | sum of recomputed weights |
| Kernels.MeanTerm | nanovllm/kernels/cuda_ext/attention.cu:309-316 | the share of one key, recomputed |
| Kernels.PagedMean | nanovllm/kernels/cuda_ext/attention.cu:297-318 | the mean of one component |
| Kernels.PagedRow | nanovllm/kernels/cuda_ext/attention.cu:249-319 | a row through the table is plain attention over the covered keys; 0 where nothing is covered |
| Kernels.PagedDecodeKernel | nanovllm/kernels/cuda_ext/attention.cu:243-320 | output [b, hq] is plain attention of query [b, hq] over the positions t of its context that its table covers, read at [table entry t / bs, t % bs, hkv] |
| Kernels.PagedIsContiguous | nanovllm/kernels/cuda_ext/attention.cu:243-320 | with a covering table and, position by position, the entries of contiguous tensors, that is single-query grouped attention over those tensors |
| PagedReads.ReadsWhereWritten | nanovllm/kernels/cuda_ext/attention.cu:260-269 | through the padded tables laid out flat, the kernel sees position t of a sequence and reads it in the slot its own block table names; for a position of the batch that is the slot to which the slot mapping sends its row |
| PagedReads.NothingPastTheTable | nanovllm/kernels/cuda_ext/attention.cu:262-267 | past its own table it sees nothing |
| TensorParallel.EvenChunk | nanovllm/layers/linear.py:102 | where the size divides, chunk r is the even shard r |
| TensorParallel.MergedColumnParallelLinear.constructor | nanovllm/layers/linear.py:88-95 | room for this rank's part of every projection in the list |
| TensorParallel.MergedColumnParallelLinear.WeightLoader | nanovllm/layers/linear.py:97-103 | this rank's shard at the sizes of all projections before it, divided by the number of ranks; every other projection's rows stay |
| TensorParallel.MergedColumnParallelLinear.Forward | nanovllm/layers/linear.py:82-83 | output i is the product of weight row i and the input, one for each row |
| TensorParallel.LoadMerged | nanovllm/layers/linear.py:97-103 | any number of projections, loaded in any order: each ends up with its own shard |
| TensorParallel.LoadGateUp | nanovllm/layers/linear.py:97-103 | in either order: gate shard, then up shard |
| TensorParallel.RowParallelLinear.constructor | nanovllm/layers/linear.py:145-159 | every output row, for this rank's columns |
| TensorParallel.RowParallelLinear.WeightLoader | nanovllm/layers/linear.py:163-168 | this rank's columns of every row |
| TensorParallel.RowParallelLinear.Partial | nanovllm/layers/linear.py:170-174 | this rank's addend, with the bias on rank 0 only |
| TensorParallel.RankMlp | nanovllm/layers/linear.py:170-174 | a rank's two layers compute its contribution to every output |
| TensorParallel.DotAddsUp | nanovllm/layers/linear.py:82-83 | the product of two vectors adds up the products of their components |
| TensorParallel.InnerShard | nanovllm/layers/linear.py:82-103 | merged shards through silu-and-mul are this rank's shard of the unsharded activation |
| TensorParallel.ReducedIsDot | nanovllm/layers/linear.py:170-174 | after k ranks the sum covers the first k shards, the bias once |
| TensorParallel.ShardedMlp | nanovllm/layers/linear.py:170-174 | for every number of ranks dividing the inner size, the summed ranks equal the unsharded MLP |
| TensorParallel.QKVParallelLinear.constructor | nanovllm/layers/linear.py:108-124 | room for this rank's heads |
| TensorParallel.QKVParallelLinear.WeightLoader | nanovllm/layers/linear.py:126-140 | this rank's heads of one projection; the others' rows stay |
| TensorParallel.LoadQkv | nanovllm/layers/linear.py:126-140 | in any order every projection ends up with its own shard; the parameter is query shard, then key shard, then value shard |
| TensorParallel.LocalHead | nanovllm/layers/linear.py:126-140 | local head j is, row for row, head rank * local + j of the model |
| TensorParallel.HeadPairing | nanovllm/layers/linear.py:116-123 | on every rank a query head is paired with the key head the unsharded model pairs it with |

## Left out

- Blocks are values in a sequence, not objects: aliasing of a block object is not modelled; the block manager's other fields are updated in place.
- Hit, miss, eviction and miss-reason counters, `duplicate_cache_blocks_skipped`, watermark-delay and step counters, latency and throughput metrics, logging and `num_tokens` of a step.
- Redundant fields `num_tokens` and `last_token`: they are the length and the last element of the token list.
- Engines.LLMEngine.Generate: has a step limit as a parameter, where the source loops without one; the limit is proved unreached under the capacity condition.
- Engines.LLMEngine.AddRequest: takes token ids; tokenizing text prompts and decoding output text are not modelled.
- ModelRunners.ModelRunner.RunModel: computes rows one after the other and all layers at once; CUDA graphs, warm-up, sequences without a block table, memory sizing, flash-attn and inter-process calls are not part of this model.
- Sampling is deterministic: temperature is an argument of the abstract model, randomness is not modelled.
- Hashes are unbounded naturals behind an abstract function: the 64-bit width is in the collision-freedom assumption.
- Schedulers.Scheduler.Schedule: when its RuntimeError comes is told from the state before the call only where nothing can decode and the head's admission is clear; otherwise from the state it leaves. Of a decode that preempts after a prefill was tried, that no prefill was possible is claimed only where nobody could be admitted before the call. Starvation-freedom of the cache-aware policy is not claimed, as the code does not guarantee it.
- The run that leads to the state of `Standstill.HalvesStuck` is not spelled out step by step.
- Engines.LLMEngine.Step: one reading of the clock serves all expiry checks of a step.
- AsyncEngines.AsyncLLMEngine.RunOnce: each half of a round is atomic; interleavings at the awaits inside are not modelled, and clients take items out of their queues (`Receive`) between rounds.
- `pending_by_id` and `active` are sequences of requests with different ids, in insertion order, instead of dictionaries.
- Kernels.StreamingGqaKernel: grid rows run one after the other; warp and block reductions are the sum and maximum they compute, and floating-point rounding is not modelled. The scale is a parameter.
- TensorParallel.MergedColumnParallelLinear.WeightLoader: without column biases, and each projection divides evenly among the ranks; vocabulary-parallel embedding and the plain column-parallel layer would only add easy members.
- TensorParallel.RowParallelLinear.Partial: the all-reduce is the sum over ranks in `Reduced`.
- HTTP endpoints, OpenAI protocol, command line, benchmarks and the Transformers compatibility engine.

# infer-lab, modelled and verified in Dafny

infer-lab is a small inference server for a transformer. This project models its
serving engine, its distributed primitives and its numerical fast paths, and proves
what they promise: that scheduling, paging, caching, chunking, batching, tiling and
sharding cannot be seen in a result.

## The engine

The engine is one state machine. Its state holds the waiting and the running queue,
the block pool with its reference counts and free list, the contents of the blocks,
the radix tree of cached prefixes, and the requests that have left. An event adds a
request, cancels one, or makes one step; a step plans, runs the plan, and retires
what has finished. `Serving.Run(cfg, m, events)` is the state after any history of
events from the empty engine, and None when the code would raise.

The model of a language model is abstract: a KV column is any function of the columns
before it and the token, and greedy sampling is any function of the columns and the
last token. `Decoding.Continue` is plain decoding of one prompt, alone, with no pool
and no scheduler. Everything else is what the code does: page arithmetic,
copy-on-write, in-step block reservation, newest-first preemption, LRU eviction of
unpinned leaves, the roll-back of an admission that gets no slice, the stall branch.
A forward pass reads whatever its blocks hold, stale cells included.

The same engine is written a second time as objects that are updated in place
(`BlockAllocator`, `PagedKVCache`, `SequenceKV`, `RadixNode` and `RadixCache`,
`Request`, `Scheduler`, `LLMEngine`). Each method is proved equal, step by step, to
the state machine's function of the old state, so the theorems about runs are
theorems about the objects. An engine is called progressive when it has chunked
prefill and preemption on, prefix caching off, and a token budget and a sequence
limit of at least 1; with prefix caching on or off it is called lively.

The invariant behind the theorems is `Safety.Safe`: references are conserved, the
blocks a request has not adopted are its own, adopted blocks lie on a path of the
tree, and every cell below a request's position is the one plain decoding computes.

Two promises do not hold of the code. For each there are runs that break it, and the
exact condition under which it is kept.

README.md:180-187 says that every optimisation is observationally equivalent to not
having it. With chunked prefill off and prefix caching on, the roll-back at
scheduler.py:269-275 gives the adopted blocks back and keeps the position; if the
cached blocks are then evicted, the next admission starts in the middle of the prompt
and reads cells that were never written for it. `StaleStart.WrongOutput` is a run of
ten events that ends in a wrong output, and `Equivalence.EquivalentExactlyWhen` is the
exact condition on the two flags. The theorems about runs are proved for every run in
which no admission with a cache hit is rolled back, which takes in every run under the
other three settings.

The contract at scheduler.py:282-288 says that the oldest sequence always advances. In
a progressive engine whose requests fit the pool it does
(`Drain.OldestAlwaysAdvances`). With the prefix cache on there are two ways to stand
still, and `StallRuns.PrefillStalls` and `StallRuns.DecodeStalls` reach them from the
empty engine with requests that all fit the pool, whatever the model. A request in its
prefill whose last block is full gets nothing when no more blocks are free than the
watermark: the branch at scheduler.py:294-305 asks that nothing runs, the one at
scheduler.py:307-316 that the prefill is done. A decoding request whose last block is
full gets nothing when each block of the pool is its own or held by requests that
wait, and a block adopted by the next in line's cache lookup counts as held:
preemption takes from running requests only, and eviction spares what a table refers
to.

`Advancing.OldestAdvancesExactlyWhen` says that in every reachable state of a lively
engine these two, and for a line in which nobody runs a pool with no block free above
the watermark, are exactly the states whose next step does not advance the oldest
request. `Advancing.EverAdvancesExactlyWhen` says from which states no number of
further steps advances it: the two stalls, and nobody running when the free and the
evictable blocks together do not exceed the watermark.

## The other parts

- What a call of schedule() plans and takes (`Thrift`, `Reuse`): it plans all the work
  it can, takes back no more memory than it needs, and makes full use of the prefix
  cache.
- Forward passes (`PlainForward`, `PagedForward`, `PrivateWrites`, `SharedWrites`,
  `Transformer`, `ChunkedPrefill`, `BatchWrites`, `SharedBatch`, `BatchedDecode`,
  `LayeredEngine`): the layer loops of the transformer over paged KV, for one chunk of
  one sequence and for one token of every sequence. They leave what the plain network
  over the whole sequence gives, and what the engine's token-by-token pass leaves, so
  the engine may use them; on shared blocks they fail when it fails.
- Attention (`Attention`): tiled online softmax against the plain formula, over
  reals, with any positive `exp` that turns sums into products.
- Ring all-reduce (`Ring`, `RingLaws`, `RingSums`, `RingNodes`): ranks that send and
  receive in any interleaving over FIFO links, for any number of ranks and any
  operation, and each rank's own program.
- Framing (`Framing`): length-prefixed messages over a byte stream in any fragments.
- Pipeline and tensor parallelism (`Pipeline`, `TensorParallel`).

## Model

| member | source | states |
|---|---|---|
| `Runs.OutputEquivalence` | src/infer_lab/engine/llm_engine.py:142-199 | for every configuration, model and history in which no cache hit is undone: at all times a request's output is a prefix of plain decoding of its prompt alone, and equals it once the request has finished |
| `Decoding.GreedyUntilOver` | src/infer_lab/engine/llm_engine.py:193-199 | plain decoding takes the greedy choice after all tokens before it, and ends at the first place where the limit is reached or an end token counts, not before and not after |
| `Outputs.OutputsOnlyGrow` | src/infer_lab/engine/request.py:163-175 | whatever events follow, a request is found under its id once, in a queue or in the history, as the same submission, and what it had generated is a prefix of what it has generated: preemption, roll-back, cancellation and retirement take nothing back |
| `Equivalence.EquivalentExactlyWhen` | README.md:180-187 | every run with the given flags raises nothing and is output-equivalent, if and only if chunked prefill is on or prefix caching is off |
| `StaleStart.WrongOutput` | src/infer_lab/engine/scheduler.py:262-280 | a run from the empty engine in which the prompt 7 8 9 finishes with output 2 where plain decoding gives 7: its admission was rolled back, its cached block evicted, and it was admitted again past position 0 |
| `SafetySchedule.SafeExactlyWhenClean` | src/infer_lab/engine/scheduler.py:269-275 | from a state that satisfies the invariant, schedule() leads to one that does if and only if the admission phase undoes no cache hit |
| `SafetySchedule.AdmittedGetsAChunk` | src/infer_lab/engine/scheduler.py:262-280 | with chunked prefill an admitted request always gets a slice, so the roll-back cannot be reached |
| `Runs.AllowedIsClean` | src/infer_lab/engine/scheduler.py:262-280 | under chunked prefill, or without a prefix cache, no run ever undoes a cache hit |
| `Runs.PlansNeverOverCommit` | src/infer_lab/engine/scheduler.py:208-324 | in every reachable state the plan names each request at most once, the blocks it will take are free, its tokens stay within the budget, the running requests within the limit, and its execution raises nothing |
| `SafetySchedule.ScheduleIsExecutable` | docs/adr/0006-scheduler-block-reservation.md:27 | from any state that satisfies the invariant the plan can be executed without running out of blocks, and the invariant is kept; when a hit was undone, some waiting request is left with a position and no blocks |
| `Runs.RunKeeps` | src/infer_lab/engine/llm_engine.py:142-191 | a run that undoes no cache hit never raises, and every state it reaches satisfies the invariant |
| `SafetyExec.PlanRuns` | src/infer_lab/engine/llm_engine.py:142-191 | an executable plan runs to its end with no exception, keeps the invariant, and advances exactly the planned requests |
| `SafetyFeed.PassResult` | src/infer_lab/engine/llm_engine.py:153-183 | a planned forward pass takes exactly the blocks it was planned to take, copies none, leaves the columns of the request's own tokens, and samples what plain decoding would |
| `Runs.ReferencesConserved` | src/infer_lab/kv/block_allocator.py:33-97 | in every reachable state a block's count is its occurrences in block tables plus one if the tree holds it; the free list has no repeats, is exactly the blocks with count 0, and completes the held blocks to the whole pool |
| `Runs.DrainedPool` | tests/test_kv_pressure.py:162-171 | when nothing is queued, free blocks plus cached blocks are the whole pool |
| `Runs.CacheIsCoherent` | src/infer_lab/kv/radix_cache.py:68-127 | in every reachable state a cached block holds exactly the KV of the last block of tokens on its root path |
| `Runs.ViewsAreCoherent` | src/infer_lab/kv/paged_cache.py:89-123 | in every reachable state what a request reads below its position is the KV of its own tokens, whether computed or adopted |
| `Runs.ReclaimIsExact` | src/infer_lab/engine/scheduler.py:137-165 | in every state that satisfies the invariant, which are the states the scheduler evicts in, evicting k frees exactly min(k, unpinned nodes) blocks, the least recently used ones, oldest first |
| `Safety.PinsAreClosed` | src/infer_lab/kv/radix_cache.py:130-161 | in every state that satisfies the invariant the ancestors of a pinned node are pinned |
| `Fairness.RunInOrder` | src/infer_lab/engine/scheduler.py:208-324 | with chunked prefill every reachable state keeps running ++ waiting in arrival order through all preemptions, and only the last running request may be mid-prefill |
| `Fairness.ScheduleInOrder` | src/infer_lab/engine/scheduler.py:208-324 | schedule() never reorders the line of requests, and every running request but the last finishes its prefill with the slices planned |
| `Fairness.VictimsAreNewest` | src/infer_lab/engine/scheduler.py:137-179 | in every reachable state, each call that makes room, for a decode or for the stalled head, preempts only from the end of the running list |
| `Fairness.ShortSliceBlocks` | src/infer_lab/engine/scheduler.py:339-365 | with chunked prefill a slice is missing or short of the prompt only when it leaves no budget or no memory for anybody after it |
| `SafetyPlan.LargestSlice` | src/infer_lab/engine/scheduler.py:339-365 | a slice is the largest number of tokens that prompt, budget and blocks allow, and there is none if and only if no number is allowed; without chunked prefill nothing is allowed unless the budget takes all that remains |
| `Thrift.PlanIsThorough` | src/infer_lab/engine/scheduler.py:208-280 | from any state that satisfies the invariant, a call that undoes no cache hit leaves nobody out who could be in: with the budget and the blocks the plan leaves, no unplanned running request could decode or have a slice, and the head of the queue could not be admitted or have one |
| `Thrift.RoomIsThrifty` | src/infer_lab/engine/scheduler.py:137-165 | room is made only when blocks are missing: exactly the missing cached blocks go, as far as nobody uses them; requests are preempted only while blocks are still missing after that; when it falls short nothing that may be taken is left |
| `Reuse.AttachAdoptsLongest` | src/infer_lab/engine/scheduler.py:187-199 | a request without KV adopts exactly the cached blocks of its prompt up to its last token, starts behind them, and changes in nothing else |
| `Reuse.FullBlocksFilled` | src/infer_lab/kv/paged_cache.py:121-123 | a request publishes every block it has filled, and no other |
| `Reuse.PublishesAll` | src/infer_lab/engine/scheduler.py:201-205 | before the cap is enforced, each block a finished request has filled is cached under all tokens up to its end |
| `Reuse.CapIsUsed` | src/infer_lab/kv/radix_cache.py:99-149 | enforcing the cap adds nothing and never takes the cache below it |
| `Reuse.StallTakesBack` | src/infer_lab/engine/scheduler.py:294-305 | with nothing running and nothing planned, exactly the blocks the head is short of are taken back, at least one, as far as nobody uses them; otherwise nothing happens |
| `Progress.HeadAdvances` | src/infer_lab/engine/scheduler.py:294-324 | in a progressive engine one step never preempts the oldest request: it still heads the running list with strictly more computed tokens, or it has finished |
| `Drain.OldestAlwaysAdvances` | src/infer_lab/engine/scheduler.py:307-316 | the same for the next step of every run of a progressive engine whose requests each fit the pool |
| `Progress.StepAdvances` | src/infer_lab/engine/llm_engine.py:142-191 | a step whose plan lets the oldest request go raises nothing, computes more of its tokens or finishes it, and keeps the line in order |
| `Advancing.OldestAdvancesExactlyWhen` | src/infer_lab/engine/scheduler.py:282-316 | in every reachable state of a lively engine, prefix cache on or off, the next step advances the oldest request if and only if it is not stuck: in its prefill at a full last block with no block free above the watermark; decoding at a full last block with the whole pool its own or held by waiting requests; or nobody running and no block free above the watermark |
| `Advancing.EverAdvancesExactlyWhen` | src/infer_lab/engine/scheduler.py:282-316 | some number of further steps advances the oldest request if and only if it is in neither stall and, when nobody runs, the free and evictable blocks after its cache lookup exceed the watermark |
| `Advancing.DoomedForEver` | src/infer_lab/engine/scheduler.py:282-316 | otherwise any number of further steps raises nothing, leaves the line as it is and the running head untouched |
| `Stalls.PrefillingHead` | src/infer_lab/engine/scheduler.py:234-316 | a head in its prefill is given a slice, or it is at a full block with no block free above the watermark and the plan is empty |
| `Stalls.DecodingHead` | src/infer_lab/engine/scheduler.py:208-316 | a decoding head is decoded, or everybody else has been preempted, every block it could use is held by those who wait, and the plan is empty |
| `Stalls.AllInUse` | src/infer_lab/kv/radix_cache.py:130-161 | nothing is free and nothing can be evicted if and only if every block of the pool is in a queued request's table |
| `StallRuns.PrefillStalls` | src/infer_lab/engine/scheduler.py:294-316 | a run of four events from the empty engine, two blocks, prompts 1 and 5 6, after which the second is in its prefill and no number of steps advances it, though a cached block could be evicted |
| `StallRuns.DecodeStalls` | src/infer_lab/engine/scheduler.py:307-337 | a run of five events from the empty engine, two blocks, prompts 1, 9 and 1 4, after which the second is decoding and no number of steps advances it: the third looked its prompt up, holds the cached block and waits |
| `Drain.Drains` | src/infer_lab/engine/llm_engine.py:237-251 | in a progressive engine whose requests each fit the pool, after any history, as many steps as the sum of prompt length + max_tokens - 1 over the accepted requests empty both queues |
| `Batch.LeftFinished` | src/infer_lab/engine/scheduler.py:368-373 | whoever has left the engine finished, unless that very request was cancelled |
| `Batch.Served` | src/infer_lab/engine/llm_engine.py:185-191 | whoever has left and was not itself cancelled got exactly plain decoding of the prompt it submitted |
| `Batch.EveryoneIsServed` | src/infer_lab/engine/llm_engine.py:237-251 | in such an engine, after that many steps, each accepted request that was not itself cancelled has left with plain decoding of its own prompt, whatever happened to the others |
| `Conservation.RequestsConserved` | src/infer_lab/engine/scheduler.py:104-116 | in every run the queues and the history together hold exactly the accepted submissions, each once, under consecutive ids |
| `SafetyRetire.CommitCapped` | src/infer_lab/kv/radix_cache.py:99-127 | after a finished request has published its blocks the cache is within its cap, or every leaf left in it is pinned |
| `Paging.WriteIsolated` | src/infer_lab/kv/paged_cache.py:58-101 | after a write the writer reads its old prefix followed by the new columns, nobody else's blocks have changed, shared or not, and every reference is still counted |
| `Paging.WritePrivate` | src/infer_lab/kv/paged_cache.py:47-86 | a write into unshared blocks succeeds when the blocks it needs are free, takes exactly those, and copies nothing |
| `SharedWrites.WriteExactly` | src/infer_lab/kv/paged_cache.py:47-86 | a write succeeds if and only if the blocks to add and the shared blocks to copy are free |
| `RadixLaws.MatchIsLongest` | src/infer_lab/kv/radix_cache.py:68-96 | a path of k full blocks short of the whole query is cached if and only if the match is at least k blocks deep, and the k-th block returned is that node's |
| `RadixLaws.MatchLeavesAToken` | src/infer_lab/kv/radix_cache.py:68-96 | a match always leaves at least one query token |
| `RadixLaws.MatchStamps` | src/infer_lab/kv/radix_cache.py:68-96 | a lookup makes the cached prefixes of its query the most recent of all, and touches no other node |
| `RadixLaws.InsertStamps` | src/infer_lab/kv/radix_cache.py:99-127 | an insertion makes the nodes on its path the most recent of all, and leaves the others' times |
| `RadixLaws.InsertFromNodes` | src/infer_lab/kv/radix_cache.py:99-127 | an insertion adds exactly the missing prefixes of its path, with the blocks given, and never replaces a block already cached |
| `RadixLaws.EvictExact` | src/infer_lab/kv/radix_cache.py:130-161 | with ancestor-closed pins, evicting k takes exactly min(k, unpinned) nodes in order of last access, and none that is fresher than one it leaves unpinned |
| `RadixLaws.EvictCounts` | src/infer_lab/kv/radix_cache.py:130-145 | each node evicted puts one block on the free list, and tree plus tables still account for every reference |
| `RadixLaws.EvictCapped` | src/infer_lab/kv/radix_cache.py:147-149 | eviction reaches its target or leaves every leaf pinned |
| `Blocks.PoolPartition` | src/infer_lab/kv/block_allocator.py:33-56 | when counts are right, free blocks plus distinct held blocks are the whole pool |
| `Blocks.NextBlocksAreFree` | src/infer_lab/kv/block_allocator.py:43-56 | the blocks handed out are pairwise different and were held by nobody |
| `Blocks.ReleaseCounts` | src/infer_lab/kv/block_allocator.py:65-78 | giving a block table back leaves exactly the other references counted, and frees what nobody else holds |
| `Allocation.HeldIsLive` | src/infer_lab/kv/block_allocator.py:75-78 | when references are conserved, giving back blocks that are held never hits the double-free error |
| `Allocation.BlockAllocator.Create` | src/infer_lab/kv/block_allocator.py:33-41 | a pool must have a block; a new one has all of them free, lowest id first |
| `Allocation.BlockAllocator.Allocate` | src/infer_lab/kv/block_allocator.py:43-50 | takes the top of the free list with count 1, or raises and changes nothing when there is none |
| `Allocation.BlockAllocator.AllocateMany` | src/infer_lab/kv/block_allocator.py:52-56 | all or nothing |
| `Allocation.BlockAllocator.FreeMany` | src/infer_lab/kv/block_allocator.py:75-78 | succeeds exactly when every reference is there, and otherwise has freed the blocks before the missing one |
| `Allocation.BlockAllocator.PrepareForWrite` | src/infer_lab/kv/block_allocator.py:84-97 | a shared block is exchanged for a free one and one reference is given up; an unshared one is returned as it is; copies plus free blocks stay constant |
| `SequenceViews.RunIsColumns` | src/infer_lab/kv/paged_cache.py:58-76 | writing a run of tokens block by block is writing them one by one |
| `SequenceViews.FlattenedView` | src/infer_lab/kv/paged_cache.py:89-101 | whole blocks laid end to end and cut at n are the first n logical positions |
| `SequenceViews.SequenceKV.EnsureCapacity` | src/infer_lab/kv/paged_cache.py:47-56 | grows the table by exactly the blocks needed, or raises and changes nothing |
| `SequenceViews.SequenceKV.WritableBlock` | src/infer_lab/kv/paged_cache.py:78-86 | the block to write, copied first when it is shared; free blocks pay for copies one by one |
| `SequenceViews.SequenceKV.Write` | src/infer_lab/kv/paged_cache.py:58-76 | leaves the memory, table and pool of the token-by-token write; beyond the capacity blocks, each block taken is one copy |
| `SequenceViews.SequenceKV.Gather` | src/infer_lab/kv/paged_cache.py:89-101 | returns the logical positions in order, up to the written length and never beyond the table |
| `SequenceViews.SequenceKV.AdoptPrefix` | src/infer_lab/kv/paged_cache.py:104-114 | one more reference on each block and the blocks into the table, with nothing copied, or an error and nothing changed |
| `SequenceViews.SequenceKV.Release` | src/infer_lab/kv/paged_cache.py:116-119 | gives back every block of the table, once each |
| `PrefixCache.VictimIs` | src/infer_lab/kv/radix_cache.py:151-161 | an unpinned leaf older than every other unpinned leaf is the one that is evicted: access times decide |
| `PrefixCache.RadixCache.Match` | src/infer_lab/kv/radix_cache.py:68-96 | walking the nodes returns the longest cached prefix and stamps exactly its nodes |
| `PrefixCache.RadixCache.Insert` | src/infer_lab/kv/radix_cache.py:99-127 | linking the new nodes and enforcing the cap leaves the tree of paths the map says, and returns how many nodes were new |
| `PrefixCache.RadixCache.LruEvictableLeaf` | src/infer_lab/kv/radix_cache.py:151-166 | the search over all nodes finds the least recently used leaf that only the cache holds, or there is none |
| `PrefixCache.RadixCache.Evict` | src/infer_lab/kv/radix_cache.py:130-145 | unlinking leaf after leaf removes exactly the victims, and returns how many |
| `PrefixCache.RadixCache.EvictTo` | src/infer_lab/kv/radix_cache.py:147-149 | eviction down to a target on the nodes is eviction on the map of paths |
| `RequestObject.Request.ResetForRecompute` | src/infer_lab/engine/request.py:163-175 | gives all KV back, forgets the position, and changes nothing of prompt and output, stated field by field |
| `SchedulerObject.Scheduler.Schedule` | src/infer_lab/engine/scheduler.py:208-324 | in a call that undoes no cache hit, under any flags, the four phases over lists and objects updated in place make the plan and reach the state of the state machine, and copy no block |
| `SchedulerObject.Scheduler.MakeRoom` | src/infer_lab/engine/scheduler.py:137-165 | cached blocks go before running requests, the newest unprotected request first |
| `SchedulerObject.Scheduler.Preempt` | src/infer_lab/engine/scheduler.py:167-179 | the victim gives up its blocks and its position, keeps all its tokens, and heads the waiting queue; the running list closes up |
| `SchedulerObject.Scheduler.Admit` | src/infer_lab/engine/scheduler.py:326-337 | the head is admitted if and only if, after its cache lookup, room for one more token is there; the lookup stays either way |
| `SchedulerObject.Scheduler.TryPrefixCache` | src/infer_lab/engine/scheduler.py:187-199 | a hit shares the matched blocks with the head of the queue and moves its position, and changes nothing else |
| `SchedulerObject.Scheduler.CommitPrefix` | src/infer_lab/engine/scheduler.py:201-205 | a finished request's full blocks are published under its tokens |
| `SchedulerObject.Scheduler.Retire` | src/infer_lab/engine/scheduler.py:368-373 | publishes, gives the blocks back and closes the gap in the running list |
| `SchedulerObject.Scheduler.Abort` | src/infer_lab/engine/scheduler.py:109-116 | finds a request in either queue, gives its blocks back and records it, and does nothing for an unknown id |
| `EngineObject.LLMEngine.AddRequest` | src/infer_lab/engine/llm_engine.py:92-127 | an empty, out-of-range or over-long request is refused and changes nothing; any other is queued under the next id |
| `EngineObject.LLMEngine.AbortRequest` | src/infer_lab/engine/llm_engine.py:129-135 | true exactly for a live request, which is then aborted and in no queue |
| `EngineObject.LLMEngine.Step` | src/infer_lab/engine/llm_engine.py:142-191 | an iteration that undoes no cache hit, under any flags, never raises, moves the objects as the state machine moves, and returns the requests it retired with their outputs |
| `EngineObject.AllowedStaysClean` | src/infer_lab/engine/scheduler.py:262-280 | with chunked prefill or without a prefix cache the engine object can step as often as one likes |
| `EngineObject.LLMEngine.Generate` | src/infer_lab/engine/llm_engine.py:237-251 | while no step undoes a cache hit, what it returns is plain decoding of every prompt, in the order given; it does return when every prompt is acceptable, the engine is progressive, all requests fit and the step limit exceeds the drain bound |
| `PlainForward.PassIsPlain` | src/infer_lab/model/numpy_model.py:126-146 | a token-by-token pass behind any columns computes the network layer by layer over the whole sequence: row p of layer l + 1 is layer l's row mixed with the p + 1 cells of rows 0 to p, and the token is read off the last row |
| `PlainForward.DecodingIsPlain` | src/infer_lab/model/numpy_model.py:126-146 | so the plain decoding of the theorems about runs is that network over the request's tokens, with no cache at all |
| `Transformer.ForwardPrefill` | src/infer_lab/model/numpy_model.py:114-146 | layer by layer, a chunk leaves all layers' cells and the last token of a token-by-token run over the same prefix, and nobody else's blocks change; in blocks of its own it cannot fail; where blocks are shared it succeeds if and only if the blocks to add and to copy are free; either way its store and table, or its failure, are those of that run; what it leaves is the plain network: each row mixed with the cells up to its own |
| `ChunkedPrefill.PrefillChunks` | src/infer_lab/model/numpy_model.py:114-146 | for any list of non-empty chunks, the chunks one after the other leave the very store, table and final token of the prompt fed in one piece, which are the plain network's |
| `BatchedDecode.ForwardDecodeBatch` | src/infer_lab/model/numpy_model.py:149-189 | one batched step leaves every sequence the view and the token it would get alone; when each writes into a block of its own and the blocks are free it cannot fail; where last blocks are shared it succeeds if and only if the free blocks pay for what the sequences add and copy in turn; either way it leaves the store and tables, or the failure, of the sequences fed in turn; each sequence gets the plain network's column and token |
| `BatchWrites.EachInfers` | src/infer_lab/model/numpy_model.py:149-189 | sequences fed in turn compute each its own column from its own old view: none reads what another has written |
| `BatchWrites.EachUpdate` | src/infer_lab/model/numpy_model.py:149-189 | when one sequence of the batch rewrites its position for the next layer, the result is as if it had written that column in its turn |
| `SharedBatch.DrawnExactly` | src/infer_lab/kv/paged_cache.py:47-86 | making room and copies for sequences in turn succeeds if and only if the free blocks pay for all of them, where a copy by one may leave the next sharer alone with its block |
| `SharedBatch.EachIsReady` | src/infer_lab/kv/paged_cache.py:58-86 | writes of sequences in turn are the same writes after all room and copies have been made first, and fail when those fail |
| `SharedBatch.InferEachIs` | src/infer_lab/model/numpy_model.py:149-189 | sequences that share blocks and are fed in turn still compute each from its own old view, and fail exactly when their writes do |
| `PrivateWrites.Overwrite` | src/infer_lab/model/numpy_model.py:114-146 | in unshared blocks, writing the same positions for the next layer forgets the first write, table and pool included |
| `LayeredEngine.RunLayered` | src/infer_lab/kv/paged_cache.py:58-76 | in every state of every run each position of the pool holds one cell per layer |
| `LayeredEngine.ChunkByLayers` | src/infer_lab/engine/llm_engine.py:153-165 | the layer loop on a planned chunk is the engine's prefill of it |
| `LayeredEngine.DecodesByBatch` | src/infer_lab/engine/llm_engine.py:168-183 | one batched pass over the planned decodes is the engine's run over them |
| `LayeredEngine.ExecuteByLayers` | src/infer_lab/engine/llm_engine.py:152-188 | an executable plan carried out by layer loops and one batched decode, and then retired, is the step the theorems about runs are about |
| `LayeredEngine.PlansRunByLayers` | src/infer_lab/engine/llm_engine.py:142-191 | in every reachable state the next plan can be carried out that way |
| `Attention.NaiveAttends` | src/infer_lab/kernels/numpy_kernels.py:61-76 | a row is the average of the values under weights that sum to 1, are positive exactly for the keys up to the query's own position, or for all without a mask, and stand in the ratio of exp of the scaled products of query and keys |
| `Attention.AttendsOnce` | src/infer_lab/kernels/numpy_kernels.py:61-76 | and it is the only such row |
| `Attention.FlashAttention` | src/infer_lab/kernels/numpy_kernels.py:79-127 | for all tile sizes, with or without a causal offset, tiled attention equals naive attention, and every query attends in that sense |
| `Attention.FlashHeads` | src/infer_lab/kernels/numpy_kernels.py:61-127 | the same for every head of a tensor with several heads |
| `Attention.UpdateStands` | src/infer_lab/kernels/numpy_kernels.py:104-122 | a tile's update keeps maximum, mass and accumulator standing for all keys seen so far |
| `Attention.MaskedTilesDropped` | src/infer_lab/kernels/numpy_kernels.py:79-127 | statistics over the keys up to where the loop stops already stand for all keys, since the rest are masked |
| `Attention.Finish` | src/infer_lab/kernels/numpy_kernels.py:61-76 | with one visible key the mass is positive, and accumulator over mass is the softmax-weighted sum |
| `RingLaws.AllRanksAgree` | src/infer_lab/distributed/ring_allreduce.py:118-160 | whatever the interleaving, the number of ranks and the operation, associative or not, every rank ends with the same tensor, each chunk folded in ring order |
| `RingLaws.NeverDeadlocks` | src/infer_lab/distributed/ring_allreduce.py:118-160 | some action is enabled in every unfinished state |
| `RingLaws.EveryRunEnds` | src/infer_lab/distributed/ring_allreduce.py:118-160 | no run is longer than 2(N-1) sends and as many receives per rank, and the runs of that length are exactly the finished ones |
| `RingLaws.QueuesAreBounded` | src/infer_lab/distributed/ring_allreduce.py:118-160 | no link ever holds more than N messages |
| `RingLaws.BytesPerRank` | src/infer_lab/distributed/ring_allreduce.py:128-154 | rank r sends two tensors less the chunks r+1 and r+2 |
| `RingLaws.BandwidthFormula` | src/infer_lab/distributed/ring_allreduce.py:1-22 | a rank sends exactly 2(N-1)/N of the tensor if and only if its two skipped chunks are of average size |
| `RingLaws.TotalTraffic` | src/infer_lab/distributed/ring_allreduce.py:128-154 | all ranks together send 2(N-1) tensors |
| `RingLaws.FinalCounters` | src/infer_lab/distributed/ring_allreduce.py:118-160 | at the end of any interleaving the sent and received counters of each rank hold those amounts |
| `RingSums.RingSumsTensors` | src/infer_lab/distributed/ring_allreduce.py:118-172 | in exact arithmetic every rank's concatenated result is the element-wise sum, for any tensor size and any interleaving |
| `RingSums.RingTraffic` | src/infer_lab/distributed/ring_allreduce.py:128-172 | such a run sends 2(N-1) times the tensor's bytes in all, and every rank sends exactly its share 2(N-1)/N of the tensor if and only if there are two ranks or N divides the element count |
| `RingSums.UnevenShare` | src/infer_lab/distributed/ring_allreduce.py:1-22 | with three ranks and four elements rank 2 sends 20 bytes, which is not 4/3 of 16 |
| `RingSums.SplitRoundTrip` | src/infer_lab/distributed/ring_allreduce.py:167-172 | splitting a tensor and concatenating the chunks gives the tensor back |
| `RingNodes.RingNode.Run` | src/infer_lab/distributed/ring_allreduce.py:118-160 | one rank's program, on any arriving messages, sends and keeps what a rank of the transition system does, and consumes 2(N-1) messages |
| `RingNodes.NodeReduces` | src/infer_lab/distributed/ring_allreduce.py:118-160 | so each rank's program ends with the reduced tensor |
| `RingNodes.LocalIsRank` | src/infer_lab/distributed/ring_allreduce.py:128-154 | a rank that receives what its neighbour should send, sends what it should send, step by step |
| `RingNodes.RunRing` | src/infer_lab/distributed/ring_allreduce.py:118-160 | an execution of all ranks, in any order the links allow, ends with every rank holding the reduced tensor, having sent two tensors less its two skipped chunks |
| `Framing.HeaderBytes` | src/infer_lab/distributed/ring_allreduce.py:32-45 | the four length bytes are the number's digits in base 256, the most significant first |
| `Framing.FramingRoundTrip` | src/infer_lab/distributed/ring_allreduce.py:43-66 | payloads shorter than 2^32 bytes come back from their frames, in order, with nothing of what follows consumed |
| `Framing.RecvAll` | src/infer_lab/distributed/ring_allreduce.py:47-66 | the same for repeated receives over a socket that returns any non-empty fragments |
| `Framing.RecvExact` | src/infer_lab/distributed/ring_allreduce.py:47-61 | returns the next n bytes however they arrive, or an error when the peer closes first |
| `Framing.SendMsg` | src/infer_lab/distributed/ring_allreduce.py:43-45 | puts one frame on the wire, or nothing when the length does not fit four bytes |
| `Pipeline.PipelineSchedule.Run` | src/infer_lab/distributed/pipeline_parallel.py:61-93 | no buffer is missing, each stage takes each micro-batch exactly once and in order, output i is all stages composed on input i, and the bubble measured afterwards is (p-1)/(m+p-1); a schedule may be run again |
| `Pipeline.SplitLayers` | src/infer_lab/distributed/pipeline_parallel.py:116-130 | the stages' layers laid end to end are all layers in order, each stage a contiguous range, no stage larger than one before it or smaller by more than one layer; more stages than layers is an error |
| `TensorParallel.AllReduce` | src/infer_lab/distributed/tensor_parallel.py:40-45 | the accumulated output is the element-wise sum of all partials |
| `TensorParallel.GatherWhole` | src/infer_lab/distributed/tensor_parallel.py:48-50 | a matrix cut into column slices and gathered is the matrix |
| `TensorParallel.UnitSelects` | src/infer_lab/distributed/tensor_parallel.py:62-63 | the product of a unit row selects that row of the matrix |
| `TensorParallel.Linear` | src/infer_lab/distributed/tensor_parallel.py:62-63 | the product is linear in the left factor |
| `TensorParallel.OnlyProduct` | src/infer_lab/distributed/tensor_parallel.py:62-63 | every linear map that takes the unit rows to the rows of the matrix is the product with it |
| `TensorParallel.Associative` | src/infer_lab/distributed/tensor_parallel.py:136-148 | two products one after the other are one product with the product of the matrices |
| `TensorParallel.ColumnParallelLinear.Forward` | src/infer_lab/distributed/tensor_parallel.py:53-72 | sharded by columns, the layer computes the whole product |
| `TensorParallel.RowParallelLinear.Forward` | src/infer_lab/distributed/tensor_parallel.py:75-100 | sharded by rows, the all-reduced partials are the whole product, and the bytes of the ring formula are recorded |
| `TensorParallel.ShardedEqualsReference` | src/infer_lab/distributed/tensor_parallel.py:136-148 | column-parallel then row-parallel is the unsharded composition, for every world size that divides the inner dimension |

## Left out

- Floating point, BLAS and stochastic sampling: arithmetic is over reals and sampling is greedy.
- Embedding, rotary positions, grouped KV heads, experts and the other row functions of the transformer: opaque functions of the row and its position.
- Statistics, metrics, logging, step history and finish reasons.
- Engine outputs: a step returns the records of the requests it retires; the partial outputs that are streamed in between are prefixes of those by `Runs.OutputEquivalence`.
- The prefill slices of a plan name start and length; their token ids are read when the chunk runs, and nothing changes them in between.
- Request ids are arrival numbers; ids chosen by the caller, and so duplicates, are not modelled.
- Aborts from another thread: an abort comes between two steps.
- `RadixCache.reset`, and the watermark as a fraction: it is an integer constant.
- Advancing.OldestAdvancesExactlyWhen: asks for chunked prefill, preemption, and a budget and a sequence limit of at least 1; without preemption nothing is taken back from running requests, and without a budget or a place nobody is admitted.
- Drain.Drains: asks for chunked prefill, preemption, no prefix cache, a budget and a sequence limit of at least 1, and requests that fit the pool less the watermark; for other settings the code promises no bound.
- SafetyRetire.CommitCapped: the cache may stay over its cap while every leaf is pinned, since blocks being published are still held by their request.
- Runs.PlansNeverOverCommit: with a token budget of 0 or less the head that breaks a stall still gets one token, so the bound is the larger of the budget and 1.
- SchedulerObject.Scheduler.Schedule: the scheduler and engine objects go through the calls that undo no cache hit, which with chunked prefill or without a prefix cache are all; what any other call leaves is said of the state machine, by `SafetySchedule.SafeExactlyWhenClean` and `StaleStart.WrongOutput`.
- EngineObject.LLMEngine.Step: the engine object decodes one sequence after another, and that the batched pass leaves the same is `LayeredEngine.ExecuteByLayers`.
- EngineObject.LLMEngine.Generate: as in the code it is an error to have used up the step limit, even when the last step drained the queues.
- Attention.FlashAttention: at least one key and a non-negative causal offset, which is what the model passes; a negative offset can mask a whole row, where the naive form is not a number and the tiled one gives 0.
- Attention.FlashHeads: heads run one after another instead of in one array operation.
- Transformer.ForwardPrefill: success is stated for blocks of its own, and on shared blocks for a table with no block past the positions written, as the engine's tables are; `BatchedDecode.ForwardDecodeBatch` likewise.
- Sockets, timeouts, threads and connection set-up of the ring; a link is an unbounded FIFO.
- Speculative decoding, the native and Triton kernels, quantisation, and the HTTP server with its clients: not modelled.
- Fleet placement, health monitoring, roofline formulas, regression tracking, tokenizer, command line and dashboards: formulas and plumbing.

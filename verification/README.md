# SwarmLoRA: a verified model

SwarmLoRA splits LLM inference between one aggregator, which runs the base-model matmuls of all tenants in shared
batches, and many workers, each with one LoRA adapter and one KV cache.  This project models the parts of it whose
correctness rests on orderings, bookkeeping and index arithmetic, and proves what they guarantee.

| files | what they model |
|---|---|
| `lock_step*.dfy` | the lock-step slot protocol: aggregator, workers, slot masks, epoch and command ring as a transition system; its invariant, theorems and progress measure |
| `linear.dfy`, `batched_exec.dfy`, `slot_buffers.dfy` | gather, matmul and scatter for mixed token counts, on values and on the buffers in place |
| `worker_slots.dfy`, `buffer_sizes.dfy` | the worker's side of the slot buffers; buffer and staging sizes |
| `split_lora.dfy`, `fused_lora.dfy`, `in_place_lora.dfy`, `hot_swap.dfy` | fused weights, block-diagonal LoRA, updates in place, adapter swap |
| `paged_cache.dfy`, `decoder.dfy`, `serving.dfy`, `chunked_engine.dfy` | the paged KV cache and the engine, against naive generation |
| `shared_run.dfy`, `served_run.dfy` | a worker's program in a shared run of the protocol, and decoding as such a program |
| `slot_pool.dfy` | claims, releases and the cleanup after a disconnect as interleaved atomic accesses |
| `worker_pool.dfy`, `rebalance.dfy`, `placement.dfy`, `pruned_batch.dfy` | the controller's accounting and the baseline planners |
| `base64.dfy`, `wire.dfy`, `framing.dfy` | the wire codec |
| `arithmetic.dfy`, `wrappers.dfy` | shared definitions |

Conventions.  Tensors are matrices of exact real numbers; a buffer cell holds one number.  The lm_head is greedy.  The
protocol models (`LockStep`, `SlotPool`) are transition systems in which one step is one atomic access, so a theorem
about reachable states or runs is one about every interleaving.  `LockStep` covers fault-free runs: no timeout, no
eviction, no crash.  A leave that the aggregator notices while it waits for an op is part of them: a worker may set its
leave bit just after the aggregator has taken the leaves of a token, and without that branch the token could not
proceed.  Its configuration asks for a ring capacity above the number of slots, worker ids up to 100000 (the limit the
lm_head checks) and buffers for a full chunk, which `BufferSizes` derives from how the pool is sized.  Workers claim the
lowest free slot; each holds at most one, as `src/config.py:46` sets.

The main result joins the protocol with generation: in every run, whoever joins, leaves and shares the batches, a worker's
tokens are the naive ones of its own prompt under its own adapter (`ServedRun.ServedInSharedRun`).  It rests on a theorem
for arbitrary programs between the ops (`SharedRun.SharedIsSolo`), and `ChunkedEngine` refines the same generation over
the paged cache.

Where code and documentation differ, the code is modelled.  Some promises hold only under a condition.  Each condition is
proved to be exact, and a concrete case shows the failure:

- a swap in place equals a rebuild if the layer has exactly the new adapter's groups at its rank
  (`HotSwap.InPlaceIsRebuild`, `HotSwap.UpdateFits`; `HotSwap.StaleModuleSurvives`, `HotSwap.ReturningModule`);
- a slot is mapped by its owner only, unless a worker loses its connection and lives on with the slot mapped
  (`SlotPool.MappedByOwnerExactly`; `SlotPool.LostConnectionSharesSlot`);
- a node keeps to its swap limit if no other donor could give to the receiver that reached it
  (`Rebalance.Planner.Pair`; `Rebalance.ThreeSwaps`);
- a message tree comes back if no dictionary looks like the byte marker (`Wire.TreeRoundTrip`;
  `Wire.MarkerComesBackAsBytes`).

Two more are exact conditions that the system always meets: slot buffers suffice if a row is at least as large as a token
id (`BufferSizes.BuffersAlwaysFit`; `BufferSizes.TinyRowsTooSmall`), and the engine agrees with naive generation for
positive budgets or chunked prompts (`Serving.ServedIsNaive`; `Serving.ZeroBudgetYieldsToken`), which the HTTP front
ensures (`Serving.FrontServesNaive`).

## Model

| member | source | states |
|---|---|---|
| `LockStepTheorems.Alignment` | src/cpp_extensions/ext_aggregator.cpp:1095-1170 | Whenever the aggregator has fetched the commands of op index k there is exactly one per active slot, each submitted by the slot's owner, and all carry the k-th (op, layer) of the token; so looking at `commands[0]` only is sound. Every interleaving, any number of workers joining and leaving. |
| `LockStepTheorems.CoTenancyInvisible` | src/cpp_extensions/ext_aggregator.cpp:1046-1202 | When a worker's wait for the epoch is over, its output buffer starts with the result of its own rows run alone through the single-slot path, whoever shared the batch. |
| `LockStepTheorems.ReadGetsOwnResult` | src/worker/worker_sync.py:231-421 | The read after the wait is always possible and returns exactly the worker's own result. |
| `LockStepTheorems.NoEarlyWake` | src/cpp_extensions/ext_ipc_queue.cpp:257-300 | A waiting worker's epoch is at most one behind; the epoch has passed it if and only if its command has left the ring and was executed. |
| `LockStepTheorems.ReadyIsCurrent` | src/cpp_extensions/ext_aggregator.cpp:981-987 | A set ready bit always stands for the op the aggregator is gathering or running, never for a later one. |
| `LockStepTheorems.NoLostSignal` | src/cpp_extensions/ext_aggregator.cpp:981-987 | The bits cleared before the epoch bump are exactly those of the active slots, whose commands have all been executed. |
| `LockStepTheorems.NoWriterInBarrier` | src/cpp_extensions/ext_ipc_queue.cpp:339-401 | From the moment all active slots are ready until the epoch is bumped no worker is between starting an op and signalling it. |
| `LockStepTheorems.RingNeverFull` | src/cpp_extensions/ext_ipc_queue.cpp:372-401 | A worker about to submit never finds the ring full, given a capacity above the number of slots. |
| `LockStepTheorems.ConsumedInOrder` | src/cpp_extensions/ext_aggregator.cpp:1129-1160 | Commands are consumed once each in reservation order; the entry at the tail is marked, is its reserver's command and belongs to an active slot, so none is discarded. |
| `LockStepTheorems.FetchedNotOverwritten` | src/cpp_extensions/ext_aggregator.cpp:1129-1160 | Fetched entries keep their command until the epoch bump although the tail has been published. |
| `LockStepTheorems.MarkedInsideWindow` | src/cpp_extensions/ext_ipc_queue.cpp:372-401 | An entry marked ready lies between the consumed and the reserved positions. |
| `LockStepTheorems.ExecutorNeverThrows` | src/cpp_extensions/ext_aggregator.cpp:470-625 | When the aggregator executes, every ownership, range and shape check passes and no raw view leaves a slot's buffers. |
| `LockStepTheorems.MidLeaveAtTokenStart` | src/cpp_extensions/ext_aggregator.cpp:911-932 | A leave noticed while waiting can only concern the first op of a token, and the leaving slot has nothing in the ring. |
| `LockStepTheorems.SlotsAreExclusive` | src/cpp_extensions/ext_aggregator.cpp:190-293 | Two workers never hold one slot; a released slot is in no mask and its buffers are zero. |
| `LockStepSafety.KeepStep` | src/cpp_extensions/ext_aggregator.cpp:1046-1202 | Every step of the aggregator or of a worker keeps the invariant (leaves before joins, command before ready bit, ready bits before epoch, inactive before release). |
| `LockStepSafety.ReachableInv` | src/cpp_extensions/ext_aggregator.cpp:1046-1202 | The invariant holds in every reachable state. |
| `LockStepSafety.RoomToReserve` | src/cpp_extensions/ext_ipc_queue.cpp:372-401 | In-flight workers hold pairwise different slots, so their reservations leave room for one more. |
| `LockStepSafety.PendingAreActive` | src/cpp_extensions/ext_aggregator.cpp:879-978 | When every active slot is ready, pending ring positions and active slots correspond one to one. |
| `LockStepSafety.BatchCommand` | src/cpp_extensions/ext_aggregator.cpp:1095-1170 | The i-th fetched entry still shows the i-th reserver's command for the current op; it is accepted and its rows are those the worker wrote. |
| `LockStepSafety.KeepMidLeave` | src/cpp_extensions/ext_aggregator.cpp:911-932 | Taking a leave in the middle of the wait keeps the invariant. |
| `LockStepSafety.KeepTakeLeaves` | src/cpp_extensions/ext_aggregator.cpp:1051-1062 | Taking the leaves of finished tokens keeps the invariant. |
| `LockStepSafety.KeepTakeJoins` | src/cpp_extensions/ext_aggregator.cpp:1064-1080 | Taking the joins after the leaves keeps the invariant. |
| `LockStepProgress.NeverStuck` | src/cpp_extensions/ext_aggregator.cpp:879-978 | In every reachable state the aggregator, or a worker that holds an active slot, can move. |
| `LockStepProgress.StepDecreases` | src/cpp_extensions/ext_aggregator.cpp:1086-1202 | Every step taken inside a token decreases one lexicographic measure (ops left, active slots, barrier phase, entries to fetch, worker steps) or reaches the token boundary. |
| `LockStepProgress.TokenEnds` | src/cpp_extensions/ext_aggregator.cpp:1086-1202 | In every infinite run, under any scheduler and without fairness, each started token reaches its boundary. |
| `LockStepProgress.BoundaryEntered` | src/cpp_extensions/ext_aggregator.cpp:1086-1202 | The boundary is entered only by finishing the last op or by the last active slot leaving. |
| `BatchedExec.BatchIsSolo` | src/cpp_extensions/ext_aggregator.cpp:527-625 | Gathering the rows of all slots, one matmul and scattering at running offsets gives each slot what its rows give alone, for mixed token counts and every op. |
| `BatchedExec.GatherSlice` | src/cpp_extensions/ext_aggregator.cpp:543-551 | The gathered rows are the slots' rows in order, and none is lost. |
| `BatchedExec.ResultsAreSolo` | src/cpp_extensions/ext_aggregator.cpp:490-625 | The batched and the single-slot path agree cell by cell, including the last row taken by lm_head. |
| `BatchedExec.ExecutedSlots` | src/cpp_extensions/ext_aggregator.cpp:490-625 | After one barrier every served slot starts with its own result, all other cells and slots are untouched. |
| `BatchedExec.ExecutedServed` | src/cpp_extensions/ext_aggregator.cpp:490-862 | After one barrier, per op and served row r: cell j of a linear op is x·W[j] plus the bias if there is one, embed gives the table row of the clamped token id, and lm_head the least index with a largest logit for the last row. |
| `BatchedExec.AcceptedExactly` | src/cpp_extensions/ext_aggregator.cpp:470-541 | The checks one by one, with the shape limits of the direct and the batched path, the layer range and the sampler's worker id. |
| `BatchedExec.ArgMax` | src/cpp_extensions/ext_aggregator.cpp:826-862 | Greedy selection: the first index of a largest logit. |
| `SlotBuffers.Buffers.Validate` | src/cpp_extensions/ext_aggregator.cpp:529-541 | The checks pass if and only if every command names an existing slot of its own worker with an accepted shape. |
| `SlotBuffers.Buffers.GatherViews` | src/cpp_extensions/ext_aggregator.cpp:543-551 | The views read from the slot buffers are the specified inputs. |
| `SlotBuffers.Buffers.Scatter` | src/cpp_extensions/ext_aggregator.cpp:562-570 | Copying the shared result out at a running offset leaves the specified buffers. |
| `SlotBuffers.Buffers.WriteResults` | src/cpp_extensions/ext_aggregator.cpp:490-625 | One command goes the direct path, several go through gather, matmul and scatter; either way every served slot holds, cell by cell, the embedding rows, the dot products with the op's weights plus the bias, or the greedy token of its last row. |
| `SlotBuffers.Buffers.ExecuteBatched` | src/cpp_extensions/ext_aggregator.cpp:470-875 | An op either throws and writes nothing, exactly when a check fails, or leaves in every served slot what the op makes of the slot's own rows, in numbers, and everything else as it was. |
| `WorkerSlots.Manager.Open` | src/cpp_extensions/ext_unified_barrier.cpp:97-160 | Opening takes a closed entry, and fails exactly when all are owned: the search for a free entry never fails on its own. |
| `WorkerSlots.Manager.Close` | src/cpp_extensions/ext_unified_barrier.cpp:163-211 | Closing clears the first open entry of the slot and fails if there is none. |
| `WorkerSlots.Manager.PrepareInput` | src/cpp_extensions/ext_unified_barrier.cpp:225-273 | The rows are copied to the start of the input buffer and their shape is remembered, unless they do not fit. |
| `WorkerSlots.Manager.GetOutputs` | src/cpp_extensions/ext_unified_barrier.cpp:276-347 | As many rows as the last prepared input had come back, split on the last dimension, unless they exceed the buffer. |
| `WorkerSlots.SplitOfOwnResult` | src/cpp_extensions/ext_unified_barrier.cpp:309-328 | After a barrier part j of row r is x·Wjᵀ for the r-th prepared row, whatever else lies in the buffer. |
| `WorkerSlots.SplitOfGateUp` | src/cpp_extensions/ext_unified_barrier.cpp:309-328 | After a gate/up barrier the two parts of row r are x times the gate rows and x times the up rows of the fused weights. |
| `SplitLora.FusedBase` | src/cpp_extensions/ext_aggregator.cpp:366-370 | Splitting the product with concatenated weights gives every projection's own product. |
| `SplitLora.FusedDelta` | src/worker/model_builder.py:258-262 | The split block-diagonal delta is each module's own sᵢ·(x·Aᵢᵀ)·Bᵢᵀ, zero for a missing module. |
| `SplitLora.SplitLayerIsReference` | src/worker/worker_sync.py:270-285 | Fused base, split and fused delta together give x·Wᵢᵀ + sᵢ·(x·Aᵢᵀ)·Bᵢᵀ for every projection i, given one common rank. |
| `FusedLora.FusedAOfOk` | src/worker/model_builder.py:231-245 | The concatenated A columns are the scaled columns of each module, zero where it is missing. |
| `FusedLora.FusedBOfOk` | src/worker/model_builder.py:247-255 | Blocks copied over zeros give the block-diagonal matrix. |
| `FusedLora.ConcatA` | src/worker/model_builder.py:231-245 | The loop that appends the A columns computes the specified tensor. |
| `FusedLora.FillB` | src/worker/model_builder.py:247-255 | The loop that copies the B blocks computes the specified tensor. |
| `FusedLora.BuildTensors` | src/worker/model_builder.py:220-256 | Construction yields the specified fused tensors. |
| `FusedLora.ForwardSplit` | src/worker/model_builder.py:258-262 | The forward pass gives every projection its own delta, and none if the group has no module. |
| `InPlaceLora.UpdateFusedLora` | src/worker/adapter_manager.py:143-191 | The two loops, with the new scaling, the width of the old fused_A and the rank of the first module, leave the specified tensors; a copy that does not fit ends the update. |
| `InPlaceLora.NewTensorsAreBuilt` | src/worker/adapter_manager.py:165-191 | The tensors computed in place, by transposing, scaling, concatenating and pasting, are those that the constructor builds for the same modules. |
| `InPlaceLora.FusedUpdateExactly` | src/worker/adapter_manager.py:143-191 | Against a fused module of another rank the update fails and writes nothing; at equal rank it leaves what the constructor builds. |
| `InPlaceLora.SingleUpdateExactly` | src/worker/adapter_manager.py:193-202 | A module of its own becomes the new one at equal rank; at another rank the update fails and writes nothing, unless the new rank is one, to which the copy stretches. |
| `InPlaceLora.StretchedModule` | src/worker/adapter_manager.py:193-202 | A module of rank one copied over one of rank q adds q times its own delta. |
| `HotSwap.UpdateFits` | src/worker/adapter_manager.py:108-202 | For any state a layer can be in, the in-place update goes through if and only if every tensor it copies to has the new rank, or is a single module and the new rank is one. |
| `HotSwap.InPlaceIsRebuild` | src/worker/adapter_manager.py:108-202 | For any state a layer can be in, the in-place update equals a fresh build if and only if the layer has exactly the adapter's groups, at the adapter's rank. |
| `HotSwap.SwapBackRestores` | src/worker/adapter_manager.py:108-202 | Between adapters of equal rank and coverage both in-place updates go through, the first gives a fresh build of the other adapter, and the second restores every tensor. |
| `HotSwap.StaleModuleSurvives` | src/worker/adapter_manager.py:196-197 | A concrete swap after which the old module's delta is still added, because the early return keeps it. |
| `HotSwap.RecreateIsRebuild` | src/worker/adapter_manager.py:225-281 | Across ranks the fused groups are those of a fresh build; a single module computes what a fresh build would unless only the new adapter has it. |
| `HotSwap.ReturningModule` | src/worker/adapter_manager.py:204-281 | A single module that a rank-changing swap left zeroed keeps its old rank q: when a later adapter of the current rank brings it back the swap fails, and at rank one it goes through and adds q times the right delta. |
| `HotSwap.ZeroedAddsNothing` | src/worker/adapter_manager.py:204-223 | A zeroed module adds nothing. |
| `HotSwap.FreshAdds` | src/worker/model_builder.py:356-375 | A fresh layer adds to q, k, v, gate and up, at their own columns of the fused delta, and to o and down (alpha/r)·(x·Aᵀ)·Bᵀ with the adapter's own tensors for that projection, and nothing where it has none. |
| `HotSwap.UpdatedAdds` | src/worker/adapter_manager.py:108-202 | After an in-place update of a layer that has the adapter's shape the same holds. |
| `HotSwap.RecreateAdds` | src/worker/adapter_manager.py:225-281 | After a rank change the same holds for the fused groups, and for the single modules that both sides have; single modules are there exactly when they were there before. |
| `HotSwap.AdapterManager.UpdateLayers` | src/worker/adapter_manager.py:108-141 | Layer after layer; a copy that does not fit ends the swap, with the layers before updated, that layer updated in part and the later ones untouched. |
| `HotSwap.AdapterManager.RecreateLayers` | src/worker/adapter_manager.py:225-281 | Every layer is recreated, and all fused groups have the new rank. |
| `HotSwap.AdapterManager.Swap` | src/worker/adapter_manager.py:47-106 | A failed load changes nothing; a rank change always succeeds; an in-place swap succeeds if and only if every layer fits, and a failed one keeps the layers written so far and the old rank. After a success every layer of the adapter's shape, and every fused group after a rank change, adds to each projection the delta of that projection's own A and B. |
| `HotSwap.AdapterManager.SwapThereAndBack` | src/worker/adapter_manager.py:47-106 | Two swaps between adapters of one rank and coverage succeed and leave the model as it was. |
| `PagedCache.Regrouped` | src/worker/paged_attention.py:57-68 | Moving blocks from the free stack to a slot's table keeps the partition: every block id once, none lost, no two slots share one. |
| `PagedCache.Returned` | src/worker/paged_attention.py:77-89 | Pushing a slot's blocks back keeps the partition. |
| `PagedCache.PagedKVCache.AllocateBlocks` | src/worker/paged_attention.py:57-68 | Fails exactly when too few blocks are free and then changes nothing; otherwise pops them from the top and appends them to the slot's table. |
| `PagedCache.PagedKVCache.EnsureBlocks` | src/worker/paged_attention.py:70-75 | Afterwards the table reaches the needed length; what any slot had cached is unchanged. |
| `PagedCache.PagedKVCache.FreeSlot` | src/worker/paged_attention.py:77-89 | The slot's blocks read zero and are free again, every other block is unchanged; free blocks always read zero. |
| `PagedCache.PagedKVCache.NeverExhausted` | src/worker/paged_attention.py:25-28 | With fewer than max_slots other slots within their length caps, allocation up to the cap never fails. |
| `PagedCache.PagedKVCache.CellsDistinct` | src/worker/paged_attention.py:91-105 | Two token positions never share a cell, within a slot or across slots. |
| `PagedCache.NextPosition` | src/worker/paged_attention.py:91-105 | Positions fill a block from its start and then go on with the next block of the table. |
| `Arithmetic.CeilDivLeast` | src/worker/paged_attention.py:70-75 | The number of blocks asked for is the least that holds the tokens. |
| `PagedCache.PagedKVCache.Store` | src/worker/worker_sync.py:196-203 | A write through the block table changes that position of that slot and layer only. |
| `PagedCache.PagedKVCache.Advance` | src/worker/paged_attention.py:125-128 | Sequence lengths grow by the number of rows. |
| `Decoder.HiddenOfPrefix` | src/worker/worker_sync.py:1295-1425 | Causality of the reference: later tokens never change the hidden state of an earlier position. |
| `Decoder.NaiveExactly` | src/worker/worker_sync.py:1106-1127 | Naive generation is the one text in which every token is the next token of the whole prefix before it, without the EOS token before the end, and ended by the EOS token itself or the budget; without an EOS token, by the budget only. |
| `Decoder.SplitJoins` | src/worker/worker_sync.py:1022-1029 | Splitting a prompt into chunks loses and reorders nothing; every chunk but the last has exactly the chunk size, and the last is not empty. |
| `Decoder.Truncated` | src/worker/worker_sync.py:1012-1015 | A prompt of MAX_SEQ_LEN tokens or more keeps exactly its last MAX_SEQ_LEN - 1, a shorter one is unchanged. |
| `Decoder.Capped` | src/worker/worker_sync.py:1017-1020 | A budget within what the cache can hold is unchanged, a larger one becomes just that. |
| `ChunkedEngine.Engine.WriteRows` | src/worker/worker_sync.py:196-203 | The new keys and values land behind the cached prefix of the slot; nothing else changes. |
| `ChunkedEngine.Engine.ReadPrefix` | src/worker/worker_sync.py:196-203 | What attention reads through the block table is the causal prefix of the reference. |
| `ChunkedEngine.Engine.RunLayers` | src/worker/worker_sync.py:1333-1411 | After all layers the new rows' hidden states are those of full-prefix recomputation, and the cache holds the longer text. |
| `ChunkedEngine.Engine.GenerateOneToken` | src/worker/worker_sync.py:1274-1425 | One step over any chunk: fails only if blocks run out or the input is empty, otherwise yields the naive next token, or discards it after an intermediate chunk. |
| `ChunkedEngine.Engine.SafeStep` | src/worker/worker_sync.py:1295-1303 | Within the length caps a step never runs out of blocks. |
| `ChunkedEngine.Engine.Serve` | src/worker/worker_sync.py:925-1127 | For any prompt, chunk size, block size, layer count and layer functions a request gets the tokens of naive generation on the truncated prompt with the capped budget, which stop at the configured EOS token and nowhere else; other slots' caches are untouched and all blocks come back. |
| `Serving.ServedIsNaive` | src/worker/worker_sync.py:940-957 | The engine agrees with naive generation if and only if at least one token is asked for or the prompt is chunked. |
| `Serving.ZeroBudgetYieldsToken` | src/worker/worker_sync.py:940-957 | A concrete budget of zero for which the engine still yields a token. |
| `Serving.FrontServesNaive` | src/worker/worker_sync.py:652 | A request that comes in over HTTP is served naive tokens whatever budget it asks for, since the front clamps the budget to at least one. |
| `Serving.StepTaken` | src/worker/worker_sync.py:405-421 | Every step leaves a request answered or under way, with one chunk less or one token more. |
| `SharedRun.SharedIsSolo` | src/worker/worker_sync.py:231-421 | Whatever a worker computes between ops: what it has read at any time of any shared run is what its program reads when it runs alone, of which there is only one sequence. |
| `SharedRun.ReadKeeps` | src/worker/worker_sync.py:239-421 | A read brings the result of the program's own rows, run alone, and moves on to the next op of the token. |
| `ServedRun.OpStands` | src/worker/worker_sync.py:231-371 | Run alone, every op leaves hidden rows and caches as the network composed of the aggregator's ops and the worker's own computation has them. |
| `ServedRun.HeadIsNext` | src/worker/worker_sync.py:388-421 | The lm_head gives the naive next token of the whole text. |
| `ServedRun.NextIsGreedy` | src/cpp_extensions/ext_aggregator.cpp:826-862 | The network's next token is the least index whose logit, the normalised last row times that lm_head row, is largest. |
| `ServedRun.FirstIsTableRow` | src/cpp_extensions/ext_aggregator.cpp:663-700 | The network's first row of a position is the embedding table's row of its token. |
| `ServedRun.SoloDecodes` | src/worker/worker_sync.py:231-421 | Run alone, the program keeps to its request from the first op to the last token. |
| `ServedRun.SubmissionAccepted` | src/worker/worker_sync.py:231-400 | Until the request is done the next submission has a shape the executor accepts. |
| `ServedRun.ServedInSharedRun` | src/worker/worker_sync.py:925-1127 | In every run of the protocol, whoever joins, leaves and shares its batches, what a worker has generated is the beginning of the naive tokens of its own prompt under its own adapter, and all of them, ended by its EOS token or its budget, when it is done. |
| `ServedRun.AnswerIsNaive` | src/worker/worker_sync.py:1012-1029 | For a request as the HTTP front hands it on, that answer is naive generation on the truncated prompt with the capped budget. |
| `SlotPool.SlotInOnePlace` | src/cpp_extensions/ext_aggregator.cpp:190-293 | In every run each slot is in exactly one place: on offer, being moved by one call, or owned; a slot with owner -1 that no call is moving is on offer. |
| `SlotPool.SecondRelease` | src/cpp_extensions/ext_aggregator.cpp:256-265 | In every run, once a release of a tenancy has reset the owner, any other release of that tenancy fails, be it the worker's or the cleanup's after a disconnect. |
| `SlotPool.HitsAlternate` | src/aggregator.py:484-527 | Two successful releases of one slot by or for the same worker have a claim of that slot by that worker, still connected, between them; after the connection has ended each slot is taken back at most once. |
| `SlotPool.OnlyCleanupSevers` | src/aggregator.py:499-527 | Only the cleanup after a lost connection can take a slot from a worker that still has it mapped; a release that a worker asked for never does. |
| `SlotPool.MappedByOwnerExactly` | src/aggregator.py:503-527 | In every run a slot is mapped by its owner only, if and only if no cleanup resets its owner while that owner still has it mapped. |
| `SlotPool.LostConnectionFreesMapped` | src/aggregator.py:499-527 | A concrete run: a live worker loses its connection, its slot is freed, and it writes to the free slot, whose buffers are then not zero. |
| `SlotPool.LostConnectionSharesSlot` | src/aggregator.py:499-527 | The next claim of that slot gives it to a second worker while the first still has it mapped. |
| `SlotPool.HandlesAreOwned` | src/cpp_extensions/ext_aggregator.cpp:190-293 | In every run, until such a cleanup hits the slot: two workers never have it mapped, and whoever has it mapped owns it. |
| `SlotPool.FreeIsClean` | src/cpp_extensions/ext_aggregator.cpp:267-290 | In every run, until such a cleanup hits the slot: when it is free it has owner -1, no mapping and zeroed buffers. |
| `SlotPool.ClaimStartsClean` | src/cpp_extensions/ext_aggregator.cpp:211-228 | In every run, until such a cleanup hits the slot: a returning claim hands it out with clear ready and evicted bits and zeroed buffers, owned by the claimer. |
| `SlotPool.ClaimTakesFirst` | src/cpp_extensions/ext_aggregator.cpp:190-228 | A claim takes the lowest slot of the mask that it loaded, which is on offer at that moment, and changes nothing else. |
| `SlotPool.ClaimAndRelease` | src/cpp_extensions/ext_aggregator.cpp:211-293 | A concrete run: a connected worker claims, writes, signals, is marked for eviction, unmaps and releases, and the slot is on offer again with zeroed buffers. |
| `SlotPool.ClaimRetries` | src/cpp_extensions/ext_aggregator.cpp:190-228 | A concrete run: a claim whose snapshot of the mask is outdated loads it again and gets the slot. |
| `SlotPool.StepExclusive` | src/cpp_extensions/ext_aggregator.cpp:190-293 | Every atomic access of a claim or release keeps the exclusivity invariant. |
| `SlotPool.StepOrdered` | src/aggregator.py:484-527 | Every step keeps one call per worker, and a pending release that would hit stands for the current tenancy. |
| `SlotPool.StepTenancy` | src/cpp_extensions/ext_aggregator.cpp:190-293 | Every step keeps mappings, claims and zeroed buffers of a slot in order, unless it resets the owner of a slot that this owner still has mapped. |
| `WorkerPool.PoolConserved` | src/controller/controller.py:1043-1113 | After any sequence of lock sections every counter equals tracked workers plus spawns in flight, ids lie below max_workers, and no GPU that prewarm never named exceeds its cap. |
| `WorkerPool.DropIsExact` | src/controller/controller.py:1190-1198 | The clamp at zero and the default of the removal never matter. |
| `WorkerPool.ReapRespects` | src/controller/controller.py:1006-1031 | A reap leaves at least min_workers and removes idle ready candidates only, all of them unless only the minimum is left, and nobody at or below the minimum. |
| `WorkerPool.ReapInOrder` | src/controller/controller.py:1006-1031 | When a candidate that could go stays, no candidate that is first listed behind it went. |
| `WorkerPool.RoomExactly` | src/controller/controller.py:1050-1058 | Without caps every device has room, with caps one below its own cap or, if it has none, below max_workers. |
| `WorkerPool.TouchGood` | src/controller/controller.py:1043-1113 | Requests and polls change the count and readiness of one tracked worker only, and keep the pool's invariant. |
| `WorkerPool.NextId` | src/controller/controller.py:1043-1048 | The least free id below the maximum, -1 if there is none. |
| `WorkerPool.PickDevice` | src/controller/controller.py:1050-1058 | The first device with room, none if there is none. |
| `WorkerPool.Controller.GetNextWorkerId` | src/controller/controller.py:1043-1048 | The loop finds that id. |
| `WorkerPool.Controller.Pick` | src/controller/controller.py:1050-1058 | The loop finds that device. |
| `WorkerPool.Controller.BeginSpawn` | src/controller/controller.py:1060-1078 | Refused exactly when the ids or the devices with room have run out; otherwise a free id is seen, and exactly the counter of one device that had room goes up by one. |
| `WorkerPool.Controller.AbortSpawn` | src/controller/controller.py:1080-1086 | Exactly the reserved device's counter goes down by one and one reservation of it is gone; no worker changes. |
| `WorkerPool.Controller.CommitSpawn` | src/controller/controller.py:1088-1113 | Fails exactly when the id seen is taken and so are all others, and then gives the reservation back; otherwise one more worker of the device is tracked, one reservation fewer, and no counter moves. |
| `WorkerPool.Controller.RemoveWorker` | src/controller/controller.py:1190-1198 | A tracked worker goes, and exactly its own device's counter and tracked number go down by one; an unknown id changes nothing. |
| `WorkerPool.Controller.PrewarmOne` | src/controller/controller.py:1989-2014 | Fails exactly when the ids or, without a name, the devices with room have run out; otherwise one more worker is tracked and counted on one device, the named one whatever its cap. |
| `WorkerPool.Controller.ReapIdle` | src/controller/controller.py:1006-1031 | The loop removes the idle ready candidates in order, all of them unless only the minimum is left, nobody else, and keeps every counter exact. |
| `Rebalance.Planner.PlanNode` | baselines/serverlesslora/preload_scheduler.py:345-500 | No container is donated twice, every donation passes the rate and cooldown tests and carries its density, receivers come by falling and each one's donors by rising rate, shares are respected for every function, and unless the swap limit was reached no allowed donation is left out. |
| `Rebalance.Planner.Pair` | baselines/serverlesslora/preload_scheduler.py:411-500 | Donors and receivers stay within their amounts; a plan that reaches the swap limit stops there if and only if no donor but the one that reached it could still give to the same receiver, and never has more than one swap per further donor beyond it. |
| `Rebalance.ThreeSwaps` | baselines/serverlesslora/preload_scheduler.py:411-500 | On a concrete node, for the shares that its containers and rates give, three swaps are planned although the limit is two. |
| `Rebalance.SmallNodeShares` | baselines/serverlesslora/preload_scheduler.py:366-401 | The shares of that node: one function queues and lacks three containers, two have two more than their share of one. |
| `Rebalance.Planner.DonateFrom` | baselines/serverlesslora/preload_scheduler.py:451-497 | One donor to one receiver, over its containers in order: nothing is given exactly when all its containers are used; it ends only when the deficit, the surplus or the usable containers are used up, or at the swap limit. |
| `Rebalance.Planner.Classify` | baselines/serverlesslora/preload_scheduler.py:378-401 | Who is short while requests queue, and who has more than its share: exactly those functions, with exactly those amounts. |
| `Rebalance.BalancedIsFair` | baselines/serverlesslora/preload_scheduler.py:378-500 | Each donor keeps at least its desired share and the minimum, no receiver goes past its desired share, none does both. |
| `Rebalance.StillEnough` | baselines/serverlesslora/preload_scheduler.py:460-465 | A donor with surplus left always has more than the minimum, so the minimum check never cuts a donation short. |
| `Rebalance.PairedIsComplete` | baselines/serverlesslora/preload_scheduler.py:411-500 | Below the swap limit every remaining container of every remaining donor is busy, cooling down or already chosen. |
| `Rebalance.SortSorts` | baselines/serverlesslora/preload_scheduler.py:406-409 | Both lists are sorted by rate before pairing. |
| `Rebalance.SortKeeps` | baselines/serverlesslora/preload_scheduler.py:406-409 | Sorting keeps the functions and amounts. |
| `Rebalance.DonationsAre` | baselines/serverlesslora/preload_scheduler.py:430-482 | Every donation goes to a function with at least twice the donor's rate and 0.05 per second more, and takes an idle container of the donor that was not swapped for 30 seconds. |
| `Rebalance.NothingUsableLeft` | baselines/serverlesslora/preload_scheduler.py:411-500 | Below the swap limit, when a starving function could still receive from one with more than its share, every container of the latter is busy, was swapped within 30 seconds or is already chosen. |
| `Rebalance.WantIs` | baselines/serverlesslora/preload_scheduler.py:370-376 | A function's share is its part of all containers that have a function, in proportion to its rate, rounded to the nearest whole number with halves to the even one, and at least one. |
| `Placement.NeverOver` | baselines/serverlesslora/preload_scheduler.py:759-821 | No node is pushed past its memory on either target. |
| `Placement.NoDuplicates` | baselines/serverlesslora/preload_scheduler.py:775-778 | No artifact is placed twice on a node. |
| `Placement.NothingFitsLeft` | baselines/serverlesslora/preload_scheduler.py:775-798 | At the end every candidate that was not taken has its artifact on that node already, names an unknown node, or exceeds what the larger of reported and estimated use and everything placed leave, with five percent more on a GPU. |
| `Placement.FirstIsTaken` | baselines/serverlesslora/preload_scheduler.py:759-798 | A candidate that comes first is taken exactly when its node is known and has room beside the larger of the reported and the estimated use, with five percent more on a GPU. |
| `Placement.LoadIs` | baselines/serverlesslora/preload_scheduler.py:786-812 | Every pick on a node and target adds its size, five percent more on a GPU, and nothing elsewhere. |
| `Placement.GenerateDecisions` | baselines/serverlesslora/preload_scheduler.py:748-821 | The loop's decisions are the greedy picks, artifact, node and target, in rank order with consecutive priorities. |
| `Placement.Consider` | baselines/serverlesslora/preload_scheduler.py:775-798 | One turn accepts a candidate exactly when the greedy rule does. |
| `PrunedBatch.ProcessBatch` | baselines/serverlesslora/worker_batched.py:303-498 | The reply has one entry per original request: its own live result if now plus the margin is within its deadline, its own expiry record with how late it is otherwise, or a failure if generation raised; the batch keeps its original requests unless it raised. |
| `PrunedBatch.Merge` | baselines/serverlesslora/worker_batched.py:484-489 | Entry i is request i's own, and the live iterator is exactly used up. |
| `PrunedBatch.Prune` | baselines/serverlesslora/worker_batched.py:335-351 | Live requests in order, and one record per expired request. |
| `PrunedBatch.LiveAtRank` | baselines/serverlesslora/worker_batched.py:335-351 | A live request is found at its rank among the live ones. |
| `PrunedBatch.RankOnto` | baselines/serverlesslora/worker_batched.py:484-489 | Every live result belongs to exactly one live request. |
| `Base64.RoundTrip` | src/worker/utils.py:19-38 | Decoding what was encoded gives back the bytes (section 4 of RFC 4648, read by Python's lenient decoder). |
| `Base64.Alphabet` | src/worker/utils.py:19-38 | The 64 symbols are A to Z, a to z, 0 to 9, plus and slash, in that order (section 4 of RFC 4648). |
| `Base64.BitGroups` | src/worker/utils.py:19-38 | Three bytes give the four groups of six bits in order; what is left over is filled with zero bits and padded. |
| `Wire.TreeRoundTrip` | src/worker/utils.py:19-38 | A tree comes back as it was if and only if no dictionary in it has the marker as its only key. |
| `Wire.MarkerComesBackAsBytes` | src/worker/utils.py:19-38 | A concrete dictionary that comes back as a byte string. |
| `Wire.EncodesPlain` | src/worker/utils.py:19-38 | What is sent holds no byte string: each is a dictionary with its Base64 text behind the marker. |
| `Wire.MarkerRejected` | src/worker/utils.py:19-38 | A marker whose value is not ASCII text is an error. |
| `Framing.MessageRoundTrip` | src/worker/utils.py:41-66 | A sent message is received as it was if and only if its text is within the cap and its tree is unambiguous. |
| `Framing.AllArrive` | src/worker/utils.py:41-66 | Any sequence of messages, delivered in any chunking, arrives in order and unchanged. |
| `Framing.UnpackPack` | src/worker/utils.py:44-54 | The four-byte big-endian length comes back. |
| `Framing.BigEndian` | src/worker/utils.py:41-54 | The length goes most significant byte first. |
| `Framing.Connection.RecvExactly` | src/worker/utils.py:47-66 | The read loop returns exactly the next bytes of the stream however they are chunked, or reports the close. |
| `Framing.Connection.RecvMsg` | src/worker/utils.py:47-66 | One receive yields the first message of the stream, a close, an oversized or a malformed message, and consumes no more than that. |
| `Framing.Connection.SendMsg` | src/worker/utils.py:41-44 | A send appends one frame, unless the length does not fit its prefix. |
| `Framing.Exchange` | src/worker/utils.py:41-66 | Both ends together: the receiver gets the messages that were sent. |
| `BufferSizes.BuffersAlwaysFit` | src/cpp_extensions/ext_aggregator.cpp:153-156 | Every op's input and output of any chunk fits the slot buffers if and only if one row of the wider input is at least as large as a token id. |
| `BufferSizes.TinyRowsTooSmall` | src/cpp_extensions/ext_aggregator.cpp:153-156 | Concrete dimensions, of one two-byte cell per row, for which one token id does not fit. |
| `BufferSizes.QkvDimIs` | src/cpp_extensions/ext_aggregator.cpp:140-156 | The fused width is that of the query, key and value rows one below the other. |
| `BufferSizes.BytesOfCells` | src/cpp_extensions/ext_aggregator.cpp:153-156 | The bytes that an op occupies are those of the cells the executor reads and writes, eight for a token id. |
| `BufferSizes.PoolSizesSuffice` | src/cpp_extensions/ext_aggregator.cpp:153-156 | Buffers sized this way meet what the lock-step model asks of its configuration. |
| `BufferSizes.StagingRowsSuffice` | src/cpp_extensions/ext_aggregator.cpp:386-401 | In every run the rows of a batch fit the staging buffers of one full chunk per slot. |

## Left out

- Weak memory: every atomic access is one indivisible, sequentially consistent step; a 128-bit mask is one set although the source updates it word by word (`SlotPool` does model the word-wise compare-and-swap of a claim and arbitrary torn loads before it).
- Timeouts, eviction, crashes and the error teardown of the worker in `LockStep`; `SlotPool` has disconnects, the cleanup after them and the evicted bits, but an eviction reaches only a slot whose claim has returned and whose owner is still set.
- Slot requests that name another worker's id than the connection's own, and a client that times out and takes a late reply for the answer to its next request, in `SlotPool`; the leave signal that precedes the cleanup.
- `slot_ready_count` and `active_slot_count`, written and never decided on; `OP_SET_SAMPLING` and the sampling state.
- Floating point, softmax, top-k and top-p sampling: batching is transparent for greedy decoding only, since one worker's settings are applied to the whole batch.
- The token loop's inner layers: normalisation, rotary embedding, attention, activation and residuals are arbitrary functions of a row, the result that came back for it, its position and its key-value prefix. In `ServedRun` keys and values are plain rows; the block tables are in `ChunkedEngine`.
- More than one request inside one engine at a time: the engine serves one slot, as configured, beside arbitrary other tables of the cache. SLO pruning and metrics are not modelled.
- CUDA streams, IPC handles, MPS, sockets, HTTP, processes and shared-memory mapping: only their effect on buffers and masks is kept. `WorkerSlots` has no failing IPC open.
- HotSwap.AdapterManager.Swap: leaves out adapters whose tensors do not have the model's widths or the rank of their own configuration, and requests served during a swap; tensors are values, so a recreated module that shares the loaded tensors is a copy of them.
- `load_lora_fast` parsing and grouping of files; the registry maps of adapters and `IntraAdapterSlotManager`'s active-slot dictionary.
- The profiled copy of the token loop, `advance_seq_lens` and the unused message-size constant.
- WorkerPool: asyncio cancellation and launch exceptions inside a lock section, the request counters and the processes themselves. A stop that ends after its id was given to a new worker untracks the new one; the counters stay right, which is what is stated.
- Rebalance.Planner.PlanNode: states only a bound on the number of swaps, since the plan's exact stopping rule is that of `Pair`. Rates are exact numbers, the loop over nodes and the final sort by density are left out.
- Placement.GenerateDecisions: leaves out decision ids, function ids, densities and expected values, which do not affect what is placed; sizes are taken to be non-negative for `NothingFitsLeft`.
- PrunedBatch.ProcessBatch: tokenisation and generation are a parameter that answers or raises; the margin is a parameter.
- Framing.Exchange: JSON text is a pair of functions that are inverse on the messages sent; UTF-8 is part of it, and dictionary keys are strings.
- Base64.RoundTrip: line breaks and other characters outside the alphabet are modelled as skipped, but nothing is claimed about decoding text that was not encoded by this codec.

# Verified models of a distributed inference engine

The engine runs a transformer over several machines: tensor, sequence and pipeline parallelism,
a thread pool per machine, a planner that decides where to cut the model, and the tokenizer at
its ends. This project restates its algorithmic cores in Dafny and proves what they owe their
callers. Everything holds for all sizes: threads, nodes, stages, chunks, layers, tokens, bytes.

How the program's parts are represented:

- Loops over buffers are methods on arrays or on values that are reassigned, proved against
  specification functions; objects that change are classes (`Scheduler`, `Verifier`, `Decoder`,
  `Socket`).
- Protocols are transition systems with one atomic action per step. A run is any sequence of
  enabled actions, so a result about runs is a result about every interleaving. Each comes with
  an invariant of all reachable states, a data result, a proof that it neither gets stuck
  nor goes on forever (threads that spin aside), and a proof that a run to the end exists.
- Floating-point values are reals. The exponential is a parameter that is positive and turns
  sums into products. Models, samplers and stage computations are parameters too.

| file | part |
|---|---|
| `Softmax`, `Attention`, `FusedAttention` | the tiled online-softmax kernel and the direct kernel |
| `Makespan`, `StageCosts`, `Planner`, `BruteForce` | pipeline timing, the pruned dynamic program, exhaustive search |
| `ExecutorBarrier`, `Partition` | the thread pool's step barrier, even splits |
| `RingCollective`, `SliceExchange`, `KvExchange` | ring collectives, the chunked slice exchange, the key/value exchange |
| `PrefillSchedule`, `WavePrefill` | cutting a prompt into chunks, overlapping them in the pipeline |
| `StageCut`, `StageGraph`, `SubBlocks`, `StageEquivalence`, `WeightRouting` | stage graphs of a cut model, what they compute, and the weights sent to them |
| `TensorParallel`, `StarCollective` | weight slices, the star all-reduce |
| `ContinuousBatching` | round-robin decoding of many requests |
| `SkipVerifier`, `SkipRouting` | skipping a pipeline stage while decoding |
| `BpeEncoder`, `Utf8Decoder` | tokens from text and text from tokens |
| `ConfigCodec` | configuration and weight streams |
| `Common`, `Arithmetic`, `Channels` | shared types, small facts, first-in first-out channels |

## Where the code differs from what is said of it

- `src/nn/nn-network.cpp:1764` says that after the two ring loops all nodes hold the reduced
  result. The second loop starts by sending a chunk that the first one did not finish: what
  arrives in chunk c is node c's own starting value. `RingCollective` proves that value, and that
  it is the sum exactly when the other contributions cancel.
- The equal split of layers without user counts leaves stages empty when there are fewer layers
  than stages (`StageCut.StageOffsets`), and an empty stage forgets its input: a cut gives the
  logits of the uncut network for all models if and only if no stage is empty
  (`StageEquivalence.CutInvisibleExactlyWhen`).
- The limit on the reject streak bounds a counter that starts again when it is reached. The
  rejects in a row stay within it if and only if the counter was below it at every decision
  (`SkipVerifier.OneMoreExactlyWhen`, `SkipVerifier.RejectsWithinExactlyWhen`), and any number
  of them is reachable (`SkipVerifier.RejectForever`).
- The weight loader tells a node's stage by dividing by the size of a tensor-parallel group, the
  topology by dividing by the size of a stage (`src/nn/nn-topology.hpp:43`). All nodes get the
  weights they use if and only if there is one group per stage or one stage, and the output
  matrix if and only if there is one group per stage
  (`WeightRouting.WeightsReachNodesExactlyWhen`,
  `WeightRouting.OutputMatrixReachesNodesExactlyWhen`).
- The encoder meant to keep the text: a special token met while bytes are still being collected
  overtakes them. Tokens stand for the text if and only if that does not happen
  (`BpeEncoder.FirstPassKeepsTextExactlyWhen`, `BpeEncoder.SpecialTokenOvertakes`).
- The detokeniser keeps stray bytes together with incomplete characters until a whole character
  comes, so its buffer can fill up and the size assertion fail, exactly when a piece does not
  fit behind them (`Utf8Decoder.StrayBytesAreKept`, `Utf8Decoder.Decoder.Decode`). Proper text
  never gets there.
- With context parallelism and fewer rows than ranks the ranges of the key/value exchange reach
  back to a stale position and may overlap (`KvExchange.DisjointExactlyWhen`). No harm is done:
  every rank has stored all rows of such a chunk itself (`KvExchange.ChunkExtendsAgreement`).
- The worker's weight buffer is allocated with a 32-bit size, while record sizes have 64 bits
  (`ConfigCodec.ReadStream`).
- The tile padding promises chunks of whole tiles, which it delivers only for chunk sizes that
  are whole tiles themselves (`PrefillSchedule.NoPartialTileExactlyWhen`).
- `src/nn/nn-core.hpp` calls the slice synchronisation an all-reduce; the batched exchange moves
  slices and sums nothing, which is what `SliceExchange` proves of it.

## Model

| member | source | states |
|---|---|---|
| `Softmax.MassPositive` | src/nn/nn-cpu-ops.cpp:728-742 | the normalising sum of a softmax over keys of which at least one is visible is never zero |
| `Softmax.UnseenTail` | src/nn/nn-cpu-ops.cpp:776-811 | keys behind the last visible one change neither the sum of weights nor the weighted sum of values |
| `Softmax.MassShift` | src/nn/nn-cpu-ops.cpp:1239-1350 | moving the reference score of the online softmax multiplies the running sum by exp(old - new) |
| `Softmax.BlendShift` | src/nn/nn-cpu-ops.cpp:1239-1350 | and multiplies the running output by the same factor |
| `Softmax.AnyReferenceWorks` | src/nn/nn-cpu-ops.cpp:1392-1412 | the quotient of the two is the softmax average whatever the reference score, so rescaling while streaming is sound |
| `Attention.GroupSharesKvHead` | src/nn/nn-cpu-ops.cpp:1116-1160 | all query heads of one group read the same key/value head |
| `Attention.DotProduct` | src/nn/nn-cpu-ops.cpp:745-774 | the loop computes the inner product |
| `Attention.SeesItself` | src/nn/nn-cpu-ops.cpp:890-897 | causality and the block mask together always leave a query its own key, so no row divides by zero |
| `Attention.AnswerSpelledOut` | src/nn/nn-cpu-ops.cpp:782-810 | what every kernel result below means, index by index: head h of group g reads key/value head g, a key weighs the exponential of its scaled inner product if it is no later and in the anchor or the query's block, and each component is the weighted mean of the values |
| `FusedAttention.ScoreTile` | src/nn/nn-cpu-ops.cpp:1220-1235 | the raw tile holds scaled inner products where the mask and causality allow, and is marked unseen elsewhere |
| `FusedAttention.UpdateSlot` | src/nn/nn-cpu-ops.cpp:1239-1350 | one (row, head) slot: maximum, sum and rescaled output advance from t0 to t1 keys, whatever order maxima come in; other slots and heads are untouched |
| `FusedAttention.OnlineTile` | src/nn/nn-cpu-ops.cpp:1239-1350 | every slot of a key tile is advanced, heads outside the query tile are untouched |
| `FusedAttention.AccumulateTile` | src/nn/nn-cpu-ops.cpp:1366-1388 | the weighted value rows of the tile are added to every output row exactly once |
| `FusedAttention.KeyTile` | src/nn/nn-cpu-ops.cpp:1205-1390 | a key tile takes all slots of a query tile from "ready up to t0" to "ready up to t1" |
| `FusedAttention.NormaliseTile` | src/nn/nn-cpu-ops.cpp:1392-1412 | division by the running sums leaves the exact masked softmax average of the values |
| `FusedAttention.FusedTile` | src/nn/nn-cpu-ops.cpp:1175-1413 | a query tile of any size against any number of key tiles yields the exact answer for each of its rows and heads |
| `FusedAttention.FusedKernel` | src/nn/nn-cpu-ops.cpp:1161-1414 | for every batch, position list, grouping, window, mask and both tile widths from one on, each output row in the window equals the exact masked softmax average, and nothing else is written |
| `FusedAttention.EveryHeadHasOneThread` | src/nn/nn-cpu-ops.cpp:1116-1160 | for any number of threads every head is computed by exactly one thread, whether heads are handed out in groups or singly |
| `FusedAttention.FusedThread` | src/nn/nn-cpu-ops.cpp:1116-1415 | a thread writes the exact answer of the heads it owns in its row window and leaves every other output alone |
| `FusedAttention.FusedCall` | src/nn/nn-cpu-ops.cpp:2352-2368 | all threads together, one after the other in any order, give every row of the window the exact answer for every head and leave all other rows alone |
| `FusedAttention.SoftmaxInPlace` | src/nn/nn-cpu-ops.cpp:728-742 | the three passes turn scores into their shares of the total weight |
| `FusedAttention.DirectHead` | src/nn/nn-cpu-ops.cpp:776-811 | the direct kernel also yields the exact causal softmax average |
| `FusedAttention.DirectThread` | src/nn/nn-cpu-ops.cpp:776-811 | a thread of the direct kernel does so for every row and for its own heads only |
| `FusedAttention.KernelsAgree` | src/nn/nn-cpu-ops.cpp:1161-1414 | with no mask the tiled and the direct kernel give equal outputs for every row of the window and every head, whatever the numbers and orders of threads and the tile widths |
| `Partition.EveryElementHasOneOwner` | src/nn/nn-cpu-ops.cpp:859-884 | the near-equal split (row windows of ranks, element ranges of threads) gives each element to exactly one part |
| `Partition.StartMonotone` | src/nn/nn-quants.hpp:82-86 | the parts follow each other in order |
| `Makespan.ComputeMakespan` | prefill_bench/derivepp.py:320-333 | the row-by-row loop computes the two-dimensional completion-time recurrence |
| `Makespan.MakespanIsLongestPath` | prefill_bench/derivepp.py:320-333 | the makespan is the cost of the most expensive monotone path through stages and chunks: one path attains it, none exceeds it |
| `Makespan.StageRowIsCompletion` | prefill_bench/derivepp.py:403-404 | evaluating a stage on a whole vector of arrival times gives the recurrence's row |
| `Makespan.PrefixMaxRow` | prefill_bench/derivepp.py:403-404 | cumulative sums plus a running maximum compute that row |
| `Makespan.ClosedFormExactly` | prefill_bench/derivepp.py:403-404 | the prefix-maximum form equals the recurrence if and only if the first arrival is not negative |
| `Makespan.StageRowMonotone` | prefill_bench/derivepp.py:336-338 | componentwise earlier arrivals give componentwise earlier finishes: the fact pruning rests on |
| `Makespan.UniformCompletion` | prefill_bench/cp_gate.py:8-13 | with equal costs, zero links and one slower chunk, the completion time of every stage and chunk in closed form |
| `Makespan.SlowChunkCostsOncePerStage` | src/dllama.cpp:484-488 | one chunk slower by e costs N*e in all, wherever it stands |
| `StageCosts.AttInCountsEven` | prefill_bench/derivepp.py:283-288 | the count of attention sub-blocks in a range, for every range |
| `StageCosts.MixCostIsBlockSum` | prefill_bench/derivepp.py:291-317 | the closed cost formula charges every sub-block of the stage exactly once, the first attention block at its own price |
| `StageCosts.StageCostIsBlockSum` | prefill_bench/derivepp.py:291-317 | the cost of a stage on a chunk is the sum over its sub-blocks, each charged once, plus the head on the last stage |
| `Planner.ExtendAll` | prefill_bench/derivepp.py:380-441 | all vectors of a frontier entry are advanced by one stage |
| `Planner.Expand` | prefill_bench/derivepp.py:380-441 | one stage of the dynamic program: every kept vector is extended by every admissible cut, and costs cached by mix are the right ones |
| `Planner.StableOrder` | prefill_bench/derivepp.py:411-416 | the sort is stable: by finish time, ties by position |
| `Planner.Prune` | prefill_bench/derivepp.py:411-432 | what is kept is a subset that dominates everything dropped (without a cap), is within the cap (with one) and always contains a vector of earliest finish |
| `Planner.DominanceStep` | prefill_bench/derivepp.py:336-338 | a dominating partial plan stays dominating under every continuation |
| `Planner.ExpandKeepsComplete` | prefill_bench/derivepp.py:380-441 | after expansion every feasible longer partial plan is dominated by an entry |
| `Planner.NextComplete` | prefill_bench/derivepp.py:380-441 | and still is after pruning: the invariant of the stages |
| `Planner.PlanFor` | prefill_bench/derivepp.py:341-441 | the planner finds a plan exactly when there are at least as many sub-blocks as stages; its time is that of its own cuts, and without a cap it is the minimum over all partitions |
| `Planner.OptimumUnique` | prefill_bench/derivepp.py:504-519 | two programs that both return the minimum return the same time |
| `BruteForce.CombinationsExact` | prefill_bench/derivepp.py:467-479 | the enumeration lists exactly the increasing choices of cut points |
| `BruteForce.ChoiceIsPlan` | prefill_bench/derivepp.py:467-479 | every choice is a partition into nonempty stages |
| `BruteForce.PlanIsChoice` | prefill_bench/derivepp.py:467-479 | and every such partition is a choice |
| `BruteForce.PlanRowIsCompletion` | prefill_bench/derivepp.py:467-479 | the planner's vectors are rows of the makespan recurrence |
| `BruteForce.CostOf` | prefill_bench/derivepp.py:467-479 | the makespan of a partition is the planner's cost of it |
| `BruteForce.Search` | prefill_bench/derivepp.py:444-479 | exhaustive search returns the minimum over all partitions |
| `BruteForce.SelfTest` | prefill_bench/derivepp.py:504-519 | planner and exhaustive search agree on every problem, not only on the six tried by the program |
| `BruteForce.TablesPoseAProblem` | prefill_bench/derivepp.py:341-380 | non-negative measured tables meet what the planner needs of its costs |
| `ExecutorBarrier.MainKeepsInv` | src/nn/nn-executor.cpp:308-331 | the caller's stores, one atomic step each, keep the invariant |
| `ExecutorBarrier.ThreadKeepsInv` | src/nn/nn-executor.cpp:197-264 | every atomic step of a worker thread keeps the invariant |
| `ExecutorBarrier.NobodyActsBetweenRuns` | src/nn/nn-executor.cpp:308-331 | while the caller resets the counters for the next run no thread can take a step, so none sees half-reset counters |
| `ExecutorBarrier.Reachable` | src/nn/nn-executor.cpp:192-265 | the invariant holds in every reachable state of every interleaving over any number of runs |
| `ExecutorBarrier.BarrierHolds` | src/nn/nn-executor.cpp:197-264 | a thread executing step k of a run does so after every thread has ended all earlier steps of all runs |
| `ExecutorBarrier.EveryStepExactlyOnce` | src/nn/nn-executor.cpp:197-264 | when forward() returns every thread has executed every step of every run exactly once, in order |
| `ExecutorBarrier.NeverStuck` | src/nn/nn-executor.cpp:308-331 | in every reachable state the caller can go on or some thread has a productive action, one that is not a spin check in vain |
| `ExecutorBarrier.RunIsFinite` | src/nn/nn-executor.cpp:197-264 | every productive action lowers a budget that is never negative, and no other action raises it |
| `ExecutorBarrier.WorkIsBounded` | src/nn/nn-executor.cpp:197-264 | while the caller waits, no schedule of the threads, fair or not, holds more productive actions than the budget |
| `ExecutorBarrier.ProductiveSchedulesFinish` | src/nn/nn-executor.cpp:197-331 | a schedule of productive actions is no longer than the budget and can go on until the run is done |
| `ExecutorBarrier.RunCompletes` | src/nn/nn-executor.cpp:197-331 | from every state of a run such a schedule leads to its end |
| `ExecutorBarrier.ForwardCompletes` | src/nn/nn-executor.cpp:308-331 | a whole forward(), from an idle executor and back: the caller's stores, a schedule of the threads and the return, after which every thread has executed one run more |
| `ExecutorBarrier.ForwardsComplete` | src/nn/nn-executor.cpp:165-331 | from a newly built executor, whatever its threads and steps, any number of calls of forward() can be completed in sequence, each executing every step once more on every thread |
| `RingCollective.TransferKeepsInv` | src/nn/nn-network.cpp:1698-1762 | one rendezvous of a ring send keeps the invariant of both phases |
| `RingCollective.FinishKeepsInv` | src/nn/nn-network.cpp:1698-1762 | so does ending a step |
| `RingCollective.NoDeadlock` | src/nn/nn-network.cpp:1698-1730 | for every n >= 2 and alternating send/receive order, some node can move until all are done, although nothing is buffered |
| `RingCollective.EveryActionCounts` | src/nn/nn-network.cpp:1698-1762 | every move uses up a finite budget |
| `RingCollective.BudgetNonNegative` | src/nn/nn-network.cpp:1698-1762 | which never runs below zero, so the collectives end |
| `RingCollective.CompleteRunExists` | src/nn/nn-network.cpp:1698-1762 | a run to the end exists for all starting buffers |
| `RingCollective.ReduceScatterResult` | src/nn/nn-network.cpp:1698-1730 | after the first loop node i holds the full n-way sum in chunk (i + 1) mod n |
| `RingCollective.AllGatherResult` | src/nn/nn-network.cpp:1430-1451 | the all-gather loop gives every node what node c had in chunk c |
| `RingCollective.AllReduceResult` | src/nn/nn-network.cpp:1740-1762 | the two loops together leave in chunk c of every node what node c alone started with |
| `RingCollective.AllReduceIsSumExactlyWhen` | src/nn/nn-network.cpp:1740-1765 | a chunk ends up as the sum over all nodes if and only if the other nodes' contributions to it cancel out |
| `RingCollective.AllReduceCounterexample` | src/nn/nn-network.cpp:1764-1765 | two nodes holding ones: there is a run to the end, and it leaves 1 where the sum is 2 |
| `SliceExchange.SocketsArePeers` | src/nn/nn-network.cpp:1399-1419 | the socket index is a bijection between a node's sockets and its peers |
| `SliceExchange.NextKeepsInv` | src/nn/nn-network.cpp:1586-1661 | reading, writing and ending a round keep what has been sent a prefix of the data |
| `SliceExchange.NoDeadlock` | src/nn/nn-network.cpp:1586-1661 | for every node count, size and number of threads, and channels of at least one chunk, some thread can move until all are done |
| `SliceExchange.EveryActionCounts` | src/nn/nn-network.cpp:1586-1661 | every action lowers a budget that is never negative |
| `SliceExchange.CompleteRunExists` | src/nn/nn-network.cpp:1586-1661 | so a run to the end exists whatever is sent |
| `SliceExchange.AllDelivered` | src/nn/nn-network.cpp:1586-1661 | at the end every used direction has delivered exactly the sender's bytes and is empty |
| `SliceExchange.Pack` | src/nn/nn-network.cpp:1610-1617 | the send buffer holds this node's slice of every row |
| `SliceExchange.Unpack` | src/nn/nn-network.cpp:1645-1660 | a received buffer overwrites the peer's slice of every row and nothing else |
| `SliceExchange.UnpackAll` | src/nn/nn-network.cpp:1645-1660 | so do all of them together |
| `SliceExchange.ExchangeGathersSlices` | src/nn/nn-network.cpp:1586-1661 | whatever the interleaving, afterwards every row holds slice c of node c on every receiving node |
| `SliceExchange.ReceiveRow` | src/nn/nn-network.cpp:1365-1397 | one row of the all-to-all exchange: over every socket comes the slice of the node behind it |
| `SliceExchange.ExchangeRowByRow` | src/nn/nn-network.cpp:1365-1397 | all rows one after the other |
| `SliceExchange.ExchangesAgree` | src/nn/nn-network.cpp:1576-1661 | the batched, chunked exchange leaves byte for byte what the exchange row by row leaves |
| `KvExchange.BothEndsAgree` | src/nn/nn-network.cpp:2209-2273 | each end computes its own and its peer's range for itself, from the row blocks or from its configured slice; the ranges agree, and the calls of the two ends match one by one |
| `KvExchange.MeetKeepsInv` | src/nn/nn-network.cpp:2252-2272 | a rendezvous copies the sender's own rows and keeps both ends at the same message |
| `KvExchange.BlockedRankMoves` | src/nn/nn-network.cpp:2234-2276 | a blocked rank waits for one that is blocked at an earlier pair of the global order of pairs, or meets it |
| `KvExchange.NoDeadlock` | src/nn/nn-network.cpp:2234-2276 | no run of the pairwise exchange over unbuffered channels gets stuck, whatever the ranges |
| `KvExchange.EveryActionCounts` | src/nn/nn-network.cpp:2234-2276 | every action lowers a budget that is never negative |
| `KvExchange.CompleteRunExists` | src/nn/nn-network.cpp:2234-2276 | so a run to the end exists |
| `KvExchange.ExchangeResult` | src/nn/nn-network.cpp:2184-2276 | after an exchange of disjoint ranges every rank holds, at each contributed position, the key and value rows of the contributing rank, and its other rows are as before |
| `KvExchange.ExchangeKeepsShared` | src/nn/nn-network.cpp:2184-2276 | where all ranks hold the same rows they keep them, also if ranges overlap |
| `KvExchange.ShiftRows` | src/nn/nn-cpu-ops.cpp:2545-2567 | a rank stores the rows it owns at their positions and leaves its buffer alone otherwise, with and without context parallelism |
| `KvExchange.OneWriter` | src/nn/nn-cpu-ops.cpp:859-884 | each position of a chunk that is divided among the ranks is stored by exactly one of them, whose range in the exchange covers it |
| `KvExchange.DisjointExactlyWhen` | src/nn/nn-network.cpp:2209-2232 | the ranges lie inside the buffer and overlap if and only if rows are split over more ranks than the chunk has rows and the position left behind it in the buffer is not past the chunk |
| `KvExchange.SmallBlock` | src/nn/nn-network.cpp:2210-2217 | for fewer rows than ranks: one row for each of the first ranks, and from the stale position to the end of the chunk for the others |
| `KvExchange.ChunkExtendsAgreement` | src/nn/nn-network.cpp:2184-2276 | one prefill chunk of any size: if all ranks agreed before its positions they agree on its positions too |
| `KvExchange.PrefillAgrees` | src/nn/nn-network.cpp:2184-2276 | over any prefill, cut into chunks anyhow, with or without context parallelism, all ranks hold for every position so far the row its writer stored |
| `KvExchange.RoundExists` | src/nn/nn-network.cpp:2184-2276 | and every chunk has a complete run of the exchange, whatever was stored |
| `PrefillSchedule.Padded` | src/dllama.cpp:460-468 | padding is the least whole number of four-row tiles |
| `PrefillSchedule.FillTokens` | src/dllama.cpp:501-505 | rows past the prompt repeat the last prefilled token |
| `PrefillSchedule.PlanPrefill` | src/dllama.cpp:459-591 | the chunks feed exactly the (padded) prompt, are contiguous and full but for the last, exactly the last is flagged in wave mode and all are otherwise, and decoding starts at the last prompt token |
| `PrefillSchedule.NoPartialTileExactlyWhen` | src/dllama.cpp:460-492 | after padding no chunk has a partial tile if and only if the chunk size is a whole number of tiles or one chunk holds everything |
| `PrefillSchedule.SixRowChunks` | src/dllama.cpp:460-492 | nine prompt tokens in chunks of six: the padded schedule has a partial tile |
| `WavePrefill.SequentialPrefill` | src/app.cpp:1071-1131 | the blocking path computes the reference: each chunk through all stages before the next |
| `WavePrefill.ActionKeepsInv` | src/app.cpp:1167-1225 | every step of the root and of the workers keeps the contents of all channels what the chunk order says |
| `WavePrefill.Reachable` | src/dllama.cpp:470-545 | so in every reachable state of every interleaving |
| `WavePrefill.ChunksNeverMix` | src/app.cpp:1779-1791 | a stage at work holds control packet, activation and key/value state of the same chunk: the position check never fails |
| `WavePrefill.NoDeadlock` | src/dllama.cpp:484-545 | with bounded channels of any capacity from one message on, and control packets and activations sharing the channel to the first worker, the only stuck state is completion |
| `WavePrefill.WaveComputesSequentialResult` | src/app.cpp:1195-1225 | every completed wave leaves the states and logits of the blocking path, one logits message was sent and drained, and all channels are empty |
| `WavePrefill.EveryRunEnds` | src/dllama.cpp:470-545 | every interleaving is finite, with an exact count of steps |
| `WavePrefill.CompleteRunExists` | src/dllama.cpp:470-545 | a run that completes the prefill exists for every capacity |
| `StageCut.BuildSubBlockOffsets` | src/llm.cpp:22-51 | accepted exactly when the counts fit; the offsets are running sums, or the even split; which error is reported first |
| `StageCut.BuildLayerStartOffsets` | src/llm.cpp:53-77 | the same in whole layers, with the legacy equal split |
| `StageCut.StageOffsets` | src/llm.cpp:281-304 | the cut shared by graph builder and weight loader; it has an empty stage exactly when there are no counts and fewer layers than stages |
| `StageGraph.SameResults` | src/llm.cpp:386-796 | operations that read only what is known or written before them do not depend on stale buffers |
| `StageGraph.AttOpsDefined` | src/llm.cpp:428-552 | the attention half reads only the residual, the positions and its own caches |
| `StageGraph.FfOpsDefined` | src/llm.cpp:574-715 | the feed-forward half, dense or mixture of experts, reads only the residual |
| `StageGraph.FinalOpsDefined` | src/llm.cpp:755-797 | the output head reads only the residual |
| `StageGraph.BuildStage` | src/llm.cpp:316-799 | the walk over layers, keeping the halves the node owns, builds the operations of exactly its sub-blocks with the right entry operation for each |
| `SubBlocks.AttMeaning` | src/llm.cpp:428-552 | the attention half, on any node state: its caches and what it adds to the residual, as nested applications of the operations to residual, position and old caches, with and without quantisation and head norms |
| `SubBlocks.FfMeaning` | src/llm.cpp:574-715 | the same for the feed-forward half, dense and mixture of experts, which changes nothing else |
| `SubBlocks.HeadMeaning` | src/llm.cpp:755-797 | and for the output head, fused or not |
| `StageEquivalence.SegmentMeaning` | src/llm.cpp:411-426 | a segment starts from the received activation if it is the stage's first, otherwise from the residual plus the previous result |
| `StageEquivalence.StageMeaning` | src/llm.cpp:556-573 | a nonempty stage continues the residual over its sub-blocks, whatever its buffers held |
| `StageEquivalence.OneToken` | src/llm.cpp:729-799 | one token through all stages gives the logits and caches of the uncut network |
| `StageEquivalence.CutChangesNothing` | src/llm.cpp:13-22 | for every model and every cut without empty stages, over any number of tokens, the logits are those of the uncut network, which is given by formulas, without any law of addition |
| `StageEquivalence.EmptyStageForgets` | src/llm.cpp:729-745 | an empty stage hands on what its buffers held |
| `StageEquivalence.EmptyStageLosesToken` | src/llm.cpp:71-76 | with an empty stage the logits do not depend on which token was fed |
| `StageEquivalence.SomeTokenDiffers` | src/llm.cpp:71-76 | for a model whose logits are its token, a cut with an empty stage gets some token wrong, whatever the buffers held |
| `StageEquivalence.CutInvisibleExactlyWhen` | src/llm.cpp:13-22 | a cut gives the logits of the uncut network for all models and tokens if and only if no stage is empty |
| `WeightRouting.FindOwner` | src/nn/nn-network.cpp:2526-2542 | the owner search: first stage whose range holds the sub-block, otherwise the last; everyone for one stage; the layer-wise fallback |
| `WeightRouting.OwnerIsTheStage` | src/nn/nn-network.cpp:2529-2536 | for every cut it is the one stage that runs the sub-block |
| `WeightRouting.FallbackAgrees` | src/nn/nn-network.cpp:2537-2542 | the fallback agrees with the search over the equal split when no stage is empty |
| `WeightRouting.AttWeightPart` | src/nn/nn-network.cpp:2514-2524 | the substring test sorts attention weights into the first half |
| `WeightRouting.FfWeightPart` | src/nn/nn-network.cpp:2514-2524 | and feed-forward weights into the second |
| `WeightRouting.StageWeights` | src/llm.cpp:393-396 | a stage's graph contains an operation with a sliced weight exactly when the sub-block is in its range |
| `WeightRouting.WeightsGoWhereTheyAreUsed` | src/nn/nn-network.cpp:2606-2668 | every sliced weight of every layer is meant for exactly the stages whose graph contains the operation |
| `WeightRouting.WeightsReachNodesExactlyWhen` | src/nn/nn-network.cpp:2544-2547 | node by node: every node that uses a sliced weight is sent it if and only if there is one sequence-parallel group per stage or one stage |
| `WeightRouting.OutputMatrixReachesNodesExactlyWhen` | src/llm.cpp:870-874 | every node that uses the output matrix is sent it, and no other, if and only if there is no sequence parallelism |
| `TensorParallel.SplitRows` | src/nn/nn-core.cpp:300-316 | a row slice holds the node's rows, block for block |
| `TensorParallel.SplitColumns` | src/nn/nn-core.cpp:318-333 | a column slice holds the node's block columns of every row |
| `TensorParallel.OneSliceEach` | src/nn/nn-core.cpp:231-254 | each row, and each block column, lies in exactly one slice at exactly one place |
| `TensorParallel.RowSliceValues` | src/nn/nn-core.cpp:300-316 | cutting blocks by rows cuts the represented matrix by rows |
| `TensorParallel.ColumnSliceValues` | src/nn/nn-core.cpp:318-333 | cutting blocks by columns cuts the represented matrix by columns |
| `TensorParallel.NodeHidden` | src/llm.cpp:671-694 | the hidden values of a node are the whole ones in its range, elementwise map included |
| `TensorParallel.PartsAddUp` | src/nn/nn-core.cpp:231-254 | for every number of nodes the parts add up to the uncut block |
| `TensorParallel.StarAllReduce` | src/nn/nn-network.cpp:1767-1834 | as one operation: the first node ends with the sum, the others with the same or, if told so, with what they had |
| `TensorParallel.SliceComputesPart` | src/llm.cpp:671-715 | what a node computes from its slices is its part of the block with whole matrices |
| `TensorParallel.SlicesAddUp` | src/nn/nn-core.cpp:231-254 | over all nodes these add up to what one node with the whole weights computes |
| `TensorParallel.ComputedIsSpelledOut` | src/llm.cpp:671-694 | what whole weights compute, index by index over the blocks: the activation acts on rows of w1 times x, rows of w3 times x multiply it, w2 follows |
| `TensorParallel.TensorParallelFeedForward` | src/nn/nn-core.cpp:300-333 | split the weights, compute from the slices, all-reduce: every node ends with that sum over the uncut weights |
| `StarCollective.ActionKeepsInv` | src/nn/nn-network.cpp:1784-1833 | message by message: every read, the reduction and every write keep the invariant |
| `StarCollective.NoDeadlock` | src/nn/nn-network.cpp:1784-1833 | in whatever order sockets become ready, some node can go on until all are done, although nothing is buffered |
| `StarCollective.EveryActionCounts` | src/nn/nn-network.cpp:1784-1833 | every action uses up a finite budget |
| `StarCollective.CompleteRunExists` | src/nn/nn-network.cpp:1784-1833 | a run to the end exists |
| `StarCollective.StarResult` | src/nn/nn-network.cpp:1784-1833 | and every such run leaves what the all-reduce as one operation leaves |
| `ContinuousBatching.Admit` | src/dllama.cpp:158-183 | a prompt is refused exactly when empty or too long; an admitted request starts from the last prompt token, at the least of its limits, and can always produce a token |
| `ContinuousBatching.PicksAreDistinctAndLive` | src/dllama.cpp:278-297 | each round picks distinct live requests, as many as there are, up to the limit |
| `ContinuousBatching.PickedExactlyWhen` | src/dllama.cpp:288-292 | a live request is picked if and only if fewer live requests than the limit come before it in round-robin order |
| `ContinuousBatching.RankDrops` | src/dllama.cpp:277-297 | a round that passes over a live request moves it up by the batch width |
| `ContinuousBatching.ServedSoon` | src/dllama.cpp:277-326 | so it is served within ceil(live / maxActive) rounds, whatever the model produces |
| `ContinuousBatching.Scheduler.Pick` | src/dllama.cpp:278-297 | the scan computes that choice |
| `ContinuousBatching.Scheduler.ServeRound` | src/dllama.cpp:299-325 | a round gives each pick the model's answer as its output and next token, once, leaves the others alone and keeps the count of unfinished requests |
| `ContinuousBatching.RoundSpelledOut` | src/dllama.cpp:299-325 | the same written out field by field: position one further, the answer as token and last output, finished exactly at the end token or the limit |
| `ContinuousBatching.FedBackGrows` | src/dllama.cpp:303-322 | one more token: every output token is the answer to the one before it at its position, the first to the last prompt token |
| `ContinuousBatching.AnswersInOrder` | src/dllama.cpp:303-322 | so if answers do not depend on the round, output i follows from output i - 1 |
| `ContinuousBatching.Scheduler.DecodeAll` | src/dllama.cpp:274-326 | the loop ends with every request finished, properly decoded and fed back token by token; if the model's answers do not depend on the round each request gets what it would get alone |
| `ContinuousBatching.Scheduler.DecodeOneByOne` | src/dllama.cpp:203-243 | the path for one request at a time leaves every request finished, properly decoded and fed back token by token, whatever the model answers; if its answers do not depend on the call, each request gets what it would get alone |
| `SkipVerifier.Verifier.Evaluate` | src/app.cpp:1482-1534 | the decision as a function of the history, the counters after it, both within their limits, and whether the rejects in a row are still within theirs |
| `SkipVerifier.Verifier.Reset` | src/app.cpp:1413-1424 | a change between prefill and decoding clears all three counters |
| `SkipVerifier.SomeReject` | src/app.cpp:1512-1513 | among maxConsecutive + 1 decisions in a row one is a reject |
| `SkipVerifier.StreakCountsRejects` | src/app.cpp:1514-1531 | the streak counter is the number of rejects in a row modulo the limit plus one |
| `SkipVerifier.OneMoreExactlyWhen` | src/app.cpp:1514-1531 | after one more decision the rejects in a row are within the limit if and only if the counter was below it, the test of the forcing branch |
| `SkipVerifier.RejectsWithinExactlyWhen` | src/app.cpp:1514-1531 | over a whole history: if and only if no decision was forced |
| `SkipVerifier.Verifier.CountTells` | src/app.cpp:1514-1531 | so the program's own count of forced decisions is zero if and only if the limit has held since the reset |
| `SkipVerifier.RejectForever` | src/app.cpp:1514-1531 | and any number of rejects in a row is reachable |
| `SkipRouting.NotAhead` | src/app.cpp:1071-1131 | no stage starts a later token than the one the stage after the target is at |
| `SkipRouting.ActionKeepsInv` | src/app.cpp:1746-1791 | every step of root and workers keeps the contents of all channels |
| `SkipRouting.ExactlyOneActivation` | src/app.cpp:1827-1870 | the stage after the target is sent exactly one activation per token, with its position, over exactly one of the two channels |
| `SkipRouting.NothingUnexpected` | src/app.cpp:1758-1791 | the target gets one activation or marker per token, no stage meets a message it does not expect, and the polled channel never yields a control packet |
| `SkipRouting.LogitsAreComplete` | src/app.cpp:1071-1131 | the root gets, token by token, what all stages but a skipped target computed |
| `SkipRouting.NoDeadlock` | src/app.cpp:1746-1870 | the only stuck state is the end, where the lagging target has dealt with every token too |
| `SkipRouting.EveryRunEnds` | src/app.cpp:1746-1870 | every run is finite |
| `SkipRouting.CompleteRunExists` | src/app.cpp:1746-1870 | a run that decodes all tokens exists |
| `BpeEncoder.FindSpecialTokenStartWith` | src/tokenizer.cpp:198-206 | the first special token that the text starts with |
| `BpeEncoder.PairFits` | src/tokenizer.cpp:157-163 | the scratch buffer holds every pair of tokens in full |
| `BpeEncoder.FirstPassKeepsTextExactlyWhen` | src/tokenizer.cpp:327-349 | a first pass that fails no assertion yields tokens that stand for the text if and only if no special token was met while bytes were being collected |
| `BpeEncoder.SpecialTokenOvertakes` | src/tokenizer.cpp:327-349 | otherwise the special token overtakes those bytes: "a<b" becomes "<ab" |
| `BpeEncoder.RegularBytesSplit` | src/tokenizer.cpp:327-349 | where every byte is a regular token neither happens |
| `BpeEncoder.BestPairIsBest` | src/tokenizer.cpp:353-367 | the scan finds the leftmost pair of highest score above the floor |
| `BpeEncoder.FindBestPair` | src/tokenizer.cpp:353-367 | and is what the loop over the scratch buffer computes |
| `BpeEncoder.MergeInPlace` | src/tokenizer.cpp:373-379 | the shift replaces the pair by one token and keeps the rest |
| `BpeEncoder.MergeKeepsText` | src/tokenizer.cpp:373-379 | a merge keeps the text the tokens stand for |
| `BpeEncoder.MergeAllKeepsText` | src/tokenizer.cpp:352-380 | so does any number of merges |
| `BpeEncoder.NothingLeftToMerge` | src/tokenizer.cpp:369-371 | at the end no two neighbours concatenate to a regular token above the floor |
| `BpeEncoder.SplitText` | src/tokenizer.cpp:327-349 | the first loop, on all texts: it fails an assertion exactly when the first pass overflows the buffer or leaves bytes over, and appends its tokens otherwise |
| `BpeEncoder.Encode` | src/tokenizer.cpp:313-382 | on all texts: terminates, fails an assertion exactly when the first pass does, and otherwise its merged tokens stand for the begin string and the text exactly when the first pass was not interrupted |
| `Utf8Decoder.WholeIsWellFormed` | src/tokenizer.cpp:226-291 | proper text is whole characters and an incomplete one of at most three bytes |
| `Utf8Decoder.CutFront` | src/tokenizer.cpp:226-291 | whole characters can be cut off the front of a stream wherever it was split |
| `Utf8Decoder.Detokenise` | src/tokenizer.cpp:226-291 | on all bytes: terminates, shows the whole characters with one replacement character for the bytes dropped between two of them, and keeps what lies behind the last |
| `Utf8Decoder.ShownIsWellFormed` | src/tokenizer.cpp:256-291 | what is shown is well formed whatever the bytes |
| `Utf8Decoder.ShownIsShort` | src/tokenizer.cpp:256-276 | and at most twice as long as they are |
| `Utf8Decoder.ShownTwiceAsLong` | src/tokenizer.cpp:256-276 | a bound that is attained |
| `Utf8Decoder.ProperShown` | src/tokenizer.cpp:226-291 | of proper text exactly the whole characters are shown |
| `Utf8Decoder.EncodedIsChar` | src/tokenizer.cpp:238-252 | the encoding of every code point of up to 21 bits is one character to the decoder, of one to four bytes |
| `Utf8Decoder.TextIsShown` | src/tokenizer.cpp:226-291 | encoded text is shown byte for byte with nothing kept, and every proper start of one more character is kept whole |
| `Utf8Decoder.UnreplacedExactlyWhen` | src/tokenizer.cpp:256-276 | nothing is replaced and nothing but the start of a character kept if and only if the bytes are proper text |
| `Utf8Decoder.ShownOnward` | src/tokenizer.cpp:278-284 | what is kept, read again before the next bytes, gives what the whole stream would have given |
| `Utf8Decoder.StrayBytesAreKept` | src/tokenizer.cpp:278-284 | bytes that start no character are all kept until a whole character comes |
| `Utf8Decoder.PieceFits` | src/tokenizer.cpp:302-305 | the size assertion holds while at most three bytes are kept |
| `Utf8Decoder.Decoder.Decode` | src/tokenizer.cpp:293-311 | one token: begin and end tokens change nothing; others keep the text shown and the bytes kept those of the whole stream, or fail the assertion exactly when the piece does not fit |
| `Utf8Decoder.Decoder.DecodeAll` | src/tokenizer.cpp:293-311 | any stream without NULs, split into tokens anyhow, is shown as in one piece unless a token does not fit behind the bytes kept; proper text always fits, and encoded code points come out as they went in |
| `ConfigCodec.WriteNet` | src/nn/nn-network.cpp:2299-2315 | the net configuration is written in the format |
| `ConfigCodec.ReadNet` | src/nn/nn-network.cpp:2384-2404 | reading it returns the same configuration and takes exactly its bytes |
| `ConfigCodec.WriteNode` | src/nn/nn-network.cpp:2317-2370 | the node configuration, with any number of buffers, segments, syncs and operations |
| `ConfigCodec.ReadNode` | src/nn/nn-network.cpp:2406-2476 | read back the same |
| `ConfigCodec.ConfigRoundTrip` | src/nn/nn-network.cpp:2372-2378 | both together leave nothing over |
| `ConfigCodec.WriteStream` | src/nn/nn-network.cpp:2549-2579 | weights are records closed by a zero length |
| `ConfigCodec.ReadStream` | src/nn/nn-network.cpp:2681-2720 | the reader returns exactly the records written and stops at the sentinel only; it runs out of buffer exactly when a record has 4 GiB or more |

## Left out

- PlanFor: with a frontier cap it is only shown to return a genuine plan with its true time, not how far from the optimum it may be.
- RunIsFinite: spin checks in vain use up nothing, so the end of a run needs that some thread with a productive action is scheduled again and again; that such a thread exists and how many such actions there are is shown.
- Detokenise: the output is a sequence without a bound of its own; the program's output buffer has the size of the input buffer, which proper text respects and the bound of twice the input does not.
- ShiftRows: ranks that store the same row of a chunk (fewer rows than ranks) are taken to have computed the same values.
- ReadNet: readers are specified on streams a writer produced; the program does not detect others. The same holds of ReadNode and ReadStream.
- ExchangeResult: equality with a run on a single node is not claimed, because the exchange follows the attention operation of its segment; what is shown is that the buffers agree afterwards.
- StarResult: a buffer is one message; chunks of a message and partial reads are not.
- FusedCall: threads run one after the other, in any order; interleaving inside their loops is not modelled, but FusedThread shows that they write disjoint outputs.
- TensorParallelFeedForward: the node parts are evaluated as functions of the represented values; the matrix kernels over quantised blocks are not modelled.
- Floating-point rounding, vector instructions, approximations of the exponential and the quantised transport formats: values are reals and pipes carry them unchanged.
- Flat buffer offsets: multi-dimensional arrays stand for them in the attention kernels, so index arithmetic into one flat buffer is not captured there.
- The batched attention kernel (`multiheadAttBatch_F32`), which the tiled kernel replaces.
- Socket calls, retries, timeouts, turbo mode, traffic counters, acknowledgements, the connection handshake; the mapping from nodes to sockets is taken as given.
- Exceptions, shutdown and stalls of the executor; wrap-around of its run counter and of 32-bit sizes other than the weight buffer's.
- One value per chunk in the ring loops, whole chunks as messages in the slice exchange; partial socket writes inside a chunk.
- Tensor or sequence parallelism combined with wave prefill and stage skipping; per-group overrides of positions; token pruning; the choice of the prefill chunk size.
- SkipRouting.NoDeadlock: channels are unbounded; a sender that blocks because the lagging target has not read yet is not modelled.
- Delta encoding and checksums of pipeline messages, activation metrics, sampling, the shared text decoder of continuous batching, chat templates, command line, measurement tools and model converters.

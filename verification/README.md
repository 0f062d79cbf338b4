# Verified models of the collective communication core

This project models the parts of the library that are hardest to get right and proves, for all
inputs and all interleavings, what they are there for. It covers the ring AllReduce, AllGather,
ReduceScatter, Broadcast and Reduce with their FIFO protocols, the planner that turns user calls into
kernel work and the device code that finds that work again, the proxy engine between ranks and the
progress thread, the bootstrap root and barrier, and the point-to-point schedule.

Code that changes things step by step is modelled by methods and classes that do the same steps; each
is proved against a function or predicate, and the lemmas say what that means. Protocols between
threads or ranks are state machines over their atomic steps, with theorems about every run. Shared
memory is sequentially consistent: one poll, copy, post, swap or locked section is one step.

`dafny verify dfyconfig.toml` checks everything.

| file | what it is about |
|---|---|
| `RingPipeline`, `RingProgram`, `RingAllReduce`, `RingFold` | credit FIFOs of a ring, the loops that choose chunks and slices, the data they move, and reductions round a ring |
| `RingBlocks`, `RingAllGather`, `RingReduceScatter` | the same for the collectives that work on a block per rank |
| `ChainPipeline`, `ChainCollectives` | Broadcast and Reduce, whose ranks form a chain |
| `LowLatency`, `LowLatencyRing` | the LL protocol, whose lines carry flags that wrap around, and its traffic on a ring together with the other protocols |
| `StepCount` | FIFO steps planned on the host against those performed on the device |
| `ReduceCopy` | the copy loop whose warps rotate between passes |
| `WorkBatch`, `PlanLayout`, `WorkStorage`, `WorkLoad`, `PlanRoundTrip`, `RingSize` | batches of a plan, their layout, upload, and how a block loads them |
| `CollSplit`, `PlanLoop`, `P2pSchedule` | splitting collectives over channels, cutting tasks into plans, the order of peers |
| `ProxyPlan`, `ProxyMerge`, `ProxySlots`, `ProxyOrder`, `ProxyArgs`, `ProxyRun` | proxy operations: numbering, merging and uploading, the shared slot pool, order of consumption, the list in progress, and the two together |
| `Bootstrap`, `Barrier` | the bootstrap roots and the dissemination barrier |
| `RedOpSlab` | user-defined reduction operators |
| `Arith`, `Sequences`, `SlotLists` | arithmetic, permutations and linked lists used by the others |

## Where the code does less than it promises

Three properties hold only under a condition. Each has a lemma with an input that breaks it and one
that says exactly when it holds.

- Host and device step counts agree exactly if a chunk has fewer than 2^21 grains, because the chunk
  size travels in a 21-bit field (`StepCount.StepsAgreeIff`, `StepCount.TruncationExample`).
- LL readers get only what was sent for their own step exactly if between any two LL steps of one slot
  and flag the slot is cleaned, and that before the reader can be at the second one
  (`LowLatency.SafeIffCovered`, `LowLatency.LateReaderIsFooled`). On a connection that only LL uses that
  is so exactly if cleanup period plus the distance by which a reader may run ahead is below the number of
  flags (`LowLatency.SafeIffDistinguishes`), and the constants in use meet it as long as the reader is
  less than 2^31 steps ahead. But Simple and LL128 advance the same step counter and never clean. If they
  hold the connection whenever the mask selects its steps, no slot is ever cleaned, and a reader accepts a
  line that is 2^32 steps old (`LowLatencyRing.MixedTrafficIsFooled`). The library's constants are
  enough when all selected steps are LL steps (`LowLatencyRing.CleanWindowsSuffice`); how far a reader
  gets ahead on a ring needs no limit, since every loop has lines or slices to wait for
  (`LowLatencyRing.RingIsPaced`).
- A work ring buffer keeps work structs apart exactly if its size is a power of two. Initialization
  warns that another size is ignored, and then uses it (`RingSize.RingKeepsApartIff`,
  `RingSize.OthersCollide`).

The ring is live exactly if a FIFO has room for a chunk, and for one slice more when a loop has a
primitive that both receives and sends (`RingPipeline.LiveIffRoomy`); a chain is live with any FIFO
(`ChainPipeline.ChainNeverStuck`). A planner whose budget does not admit a single task never plans one
(`PlanLoop.Planner.ScheduleP2p`, `PlanLoop.Planner.ScheduleColls`).

## Model

| member | source | states |
|---|---|---|
| RingPipeline.SendLead | src/device/prims_simple.h:109-181 | a rank never sends more than one chunk of slices beyond what it has received, so credits and data counters stay consistent over any number of loops |
| RingPipeline.SlotsDiffer | src/device/prims_simple.h:109-181 | slices less than a FIFO apart use different slots, also after the step counter has wrapped around the FIFO many times |
| RingPipeline.ReceivedIsExpected | src/device/prims_simple.h:184-319 | what a slice finds in its FIFO slot is what the previous rank's matching slice produced |
| RingPipeline.StepKeepsInv | src/device/prims_simple.h:109-181 | polls, copies and posts of any rank keep the invariant: no unread slot is overwritten, counters seen are never ahead of counters published |
| RingPipeline.EveryRunRefinesLockStep | src/device/prims_simple.h:109-319 | in every interleaving each rank's memory is what a lock-step execution would have produced, and a sender is never more than NCCL_STEPS ahead of its receiver |
| RingPipeline.NeverStuck | src/device/prims_simple.h:109-181 | with room for a chunk, and one slice more if a loop has a primitive that receives and sends, every reachable state that is not final has a rank that can step |
| RingPipeline.RunsAreBounded | src/device/prims_simple.h:109-181 | every run ends: the number of effective steps is bounded by five per rank and slice |
| RingPipeline.TooSmallFifoDeadlocks | src/device/prims_simple.h:109-181 | a FIFO with less room than that deadlocks, whatever the data: a run into the deadlock |
| RingPipeline.LiveIffRoomy | src/device/prims_simple.h:109-181 | a ring collective is live in all runs if and only if NCCL_STEPS is at least (SlicePerChunk+1)*StepPerSlice, or SlicePerChunk*StepPerSlice when its loops only send and then receive, as with two ranks |
| RingPipeline.ProgramCounts | src/device/prims_simple.h:109-181 | a rank's whole program sends and receives one chunk of slices for every primitive but one of each loop, empty slices included |
| RingPipeline.StepsWhenDone | src/device/prims_simple.h:109-181 | in every final state both ends of every connection have advanced by exactly the steps of those slices |
| RingProgram.RunRingLoop | src/device/all_reduce.h:42-81 | one ring iteration issues the 2n-1 primitives, chunk by chunk backwards round the ring, with the offsets and counts of the chunk function |
| RingProgram.RunRing | src/device/all_reduce.h:32-82 | the loop over the channel's part, with the smaller aligned chunk in a short last iteration, issues exactly the calls of the ring program |
| RingProgram.ProgramAt | src/device/all_reduce.h:32-82 | call number l*(2n-1)+j of the program is primitive j of iteration l |
| RingProgram.GenericOpSlices | src/device/prims_simple.h:184-319 | worker and non-worker threads cut a call into the same slices, also when the call is empty or negative |
| RingProgram.Locate | src/device/all_reduce.h:32-82 | every element of the part is in some iteration, chunk and slice |
| RingProgram.TilesOnce | src/device/all_reduce.h:32-82 | and in no other one: iterations, chunks and slices tile the part |
| RingProgram.TailChunkFits | src/device/all_reduce.h:36-36 | the chunk of a short last iteration is not larger than a full chunk |
| RingProgram.SliceFits | src/device/prims_simple.h:192-200 | no slice is larger than its FIFO slot |
| RingProgram.SetupChannel | src/init.cc:619-635 | the ring index is the distance from rank zero along the ring, and userRanks are the ranks from the own one on |
| RingProgram.FindRanks | src/init.cc:625-629 | the scan finds rank zero's and the rank's own place on the ring |
| RingProgram.IndexFollowsRing | src/init.cc:619-635 | the next rank on the ring has the next ring index, so the index order is the order of the FIFO connections |
| RingAllReduce.SlicesFollowProgram | src/device/all_reduce.h:32-82 | slice i of the state machine is a slice of the primitive that the ring program has there: same kind, same elements |
| RingAllReduce.StoredOnce | src/device/all_reduce.h:58-81 | every element is stored exactly once per rank, by the reducing, forwarding or receiving primitive of its chunk |
| RingAllReduce.ReadBeforeStored | src/device/all_reduce.h:42-81 | in place, each element is read as input not later than it is stored |
| RingAllReduce.LockStepMem | src/device/all_reduce.h:32-82 | a rank's buffers after any number of slices, in closed form |
| RingAllReduce.AllReduceCorrect | src/device/all_reduce.h:32-82 | when a run ends, element e of the part has on every rank the same value, the fold of all inputs round the ring starting behind its chunk's index; everything outside the part is unchanged |
| RingAllReduce.ResultIsPlainReduction | src/device/all_reduce.h:32-82 | with an associative and commutative operator that value is the plain reduction over user ranks 0 to n-1, whatever their order on the ring |
| RingFold.PlainRearranged | src/device/all_reduce.h:51-65 | a reduction with such an operator gives the same over any rearrangement of its inputs |
| RingFold.AroundIsPlainByRank | src/device/all_reduce.h:51-65 | so once round the ring, from any place, is the plain reduction by rank |
| RingBlocks.Locate | src/device/all_gather.h:43-45 | every element of a block's part is in some loop and slice |
| RingBlocks.TilesOnce | src/device/all_gather.h:43-45 | and in no other |
| RingBlocks.RunAllGather | src/device/all_gather.h:43-71 | the loop issues, turn by turn, one primitive for each rank's block, from the own one back round the ring |
| RingBlocks.RunReduceScatter | src/device/reduce_scatter.h:33-54 | the loop issues one primitive for each rank's block, from the one behind round to the own one |
| RingAllGather.SlicesFollowProgram | src/device/all_gather.h:43-71 | slice i of the state machine is a slice of the primitive that the program has there |
| RingAllGather.OwnInput | src/device/all_gather.h:47-55 | in place, the own block can be read as input at any time |
| RingAllGather.AllGatherCorrect | src/device/all_gather.h:43-71 | in every interleaving, when a run ends every rank's block of every rank holds that rank's input in the channel's part, and nothing else has changed |
| RingReduceScatter.SlicesFollowProgram | src/device/reduce_scatter.h:33-54 | slice i of the state machine is a slice of the primitive that the program has there |
| RingReduceScatter.ReadsInput | src/device/reduce_scatter.h:38-53 | in place, the own block is still the input when it is read |
| RingReduceScatter.ReduceScatterCorrect | src/device/reduce_scatter.h:33-54 | in every interleaving, when a run ends each rank's output holds in the channel's part the fold of all ranks' contributions to its block, and nothing else has changed |
| RingReduceScatter.ResultIsPlainReduction | src/device/reduce_scatter.h:33-54 | with an associative and commutative operator that fold is the plain reduction over user ranks 0 to n-1 |
| ChainPipeline.ReadIsHanded | src/device/prims_simple.h:184-319 | on the chain of Broadcast and Reduce, too, what a slice finds in its FIFO slot is what the previous place's slice produced |
| ChainPipeline.ChainRunsKeepInv | src/device/prims_simple.h:109-181 | polls, copies and posts keep the invariant: no slice that its receiver has not released is overwritten |
| ChainPipeline.EveryChainRunRefines | src/device/prims_simple.h:109-319 | in every interleaving each place's memory is what message passing without FIFOs would have produced |
| ChainPipeline.ChainNeverStuck | src/device/prims_simple.h:109-181 | every reachable state that is not final has a place that can step, whatever the size of the FIFO: a chain has no cycle to wait in |
| ChainPipeline.ChainRunsAreBounded | src/device/prims_simple.h:109-181 | every run ends |
| ChainPipeline.ChainStepsWhenDone | src/device/prims_simple.h:109-181 | in every final state both ends of every connection have advanced by the steps of all slices |
| ChainCollectives.RunBroadcast | src/device/broadcast.h:38-53 | the loop issues, chunk by chunk, a send or copy-send at the root, a receive at the rank before it on the ring and receive-copy-sends elsewhere |
| ChainCollectives.RunReduce | src/device/reduce.h:32-52 | the loop issues sends at the rank after the root, a receive-reduce-copy at the root and receive-reduce-sends elsewhere |
| ChainCollectives.SlicesFollowProgram | src/device/prims_simple.h:184-319 | the slices of the model are those of the calls that these loops issue, and read, store, receive and send as the calls do |
| ChainCollectives.StoredOnce | src/device/broadcast.h:38-40 | every element of the part is in exactly one slice of a place's program |
| ChainCollectives.OwnData | src/device/reduce.h:39-45 | with one buffer for input and output the root's data is read before it is overwritten |
| ChainCollectives.MadeIsValue | src/device/reduce.h:46-52 | each place adds its contribution to the reduction of the places before it, or hands the root's data on |
| ChainCollectives.BroadcastCorrect | src/device/broadcast.h:13-62 | in every interleaving every rank ends with the root's data on the channel's part, in place or not, and nothing else has changed |
| ChainCollectives.ReduceCorrect | src/device/reduce.h:13-53 | in every interleaving the root ends with the reduction of all ranks' data in ring order, and no other output has changed |
| ChainCollectives.ReduceIsPlain | src/device/reduce.h:13-53 | with an associative and commutative operator that is the plain reduction over the user ranks |
| LowLatency.MaskSelectsRuns | src/include/device.h:75-79 | the cleanup mask selects the last eight steps of every 2^31, in machine arithmetic |
| LowLatency.CleanedRecently | src/include/device.h:75-79 | the mask selects a step of every slot within one period; whether the sender cleans it is up to the protocol of that step |
| LowLatency.CleanStepsCover | src/device/prims_ll.h:80-87 | if all selected steps are LL steps and period plus lead is below the number of flags, every two LL steps of one slot and flag have a cleanup between them, early enough |
| LowLatency.FlagMatchesOnlyItsStep | src/device/prims_ll.h:39-44 | if cleanups come in time, a line of the reader's slot shows the expected flag in a reachable state only if it was written for that very step |
| LowLatency.AcceptedIsSent | src/device/prims_ll.h:89-100 | then a line that the reader accepts holds the value stored for the step it reads |
| LowLatency.RunsKeepInv | src/device/prims_ll.h:56-100 | waits, stores, cleanups, reads and posts of LL, and the steps that other protocols take on the same counter, keep the invariant over unbounded runs: no unread slot is overwritten |
| LowLatency.RunReadsRight | src/device/prims_ll.h:224-298 | every run in which cleanups come in time, with the reader at most `lead` steps ahead, reads only right values |
| LowLatency.NeverStuck | src/device/prims_ll.h:56-100 | some step is always possible |
| LowLatency.StaleLineIsAccepted | src/device/prims_ll.h:89-100 | a line that nobody has rewritten since a step with the reader's slot and flag is accepted, in an explicit run |
| LowLatency.LateReaderIsFooled | src/device/prims_ll.h:56-100 | where a cleanup does not come in time, traffic of two lines and a run make a reader accept a stale one |
| LowLatency.SafeIffCovered | src/device/prims_ll.h:302-366 | for every mix of protocols on the connection: reads are right for all sizes and data if and only if cleanups come in time between LL steps of one slot and flag |
| LowLatency.SafeIffDistinguishes | src/device/prims_ll.h:56-100 | on a connection that only LL uses, that is so if and only if period plus lead is below the number of flags |
| LowLatency.SourceConstants | src/include/device.h:71-79 | the production and the test constants meet the condition for a lead below one cleanup period, if all selected steps are LL steps |
| LowLatency.LeadIsBounded | src/device/prims_ll.h:224-298 | a reader that is ahead has only steps behind it in which it need not wait, so traffic that makes it wait at least every `lead` steps bounds how far it gets ahead |
| LowLatency.FreeRunReadsRight | src/device/prims_ll.h:224-298 | with such traffic, and cleanups in time, every run reads only right values although nothing holds the reader back |
| LowLatencyRing.AllReduceLoop | src/device/all_reduce.h:32-82 | chunk 0 is sent in every loop of a ring AllReduce and never empty, and no chunk has more lines than a step |
| LowLatencyRing.BlockLoop | src/device/all_gather.h:43-71 | every loop of AllGather and ReduceScatter has lines in all its primitives, and no more than a step |
| LowLatencyRing.RingIsPaced | src/device/all_reduce.h:32-82 | ring collectives of any protocol that follow each other on a connection, with Simple rounding the counter up, make the reader wait at least once in two loops |
| LowLatencyRing.RingReadsRight | src/device/prims_ll.h:302-366 | so with the constants of the library every run of such a connection, of any length, reads only right values if cleanups come in time between LL steps of one slot and flag |
| LowLatencyRing.CleanWindowsSuffice | src/device/prims_ll.h:80-87 | they do if all steps that the mask selects are LL steps |
| LowLatencyRing.MixedTrafficIsFooled | src/device/prims_simple.h:495-496 | they need not otherwise: small LL collectives, and a Simple one whenever the mask selects steps, leave a line uncleaned for 2^32 steps, and its reader accepts it, although period plus lead is below the number of flags |
| StepCount.LoopPrimitives | src/device/all_gather.h:43-71 | primitives of one loop that send or receive, for each ring collective and position on the chain |
| StepCount.RunRing | src/device/reduce_scatter.h:33-54 | the device loop advances the connections it uses by the steps of all slices of all its primitives, whatever their element counts |
| StepCount.PrimitiveSteps | src/device/prims_simple.h:184-319 | a primitive posts the steps of a whole chunk however few elements it moves, also none |
| StepCount.HostLoops | src/enqueue.cc:2132-2139 | the planned step count is the steps of one loop times the number of loops of full chunks |
| StepCount.StepsAgreeIff | src/enqueue.cc:2101-2139 | planned and performed steps agree for every count if and only if the chunk has fewer than 2^21 grains |
| StepCount.RingStepsAreHostSteps | src/enqueue.cc:2101-2139 | in every final state of every ring AllReduce, AllGather or ReduceScatter, sender and receiver of each connection have advanced by the device's steps, which are the planned ones if the chunk fits its field |
| StepCount.ChainStepsAreHostSteps | src/enqueue.cc:2101-2139 | so they have in every final state of every Broadcast or Reduce chain |
| StepCount.AllReduceHasRingShape | src/device/all_reduce.h:32-82 | the AllReduce parts of the data theorem are such rings, and are live |
| StepCount.BlocksHaveRingShape | src/device/all_gather.h:43-71 | so are the AllGather and ReduceScatter parts |
| StepCount.Truncated | src/include/device.h:275-279 | with more grains they disagree for the count of one full loop |
| StepCount.TruncationExample | src/include/device.h:275-295 | an LL buffer of 512 MiB makes the device loop endless |
| ReduceCopy.CountHunks | src/device/common_kernel.h:41-62 | the collective position after a pass, a partial hunk included |
| ReduceCopy.MoveHunk | src/device/common_kernel.h:81-192 | one iteration of a thread touches the packs of its lane in its warp's hunk |
| ReduceCopy.ReduceCopyPacks | src/device/common_kernel.h:29-205 | a pass's loop runs exactly the thread's active iterations, moves the collective position over the whole pass and renumbers the thread by rotating warps |
| ReduceCopy.OwnerMoves | src/device/common_kernel.h:41-205 | every byte of a pass is moved by the thread, iteration and unroll step that division gives |
| ReduceCopy.OwnerUnique | src/device/common_kernel.h:41-205 | and by no other |
| ReduceCopy.RotationInverts | src/device/common_kernel.h:195-205 | the renumbering is a permutation of the threads: warps rotate by the number of hunks, lanes stay |
| ReduceCopy.NarrowPasses | src/device/common_kernel.h:255-267 | the two passes with single elements |
| ReduceCopy.ReduceCopyThread | src/device/common_kernel.h:207-267 | all passes of one thread follow the pass list for the given alignment and unrolling |
| ReduceCopy.TouchedExactlyOnce | src/device/common_kernel.h:207-267 | over any list of passes that ends with single elements, a byte is touched by exactly one thread, pass, iteration and unroll step |
| ReduceCopy.CopyTouchesEveryByteOnce | src/device/common_kernel.h:207-267 | for every length, element size, unrolling, alignment and number of warps, reduceCopy touches each byte exactly once |
| ReduceCopy.LoggedIffTouches | src/device/common_kernel.h:207-267 | what the threads' loops log is what the touch relation says |
| WorkBatch.Clashes | src/enqueue.cc:119-124 | the scan for an equal round finds one if and only if there is one |
| WorkBatch.WipChannel.constructor | src/enqueue.cc:1462-1462 | a channel of a new plan is empty |
| WorkBatch.WipChannel.AddWorkBatchToPlan | src/enqueue.cc:99-164 | appending a work item in place: a new batch, an extension batch or one more bit, with the counters of the fused batch |
| WorkBatch.WipChannel.EnterWork | src/enqueue.cc:157-163 | the item sets its bit in the last batch and is counted in the fused batch's bytes and rounds |
| WorkBatch.BatchesDecode | src/enqueue.cc:99-164 | decoding a channel's batches gives the appended items in order; fused batches have one type and function, at most 1024 bytes, at most 8 point-to-point works and no round twice |
| PlanLayout.LayOut | src/enqueue.cc:204-227 | the round-robin loops place every batch of the marked channels once, link each to its channel's next, and put the first one of the n-th marked channel at index n |
| PlanLayout.Deal | src/enqueue.cc:215-222 | one batch goes to the end of the layout and is linked from the channel's previous one |
| PlanLayout.Serve | src/enqueue.cc:214-225 | one channel's turn: it gets a batch if it has one left, and is unmarked once it has none |
| PlanLayout.DealRound | src/enqueue.cc:211-226 | one round over the marked channels in ascending order keeps the layout sound and the first row in place, and makes progress |
| PlanLayout.PlaceBatches | src/enqueue.cc:204-227 | layout and its inverse: following the jumps from index n gives back the batches of the n-th marked channel |
| PlanLayout.PlacedIsChained | src/enqueue.cc:217-221 | as long as the batches fit the 14-bit jump field, following the jumps visits a channel's batches in order |
| PlanLayout.PlacedCount | src/enqueue.cc:204-227 | nothing is placed beyond the plan's batch count, and with all channels marked nothing is dropped |
| PlanLayout.BlockChannel | src/device/common.h:348-355 | the block with number n finds the n-th set bit of the channel mask, and only that one |
| WorkStorage.PackSlotsDiffer | src/enqueue.cc:1186-1214 | packs of a plan that fits the buffer go to different addresses in all three storage kinds, also across the wrap of cursor and ring |
| WorkStorage.UploadStruct | src/enqueue.cc:1231-1239 | copying one work struct in 16-byte packs |
| WorkStorage.Upload | src/enqueue.cc:1226-1241 | afterwards every pack of every work struct is at its address, and no other cell has changed |
| WorkLoad.FindSet | src/device/common.h:138-156 | the table of set bits that the lanes fill in two halves lists all of them in ascending order |
| WorkLoad.Rotate | src/device/common.h:228-231 | moving on by 64 threads keeps the thread numbers a permutation |
| WorkLoad.LoadPacks | src/device/common.h:158-226 | each thread copies one pack, and together they copy the batch's packs to consecutive places of shared memory |
| WorkLoad.LoadBatch | src/device/common.h:131-226 | one relocated batch adds exactly its work structs behind what shared memory holds |
| WorkLoad.ReadIsPackSlot | src/device/common.h:215-221 | the device's address for a pack of a relocated batch is where the host put it |
| WorkLoad.LoadWorkBatch | src/device/common.h:131-243 | a batch and its extensions fill shared memory with exactly the structs of the fused batch, in order, and lead to the next batch or to none |
| WorkLoad.RunBlock | src/device/common.h:348-415 | a block runs exactly the fused batches of its channel, in order |
| WorkLoad.RunFrom | src/device/common.h:396-415 | the kernel loop runs the fused batches one by one and stops after the last |
| PlanRoundTrip.RunPlan | src/device/common.h:348-415 | the whole round trip: from any appends of a plan within its budget, over layout, relocation and upload, for every storage, the n-th block runs the n-th channel and loads its work structs in append order |
| PlanRoundTrip.JumpsFit | src/enqueue.cc:286-295 | a plan within 4 KB of arguments has at most 254 batches, so every jump fits its 14-bit field |
| RingSize.PowerOfTwoApart | src/enqueue.cc:1196-1196 | with a power of two, masked cursors less than the size apart differ |
| RingSize.OthersCollide | src/init.cc:491-496 | any other size folds two 16-byte packs of one plan onto each other |
| RingSize.RingKeepsApartIff | src/init.cc:491-496 | the ring keeps what fits in it apart if and only if its size is a power of two |
| CollSplit.SplitCells | src/enqueue.cc:613-636 | low, middle and high cells add up, the low part is not empty, no divisor is zero, and the channels used exist even after the overflow correction |
| CollSplit.CountElements | src/enqueue.cc:637-642 | elements of the parts add up to the count, and parts start on cell boundaries |
| CollSplit.SplitTask | src/enqueue.cc:605-689 | one task: its split, and the planner's position stays on an existing channel with room left unless it is the last one |
| CollSplit.KindIsCounted | src/enqueue.cc:547-550 | every task counts its kind: at least one channel and the minimum traffic |
| CollSplit.EstimateColls | src/enqueue.cc:530-555 | the estimate takes the most tasks that fit at four to a batch, sums the traffic of each kind, and caps its channels once and for all; every kind among the taken tasks has a channel, so no share divides by zero |
| CollSplit.Share | src/enqueue.cc:565-567 | a kind's share is at least the minimum |
| CollSplit.PlaceNext | src/enqueue.cc:564-689 | one turn: a new kind starts over with its own share, and the task finds its channels |
| CollSplit.PlaceFollows | src/enqueue.cc:564-571 | the channels found continue where the last task of the kind ended |
| CollSplit.ScheduleColls | src/enqueue.cc:526-689 | for every sequence of tasks and every budget: as many as were estimated enter the plan unless the next one's worst case does not fit; each is tiled by its channels' parts on existing channels, or runs whole if it is a CollNet one, and tasks of a kind take channels without gaps |
| CollSplit.ScheduleQueue | src/enqueue.cc:526-777 | run on the planner's queue, this meets the contract that the planning loop has from `Planner.ScheduleColls`, for any bound on the channels of a task: queue order, budget, and a first task that fits is taken |
| CollSplit.FirstIsTaken | src/enqueue.cc:530-610 | a first task that fits an empty plan with all its channels is in the estimate and in the plan |
| CollSplit.ProxyParts | src/enqueue.cc:691-707 | the proxies are told the offsets and sizes that the device computes |
| CollSplit.PartsFollow | src/include/device.h:297-323 | the five numbers of a split describe parts that follow each other from the first element to the last |
| CollSplit.ElementHasChannel | src/include/device.h:297-323 | every element is in the part of some channel |
| CollSplit.ElementHasOneChannel | src/include/device.h:297-323 | and of only one |
| PlanLoop.FinishedPlanFits | src/enqueue.cc:192-199 | a plan within its budget fits the kernel arguments with its batches, and its work fits there too or within the outside budget |
| PlanLoop.BuiltScheduleOk | src/init.cc:1116-1170 | the computed schedule meets every peer in both directions, and itself in one round |
| PlanLoop.SweepMeetsAll | src/enqueue.cc:1057-1062 | a sweep that found nothing has looked at every queue |
| PlanLoop.AddP2p | src/enqueue.cc:1087-1091 | a task whose worst case fits leaves the plan within its budget |
| PlanLoop.Planner.TakeRound | src/enqueue.cc:1104-1113 | taking a round's tasks keeps the order of all queues and the balance of sends and receives to self, and records a skip exactly for an in-place copy to self |
| PlanLoop.Planner.ServeRound | src/enqueue.cc:1058-1114 | one round: both heads are planned, or skipped exactly if they are an in-place copy to self, refused if self is unmatched, or left when the plan is full |
| PlanLoop.Planner.Sweep | src/enqueue.cc:1058-1115 | a sweep that ends has taken at least one task |
| PlanLoop.Planner.ScheduleP2p | src/enqueue.cc:1037-1118 | every queue loses a prefix in order; only sends to self are skipped, each with the receive it matches and exactly if both are the same buffer; it ends when nothing is left or the next task might not fit, and plans nothing at all if one task does not fit an empty plan |
| PlanLoop.Planner.EstimateColls | src/enqueue.cc:530-555 | the estimate admits a first task that fits |
| PlanLoop.Planner.ScheduleColls | src/enqueue.cc:526-777 | collectives enter the plan in queue order, and at least one does if the worst case of the first fits an empty plan |
| PlanLoop.Planner.PlanOnce | src/enqueue.cc:1461-1487 | one plan takes tasks, point-to-point ones only when no collective is left, and stays within the budget |
| PlanLoop.Planner.PlanNext | src/enqueue.cc:1453-1493 | one turn of the planning loop: the plan is queued if it holds work, and less is left to do |
| PlanLoop.NothingDropped | src/enqueue.cc:1058-1114 | once all queues are empty, the plans hold every queue in full and in order, except for the sends and receives to self whose partner is the same buffer |
| PlanLoop.Planner.LaunchPrepare | src/enqueue.cc:1453-1493 | planning ends; it succeeds if and only if sends and receives to self match; then the plans hold all collectives in order and every point-to-point queue in full and in order, in-place copies to self left out, collectives before point-to-point, and every plan fits |
| P2pSchedule.TriInjective | src/init.cc:1139-1142 | triangular numbers are different modulo a power of two over one period |
| P2pSchedule.DeltasArePermutation | src/init.cc:1139-1163 | so the quadratic updates enumerate every delta once |
| P2pSchedule.BuildTables | src/init.cc:994-1013 | node tables and local ranks: each node lists its ranks in order |
| P2pSchedule.NumberLocals | src/init.cc:994-998 | a rank's local rank is the number of lower ranks on its node |
| P2pSchedule.FillTables | src/init.cc:1005-1009 | filling the tables lists each node's ranks in order |
| P2pSchedule.Uneven | src/init.cc:1123-1131 | the scan decides whether some node has fewer ranks than the largest |
| P2pSchedule.TablesFormGrid | src/init.cc:994-1013 | with equally large nodes, ranks and (node, local rank) pairs correspond one to one |
| P2pSchedule.LocalRounds | src/init.cc:1147-1159 | the inner loop adds the rounds of one node delta |
| P2pSchedule.NextDelta | src/init.cc:1158-1158 | the quadratic update leads from one triangular number to the next, modulo the period |
| P2pSchedule.NodeRounds | src/init.cc:1144-1160 | a node delta that makes sense adds its rounds, any other none |
| P2pSchedule.NextRow | src/init.cc:1143-1163 | one turn of the outer loop |
| P2pSchedule.AllRounds | src/init.cc:1136-1163 | the outer loop adds the rounds of all node deltas |
| P2pSchedule.BuildSchedule | src/init.cc:1116-1170 | the schedule has one round per rank in hierarchical and in flat mode, so the final check cannot fail |
| P2pSchedule.PeersArePermutations | src/init.cc:1116-1170 | send peers and receive peers are each a permutation of all ranks |
| P2pSchedule.RoundsMatch | src/init.cc:1116-1170 | in every round a sends to b if and only if b receives from a, and a rank meets itself in both directions at once |
| ProxyMerge.LeastHead | src/enqueue.cc:244-252 | the scan picks the least id with the tag bit moved to the top, the lowest channel of several, and never an empty channel |
| ProxyMerge.ScanHeads | src/enqueue.cc:231-240 | the first pass records every channel's head id, the number of channels with one and a bound on them |
| ProxyMerge.TakeLeast | src/enqueue.cc:243-259 | one step moves the least head to the output |
| ProxyMerge.Merge | src/enqueue.cc:229-259 | the merge keeps every channel's operations in order, drops none, and sorts by kind, id and channel if the channels are sorted, which `ProxyPlan.MakePlan` shows they are |
| ProxyMerge.MergedIsOk | src/enqueue.cc:1316-1325 | in a sorted list the point-to-point ids of a channel never fall, which is what the upload relies on |
| ProxyMerge.UploadProxyOps | src/enqueue.cc:1297-1337 | an upload hands operations over under translated ids that lie between the history before and after |
| ProxyMerge.UploadAll | src/enqueue.cc:1297-1337 | any sequence of uploads, replays included, makes a history of such steps |
| ProxyMerge.UploadsNeverCollide | src/enqueue.cc:1316-1335 | ids of a later upload are larger: per channel for point-to-point, globally for collectives |
| ProxyMerge.TranslateKeepsOrder | src/enqueue.cc:1316-1325 | within an upload the ids are ordered and equal exactly as in the plan |
| ProxyPlan.AddCounts | src/enqueue.cc:149-153 | the point-to-point batch count of a channel rises exactly when an item starts a batch, so fused works share an id |
| ProxyPlan.WipPlan.AddColl | src/enqueue.cc:592-604 | a collective takes the next even id on all its channels and appends its operations behind all others |
| ProxyPlan.WipPlan.AddPart | src/enqueue.cc:964-1021 | a part of a point-to-point work settles in a batch first and gives its operations that batch's odd id |
| ProxyPlan.WipPlan.AddP2p | src/enqueue.cc:960-1024 | a point-to-point work enters all its channels |
| ProxyPlan.MakePlan | src/enqueue.cc:183-259 | a plan built from any collectives and then any point-to-point works has sorted lists, collective ids below its count, and a sorted merged list with every channel's operations in order |
| ProxyPlan.PlanAndUpload | src/enqueue.cc:1297-1337 | any plans, built and uploaded one after the other: no id is ever given twice, and no operation is lost or reordered on its channel |
| ProxySlots.InitInv | src/proxy.cc:1353-1359 | the pool as set up satisfies the invariant |
| ProxySlots.PoolCanBeSetUp | src/proxy.cc:1348-1359 | a pool can be set up for every number of ranks and operations, so there are runs to speak of |
| ProxySlots.SwapKeeps | src/proxy.cc:496-504 | taking the shared free list by compare-and-swap moves it whole to the private list, or retries; it never yields an empty list |
| ProxySlots.AppendKeeps | src/proxy.cc:491-515 | filling a slot moves it from the private list to the end of the pending chain |
| ProxySlots.CutIs | src/proxy.cc:516-530 | the scan of a full chain finds the last operation whose id differs from the last one's |
| ProxySlots.OverflowKeeps | src/proxy.cc:516-541 | cutting and posting a full chain moves exactly the operations up to there to the posted chain |
| ProxySlots.StartKeeps | src/proxy.cc:973-983 | starting moves the whole pending chain to the end of the posted one |
| ProxySlots.GrabKeeps | src/proxy.cc:784-803 | the progress thread takes the whole posted chain |
| ProxySlots.DrainKeeps | src/proxy.cc:813-837 | a consumed slot goes to the front of its home rank's freed list |
| ProxySlots.LinkKeeps | src/proxy.cc:839-847 | linking a freed list to the shared head just read keeps all other lists |
| ProxySlots.GiveKeeps | src/proxy.cc:848-859 | giving back, by store or by compare-and-swap, puts the freed slots in front of the shared list, and losing the race leaves it empty, never replaced |
| ProxySlots.StepKeeps | src/proxy.cc:470-861 | every step of any rank and of the progress thread keeps the invariant and moves whole lists or prefixes |
| ProxySlots.PoolIsSafe | src/proxy.cc:470-861 | in every run each slot is in exactly one of the six kinds of lists, once, with ranks keeping their own slots, and the internal error of the compare-and-swap is never reached |
| ProxySlots.ProgressNeverStuck | src/proxy.cc:779-861 | the progress thread can always take its next step, and every index it follows is a slot |
| ProxySlots.RankNeverStuck | src/proxy.cc:483-545 | a rank can append, fetch or post, unless none of its slots is free or a full chain has one id only |
| ProxyOrder.ConsumedInOrder | src/proxy.cc:470-861 | in every run a rank's operations are consumed in append order, none twice, and a contiguous run of one id between two starts is consumed in one drain |
| ProxyOrder.HistoryHolds | src/proxy.cc:470-861 | the history of every run: what is in the chains is what was appended and not yet consumed, and no id's run is in two chains |
| ProxyOrder.EndGroups | src/proxy.cc:813-820 | a drain stopped by the batch limit leaves nothing over of the runs it has taken from |
| ProxyOrder.PostGroups | src/proxy.cc:516-541 | an early post never separates operations of one run |
| ProxyRun.RunsAreDrained | src/proxy.cc:778-861 | in every run the log of consumed operations goes drain by drain, and a group is drained as a whole |
| ProxyRun.AppendOne | src/proxy.cc:433-468 | within a drain an operation is refused, if its element has room, only when nothing of this drain is on its connection yet |
| ProxyRun.AppendDrains | src/proxy.cc:778-861 | drains that append and passes that progress, in any alternation: an operation meets a running element only if it is the first of its group on its connection, so no group is torn apart by the progress thread |
| ProxyArgs.Progress.Reserve | src/proxy.cc:200-218 | an empty pool grows without touching what is in progress |
| ProxyArgs.Progress.constructor | src/proxy.cc:200-202 | at first nothing is in progress and the pool is empty |
| ProxyArgs.Progress.LastActive | src/proxy.cc:460-462 | the walk along the active list ends at its last element |
| ProxyArgs.Progress.Allocate | src/proxy.cc:219-223 | the first element of the pool is taken and its links are cleared; nothing in progress changes |
| ProxyArgs.Progress.AppendPeer | src/proxy.cc:443-449 | an operation for a busy append pointer becomes the last element of its chain |
| ProxyArgs.Progress.AppendActive | src/proxy.cc:450-466 | an operation for an idle append pointer becomes the last active element |
| ProxyArgs.Progress.AppendSub | src/proxy.cc:358-398 | an operation with the id of the last element joins it, unless it is full or running, which is an internal error |
| ProxyArgs.Progress.ProxyAppend | src/proxy.cc:433-468 | each append adds the operation at the end of its append pointer's queue, alone or in the last group, and no other queue changes |
| ProxyArgs.Progress.RemoveOp | src/proxy.cc:724-753 | a finished element leaves the front of its queue, its next peer takes its place in the active list, and it returns to the pool |
| ProxyArgs.Progress.Started | src/proxy.cc:759-771 | an element that has not finished stays in place and is running |
| ProxyArgs.Progress.Visit | src/proxy.cc:758-773 | one element's chance to progress: it runs on or leaves the front of its queue, and where the pass goes on |
| ProxyArgs.Progress.ProgressOps | src/proxy.cc:756-775 | a pass visits the first element of every queue once: afterwards it is running, or gone with the next one in its place, and nothing else has changed |
| ProxyArgs.ChainedKeeps | src/proxy.cc:443-449 | behind that: each element is in the pool or in one chain, append pointers are null or name the last element, only first elements have a successor in the active list |
| ProxyArgs.ActivatedKeeps | src/proxy.cc:450-466 | the same for a new active element |
| ProxyArgs.RemovedKeeps | src/proxy.cc:724-753 | the same for a removed element, with or without a next peer |
| ProxyArgs.GrownKeeps | src/proxy.cc:200-218 | the same for a larger pool |
| Bootstrap.Intervals | src/bootstrap.cc:47-77 | the roots' shares are consecutive non-empty intervals that cover all ranks |
| Bootstrap.RootOwnsRank | src/bootstrap.cc:52-61 | the root computed from a rank has the rank in its interval |
| Bootstrap.RootUnique | src/bootstrap.cc:52-61 | and is the only one |
| Bootstrap.HandleCheckIn | src/bootstrap.cc:350-376 | one check-in at a root: forward to a waiting predecessor, answer if the successor is known, else keep for later |
| Bootstrap.CollectOne | src/bootstrap.cc:345-376 | one turn: a mismatched header and a repeated check-in end the loop, any other check-in is handled |
| Bootstrap.CollectLoop | src/bootstrap.cc:324-379 | the loop over check-ins does these turns in order of arrival, up to the first that ends it |
| Bootstrap.RefusedForReason | src/bootstrap.cc:345-355 | the loop ends with a mismatch or a repeated check-in only if there is one |
| Bootstrap.AllCollected | src/bootstrap.cc:324-379 | distinct check-ins of everyone are all taken, and after each of them a rank has been answered exactly if both it and its successor have checked in |
| Bootstrap.Collect | src/bootstrap.cc:324-394 | for every order of distinct check-ins a root answers each rank of its share exactly once with its successor's info, and reports mismatched or repeated check-ins only if there are some |
| Bootstrap.EveryoneServed | src/bootstrap.cc:383-394 | so the closing sweep has nothing left to send |
| Bootstrap.Sweep | src/bootstrap.cc:387-394 | the sweep answers, in rank order and once each, exactly the ranks whose address is still kept together with their successor's info, with that info |
| Bootstrap.BootstrapRoot | src/bootstrap.cc:324-394 | the same from the ranks' messages, header comparison included |
| Bootstrap.RankCheckIns | src/bootstrap.cc:783-822 | a rank visits, once each, exactly the roots' slots that stand for it: its own place at its own root and, if it is the first of its root, the extra place at the previous one |
| Bootstrap.VisitsFillRoots | src/bootstrap.cc:783-822 | every visit lands in a slot that stands for the visiting rank |
| Bootstrap.RootsAreVisited | src/bootstrap.cc:783-822 | every slot of every root is visited |
| Bootstrap.RankHearsItsSuccessor | src/bootstrap.cc:47-77 | whatever the number of roots, rank r is one root's own, and that root's answer to it is the info of the next rank on the ring: the roots build one cycle |
| Bootstrap.AroundTheRing | src/bootstrap.cc:47-77 | the next rank on the ring is rank (r+1) mod n |
| Bootstrap.MailIs | src/bootstrap.cc:783-822 | all that the ranks write to a root is one letter for each of its local ids |
| Bootstrap.InboxIsComplete | src/bootstrap.cc:324-350 | so in any order of arrival the local ids at a root are all of them, each once |
| Bootstrap.RunRoot | src/bootstrap.cc:324-394 | whatever the order of its letters, a root collects them all and answers its ranks, each with the next rank's info |
| Bootstrap.Rendezvous | src/bootstrap.cc:324-394 | whatever the order of the letters at each root, all roots collect, and their replies together are exactly one for each rank r, with the info of rank (r+1) mod n |
| Bootstrap.EachRankHearsOnce | src/bootstrap.cc:324-394 | with addresses of their own, each rank finds exactly one reply, and it is the right one |
| Barrier.FindFirst | src/bootstrap.cc:1053-1073 | the walk over unexpected connections removes the first match and keeps the order of the rest |
| Barrier.RoundOfPair | src/bootstrap.cc:1205-1221 | two ranks talk in at most one round, so peer and tag never confuse rounds |
| Barrier.StepKeepsBalance | src/bootstrap.cc:1088-1106 | for each pair, messages sent are those received, queued as unexpected or on their way, over any number of successive barriers |
| Barrier.RoundsHeard | src/bootstrap.cc:1205-1221 | after k rounds a rank has heard from its 2^k - 1 predecessors |
| Barrier.NobodyLeavesEarly | src/bootstrap.cc:1205-1221 | in every run, with any delays, no rank leaves a barrier that some rank has not entered |
| Barrier.EveryoneGetsOut | src/bootstrap.cc:1205-1221 | once every rank has entered a barrier, some rank inside it can always send, receive or leave, until none is left inside |
| RedOpSlab.MangleTwice | src/include/comm.h:741-757 | scrambling a handle is its own inverse, stays in range, and keeps user operators apart from built-in ones |
| RedOpSlab.RedOps.Grow | src/enqueue.cc:2541-2553 | growing preserves all live operators and chains the new slots up to the new capacity |
| RedOpSlab.RedOps.constructor | src/include/comm.h:620-621 | at first there are no slots |
| RedOpSlab.RedOps.TakeSlot | src/enqueue.cc:2541-2560 | a slot that was not live is taken from the free list, which grows first if it is empty; all live operators stay |
| RedOpSlab.RedOps.Create | src/enqueue.cc:2541-2572 | a created operator gets a slot that was not live, all others stay; the error for a bad type size leaves a slot taken |
| RedOpSlab.RedOps.Destroy | src/enqueue.cc:2575-2607 | destroying succeeds exactly for handles of live operators and removes just that one |
| RedOpSlab.PopKeeps | src/enqueue.cc:2554-2559 | taking the head of the free list keeps it a list through exactly the free slots, ending at the capacity |
| RedOpSlab.PushKeeps | src/enqueue.cc:2601-2603 | so does giving a slot back |

## Left out

- RingAllGather.AllGatherCorrect: the offload that copies the own block in other warps is not modelled; buffers are sequences of blocks.
- RingAllReduce.AllReduceCorrect: direct, NVLS, multimem, CollNet, tree and PAT variants and registered buffers are not modelled; all primitives go through the FIFOs.
- RingPipeline.NeverStuck: aborts are not modelled, and fences are taken to make each step atomic.
- LowLatency.SafeIffCovered: one connection; several receive or send peers of one primitive are independent copies of it.
- LowLatency.RunReadsRight: the reader is at most `lead` steps ahead; `LowLatency.FreeRunReadsRight` has no such limit.
- LowLatencyRing.RingReadsRight: the traffic is that of ring collectives; tree and point-to-point LL traffic falls under `LowLatency.SafeIffCovered` only.
- ProxyPlan.WipPlan.AddColl: which operations need a proxy is any choice; the counts stay within 32-bit integers.
- StepCount.StepsAgreeIff: overflow of the `int` loop count is not modelled.
- ChainCollectives.BroadcastCorrect: the offload that copies the root's data in other warps is not modelled.
- WorkBatch.BatchesDecode: offsets of a channel's items rise, as the plan's byte counter does.
- WorkStorage.Upload: room in the work ring buffer is assumed; waiting for and counting consumed work are not modelled.
- PlanRoundTrip.RunPlan: the channels are built with the function that `AddWorkBatchToPlan` is proved to compute.
- CollSplit.ScheduleColls: how many new batches a task adds is any number up to its channels; registered ring buffers are not modelled.
- PlanLoop.Planner.LaunchPrepare: how many channels a collective takes and how many batches a task adds are any numbers within their limits; plans of a failed call are dropped.
- ProxySlots.PoolIsSafe: taking the private list over and filling its first slot are two steps instead of one; a rank has one thread.
- ProxyOrder.ConsumedInOrder: a full chain whose operations all have one id is refused by the code and ends that rank's run.
- ProxyArgs.Progress.ProxyAppend: mismatching parameters of aggregated operations, which are an internal error, are not compared.
- ProxyArgs.Progress.ProgressOps: what an element's own progress function does is not modelled; it may finish or not.
- Bootstrap.Collect: a repeated check-in is detected only while the first one is still kept, so distinct check-ins are a premise of the main clause, which `Bootstrap.Rendezvous` discharges.
- Bootstrap.Rendezvous: every letter arrives, and addresses and connect information are not all zeros.
- RedOpSlab.RedOps.Create: the slot array stays below 2^29 entries; the copied scalar is one value.
- Point-to-point part bounds and their 8-bit size codec.
- Tuning and cost tables, topology search, transports, network plugins, registration, profiling, logging and error cleanup.

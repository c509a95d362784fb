# Verified model of Siphon and the Qwen3.5 forward pass

Four parts of the repository are modelled in Dafny, each with the code's own branches and
constants, and with the promises its comments and documents make proved for every input,
every run or every reachable state.

**The ring-buffer loader.** `compute_layout` packs the tensors of many files into chunks laid
lap after lap in one device buffer, and gives every tensor the last chunk that holds its bytes
and the furthest chunk that may be read before it is consumed. `Layout` says what it computes,
`LayoutBuilding` is the same computation on six mutable cursors, proved equal. `LayoutInvariant`
and `LayoutSoundness` prove the global facts, `LayoutBounds` the placement. `LayoutExtents` says
exactly when every chunk stays inside the buffer, `LayoutLimits` that it can fail, `LayoutEmpty`
exactly when a tensor of no bytes can be read, and `LayoutOverlap` exactly when a tensor can be
read in full while the one before it is in use. `Protocol` is the loader's run as a state machine:
transfers write device bytes while the consumer reads; `Loading` is the loader object, whose every
method is a stretch of such a run. `RankSplit` is the division of a chunk over ranks and host
window slots, `HostWindow` the window over whole runs. `Sizing` is the Python code that chooses
depth and buffer, and the buffer set-up it feeds; `SizingMeaning` says what its recommendation is
good for.

**The threads below it.** `Pipeline` is the three-stage accounting of reads (reader, copy thread,
wait thread, completion events taken by whichever task waits). `Executor` is the task executor as
steps on a value, `ExecutorObject` the same steps on fields, and `ExecutorRuns` every interleaving
of them.

**The decode caches.** Floating-point operations are arbitrary functions (`FloatOps`), so two
results are equal only if they are the same operations on the same operands in the same order:
equality means equality of bits. `GdnMixer` and `AttentionSpec` say per batch what the two mixers
compute. `LinearLayer`, `Axes`, `Convolution`, `DeltaRule`, `DeltaForward`, `DeltaPrepare`,
`GdnStages`, `AttentionRows`, `AttentionCache` and `AttentionAttend` are the loops over flat
buffers. `GdnRefinement`, `GdnForward`, `AttentionRefinement` and `Attention` prove that the loops
compute the specifications, and `GdnDecode.Decode` and `Attention.Decode` that a decode in any
chunks, with the state object carried, gives the whole-sequence result. What these functions are
for is stated with exact operations on real numbers (`ExactArithmetic`; rows marked *exactly*):
`DeltaLaws` shows the recurrent state to be a memory from keys to values, `AttentionLaws` and
`RotationLaws` attention to be a weighted mean with relative positions, `FoldLaws` and `GateLaws`
what sums, taps, norms and gates compute.

**Chat rendering and parsing.** `Text` holds the string operations, `ChatTemplate` the template,
`ChatParse` the parser. `ChatRoundTrip` proves exactly which assistant turns the parser recovers,
`ChatReplay` that a conversation renders the same after such a turn was parsed and put back,
`ChatLayout` exactly which texts are the same after being parsed and rendered, and `ChatIdentity`
exactly when the whole conversation is. `ChatHistory` shows that past reasoning is not in the text,
and `ChatReading` with `ChatConversation` that a reader recovers from it who said what.

Where code and documentation differ, the model follows the code:

- `prefetch_chunk_id` is described as the furthest chunk that may be read
  (csrc/siphon/types.hpp:111). The code may stop earlier; safety is proved, not maximality.
- The comment on the padding of the buffer (csrc/loader_common.cpp:80-83) suggests that it absorbs
  every alignment gap. A chunk holding only a file's header remainder can end past the buffer:
  `LayoutExtents.ChunksStayInside` gives the exact condition, `LayoutBounds.ComputeBounded` the
  most it can exceed, and `LayoutLimits.HeaderPastEnd` buffers and files for which it happens.
- A tensor may have no bytes, and then `get_tensor_ptr` can fail although the tensor exists
  (csrc/loader_common.cpp:552-584): `LayoutEmpty.EmptyTensorReached` gives the exact condition.
- The recommended buffer is said to let loading overlap with use (siphon/_impl.py:542-556). The
  bytes next to a tensor suffice for the tensor after it (`SizingMeaning.NeedIsRoom`), but its last
  chunk may carry later tensors too and then reach too far: `LayoutOverlap.NextReached` gives the
  exact condition, `SizingMeaning.SizedNeedOverlaps` the room that suffices, one chunk more, and
  `SizingMeaning.NeedAloneFails` buffers and files for which the recommendation does not.
- Render, parse, render is called the identity (qwen35-forward/gdn/src/chatparse.rs:18-24). Two
  things are meant by that, and the model separates them. The parser *recovers* reasoning, content
  and calls exactly for the sound turns (`ChatRoundTrip.ParseRecovers`): reasoning trimmed and
  without either think tag; content trimmed, and without an opening call tag unless it is not a
  call and no calls follow; names non-empty; names and keys without `>` before a line end and not
  completing the closing call tag with the `>` that follows them; values without the closing call
  tag, and without a closing parameter tag that ends them early. The *text* is the same after
  parsing and rendering exactly for the well laid turns (`ChatLayout.RenderedAgain`), which are
  more: `ChatIdentity.NameCanClose` is a turn that is not recovered and still comes out the same.
  `ChatIdentity.ExtractedContentCanShift` is one that comes out different.

All modules are checked together by `dafny verify dfyconfig.toml`.

## Model

| member | source | states |
|---|---|---|
| Rounding.RoundUpIsDivCeil | csrc/siphon/common.hpp:57-70 | rounding up, stated by alignment and nearness, is the code's division formula |
| Rounding.RoundDownIsQuotient | csrc/siphon/common.hpp:57-70 | so is rounding down |
| Layout.RetireLeftOf | csrc/loader_common.cpp:267-272 | exactly the leading tensors left of the bound get the limit, the loop stopping at the first that is not |
| Layout.AlignedStart | csrc/loader_common.cpp:294-294 | the byte after the pending ones falls on a multiple of 16, fewer than 32 bytes on |
| LayoutInvariant.FinishPreserves | csrc/loader_common.cpp:251-274 | cutting a chunk keeps the whole layout invariant: chunk links, tensors of this lap and the last, limits already given, coverage of every tensor byte |
| LayoutInvariant.ResetBufferPreserves | csrc/loader_common.cpp:275-286 | starting a lap keeps the invariant; the tensors of the lap before last get the latest chunk as limit |
| LayoutInvariant.ResetFilePreserves | csrc/loader_common.cpp:287-295 | starting a file keeps the invariant and the page alignment of chunk offsets |
| LayoutSoundness.PlaceTensorPreserves | csrc/loader_common.cpp:313-334 | laying one tensor, wrapped or not and over any number of chunks, keeps the invariant |
| LayoutSoundness.PlaceTensorRecords | csrc/loader_common.cpp:322-332 | the recorded tensor has the file position it came from; earlier tensors keep their places |
| LayoutSoundness.RunPreserves | csrc/loader_common.cpp:298-335 | the invariant holds after every iteration of the main loop |
| LayoutSoundness.RunFollowsInput | csrc/loader_common.cpp:310-312 | the pending bytes always end where the next boundary begins: the size-mismatch error cannot occur |
| LayoutSoundness.ComputeSound | csrc/loader_common.cpp:217-340 | the finished layout: table matches the input, every tensor covered by linked chunks, every limit safe, limits never falling and at least the last chunk of a tensor with bytes |
| LayoutSoundness.TensorCount | csrc/loader_common.cpp:242-244 | as many tensors are recorded as the resize reserved |
| LayoutSoundness.LimitGivenOnce | csrc/loader_common.cpp:268-285 | a prefetch limit, once given, is never changed |
| LayoutSoundness.LinkedRun | csrc/loader_common.cpp:251-265 | file and device offsets advance alike from the first to the last chunk of a tensor |
| LayoutSoundness.ByteCovered | csrc/loader_common.cpp:246-265 | every byte of every tensor lies in a chunk up to its last one, at matching file and device positions |
| LayoutSoundness.LastByteInLastChunk | csrc/loader_common.cpp:324-332 | the last chunk is the one holding the last byte |
| LayoutSoundness.PrefetchSafety | csrc/siphon/types.hpp:104-113 | a chunk between a tensor's last chunk and its limit writes, padding included, nowhere in the tensor's device interval |
| LayoutBounds.ComputeBounded | csrc/loader_common.cpp:80-86 | tensors and tensor-carrying chunks stay in the buffer with their padding; any other chunk is a header remainder and exceeds it by less than 2*16 plus the padding unit |
| LayoutBounds.HeaderCarriesNothing | csrc/loader_common.cpp:306-320 | such a header remainder holds no byte of any tensor |
| LayoutExtents.ChunksStayInside | csrc/loader_common.cpp:287-320 | no chunk, padding included, leaves the buffer if and only if every later file whose first tensor is off a page boundary opens where one padding unit still fits |
| LayoutExtents.AlignedFilesStayInside | csrc/loader_common.cpp:287-295 | so with page-aligned first tensors in the later files nothing leaves the buffer |
| LayoutBounds.TensorsAligned | csrc/loader_common.cpp:222-227 | non-increasing power-of-two element sizes up to 16 that divide the tensors make every device offset a multiple of its element size, across wraps and files |
| LayoutLimits.HeaderPastEnd | csrc/loader_common.cpp:66-86 | for every page size, a buffer as the set-up chooses it (one rank, chunks of a page, depth 8) and two files with headers for which that condition fails and a chunk ends past the buffer |
| LayoutEmpty.EmptyTensorReached | csrc/loader_common.cpp:322-332 | the last chunk recorded for a tensor of no bytes is within its limit if and only if bytes follow its boundary and the first of them are laid before a wrap, or after one wrap in a chunk that stops short of the tensor |
| LayoutEmpty.OffPageReached | csrc/loader_common.cpp:306-332 | it always is for a tensor that does not lie on a page boundary |
| LayoutEmpty.EmptyTensorStranded | csrc/loader_common.cpp:331-332 | it never is for a lone tensor of no bytes at any multiple of the page: no chunk exists |
| LayoutBuilding.LayoutBuilder.RetireOverwritten | csrc/loader_common.cpp:267-272 | the retiring loop in place equals its specification |
| LayoutBuilding.LayoutBuilder.FinishChunk | csrc/loader_common.cpp:251-274 | the lambda on the six cursors equals its specification; the alignment error cannot occur |
| LayoutBuilding.LayoutBuilder.ResetBufferOffset | csrc/loader_common.cpp:275-286 | the same for starting a lap |
| LayoutBuilding.LayoutBuilder.ResetFile | csrc/loader_common.cpp:287-295 | the same for starting a file |
| LayoutBuilding.LayoutBuilder.CutFullChunks | csrc/loader_common.cpp:324-329 | the loop that cuts full chunks |
| LayoutBuilding.LayoutBuilder.Lay | csrc/loader_common.cpp:322-334 | laying and recording one tensor |
| LayoutBuilding.LayoutBuilder.Step | csrc/loader_common.cpp:300-335 | one pass through the main loop; it refuses exactly the tensors larger than the buffer |
| LayoutBuilding.LayoutBuilder.ComputeLayout | csrc/loader_common.cpp:217-340 | the whole computation on mutable fields yields the specified layout, or the size error |
| Protocol.NextPreserves | csrc/loader_common.cpp:445-584 | every step - post, transfer bytes arriving, a transfer landing, a reap, the consumer moving on - keeps the loader invariant |
| Protocol.RunKeepsInv | csrc/loader_common.cpp:601-611 | so it holds in every state of every run |
| Protocol.ConsumerSeesFileBytes | csrc/loader_common.cpp:563-584 | in every run a tensor not yet passed holds its file's bytes once its last chunk is reaped |
| Protocol.BytesStayUntilAdvance | csrc/loader_common.cpp:527-541 | no step changes those bytes until the consumer moves on, however far reading runs ahead |
| Protocol.SlotsDistinct | csrc/loader_common.cpp:455-469 | no two chunks in flight have the same slot number, which also names their event |
| Protocol.NeverStuck | csrc/loader_common.cpp:552-561 | while the current tensor is incomplete some step is possible |
| Loading.Loader.DeviceWrites | csrc/loader_io_aio.cpp:132-147 | transfers may write device bytes and land at any moment, which is a stretch of the run |
| Loading.Loader.WaitReadChunk | csrc/loader_common.cpp:509-520 | reaps up to the chunk asked for, in order; fails exactly when it was never posted |
| Loading.Loader.PollReadChunk | csrc/loader_common.cpp:496-507 | takes completions in order and stops only where nothing more is posted or the next chunk is not complete |
| Loading.Loader.PostReadChunk | csrc/loader_common.cpp:445-494 | waits for the chunk that had its slot before, or its task slot, and for no other, and then posts the next chunk |
| Loading.Loader.CanStep | csrc/loader_common.cpp:527-541 | says whether reading may run ahead; its two internal errors cannot occur |
| Loading.Loader.TryStep | csrc/loader_common.cpp:543-550 | posts one chunk exactly when allowed |
| Loading.Loader.WaitStep | csrc/loader_common.cpp:552-561 | ends, with the chunk reaped, exactly when the limit reaches it |
| Loading.Loader.GetTensorPtr | csrc/loader_common.cpp:563-584 | each error exactly on its condition; otherwise a pointer behind which the device holds the tensor's file bytes |
| RankSplit.SlicesPartition | csrc/siphon/types.hpp:12-17 | each logical byte of a chunk belongs to exactly one rank's slice |
| RankSplit.RankReadsAligned | csrc/loader_common.cpp:450-454 | every rank's file offset is page-aligned |
| RankSplit.GatherRebuilds | csrc/loader_common.cpp:450-458 | placing each slice at rank times padded size and gathering gives back the chunk's bytes |
| RankSplit.PaddedWithinRankChunk | csrc/loader_common.cpp:450-456 | a rank's padded share is at most its chunk size |
| RankSplit.ReadFitsSlot | csrc/loader_common.cpp:455-458 | a rank's page-rounded read is no longer than a slot, and every slot ends inside the host buffer |
| HostWindow.WindowsDisjoint | csrc/loader_common.cpp:445-469 | in every state of every run the byte ranges that two chunks in flight are read into do not meet |
| HostWindow.StagedBytesStay | csrc/loader_common.cpp:462-469 | so what a finished read staged stays as it is until the chunk is reaped, whatever other reads do |
| RankSplit.RegisterHostBuffer | csrc/loader_io_uring.cpp:220-238 | the registered regions |
| RankSplit.RegionAt | csrc/loader_io_uring.cpp:225-230 | they tile the host buffer |
| RankSplit.FixedBufferContainsRead | csrc/loader_io_uring.cpp:267-282 | a chosen fixed-buffer index names a region containing the whole read; none is chosen exactly when a boundary lies inside the read |
| Pipeline.NextPreserves | csrc/loader_io_aio.cpp:66-154 | every step of the reader, the kernel, the cuda thread, the wait thread and the loader keeps the accounting |
| Pipeline.CountsNeverNegative | csrc/loader_io_aio.cpp:104-130 | no unfinished count goes below zero though tasks collect each other's events |
| Pipeline.BlockedWaitHasEvent | csrc/loader_io_aio.cpp:105-107 | a task that still waits has its own event pending or arrived |
| Pipeline.CopiedWasRead | csrc/loader_io_uring.cpp:336-370 | at the copy the chunk's read is complete with at least its logical bytes |
| Pipeline.QueuesNeverFull | csrc/loader_common.cpp:462-469 | outstanding chunks never exceed the depth, so no push finds a full queue |
| Pipeline.NeverDeadlocks | csrc/loader_io_aio.cpp:99-154 | while a posted chunk waits for its threads, a thread or the kernel can move whatever the loader does; otherwise the loader can reap |
| Executor.SubmitPreserves | csrc/siphon/async_executor.hpp:117-130 | submitting keeps the accounting of tasks and ids |
| Executor.PopPreserves | csrc/siphon/async_executor.hpp:241-249 | a worker's pop keeps it |
| Executor.ProcessPreserves | csrc/siphon/function_executor.hpp:33-46 | running the one pending task keeps it, and its result is its own payload's |
| Executor.HeadNotCached | csrc/siphon/async_executor.hpp:281-305 | an entry is never in the way of caching a result, so none is dropped |
| Executor.TakeUntilReadyPreserves | csrc/siphon/async_executor.hpp:295-305 | draining the result queue keeps the accounting |
| Executor.CacheUntilReadyPreserves | csrc/siphon/async_executor.hpp:281-291 | so does caching, which succeeds exactly when the result was queued |
| Executor.TryReapOnceAndOwn | csrc/siphon/async_executor.hpp:148-153 | reaping succeeds exactly when the result was delivered, yields that task's own result, and never twice |
| ExecutorRuns.RunIsSafe | csrc/siphon/async_executor.hpp:117-261 | in every state of every interleaving of start, submit, stop, its loop, the workers and the reaper the accounting holds and one stop item is queued or still to come for every running worker |
| ExecutorRuns.RunAccounts | csrc/siphon/async_executor.hpp:117-261 | in every such state each accepted task waits, is at one worker or has run, and a result-bearing id is in exactly one of the places it passes through |
| ExecutorRuns.ReapedOnceAndOwn | csrc/siphon/async_executor.hpp:148-178 | in every such state everything reaped is its own task's result and no id was reaped twice |
| ExecutorRuns.RunReaps | csrc/siphon/async_executor.hpp:148-153 | in every such state a reap succeeds exactly when the result was delivered |
| ExecutorRuns.RunStopIsLossless | csrc/siphon/async_executor.hpp:180-203 | in every run, once the workers have exited every accepted task has run and every result is accounted for |
| ExecutorRuns.WorkersFinish | csrc/siphon/async_executor.hpp:236-261 | in every run, after a stop each running worker has a task or an item to pop, or the stopping thread is about to push one |
| ExecutorRuns.StopEnds | csrc/siphon/async_executor.hpp:182-203 | after a stop the workers and the stopping thread take boundedly many steps, and can take one until all workers have exited |
| ExecutorRuns.StopIsOneStep | csrc/siphon/async_executor.hpp:182-192 | the stopping loop, uninterrupted, is the one step of the object |
| ExecutorRuns.StepKeepsSentinels | csrc/siphon/async_executor.hpp:182-261 | every step keeps one stop item for every worker still running |
| ExecutorObject.ExecutorCore.Submit | csrc/siphon/async_executor.hpp:117-130 | each of the three refusals exactly on its condition, otherwise the task is queued |
| ExecutorObject.ExecutorCore.Start | csrc/siphon/async_executor.hpp:205-222 | refuses a second start; no workers means one |
| ExecutorObject.ExecutorCore.TryReap | csrc/siphon/async_executor.hpp:148-153 | the loops on the queue and the cache equal their specification |
| ExecutorObject.ExecutorCore.Ready | csrc/siphon/async_executor.hpp:133-138 | true exactly when the result has been delivered; nothing is lost by asking |
| ExecutorObject.ExecutorCore.WorkerProcess | csrc/siphon/function_executor.hpp:33-46 | the worker's step on the shared fields |
| Executor.StartPreserves | csrc/siphon/async_executor.hpp:205-222 | starting with any number of workers establishes the accounting |
| ExecutorRuns.StartedWorkers | csrc/siphon/async_executor.hpp:205-222 | a start makes that many idle workers, or one, and in every later state there are as many |
| Executor.RequestStopPreserves | csrc/siphon/async_executor.hpp:182-192 | stopping keeps it |
| Executor.StopStepPreserves | csrc/siphon/async_executor.hpp:182-192 | so does each step of the stopping loop |
| ExecutorObject.ExecutorCore.RequestStop | csrc/siphon/async_executor.hpp:182-192 | the same on the shared fields; a second stop does nothing |
| ExecutorObject.ExecutorCore.WorkerPop | csrc/siphon/async_executor.hpp:243-249 | a worker with no pending task takes the head of the queue, or exits at a stop item |
| ExecutorObject.ExecutorCore.TakeUntilReady | csrc/siphon/async_executor.hpp:295-305 | the draining loop equals its specification |
| ExecutorObject.ExecutorCore.CacheUntilReady | csrc/siphon/async_executor.hpp:281-291 | the caching loop equals its specification |
| Sizing.FitBuffer | siphon/_impl.py:856-884 | an explicit depth is accepted exactly if it fits the buffer; a default one is cut to fit |
| Sizing.SafeOpen.DetermineIoParams | siphon/_impl.py:847-924 | succeeds exactly on the accepted configurations; depth is the least of what was asked for and what buffer and budget hold, at least one, and its reads fit both |
| Sizing.SafeOpen.FinalizeBufferSize | siphon/_impl.py:926-960 | on success the buffer holds the reads in flight and the largest tensor and is within the budget; its exact value |
| Sizing.RecommendedBufferSize | siphon/_impl.py:547-575 | the least need under which the asked-for share of bytes overlaps, or the largest tensor |
| SizingMeaning.NeedIsRoom | siphon/_impl.py:562-565 | a buffer leaves room for a tensor beside the one before it, wherever that ends, if and only if it is at most one byte below the need |
| LayoutOverlap.NextReached | csrc/loader_common.cpp:267-334 | for every input, a tensor's last chunk is within the limit of the tensor before it if and only if it was laid without a new lap, or that chunk ends before the other tensor begins |
| SizingMeaning.NeedOverlaps | siphon/_impl.py:547-575 | in the layout: with room for the need, one chunk and the paddings, a tensor is read in full within the limit of the one before it |
| SizingMeaning.SizedNeedOverlaps | csrc/loader_common.cpp:66-86 | in the buffer the set-up makes, need and one chunk suffice: its padding absorbs the rest |
| SizingMeaning.NeedAloneFails | siphon/_impl.py:547-575 | the need alone does not: buffers and files, for every page size above 32, where the tensor after is not reached |
| Sizing.SumIsOverlapped | siphon/_impl.py:561-573 | the running sum over sorted dictionary keys is the bytes of the tensors whose need has been passed |
| Sizing.RaiseUnreachable | siphon/_impl.py:568-575 | the final raise is reached exactly for a factor above one with bytes to load |
| Sizing.InitBufferIsValid | csrc/loader_common.cpp:66-86 | the layout's alignment assumptions hold for what the buffer set-up fixes |
| Sizing.InitBufferHoldsDepth | csrc/loader_common.cpp:66-86 | a chunk is every rank's page-aligned share, and as many as the depth fit the buffer |
| Sizing.SizedBufferIsEnough | csrc/loader_common.cpp:76-86 | after successful sizing nothing is enlarged there, and every tensor has the room the layout bounds assume |
| LinearLayer.LinearSerial | qwen35-forward/gdn/src/lib.rs:220-254 | row by row, each output the ordered f64 sum for its row |
| FoldLaws.LinearIs | qwen35-forward/gdn/src/lib.rs:224-239 | exactly: an output is the inner product of its weight row and the input row, plus its bias |
| FoldLaws.LinearIsLinear | qwen35-forward/gdn/src/lib.rs:224-239 | exactly: without a bias the layer is linear in its input |
| FoldLaws.UnitPicksColumn | qwen35-forward/gdn/src/lib.rs:224-239 | exactly: a unit input picks its column of the weights |
| LinearLayer.ThreadChunk | qwen35-forward/gdn/src/lib.rs:278-303 | one thread's walk: row and output always name the flat index being written |
| LinearLayer.ChunksPartition | qwen35-forward/gdn/src/lib.rs:272-277 | every flat index is written by exactly one thread |
| LinearLayer.LinearParallel | qwen35-forward/gdn/src/lib.rs:256-307 | for every thread count the same rows as the serial path |
| LinearLayer.Linear | qwen35-forward/gdn/src/lib.rs:209-307 | the two paths behind one call |
| LinearLayer.MappedUnique | qwen35-forward/gdn/src/lib.rs:209-307 | what the paths promise determines the vector: both give the same bits |
| Axes.SwapAxes | qwen35-forward/gdn/src/attention.rs:251-263 | exchanges two axes, vector by vector; single elements give the convolution's transposes |
| Axes.SwapTwice | qwen35-forward/gdn/src/lib.rs:500-525 | exchanging back restores the tensor |
| Convolution.ConvForward | qwen35-forward/gdn/src/lib.rs:423-473 | every channel of every batch: outputs from its window, and the context left for the next call |
| Convolution.ConvRowSplits | qwen35-forward/gdn/src/lib.rs:423-473 | two chunks with the context carried equal one, also when a chunk is shorter than the context |
| FoldLaws.ConvIs | qwen35-forward/gdn/src/lib.rs:457-466 | exactly: the inner product of kernel and window, the newest input under the last tap, plus the bias, activated |
| FoldLaws.ImpulseResponse | qwen35-forward/gdn/src/lib.rs:457-466 | exactly: an impulse comes out as the tap over it at that time, and as nothing before and after |
| DeltaRule.StateSplits | qwen35-forward/delta/src/lib.rs:113-181 | the recurrent state after two runs is the state after their concatenation |
| DeltaRule.OutsSplit | qwen35-forward/delta/src/lib.rs:113-181 | and so are the outputs |
| DeltaRule.SetHeadRow | qwen35-forward/delta/src/lib.rs:79-83 | writing a row of one head changes that head only |
| DeltaRule.HeadPass | qwen35-forward/delta/src/lib.rs:128-176 | one step of one head in place equals the step of the recurrence, whose laws follow; all other heads kept |
| DeltaLaws.StepAlong | qwen35-forward/delta/src/lib.rs:134-164 | exactly: along any direction the new state is the old one decayed, plus the learning rate times the prediction error as far as the direction lies along the key |
| DeltaLaws.WrittenIsHeld | qwen35-forward/delta/src/lib.rs:142-164 | exactly: at the full rate and for a key of length one the new state read along the key is the value |
| DeltaLaws.OrthogonalDecays | qwen35-forward/delta/src/lib.rs:134-164 | exactly: along a direction orthogonal to the key the state only decays |
| DeltaLaws.OutputIsLinear | qwen35-forward/delta/src/lib.rs:166-174 | exactly: the output is linear in the query, which does not change the state |
| DeltaLaws.UnitQueryPicksRow | qwen35-forward/delta/src/lib.rs:166-174 | exactly: a unit query reads out its row of the new state |
| DeltaLaws.EverythingHeld | qwen35-forward/delta/src/lib.rs:113-181 | exactly: over a run of any length with orthonormal keys, undecayed and at the full rate, every value written is still held along its key |
| DeltaLaws.QueryRecalls | qwen35-forward/delta/src/lib.rs:113-181 | exactly: and is what a query for its key is answered with |
| DeltaForward.Forward | qwen35-forward/delta/src/lib.rs:113-181 | every batch and head runs its own recurrence from the state given, the final state left in place |
| DeltaPrepare.PrepareQk | qwen35-forward/delta/src/lib.rs:50-60 | every head vector normed in place, the queries scaled |
| FoldLaws.PreparedKeyIsUnit | qwen35-forward/delta/src/lib.rs:29-43 | exactly: a prepared key has length one but for the epsilon under the root |
| DeltaPrepare.ForwardPreparedInto | qwen35-forward/delta/src/lib.rs:214-231 | the recurrence on the prepared operands, continuing the state |
| GdnStages.SplitQkv | qwen35-forward/gdn/src/lib.rs:664-674 | the three column ranges of every row |
| GdnStages.Gates | qwen35-forward/gdn/src/lib.rs:676-688 | beta and the log decay of every row and head |
| FoldLaws.DecayShrinks | qwen35-forward/gdn/src/lib.rs:690-696 | exactly: the log decay is never positive, so the decay factor is above zero and at most one |
| GdnStages.RepeatInterleaveHeads | qwen35-forward/gdn/src/lib.rs:479-497 | every head vector written ratio times in a row |
| GdnStages.RmsnormGated | qwen35-forward/gdn/src/lib.rs:337-359 | every row normed, weighted and gated |
| GateLaws.GatedNormShares | qwen35-forward/gdn/src/lib.rs:337-359 | exactly: weight times normed component times gate, divided by one plus the exponential of minus the gate |
| GdnMixer.ChannelSplits | qwen35-forward/gdn/src/lib.rs:634-661 | a channel's outputs and context over two chunks are those over one |
| GdnMixer.InputsSplit | qwen35-forward/gdn/src/lib.rs:663-694 | so is what each head's recurrence is fed |
| GdnMixer.ChunkSplits | qwen35-forward/gdn/src/lib.rs:605-623 | the mixer on two chunks with the state carried equals the mixer on their concatenation, outputs and state |
| GdnMixer.AnySplit | qwen35-forward/gdn/src/lib.rs:605-623 | the same for any list of chunks of any lengths |
| GdnRefinement.ConvRowAt | qwen35-forward/gdn/src/lib.rs:634-661 | the flat projection, transposes and convolution compute each batch's rows |
| GdnRefinement.InputMatches | qwen35-forward/gdn/src/lib.rs:663-694 | the flat operands of the rule are each head's inputs, query and key from head index over ratio |
| GdnForward.BatchIsMixed | qwen35-forward/gdn/src/lib.rs:625-749 | batch by batch, outputs and next state are those of the per-batch mixer |
| GdnForward.GdnState.New | qwen35-forward/gdn/src/lib.rs:574-582 | the zero state |
| GdnForward.ForwardWithState | qwen35-forward/gdn/src/lib.rs:614-623 | for every batch and shape: the outputs continue the state, which is advanced in place |
| GdnForward.Forward | qwen35-forward/gdn/src/lib.rs:601-603 | the whole sequence from the zero state |
| GdnDecode.Decode | qwen35-forward/gdn/src/lib.rs:605-623 | any chunked decode gives, for every batch, the outputs and the final state of one whole-sequence call, bit for bit |
| AttentionSpec.Causal | qwen35-forward/gdn/src/attention.rs:300-317 | what follows a position does not change its row |
| AttentionSpec.ContinuesWhole | qwen35-forward/gdn/src/attention.rs:401-478 | the rows of a later chunk extend the whole-sequence result |
| AttentionRows.BuildRope | qwen35-forward/gdn/src/attention.rs:118-143 | the tables hold the absolute positions asked for |
| AttentionRows.RowPosition | qwen35-forward/gdn/src/attention.rs:158-183 | row over heads modulo t is the time of the row |
| AttentionRows.ApplyRope | qwen35-forward/gdn/src/attention.rs:168-194 | each head vector is rotated by its own position's table row, the rest passed through |
| AttentionRows.RmsnormOnePlus | qwen35-forward/gdn/src/lib.rs:313-331 | every row normed and scaled by one plus the weight |
| FoldLaws.RmsIsOne | qwen35-forward/gdn/src/lib.rs:313-331 | exactly: a row over its root mean square has mean square one but for the epsilon |
| GateLaws.UnweightedNorm | qwen35-forward/gdn/src/lib.rs:313-331 | exactly: so has the norm with weights of zero |
| GateLaws.WeightScales | qwen35-forward/gdn/src/lib.rs:313-331 | exactly: a weight adds its multiple of the normed component |
| AttentionRows.SplitGate | qwen35-forward/gdn/src/attention.rs:419-432 | per head the first half of its columns is the query, the second the gate |
| AttentionCache.Append | qwen35-forward/gdn/src/attention.rs:270-306 | old positions then the chunk's, for every batch and key head |
| AttentionAttend.SoftmaxInPlace | qwen35-forward/gdn/src/attention.rs:199-222 | every chunk of `len` values of the prefix, the last possibly shorter, becomes its softmax; nothing else changes |
| AttentionAttend.Attend | qwen35-forward/gdn/src/attention.rs:318-362 | every query sees exactly the positions up to its own, through the key head of its group |
| AttentionLaws.DotSymmetric | qwen35-forward/gdn/src/attention.rs:338-344 | exactly: query and key enter the score alike |
| AttentionLaws.DotLinear | qwen35-forward/gdn/src/attention.rs:338-344 | exactly: the score is linear in the key |
| AttentionLaws.DotUnit | qwen35-forward/gdn/src/attention.rs:338-344 | exactly: a unit key picks the query's component |
| AttentionLaws.WeightsAreShares | qwen35-forward/gdn/src/attention.rs:199-222 | exactly: the softmax weights are positive, add up to one, and the higher score weighs more |
| AttentionLaws.AttendedMean | qwen35-forward/gdn/src/attention.rs:336-357 | exactly: the output is the mean of the values weighted with the exponentials of their keys' scores, whatever maximum was subtracted |
| AttentionLaws.ConstantValues | qwen35-forward/gdn/src/attention.rs:350-357 | exactly: values that agree are attended to as that value |
| AttentionLaws.AnyOrder | qwen35-forward/gdn/src/attention.rs:336-357 | exactly: keys and values in any other common order give the same output |
| RotationLaws.ScoreIsRelative | qwen35-forward/gdn/src/attention.rs:118-194 | exactly: the score of a rotated query and key depends on the distance of their positions only |
| GateLaws.GateShares | qwen35-forward/gdn/src/attention.rs:474-479 | exactly: the output gate keeps the logistic share of its gate |
| AttentionRefinement.AppendRemembers | qwen35-forward/gdn/src/attention.rs:447-451 | after an append the cache holds the rotated keys and the values of the whole history |
| AttentionRefinement.TransposeRemembers | qwen35-forward/gdn/src/attention.rs:452-456 | without a cache the transposed keys and values are the history |
| AttentionRefinement.HeadRow | qwen35-forward/gdn/src/attention.rs:318-362 | each attention output row is the specified head at its absolute position |
| Attention.AttnState.AppendKv | qwen35-forward/gdn/src/attention.rs:270-306 | the state object grows by the chunk |
| Attention.ForwardWithState | qwen35-forward/gdn/src/attention.rs:387-399 | the chunk's rows continue the history, the cache is extended by it |
| Attention.Forward | qwen35-forward/gdn/src/attention.rs:368-378 | the whole sequence without a cache |
| Attention.Decode | qwen35-forward/gdn/src/attention.rs:225-240 | any chunked decode with tables built at the cached length gives, for every batch, the rows of one uncached call; the cache holds all its keys and values |
| ChatParse.ParseOneCall | qwen35-forward/gdn/src/chatparse.rs:143-187 | the parameter loop computes the specified call or error |
| ChatParse.ParseToolCalls | qwen35-forward/gdn/src/chatparse.rs:127-141 | the loop over blocks computes the specified calls or error |
| ChatParse.CallsAreClean | qwen35-forward/gdn/src/chatparse.rs:122-187 | every call the parser returns satisfies the conditions of a clean call |
| ChatTemplate.RenderPartsLoop | qwen35-forward/gdn/src/chat.rs:475-506 | the loop over content parts and its vision counters |
| ChatTemplate.AppendCalls | qwen35-forward/gdn/src/chat.rs:380-404 | the loops over calls and parameters |
| ChatTemplate.ScanLastQuery | qwen35-forward/gdn/src/chat.rs:298-322 | the backwards scan finds the last user message that is not a wrapped tool response, or reports its error |
| ChatTemplate.AppendTools | qwen35-forward/gdn/src/chat.rs:252-262 | the loop over the tools |
| ChatTemplate.RenderSystem | qwen35-forward/gdn/src/chat.rs:252-296 | the system block, with or without tools, or its error |
| ChatTemplate.RenderAll | qwen35-forward/gdn/src/chat.rs:239-445 | the template's loops compute the specified text or the specified error |
| ChatHistory.PastReasoningForgotten | qwen35-forward/gdn/src/chat.rs:347-382 | for every request, the reasoning of an assistant turn at or before the last query can be replaced by any other without changing the text |
| ChatHistory.PlainContents | qwen35-forward/gdn/src/chat.rs:342-362 | also by none, or for none, where the content holds no closing think tag |
| ChatConversation.ConversationRead | qwen35-forward/gdn/src/chat.rs:239-445 | from the text of every request whose messages can be told apart a reader that cuts at the start markers recovers the system block, each user's trimmed text, each answer's content and calls, its reasoning exactly if it follows the last query, the grouped tool responses, and the turn begun for the model |
| ChatConversation.BlocksJoined | qwen35-forward/gdn/src/chat.rs:323-423 | messages are marked pieces, a run of tool messages being one |
| ChatReading.ResponsesRead | qwen35-forward/gdn/src/chat.rs:407-422 | the responses of a run are read back one by one |
| ChatRoundTrip.CallsParse | qwen35-forward/gdn/src/chatparse.rs:127-187 | any clean calls behind a text without a call parse back exactly |
| ChatRoundTrip.SoundParses | qwen35-forward/gdn/src/chatparse.rs:94-120 | a sound turn parses to its reasoning, content and calls |
| ChatRoundTrip.ParseRecovers | qwen35-forward/gdn/src/chatparse.rs:18-31 | the parser recovers a rendered turn if and only if the turn is sound |
| ChatRoundTrip.BodyRecovers | qwen35-forward/gdn/src/chatparse.rs:105-120 | content and calls are recovered from a body if and only if they are clean |
| ChatRoundTrip.PlainRecovers | qwen35-forward/gdn/src/chatparse.rs:94-120 | a reply without a closing think tag has no reasoning, and its content and calls come back if and only if they are clean |
| ChatReplay.SameTurn | qwen35-forward/gdn/src/chat.rs:342-404 | the message made of the reply renders to the same block |
| ChatReplay.RenderParseRender | qwen35-forward/gdn/src/chatparse.rs:18-31 | putting the parsed reply back in place of a sound turn of the current exchange leaves the whole conversation's rendering unchanged |
| ChatLayout.BodyStable | qwen35-forward/gdn/src/chatparse.rs:105-120 | for every body: parsing it and writing it again changes nothing if and only if it is trimmed and, should its calls parse at all, a reader without any trimming or second choice reads it |
| ChatLayout.RenderedAgain | qwen35-forward/gdn/src/chatparse.rs:18-24 | for every text: parsing it and rendering the reply gives the text again if and only if it is well laid: reasoning alone between its newlines without an opening tag, a blank line, and such a body |
| ChatIdentity.RenderIdentity | qwen35-forward/gdn/src/chatparse.rs:18-31 | for every conversation that renders and every plain turn of its current exchange: the text is unchanged if and only if the turn is well laid |
| ChatIdentity.SoundIsWellLaid | qwen35-forward/gdn/src/chatparse.rs:18-31 | every turn the parser recovers is well laid |
| ChatIdentity.NameCanClose | qwen35-forward/gdn/src/chatparse.rs:127-141 | a name without the closing tag can complete one with the `>` after it: the call is not recovered, but its text comes back as content and is the same |
| ChatIdentity.ExtractedContentCanShift | qwen35-forward/gdn/src/chat.rs:349-362 | content taken from behind a think block keeps a leading space the first time and loses it the second: the two texts differ |

## Left out

- LayoutBounds.ComputeBounded, LayoutExtents.ChunksStayInside: assume that no tensor exceeds the buffer less one alignment unit, page and padding unit, which the sizing guarantees (Sizing.SizedBufferIsEnough), and that no file is without tensors; the code's own check is against the padded buffer and is weaker.
- LayoutExtents.ChunksStayInside: the position at which a later file opens is a value of the layout, not a formula in the offsets.
- LayoutEmpty.EmptyTensorReached: the condition names the layout where the first later bytes are laid, not the offsets alone; LayoutEmpty.OffPageReached is the part that does.
- LayoutSoundness.ComputeSound: assumes file indices 0, 1, 2, ... in order and non-decreasing offsets within a file, as the Python front end sends them.
- LayoutBuilding.LayoutBuilder.ComputeLayout: sizes and offsets are unbounded naturals; overflow of size_t is not modelled.
- Protocol.ConsumerSeesFileBytes: a transfer of a chunk writes only inside its padded extent and completes in chunk order, as one stream does; a chunk may overtake an earlier one only where their extents are disjoint. The cuFile path, whose device writes no stream orders, is outside this.
- Protocol.BytesStayUntilAdvance: the consumer's own kernels reading the tensor are not modelled beyond their end, which is when the consumer moves on.
- Pipeline.NeverDeadlocks: reads that end short or fail raise an exception in the code; such runs are left out, apart from the check that a short event is never accounted.
- Pipeline.CopiedWasRead: the copy to the device and the gather over ranks are one step here; their bytes are in RankSplit.GatherRebuilds and Protocol.
- ExecutorRuns.RunIsSafe: the lock-free queues are taken as first-in first-out and without a limit: a push that blocks on a full queue, which the submitter is told to avoid by reaping, is not modelled. The submitter uses the id of a task with a result once.
- ExecutorObject.ExecutorCore.TryReap: the unbounded waits `wait` and `reap` are repetitions of `ready` and `try_reap` and have no members of their own; an exception inside a task is not modelled.
- Sizing.SafeOpen.DetermineIoParams: choice and availability of backends, environment variables, warnings and the reduction of the budget over ranks are parameters; `int(free * fraction)` is one parameter.
- Sizing.RecommendedBufferSize: the overlap factor is a real number, so rounding of the product of total and factor is not modelled.
- LinearLayer.LinearParallel: the threads' ranges are filled one after the other; that they are disjoint and complete is LinearLayer.ChunksPartition. The number of threads is a parameter.
- LinearLayer.Linear: vectors local to a call are sequences that the loops reassign; the recurrent state and the score and operand buffers that the code updates through a mutable slice are arrays.
- Axes.SwapAxes: one member for four transposing loops that differ in names and in the length of the vector copied.
- DeltaForward.Forward: silu, sigmoid, softplus, exp, sqrt and casts are opaque operations; no bound on rounding errors is claimed.
- DeltaPrepare.PrepareQk: the constant 1e-6 under the root is `ops.epsilon`; the reading of the same constant from the configuration elsewhere is a separate parameter.
- GdnForward.ForwardWithState: shapes that the code asserts are preconditions, and so is that the value heads are a multiple of the key heads, without which the operands of the rule fail the code's length assertion; the trace of intermediate tensors is not returned.
- AttentionRows.ApplyRope: tables shorter than the chunk, which make the code panic, are excluded.
- Attention.ForwardWithState: the tables must be built for the cached length, as the comment on the function demands; query heads must be a multiple of the key heads, or a query would read past the last key head.
- ChatTemplate.RenderAll: the JSON texts of tools and of argument values, and the constant instructions that follow the tools, are parameters; building requests from JSON is left out.
- ChatParse.ParseOneCall: error values name the failed check without the quoted excerpt; two of those excerpts are cut at a byte position, which the model on characters does not show.
- ChatRoundTrip.ParseRecovers: strings are sequences of Unicode scalar values.
- ChatConversation.ConversationRead: a conversation that opens with a tool message is left out, because the code puts no start marker before it; a message is told apart by what it is written as, not by its fields one by one.
- DeltaLaws.StepAlong, AttentionLaws.AttendedMean: rounding is not modelled in the laws marked exactly; the exponential, the square root, cosine and sine enter by the identities the laws need.
- ChatIdentity.RenderIdentity: only turns rendered after the last user query carry the think block the parser expects, so only they are covered; their content is text without images or videos.
- The loader's request loop and its single step after CLOSE (csrc/loader_common.cpp:601-611): runs are followed up to CLOSE.
- Calls into CUDA, NCCL, cuFile, libaio and io_uring, probing of backends, memory maps, bindings and tensor wrappers: foreign code.
- Memory ordering of the atomics and the internals of the queues: steps are atomic here.
- The rest of the forward pass (layers, sampling, tokenizers, loading of weights), the RWKV engine, the command-line tools, benchmarks and corpus generators: they would add easier members or are input and output.

# VoxLattice: exact sample accounting

This project models the two stateful halves of VoxLattice and their composition, and proves what they promise about samples.

**The server.** A stream's reader turns PCM chunks into hops of 256 samples and puts them on a bounded queue; a scheduler
takes at most one hop from each ready stream, runs one batched inference, and commits caches, the output delayed by one
hop, and completions; a consumer sends the output. `StreamMachine` is one stream, `ServerMachine` any number of them with
one ready queue and one batch. Each step is one stretch between two suspension points (the scheduler's loops over a batch
are cut even finer, one step per stream), and a step that is not enabled changes nothing, so that every list of labels is
a run. `SchedulerStretches` ties the single steps back to the loops. The network is an uninterpreted function on a batch;
`RowLocal` says that row i of the result depends on row i and block i of the input only, which is the only thing assumed of
it. `ServerProjection` shows that each stream sees a run of the server as a run of its own, and from there the invariants of
`StreamInvariants` give refinement of `StreamingPipeline`, conservation, exact completions, fairness, isolation, the gauge,
and the absence of dead ends (`ServerProgress`), all over every run.

**The plugin.** `Timeline` holds the raw buffer and the enhanced segments at byte level, `Processor` the frame processor
with its locked sections as separate operations, `ProcessorRuns` all runs of it: frames, responses, generations, faults,
toggles and overflows in any order, also between the two locked sections of one frame. `ProcessorMap` says exactly what is
stored in them and when enhanced audio is used, `ProcessorAlignment` that everything emitted lies at its own index.

**Both together.** `Handshake`, `Transport` and `Composition` show that what one side sends passes the checks of the other.
`ClosedLoop` joins processor, request queue, worker thread, call and server stream into one machine, with requests drained,
dropped, reset or stolen at any moment. `LoopTransit` proves that the server never meets a chunk out of place there,
`EndToEnd` that no response is ever a mismatch, and `EmittedAudio` that every sample the processor emits is its own raw
input at that index or the pipeline's output for that index on that input.

Where the code updates objects in place the model has classes with the same fields and loops; each method is specified by a
function on values, and the machines are built from these same functions. A float32 sample is a real; k / 32768 is exact.
`hide` statements only keep proofs small.

Facts about the code worth knowing:

- A frame of zero samples is sent as an empty chunk, which the server refuses; `AcceptedWhen` has the exact condition.
- The last audio and the completion of a flush are emitted in one stretch: with less than two free places in the output
  queue the stream fails; `FlushEndsWhen` is exact.
- `EnhancedSegments.read` of an empty interval returns audio or None depending on what is stored; `ReadOfNothing` is exact.

## Model

| member | source | states |
|---|---|---|
| Pcm.EncodeDecode | services/fastenhancer-server/src/fastenhancer_server/audio.py:16-35 | Encoding what decoding gives returns the very same bytes, for every non-empty byte string of even length. |
| Pcm.EncodeIsNearest | services/fastenhancer-server/src/fastenhancer_server/audio.py:26-35 | For every signal the two bytes of sample k, low byte first, are the nearest 16-bit integer, the even one on a tie, and the end of the range outside [-1, 32767/32768]. |
| Pcm.DecodeIsExact | services/fastenhancer-server/src/fastenhancer_server/audio.py:16-23 | Sample k is the integer of its two bytes over 32768, and nothing but an empty or odd number of bytes is refused. |
| Pcm.QuantizeIsNearest | services/fastenhancer-server/src/fastenhancer_server/audio.py:31 | The rounding step itself: saturated outside the range, nearest with ties to even inside it, and monotone. |
| Pcm.QuantizeFitsInt16 | services/fastenhancer-server/src/fastenhancer_server/audio.py:26-35 | Every real sample is encoded as a 16-bit integer. |
| Pcm.EncodePrefix | services/fastenhancer-server/src/fastenhancer_server/scheduler.py:116 | Cutting encoded bytes at twice the valid samples is encoding the cut signal. |
| Rechunker.PCMRechunker.Create | services/fastenhancer-server/src/fastenhancer_server/audio.py:48-54 | A rechunker is refused exactly for a bound below one hop, and otherwise starts empty at its offset. |
| Rechunker.PCMRechunker.Add | services/fastenhancer-server/src/fastenhancer_server/audio.py:60-66 | Appending gives all whole hops of pending plus new samples and keeps the rest; bad PCM or a full buffer changes nothing. |
| Rechunker.PCMRechunker.Take | services/fastenhancer-server/src/fastenhancer_server/audio.py:68-81 | The loop over the parts terminates and returns exactly the first samples pending, leaving the others in order. |
| Rechunker.PCMRechunker.DrainFullHops | services/fastenhancer-server/src/fastenhancer_server/audio.py:83-89 | Drains exactly the whole hops, at offsets 256 apart, and keeps less than a hop. |
| Rechunker.PCMRechunker.FlushTail | services/fastenhancer-server/src/fastenhancer_server/audio.py:91-99 | The rest becomes one zero-padded hop with its true length, or none if nothing is pending. |
| Rechunker.PartialIsPadded | services/fastenhancer-server/src/fastenhancer_server/audio.py:91-99 | A flush gives a hop exactly if samples are pending: at the offset where the others stopped, the pending samples first, then only silence up to 256. |
| Rechunker.FullHopsAt | services/fastenhancer-server/src/fastenhancer_server/audio.py:83-89 | Hop k lies at start + 256k and holds exactly the samples of that interval. |
| Rechunker.HopsCoverSignal | services/fastenhancer-server/src/fastenhancer_server/audio.py:60-89 | Hops followed by the rest are the signal, and the rest is shorter than a hop. |
| Rechunker.FlushedHopsCoverSignal | services/fastenhancer-server/src/fastenhancer_server/audio.py:60-99 | All hops of a flushed signal: at start + 256k, whole but for the last, padded with silence, and without padding exactly the signal. |
| Rechunker.RunCoversInput | services/fastenhancer-server/src/fastenhancer_server/audio.py:60-99 | The same for the hops emitted along any accepted list of chunks and the flush after it. |
| Rechunker.FullHopsAppend | services/fastenhancer-server/src/fastenhancer_server/audio.py:60-66 | Rechunking in two steps equals rechunking at once. |
| Rechunker.ChunkingIndependence | services/fastenhancer-server/src/fastenhancer_server/audio.py:60-99 | Any two splittings of the same PCM that fit the bound give the same hops, rest, and final partial hop. |
| Caches.SplitStreamCaches | services/fastenhancer-server/src/fastenhancer_server/model.py:82-98 | Splits exactly the caches of the right layout, into rows of the signal caches and blocks of 24 of the recurrent ones. |
| Caches.SplitCombine | services/fastenhancer-server/src/fastenhancer_server/model.py:64-98 | Splitting undoes combining, for every batch size. |
| Caches.CombineSplit | services/fastenhancer-server/src/fastenhancer_server/model.py:64-98 | Combining undoes splitting, for every batch size. |
| Caches.CombinedAt | services/fastenhancer-server/src/fastenhancer_server/model.py:64-79 | Combining refuses exactly an empty batch and wrong layouts, and puts row i of the signal caches and rows 24i to 24i + 23 of each recurrent cache where stream i is. |
| Caches.InferBatchWhen | services/fastenhancer-server/src/fastenhancer_server/model.py:206-230 | Whatever the network does, a batched call that succeeds had hops and caches of the right shapes and gives one waveform and one cache of the right shape for every stream. |
| Caches.BatchIsSolo | services/fastenhancer-server/src/fastenhancer_server/model.py:205-229 | With a row-local network each stream of a batch gets the waveform and caches it would get alone. |
| Pipeline.StreamingPipeline.PushHop | services/fastenhancer-server/src/fastenhancer_server/pipeline.py:27-40 | Pushing answers the hop pushed before, on the caches so far; a closed pipeline or a hop of the wrong size is refused without effect. |
| Pipeline.StreamingPipeline.Finish | services/fastenhancer-server/src/fastenhancer_server/pipeline.py:42-56 | Flushing answers the last hop with one silent hop, once, and closes the pipeline. |
| Pipeline.OutputsAnswerHops | services/fastenhancer-server/src/fastenhancer_server/pipeline.py:27-56 | Output k answers hop k with its offset and length; without a flush exactly the last hop stays unanswered. |
| Pipeline.OutputsAreReplies | services/fastenhancer-server/src/fastenhancer_server/pipeline.py:27-56 | Output k in full: the offset of hop k and the first samples, as many as are valid, of the waveform one hop later, on the caches after all hops up to k; silence follows the last hop. |
| Pipeline.PushAndFlushWhen | services/fastenhancer-server/src/fastenhancer_server/pipeline.py:27-56 | A pipeline takes exactly whole hops while it is not closed; a flush closes it for good and answers once. |
| Pipeline.OutputsGrow | services/fastenhancer-server/src/fastenhancer_server/pipeline.py:27-56 | Outputs already given are never changed by later hops or the flush. |
| Sessions.StreamSession.constructor | services/fastenhancer-server/src/fastenhancer_server/session.py:49-77 | A new stream is idle at its start offset, with empty queues and a rechunker bound of at least one hop. |
| Sessions.StreamSession.Enqueue | services/fastenhancer-server/src/fastenhancer_server/session.py:79-102 | Work joins the end of the input queue, nothing else changes. |
| Sessions.StreamSession.EmitNowait | services/fastenhancer-server/src/fastenhancer_server/session.py:104-105 | An event is queued exactly if the output queue has room; otherwise nothing changes. |
| Sessions.FlushEndsWhen | services/fastenhancer-server/src/fastenhancer_server/scheduler.py:108-134 | A flush completes exactly if the output queue has room for both the last audio and the completion; otherwise the stream fails and its queue is lost. |
| Sessions.CommitKeepsGauge | services/fastenhancer-server/src/fastenhancer_server/scheduler.py:103-134 | The gauge changes of a commit are the change of the audio queued, on every branch. |
| Sessions.TakeKeepsGauge | services/fastenhancer-server/src/fastenhancer_server/scheduler.py:74-86 | The gauge changes of taking work are the change of the audio queued. |
| Scheduler.BatchScheduler.Notify | services/fastenhancer-server/src/fastenhancer_server/scheduler.py:43-47 | A session enters the ready queue exactly when it is live, not scheduled, has input, and the scheduler is not closing. |
| Scheduler.BatchScheduler.Collect | services/fastenhancer-server/src/fastenhancer_server/scheduler.py:59-71 | The next session collected is the first of the ready queue. |
| Scheduler.BatchScheduler.TakeOne | services/fastenhancer-server/src/fastenhancer_server/scheduler.py:74-87 | At most one work is taken from a collected session; cancelled, ended and empty ones give none; the end without flush completes it. |
| Scheduler.BatchScheduler.TakeBatch | services/fastenhancer-server/src/fastenhancer_server/scheduler.py:73-89 | The loop takes from each collected session, in order, and adds up the gauge. |
| Scheduler.BatchScheduler.TimedInference | services/fastenhancer-server/src/fastenhancer_server/scheduler.py:138-145 | One batched inference; each row is encoded, and an error is passed on. |
| Scheduler.BatchScheduler.EmitDelayed | services/fastenhancer-server/src/fastenhancer_server/scheduler.py:115-131 | The delayed hop is emitted and counted, or the stream fails when its output queue is full. |
| Scheduler.BatchScheduler.CommitOne | services/fastenhancer-server/src/fastenhancer_server/scheduler.py:103-136 | Caches, delayed hop, output, completion and notification of one stream after inference, on every branch. |
| Scheduler.BatchScheduler.CommitBatch | services/fastenhancer-server/src/fastenhancer_server/scheduler.py:103-136 | The loop commits every row to its own stream; sessions wake in batch order and the gauge adds up. |
| Scheduler.BatchScheduler.FailBatch | services/fastenhancer-server/src/fastenhancer_server/scheduler.py:98-101 | When inference raises every stream of the batch fails, and no other. |
| Scheduler.BatchScheduler.Complete | services/fastenhancer-server/src/fastenhancer_server/scheduler.py:154-165 | A stream ends once, with its counts, or fails if the completion does not fit. |
| Scheduler.BatchScheduler.CompleteWithoutFlush | services/fastenhancer-server/src/fastenhancer_server/scheduler.py:147-149 | Ending without flush drops the delayed hop. |
| Scheduler.BatchScheduler.CompleteEmptyFlush | services/fastenhancer-server/src/fastenhancer_server/scheduler.py:151-152 | Flushing an empty stream completes it at once. |
| Scheduler.BatchScheduler.Fail | services/fastenhancer-server/src/fastenhancer_server/scheduler.py:167-174 | The draining loop leaves only the failure in the queue and takes exactly the drained audio off the gauge. |
| SchedulerStretches.TakeStretch | services/fastenhancer-server/src/fastenhancer_server/scheduler.py:73-89 | Undisturbed, the machine's single takes add up to what TakeBatch does to the whole batch. |
| SchedulerStretches.CommitStretch | services/fastenhancer-server/src/fastenhancer_server/scheduler.py:103-136 | Undisturbed, the machine's single commits add up to what CommitBatch does to the whole batch. |
| SchedulerStretches.FailStretch | services/fastenhancer-server/src/fastenhancer_server/scheduler.py:98-101 | Undisturbed, the machine's single failures add up to what FailBatch does. |
| Service.QueueHops | services/fastenhancer-server/src/fastenhancer_server/service.py:158-171 | A queue is as long as the configured time allows in whole hops, and at least one hop, so no queue is unbounded. |
| Service.EnhancementService.AcceptAudio | services/fastenhancer-server/src/fastenhancer_server/service.py:287-312 | The method does what Accept says, on the session and its rechunker; AcceptedWhen is what that means. |
| Service.AcceptedWhen | services/fastenhancer-server/src/fastenhancer_server/service.py:287-312 | Any chunk in any state is accepted exactly if its payload is whole samples and within the limit, it is the next by sequence and by offset, and it fits; otherwise it has the status of the first condition that fails and the session stays as it was, unless only room was missing. |
| Service.FirstChunkFits | services/fastenhancer-server/src/fastenhancer_server/session.py:66-70 | A new session takes a first chunk of up to exactly the hops its input queue can hold. |
| Service.EnhancementService.EnqueueAndNotify | services/fastenhancer-server/src/fastenhancer_server/service.py:313-316 | A hop joins the input queue and its session the ready queue if it has to. |
| Service.EnhancementService.CancelAndEmitFailure | services/fastenhancer-server/src/fastenhancer_server/service.py:278-285 | A violation cancels the stream, drains its output with the gauge, and leaves only the failure. |
| Service.EnhancementService.NextEvent | services/fastenhancer-server/src/fastenhancer_server/service.py:192-218 | The next event is sent with the next output number, and the gauge follows. |
| Service.EnhancementService.Teardown | services/fastenhancer-server/src/fastenhancer_server/service.py:221-231 | Both queues are drained with the gauge, and the stream is cancelled. |
| StreamSteps.StepInv | services/fastenhancer-server/src/fastenhancer_server/service.py:240-340 | Every stretch of reader, consumer and scheduler keeps the invariants of a stream. |
| ServerProjection.ProjectInfer | services/fastenhancer-server/src/fastenhancer_server/scheduler.py:91-104 | What a stream gets from a batch is what it would compute alone from its captured caches. |
| ServerProjection.Projection | services/fastenhancer-server/src/fastenhancer_server/scheduler.py:57-136 | Every step of the server is a step of each stream alone, or none at all. |
| ServerInvariants.RunsAreOk | services/fastenhancer-server/src/fastenhancer_server/scheduler.py:57-136 | In every run every stream keeps its invariants and no batch holds a stream twice. |
| ServerTheorems.BatchingRefinesPipeline | services/fastenhancer-server/src/fastenhancer_server/scheduler.py:57-136 | What a client is sent is a prefix of what StreamingPipeline yields on its own hops, and all of it once completed, in every interleaving. |
| ServerTheorems.SampleConservation | services/fastenhancer-server/src/fastenhancer_server/service.py:304-332 | In every live state accepted samples are pending, waiting, in flight, delayed or sent, each in one place; after an end without flush exactly the last whole hop is gone as well. |
| Reference.DriveIsPipeline | services/fastenhancer-server/src/fastenhancer_server/pipeline.py:27-56 | Driving a pipeline by the work list of an input yields what StreamingPipeline yields on its hops. |
| ServerOutcomes.ClientSees | services/fastenhancer-server/src/fastenhancer_server/service.py:191-218 | Acceptance, then audio numbered 0, 1, 2, ... without gap from the start offset and never beyond the input, then at most one terminal message. |
| ServerOutcomes.CompletionCounts | services/fastenhancer-server/src/fastenhancer_server/scheduler.py:147-165 | A completion reports the input accepted and the audio sent: equal with flush, and 256 * max(0, n / 256 - 1) without. |
| ServerOutcomes.EndsAsAsked | services/fastenhancer-server/src/fastenhancer_server/service.py:318-332 | In every run the mode a completion reports is set by the first end the reader takes, with or without flush as that end says, and by nothing else. |
| ServerOutcomes.InferenceOutcome | services/fastenhancer-server/src/fastenhancer_server/scheduler.py:93-104 | In every run a batch whose inference raises is failed whole, any other is committed whole, in the same order. |
| ServerOutcomes.SilentAfterCancel | services/fastenhancer-server/src/fastenhancer_server/scheduler.py:103-105 | Once a stream is cancelled no more of its audio is emitted or sent, in any continuation. |
| ServerOutcomes.TeardownEmpties | services/fastenhancer-server/src/fastenhancer_server/service.py:221-238 | Teardown cancels a stream and empties both queues, and the reader cancelled after it is stopped. |
| ServerOutcomes.StoppedAddsNothing | services/fastenhancer-server/src/fastenhancer_server/service.py:235-238 | In every continuation a stopped reader stays stopped and adds nothing to the input queue. |
| ServerProgress.EveryStreamCanFinish | services/fastenhancer-server/src/fastenhancer_server/scheduler.py:57-136 | No dead end: from every state of every run each live stream whose client listens and whose output queue holds two events can still be brought to its completion, with all that StreamingPipeline yields sent, whatever other streams left behind. |
| ServerFairness.NoLostWakeup | services/fastenhancer-server/src/fastenhancer_server/scheduler.py:43-47 | The scheduled flag is exactly membership in ready queue or batch, no batch repeats a stream, and a live stream with input is with the scheduler. |
| ServerFairness.ArrivalsAreLive | services/fastenhancer-server/src/fastenhancer_server/scheduler.py:43-47 | A stream enters the ready queue only while it is live, unscheduled, with input, and the scheduler is not closing. |
| ServerFairness.WithinBounds | services/fastenhancer-server/src/fastenhancer_server/scheduler.py:59-71 | In every run batches and both queues of every stream stay within their bounds, and a batch grows exactly as long as it is below its size and a stream waits. |
| ServerFairness.FirstInFirstOut | services/fastenhancer-server/src/fastenhancer_server/scheduler.py:57-87 | Ready queue and batch are first-in, first-out over every run, and each iteration collects someone. |
| ServerFairness.BoundedBypass | services/fastenhancer-server/src/fastenhancer_server/scheduler.py:57-87 | Before a waiting stream is taken only those before it are, each once. |
| ServerFairness.TakenInTime | services/fastenhancer-server/src/fastenhancer_server/scheduler.py:57-87 | Position p of the ready queue is collected within p + 1 iterations and taken when the last of them has taken its batch. |
| ServerGauge.GaugeConservation | services/fastenhancer-server/src/fastenhancer_server/scheduler.py:115-131 | output_queue_samples is the audio queued in all streams, in every state of every run. |
| ServerIsolation.EachStreamAlone | services/fastenhancer-server/src/fastenhancer_server/scheduler.py:57-136 | Each stream is in the state it would reach alone with its own steps; batches it has no work in are not among them. |
| ServerIsolation.NonInterference | services/fastenhancer-server/src/fastenhancer_server/scheduler.py:57-136 | Two runs with any other streams and any batches of their own that give a stream the same steps leave it in the same state. |
| ServerIsolation.CancelledByItself | services/fastenhancer-server/src/fastenhancer_server/service.py:240-340 | The exact condition for a step to cancel a live stream, and the status it then reports: its own reader, teardown, full queue, or a batch of its own whose inference raised, and no step of another stream. |
| ServerAlone.OthersMakeNoDifference | services/fastenhancer-server/src/fastenhancer_server/scheduler.py:57-136 | Taking away every label and batch of all other streams leaves a stream, now the only one, in the very same state. |
| Timeline.ContiguousPCM.Append | packages/livekit-plugins-fastenhancer/livekit/plugins/fastenhancer/timeline.py:17-22 | Appends exactly at the end and in whole samples; otherwise refuses without effect. |
| Timeline.ContiguousPCM.Read | packages/livekit-plugins-fastenhancer/livekit/plugins/fastenhancer/timeline.py:24-28 | Returns the bytes of the interval exactly if all of it is held. |
| Timeline.ContiguousPCM.DiscardBefore | packages/livekit-plugins-fastenhancer/livekit/plugins/fastenhancer/timeline.py:30-34 | Drops the samples before the given one, at most all. |
| Timeline.ContiguousPCM.ClearAt | packages/livekit-plugins-fastenhancer/livekit/plugins/fastenhancer/timeline.py:36-38 | Empties the buffer at a new offset. |
| Timeline.AppendRead | packages/livekit-plugins-fastenhancer/livekit/plugins/fastenhancer/timeline.py:17-28 | What is appended is read back, and nothing readable before changes. |
| Timeline.DiscardRead | packages/livekit-plugins-fastenhancer/livekit/plugins/fastenhancer/timeline.py:24-34 | Discarding forgets exactly the samples before the given one and does not move the end. |
| Timeline.Refusals | packages/livekit-plugins-fastenhancer/livekit/plugins/fastenhancer/timeline.py:17-67 | When the buffers refuse, and with which error. |
| Timeline.EnhancedSegments.InsertAudio | packages/livekit-plugins-fastenhancer/livekit/plugins/fastenhancer/timeline.py:55-69 | The loop finds the first overlap: an exact duplicate changes nothing, any other is refused, none means a sorted insertion. |
| Timeline.EnhancedSegments.Read | packages/livekit-plugins-fastenhancer/livekit/plugins/fastenhancer/timeline.py:71-86 | The loop over segments returns the whole interval or nothing. |
| Timeline.EnhancedSegments.DiscardBefore | packages/livekit-plugins-fastenhancer/livekit/plugins/fastenhancer/timeline.py:88-98 | The loop drops and cuts segments at the given sample. |
| TimelineMap.InsertRefinesMap | packages/livekit-plugins-fastenhancer/livekit/plugins/fastenhancer/timeline.py:55-69 | Insertion adds the interval to the map; it succeeds exactly for a free interval or an exact duplicate, which changes nothing. |
| TimelineMap.ReadRefinesMap | packages/livekit-plugins-fastenhancer/livekit/plugins/fastenhancer/timeline.py:71-86 | For a non-empty interval reading succeeds exactly if every sample is in the map, and returns the map's values. |
| TimelineMap.ReadOfNothing | packages/livekit-plugins-fastenhancer/livekit/plugins/fastenhancer/timeline.py:71-86 | An empty interval is answered exactly where a sample is stored, which is why the processor never asks for one. |
| TimelineMap.DiscardRefinesMap | packages/livekit-plugins-fastenhancer/livekit/plugins/fastenhancer/timeline.py:88-98 | Discarding restricts the map to the samples from the given one on. |
| TimelineMap.LifeIsMap | packages/livekit-plugins-fastenhancer/livekit/plugins/fastenhancer/timeline.py:51-101 | Over any sequence of operations the segments stay sorted, non-empty and disjoint, and are the partial map. |
| Processor.RemoteFastEnhancer.constructor | packages/livekit-plugins-fastenhancer/livekit/plugins/fastenhancer/processor.py:111-121 | A processor starts enabled, at zero, with nothing stored. |
| Processor.RemoteFastEnhancer.SetEnabled | packages/livekit-plugins-fastenhancer/livekit/plugins/fastenhancer/processor.py:152-168 | A real toggle empties both buffers and moves the output cursor to the input cursor; otherwise nothing happens. |
| Processor.RemoteFastEnhancer.GenerationChanged | packages/livekit-plugins-fastenhancer/livekit/plugins/fastenhancer/processor.py:200-208 | A newer generation empties the enhanced audio; an older one only sets the state. |
| Processor.RemoteFastEnhancer.ProtocolError | packages/livekit-plugins-fastenhancer/livekit/plugins/fastenhancer/processor.py:210-216 | A fault of the current generation is counted and empties the enhanced audio. |
| Processor.RemoteFastEnhancer.ReceiveAudio | packages/livekit-plugins-fastenhancer/livekit/plugins/fastenhancer/processor.py:218-247 | Late responses are counted, others trimmed at the output cursor and stored; beyond the input or overlapping is a mismatch. |
| Processor.RemoteFastEnhancer.ProcessBegin | packages/livekit-plugins-fastenhancer/livekit/plugins/fastenhancer/processor.py:254-275 | Frame checks, input cursor, pass-through while disabled, raw buffer while enabled. |
| Processor.RemoteFastEnhancer.QueueOverflow | packages/livekit-plugins-fastenhancer/livekit/plugins/fastenhancer/processor.py:276-280 | A refused frame is counted and empties the enhanced audio. |
| Processor.RemoteFastEnhancer.ProcessFinish | packages/livekit-plugins-fastenhancer/livekit/plugins/fastenhancer/processor.py:281-306 | The method does what Finish says; EnhancedExactlyWhenStored is what that means. |
| Processor.RemoteFastEnhancer.Process | packages/livekit-plugins-fastenhancer/livekit/plugins/fastenhancer/processor.py:253-313 | A frame when nothing runs between its locked sections. |
| Processor.RemoteFastEnhancer.CloseFirst | packages/livekit-plugins-fastenhancer/livekit/plugins/fastenhancer/processor.py:316-319 | Closing first only marks the processor closed. |
| Processor.RemoteFastEnhancer.CloseLast | packages/livekit-plugins-fastenhancer/livekit/plugins/fastenhancer/processor.py:332-334 | Closing last empties both buffers and leaves the output cursor where it is. |
| ProcessorMap.EnhancedExactlyWhenStored | packages/livekit-plugins-fastenhancer/livekit/plugins/fastenhancer/processor.py:281-313 | In every run, whatever came between the two locked sections, what a frame emits is enhanced exactly if every sample due is stored, and then is what is stored; otherwise it is the raw audio of the same interval; frame, log and metrics agree and the output cursor moves exactly to the lag. |
| ProcessorMap.ReceiveRefinesMap | packages/livekit-plugins-fastenhancer/livekit/plugins/fastenhancer/processor.py:218-247 | What any response does to the map, exactly: late samples only counted, a response that fits stored from the output cursor on, any other one mismatch and a reset. |
| ProcessorMap.StoredAfter | packages/livekit-plugins-fastenhancer/livekit/plugins/fastenhancer/processor.py:152-304 | The map after any action in any run: stored, forgotten behind the cursor, thrown away by exactly the actions that clear it, or unchanged. |
| ProcessorMap.StepMoves | packages/livekit-plugins-fastenhancer/livekit/plugins/fastenhancer/processor.py:151-280 | In every run switch, generation, state, cursors, log and event counters change exactly with their events. |
| ProcessorMap.ClosingEmpties | packages/livekit-plugins-fastenhancer/livekit/plugins/fastenhancer/processor.py:315-334 | Once closed no frame is taken in, and the end of closing leaves nothing stored. |
| ProcessorRuns.ExactLag | packages/livekit-plugins-fastenhancer/livekit/plugins/fastenhancer/processor.py:281-304 | Between frames output == max(base, input - D), and the raw buffer is exactly the input between the cursors, at most D samples. |
| ProcessorRuns.NeverRaises | packages/livekit-plugins-fastenhancer/livekit/plugins/fastenhancer/processor.py:253-304 | In every reachable state no buffer refuses; a frame fails only for its rate, channels, length or size or because the processor is closed, with the error that says so. |
| ProcessorAlignment.TimeAlignment | packages/livekit-plugins-fastenhancer/livekit/plugins/fastenhancer/processor.py:218-313 | Output intervals tile the timeline but for jumps to exactly the input cursor at toggles, and each sample for t is raw sample t or one the current generation delivered for t. |
| ProcessorAlignment.RedeliveryIsIdempotent | packages/livekit-plugins-fastenhancer/livekit/plugins/fastenhancer/processor.py:229-240 | A response once accepted may come again, even after trimming: the map stays and no mismatch is counted. |
| ProcessorAlignment.MetricsCountSamples | packages/livekit-plugins-fastenhancer/livekit/plugins/fastenhancer/processor.py:264-306 | The sample counters are the input cursor and the samples emitted, split as they were emitted. |
| Utf8.TruncateIsLongestPrefix | packages/livekit-plugins-fastenhancer/livekit/plugins/fastenhancer/transport.py:25-27 | Truncation gives the longest prefix of code points whose encoding fits, and fails exactly on text without an encoding. |
| Utf8.DecodeEncode | packages/livekit-plugins-fastenhancer/livekit/plugins/fastenhancer/transport.py:25-27 | Decoding undoes encoding. |
| Handshake.StartAlwaysPasses | packages/livekit-plugins-fastenhancer/livekit/plugins/fastenhancer/transport.py:192-208 | The StartStream built from any metadata names the first sample of the generation and passes all checks; its entries come from the first sixteen items, and each of these with a key that no later one replaces is in it. |
| Handshake.ValidateStart | services/fastenhancer-server/src/fastenhancer_server/service.py:110-134 | The first message is accepted exactly if it is a StartStream whose version, identifier, format and every metadata entry are within the limits; the status is that of the first failing check. |
| Handshake.AcceptedStart | services/fastenhancer-server/src/fastenhancer_server/service.py:110-134 | A StartStream passes exactly if it is version 1, its identifier has 1 to 128 bytes, its audio is 16 kHz mono PCM-S16LE, and its metadata has at most 16 entries with keys of 1 to 64 bytes and values of at most 256. |
| Transport.RequestIterator | packages/livekit-plugins-fastenhancer/livekit/plugins/fastenhancer/transport.py:192-229 | Metadata, start and loop: the method does what Messages says; YieldsExactly and ClientPassesServer are what that means. |
| Transport.YieldsExactly | packages/livekit-plugins-fastenhancer/livekit/plugins/fastenhancer/transport.py:209-229 | Exactly the requests that continue one another become chunks numbered 0, 1, 2, ... with their own offsets and bytes, and an end after them follows with the same flush; nothing else is sent. |
| Transport.ChecksExactly | packages/livekit-plugins-fastenhancer/livekit/plugins/fastenhancer/transport.py:256-284 | Exactly the responses that follow one another are handed over; the first that does not ends the generation, well only if it is StreamEnded. |
| Transport.UnacceptedIsMismatch | packages/livekit-plugins-fastenhancer/livekit/plugins/fastenhancer/transport.py:259-267 | Anything but a matching acceptance at the beginning is a mismatch and hands nothing over. |
| Transport.RunGeneration | packages/livekit-plugins-fastenhancer/livekit/plugins/fastenhancer/transport.py:251-284 | The loop hands audio over until a check fails, the stream ends or the call breaks, and reports which. |
| Composition.ClientPassesServer | packages/livekit-plugins-fastenhancer/livekit/plugins/fastenhancer/transport.py:192-229 | Whatever happens to the request queue, a generation sends a valid StartStream and then only chunks in place for the session that this StartStream opens, and nothing after the end. |
| Composition.ServerPassesClient | packages/livekit-plugins-fastenhancer/livekit/plugins/fastenhancer/transport.py:256-284 | In every run what the server sends passes the client's checks, is handed over whole, and stays within the accepted input. |
| EndToEnd.NeverAMismatch | packages/livekit-plugins-fastenhancer/livekit/plugins/fastenhancer/processor.py:234-247 | With this server no response is ever a mismatch, in every interleaving of plugin, transport and server, closing included. |
| EndToEnd.EnhancedIsPipelineOfRaw | packages/livekit-plugins-fastenhancer/livekit/plugins/fastenhancer/processor.py:262-268 | What is handed over in the current call is what StreamingPipeline yields on the raw input from its first sample on. |
| LoopTransit.NothingMisplaced | services/fastenhancer-server/src/fastenhancer_server/service.py:261-303 | In every run of the whole loop the next message a server stream reads is the chunk it expects or the end: no second start, nothing after the end, no wrong sequence or offset. |
| LoopTransit.WaitingAudioArrives | packages/livekit-plugins-fastenhancer/livekit/plugins/fastenhancer/transport.py:314-321 | From every run in which the worker waits and audio is at the head of the queue, that audio can be brought, as a new generation, into a server stream at its own offset, whatever resets came before. |
| LoopTransit.NextAudioArrives | packages/livekit-plugins-fastenhancer/livekit/plugins/fastenhancer/transport.py:209-227 | From every run in which the call can go on, the next request is taken off the queue and its samples join what the server has taken in. |
| LoopTransit.FrameQueued | packages/livekit-plugins-fastenhancer/livekit/plugins/fastenhancer/processor.py:262-280 | A frame taken in while enabled becomes the last request of the queue, for its own interval, or is counted as an overflow that throws all enhanced audio away. |
| EmittedAudio.DeliveriesAreExact | packages/livekit-plugins-fastenhancer/livekit/plugins/fastenhancer/transport.py:268-279 | In every run what reached the processor under a generation is exactly what the call of that generation handed over, in order. |
| EmittedAudio.EmittedIsPipelineOfRaw | packages/livekit-plugins-fastenhancer/livekit/plugins/fastenhancer/processor.py:262-313 | Every sample the processor emits for t, in every run, is raw sample t or what StreamingPipeline yields for t on the processor's own raw input from the first sample of that generation on. |

## Left out

- The neural network, STFT, CUDA, devices and dtypes: only an uninterpreted function and tensor shapes remain, and float32 rounding inside the network is not modelled.
- gRPC plumbing, TLS, authentication, health and HTTP endpoints, settings, packaging, model download, benchmarks and example clients.
- Wall-clock time: time-outs, batch wait, backoff and latency histograms are free choices of a run.
- Liveness of the event loop: that an enabled step is eventually run is not claimed; the fairness results count iterations and takes.
- The capacity of the ready queue: it is an unbounded queue here, and no bound by the number of active streams is claimed.
- StreamRegistry, capability comparison and configuration range checks: single-branch facts. An acceptance is taken to match the client's locked capabilities.
- The 64-bit range of protocol fields: offsets and counters are unbounded.
- Details of failures: only the status is kept, not the message text. That inference raises, for NaN or for any other reason, is a free choice of a run.
- The input gauge: teardown drains the input queue before the reader is cancelled, so exact equality is not kept by the code either.
- The transport's pending-sample counter: whether the request queue accepts a frame is a free choice.
- The blocking put on the request queue when it is full of control requests.
- The uninitialised samples of the work that ends a stream without flush: they never reach the network; zeros stand for them.
- `_close` running beside `_process`: one thread is assumed to call both. Joining the worker thread is not modelled; its call may be lost at any moment.
- `_read_requests`, `Enhance` and the outer loop of `_run` are steps of the machines rather than one method each, because other tasks act at every suspension point in them.
- Non-string metadata values: `str` of them is taken as given.
- The worker's choice among control requests while it waits, beyond taking the next audio request.
- Guaranteed clean completion: the code does not give it, so results about completions are conditional on one; that one stays possible is proved.
- A processor's way from a stored response back to its frame is exact, but that responses come in time is not claimed.

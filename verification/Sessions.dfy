/** Per-stream state, the events a stream emits, and the meaning of every operation on one stream. */
module Sessions {
  import opened Wrappers
  import opened Pcm
  import opened Rechunker
  import opened Caches

  datatype Status = INVALID_ARGUMENT | FAILED_PRECONDITION | RESOURCE_EXHAUSTED | DEADLINE_EXCEEDED | INTERNAL

  datatype ModelWork = ModelWork(samples: seq<real>, source: Option<SourceHop>, terminalFlush: bool,
                                 terminalNoFlush: bool)

  datatype OutputEvent =
    | OutputAudio(start: int, pcm: seq<Byte>, valid: nat)
    | StreamCompletion(inputSamples: nat, outputSamples: nat, flushed: bool)
    | RPCFailure(status: Status)

  datatype Session = Session(
    inputStart: nat,
    expectedInput: nat,
    expectedSequence: nat,
    inputSamples: nat,
    outputSamples: nat,
    outputSequence: nat,
    caches: StreamCaches,
    rechunk: Rechunk,
    inputQueue: seq<ModelWork>,
    inputCap: nat,
    outputQueue: seq<OutputEvent>,
    outputCap: nat,
    pendingSource: Option<SourceHop>,
    scheduled: bool,
    ended: bool,
    cancelled: bool)

  function SourceWork(hop: SourceHop): ModelWork {
    ModelWork(hop.samples, Some(hop), false, false)
  }

  const FLUSH_WORK := ModelWork(Padding(HOP), None, true, false)
  const NO_FLUSH_WORK := ModelWork(Padding(HOP), None, false, true)

  /** Samples of audio waiting in an output queue: what the gauge output_queue_samples counts for one stream. */
  function Queued(events: seq<OutputEvent>): nat {
    if events == [] then 0
    else (if events[0].OutputAudio? then events[0].valid else 0) + Queued(events[1..])
  }

  lemma {:induction false} QueuedAppend(events: seq<OutputEvent>, e: OutputEvent)
    ensures Queued(events + [e]) == Queued(events) + (if e.OutputAudio? then e.valid else 0)
  {
    if events != [] {
      QueuedAppend(events[1..], e);
      assert (events + [e])[1..] == events[1..] + [e];
    }
  }

  // ---- Scheduler operations on one session; each comes with the change it makes to the output gauge ----

  /** scheduler._fail, and the reader's cancel followed by _emit_failure. */
  function Fail(s: Session, status: Status): Session {
    s.(cancelled := true, outputQueue := [RPCFailure(status)])
  }

  function FailGauge(s: Session): int {
    0 - Queued(s.outputQueue)
  }

  function Full(s: Session): bool {
    |s.outputQueue| >= s.outputCap
  }

  function Complete(s: Session, flushed: bool): Session {
    if s.ended then s
    else
      var s1 := s.(ended := true);
      if Full(s1) then Fail(s1, RESOURCE_EXHAUSTED)
      else s1.(outputQueue := s1.outputQueue + [StreamCompletion(s.inputSamples, s.outputSamples, flushed)])
  }

  function CompleteGauge(s: Session): int {
    if !s.ended && Full(s) then FailGauge(s) else 0
  }

  function CompleteWithoutFlush(s: Session): Session {
    Complete(s.(pendingSource := None), false)
  }

  /** One iteration of the loop that collects work: the new session, and the work that joins the batch. */
  function Take(s: Session): (Session, Option<ModelWork>) {
    var s1 := s.(scheduled := false);
    if s.cancelled || s.ended || s.inputQueue == [] then (s1, None)
    else
      var work := s.inputQueue[0];
      var s2 := s1.(inputQueue := s.inputQueue[1..]);
      if work.terminalNoFlush then (CompleteWithoutFlush(s2), None) else (s2, Some(work))
  }

  function TakeGauge(s: Session): int {
    if !s.cancelled && !s.ended && s.inputQueue != [] && s.inputQueue[0].terminalNoFlush then CompleteGauge(s) else 0
  }

  function Cut(pcm: seq<Byte>, samples: nat): seq<Byte> {
    if 2 * samples <= |pcm| then pcm[..2 * samples] else pcm
  }

  function Audio(hop: SourceHop, pcm: seq<Byte>): OutputEvent {
    OutputAudio(hop.start, Cut(pcm, hop.valid), hop.valid)
  }

  /** The session after its caches and delayed source are replaced, before the output is emitted. */
  function Advance(s: Session, work: ModelWork, updated: StreamCaches): Session {
    s.(caches := updated, pendingSource := if work.terminalFlush then None else work.source)
  }

  function Emit(s: Session, previous: SourceHop, pcm: seq<Byte>): Session {
    s.(outputQueue := s.outputQueue + [Audio(previous, pcm)], outputSamples := s.outputSamples + previous.valid)
  }

  predicate Overflows(s: Session) {
    s.pendingSource.Some? && Full(s)
  }

  /** One iteration of the loop that commits a batch, before a live session with more input is notified again. */
  function Commit(s: Session, work: ModelWork, pcm: seq<Byte>, updated: StreamCaches): Session {
    if s.cancelled || s.ended then s
    else
      var s1 := Advance(s, work, updated);
      if Overflows(s) then Fail(s1, RESOURCE_EXHAUSTED)
      else
        var s2 := if s.pendingSource.Some? then Emit(s1, s.pendingSource.value, pcm) else s1;
        if work.terminalFlush then Complete(s2, true) else s2
  }

  function CommitGauge(s: Session, work: ModelWork, pcm: seq<Byte>, updated: StreamCaches): int {
    if s.cancelled || s.ended then 0
    else if Overflows(s) then FailGauge(s)
    else
      var s1 := Advance(s, work, updated);
      var s2 := if s.pendingSource.Some? then Emit(s1, s.pendingSource.value, pcm) else s1;
      (if s.pendingSource.Some? then s.pendingSource.value.valid else 0)
      + (if work.terminalFlush then CompleteGauge(s2) else 0)
  }

  /** Whether a commit ends by notifying the scheduler again. */
  predicate Renotifies(s: Session, work: ModelWork) {
    !s.cancelled && !s.ended && !Overflows(s) && !work.terminalFlush && s.inputQueue != []
  }

  /** scheduler.notify: whether the session enters the ready queue. */
  predicate Wakes(s: Session, closing: bool) {
    !closing && !s.cancelled && !s.scheduled && s.inputQueue != []
  }

  function Notify(s: Session, closing: bool): Session {
    if Wakes(s, closing) then s.(scheduled := true) else s
  }

  /** A whole commit iteration, with the notification that may end it. */
  function CommitAndNotify(s: Session, work: ModelWork, pcm: seq<Byte>, updated: StreamCaches, closing: bool): Session {
    var s1 := Commit(s, work, pcm, updated);
    if Renotifies(s, work) then Notify(s1, closing) else s1
  }

  predicate CommitWakes(s: Session, work: ModelWork, pcm: seq<Byte>, updated: StreamCaches, closing: bool) {
    Renotifies(s, work) && Wakes(Commit(s, work, pcm, updated), closing)
  }

  lemma FailKeepsGauge(s: Session, status: Status)
    ensures FailGauge(s) == Queued(Fail(s, status).outputQueue) - Queued(s.outputQueue)
  {
  }

  lemma CompleteKeepsGauge(s: Session, flushed: bool)
    ensures CompleteGauge(s) == Queued(Complete(s, flushed).outputQueue) - Queued(s.outputQueue)
  {
    QueuedAppend(s.outputQueue, StreamCompletion(s.inputSamples, s.outputSamples, flushed));
  }

  lemma TakeKeepsGauge(s: Session)
    ensures TakeGauge(s) == Queued(Take(s).0.outputQueue) - Queued(s.outputQueue)
  {
    if s.inputQueue != [] {
      CompleteKeepsGauge(s.(scheduled := false, inputQueue := s.inputQueue[1..], pendingSource := None), false);
    }
  }

  lemma CommitKeepsGauge(s: Session, work: ModelWork, pcm: seq<Byte>, updated: StreamCaches)
    ensures CommitGauge(s, work, pcm, updated)
            == Queued(Commit(s, work, pcm, updated).outputQueue) - Queued(s.outputQueue)
  {
    var s1 := Advance(s, work, updated);
    if s.pendingSource.Some? {
      QueuedAppend(s.outputQueue, Audio(s.pendingSource.value, pcm));
      CompleteKeepsGauge(Emit(s1, s.pendingSource.value, pcm), true);
    } else {
      CompleteKeepsGauge(s1, true);
    }
  }

  /** When a flush ends well: the delayed hop and the completion are emitted in one stretch, so the output queue
      needs room for both; otherwise the stream fails and everything in the queue is lost. */
  lemma FlushEndsWhen(s: Session, pcm: seq<Byte>, updated: StreamCaches)
    requires !s.cancelled && !s.ended && s.pendingSource.Some? && |s.outputQueue| <= s.outputCap && 0 < s.outputCap
    ensures var after := Commit(s, FLUSH_WORK, pcm, updated);
            if |s.outputQueue| + 2 <= s.outputCap then
              !after.cancelled && after.ended
              && after.outputQueue
                 == s.outputQueue
                    + [Audio(s.pendingSource.value, pcm),
                       StreamCompletion(s.inputSamples, s.outputSamples + s.pendingSource.value.valid, true)]
            else after.cancelled && after.outputQueue == [RPCFailure(RESOURCE_EXHAUSTED)]
  {
    var e := Audio(s.pendingSource.value, pcm);
    var done := StreamCompletion(s.inputSamples, s.outputSamples + s.pendingSource.value.valid, true);
    assert s.outputQueue + [e] + [done] == s.outputQueue + [e, done];
  }

  // ---- The mutable session ----

  type Capacity = n: nat | 0 < n witness 1

  class StreamSession {
    const inputStart: nat
    const inputCap: Capacity
    const outputCap: Capacity
    var expectedInput: nat
    var expectedSequence: nat
    var inputSamples: nat
    var outputSamples: nat
    var outputSequence: nat
    var caches: StreamCaches
    const rechunker: PCMRechunker
    var inputQueue: seq<ModelWork>
    var outputQueue: seq<OutputEvent>
    var pendingSource: Option<SourceHop>
    var scheduled: bool
    var ended: bool
    var cancelled: bool

    ghost predicate Valid()
      reads this, rechunker
    {
      rechunker.Valid()
    }

    ghost function View(): Session
      reads this, rechunker
    {
      Session(inputStart, expectedInput, expectedSequence, inputSamples, outputSamples, outputSequence, caches,
              rechunker.View(), inputQueue, inputCap, outputQueue, outputCap, pendingSource,
              scheduled, ended, cancelled)
    }

    constructor (inputStart: nat, caches: StreamCaches, inputQueueHops: Capacity, outputQueueHops: Capacity)
      ensures Valid() && fresh(rechunker)
      ensures View() == Opened(inputStart, caches, inputQueueHops, outputQueueHops)
    {
      this.inputStart := inputStart;
      expectedInput := inputStart;
      expectedSequence, inputSamples, outputSamples, outputSequence := 0, 0, 0, 0;
      this.caches := caches;
      var bound := if HOP >= inputQueueHops * HOP then HOP else inputQueueHops * HOP;
      rechunker := new PCMRechunker(inputStart, bound);
      inputQueue, inputCap := [], inputQueueHops;
      outputQueue, outputCap := [], outputQueueHops;
      pendingSource := None;
      scheduled, ended, cancelled := false, false, false;
    }

    /** put on the input queue; a caller waits until the queue has room. */
    method Enqueue(work: ModelWork)
      requires |inputQueue| < inputCap
      modifies this`inputQueue
      ensures inputQueue == old(inputQueue) + [work]
    {
      inputQueue := inputQueue + [work];
    }

    /** put_nowait on the output queue; false stands for QueueFull. */
    method EmitNowait(event: OutputEvent) returns (ok: bool)
      modifies this`outputQueue
      ensures ok <==> |old(outputQueue)| < outputCap
      ensures outputQueue == if ok then old(outputQueue) + [event] else old(outputQueue)
    {
      ok := |outputQueue| < outputCap;
      if ok {
        outputQueue := outputQueue + [event];
      }
    }

    method Cancel()
      modifies this`cancelled
      ensures cancelled
    {
      cancelled := true;
    }
  }

  function Opened(inputStart: nat, caches: StreamCaches, inputQueueHops: nat, outputQueueHops: nat): Session {
    Session(inputStart, inputStart, 0, 0, 0, 0, caches,
            Rechunk([], inputStart, if HOP >= inputQueueHops * HOP then HOP else inputQueueHops * HOP),
            [], inputQueueHops, [], outputQueueHops, None, false, false, false)
  }
}

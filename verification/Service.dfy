/** The RPC side of a stream: accepting audio, queueing work, delivering events and tearing the stream down. */
module Service {
  import opened Wrappers
  import opened Pcm
  import opened Rechunker
  import opened Caches
  import opened Sessions
  import opened Scheduler
  import Spec = Sessions

  datatype AudioChunk = AudioChunk(sequence: nat, start: nat, pcm: seq<Byte>)

  /** What a client is sent; Aborted stands for the status that terminates the RPC. */
  datatype ServerMessage =
    | Accepted
    | EnhancedAudio(sequence: nat, start: int, pcm: seq<Byte>, valid: nat)
    | StreamEnded(inputSamples: nat, outputSamples: nat, flushed: bool)
    | Aborted(status: Status)

  // ---- Meaning of the operations on one session ----

  /** Queue length for a bound in milliseconds of 16 kHz audio: as many hops as fit into the bound, but at least one,
      because a queue of length zero would be unbounded. */
  function QueueHops(milliseconds: nat): (hops: nat)
    ensures hops >= 1
    ensures hops > 1 ==> hops * HOP * 1000 <= milliseconds * 16000
    ensures milliseconds * 16000 < (hops + 1) * HOP * 1000
  {
    var whole := milliseconds * 16000 / 1000 / HOP;
    if whole < 1 then 1 else whole
  }

  function Accept(maxChunk: nat, s: Session, chunk: AudioChunk): (Session, Result<seq<SourceHop>, Status>) {
    if chunk.pcm == [] || |chunk.pcm| % 2 != 0 then (s, Err(INVALID_ARGUMENT))
    else
      var count := |chunk.pcm| / 2;
      if count > maxChunk then (s, Err(RESOURCE_EXHAUSTED))
      else if chunk.sequence != s.expectedSequence then (s, Err(INVALID_ARGUMENT))
      else if chunk.start != s.expectedInput then (s, Err(INVALID_ARGUMENT))
      else
        var s1 := s.(expectedSequence := s.expectedSequence + 1,
                     expectedInput := s.expectedInput + count,
                     inputSamples := s.inputSamples + count);
        match Append(s.rechunk, chunk.pcm)
        case Err(_) => (s1, Err(RESOURCE_EXHAUSTED))
        case Ok((rechunk, hops)) => (s1.(rechunk := rechunk), Ok(hops))
  }

  /** The chunk is the next one by sequence and offset: neither of the two checks for that can refuse it. */
  predicate InPlace(s: Session, chunk: AudioChunk) {
    chunk.sequence == s.expectedSequence && chunk.start == s.expectedInput
  }

  /** Whole samples, not none of them. */
  predicate WholeSamples(pcm: seq<Byte>) {
    pcm != [] && |pcm| % 2 == 0
  }

  /** The exact condition for accepting any chunk in any state: its payload is whole samples and within the limit,
      it is the next one by sequence and by offset, and it fits into the rechunker beside what is pending.
      Accepted, it extends the input, and what the reader gets are the whole hops. Refused, it has the status of
      the first of these conditions that fails, and unless only room was missing the session is as it was. */
  lemma AcceptedWhen(maxChunk: nat, s: Session, chunk: AudioChunk)
    ensures var n, (after, r) := |chunk.pcm| / 2, Accept(maxChunk, s, chunk);
            r.Ok? <==> WholeSamples(chunk.pcm) && n <= maxChunk && InPlace(s, chunk)
                       && |s.rechunk.pending| + n <= s.rechunk.bound
    ensures var n, (after, r) := |chunk.pcm| / 2, Accept(maxChunk, s, chunk);
            r.Ok? ==>
              && WholeSamples(chunk.pcm)
              && after == s.(expectedSequence := s.expectedSequence + 1, expectedInput := s.expectedInput + n,
                             inputSamples := s.inputSamples + n, rechunk := after.rechunk)
              && var all := s.rechunk.pending + Samples(chunk.pcm);
                 && r.value == FullHops(s.rechunk.next, all)
                 && after.rechunk == Rechunk(Rest(all), s.rechunk.next + WholeHops(|all|), s.rechunk.bound)
    ensures var n, (after, r) := |chunk.pcm| / 2, Accept(maxChunk, s, chunk);
            r.Err? ==>
              && r.error == (if !WholeSamples(chunk.pcm) then INVALID_ARGUMENT
                             else if n > maxChunk then RESOURCE_EXHAUSTED
                             else if !InPlace(s, chunk) then INVALID_ARGUMENT
                             else RESOURCE_EXHAUSTED)
              && (!(WholeSamples(chunk.pcm) && n <= maxChunk && InPlace(s, chunk)) ==> after == s)
  {
  }

  /** A new session accepts its first chunk, if that is within the limit, up to exactly the hops its input queue can
      hold. */
  lemma FirstChunkFits(maxChunk: nat, inputStart: nat, caches: StreamCaches, inputCap: Capacity, outputCap: Capacity,
                       pcm: seq<Byte>)
    requires WholeSamples(pcm) && |pcm| / 2 <= maxChunk
    ensures Accept(maxChunk, Opened(inputStart, caches, inputCap, outputCap), AudioChunk(0, inputStart, pcm)).1.Ok?
            <==> |pcm| / 2 <= 256 * inputCap
  {
    AcceptedWhen(maxChunk, Opened(inputStart, caches, inputCap, outputCap), AudioChunk(0, inputStart, pcm));
    hide Accept;
  }

  function Put(s: Session, work: ModelWork): Session {
    s.(inputQueue := s.inputQueue + [work])
  }

  function Message(s: Session, e: OutputEvent): ServerMessage {
    match e
    case OutputAudio(start, pcm, valid) => EnhancedAudio(s.outputSequence, start, pcm, valid)
    case StreamCompletion(i, o, f) => StreamEnded(i, o, f)
    case RPCFailure(status) => Aborted(status)
  }

  /** Taking the next event off the output queue and sending it. */
  function Deliver(s: Session): (Session, ServerMessage)
    requires s.outputQueue != []
  {
    var e := s.outputQueue[0];
    (s.(outputQueue := s.outputQueue[1..],
        outputSequence := if e.OutputAudio? then s.outputSequence + 1 else s.outputSequence),
     Message(s, e))
  }

  function DeliverGauge(s: Session): int
    requires s.outputQueue != []
  {
    if s.outputQueue[0].OutputAudio? then 0 - s.outputQueue[0].valid else 0
  }

  function TornDown(s: Session): Session {
    s.(cancelled := true, inputQueue := [], outputQueue := [])
  }

  class EnhancementService {
    const scheduler: BatchScheduler
    const metrics: ServerMetrics
    const maxChunk: nat

    constructor (scheduler: BatchScheduler, maxChunk: nat)
      ensures this.scheduler == scheduler && metrics == scheduler.metrics && this.maxChunk == maxChunk
    {
      this.scheduler, this.metrics, this.maxChunk := scheduler, scheduler.metrics, maxChunk;
    }

    /** _accept_audio up to the first hop it enqueues. */
    method AcceptAudio(chunk: AudioChunk, session: StreamSession) returns (r: Result<seq<SourceHop>, Status>)
      requires session.Valid()
      modifies session, session.rechunker
      ensures session.Valid()
      ensures (session.View(), r) == Accept(maxChunk, old(session.View()), chunk)
    {
      var size := |chunk.pcm|;
      if size == 0 || size % 2 != 0 {
        return Err(INVALID_ARGUMENT);
      }
      var sampleCount := size / 2;
      if sampleCount > maxChunk {
        return Err(RESOURCE_EXHAUSTED);
      }
      if chunk.sequence != session.expectedSequence {
        return Err(INVALID_ARGUMENT);
      }
      if chunk.start != session.expectedInput {
        return Err(INVALID_ARGUMENT);
      }
      session.expectedSequence := session.expectedSequence + 1;
      session.expectedInput := session.expectedInput + sampleCount;
      session.inputSamples := session.inputSamples + sampleCount;
      var hops := session.rechunker.Add(chunk.pcm);
      if hops.Err? {
        return Err(RESOURCE_EXHAUSTED);
      }
      return Ok(hops.value);
    }

    /** One put on a queue that has room, and the notification that follows it without suspension. */
    method EnqueueAndNotify(session: StreamSession, work: ModelWork)
      requires |session.inputQueue| < session.inputCap
      modifies session`inputQueue, session`scheduled, scheduler`ready
      ensures session.View() == Spec.Notify(Put(old(session.View()), work), scheduler.closing)
      ensures scheduler.ready
              == if Wakes(Put(old(session.View()), work), scheduler.closing) then old(scheduler.ready) + [session]
                 else old(scheduler.ready)
    {
      session.Enqueue(work);
      scheduler.Notify(session);
    }

    /** The reader's answer to a violation: cancel, drop what is queued, report the status. */
    method CancelAndEmitFailure(session: StreamSession, status: Status)
      modifies session`cancelled, session`outputQueue, metrics
      ensures session.View() == Spec.Fail(old(session.View()), status)
      ensures metrics.outputQueueSamples == old(metrics.outputQueueSamples) + FailGauge(old(session.View()))
    {
      session.Cancel();
      while session.outputQueue != []
        invariant session.cancelled
        invariant metrics.outputQueueSamples - Queued(session.outputQueue)
                  == old(metrics.outputQueueSamples - Queued(session.outputQueue))
        decreases |session.outputQueue|
      {
        var event := session.outputQueue[0];
        session.outputQueue := session.outputQueue[1..];
        if event.OutputAudio? {
          metrics.outputQueueSamples := metrics.outputQueueSamples - event.valid;
        }
      }
      var ok := session.EmitNowait(RPCFailure(status));
      assert ok;
    }

    method NextEvent(session: StreamSession) returns (message: ServerMessage)
      requires session.outputQueue != []
      modifies session`outputQueue, session`outputSequence, metrics
      ensures (session.View(), message) == Deliver(old(session.View()))
      ensures metrics.outputQueueSamples == old(metrics.outputQueueSamples) + DeliverGauge(old(session.View()))
    {
      var event := session.outputQueue[0];
      session.outputQueue := session.outputQueue[1..];
      match event {
        case OutputAudio(start, pcm, valid) =>
          metrics.outputQueueSamples := metrics.outputQueueSamples - valid;
          message := EnhancedAudio(session.outputSequence, start, pcm, valid);
          session.outputSequence := session.outputSequence + 1;
        case StreamCompletion(i, o, f) =>
          message := StreamEnded(i, o, f);
        case RPCFailure(status) =>
          message := Aborted(status);
      }
    }

    /** The clean-up of Enhance: cancel the session and drain both of its queues. */
    method Teardown(session: StreamSession)
      modifies session`cancelled, session`inputQueue, session`outputQueue, metrics
      ensures session.View() == TornDown(old(session.View()))
      ensures metrics.outputQueueSamples == old(metrics.outputQueueSamples) + FailGauge(old(session.View()))
    {
      session.Cancel();
      while session.inputQueue != []
        invariant session.cancelled && session.outputQueue == old(session.outputQueue)
        invariant metrics.outputQueueSamples == old(metrics.outputQueueSamples)
        decreases |session.inputQueue|
      {
        session.inputQueue := session.inputQueue[1..];
      }
      while session.outputQueue != []
        invariant session.cancelled && session.inputQueue == []
        invariant metrics.outputQueueSamples - Queued(session.outputQueue)
                  == old(metrics.outputQueueSamples - Queued(session.outputQueue))
        decreases |session.outputQueue|
      {
        var event := session.outputQueue[0];
        session.outputQueue := session.outputQueue[1..];
        if event.OutputAudio? {
          metrics.outputQueueSamples := metrics.outputQueueSamples - event.valid;
        }
      }
    }
  }
}

/** One stream as a state machine: reader, consumer and scheduler act on it one atomic stretch at a time.
    A stretch that is not enabled leaves the state as it is, so every list of stretches is a run. */
module StreamMachine {
  import opened Wrappers
  import opened Pcm
  import opened Rechunker
  import opened Caches
  import opened Pipeline
  import opened Sessions
  import opened Service

  /** How far the client's input has got: still sending, ended with flush, or ended without. */
  datatype Mode = Sending | Flushing | Dropping

  /** Where the reader is suspended. */
  datatype Reader =
    | Reading
    | Putting(hops: seq<SourceHop>, finishing: bool)
    | PuttingFlush
    | PuttingNoFlush
    | Returned
    | Failed

  datatype Consumer = Accepting | Streaming | Terminated | Closed

  /** What has happened so far; no operation reads it. */
  datatype History = History(
    input: seq<real>,
    committed: seq<ModelWork>,
    emitted: seq<OutputEvent>,
    delivered: seq<ServerMessage>)

  datatype Stream = Stream(s: Session, reader: Reader, mode: Mode, consumer: Consumer, h: History)

  function OpenStream(m: Model, inputStart: nat, inputCap: nat, outputCap: nat): Stream {
    Stream(Opened(inputStart, m.init, inputCap, outputCap), Reading, Sending, Accepting, History([], [], [], []))
  }

  /** Reader and consumer stretches. Violation stands for a time-out, a message out of place, or a broken
      transport. */
  datatype Event =
    | Audio(chunk: AudioChunk)
    | End(flush: bool)
    | Stop
    | Violation(status: Status)
    | PutNext
    | Decide
    | CancelReader
    | Consume
    | Teardown

  datatype Reaction = Reaction(x: Stream, wakes: bool, gauge: int)

  function Stay(x: Stream): Reaction {
    Reaction(x, false, 0)
  }

  function FailReader(x: Stream, status: Status): Reaction {
    Reaction(x.(s := Fail(x.s, status), reader := Failed), false, FailGauge(x.s))
  }

  function AfterPut(hops: seq<SourceHop>, finishing: bool): Reader {
    if hops == [] && !finishing then Reading else Putting(hops, finishing)
  }

  function Decoded(pcm: seq<Byte>): seq<real> {
    if |pcm| % 2 == 0 then Samples(pcm) else []
  }

  function OnAudio(maxChunk: nat, x: Stream, chunk: AudioChunk): Reaction {
    if x.mode != Sending then FailReader(x, FAILED_PRECONDITION)
    else
      var (s, accepted) := Accept(maxChunk, x.s, chunk);
      match accepted
      case Err(status) => FailReader(x.(s := s), status)
      case Ok(hops) =>
        Stay(x.(s := s, reader := AfterPut(hops, false), h := x.h.(input := x.h.input + Decoded(chunk.pcm))))
  }

  function OnEnd(x: Stream, flush: bool): Reaction {
    if x.mode != Sending then FailReader(x, FAILED_PRECONDITION)
    else if !flush then Stay(x.(mode := Dropping, reader := PuttingNoFlush))
    else if |x.s.rechunk.pending| >= HOP then Stay(x)
    else
      var (rechunk, partial) := FlushPartial(x.s.rechunk);
      Stay(x.(s := x.s.(rechunk := rechunk), mode := Flushing, reader := Putting(Listed(partial), true)))
  }

  /** The work the reader waits to enqueue, and where it goes on afterwards. */
  function Next(reader: Reader): Option<(ModelWork, Reader)> {
    match reader
    case Putting(hops, finishing) =>
      if hops == [] then None else Some((SourceWork(hops[0]), AfterPut(hops[1..], finishing)))
    case PuttingFlush => Some((FLUSH_WORK, Reading))
    case PuttingNoFlush => Some((NO_FLUSH_WORK, Reading))
    case _ => None
  }

  function OnPut(closing: bool, x: Stream): Reaction {
    match Next(x.reader)
    case None => Stay(x)
    case Some((work, after)) =>
      if |x.s.inputQueue| >= x.s.inputCap then Stay(x)
      else Reaction(x.(s := Notify(Put(x.s, work), closing), reader := after), Wakes(Put(x.s, work), closing), 0)
  }

  function OnDecide(x: Stream): Reaction {
    if x.reader != Putting([], true) then Stay(x)
    else if x.s.inputSamples == 0 then
      Reaction(x.(s := Complete(x.s, true), reader := Reading), false, CompleteGauge(x.s))
    else Stay(x.(reader := PuttingFlush))
  }

  function OnConsume(x: Stream): Reaction {
    if x.consumer == Accepting then Stay(x.(consumer := Streaming, h := x.h.(delivered := x.h.delivered + [Accepted])))
    else if x.consumer == Streaming && x.s.outputQueue != [] then
      var (s, message) := Deliver(x.s);
      Reaction(x.(s := s,
                  consumer := if x.s.outputQueue[0].OutputAudio? then Streaming else Terminated,
                  h := x.h.(delivered := x.h.delivered + [message])),
               false, DeliverGauge(x.s))
    else Stay(x)
  }

  function OnTeardown(x: Stream): Reaction {
    if x.consumer == Closed then Stay(x)
    else Reaction(x.(s := TornDown(x.s), consumer := Closed), false, FailGauge(x.s))
  }

  function React(maxChunk: nat, closing: bool, x: Stream, e: Event): Reaction {
    match e
    case Audio(chunk) => if x.reader == Reading then OnAudio(maxChunk, x, chunk) else Stay(x)
    case End(flush) => if x.reader == Reading then OnEnd(x, flush) else Stay(x)
    case Stop =>
      if x.reader != Reading then Stay(x)
      else if x.mode == Sending then FailReader(x, FAILED_PRECONDITION)
      else Stay(x.(reader := Returned))
    case Violation(status) => if x.reader == Reading then FailReader(x, status) else Stay(x)
    case PutNext => OnPut(closing, x)
    case Decide => OnDecide(x)
    case CancelReader => if x.consumer == Closed && x.reader != Failed then Stay(x.(reader := Returned)) else Stay(x)
    case Consume => OnConsume(x)
    case Teardown => OnTeardown(x)
  }

  // ---- The scheduler's stretches on one stream ----

  predicate TakesNoFlush(s: Session) {
    !s.cancelled && !s.ended && s.inputQueue != [] && s.inputQueue[0].terminalNoFlush
  }

  function TakeFrom(x: Stream): Stream {
    x.(s := Take(x.s).0,
       h := if TakesNoFlush(x.s) then x.h.(committed := x.h.committed + [x.s.inputQueue[0]]) else x.h)
  }

  /** A commit that goes through: the work is spent, and the delayed hop, if there is one, is emitted. */
  function CommitTo(x: Stream, work: ModelWork, pcm: seq<Byte>, updated: StreamCaches, closing: bool): Stream {
    x.(s := CommitAndNotify(x.s, work, pcm, updated, closing),
       h := if x.s.cancelled || x.s.ended || Overflows(x.s) then x.h
            else x.h.(committed := x.h.committed + [work],
                      emitted :=
                        if x.s.pendingSource.Some? then x.h.emitted + [Sessions.Audio(x.s.pendingSource.value, pcm)]
                        else x.h.emitted))
  }

  /** The stage of a work that has left the input queue and is not committed yet. */
  datatype Stage = Taken | Launched(caches: StreamCaches) | Computed(pcm: seq<Byte>, updated: StreamCaches)

  datatype Flight = Flight(work: ModelWork, stage: Stage)

  /** All that concerns one stream: its state, how often it is in the ready queue or in the batch being collected,
      its work in flight, and whether the scheduler is closing. */
  datatype Slice = Slice(x: Stream, queued: nat, flight: Option<Flight>, closing: bool)

  datatype Step = Serve(event: Event) | TakeStep | Launch | Compute | CommitStep | Abort | Shutdown

  /** The stream alone: inference on it is a call of the model with its own hop and caches. */
  function StepSlice(m: Model, maxChunk: nat, sl: Slice, step: Step): Slice {
    match step
    case Serve(e) =>
      var r := React(maxChunk, sl.closing, sl.x, e);
      sl.(x := r.x, queued := if r.wakes then sl.queued + 1 else sl.queued)
    case TakeStep =>
      if sl.queued == 0 || sl.flight.Some? then sl
      else
        var work := Take(sl.x.s).1;
        sl.(x := TakeFrom(sl.x), queued := sl.queued - 1,
            flight := if work.Some? then Some(Flight(work.value, Taken)) else None)
    case Launch =>
      if sl.flight.None? || !sl.flight.value.stage.Taken? then sl
      else sl.(flight := Some(Flight(sl.flight.value.work, Launched(sl.x.s.caches))))
    case Compute =>
      if sl.flight.None? || !sl.flight.value.stage.Launched? then sl
      else
        var (wav, updated) := m.step(sl.flight.value.work.samples, sl.flight.value.stage.caches);
        sl.(flight := Some(Flight(sl.flight.value.work, Computed(Encode(wav), updated))))
    case CommitStep =>
      if sl.flight.None? || !sl.flight.value.stage.Computed? then sl
      else
        var Flight(work, Computed(pcm, updated)) := sl.flight.value;
        sl.(x := CommitTo(sl.x, work, pcm, updated, sl.closing),
            queued := if CommitWakes(sl.x.s, work, pcm, updated, sl.closing) then sl.queued + 1 else sl.queued,
            flight := None)
    case Abort =>
      if sl.flight.None? then sl
      else sl.(x := sl.x.(s := Fail(sl.x.s, INTERNAL)), flight := None)
    case Shutdown => sl.(closing := true)
  }

  function Fresh(m: Model, inputStart: nat, inputCap: nat, outputCap: nat, closing: bool): Slice {
    Slice(OpenStream(m, inputStart, inputCap, outputCap), 0, None, closing)
  }
}

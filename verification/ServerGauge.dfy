/** The gauge output_queue_samples in every run: nothing drifts through overflow, failure, consumption or teardown. */
module ServerGauge {
  import opened Wrappers
  import opened Pcm
  import opened Caches
  import opened Pipeline
  import opened Sessions
  import opened Service
  import opened StreamMachine
  import opened ServerMachine

  /** The audio waiting in the output queues of all streams. */
  function AllQueued(streams: seq<Stream>): nat {
    if streams == [] then 0
    else AllQueued(streams[..|streams| - 1]) + Queued(streams[|streams| - 1].s.outputQueue)
  }

  lemma {:induction false} AllQueuedUpdate(streams: seq<Stream>, i: nat, x: Stream)
    requires i < |streams|
    ensures AllQueued(streams[i := x])
            == AllQueued(streams) + Queued(x.s.outputQueue) - Queued(streams[i].s.outputQueue)
  {
    var n := |streams| - 1;
    if i == n {
      assert streams[i := x][..n] == streams[..n];
    } else {
      AllQueuedUpdate(streams[..n], i, x);
      assert streams[i := x][..n] == streams[..n][i := x];
    }
  }

  lemma AllQueuedAppend(streams: seq<Stream>, x: Stream)
    ensures AllQueued(streams + [x]) == AllQueued(streams) + Queued(x.s.outputQueue)
  {
    assert (streams + [x])[..|streams|] == streams;
  }

  predicate KeepsGauge(x: Stream, r: Reaction) {
    r.gauge == Queued(r.x.s.outputQueue) - Queued(x.s.outputQueue)
  }

  lemma FailReaderKeepsGauge(x: Stream, s: Session, status: Status)
    requires s.outputQueue == x.s.outputQueue
    ensures KeepsGauge(x, FailReader(x.(s := s), status))
  {
  }

  lemma AudioKeepsGauge(maxChunk: nat, x: Stream, chunk: AudioChunk)
    ensures KeepsGauge(x, OnAudio(maxChunk, x, chunk))
  {
    hide Samples, Rechunker.Append, Queued, FailReader;
    FailReaderKeepsGauge(x, x.s, FAILED_PRECONDITION);
    var (s, accepted) := Accept(maxChunk, x.s, chunk);
    FailReaderKeepsGauge(x, s, if accepted.Err? then accepted.error else INTERNAL);
  }

  lemma EndKeepsGauge(x: Stream, flush: bool)
    ensures KeepsGauge(x, OnEnd(x, flush))
  {
    hide Rechunker.FlushPartial, Queued, FailReader;
    FailReaderKeepsGauge(x, x.s, FAILED_PRECONDITION);
  }

  lemma DecideKeepsGauge(x: Stream)
    ensures KeepsGauge(x, OnDecide(x))
  {
    CompleteKeepsGauge(x.s, true);
    hide Complete, CompleteGauge, Queued;
  }

  lemma ConsumeKeepsGauge(x: Stream)
    ensures KeepsGauge(x, OnConsume(x))
  {
  }

  /** What a stretch of the reader or the consumer adds to the gauge is what it adds to the queue. */
  lemma ReactKeepsGauge(maxChunk: nat, closing: bool, x: Stream, e: Event)
    ensures KeepsGauge(x, React(maxChunk, closing, x, e))
  {
    match e {
      case Audio(chunk) => AudioKeepsGauge(maxChunk, x, chunk); hide OnAudio, Queued;
      case End(flush) => EndKeepsGauge(x, flush); hide OnEnd, Queued;
      case Stop => FailReaderKeepsGauge(x, x.s, FAILED_PRECONDITION); hide FailReader, Queued;
      case Violation(status) => FailReaderKeepsGauge(x, x.s, status); hide FailReader, Queued;
      case Decide => DecideKeepsGauge(x); hide OnDecide, Queued;
      case Consume => ConsumeKeepsGauge(x); hide OnConsume, Queued;
      case _ =>
    }
  }

  lemma CommitToKeepsGauge(x: Stream, work: ModelWork, pcm: seq<Byte>, updated: StreamCaches, closing: bool)
    ensures CommitGauge(x.s, work, pcm, updated)
            == Queued(CommitTo(x, work, pcm, updated, closing).s.outputQueue) - Queued(x.s.outputQueue)
  {
    CommitKeepsGauge(x.s, work, pcm, updated);
    hide Commit, CommitGauge;
  }

  predicate GaugeOk(st: Server) {
    st.gauge == AllQueued(st.streams)
  }

  lemma GaugeStep(c: Config, st: Server, l: Label)
    requires GaugeOk(st)
    ensures GaugeOk(ServerMachine.Step(c, st, l))
  {
    hide Queued, React, Take, TakeFrom, TakeGauge, CommitTo, CommitGauge, FailGauge, InferBatch, CommitWakes;
    match l {
      case OpenNew(start, inCap, outCap) => OpenedQueue(c, st, start, inCap, outCap);
      case At(i, e) =>
        if i < |st.streams| {
          ReactKeepsGauge(c.maxChunk, st.closing, st.streams[i], e);
          AllQueuedUpdate(st.streams, i, React(c.maxChunk, st.closing, st.streams[i], e).x);
        }
      case TakeNext => TakeGaugeStep(st);
      case CommitNext => CommitGaugeStep(st);
      case FailNext => FailGaugeStep(st);
      case _ =>
    }
  }

  lemma OpenedQueue(c: Config, st: Server, inputStart: nat, inputCap: nat, outputCap: nat)
    requires GaugeOk(st)
    ensures GaugeOk(OpenNewStep(c, st, inputStart, inputCap, outputCap))
  {
    AllQueuedAppend(st.streams, OpenStream(SoloModel(c.net), inputStart, inputCap, outputCap));
  }

  lemma TakeGaugeStep(st: Server)
    requires GaugeOk(st)
    ensures GaugeOk(TakeNextStep(st))
  {
    if st.phase.Taking? && st.phase.todo != [] && st.phase.todo[0] < |st.streams| {
      var i := st.phase.todo[0];
      TakeKeepsGauge(st.streams[i].s);
      AllQueuedUpdate(st.streams, i, TakeFrom(st.streams[i]));
      hide Take, TakeGauge, Queued;
    }
  }

  lemma CommitGaugeStep(st: Server)
    requires GaugeOk(st)
    ensures GaugeOk(CommitNextStep(st))
  {
    hide CommitTo, CommitGauge, CommitWakes, Queued;
    if st.phase.Committing? && st.phase.jobs != [] && st.phase.jobs[0].sid < |st.streams|
       && st.phase.jobs[0].flight.stage.Computed?
    {
      var Job(i, Flight(work, Computed(pcm, updated))) := st.phase.jobs[0];
      CommitToKeepsGauge(st.streams[i], work, pcm, updated, st.closing);
      AllQueuedUpdate(st.streams, i, CommitTo(st.streams[i], work, pcm, updated, st.closing));
    }
  }

  lemma FailGaugeStep(st: Server)
    requires GaugeOk(st)
    ensures GaugeOk(FailNextStep(st))
  {
    if st.phase.Failing? && st.phase.jobs != [] && st.phase.jobs[0].sid < |st.streams| {
      var i := st.phase.jobs[0].sid;
      var x := st.streams[i];
      FailKeepsGauge(x.s, INTERNAL);
      AllQueuedUpdate(st.streams, i, x.(s := Fail(x.s, INTERNAL)));
      hide Queued;
    }
  }

  /** Gauge conservation: in every state of every run the gauge is the audio queued in all streams. */
  lemma {:induction false} GaugeConservation(c: Config, labels: seq<Label>)
    ensures Run(c, labels).gauge == AllQueued(Run(c, labels).streams)
  {
    if labels != [] {
      GaugeConservation(c, labels[..|labels| - 1]);
      GaugeStep(c, Run(c, labels[..|labels| - 1]), labels[|labels| - 1]);
      hide ServerMachine.Step, AllQueued;
    }
  }
}

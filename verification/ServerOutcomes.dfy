/** What a client sees in every run: numbered, contiguous audio, one end at most, and exact counts in a completion. */
module ServerOutcomes {
  import opened Wrappers
  import opened Pcm
  import opened Rechunker
  import opened Caches
  import opened Pipeline
  import opened Sessions
  import opened Service
  import opened StreamMachine
  import opened Reference
  import opened StreamInvariants
  import opened StreamSteps
  import opened ServerMachine
  import opened ServerProjection
  import opened ServerInvariants
  import opened ServerTheorems

  // ---- Audio without gaps ----

  /** Audio events one after another from an offset on, each with two bytes for every sample and at least one
      sample. */
  predicate Continuous(events: seq<OutputEvent>, at: int) {
    if events == [] then true
    else
      && events[0].OutputAudio? && events[0].start == at
      && 0 < events[0].valid && |events[0].pcm| == 2 * events[0].valid
      && Continuous(events[1..], at + events[0].valid)
  }

  lemma {:induction false} ContinuousPrefix(events: seq<OutputEvent>, n: nat, at: int)
    requires n <= |events| && Continuous(events, at)
    ensures Continuous(events[..n], at) && Queued(events[..n]) <= Queued(events)
  {
    if n > 0 {
      ContinuousPrefix(events[1..], n - 1, at + events[0].valid);
      assert events[..n][1..] == events[1..][..n - 1];
    }
  }

  /** Outputs that answer contiguous hops are contiguous audio. */
  lemma {:induction false} AnswersContinuous(outs: seq<EnhancedHop>, hops: seq<SourceHop>, at: int)
    requires |outs| <= |hops| && Contiguous(hops, at) && WellFormedHops(hops)
    requires forall k | 0 <= k < |outs| ::
               outs[k].start == hops[k].start && |outs[k].samples| == outs[k].valid == hops[k].valid
    ensures Continuous(Encoded(outs), at)
  {
    if outs != [] {
      assert hops[0].valid > 0;
      AnswersContinuous(outs[1..], hops[1..], at + hops[0].valid);
      assert Encoded(outs)[1..] == Encoded(outs[1..]);
    }
  }

  /** What the pipeline yields on an input: contiguous audio from its start, no more than the input; after a flush
      all of it, otherwise all whole hops but the last. */
  lemma PipelineCovers(m: Model, start: int, input: seq<real>, mode: Mode)
    requires Sound(m)
    ensures var outs := Encoded(PipelineOutputs(m, Hops(start, input, mode), mode == Flushing));
            && Continuous(outs, start)
            && Queued(outs) == (if mode == Flushing then |input|
                                else HOP * (if |input| / HOP > 0 then |input| / HOP - 1 else 0))
  {
    var hops := Hops(start, input, mode);
    HopsWellFormed(start, input, mode);
    HopsContiguous(start, input, mode);
    HopsTotal(start, input, mode);
    OutputsAnswerHops(m, hops);
    PushedTotals(m, hops);
    WholeHopsAre(start, input, mode);
    hide PushAll, Encoded, Queued, Contiguous, Hops, Layout;
    AnswersContinuous(PipelineOutputs(m, hops, mode == Flushing), hops, start);
    assert mode != Flushing ==> PipelineOutputs(m, hops, false) == PushAll(m, hops).1;
  }

  lemma SentPrefix(c: Config, sl: Slice)
    requires Inv(SoloModel(c.net), sl) && Sound(SoloModel(c.net))
    ensures var x, sent := sl.x, AudioSent(sl.x.h.delivered);
            && Continuous(sent, x.s.inputStart) && Queued(sent) <= |x.h.input|
            && Continuous(x.h.emitted, x.s.inputStart) && Queued(x.h.emitted) <= |x.h.input|
  {
    var x, sent := sl.x, AudioSent(sl.x.h.delivered);
    EmittedIsPrefix(c, sl);
    PipelineCovers(SoloModel(c.net), x.s.inputStart, x.h.input, x.mode);
    assert sent <= x.h.emitted;
    hide Inv, Continuous, Queued, PipelineOutputs, Encoded, AudioSent, Hops;
    var all := Expected(c, x);
    assert x.h.emitted == all[..|x.h.emitted|] && sent == all[..|sent|];
    ContinuousPrefix(all, |x.h.emitted|, x.s.inputStart);
    ContinuousPrefix(all, |sent|, x.s.inputStart);
  }

  /** What any client is sent in any run: the acceptance, then audio numbered 0, 1, 2, ... that continues without
      gap or overlap from the start of the stream and never exceeds the input accepted, then at most one terminal
      message. */
  lemma ClientSees(c: Config, labels: seq<Label>, i: nat)
    requires RowLocal(c.net) && i < |Run(c, labels).streams|
    ensures var x := Run(c, labels).streams[i];
            && Transcript(x.h.delivered)
            && Continuous(AudioSent(x.h.delivered), x.s.inputStart)
            && Queued(AudioSent(x.h.delivered)) <= |x.h.input|
  {
    StreamOk(c, labels, i);
    SentPrefix(c, SliceOf(Run(c, labels), i));
    hide Run, Count, Find, Transcript, Continuous, Queued, AudioSent, Tracks, Outbox, InvIn;
  }

  lemma EndedMeans(sl: Slice)
    requires Sent(sl) && Completed(sl.x)
    ensures var x := sl.x;
            && x.h.committed == FeedOf(x) && AudioSent(x.h.delivered) == x.h.emitted
            && x.h.delivered[|x.h.delivered| - 1] == StreamEnded(|x.h.input|, Queued(x.h.emitted), x.mode == Flushing)
  {
    hide AudioSent, FeedOf, Transcript, Queued;
  }

  function SentWithoutFlush(input: nat): nat {
    HOP * (if input / HOP > 0 then input / HOP - 1 else 0)
  }

  lemma CompletedSlice(c: Config, sl: Slice)
    requires Inv(SoloModel(c.net), sl) && Sound(SoloModel(c.net)) && Completed(sl.x)
    ensures var x := sl.x;
            && Queued(AudioSent(x.h.delivered))
               == (if x.mode == Flushing then |x.h.input| else SentWithoutFlush(|x.h.input|))
            && x.h.delivered[|x.h.delivered| - 1]
               == StreamEnded(|x.h.input|, Queued(AudioSent(x.h.delivered)), x.mode == Flushing)
  {
    EndedMeans(sl);
    EmittedIsPrefix(c, sl);
    PipelineCovers(SoloModel(c.net), sl.x.s.inputStart, sl.x.h.input, sl.x.mode);
    hide Inv, Queued, AudioSent, Continuous, PipelineOutputs, Encoded, Hops, FeedOf;
  }

  /** A completion is exact, for every chunking and every batching: it reports the input accepted and the audio sent;
      with flush these are equal, and without flush the whole hops but the last are sent. */
  lemma CompletionCounts(c: Config, labels: seq<Label>, i: nat)
    requires RowLocal(c.net) && i < |Run(c, labels).streams| && Completed(Run(c, labels).streams[i])
    ensures var x := Run(c, labels).streams[i];
            var last := x.h.delivered[|x.h.delivered| - 1];
            && last.inputSamples == |x.h.input|
            && last.outputSamples == Queued(AudioSent(x.h.delivered))
            && last.outputSamples == (if last.flushed then last.inputSamples else SentWithoutFlush(last.inputSamples))
  {
    hide *;
    StreamOk(c, labels, i);
    SliceIs(Run(c, labels), i);
    CompletedSlice(c, SliceOf(Run(c, labels), i));
  }

  // ---- Ending as the client asked ----

  /** The client's end is taken: the reader waits for a message and no end came before. */
  predicate EndTaken(x: Stream, step: StreamMachine.Step) {
    step.Serve? && step.event.End? && x.reader == Reading && x.mode == Sending
  }

  lemma ModeStep(m: Model, maxChunk: nat, sl: Slice, step: StreamMachine.Step)
    requires Intake(sl)
    ensures StepSlice(m, maxChunk, sl, step).x.mode
            == if !EndTaken(sl.x, step) then sl.x.mode else if step.event.flush then Flushing else Dropping
  {
    hide Samples, Append, Encode;
    ReadingRest(sl);
    hide Intake;
  }

  lemma ReadingRest(sl: Slice)
    requires Intake(sl)
    ensures sl.x.reader == Reading ==> |sl.x.s.rechunk.pending| < HOP
  {
    RestIsShort(sl.x.h.input);
  }

  /** A stream ends as its client asked: in every run its mode, which a completion reports, is set by the first end
      its reader takes, with flush or without as that end says, and by no other step of the server. */
  lemma EndsAsAsked(c: Config, labels: seq<Label>, l: Label, i: nat)
    requires RowLocal(c.net) && i < |Run(c, labels).streams|
    ensures var st := Run(c, labels);
            var y, step := ServerMachine.Step(c, st, l), Local(c, st, l, i);
            && i < |y.streams|
            && y.streams[i].mode
               == if step.None? || !EndTaken(st.streams[i], step.value) then st.streams[i].mode
                  else if step.value.event.flush then Flushing else Dropping
  {
    hide *;
    var st := Run(c, labels);
    RunsAreOk(c, labels);
    StreamOk(c, labels, i);
    InvIntakes(SoloModel(c.net), SliceOf(st, i));
    Projection(c, st, l, i);
    ProjectsMode(c, st, l, i);
  }

  lemma InvIntakes(m: Model, sl: Slice)
    requires Inv(m, sl)
    ensures Intake(sl)
  {
    hide Shapes, Intake, Ledger, Awake, InvOut;
  }

  lemma ProjectsMode(c: Config, st: Server, l: Label, i: nat)
    requires i < |st.streams| && Projects(c, st, l, i) && Intake(SliceOf(st, i))
    ensures var y, step := ServerMachine.Step(c, st, l), Local(c, st, l, i);
            && i < |y.streams|
            && y.streams[i].mode
               == if step.None? || !EndTaken(st.streams[i], step.value) then st.streams[i].mode
                  else if step.value.event.flush then Flushing else Dropping
  {
    hide ServerMachine.Step, Count, Find, Local, StepSlice, Intake, EndTaken;
    var step := Local(c, st, l, i);
    if step.Some? {
      ModeStep(SoloModel(c.net), c.maxChunk, SliceOf(st, i), step.value);
    }
  }

  /** How inference on a batch ends: if it raises, the whole batch is about to fail; otherwise it is about to be
      committed, the same streams in the same order. Nothing is changed yet. */
  lemma InferenceOutcome(c: Config, labels: seq<Label>, ok: bool)
    requires RowLocal(c.net) && Run(c, labels).phase.Inferring?
    ensures var st := Run(c, labels);
            var y := ServerMachine.Step(c, st, Infer(ok));
            && y == st.(phase := y.phase)
            && (if ok then y.phase.Committing? && Sids(y.phase.jobs) == Sids(st.phase.jobs)
                else y.phase == Failing(st.phase.jobs))
  {
    var st := Run(c, labels);
    RunsAreOk(c, labels);
    hide Run;
    BatchReady(c, st);
    BatchIsSolo(c.net, HopsOf(st.phase.jobs), Captured(st.phase.jobs));
    hide RowLocal, AllOk, InferBatch, HopsOf, Captured, AllLaunched, Solo, Encode;
    InferenceSids(c, st);
  }

  lemma InferenceSids(c: Config, st: Server)
    ensures Infers(c, st, true) ==> Sids(InferStep(c, st, true).phase.jobs) == Sids(st.phase.jobs)
  {
    hide InferBatch, HopsOf, Captured, AllLaunched, Encode;
  }

  // ---- Silence after cancellation ----

  lemma SilentStep(m: Model, maxChunk: nat, sl: Slice, step: StreamMachine.Step)
    requires Inv(m, sl) && sl.x.s.cancelled
    ensures var y := StepSlice(m, maxChunk, sl, step).x;
            y.s.cancelled && y.h.emitted == sl.x.h.emitted && AudioSent(y.h.delivered) == AudioSent(sl.x.h.delivered)
  {
    var x := sl.x;
    hide InvIn, Tracks, Sent, Samples, Append, FlushPartial, AudioSent;
    if step.Serve? && step.event.Consume? && x.consumer != Terminated && x.consumer != Closed {
      AudioSentNext(x.h.delivered, if x.consumer == Accepting then Accepted else Deliver(x.s).1);
    } else if step.Serve? {
      SilentEvent(maxChunk, sl.closing, x, step.event);
      hide React;
    }
  }

  lemma SilentEvent(maxChunk: nat, closing: bool, x: Stream, e: Event)
    requires x.s.cancelled && (e.Consume? ==> x.consumer == Terminated || x.consumer == Closed)
    ensures var y := React(maxChunk, closing, x, e).x;
            y.s.cancelled && y.h.emitted == x.h.emitted && y.h.delivered == x.h.delivered
  {
    hide Samples, Append, FlushPartial;
  }

  predicate Quieter(x: Stream, y: Stream) {
    y.s.cancelled && y.h.emitted == x.h.emitted && AudioSent(y.h.delivered) == AudioSent(x.h.delivered)
  }

  lemma SilentServerStep(c: Config, st: Server, l: Label, i: nat)
    requires RowLocal(c.net) && AllOk(c, st) && i < |st.streams| && st.streams[i].s.cancelled
    ensures i < |ServerMachine.Step(c, st, l).streams|
            && Quieter(st.streams[i], ServerMachine.Step(c, st, l).streams[i])
  {
    Projection(c, st, l, i);
    assert Inv(SoloModel(c.net), SliceOf(st, i));
    hide RowLocal, Inv, BatchOk, StreamsOk, AudioSent, StepSlice, ServerMachine.Step, Count, Find, Local;
    var step := Local(c, st, l, i);
    if step.Some? {
      SilentStep(SoloModel(c.net), c.maxChunk, SliceOf(st, i), step.value);
    }
  }

  /** Once a stream is cancelled no more audio of it is emitted or sent, in any continuation of the run. */
  lemma {:induction false} SilentAfterCancel(c: Config, labels: seq<Label>, more: seq<Label>, i: nat)
    requires RowLocal(c.net) && i < |Run(c, labels).streams| && Run(c, labels).streams[i].s.cancelled
    ensures i < |Run(c, labels + more).streams|
    ensures Quieter(Run(c, labels).streams[i], Run(c, labels + more).streams[i])
  {
    if more == [] {
      assert labels + more == labels;
    } else {
      var front, l := labels + more[..|more| - 1], more[|more| - 1];
      SilentAfterCancel(c, labels, more[..|more| - 1], i);
      RunsAreOk(c, front);
      hide RowLocal, AllOk, AudioSent, ServerMachine.Step;
      SilentServerStep(c, Run(c, front), l, i);
      assert (labels + more)[..|labels + more| - 1] == front;
      assert Run(c, labels + more) == ServerMachine.Step(c, Run(c, front), l);
    }
  }

  // ---- Tearing down ----

  /** The reader has come to its end. */
  predicate Stopped(x: Stream) {
    x.reader == Returned || x.reader == Failed
  }

  predicate Shrunk(x: Stream, y: Stream) {
    |y.s.inputQueue| <= |x.s.inputQueue|
    && y.s.inputQueue == x.s.inputQueue[|x.s.inputQueue| - |y.s.inputQueue|..]
  }

  lemma ShrunkSame(x: Stream)
    ensures Shrunk(x, x)
  {
  }

  lemma StoppedStep(m: Model, maxChunk: nat, sl: Slice, step: StreamMachine.Step)
    requires Stopped(sl.x)
    ensures var y := StepSlice(m, maxChunk, sl, step).x; Stopped(y) && Shrunk(sl.x, y)
  {
    hide Stopped, Shrunk;
    ShrunkSame(sl.x);
    match step {
      case Serve(e) => StoppedEvent(maxChunk, sl.closing, sl.x, e); hide React;
      case TakeStep => StoppedTake(sl.x); hide TakeFrom, Take;
      case Abort => StoppedFail(sl.x); hide Fail;
      case CommitStep =>
        if sl.flight.Some? && sl.flight.value.stage.Computed? {
          var Flight(work, Computed(pcm, updated)) := sl.flight.value;
          StoppedCommit(sl.x, work, pcm, updated, sl.closing);
          hide CommitTo, CommitWakes;
        }
      case _ => hide Encode;
    }
  }

  lemma StoppedTake(x: Stream)
    requires Stopped(x)
    ensures Stopped(TakeFrom(x)) && Shrunk(x, TakeFrom(x))
  {
  }

  lemma StoppedFail(x: Stream)
    requires Stopped(x)
    ensures var y := x.(s := Fail(x.s, INTERNAL)); Stopped(y) && Shrunk(x, y)
  {
  }

  lemma StoppedEvent(maxChunk: nat, closing: bool, x: Stream, e: Event)
    requires Stopped(x)
    ensures var y := React(maxChunk, closing, x, e).x; Stopped(y) && Shrunk(x, y)
  {
    hide Message;
  }

  lemma StoppedCommit(x: Stream, work: ModelWork, pcm: seq<Byte>, updated: StreamCaches, closing: bool)
    requires Stopped(x)
    ensures var y := CommitTo(x, work, pcm, updated, closing); Stopped(y) && Shrunk(x, y)
  {
    hide Sessions.Audio;
  }

  lemma StoppedServerStep(c: Config, st: Server, l: Label, i: nat)
    requires RowLocal(c.net) && AllOk(c, st) && i < |st.streams| && Stopped(st.streams[i])
    ensures var y := ServerMachine.Step(c, st, l);
            i < |y.streams| && Stopped(y.streams[i]) && Shrunk(st.streams[i], y.streams[i])
  {
    Projection(c, st, l, i);
    hide RowLocal, AllOk, StepSlice, ServerMachine.Step, Count, Find, Local, Stopped, Shrunk;
    var step := Local(c, st, l, i);
    if step.Some? {
      StoppedStep(SoloModel(c.net), c.maxChunk, SliceOf(st, i), step.value);
    } else {
      ShrunkSame(st.streams[i]);
    }
  }

  lemma ShrunkTwice(x: Stream, y: Stream, z: Stream)
    requires Shrunk(x, y) && Shrunk(y, z)
    ensures Shrunk(x, z)
  {
  }

  /** A stopped reader stays stopped, and nothing is added to the work of its stream in any continuation. */
  lemma {:induction false} StoppedAddsNothing(c: Config, labels: seq<Label>, more: seq<Label>, i: nat)
    requires RowLocal(c.net) && i < |Run(c, labels).streams| && Stopped(Run(c, labels).streams[i])
    ensures i < |Run(c, labels + more).streams|
    ensures var x, y := Run(c, labels).streams[i], Run(c, labels + more).streams[i]; Stopped(y) && Shrunk(x, y)
  {
    hide *;
    if more == [] {
      assert labels + more == labels;
      ShrunkSame(Run(c, labels).streams[i]);
    } else {
      var front, l := labels + more[..|more| - 1], more[|more| - 1];
      StoppedAddsNothing(c, labels, more[..|more| - 1], i);
      RunsAreOk(c, front);
      StoppedServerStep(c, Run(c, front), l, i);
      assert labels + more == front + [l];
      RunNext(c, front, l);
      ShrunkTwice(Run(c, labels).streams[i], Run(c, front).streams[i], Run(c, labels + more).streams[i]);
    }
  }

  lemma RunNext(c: Config, front: seq<Label>, l: Label)
    ensures Run(c, front + [l]) == ServerMachine.Step(c, Run(c, front), l)
  {
    assert (front + [l])[..|front|] == front;
  }

  /** Tearing a stream down cancels it and empties both of its queues; cancelling its reader after that stops it. */
  lemma TeardownEmpties(c: Config, st: Server, i: nat)
    requires i < |st.streams|
    ensures var x, y := st.streams[i], ServerMachine.Step(c, st, At(i, Teardown)).streams[i];
            && y.consumer == Closed
            && (x.consumer != Closed ==> y.s.cancelled && y.s.inputQueue == [] && y.s.outputQueue == [])
    ensures st.streams[i].consumer == Closed ==> Stopped(ServerMachine.Step(c, st, At(i, CancelReader)).streams[i])
  {
  }
}

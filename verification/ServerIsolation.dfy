/** Streams do not disturb each other: what becomes of a stream depends on its own steps alone. */
module ServerIsolation {
  import opened Wrappers
  import opened Pcm
  import opened Rechunker
  import opened Caches
  import opened Pipeline
  import opened Sessions
  import opened Service
  import opened StreamMachine
  import opened StreamInvariants
  import opened ServerMachine
  import opened ServerProjection
  import opened ServerInvariants

  /** The steps of a run that concern stream j, in order; batches in which j has no work are not among them. */
  function OwnSteps(c: Config, labels: seq<Label>, j: nat): seq<StreamMachine.Step> {
    if labels == [] then []
    else
      var front, l := labels[..|labels| - 1], labels[|labels| - 1];
      var st := Run(c, front);
      if j >= |st.streams| then []
      else
        match Local(c, st, l, j)
        case None => OwnSteps(c, front, j)
        case Some(step) => OwnSteps(c, front, j) + [step]
  }

  datatype Opening = Opening(inputStart: nat, inputCap: nat, outputCap: nat, closing: bool)

  /** How stream j was opened: offset, queue capacities, and whether the scheduler was closing. */
  function OpenedAs(c: Config, labels: seq<Label>, j: nat): Opening
    requires j < |Run(c, labels).streams|
    decreases |labels|
  {
    if labels == [] then Opening(0, 0, 0, false)
    else
      var front, l := labels[..|labels| - 1], labels[|labels| - 1];
      if j < |Run(c, front).streams| then OpenedAs(c, front, j)
      else if l.OpenNew? then Opening(l.inputStart, l.inputCap, l.outputCap, Run(c, front).closing)
      else Opening(0, 0, 0, false)
  }

  /** One stream run by itself. */
  function RunAlone(m: Model, maxChunk: nat, sl: Slice, steps: seq<StreamMachine.Step>): Slice {
    if steps == [] then sl
    else StepSlice(m, maxChunk, RunAlone(m, maxChunk, sl, steps[..|steps| - 1]), steps[|steps| - 1])
  }

  function Alone(c: Config, o: Opening, steps: seq<StreamMachine.Step>): Slice {
    RunAlone(SoloModel(c.net), c.maxChunk,
             StreamMachine.Fresh(SoloModel(c.net), o.inputStart, o.inputCap, o.outputCap, o.closing), steps)
  }

  /** Isolation: in every run each stream is in the state it would reach alone with its own steps, its own hops and
      its own caches, whatever other streams send, fail or compute beside it, in the same batches or in batches of
      their own. */
  lemma {:induction false} EachStreamAlone(c: Config, labels: seq<Label>, j: nat)
    requires RowLocal(c.net) && j < |Run(c, labels).streams|
    ensures SliceOf(Run(c, labels), j) == Alone(c, OpenedAs(c, labels, j), OwnSteps(c, labels, j))
  {
    if labels != [] {
      var front, l := labels[..|labels| - 1], labels[|labels| - 1];
      var st := Run(c, front);
      RunsAreOk(c, front);
      assert Run(c, labels) == ServerMachine.Step(c, st, l);
      if j < |st.streams| {
        EachStreamAlone(c, front, j);
        Projection(c, st, l, j);
        hide AllOk, RowLocal, ServerMachine.Step, Local, StepSlice, SliceOf, Run;
        var step := Local(c, st, l, j);
        if step.Some? {
          assert OwnSteps(c, labels, j) == OwnSteps(c, front, j) + [step.value];
          assert (OwnSteps(c, front, j) + [step.value])[..|OwnSteps(c, front, j)|] == OwnSteps(c, front, j);
        }
      } else {
        NewStreamIsFresh(c, st, l, j);
        hide AllOk, RowLocal, ServerMachine.Step, Local, StepSlice, SliceOf, Run, StreamMachine.Fresh;
      }
    }
  }

  /** Two runs, with any other streams in them, that open a stream alike and give it the same steps leave it in the
      same state; so it has emitted and sent the same. */
  lemma NonInterference(c: Config, labels: seq<Label>, j: nat, others: seq<Label>, k: nat)
    requires RowLocal(c.net) && j < |Run(c, labels).streams| && k < |Run(c, others).streams|
    requires OpenedAs(c, labels, j) == OpenedAs(c, others, k) && OwnSteps(c, labels, j) == OwnSteps(c, others, k)
    ensures Run(c, labels).streams[j] == Run(c, others).streams[k]
  {
    EachStreamAlone(c, labels, j);
    EachStreamAlone(c, others, k);
    hide Run, Count, Find, Alone;
  }

  /** When a step cancels a live stream: the reader meets a violation, the stream is torn down, a completion or audio
      finds no room in its output queue, or inference on its batch raised. */
  predicate Cancels(maxChunk: nat, sl: Slice, step: StreamMachine.Step) {
    var x := sl.x;
    match step
    case Serve(Audio(chunk)) => x.reader == Reading && (x.mode != Sending || Accept(maxChunk, x.s, chunk).1.Err?)
    case Serve(End(_)) => x.reader == Reading && x.mode != Sending
    case Serve(Stop) => x.reader == Reading && x.mode == Sending
    case Serve(Violation(_)) => x.reader == Reading
    case Serve(Decide) => x.reader == Putting([], true) && x.s.inputSamples == 0 && !x.s.ended && Full(x.s)
    case Serve(Teardown) => x.consumer != Closed
    case TakeStep => sl.queued > 0 && sl.flight.None? && TakesNoFlush(x.s) && Full(x.s)
    case CommitStep =>
      sl.flight.Some? && sl.flight.value.stage.Computed? && !x.s.ended && NoRoom(x.s, sl.flight.value.work)
    case Abort => sl.flight.Some?
    case _ => false
  }

  /** A commit needs room for the delayed hop, and for the completion if it flushes. */
  predicate NoRoom(s: Session, work: ModelWork) {
    var needed := (if s.pendingSource.Some? then 1 else 0) + (if work.terminalFlush then 1 else 0);
    needed > 0 && |s.outputQueue| + needed > s.outputCap
  }

  /** With which status: that of the first check a chunk fails, a message out of order, the violation itself, no
      room in the output queue, or inference that raised. A torn down stream reports nothing. */
  function Reason(maxChunk: nat, x: Stream, step: StreamMachine.Step): Option<Status> {
    match step
    case Serve(Audio(chunk)) =>
      Some(if x.mode != Sending then FAILED_PRECONDITION
           else if !WholeSamples(chunk.pcm) then INVALID_ARGUMENT
           else if |chunk.pcm| / 2 > maxChunk then RESOURCE_EXHAUSTED
           else if !InPlace(x.s, chunk) then INVALID_ARGUMENT
           else RESOURCE_EXHAUSTED)
    case Serve(End(_)) => Some(FAILED_PRECONDITION)
    case Serve(Stop) => Some(FAILED_PRECONDITION)
    case Serve(Violation(status)) => Some(status)
    case Serve(Teardown) => None
    case Abort => Some(INTERNAL)
    case _ => Some(RESOURCE_EXHAUSTED)
  }

  /** What a cancelled stream has left to say. */
  function LastWords(reason: Option<Status>): seq<OutputEvent> {
    if reason.Some? then [RPCFailure(reason.value)] else []
  }

  /** The exact ways for a live stream to be cancelled: its own reader, its own teardown, its own full output queue,
      or a batch of its own whose inference raised; never a step of another stream. */
  lemma CancelledByItself(c: Config, labels: seq<Label>, l: Label, j: nat)
    requires RowLocal(c.net) && j < |Run(c, labels).streams| && !Run(c, labels).streams[j].s.cancelled
    ensures var st := Run(c, labels);
            var y, step := ServerMachine.Step(c, st, l), Local(c, st, l, j);
            && j < |y.streams|
            && (y.streams[j].s.cancelled <==> step.Some? && Cancels(c.maxChunk, SliceOf(st, j), step.value))
            && (y.streams[j].s.cancelled ==>
                  y.streams[j].s.outputQueue == LastWords(Reason(c.maxChunk, st.streams[j], step.value)))
            && (step == Some(Abort) ==> st.phase.Failing?)
  {
    var st := Run(c, labels);
    RunsAreOk(c, labels);
    assert BatchOk(st) && Inv(SoloModel(c.net), SliceOf(st, j));
    QueuesFit(c, st, j);
    hide *;
    Projection(c, st, l, j);
    OwnCancel(c, st, l, j);
    AbortMeansFailing(c, st, l, j);
  }

  lemma QueuesFit(c: Config, st: Server, j: nat)
    requires j < |st.streams| && Inv(SoloModel(c.net), SliceOf(st, j))
    ensures |st.streams[j].s.outputQueue| <= st.streams[j].s.outputCap && 0 < st.streams[j].s.outputCap
  {
    hide InvOut, Intake, Ledger, Awake, Count, Find, Layout, WorksOk;
  }

  lemma AbortMeansFailing(c: Config, st: Server, l: Label, j: nat)
    ensures Local(c, st, l, j) == Some(Abort) ==> st.phase.Failing?
  {
    hide Infers, Find;
  }

  lemma OwnCancel(c: Config, st: Server, l: Label, j: nat)
    requires j < |st.streams| && !st.streams[j].s.cancelled && Projects(c, st, l, j)
    requires |st.streams[j].s.outputQueue| <= st.streams[j].s.outputCap && 0 < st.streams[j].s.outputCap
    ensures var y, step := ServerMachine.Step(c, st, l), Local(c, st, l, j);
            && j < |y.streams|
            && (y.streams[j].s.cancelled <==> step.Some? && Cancels(c.maxChunk, SliceOf(st, j), step.value))
            && (y.streams[j].s.cancelled ==>
                  y.streams[j].s.outputQueue == LastWords(Reason(c.maxChunk, st.streams[j], step.value)))
  {
    hide ServerMachine.Step, Count, Find, Local, StepSlice, Cancels, Reason, LastWords;
    var step := Local(c, st, l, j);
    if step.Some? {
      CancelledWhen(SoloModel(c.net), c.maxChunk, SliceOf(st, j), step.value);
    }
  }

  lemma CancelledWhen(m: Model, maxChunk: nat, sl: Slice, step: StreamMachine.Step)
    requires !sl.x.s.cancelled && |sl.x.s.outputQueue| <= sl.x.s.outputCap && 0 < sl.x.s.outputCap
    ensures StepSlice(m, maxChunk, sl, step).x.s.cancelled <==> Cancels(maxChunk, sl, step)
    ensures StepSlice(m, maxChunk, sl, step).x.s.cancelled ==>
              StepSlice(m, maxChunk, sl, step).x.s.outputQueue == LastWords(Reason(maxChunk, sl.x, step))
  {
    match step {
      case Serve(e) =>
        ServedCancel(maxChunk, sl, e);
        hide React, Reason;
      case TakeStep => hide Queued;
      case CommitStep =>
        if sl.flight.Some? && sl.flight.value.stage.Computed? {
          CommitCancel(maxChunk, sl);
          hide CommitTo, CommitWakes;
        }
      case _ => hide Encode;
    }
  }

  lemma ServedCancel(maxChunk: nat, sl: Slice, e: Event)
    requires !sl.x.s.cancelled
    ensures React(maxChunk, sl.closing, sl.x, e).x.s.cancelled <==> Cancels(maxChunk, sl, Serve(e))
    ensures React(maxChunk, sl.closing, sl.x, e).x.s.cancelled ==>
              React(maxChunk, sl.closing, sl.x, e).x.s.outputQueue == LastWords(Reason(maxChunk, sl.x, Serve(e)))
  {
    if e.Audio? {
      AudioCancel(maxChunk, sl.closing, sl.x, e.chunk);
      hide OnAudio, Accept, Reason, LastWords;
    } else {
      hide Rechunker.Append, Rechunker.FlushPartial, Pcm.Samples, Queued;
    }
  }

  lemma AudioCancel(maxChunk: nat, closing: bool, x: Stream, chunk: AudioChunk)
    requires !x.s.cancelled
    ensures var y := OnAudio(maxChunk, x, chunk).x;
            && (y.s.cancelled <==> x.mode != Sending || Accept(maxChunk, x.s, chunk).1.Err?)
            && (y.s.cancelled ==> y.s.outputQueue == LastWords(Reason(maxChunk, x, Serve(Audio(chunk)))))
  {
    AcceptedWhen(maxChunk, x.s, chunk);
    hide Accept, Queued, Pcm.Samples, FullHops, Rest, WholeHops;
  }

  lemma CommitCancel(maxChunk: nat, sl: Slice)
    requires !sl.x.s.cancelled && |sl.x.s.outputQueue| <= sl.x.s.outputCap
    requires sl.flight.Some? && sl.flight.value.stage.Computed?
    ensures var Flight(work, Computed(pcm, updated)) := sl.flight.value;
            var s := CommitTo(sl.x, work, pcm, updated, sl.closing).s;
            (s.cancelled <==> Cancels(maxChunk, sl, CommitStep))
            && (s.cancelled ==> s.outputQueue == LastWords(Some(RESOURCE_EXHAUSTED)))
  {
    hide Queued, Sessions.Audio;
  }
}

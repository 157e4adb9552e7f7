/** No reachable state is a dead end: from every state of every run, every live stream can still be led to its
    completion, whatever the other streams have left behind. */
module ServerProgress {
  import opened Wrappers
  import opened Pcm
  import opened Rechunker
  import opened Caches
  import opened Pipeline
  import opened Sessions
  import opened Service
  import opened StreamMachine
  import opened Reference
  import opened StreamInvariants
  import opened StreamSteps
  import opened ServerMachine
  import opened ServerProjection
  import opened ServerInvariants
  import opened ServerTheorems
  import opened ServerIsolation

  // ---- What to do next ----

  /** What the reader of a stream does next: it ends the input with flush, if the client has not ended it yet. */
  function Proceed(x: Stream): Event {
    if x.reader == Reading && x.mode == Sending then End(true)
    else if x.reader == Putting([], true) then Decide
    else PutNext
  }

  /** The next step that brings stream i nearer to its end: its consumer sends what is queued, then the scheduler
      goes on, and when the scheduler has nothing to do the reader goes on. */
  function Next(st: Server, i: nat): Label
    requires i < |st.streams|
  {
    var x := st.streams[i];
    if x.consumer == Accepting || x.s.outputQueue != [] then At(i, Consume)
    else
      match st.phase
      case Idle => if st.ready != [] then Collect else At(i, Proceed(x))
      case Collecting(_) => EndCollect
      case Taking(todo, _) => if todo != [] then TakeNext else LaunchBatch
      case Inferring(_) => Infer(true)
      case Committing(_) => CommitNext
      case Failing(_) => FailNext
  }

  // ---- What is left to do ----

  function TotalInput(streams: seq<Stream>): nat {
    if streams == [] then 0
    else TotalInput(streams[..|streams| - 1]) + |streams[|streams| - 1].s.inputQueue|
  }

  lemma {:induction false} TotalInputUpdate(streams: seq<Stream>, i: nat, x: Stream)
    requires i < |streams|
    ensures TotalInput(streams[i := x]) == TotalInput(streams) + |x.s.inputQueue| - |streams[i].s.inputQueue|
  {
    var n := |streams| - 1;
    if i == n {
      assert streams[i := x][..n] == streams[..n];
    } else {
      TotalInputUpdate(streams[..n], i, x);
      assert streams[i := x][..n] == streams[..n][i := x];
    }
  }

  function StreamWeight(x: Stream): nat {
    (if x.mode == Sending then 50 else 0)
    + 20 * |Todo(x.reader, x.h.input)|
    + (if x.reader.Putting? && x.reader.finishing then 2 else 0)
    + |x.s.outputQueue|
    + (if x.consumer == Accepting then 1 else 0)
  }

  function PhaseWeight(phase: Phase): nat {
    match phase
    case Idle => 0
    case Collecting(batch) => 2 + 2 * |batch|
    case Taking(todo, jobs) => 1 + 2 * |todo| + 10 * |jobs|
    case Inferring(jobs) => 9 * |jobs|
    case Committing(jobs) => 8 * |jobs|
    case Failing(jobs) => 8 * |jobs|
  }

  function SchedulerWeight(st: Server): nat {
    14 * TotalInput(st.streams) + 5 * |st.ready| + PhaseWeight(st.phase)
  }

  function Weight(st: Server, i: nat): nat
    requires i < |st.streams|
  {
    StreamWeight(st.streams[i]) + SchedulerWeight(st)
  }

  // ---- Streams that can go on ----

  /** Inference on a batch of the stream has raised. */
  predicate Doomed(st: Server, i: nat) {
    st.phase.Failing? && Find(st.phase.jobs, i).Some?
  }

  /** The stream is live, its client still listens, its output queue has room for the last audio and the
      completion, and the scheduler is not closing. */
  predicate Live(st: Server, i: nat) {
    && i < |st.streams| && !st.closing && !Doomed(st, i)
    && var x := st.streams[i];
       !x.s.cancelled && 2 <= x.s.outputCap && (x.consumer == Accepting || x.consumer == Streaming)
  }

  // ---- The consumer ----

  /** What can be at the head of a live stream's output queue. */
  lemma HeadOfQueue(sl: Slice)
    requires Outbox(sl) && !sl.x.s.cancelled && sl.x.s.outputQueue != []
    ensures !sl.x.s.outputQueue[0].RPCFailure?
  {
    var q := sl.x.s.outputQueue;
    hide FeedOf;
    if |q| > 1 {
      assert q[..|q| - 1][0] == q[0];
    }
  }

  lemma ConsumeWeight(sl: Slice)
    requires Outbox(sl) && !sl.x.s.cancelled && (sl.x.consumer == Accepting || sl.x.consumer == Streaming)
    requires sl.x.consumer == Accepting || sl.x.s.outputQueue != []
    ensures var y := OnConsume(sl.x).x;
            && StreamWeight(y) < StreamWeight(sl.x) && y.s.inputQueue == sl.x.s.inputQueue
            && y.s.outputCap == sl.x.s.outputCap && !y.s.cancelled
            && (y.consumer == Streaming || Completed(y))
  {
    hide Outbox, Todo;
    if sl.x.consumer == Streaming {
      HeadOfQueue(sl);
    }
  }

  // ---- The reader ----

  /** A live stream with nothing queued anywhere has a reader that can go on. */
  lemma ReaderCanGoOn(m: Model, sl: Slice)
    requires Inv(m, sl) && Unfinished(sl) && !sl.x.s.cancelled && !sl.closing && sl.queued == 0 && sl.flight.None?
    requires sl.x.consumer == Streaming && sl.x.s.outputQueue == []
    ensures var x, e := sl.x, Proceed(sl.x);
            && x.s.inputQueue == [] && 0 < x.s.inputCap && !x.s.ended
            && (e == PutNext ==> StreamMachine.Next(x.reader).Some?)
            && (e.End? ==> |x.s.rechunk.pending| < HOP)
  {
    IdleFacts(m, sl);
    hide Inv, Rest, WholeHops, Feed;
    var x := sl.x;
    RestIsShort(x.h.input);
    if Todo(x.reader, x.h.input) == [] {
      assert x.h.committed + [] + [] + [] == x.h.committed;
    }
  }

  lemma IdleFacts(m: Model, sl: Slice)
    requires Inv(m, sl) && !sl.x.s.cancelled && !sl.closing && sl.queued == 0 && sl.flight.None?
    requires sl.x.consumer == Streaming && sl.x.s.outputQueue == []
    ensures Intake(sl) && Ledger(sl)
    ensures sl.x.s.inputQueue == [] && 0 < sl.x.s.inputCap && !sl.x.s.ended
  {
    hide Tracks, Sent, Intake, Ledger, Layout, WorksOk, FeedOf;
  }

  lemma FlushTodo(x: Stream)
    requires x.reader == Reading && x.mode == Sending && |x.s.rechunk.pending| < HOP
    ensures var y := OnEnd(x, true).x;
            && StreamWeight(y) < StreamWeight(x) && y.s == x.s.(rechunk := y.s.rechunk) && y.consumer == x.consumer
  {
    hide FlushPartial, SourceWorks;
    var hops := Listed(FlushPartial(x.s.rechunk).1);
    SourceWorksCount(hops);
    assert OnEnd(x, true).x.reader == Putting(hops, true);
  }

  lemma SourceWorksCount(hops: seq<SourceHop>)
    ensures |SourceWorks(hops)| == |hops|
  {
  }

  lemma DecideWeight(x: Stream)
    requires x.reader == Putting([], true) && !x.s.cancelled && !x.s.ended && x.s.outputQueue == []
    requires 2 <= x.s.outputCap && ((x.s.inputSamples == 0) <==> (x.h.input == []))
    ensures var y := OnDecide(x).x;
            && StreamWeight(y) < StreamWeight(x) && !y.s.cancelled && y.s.inputQueue == x.s.inputQueue
            && y.s.outputCap == x.s.outputCap && y.consumer == x.consumer
  {
    SourceWorksCount([]);
    hide SourceWorks;
  }

  lemma PutWeight(x: Stream, closing: bool)
    requires StreamMachine.Next(x.reader).Some? && |x.s.inputQueue| < x.s.inputCap
    requires ReaderOk(x.reader, x.mode, x.h.input) && WorksOk(Todo(x.reader, x.h.input))
    ensures var r := OnPut(closing, x);
            && StreamWeight(r.x) + 20 <= StreamWeight(x) && |r.x.s.inputQueue| == |x.s.inputQueue| + 1
            && r.x.s.outputCap == x.s.outputCap && r.x.consumer == x.consumer && r.x.s.cancelled == x.s.cancelled
  {
    NextIsHead(x.reader, x.mode, x.h.input);
    hide Todo, WorksOk;
  }

  lemma ReaderWeight(m: Model, maxChunk: nat, sl: Slice)
    requires Inv(m, sl) && Unfinished(sl) && !sl.x.s.cancelled && !sl.closing && sl.queued == 0 && sl.flight.None?
    requires sl.x.consumer == Streaming && sl.x.s.outputQueue == [] && 2 <= sl.x.s.outputCap
    ensures var x, r := sl.x, React(maxChunk, false, sl.x, Proceed(sl.x));
            && StreamWeight(r.x) + 14 * |r.x.s.inputQueue| + (if r.wakes then 5 else 0)
               < StreamWeight(x) + 14 * |x.s.inputQueue|
            && r.x.s.outputCap == x.s.outputCap && r.x.consumer == x.consumer && !r.x.s.cancelled
  {
    ReaderCanGoOn(m, sl);
    ReaderFacts(m, sl);
    hide Inv, Unfinished, StreamWeight, OnEnd, OnDecide, OnPut;
    var x := sl.x;
    match Proceed(x) {
      case End(_) => FlushTodo(x); EndNeverWakes(x);
      case Decide => DecideWeight(x); DecideNeverWakes(x);
      case _ => PutWeight(x, false);
    }
  }

  lemma EndNeverWakes(x: Stream)
    ensures !OnEnd(x, true).wakes
  {
  }

  lemma DecideNeverWakes(x: Stream)
    ensures !OnDecide(x).wakes
  {
  }

  lemma ReaderFacts(m: Model, sl: Slice)
    requires Inv(m, sl) && !sl.x.s.cancelled
    ensures ReaderOk(sl.x.reader, sl.x.mode, sl.x.h.input) && WorksOk(Todo(sl.x.reader, sl.x.h.input))
    ensures sl.x.reader != Failed ==> sl.x.s.inputSamples == |sl.x.h.input|
  {
    hide Ledger, Awake, InvOut, Layout, ReaderOk, WorksOk, Todo;
  }

  // ---- The scheduler ----

  /** What a taken or committed stream may add to its own weight. */
  lemma TakeWeight(x: Stream)
    requires !x.s.cancelled && x.s.outputQueue == [] && 2 <= x.s.outputCap
    ensures var y, work := TakeFrom(x), Take(x.s).1;
            && StreamWeight(y) <= StreamWeight(x) + (if |y.s.inputQueue| < |x.s.inputQueue| then 1 else 0)
            && !y.s.cancelled && y.s.outputCap == x.s.outputCap && y.consumer == x.consumer
  {
    hide Todo;
  }

  /** Taking from any stream: nothing, or one work less in its queue. */
  lemma TakeShrinks(x: Stream)
    ensures var y, work := TakeFrom(x), Take(x.s).1;
            && |y.s.inputQueue| <= |x.s.inputQueue| && (work.Some? ==> |y.s.inputQueue| < |x.s.inputQueue|)
  {
  }

  lemma CommitWeight(x: Stream, work: ModelWork, pcm: seq<Byte>, updated: StreamCaches, closing: bool)
    requires !x.s.cancelled && x.s.outputQueue == [] && 2 <= x.s.outputCap
    ensures var y := CommitTo(x, work, pcm, updated, closing);
            && StreamWeight(y) <= StreamWeight(x) + 2
            && !y.s.cancelled && y.s.outputCap == x.s.outputCap && y.consumer == x.consumer
  {
    hide Todo, Sessions.Audio;
  }

  lemma CommitKeepsInput(x: Stream, work: ModelWork, pcm: seq<Byte>, updated: StreamCaches, closing: bool)
    ensures CommitTo(x, work, pcm, updated, closing).s.inputQueue == x.s.inputQueue
  {
    hide Sessions.Audio;
  }

  /** One step nearer: the stream can still go on, or has completed. */
  ghost predicate Nearer(st: Server, st': Server, i: nat)
    requires i < |st.streams|
  {
    && i < |st'.streams|
    && (Completed(st'.streams[i]) || (Live(st', i) && Weight(st', i) < Weight(st, i)))
  }

  /** A stretch of the stream's own reader or consumer that makes the stream lighter. */
  lemma AtNearer(c: Config, st: Server, i: nat, e: Event)
    requires Live(st, i)
    requires var x, r := st.streams[i], React(c.maxChunk, st.closing, st.streams[i], e);
             && StreamWeight(r.x) + 14 * |r.x.s.inputQueue| + (if r.wakes then 5 else 0)
                < StreamWeight(x) + 14 * |x.s.inputQueue|
             && r.x.s.outputCap == x.s.outputCap && !r.x.s.cancelled && (r.x.consumer == Streaming || Completed(r.x))
    ensures Nearer(st, ServerMachine.Step(c, st, At(i, e)), i)
  {
    hide React, StreamWeight, PhaseWeight, Find, TotalInput, Completed;
    TotalInputUpdate(st.streams, i, React(c.maxChunk, st.closing, st.streams[i], e).x);
  }

  /** A step that changes one stream, the ready queue and the phase, and makes all of it together lighter. */
  lemma UpdatedNearer(st: Server, st': Server, i: nat, k: nat, y: Stream)
    requires Live(st, i) && k < |st.streams| && st'.streams == st.streams[k := y] && !st'.closing && !Doomed(st', i)
    requires var x := st.streams[k];
             && (k == i ==> !y.s.cancelled && y.s.outputCap == x.s.outputCap && y.consumer == x.consumer)
             && (if k == i then StreamWeight(y) - StreamWeight(x) else 0)
                + 14 * (|y.s.inputQueue| - |x.s.inputQueue|) + 5 * (|st'.ready| - |st.ready|)
                + PhaseWeight(st'.phase) - PhaseWeight(st.phase) < 0
    ensures Nearer(st, st', i)
  {
    hide StreamWeight, PhaseWeight, Doomed, TotalInput, Completed;
    TotalInputUpdate(st.streams, k, y);
  }

  lemma ConsumeNearer(c: Config, st: Server, i: nat)
    requires AllOk(c, st) && Live(st, i)
    requires st.streams[i].consumer == Accepting || st.streams[i].s.outputQueue != []
    ensures Nearer(st, ServerMachine.Step(c, st, At(i, Consume)), i)
  {
    SliceOutbox(c, st, i);
    hide AllOk, Outbox, OnConsume, StreamWeight, Find, Completed, Nearer, ServerMachine.Step, Doomed;
    ConsumeWeight(SliceOf(st, i));
    ConsumeReacts(c.maxChunk, st.closing, st.streams[i]);
    hide React, SliceOf;
    AtNearer(c, st, i, Consume);
  }

  lemma ConsumeReacts(maxChunk: nat, closing: bool, x: Stream)
    ensures React(maxChunk, closing, x, Consume) == OnConsume(x) && !OnConsume(x).wakes
  {
  }

  lemma SliceOutbox(c: Config, st: Server, i: nat)
    requires AllOk(c, st) && i < |st.streams|
    ensures Outbox(SliceOf(st, i)) && SliceOf(st, i).x == st.streams[i]
  {
    assert Inv(SoloModel(c.net), SliceOf(st, i));
    hide InvIn, Tracks, Sent, Outbox, Count, Find;
  }

  lemma ReaderNearer(c: Config, st: Server, i: nat)
    requires AllOk(c, st) && Live(st, i) && st.phase.Idle? && st.ready == []
    requires st.streams[i].consumer == Streaming && st.streams[i].s.outputQueue == []
    ensures Nearer(st, ServerMachine.Step(c, st, At(i, Proceed(st.streams[i]))), i)
  {
    hide *;
    LiveMeans(st, i);
    IdleSlice(c, st, i);
    ReaderWeight(SoloModel(c.net), c.maxChunk, SliceOf(st, i));
    AtNearer(c, st, i, Proceed(st.streams[i]));
  }

  lemma LiveMeans(st: Server, i: nat)
    requires Live(st, i)
    ensures i < |st.streams| && !st.closing && !st.streams[i].s.cancelled && 2 <= st.streams[i].s.outputCap
    ensures st.streams[i].consumer == Accepting || st.streams[i].consumer == Streaming
  {
    hide Doomed;
  }

  lemma IdleSlice(c: Config, st: Server, i: nat)
    requires AllOk(c, st) && i < |st.streams| && st.phase.Idle? && st.ready == []
    ensures var sl := SliceOf(st, i);
            && Inv(SoloModel(c.net), sl) && Unfinished(sl) && sl.x == st.streams[i] && sl.closing == st.closing
            && sl.queued == 0 && sl.flight.None?
  {
    hide Inv, Unfinished, BatchOk;
  }

  lemma CollectNearer(c: Config, st: Server, i: nat)
    requires Live(st, i) && st.phase.Idle? && st.ready != []
    ensures Nearer(st, ServerMachine.Step(c, st, Collect), i)
  {
    hide TotalInput, StreamWeight, Find;
  }

  lemma EndCollectNearer(c: Config, st: Server, i: nat)
    requires Live(st, i) && st.phase.Collecting?
    ensures Nearer(st, ServerMachine.Step(c, st, EndCollect), i)
  {
    hide TotalInput, StreamWeight, Find;
  }

  lemma TakeNearer(c: Config, st: Server, i: nat)
    requires BatchOk(st) && Live(st, i) && st.phase.Taking? && st.phase.todo != [] && st.streams[i].s.outputQueue == []
    ensures Nearer(st, ServerMachine.Step(c, st, TakeNext), i)
  {
    var k := st.phase.todo[0];
    assert k < |st.streams|;
    var x := st.streams[k];
    TakeShrinks(x);
    TakeWeight(st.streams[i]);
    hide BatchOk, Take, TakeFrom, TakeGauge, StreamWeight, Find, Nearer;
    UpdatedNearer(st, TakeNextStep(st), i, k, TakeFrom(x));
  }

  lemma LaunchNearer(c: Config, st: Server, i: nat)
    requires Live(st, i) && st.phase.Taking? && st.phase.todo == []
    ensures Nearer(st, ServerMachine.Step(c, st, LaunchBatch), i)
  {
    hide TotalInput, StreamWeight, Find, LaunchJob;
  }

  lemma InferNearer(c: Config, st: Server, i: nat)
    requires RowLocal(c.net) && AllOk(c, st) && Live(st, i) && st.phase.Inferring?
    ensures Nearer(st, ServerMachine.Step(c, st, Infer(true)), i)
  {
    BatchReady(c, st);
    BatchIsSolo(c.net, HopsOf(st.phase.jobs), Captured(st.phase.jobs));
    hide RowLocal, AllOk, TotalInput, StreamWeight, Find, InferBatch, HopsOf, Captured, AllLaunched, Solo, Encode;
  }

  lemma CommitNearer(c: Config, st: Server, i: nat)
    requires BatchOk(st) && Live(st, i) && st.phase.Committing? && st.streams[i].s.outputQueue == []
    ensures Nearer(st, ServerMachine.Step(c, st, CommitNext), i)
  {
    SidInRange(st.phase.jobs, |st.streams|, 0);
    assert Jobs(st.phase)[0].flight.stage.Computed?;
    CommitLighter(c, st, i);
  }

  lemma CommitLighter(c: Config, st: Server, i: nat)
    requires Live(st, i) && st.phase.Committing? && st.streams[i].s.outputQueue == []
    requires st.phase.jobs != [] && st.phase.jobs[0].sid < |st.streams| && st.phase.jobs[0].flight.stage.Computed?
    ensures Nearer(st, ServerMachine.Step(c, st, CommitNext), i)
  {
    var Job(k, Flight(work, Computed(pcm, updated))) := st.phase.jobs[0];
    var x := st.streams[k];
    CommitKeepsInput(x, work, pcm, updated, st.closing);
    CommitWeight(st.streams[i], work, pcm, updated, st.closing);
    hide CommitTo, CommitWakes, CommitGauge, StreamWeight, Find, Nearer;
    UpdatedNearer(st, CommitNextStep(st), i, k, CommitTo(x, work, pcm, updated, st.closing));
  }

  lemma FailNearer(c: Config, st: Server, i: nat)
    requires BatchOk(st) && Live(st, i) && st.phase.Failing?
    ensures Nearer(st, ServerMachine.Step(c, st, FailNext), i)
  {
    SidInRange(st.phase.jobs, |st.streams|, 0);
    var k := st.phase.jobs[0].sid;
    var x := st.streams[k];
    hide BatchOk, FailGauge, StreamWeight, Nearer;
    UpdatedNearer(st, FailNextStep(st), i, k, x.(s := Fail(x.s, INTERNAL)));
  }

  /** Every step that Next chooses leads nearer. */
  lemma StepNearer(c: Config, st: Server, i: nat)
    requires RowLocal(c.net) && AllOk(c, st) && Live(st, i)
    ensures Nearer(st, ServerMachine.Step(c, st, Next(st, i)), i)
  {
    assert BatchOk(st);
    assert st.streams[i].consumer == Accepting || st.streams[i].consumer == Streaming;
    hide RowLocal, AllOk, BatchOk, Live, Nearer, ServerMachine.Step, Proceed;
    if st.streams[i].consumer == Accepting || st.streams[i].s.outputQueue != [] {
      ConsumeNearer(c, st, i);
    } else {
      match st.phase {
        case Idle =>
          if st.ready != [] {
            CollectNearer(c, st, i);
          } else {
            ReaderNearer(c, st, i);
          }
        case Collecting(_) => EndCollectNearer(c, st, i);
        case Taking(todo, _) =>
          if todo != [] {
            TakeNearer(c, st, i);
          } else {
            LaunchNearer(c, st, i);
          }
        case Inferring(_) => InferNearer(c, st, i);
        case Committing(_) => CommitNearer(c, st, i);
        case Failing(_) => FailNearer(c, st, i);
      }
    }
  }

  // ---- Every live stream can be led to its completion ----

  lemma RunSnoc(c: Config, labels: seq<Label>, l: Label)
    ensures Run(c, labels + [l]) == ServerMachine.Step(c, Run(c, labels), l)
  {
    assert (labels + [l])[..|labels|] == labels;
  }

  /** The steps that Next chooses, one after another, end in a completion. */
  lemma {:induction false} Finish(c: Config, labels: seq<Label>, i: nat) returns (more: seq<Label>)
    requires RowLocal(c.net) && Live(Run(c, labels), i)
    ensures i < |Run(c, labels + more).streams| && Completed(Run(c, labels + more).streams[i])
    decreases Weight(Run(c, labels), i)
  {
    hide *;
    var st := Run(c, labels);
    LiveInRange(st, i);
    var l := Next(st, i);
    RunsAreOk(c, labels);
    StepNearer(c, st, i);
    RunSnoc(c, labels, l);
    NearerMeans(st, Run(c, labels + [l]), i);
    if Completed(Run(c, labels + [l]).streams[i]) {
      more := [l];
    } else {
      var rest := Finish(c, labels + [l], i);
      more := [l] + rest;
      assert labels + more == labels + [l] + rest;
    }
  }

  lemma LiveInRange(st: Server, i: nat)
    requires Live(st, i)
    ensures i < |st.streams|
  {
  }

  lemma NearerMeans(st: Server, st': Server, i: nat)
    requires i < |st.streams| && Nearer(st, st', i)
    ensures i < |st'.streams|
    ensures Completed(st'.streams[i]) || (Live(st', i) && Weight(st', i) < Weight(st, i))
  {
    hide Live, Weight, Completed;
  }

  /** No dead end: in every state of every run, each stream that is live, whose client listens and whose output queue
      holds at least two events can still be completed, and then its client has been sent all that StreamingPipeline
      yields; wherever its reader, its work and the scheduler are, and whatever waits in all other streams. */
  lemma EveryStreamCanFinish(c: Config, labels: seq<Label>, i: nat)
    requires RowLocal(c.net) && Live(Run(c, labels), i)
    ensures exists more: seq<Label> :: i < |Run(c, labels + more).streams| && Whole(c, Run(c, labels + more).streams[i])
  {
    hide *;
    var more := Finish(c, labels, i);
    BatchingRefinesPipeline(c, labels + more, i);
    WholeMeans(c, Run(c, labels + more).streams[i]);
  }

  /** The stream has ended and its client has been sent everything. */
  predicate Whole(c: Config, x: Stream) {
    Completed(x) && AudioSent(x.h.delivered) == Expected(c, x)
  }

  lemma WholeMeans(c: Config, x: Stream)
    ensures Whole(c, x) <==> Completed(x) && AudioSent(x.h.delivered) == Expected(c, x)
  {
    hide AudioSent, Expected, Completed;
  }
}

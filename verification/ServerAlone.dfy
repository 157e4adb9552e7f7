/** The other streams of a server can be taken away: every run has a run with one stream only that leaves this
    stream in the very same state. */
module ServerAlone {
  import opened Wrappers
  import opened Pcm
  import opened Rechunker
  import opened Caches
  import opened Pipeline
  import opened Sessions
  import opened Service
  import opened StreamMachine
  import opened StreamInvariants
  import opened ServerMachine
  import opened ServerProjection
  import opened ServerInvariants
  import opened ServerIsolation

  /** What a server with this stream alone does instead of one step of the stream; a batch is collected and taken at
      once, and one that gave no work is dropped. */
  function Instead(sl: Slice, step: StreamMachine.Step): seq<Label> {
    match step
    case Serve(e) => [At(0, e)]
    case TakeStep =>
      if sl.queued == 0 || sl.flight.Some? then []
      else [Collect, EndCollect, TakeNext] + (if Take(sl.x.s).1.None? then [LaunchBatch] else [])
    case Launch => if sl.flight.Some? && sl.flight.value.stage.Taken? then [LaunchBatch] else []
    case Compute => if sl.flight.Some? && sl.flight.value.stage.Launched? then [Infer(true)] else []
    case CommitStep => if sl.flight.Some? && sl.flight.value.stage.Computed? then [CommitNext] else []
    case Abort => if sl.flight.Some? then [Infer(false), FailNext] else []
    case Shutdown => [CloseScheduler]
  }

  /** A run without the other streams: stream j is opened as number 0, and only its own steps are taken. */
  function Without(c: Config, labels: seq<Label>, j: nat): seq<Label> {
    if labels == [] then []
    else
      var front, l := labels[..|labels| - 1], labels[|labels| - 1];
      var st := Run(c, front);
      if j < |st.streams| then
        Without(c, front, j)
        + (match Local(c, st, l, j)
           case None => []
           case Some(step) => Instead(SliceOf(st, j), step))
      else if l.OpenNew? then (if st.closing then [CloseScheduler] else []) + [l]
      else []
  }

  /** The scheduler's phase when the only stream there is has this work in flight. */
  function PhaseOf(flight: Option<Flight>): Phase {
    match flight
    case None => Idle
    case Some(f) =>
      match f.stage
      case Taken => Taking([], [Job(0, f)])
      case Launched(_) => Inferring([Job(0, f)])
      case Computed(_, _) => Committing([Job(0, f)])
  }

  /** A server that has one stream and nothing else to do. */
  predicate Mirrors(solo: Server, sl: Slice) {
    && solo.streams == [sl.x] && solo.closing == sl.closing
    && sl.queued <= 1 && solo.ready == (if sl.queued == 0 then [] else [0])
    && solo.phase == PhaseOf(sl.flight)
  }

  lemma MirrorsSlice(solo: Server, sl: Slice)
    requires Mirrors(solo, sl)
    ensures SliceOf(solo, 0) == sl
  {
    assert Count([], 0) == 0 && Count([0], 0) == 1;
    assert Find([], 0) == None;
    assert sl.flight.Some? ==> Find([Job(0, sl.flight.value)], 0) == sl.flight;
  }

  // ---- One step ----

  lemma {:induction false} RunThen(c: Config, labels: seq<Label>, more: seq<Label>)
    ensures Run(c, labels + more) == RunFrom(c, Run(c, labels), more)
  {
    hide ServerMachine.Step;
    if more == [] {
      assert labels + more == labels;
    } else {
      var front := more[..|more| - 1];
      RunThen(c, labels, front);
      assert (labels + more)[..|labels + more| - 1] == labels + front;
    }
  }

  lemma ThenOne(c: Config, st: Server, l: Label)
    ensures RunFrom(c, st, []) == st
    ensures RunFrom(c, st, [l]) == ServerMachine.Step(c, st, l)
  {
    hide ServerMachine.Step;
    assert [l][..0] == [];
  }

  lemma ThenNext(c: Config, st: Server, more: seq<Label>, l: Label)
    ensures RunFrom(c, st, more + [l]) == ServerMachine.Step(c, RunFrom(c, st, more), l)
  {
    hide ServerMachine.Step;
    assert (more + [l])[..|more|] == more;
  }

  lemma AloneServes(c: Config, solo: Server, sl: Slice, e: Event)
    requires Mirrors(solo, sl) && StepSlice(SoloModel(c.net), c.maxChunk, sl, Serve(e)).queued <= 1
    ensures Mirrors(ServerMachine.Step(c, solo, At(0, e)), StepSlice(SoloModel(c.net), c.maxChunk, sl, Serve(e)))
  {
    hide React, SoloModel;
  }

  /** Collected from an idle server, about to be taken. */
  lemma AloneCollects(c: Config, solo: Server, sl: Slice)
    requires Mirrors(solo, sl) && sl.queued == 1 && sl.flight.None?
    ensures RunFrom(c, solo, [Collect, EndCollect]) == solo.(ready := [], phase := Taking([0], []))
  {
    ThenOne(c, solo, Collect);
    ThenNext(c, solo, [Collect], EndCollect);
    assert [Collect] + [EndCollect] == [Collect, EndCollect];
    assert solo.ready[1..] == [];
  }

  lemma AloneTaken(c: Config, solo: Server, sl: Slice)
    requires solo.streams == [sl.x] && solo.ready == [] && solo.phase == Taking([0], [])
    ensures var work := Take(sl.x.s).1;
            var y := ServerMachine.Step(c, solo, TakeNext);
            && y.streams == [TakeFrom(sl.x)] && y.ready == [] && y.closing == solo.closing
            && y.phase == Taking([], if work.Some? then [Job(0, Flight(work.value, Taken))] else [])
            && (work.None? ==> ServerMachine.Step(c, y, LaunchBatch) == y.(phase := Idle))
  {
    hide Take, TakeFrom, TakeGauge;
    assert [sl.x][0 := TakeFrom(sl.x)] == [TakeFrom(sl.x)];
  }

  lemma AloneTakes(c: Config, solo: Server, sl: Slice)
    requires Mirrors(solo, sl) && sl.queued == 1 && sl.flight.None?
    ensures Mirrors(RunFrom(c, solo, Instead(sl, TakeStep)), StepSlice(SoloModel(c.net), c.maxChunk, sl, TakeStep))
  {
    AloneCollects(c, solo, sl);
    AloneTaken(c, solo.(ready := [], phase := Taking([0], [])), sl);
    ThenNext(c, solo, [Collect, EndCollect], TakeNext);
    ThenNext(c, solo, [Collect, EndCollect, TakeNext], LaunchBatch);
    hide Take, TakeFrom, SoloModel, RunFrom, ServerMachine.Step;
    assert [Collect, EndCollect] + [TakeNext] == [Collect, EndCollect, TakeNext];
    assert [Collect, EndCollect, TakeNext] + [] == [Collect, EndCollect, TakeNext];
  }

  lemma AloneLaunches(c: Config, solo: Server, sl: Slice)
    requires Mirrors(solo, sl) && sl.flight.Some? && sl.flight.value.stage.Taken?
    ensures Mirrors(ServerMachine.Step(c, solo, LaunchBatch), StepSlice(SoloModel(c.net), c.maxChunk, sl, Launch))
  {
    hide SoloModel;
  }

  /** A batch of one is the model's own step. */
  lemma AloneComputes(c: Config, solo: Server, sl: Slice)
    requires RowLocal(c.net) && Mirrors(solo, sl) && sl.flight.Some? && sl.flight.value.stage.Launched?
    requires |sl.flight.value.work.samples| == HOP && Layout(sl.flight.value.stage.caches, 1)
    ensures Mirrors(ServerMachine.Step(c, solo, Infer(true)), StepSlice(SoloModel(c.net), c.maxChunk, sl, Compute))
  {
    var f, jobs := sl.flight.value, [Job(0, sl.flight.value)];
    assert HopsOf(jobs) == [f.work.samples] && Captured(jobs) == [f.stage.caches];
    BatchIsSolo(c.net, [f.work.samples], [f.stage.caches]);
    hide RowLocal, InferBatch, Solo, Encode, Layout;
    var (wav, updated) := InferBatch(c.net, [f.work.samples], [f.stage.caches]).value;
    assert (wav[0], updated[0]) == Solo(c.net, f.work.samples, f.stage.caches);
    assert ComputeJobs(jobs, wav, updated) == [Job(0, Flight(f.work, Computed(Encode(wav[0]), updated[0])))];
  }

  lemma AloneCommits(c: Config, solo: Server, sl: Slice)
    requires Mirrors(solo, sl) && sl.flight.Some? && sl.flight.value.stage.Computed?
    requires StepSlice(SoloModel(c.net), c.maxChunk, sl, CommitStep).queued <= 1
    ensures Mirrors(ServerMachine.Step(c, solo, CommitNext), StepSlice(SoloModel(c.net), c.maxChunk, sl, CommitStep))
  {
    hide SoloModel, CommitTo, CommitWakes, CommitGauge;
  }

  lemma AloneFails(c: Config, solo: Server, sl: Slice)
    requires Mirrors(solo, sl) && sl.flight.Some? && sl.flight.value.stage.Launched?
    ensures Mirrors(RunFrom(c, solo, [Infer(false), FailNext]), StepSlice(SoloModel(c.net), c.maxChunk, sl, Abort))
  {
    ThenOne(c, solo, Infer(false));
    ThenNext(c, solo, [Infer(false)], FailNext);
    assert [Infer(false)] + [FailNext] == [Infer(false), FailNext];
    hide SoloModel, InferBatch, Fail, FailGauge, RunFrom;
  }

  lemma AloneCloses(c: Config, solo: Server, sl: Slice)
    requires Mirrors(solo, sl)
    ensures Mirrors(ServerMachine.Step(c, solo, CloseScheduler), StepSlice(SoloModel(c.net), c.maxChunk, sl, Shutdown))
  {
    hide SoloModel;
  }

  /** A work in flight that can be inferred, and one that is aborted, has the form the scheduler gives it. */
  predicate FlightOk(sl: Slice, step: StreamMachine.Step) {
    sl.flight.Some? ==>
      && |sl.flight.value.work.samples| == HOP
      && (sl.flight.value.stage.Launched? ==> Layout(sl.flight.value.stage.caches, 1))
      && (step.Abort? ==> sl.flight.value.stage.Launched?)
  }

  lemma AloneSteps(c: Config, solo: Server, sl: Slice, step: StreamMachine.Step)
    requires RowLocal(c.net) && Mirrors(solo, sl) && FlightOk(sl, step)
    requires StepSlice(SoloModel(c.net), c.maxChunk, sl, step).queued <= 1
    ensures Mirrors(RunFrom(c, solo, Instead(sl, step)), StepSlice(SoloModel(c.net), c.maxChunk, sl, step))
  {
    hide ServerMachine.Step, RowLocal, RunFrom, SoloModel, React, Take, TakeFrom, CommitTo, CommitWakes, Encode, Layout,
      Fail;
    ThenOne(c, solo, Collect);
    match step {
      case Serve(e) =>
        ThenOne(c, solo, At(0, e));
        AloneServes(c, solo, sl, e);
      case TakeStep =>
        if sl.queued > 0 && sl.flight.None? {
          AloneTakes(c, solo, sl);
        }
      case Launch =>
        ThenOne(c, solo, LaunchBatch);
        if sl.flight.Some? && sl.flight.value.stage.Taken? {
          AloneLaunches(c, solo, sl);
        }
      case Compute =>
        ThenOne(c, solo, Infer(true));
        if sl.flight.Some? && sl.flight.value.stage.Launched? {
          AloneComputes(c, solo, sl);
        }
      case CommitStep =>
        ThenOne(c, solo, CommitNext);
        if sl.flight.Some? && sl.flight.value.stage.Computed? {
          AloneCommits(c, solo, sl);
        }
      case Abort =>
        if sl.flight.Some? {
          AloneFails(c, solo, sl);
        }
      case Shutdown =>
        ThenOne(c, solo, CloseScheduler);
        AloneCloses(c, solo, sl);
    }
  }

  // ---- Whole runs ----

  lemma SliceShapes(c: Config, sl: Slice)
    requires Inv(SoloModel(c.net), sl)
    ensures sl.queued <= 1
    ensures sl.flight.Some? ==>
              && |sl.flight.value.work.samples| == HOP
              && (sl.flight.value.stage.Launched? ==> Layout(sl.flight.value.stage.caches, 1))
  {
    hide InvOut, Intake, Ledger, Awake, Layout, SoloModel;
    assert sl.flight.Some? ==> InFlight(sl)[0] == sl.flight.value.work;
  }

  lemma AbortIsLaunched(c: Config, st: Server, l: Label, j: nat)
    requires BatchOk(st) && j < |st.streams| && Local(c, st, l, j) == Some(Abort)
    ensures SliceOf(st, j).flight.Some? && SliceOf(st, j).flight.value.stage.Launched?
  {
    JobsOnce(st);
    assert Jobs(st.phase)[0].flight.stage.Launched?;
    HeadAlone(st.phase.jobs, j);
  }

  lemma OpensAlone(c: Config, l: Label, closing: bool)
    requires l.OpenNew? && l.inputCap > 0 && l.outputCap > 0
    ensures Mirrors(RunFrom(c, EMPTY, (if closing then [CloseScheduler] else []) + [l]),
                    StreamMachine.Fresh(SoloModel(c.net), l.inputStart, l.inputCap, l.outputCap, closing))
  {
    hide OpenStream, SoloModel;
    if closing {
      ThenOne(c, EMPTY, CloseScheduler);
      ThenNext(c, EMPTY, [CloseScheduler], l);
    } else {
      ThenOne(c, EMPTY, l);
      assert [] + [l] == [l];
    }
  }

  lemma OkBatch(c: Config, st: Server)
    requires AllOk(c, st)
    ensures BatchOk(st)
  {
    hide BatchOk, StreamsOk;
  }

  lemma OwnStep(c: Config, st: Server, l: Label, j: nat, solo: Server)
    requires RowLocal(c.net) && AllOk(c, st) && AllOk(c, ServerMachine.Step(c, st, l))
    requires j < |st.streams| && Mirrors(solo, SliceOf(st, j))
    ensures j < |ServerMachine.Step(c, st, l).streams|
    ensures var step := Local(c, st, l, j);
            Mirrors(RunFrom(c, solo, if step.Some? then Instead(SliceOf(st, j), step.value) else []),
                    SliceOf(ServerMachine.Step(c, st, l), j))
  {
    var m, step, y := SoloModel(c.net), Local(c, st, l, j), ServerMachine.Step(c, st, l);
    Projection(c, st, l, j);
    assert BatchOk(st) && Inv(m, SliceOf(st, j)) && Inv(m, SliceOf(y, j));
    SliceShapes(c, SliceOf(st, j));
    SliceShapes(c, SliceOf(y, j));
    if step == Some(Abort) {
      AbortIsLaunched(c, st, l, j);
    }
    hide RowLocal, Inv, BatchOk, StreamsOk, ServerMachine.Step, Local, Mirrors, Instead, SliceOf, StepSlice, RunFrom,
      SoloModel, Layout;
    if step.Some? {
      AloneSteps(c, solo, SliceOf(st, j), step.value);
    } else {
      ThenOne(c, solo, Collect);
    }
  }

  lemma {:induction false} WithoutMirrors(c: Config, labels: seq<Label>, j: nat)
    requires RowLocal(c.net) && j < |Run(c, labels).streams|
    ensures Mirrors(Run(c, Without(c, labels, j)), SliceOf(Run(c, labels), j))
  {
    hide RowLocal, ServerMachine.Step, Local, Mirrors, Instead, SliceOf, RunFrom, StreamMachine.Fresh, AllOk;
    if labels != [] {
      var front, l := labels[..|labels| - 1], labels[|labels| - 1];
      var st := Run(c, front);
      RunsAreOk(c, front);
      RunsAreOk(c, labels);
      if j < |st.streams| {
        WithoutMirrors(c, front, j);
        var step := Local(c, st, l, j);
        var more := if step.Some? then Instead(SliceOf(st, j), step.value) else [];
        OwnStep(c, st, l, j, Run(c, Without(c, front, j)));
        RunThen(c, Without(c, front, j), more);
        assert Without(c, labels, j) == Without(c, front, j) + more;
      } else {
        OkBatch(c, st);
        NewStreamIsFresh(c, st, l, j);
        OpensWithRoom(c, st, l);
        OpensAlone(c, l, st.closing);
        var more := (if st.closing then [CloseScheduler] else []) + [l];
        RunThen(c, [], more);
        assert [] + more == more;
      }
    }
  }

  /** Isolation, in the form that needs no bookkeeping: take every label and every batch of all other streams away,
      and stream j - now the only one there is - ends in the very same state, with the same work in flight and the
      same audio emitted and sent. */
  lemma OthersMakeNoDifference(c: Config, labels: seq<Label>, j: nat)
    requires RowLocal(c.net) && j < |Run(c, labels).streams|
    ensures var solo := Run(c, Without(c, labels, j));
            |solo.streams| == 1 && SliceOf(solo, 0) == SliceOf(Run(c, labels), j)
  {
    WithoutMirrors(c, labels, j);
    var solo := Run(c, Without(c, labels, j));
    MirrorsSlice(solo, SliceOf(Run(c, labels), j));
    assert |solo.streams| == 1 by {
      hide Run, SliceOf, PhaseOf;
    }
    hide Mirrors, Run, SliceOf;
  }
}

/** Every stretch keeps the invariants of a stream. */
module StreamSteps {
  import opened Wrappers
  import opened Pcm
  import opened Rechunker
  import opened Caches
  import opened Pipeline
  import opened Sessions
  import opened Service
  import opened StreamMachine
  import opened Reference
  import opened StreamInvariants

  lemma WorksOkConcat(a: seq<ModelWork>, b: seq<ModelWork>)
    ensures WorksOk(a + b) <==> WorksOk(a) && WorksOk(b)
  {
    assert (a + b)[..|a|] == a && (a + b)[|a|..] == b;
    if WorksOk(a + b) {
      forall k | 0 <= k < |b| ensures |b[k].samples| == HOP {
        assert b[k] == (a + b)[|a| + k];
      }
    }
  }

  // ---- The reader ----


  lemma TodoOfHops(hops: seq<SourceHop>, finishing: bool, input: seq<real>)
    requires WellFormedHops(hops)
    ensures WorksOk(Todo(AfterPut(hops, finishing), input))
    ensures Todo(AfterPut(hops, finishing), input)
            == SourceWorks(hops) + (if finishing && input != [] then [FLUSH_WORK] else [])
  {
  }

  /** The reader's next work is the head of what it has to enqueue. */
  lemma NextIsHead(reader: Reader, mode: Mode, input: seq<real>)
    requires ReaderOk(reader, mode, input) && WorksOk(Todo(reader, input)) && Next(reader).Some?
    ensures var (work, after) := Next(reader).value;
            && Todo(reader, input) == [work] + Todo(after, input)
            && ReaderOk(after, mode, input) && WorksOk(Todo(after, input)) && WorksOk([work])
            && reader != Failed && reader != Returned && after != Failed && after != Returned
            && (after.Putting? ==> reader.Putting?)
  {
    var (work, after) := Next(reader).value;
    assert Todo(reader, input) == [work] + Todo(after, input);
    WorksOkConcat([work], Todo(after, input));
  }

  lemma {:induction false} AudioQueuedNone(events: seq<OutputEvent>)
    requires NoAudio(events)
    ensures AudioQueued(events) == []
  {
    if events != [] {
      AudioQueuedNone(events[1..]);
    }
  }

  lemma {:induction false} AudioQueuedAppend(events: seq<OutputEvent>, e: OutputEvent)
    ensures AudioQueued(events + [e]) == AudioQueued(events) + (if e.OutputAudio? then [e] else [])
  {
    if events == [] {
      assert [] + [e] == [e] && [e][1..] == [];
    } else {
      assert (events + [e])[1..] == events[1..] + [e];
      AudioQueuedHead(events);
      AudioQueuedHead(events + [e]);
      hide AudioQueued;
      AudioQueuedAppend(events[1..], e);
    }
  }

  lemma AllAudioAppend(events: seq<OutputEvent>, e: OutputEvent)
    requires AllAudio(events)
    ensures AllAudio((events + [e])[..|events|]) && (e.OutputAudio? ==> AllAudio(events + [e]))
  {
  }

  lemma CompleteIs(s: Session, flushed: bool)
    requires !s.ended
    ensures Complete(s, flushed)
            == if Full(s) then s.(ended := true, cancelled := true, outputQueue := [RPCFailure(RESOURCE_EXHAUSTED)])
               else s.(ended := true,
                       outputQueue := s.outputQueue + [StreamCompletion(s.inputSamples, s.outputSamples, flushed)])
  {
  }

  lemma OneFailure(status: Status)
    ensures var q := [RPCFailure(status)]; NoAudio(q) && AllAudio(q[..|q| - 1])
  {
  }

  lemma CompleteOutbox(m: Model, sl: Slice, flushed: bool)
    requires InvOut(m, sl) && !sl.x.s.ended && sl.flight.None? && 0 < sl.x.s.outputCap
    requires sl.x.s.cancelled ==> sl.x.s.outputQueue == [] && sl.x.consumer == Closed
    requires !sl.x.s.cancelled ==>
               && sl.x.h.committed == FeedOf(sl.x) && sl.x.mode != Sending && flushed == (sl.x.mode == Flushing)
               && sl.x.s.inputSamples == |sl.x.h.input|
    requires sl.x.reader != Failed ==> sl.x.mode != Sending && !sl.x.reader.Putting?
    ensures Outbox(sl.(x := sl.x.(s := Complete(sl.x.s, flushed))))
  {
    hide Drive, Sent, Feed, AllAudio, Queued, Encoded, Layout, Complete;
    var s := sl.x.s;
    CompleteIs(s, flushed);
    OneFailure(RESOURCE_EXHAUSTED);
    var e := StreamCompletion(s.inputSamples, s.outputSamples, flushed);
    assert (s.outputQueue + [e])[..|s.outputQueue|] == s.outputQueue;
    NothingIsAudio();
  }

  lemma CompleteSent(m: Model, sl: Slice, flushed: bool)
    requires InvOut(m, sl) && !sl.x.s.ended && sl.flight.None? && 0 < sl.x.s.outputCap
    requires sl.x.s.cancelled ==> sl.x.s.outputQueue == [] && sl.x.consumer == Closed
    requires !sl.x.s.cancelled ==>
               && sl.x.h.committed == FeedOf(sl.x) && sl.x.mode != Sending && flushed == (sl.x.mode == Flushing)
               && sl.x.s.inputSamples == |sl.x.h.input|
    requires sl.x.reader != Failed ==> sl.x.mode != Sending && !sl.x.reader.Putting?
    ensures Sent(sl.(x := sl.x.(s := Complete(sl.x.s, flushed))))
    ensures Tracks(m, sl.(x := sl.x.(s := Complete(sl.x.s, flushed))))
  {
    hide Drive, Transcript, AudioSent, AudioQueued, Feed, AllAudio, Queued, Encoded, Layout, NoAudio;
    var s := sl.x.s;
    AudioQueuedAppend(s.outputQueue, StreamCompletion(s.inputSamples, s.outputSamples, flushed));
  }

  /** Completing a stream whose work is all committed puts the right completion behind the last audio. */
  lemma CompleteOut(m: Model, sl: Slice, flushed: bool)
    requires InvOut(m, sl) && !sl.x.s.ended && sl.flight.None? && 0 < sl.x.s.outputCap
    requires sl.x.s.cancelled ==> sl.x.s.outputQueue == [] && sl.x.consumer == Closed
    requires !sl.x.s.cancelled ==>
               && sl.x.h.committed == FeedOf(sl.x) && sl.x.mode != Sending && flushed == (sl.x.mode == Flushing)
               && sl.x.s.inputSamples == |sl.x.h.input|
    requires sl.x.reader != Failed ==> sl.x.mode != Sending && !sl.x.reader.Putting?
    ensures InvOut(m, sl.(x := sl.x.(s := Complete(sl.x.s, flushed))))
  {
    CompleteOutbox(m, sl, flushed);
    CompleteSent(m, sl, flushed);
    hide Tracks, Outbox, Sent;
  }

  lemma NothingIsAudio()
    ensures AllAudio([])
  {
  }

  /** What a commit does to the input side of a session. */
  lemma CommitOnly(s: Session, work: ModelWork, pcm: seq<Byte>, updated: StreamCaches)
    requires |s.outputQueue| <= s.outputCap && 0 < s.outputCap
    ensures var y := Commit(s, work, pcm, updated);
            && y == s.(caches := y.caches, pendingSource := y.pendingSource, outputQueue := y.outputQueue,
                       outputSamples := y.outputSamples, ended := y.ended, cancelled := y.cancelled)
            && |y.outputQueue| <= y.outputCap && (y.caches == s.caches || y.caches == updated)
            && (s.cancelled || s.ended ==> y == s)
            && (!s.cancelled && !s.ended ==>
                  && (Overflows(s) ==> y.cancelled)
                  && (!work.terminalFlush ==> !y.ended && (y.cancelled ==> Overflows(s)))
                  && (work.terminalFlush ==> y.ended || y.cancelled))
  {
  }

  lemma CommitFacts(s: Session, work: ModelWork, pcm: seq<Byte>, updated: StreamCaches, closing: bool)
    requires |s.outputQueue| <= s.outputCap && 0 < s.outputCap
    ensures var s' := CommitAndNotify(s, work, pcm, updated, closing);
            && s'.inputStart == s.inputStart && s'.inputQueue == s.inputQueue && s'.inputCap == s.inputCap
            && s'.inputSamples == s.inputSamples && s'.expectedInput == s.expectedInput && s'.rechunk == s.rechunk
            && |s'.outputQueue| <= s'.outputCap == s.outputCap
            && (s'.caches == s.caches || s'.caches == updated)
            && (s.cancelled ==> s'.cancelled)
            && (s'.scheduled <==> s.scheduled || CommitWakes(s, work, pcm, updated, closing))
            && (CommitWakes(s, work, pcm, updated, closing) ==> !s.scheduled && s.inputQueue != [])
            && (!s'.cancelled && s.ended ==> s' == s)
            && (!s'.cancelled && !s.ended ==> !Overflows(s))
            && (!s'.cancelled && !s'.ended && !closing && s'.inputQueue != [] ==> s'.scheduled)
  {
    hide Commit, Overflows;
    CommitOnly(s, work, pcm, updated);
  }

  /** A commit up to the emission of the delayed hop. */
  function Committed(x: Stream, work: ModelWork, pcm: seq<Byte>, updated: StreamCaches): Stream {
    var s1 := Sessions.Advance(x.s, work, updated);
    x.(s := if x.s.pendingSource.Some? then Emit(s1, x.s.pendingSource.value, pcm) else s1,
       h := x.h.(committed := x.h.committed + [work],
                 emitted := if x.s.pendingSource.Some? then x.h.emitted + [Sessions.Audio(x.s.pendingSource.value, pcm)]
                            else x.h.emitted))
  }

  lemma CommittedTracks(m: Model, sl: Slice)
    requires Sound(m) && Inv(m, sl) && sl.flight.Some? && sl.flight.value.stage.Computed?
    requires !sl.x.s.cancelled && !sl.x.s.ended && !Overflows(sl.x.s)
    ensures var Flight(work, Computed(pcm, updated)) := sl.flight.value;
            Tracks(m, sl.(x := Committed(sl.x, work, pcm, updated), flight := None))
  {
    hide Drive, Feed, Todo, Layout, Queued, Awake, Encoded, Cut, Outbox, Sent, Intake, WorksOk;
    var x := sl.x;
    var Flight(work, Computed(pcm, updated)) := sl.flight.value;
    var rest := x.s.inputQueue + Todo(x.reader, x.h.input);
    assert x.h.committed + [work] + rest == FeedOf(x);
    DriveCommit(m, x.s.inputStart, x.h.input, x.mode, x.h.committed, work, rest);
    if x.s.pendingSource.Some? {
      QueuedAppend(x.h.emitted, Sessions.Audio(x.s.pendingSource.value, pcm));
    }
  }

  lemma CommittedOutbox(m: Model, sl: Slice)
    requires Sound(m) && Inv(m, sl) && sl.flight.Some? && sl.flight.value.stage.Computed?
    requires !sl.x.s.cancelled && !sl.x.s.ended && !Overflows(sl.x.s)
    ensures var Flight(work, Computed(pcm, updated)) := sl.flight.value;
            Outbox(sl.(x := Committed(sl.x, work, pcm, updated), flight := None))
  {
    hide Drive, Feed, Todo, Layout, Queued, Encoded, Cut, Completion, AllAudio, NoAudio, Tracks, Intake, Awake, WorksOk,
      Sent, Ledger;
    var x := sl.x;
    if x.s.pendingSource.Some? {
      AllAudioAppend(x.s.outputQueue, Sessions.Audio(x.s.pendingSource.value, sl.flight.value.stage.pcm));
    }
  }

  lemma CommittedSent(m: Model, sl: Slice)
    requires Sound(m) && Inv(m, sl) && sl.flight.Some? && sl.flight.value.stage.Computed?
    requires !sl.x.s.cancelled && !sl.x.s.ended && !Overflows(sl.x.s)
    ensures var Flight(work, Computed(pcm, updated)) := sl.flight.value;
            Sent(sl.(x := Committed(sl.x, work, pcm, updated), flight := None))
  {
    hide Drive, Feed, Todo, Layout, Queued, Encoded, Cut, Transcript, AudioSent, AudioQueued, Tracks, Intake, Awake,
      WorksOk, Outbox, Ledger;
    var x := sl.x;
    if x.s.pendingSource.Some? {
      AudioQueuedAppend(x.s.outputQueue, Sessions.Audio(x.s.pendingSource.value, sl.flight.value.stage.pcm));
    }
  }

  lemma NothingToPut(reader: Reader, mode: Mode, input: seq<real>)
    requires ReaderOk(reader, mode, input) && Todo(reader, input) == [] && input != []
    ensures !reader.Putting?
  {
  }

  /** A stream that fails keeps what it has sent, and nothing but the failure waits to be sent. */
  lemma FailedOut(m: Model, sl: Slice, s: Session, status: Status)
    requires InvOut(m, sl) && sl.x.h.input != []
    requires s == sl.x.s.(caches := s.caches, pendingSource := s.pendingSource)
    ensures InvOut(m, sl.(x := sl.x.(s := Fail(s, status)), flight := None))
  {
    hide Drive, Transcript, AudioSent, AudioQueued, Feed, AllAudio, Completion;
    assert Fail(s, status).outputQueue[..0] == [];
    NothingIsAudio();
  }

  /** A commit, case by case. */
  lemma CommitCases(x: Stream, work: ModelWork, pcm: seq<Byte>, updated: StreamCaches, closing: bool)
    ensures var x' := CommitTo(x, work, pcm, updated, closing);
            if x.s.cancelled || x.s.ended then x' == x
            else if Overflows(x.s) then x' == x.(s := Fail(Sessions.Advance(x.s, work, updated), RESOURCE_EXHAUSTED))
            else
              var c := Committed(x, work, pcm, updated);
              if work.terminalFlush then x' == c.(s := Complete(c.s, true))
              else x' == c.(s := c.s.(scheduled := x'.s.scheduled))
  {
  }

  lemma RescheduledOut(m: Model, sl: Slice, scheduled: bool, queued: nat)
    requires InvOut(m, sl)
    ensures InvOut(m, sl.(x := sl.x.(s := sl.x.s.(scheduled := scheduled)), queued := queued))
  {
    hide Drive, Transcript, AudioSent, AudioQueued, Feed, AllAudio, NoAudio, Completion;
  }

  lemma CommittedOut(m: Model, sl: Slice)
    requires Sound(m) && Inv(m, sl) && sl.flight.Some? && sl.flight.value.stage.Computed?
    requires !sl.x.s.cancelled && !sl.x.s.ended && !Overflows(sl.x.s)
    ensures var Flight(work, Computed(pcm, updated)) := sl.flight.value;
            var c := Committed(sl.x, work, pcm, updated);
            && InvOut(m, sl.(x := c, flight := None))
            && (work.terminalFlush ==> InvOut(m, sl.(x := c.(s := Complete(c.s, true)), flight := None)))
  {
    hide Drive, Feed, Todo, Layout, Tracks, Sent;
    var x := sl.x;
    var Flight(work, Computed(pcm, updated)) := sl.flight.value;
    CommittedTracks(m, sl);
    CommittedOutbox(m, sl);
    CommittedSent(m, sl);
    if work.terminalFlush {
      FeedAt(x.s.inputStart, x.h.input, x.mode, x.h.committed, work, x.s.inputQueue + Todo(x.reader, x.h.input));
      NothingToPut(x.reader, x.mode, x.h.input);
      CompleteOut(m, sl.(x := Committed(x, work, pcm, updated), flight := None), true);
    }
  }

  lemma CommitOut(m: Model, maxChunk: nat, sl: Slice)
    requires Sound(m) && Inv(m, sl)
    ensures InvOut(m, StepSlice(m, maxChunk, sl, CommitStep))
  {
    if sl.flight.Some? && sl.flight.value.stage.Computed? {
      assert sl.x.h.input != [];
      hide InvOut, InvIn, CommitTo, Committed, CommitWakes, Complete, Fail, Sessions.Advance, Overflows;
      var x := sl.x;
      var Flight(work, Computed(pcm, updated)) := sl.flight.value;
      CommitCases(x, work, pcm, updated, sl.closing);
      var sl' := StepSlice(m, maxChunk, sl, CommitStep);
      if x.s.cancelled || x.s.ended {
        LandedOut(m, sl);
        RescheduledOut(m, sl.(flight := None), x.s.scheduled, sl'.queued);
      } else if Overflows(x.s) {
        AdvanceIs(x.s, work, updated);
        FailedOut(m, sl, Sessions.Advance(x.s, work, updated), RESOURCE_EXHAUSTED);
        RescheduledOut(m, sl.(x := sl'.x, flight := None), sl'.x.s.scheduled, sl'.queued);
      } else {
        CommittedOut(m, sl);
        var c := Committed(x, work, pcm, updated);
        var mid := sl.(x := if work.terminalFlush then c.(s := Complete(c.s, true)) else c, flight := None);
        RescheduledOut(m, mid, sl'.x.s.scheduled, sl'.queued);
      }
    }
  }

  lemma AdvanceIs(s: Session, work: ModelWork, updated: StreamCaches)
    ensures var s' := Sessions.Advance(s, work, updated);
            s' == s.(caches := s'.caches, pendingSource := s'.pendingSource)
  {
  }

  lemma LandedOut(m: Model, sl: Slice)
    requires InvOut(m, sl)
    ensures InvOut(m, sl.(flight := None))
  {
  }

  // ---- The reader's stretches ----

  lemma FailReaderIn(m: Model, sl: Slice, s: Session, status: Status)
    requires Sound(m) && Inv(m, sl) && sl.x.reader == Reading
    requires s == sl.x.s.(expectedSequence := s.expectedSequence, expectedInput := s.expectedInput,
                          inputSamples := s.inputSamples)
    ensures InvIn(m, sl.(x := FailReader(sl.x.(s := s), status).x))
  {
    hide Feed, Layout, Rest, WholeHops, InvOut;
  }

  lemma FailReaderOut(m: Model, sl: Slice, s: Session, status: Status)
    requires Sound(m) && Inv(m, sl) && sl.x.reader == Reading
    requires s == sl.x.s.(expectedSequence := s.expectedSequence, expectedInput := s.expectedInput,
                          inputSamples := s.inputSamples)
    ensures InvOut(m, sl.(x := FailReader(sl.x.(s := s), status).x))
  {
    hide Drive, Transcript, AudioSent, AudioQueued, Completion, Feed, WorksOk, Layout, Rest, WholeHops;
  }

  /** An accepted chunk: the counters, the rechunker and the reader move on, and the input grows. */
  predicate Extended(x: Stream, y: Stream, more: seq<real>) {
    var all := x.s.rechunk.pending + more;
    && more != []
    && y == x.(s := y.s, reader := AfterPut(FullHops(x.s.rechunk.next, all), false),
               h := x.h.(input := x.h.input + more))
    && y.s == x.s.(expectedSequence := y.s.expectedSequence,
                   expectedInput := x.s.expectedInput + |more|,
                   inputSamples := x.s.inputSamples + |more|,
                   rechunk := Rechunk(Rest(all), x.s.rechunk.next + WholeHops(|all|), x.s.rechunk.bound))
  }

  lemma AudioFacts(maxChunk: nat, x: Stream, chunk: AudioChunk)
    requires x.mode == Sending && Accept(maxChunk, x.s, chunk).1.Ok?
    ensures |chunk.pcm| % 2 == 0 && Extended(x, OnAudio(maxChunk, x, chunk).x, Samples(chunk.pcm))
  {
    hide FullHops, WholeHops, Rest;
  }

  lemma AudioIntake(sl: Slice, y: Stream, more: seq<real>)
    requires Intake(sl) && sl.x.reader == Reading && sl.x.mode == Sending && Extended(sl.x, y, more)
    ensures Intake(sl.(x := y))
  {
    RestAppend(sl.x.h.input, more);
    hide FullHops, WholeHops, Rest;
  }

  lemma AudioShapes(m: Model, sl: Slice, y: Stream, more: seq<real>)
    requires Shapes(m, sl) && sl.x.reader == Reading && Extended(sl.x, y, more)
    ensures Shapes(m, sl.(x := y))
  {
    var hops := FullHops(sl.x.s.rechunk.next, sl.x.s.rechunk.pending + more);
    FullHopsWellFormed(sl.x.s.rechunk.next, sl.x.s.rechunk.pending + more);
    TodoOfHops(hops, false, sl.x.h.input + more);
    hide FullHops, WholeHops, Rest, Layout, SourceWorks, Todo, WorksOk;
  }

  lemma AudioLedger(sl: Slice, y: Stream, more: seq<real>)
    requires Intake(sl) && Ledger(sl) && sl.x.reader == Reading && sl.x.mode == Sending && Extended(sl.x, y, more)
    ensures Ledger(sl.(x := y))
  {
    var x := sl.x;
    var hops := FullHops(x.s.rechunk.next, x.s.rechunk.pending + more);
    ReadingTodo(sl);
    FeedAudio(x.s.inputStart, x.h.input, more);
    FullHopsWellFormed(x.s.rechunk.next, x.s.rechunk.pending + more);
    TodoOfHops(hops, false, x.h.input + more);
    hide FullHops, WholeHops, Rest, SourceWorks, Todo, Feed, Intake;
  }

  lemma ReadingTodo(sl: Slice)
    requires Intake(sl) && sl.x.reader == Reading && sl.x.mode == Sending
    ensures Todo(sl.x.reader, sl.x.h.input) == []
    ensures sl.x.s.rechunk.pending == Rest(sl.x.h.input)
            && sl.x.s.rechunk.next == sl.x.s.inputStart + WholeHops(|sl.x.h.input|)
  {
    hide Rest, WholeHops;
  }

  lemma InParts(m: Model, sl: Slice)
    ensures InvIn(m, sl) <==> Shapes(m, sl) && Intake(sl) && Ledger(sl) && Awake(sl)
  {
    hide Shapes, Intake, Ledger, Awake;
  }

  lemma AudioAwake(sl: Slice, y: Stream, more: seq<real>)
    requires Awake(sl) && Extended(sl.x, y, more)
    ensures Awake(sl.(x := y))
  {
    hide FullHops, WholeHops, Rest;
  }

  lemma InvParts(m: Model, sl: Slice)
    ensures Inv(m, sl) <==> InvIn(m, sl) && InvOut(m, sl)
  {
    hide InvIn, InvOut;
  }

  lemma AudioIn(m: Model, maxChunk: nat, sl: Slice, chunk: AudioChunk)
    requires Sound(m) && Inv(m, sl) && sl.x.reader == Reading && sl.x.mode == Sending
             && Accept(maxChunk, sl.x.s, chunk).1.Ok?
    ensures InvIn(m, sl.(x := OnAudio(maxChunk, sl.x, chunk).x))
  {
    hide *;
    var y := OnAudio(maxChunk, sl.x, chunk).x;
    AudioFacts(maxChunk, sl.x, chunk);
    InvParts(m, sl);
    InParts(m, sl);
    AudioShapes(m, sl, y, Samples(chunk.pcm));
    AudioIntake(sl, y, Samples(chunk.pcm));
    AudioLedger(sl, y, Samples(chunk.pcm));
    AudioAwake(sl, y, Samples(chunk.pcm));
    InParts(m, sl.(x := y));
  }

  lemma AudioOut(m: Model, maxChunk: nat, sl: Slice, chunk: AudioChunk)
    requires Sound(m) && Inv(m, sl) && sl.x.reader == Reading && sl.x.mode == Sending
             && Accept(maxChunk, sl.x.s, chunk).1.Ok?
    ensures InvOut(m, sl.(x := OnAudio(maxChunk, sl.x, chunk).x))
  {
    AudioFacts(maxChunk, sl.x, chunk);
    hide Accept, OnAudio, Samples, Drive, Transcript, AudioSent, AudioQueued, Completion, Feed, WorksOk, Layout,
      FullHops, Rest, WholeHops, InvIn;
    InvLedger(m, sl);
  }

  lemma EndWithoutFlushIn(m: Model, sl: Slice)
    requires Sound(m) && Inv(m, sl) && sl.x.reader == Reading && sl.x.mode == Sending
    ensures InvIn(m, sl.(x := OnEnd(sl.x, false).x))
  {
    hide InvOut, Layout, Rest, WholeHops, Feed;
    FeedEnd(sl.x.s.inputStart, sl.x.h.input);
  }

  lemma EndWithFlushIn(m: Model, sl: Slice)
    requires Sound(m) && Inv(m, sl) && sl.x.reader == Reading && sl.x.mode == Sending
    ensures InvIn(m, sl.(x := OnEnd(sl.x, true).x))
  {
    hide InvOut, Layout, FullHops, Rest, WholeHops, Feed, SourceWorks, WorksOk, PartialHop;
    var x := sl.x;
    FeedEnd(x.s.inputStart, x.h.input);
    RestIsShort(x.h.input);
    PartialOk(x.s.rechunk);
    TodoOfHops(Listed(FlushPartial(x.s.rechunk).1), true, x.h.input);
  }

  lemma RestIsShort(input: seq<real>)
    ensures |Rest(input)| < HOP
  {
  }

  lemma PartialOk(r: Rechunk)
    requires |r.pending| < HOP
    ensures WellFormedHops(Listed(FlushPartial(r).1))
  {
  }

  lemma EndIn(m: Model, sl: Slice, flush: bool)
    requires Sound(m) && Inv(m, sl) && sl.x.reader == Reading && sl.x.mode == Sending
    ensures InvIn(m, sl.(x := OnEnd(sl.x, flush).x))
  {
    if flush {
      EndWithFlushIn(m, sl);
    } else {
      EndWithoutFlushIn(m, sl);
    }
    hide InvIn, InvOut, OnEnd;
  }

  lemma EndOut(m: Model, sl: Slice, flush: bool)
    requires Sound(m) && Inv(m, sl) && sl.x.reader == Reading && sl.x.mode == Sending
    ensures InvOut(m, sl.(x := OnEnd(sl.x, flush).x))
  {
    hide Drive, Transcript, AudioSent, AudioQueued, Completion, Feed, WorksOk, Layout, FullHops, Rest, WholeHops;
  }

  lemma PutIn(m: Model, maxChunk: nat, sl: Slice)
    requires Sound(m) && Inv(m, sl)
    ensures InvIn(m, StepSlice(m, maxChunk, sl, Serve(PutNext)))
  {
    hide Next, Todo, ReaderOk, WorksOk, Feed, Layout, Rest, WholeHops, InvOut;
    var x := sl.x;
    if Next(x.reader).Some? {
      var (work, after) := Next(x.reader).value;
      NextIsHead(x.reader, x.mode, x.h.input);
      WorksOkConcat(x.s.inputQueue, [work]);
    }
  }

  /** The output side does not see the input queue, nor the reader as it goes on putting. */
  lemma InputSideOut(m: Model, sl: Slice, inputQueue: seq<ModelWork>, scheduled: bool, reader: Reader, queued: nat)
    requires InvOut(m, sl)
    requires (sl.x.reader == Failed ==> reader == Failed) && (reader.Putting? ==> sl.x.reader.Putting?)
    ensures InvOut(m, sl.(x := sl.x.(s := sl.x.s.(inputQueue := inputQueue, scheduled := scheduled), reader := reader),
                          queued := queued))
  {
    hide Drive, Transcript, AudioSent, AudioQueued, Feed, AllAudio, NoAudio, Completion, Encoded, Queued;
  }

  lemma NextReader(reader: Reader)
    requires Next(reader).Some?
    ensures reader != Failed && (Next(reader).value.1.Putting? ==> reader.Putting?)
  {
  }

  lemma PutOut(m: Model, maxChunk: nat, sl: Slice)
    requires Sound(m) && Inv(m, sl)
    ensures InvOut(m, StepSlice(m, maxChunk, sl, Serve(PutNext)))
  {
    hide Next, InvIn, InvOut, Wakes;
    if Next(sl.x.reader).Some? {
      NextReader(sl.x.reader);
      var sl' := StepSlice(m, maxChunk, sl, Serve(PutNext));
      InputSideOut(m, sl, sl'.x.s.inputQueue, sl'.x.s.scheduled, sl'.x.reader, sl'.queued);
    }
  }

  lemma DecideIn(m: Model, sl: Slice)
    requires Sound(m) && Inv(m, sl)
    ensures InvIn(m, sl.(x := OnDecide(sl.x).x))
  {
    hide Feed, Layout, Rest, WholeHops, FullHops, InvOut;
    assert Todo(Putting([], true), sl.x.h.input) == (if sl.x.h.input != [] then [FLUSH_WORK] else []);
  }

  lemma DecideOut(m: Model, sl: Slice)
    requires Sound(m) && Inv(m, sl)
    ensures InvOut(m, sl.(x := OnDecide(sl.x).x))
  {
    var x := sl.x;
    if x.reader == Putting([], true) {
      QuietStream(m, sl);
      hide InvIn, InvOut, Complete;
      if x.s.inputSamples == 0 {
        InputSideOut(m, sl, x.s.inputQueue, x.s.scheduled, Reading, sl.queued);
        CompleteOut(m, sl.(x := x.(reader := Reading)), true);
      } else {
        InputSideOut(m, sl, x.s.inputQueue, x.s.scheduled, PuttingFlush, sl.queued);
      }
    }
  }

  /** A stream that is flushed without having sent anything has nothing in flight and nothing to commit. */
  lemma QuietStream(m: Model, sl: Slice)
    requires Inv(m, sl) && sl.x.reader == Putting([], true)
    ensures sl.x.mode == Flushing && 0 < sl.x.s.outputCap && sl.x.s.inputSamples == |sl.x.h.input|
    ensures sl.x.s.inputSamples == 0 ==>
              && !sl.x.s.ended && sl.flight.None? && sl.x.h.committed == FeedOf(sl.x)
              && (sl.x.s.cancelled ==> sl.x.s.outputQueue == [] && sl.x.consumer == Closed)
  {
    hide Feed, Tracks, Sent, Layout, Rest, Awake, WorksOk, Todo;
    EmptyFeed(sl.x.s.inputStart, Flushing);
  }

  lemma CancelReaderIn(m: Model, maxChunk: nat, sl: Slice)
    requires Sound(m) && Inv(m, sl)
    ensures InvIn(m, StepSlice(m, maxChunk, sl, Serve(CancelReader)))
  {
    hide Feed, Layout, Rest, WholeHops, FullHops, InvOut;
  }

  lemma CancelReaderOut(m: Model, maxChunk: nat, sl: Slice)
    requires Sound(m) && Inv(m, sl)
    ensures InvOut(m, StepSlice(m, maxChunk, sl, Serve(CancelReader)))
  {
    hide Drive, Transcript, AudioSent, AudioQueued, Completion, Feed, WorksOk, Layout, FullHops, Rest, WholeHops;
  }

  // ---- The consumer's stretches ----

  lemma ConsumeIn(m: Model, sl: Slice)
    requires Sound(m) && Inv(m, sl)
    ensures InvIn(m, sl.(x := OnConsume(sl.x).x))
  {
    hide Feed, Layout, Rest, WholeHops, FullHops, InvOut, WorksOk;
  }

  lemma ConsumeTracks(m: Model, sl: Slice)
    requires Tracks(m, sl)
    ensures Tracks(m, sl.(x := OnConsume(sl.x).x))
  {
    hide Drive, Encoded, Queued;
  }

  lemma ConsumeOutbox(m: Model, sl: Slice)
    requires Outbox(sl)
    ensures Outbox(sl.(x := OnConsume(sl.x).x))
  {
    hide Feed, Queued;
    var x := sl.x;
    if x.consumer == Streaming && x.s.outputQueue != [] {
      var q := x.s.outputQueue;
      assert |q| > 1 ==> q[1..][..|q| - 2] == q[..|q| - 1][1..];
      if !q[0].OutputAudio? {
        LastTerminal(q);
      }
    }
  }

  /** A transcript without a terminal message may be continued by the next audio or by a terminal message. */
  lemma TranscriptNext(d: seq<ServerMessage>, message: ServerMessage)
    requires Transcript(d) && d != [] && !d[|d| - 1].StreamEnded? && !d[|d| - 1].Aborted?
    requires message.StreamEnded? || message.Aborted? || (message.EnhancedAudio? && message.sequence == |d| - 1)
    ensures Transcript(d + [message])
  {
  }

  lemma AudioSentNext(d: seq<ServerMessage>, message: ServerMessage)
    ensures AudioSent(d + [message])
            == AudioSent(d) + (if message.EnhancedAudio? then [OutputAudio(message.start, message.pcm, message.valid)]
                               else [])
  {
    assert (d + [message])[..|d|] == d;
  }

  lemma AudioQueuedHead(q: seq<OutputEvent>)
    requires q != []
    ensures AudioQueued(q) == (if q[0].OutputAudio? then [q[0]] else []) + AudioQueued(q[1..])
  {
  }

  lemma FirstMessage()
    ensures Transcript([Accepted]) && AudioSent([Accepted]) == AudioSent([]) == []
  {
    AudioSentNext([], Accepted);
    assert [Accepted] == [] + [Accepted];
  }

  lemma ConsumeSent(m: Model, sl: Slice)
    requires Outbox(sl) && Sent(sl) && Tracks(m, sl)
    ensures Sent(sl.(x := OnConsume(sl.x).x))
  {
    hide Feed, Tracks, Transcript, AudioSent, AudioQueued, Queued;
    var x := sl.x;
    var d := x.h.delivered;
    FirstMessage();
    assert d == [] ==> d + [Accepted] == [Accepted];
    if x.consumer == Streaming && x.s.outputQueue != [] {
      var message := Deliver(x.s).1;
      TranscriptNext(d, message);
      AudioSentNext(d, message);
      AudioQueuedHead(x.s.outputQueue);
      if !x.s.outputQueue[0].OutputAudio? {
        LastTerminal(x.s.outputQueue);
      }
    }
  }

  lemma ConsumeOut(m: Model, sl: Slice)
    requires Inv(m, sl)
    ensures InvOut(m, sl.(x := OnConsume(sl.x).x))
  {
    ConsumeTracks(m, sl);
    ConsumeOutbox(m, sl);
    ConsumeSent(m, sl);
    hide Tracks, Outbox, Sent;
  }

  /** A terminal event at the head of the queue is all there is in it. */
  lemma LastTerminal(q: seq<OutputEvent>)
    requires q != [] && AllAudio(q[..|q| - 1]) && !q[0].OutputAudio?
    ensures |q| == 1 && AudioQueued(q) == []
  {
    assert q[1..] == [];
  }

  lemma TeardownIn(m: Model, sl: Slice)
    requires Sound(m) && Inv(m, sl)
    ensures InvIn(m, sl.(x := OnTeardown(sl.x).x))
  {
    hide Feed, Layout, Rest, WholeHops, FullHops, InvOut;
  }

  lemma TeardownOut(m: Model, sl: Slice)
    requires Sound(m) && Inv(m, sl)
    ensures InvOut(m, sl.(x := OnTeardown(sl.x).x))
  {
    hide Drive, Transcript, AudioSent, AudioQueued, Completion, Feed, WorksOk, Layout, FullHops, Rest, WholeHops;
  }

  // ---- The scheduler's stretches ----

  /** What taking does to the input side of a session. */
  lemma TakeFacts(s: Session)
    requires |s.outputQueue| <= s.outputCap && 0 < s.outputCap
    ensures var (s', work) := Take(s);
            && s'.inputStart == s.inputStart && s'.inputCap == s.inputCap && s'.inputSamples == s.inputSamples
            && s'.expectedInput == s.expectedInput && s'.rechunk == s.rechunk && s'.caches == s.caches
            && |s'.outputQueue| <= s'.outputCap == s.outputCap
            && !s'.scheduled && (s.cancelled ==> s'.cancelled)
            && (if s.cancelled || s.ended || s.inputQueue == [] then s' == s.(scheduled := false) && work.None?
                else
                  && s'.inputQueue == s.inputQueue[1..]
                  && (TakesNoFlush(s) ==> work.None? && s'.ended)
                  && (!TakesNoFlush(s) ==> work == Some(s.inputQueue[0]) && !s'.ended))
  {
  }

  /** The ledger when the head of the input queue goes into flight, or is spent at once. */
  lemma TakenLedger(sl: Slice)
    requires Ledger(sl) && sl.flight.None? && !sl.x.s.cancelled && sl.x.s.inputQueue != []
    ensures var (x, work) := (sl.x, sl.x.s.inputQueue[0]);
            && x.h.committed + [work] + x.s.inputQueue[1..] + Todo(x.reader, x.h.input) == FeedOf(x)
            && x.h.committed + [work] <= FeedOf(x)
            && (!work.terminalNoFlush ==> x.h.input != [])
  {
    hide Feed, Todo;
    var x := sl.x;
    var work, rest := x.s.inputQueue[0], x.s.inputQueue[1..] + Todo(x.reader, x.h.input);
    assert x.s.inputQueue == [work] + x.s.inputQueue[1..];
    assert x.h.committed + [work] + rest == FeedOf(x);
    if !work.terminalNoFlush {
      WorkHasInput(x.s.inputStart, x.h.input, x.mode, x.h.committed, work, rest);
    }
  }

  /** A stream that has nothing to give only leaves the batch. */
  lemma PassedIn(m: Model, maxChunk: nat, sl: Slice)
    requires Inv(m, sl) && sl.queued > 0 && sl.flight.None?
    requires sl.x.s.cancelled || sl.x.s.ended || sl.x.s.inputQueue == []
    ensures InvIn(m, StepSlice(m, maxChunk, sl, TakeStep))
  {
    hide Feed, Layout, Rest, WholeHops, InvOut, Todo, ReaderOk, WorksOk;
    NoWork();
  }

  lemma TakenIn(m: Model, maxChunk: nat, sl: Slice)
    requires Inv(m, sl) && sl.queued > 0 && sl.flight.None?
    requires !sl.x.s.cancelled && !sl.x.s.ended && sl.x.s.inputQueue != []
    ensures InvIn(m, StepSlice(m, maxChunk, sl, TakeStep))
  {
    hide Feed, Layout, Rest, WholeHops, InvOut, Todo, ReaderOk, Take, WorksOk;
    var x := sl.x;
    TakeFacts(x.s);
    TakenLedger(sl);
    WorksOkConcat([x.s.inputQueue[0]], x.s.inputQueue[1..]);
    NoWork();
    assert x.s.inputQueue == [x.s.inputQueue[0]] + x.s.inputQueue[1..];
  }

  lemma NoWork()
    ensures WorksOk([])
  {
  }

  lemma TakeIn(m: Model, maxChunk: nat, sl: Slice)
    requires Sound(m) && Inv(m, sl)
    ensures InvIn(m, StepSlice(m, maxChunk, sl, TakeStep))
  {
    if sl.queued > 0 && sl.flight.None? {
      hide *;
      if sl.x.s.cancelled || sl.x.s.ended || sl.x.s.inputQueue == [] {
        PassedIn(m, maxChunk, sl);
      } else {
        TakenIn(m, maxChunk, sl);
      }
    } else {
      hide Shapes, Intake, Ledger, Awake, InvOut, Take, TakeFrom;
    }
  }

  /** A session whose last work, the end without flush, has just been taken. */
  function Dropped(x: Stream): Stream
    requires x.s.inputQueue != []
  {
    x.(s := x.s.(scheduled := false, inputQueue := x.s.inputQueue[1..], pendingSource := None),
       h := x.h.(committed := x.h.committed + [x.s.inputQueue[0]]))
  }

  lemma DroppedOut(m: Model, sl: Slice)
    requires Sound(m) && Inv(m, sl) && sl.flight.None? && TakesNoFlush(sl.x.s)
    ensures var x := Dropped(sl.x); InvOut(m, sl.(x := x.(s := Complete(x.s, false))))
  {
    hide Transcript, AudioSent, AudioQueued, Feed, Todo, Drive, Layout, Queued, AllAudio, NoAudio, WorksOk, Encoded;
    var x := sl.x;
    var work := x.s.inputQueue[0];
    var rest := x.s.inputQueue[1..] + Todo(x.reader, x.h.input);
    assert x.h.committed + [work] + rest == FeedOf(x);
    FeedAt(x.s.inputStart, x.h.input, x.mode, x.h.committed, work, rest);
    DriveDrop(m, x.h.committed);
    CompleteOut(m, sl.(x := Dropped(x)), false);
  }

  lemma TakeCases(x: Stream)
    ensures var x' := TakeFrom(x);
            if TakesNoFlush(x.s) then x' == Dropped(x).(s := Complete(Dropped(x).s, false)) && Take(x.s).1.None?
            else x' == x.(s := x.s.(scheduled := false, inputQueue := x'.s.inputQueue))
  {
  }

  lemma TakenOut(m: Model, sl: Slice, inputQueue: seq<ModelWork>, queued: nat, work: Option<ModelWork>)
    requires InvOut(m, sl) && sl.flight.None?
    ensures InvOut(m, sl.(x := sl.x.(s := sl.x.s.(scheduled := false, inputQueue := inputQueue)), queued := queued,
                          flight := if work.Some? then Some(Flight(work.value, Taken)) else None))
  {
    hide Drive, Transcript, AudioSent, AudioQueued, Feed, AllAudio, NoAudio, Completion;
  }

  lemma TakeOut(m: Model, maxChunk: nat, sl: Slice)
    requires Sound(m) && Inv(m, sl)
    ensures InvOut(m, StepSlice(m, maxChunk, sl, TakeStep))
  {
    if sl.queued > 0 && sl.flight.None? {
      TakeCases(sl.x);
      hide InvIn, InvOut, Take, TakeFrom, Complete, Dropped;
      var sl' := StepSlice(m, maxChunk, sl, TakeStep);
      if TakesNoFlush(sl.x.s) {
        DroppedOut(m, sl);
        RescheduledOut(m, sl.(x := sl'.x), sl'.x.s.scheduled, sl'.queued);
      } else {
        TakenOut(m, sl, sl'.x.s.inputQueue, sl'.queued, Take(sl.x.s).1);
      }
    }
  }

  lemma LaunchIn(m: Model, maxChunk: nat, sl: Slice)
    requires Sound(m) && Inv(m, sl)
    ensures InvIn(m, StepSlice(m, maxChunk, sl, Launch))
  {
    hide Feed, Layout, Rest, WholeHops, FullHops, InvOut, WorksOk;
  }

  lemma LaunchOut(m: Model, maxChunk: nat, sl: Slice)
    requires Sound(m) && Inv(m, sl)
    ensures InvOut(m, StepSlice(m, maxChunk, sl, Launch))
  {
    hide Drive, Transcript, AudioSent, AudioQueued, Completion, Feed, WorksOk, Layout, FullHops, Rest, WholeHops;
  }

  lemma ComputeIn(m: Model, maxChunk: nat, sl: Slice)
    requires Sound(m) && Inv(m, sl)
    ensures InvIn(m, StepSlice(m, maxChunk, sl, Compute))
  {
    hide Feed, Layout, Rest, WholeHops, FullHops, InvOut;
    if sl.flight.Some? {
      assert InFlight(sl)[0] == sl.flight.value.work;
    }
  }

  lemma ComputeOut(m: Model, maxChunk: nat, sl: Slice)
    requires Sound(m) && Inv(m, sl)
    ensures InvOut(m, StepSlice(m, maxChunk, sl, Compute))
  {
    hide Drive, Transcript, AudioSent, AudioQueued, Completion, Feed, WorksOk, Layout, FullHops, Rest, WholeHops;
  }

  lemma CommitIn(m: Model, maxChunk: nat, sl: Slice)
    requires Sound(m) && Inv(m, sl)
    ensures InvIn(m, StepSlice(m, maxChunk, sl, CommitStep))
  {
    hide Feed, Layout, Rest, WholeHops, FullHops, Tracks, Sent, Todo, ReaderOk, Completion, AllAudio, NoAudio,
      CommitAndNotify, CommitWakes, Overflows;
    var x := sl.x;
    if sl.flight.Some? && sl.flight.value.stage.Computed? {
      var Flight(work, Computed(pcm, updated)) := sl.flight.value;
      CommitFacts(x.s, work, pcm, updated, sl.closing);
      if !x.s.cancelled {
        assert x.h.committed + [work] <= FeedOf(x);
      }
    }
  }

  lemma AbortIn(m: Model, maxChunk: nat, sl: Slice)
    requires Sound(m) && Inv(m, sl)
    ensures InvIn(m, StepSlice(m, maxChunk, sl, Abort))
  {
    hide Feed, Layout, Rest, WholeHops, FullHops, InvOut;
  }

  lemma AbortOut(m: Model, maxChunk: nat, sl: Slice)
    requires Sound(m) && Inv(m, sl)
    ensures InvOut(m, StepSlice(m, maxChunk, sl, Abort))
  {
    hide Drive, Transcript, AudioSent, AudioQueued, Completion, Feed, WorksOk, Layout, FullHops, Rest, WholeHops;
  }

  lemma ShutdownIn(m: Model, maxChunk: nat, sl: Slice)
    requires Sound(m) && Inv(m, sl)
    ensures InvIn(m, StepSlice(m, maxChunk, sl, Shutdown))
  {
    hide Feed, Layout, Rest, WholeHops, FullHops, InvOut, WorksOk;
  }

  lemma ShutdownOut(m: Model, maxChunk: nat, sl: Slice)
    requires Sound(m) && Inv(m, sl)
    ensures InvOut(m, StepSlice(m, maxChunk, sl, Shutdown))
  {
    hide Drive, Transcript, AudioSent, AudioQueued, Completion, Feed, WorksOk, Layout, FullHops, Rest, WholeHops;
  }

  // ---- All of them ----

  lemma EventInv(m: Model, maxChunk: nat, sl: Slice, e: Event)
    requires Sound(m) && Inv(m, sl)
    ensures Inv(m, StepSlice(m, maxChunk, sl, Serve(e)))
  {
    hide InvIn, InvOut, OnAudio, OnEnd, OnDecide, OnConsume, OnTeardown, FailReader, OnPut;
    var x := sl.x;
    match e {
      case Audio(chunk) =>
        if x.reader == Reading {
          AudioInv(m, maxChunk, sl, chunk);
        }
      case End(flush) =>
        if x.reader == Reading {
          EndInv(m, sl, flush);
        }
      case Stop =>
        if x.reader == Reading {
          StopInv(m, sl);
        }
      case Violation(status) =>
        if x.reader == Reading {
          ViolationInv(m, sl, x.s, status);
        }
      case PutNext =>
        PutIn(m, maxChunk, sl);
        PutOut(m, maxChunk, sl);
      case Decide =>
        DecideIn(m, sl);
        DecideOut(m, sl);
        QuietDecide(x);
      case CancelReader =>
        CancelReaderIn(m, maxChunk, sl);
        CancelReaderOut(m, maxChunk, sl);
      case Consume =>
        ConsumeIn(m, sl);
        ConsumeOut(m, sl);
        QuietConsume(x);
      case Teardown =>
        TeardownIn(m, sl);
        TeardownOut(m, sl);
        QuietConsume(x);
    }
  }

  lemma QuietDecide(x: Stream)
    ensures !OnDecide(x).wakes
  {
  }

  lemma QuietConsume(x: Stream)
    ensures !OnConsume(x).wakes && !OnTeardown(x).wakes
  {
  }

  lemma ViolationInv(m: Model, sl: Slice, s: Session, status: Status)
    requires Sound(m) && Inv(m, sl) && sl.x.reader == Reading
    requires s == sl.x.s.(expectedSequence := s.expectedSequence, expectedInput := s.expectedInput,
                          inputSamples := s.inputSamples)
    ensures var r := FailReader(sl.x.(s := s), status); !r.wakes && Inv(m, sl.(x := r.x))
  {
    FailReaderIn(m, sl, s, status);
    FailReaderOut(m, sl, s, status);
    hide InvIn, InvOut;
  }

  lemma AudioInv(m: Model, maxChunk: nat, sl: Slice, chunk: AudioChunk)
    requires Sound(m) && Inv(m, sl) && sl.x.reader == Reading
    ensures var r := OnAudio(maxChunk, sl.x, chunk); !r.wakes && Inv(m, sl.(x := r.x))
  {
    var x := sl.x;
    var (s, accepted) := Accept(maxChunk, x.s, chunk);
    if x.mode != Sending {
      ViolationInv(m, sl, x.s, FAILED_PRECONDITION);
    } else if accepted.Err? {
      ViolationInv(m, sl, s, accepted.error);
    } else {
      AudioIn(m, maxChunk, sl, chunk);
      AudioOut(m, maxChunk, sl, chunk);
    }
    hide InvIn, InvOut, Samples, FullHops, Rest, WholeHops;
  }

  lemma EndInv(m: Model, sl: Slice, flush: bool)
    requires Sound(m) && Inv(m, sl) && sl.x.reader == Reading
    ensures var r := OnEnd(sl.x, flush); !r.wakes && Inv(m, sl.(x := r.x))
  {
    if sl.x.mode != Sending {
      ViolationInv(m, sl, sl.x.s, FAILED_PRECONDITION);
    } else {
      EndIn(m, sl, flush);
      EndOut(m, sl, flush);
    }
    hide InvIn, InvOut;
  }

  lemma StopInv(m: Model, sl: Slice)
    requires Sound(m) && Inv(m, sl) && sl.x.reader == Reading
    ensures if sl.x.mode == Sending then
              var r := FailReader(sl.x, FAILED_PRECONDITION); !r.wakes && Inv(m, sl.(x := r.x))
            else Inv(m, sl.(x := sl.x.(reader := Returned)))
  {
    if sl.x.mode == Sending {
      ViolationInv(m, sl, sl.x.s, FAILED_PRECONDITION);
      hide InvIn, InvOut;
    } else {
      ReturnIn(m, sl);
      ReturnOut(m, sl);
      hide InvIn, InvOut;
    }
  }

  lemma ReturnIn(m: Model, sl: Slice)
    requires Inv(m, sl) && sl.x.reader == Reading && sl.x.mode != Sending
    ensures InvIn(m, sl.(x := sl.x.(reader := Returned)))
  {
    hide Feed, Layout, Rest, WholeHops, FullHops, InvOut;
  }

  lemma ReturnOut(m: Model, sl: Slice)
    requires Inv(m, sl) && sl.x.reader == Reading && sl.x.mode != Sending
    ensures InvOut(m, sl.(x := sl.x.(reader := Returned)))
  {
    hide Drive, Transcript, AudioSent, AudioQueued, Completion, Feed, AllAudio, NoAudio, InvIn;
  }

  /** The invariants hold after any stretch of any part. */
  lemma StepInv(m: Model, maxChunk: nat, sl: Slice, step: Step)
    requires Sound(m) && Inv(m, sl)
    ensures Inv(m, StepSlice(m, maxChunk, sl, step))
  {
    hide *;
    match step {
      case Serve(e) => EventInv(m, maxChunk, sl, e);
      case TakeStep =>
        TakeIn(m, maxChunk, sl);
        TakeOut(m, maxChunk, sl);
        Both(m, StepSlice(m, maxChunk, sl, TakeStep));
      case Launch =>
        LaunchIn(m, maxChunk, sl);
        LaunchOut(m, maxChunk, sl);
        Both(m, StepSlice(m, maxChunk, sl, Launch));
      case Compute =>
        ComputeIn(m, maxChunk, sl);
        ComputeOut(m, maxChunk, sl);
        Both(m, StepSlice(m, maxChunk, sl, Compute));
      case CommitStep =>
        CommitIn(m, maxChunk, sl);
        CommitOut(m, maxChunk, sl);
        Both(m, StepSlice(m, maxChunk, sl, CommitStep));
      case Abort =>
        AbortIn(m, maxChunk, sl);
        AbortOut(m, maxChunk, sl);
        Both(m, StepSlice(m, maxChunk, sl, Abort));
      case Shutdown =>
        ShutdownIn(m, maxChunk, sl);
        ShutdownOut(m, maxChunk, sl);
        Both(m, StepSlice(m, maxChunk, sl, Shutdown));
    }
  }

  lemma Both(m: Model, sl: Slice)
    requires InvIn(m, sl) && InvOut(m, sl)
    ensures Inv(m, sl)
  {
  }

  // ---- Ending without flush ----

  lemma ReactKeeps(maxChunk: nat, closing: bool, x: Stream, e: Event)
    ensures var x' := React(maxChunk, closing, x, e).x;
            && x'.h.committed == x.h.committed && x'.s.inputStart == x.s.inputStart
            && (x.s.cancelled ==> x'.s.cancelled) && (x.s.ended ==> x'.s.ended)
  {
    hide Samples, Append, FlushPartial;
  }

  lemma FeedLast(start: int, input: seq<real>, mode: Mode)
    ensures mode == Dropping ==> var feed := Feed(start, input, mode);
                                 feed != [] && feed[|feed| - 1] == NO_FLUSH_WORK
    ensures mode == Flushing && input != [] ==> var feed := Feed(start, input, mode);
                                                feed != [] && feed[|feed| - 1] == FLUSH_WORK
  {
    hide Hops, SourceWorks;
  }

  /** A reader that still has something to enqueue. */
  lemma TodoUnfinished(sl: Slice)
    requires Ledger(sl) && Todo(sl.x.reader, sl.x.h.input) != []
    ensures Unfinished(sl)
  {
    hide FeedOf, Todo;
  }

  lemma UnfinishedStep(m: Model, maxChunk: nat, sl: Slice, step: Step)
    requires Sound(m) && Inv(m, sl) && Unfinished(sl)
    ensures Unfinished(StepSlice(m, maxChunk, sl, step))
  {
    var x := sl.x;
    match step {
      case Serve(e) => UnfinishedEvent(m, maxChunk, sl, e);
      case TakeStep =>
        TakeKeeps(x.s);
        hide Feed, Take, Inv;
      case CommitStep =>
        if sl.flight.Some? && sl.flight.value.stage.Computed? {
          CommitUnfinished(m, sl);
          hide CommitTo, CommitWakes, Unfinished, Inv;
        }
      case _ => hide Feed, Inv;
    }
  }

  lemma CommitUnfinished(m: Model, sl: Slice)
    requires Inv(m, sl) && Unfinished(sl) && sl.flight.Some? && sl.flight.value.stage.Computed?
    ensures var Flight(work, Computed(pcm, updated)) := sl.flight.value;
            forall queued: nat ::
              Unfinished(sl.(x := CommitTo(sl.x, work, pcm, updated, sl.closing), queued := queued, flight := None))
  {
    hide Feed, Tracks, Outbox, Sent, Awake, Intake, CommitAndNotify, Layout, WorksOk, Todo;
    var x := sl.x;
    var Flight(work, Computed(pcm, updated)) := sl.flight.value;
    FeedLast(x.s.inputStart, x.h.input, x.mode);
    CommitKeeps(x.s, work, pcm, updated, sl.closing);
    assert (x.h.committed + [work])[|x.h.committed|] == work;
  }

  lemma UnfinishedEvent(m: Model, maxChunk: nat, sl: Slice, e: Event)
    requires Sound(m) && Inv(m, sl) && Unfinished(sl)
    ensures Unfinished(StepSlice(m, maxChunk, sl, Serve(e)))
  {
    var y := StepSlice(m, maxChunk, sl, Serve(e));
    StepInv(m, maxChunk, sl, Serve(e));
    if Todo(y.x.reader, y.x.h.input) != [] {
      InvLedger(m, y);
      TodoUnfinished(y);
      hide Unfinished, StepSlice;
    } else {
      hide Inv;
      ReactKeeps(maxChunk, sl.closing, sl.x, e);
      InvLedger(m, sl);
      IntakeReader(sl);
      EventUnfinished(maxChunk, sl.closing, sl.x, e);
      hide React, Feed, Todo, Ledger, ReaderOk;
    }
  }

  lemma InvLedger(m: Model, sl: Slice)
    requires Inv(m, sl)
    ensures Ledger(sl) && Intake(sl)
  {
    hide Shapes, Awake, InvOut, Ledger, Intake;
  }

  lemma IntakeReader(sl: Slice)
    requires Intake(sl)
    ensures ReaderOk(sl.x.reader, sl.x.mode, sl.x.h.input) && (sl.x.consumer == Closed ==> sl.x.s.cancelled)
  {
    hide ReaderOk;
  }

  /** A reader that has nothing left to enqueue after a stretch has ended the stream or is where it was. */
  lemma EventUnfinished(maxChunk: nat, closing: bool, x: Stream, e: Event)
    requires ReaderOk(x.reader, x.mode, x.h.input) && (x.consumer == Closed ==> x.s.cancelled)
    ensures var y := React(maxChunk, closing, x, e).x;
            Todo(y.reader, y.h.input) == [] && !y.s.cancelled && !y.s.ended && y.mode != Sending
            && !y.reader.Putting? ==>
              y.mode == x.mode && y.h.input == x.h.input && !x.reader.Putting?
  {
    hide Samples, Append, FlushPartial, SourceWorks;
  }

  lemma TakeKeeps(s: Session)
    ensures var s' := Take(s).0;
            s'.inputStart == s.inputStart && (s.cancelled ==> s'.cancelled) && (s.ended || TakesNoFlush(s) ==> s'.ended)
  {
  }

  lemma CommitKeeps(s: Session, work: ModelWork, pcm: seq<Byte>, updated: StreamCaches, closing: bool)
    ensures var s' := CommitAndNotify(s, work, pcm, updated, closing);
            s'.inputStart == s.inputStart && (s.cancelled ==> s'.cancelled) && (s.ended ==> s'.ended)
            && (work.terminalFlush ==> s'.cancelled || s'.ended)
  {
  }
}

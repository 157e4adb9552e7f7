/** The promises of the server, for every run, every number of streams and every interleaving. */
module ServerTheorems {
  import opened Wrappers
  import opened Pcm
  import opened Rechunker
  import opened Caches
  import opened Pipeline
  import opened Sessions
  import opened Service
  import opened StreamMachine
  import opened Reference
  import opened StreamInvariants
  import opened StreamSteps
  import opened ServerMachine
  import opened ServerProjection
  import opened ServerInvariants

  /** What StreamingPipeline yields on the hops of an input, encoded. */
  function Expected(c: Config, x: Stream): seq<OutputEvent> {
    Encoded(PipelineOutputs(SoloModel(c.net), Hops(x.s.inputStart, x.h.input, x.mode), x.mode == Flushing))
  }

  predicate Completed(x: Stream) {
    x.h.delivered != [] && x.h.delivered[|x.h.delivered| - 1].StreamEnded?
  }

  lemma StreamOk(c: Config, labels: seq<Label>, i: nat)
    requires RowLocal(c.net) && i < |Run(c, labels).streams|
    ensures Inv(SoloModel(c.net), SliceOf(Run(c, labels), i)) && Sound(SoloModel(c.net))
    ensures Unfinished(SliceOf(Run(c, labels), i))
  {
    RunsAreOk(c, labels);
    SoloModelSound(c.net);
  }

  lemma EncodedPrefix(a: seq<EnhancedHop>, b: seq<EnhancedHop>)
    requires a <= b
    ensures Encoded(a) <= Encoded(b)
  {
  }

  lemma EmittedIsPrefix(c: Config, sl: Slice)
    requires Inv(SoloModel(c.net), sl)
    ensures sl.x.h.emitted <= Expected(c, sl.x)
    ensures sl.x.h.committed == FeedOf(sl.x) ==> sl.x.h.emitted == Expected(c, sl.x)
  {
    var m, x := SoloModel(c.net), sl.x;
    DriveIsPipeline(m, x.s.inputStart, x.h.input, x.mode);
    hide Drive, Feed, PipelineOutputs, Encoded, Hops, Outbox, Sent, Shapes, Intake, Awake;
    var rest := FeedOf(x)[|x.h.committed|..];
    assert x.h.committed + rest == FeedOf(x);
    DriveGrows(m, x.h.committed, rest);
    EncodedPrefix(Drive(m, x.h.committed).1, Drive(m, FeedOf(x)).1);
  }

  /** Batching refines the sequential pipeline: what any client is sent is a prefix of what StreamingPipeline
      yields on that stream's own hops, whatever other streams do, and all of it once the stream has completed. */
  lemma BatchingRefinesPipeline(c: Config, labels: seq<Label>, i: nat)
    requires RowLocal(c.net) && i < |Run(c, labels).streams|
    ensures var x := Run(c, labels).streams[i];
            && AudioSent(x.h.delivered) <= x.h.emitted <= Expected(c, x)
            && (Completed(x) ==> AudioSent(x.h.delivered) == Expected(c, x))
  {
    hide *;
    var sl := SliceOf(Run(c, labels), i);
    StreamOk(c, labels, i);
    SliceIs(Run(c, labels), i);
    EmittedIsPrefix(c, sl);
    SentOfInv(SoloModel(c.net), sl);
  }

  lemma SliceIs(st: Server, i: nat)
    requires i < |st.streams|
    ensures SliceOf(st, i).x == st.streams[i] && SliceOf(st, i).closing == st.closing
  {
    hide Count, Find;
  }

  lemma SentOfInv(m: Model, sl: Slice)
    requires Inv(m, sl)
    ensures AudioSent(sl.x.h.delivered) <= sl.x.h.emitted
    ensures Completed(sl.x) ==> sl.x.h.committed == FeedOf(sl.x) && AudioSent(sl.x.h.delivered) == sl.x.h.emitted
  {
    hide InvIn, Tracks, Outbox, Transcript, AudioSent, AudioQueued, FeedOf, Queued;
  }

  // ---- Counting ----

  lemma {:induction false} QueuedOfAnswers(outs: seq<EnhancedHop>, hops: seq<SourceHop>)
    requires |outs| <= |hops| && forall k | 0 <= k < |outs| :: outs[k].valid == hops[k].valid
    ensures Queued(Encoded(outs)) == ValidTotal(hops[..|outs|])
  {
    if outs != [] {
      QueuedOfAnswers(outs[1..], hops[1..]);
      assert Encoded(outs)[1..] == Encoded(outs[1..]);
      assert hops[..|outs|][1..] == hops[1..][..|outs[1..]|];
    }
  }

  lemma ValidTotalLast(hops: seq<SourceHop>)
    requires hops != []
    ensures ValidTotal(hops) == ValidTotal(hops[..|hops| - 1]) + hops[|hops| - 1].valid
  {
    var last := [hops[|hops| - 1]];
    assert hops == hops[..|hops| - 1] + last;
    ValidTotalAppend(hops[..|hops| - 1], last);
    assert last[1..] == [];
  }

  function Delayed(hop: Option<SourceHop>): nat {
    if hop.Some? then hop.value.valid else 0
  }

  /** What has been emitted and what is delayed add up to what was pushed; after a flush all of it is emitted. */
  lemma PushedTotals(m: Model, hops: seq<SourceHop>)
    requires Sound(m) && WellFormedHops(hops)
    ensures var (p, outs) := PushAll(m, hops); Queued(Encoded(outs)) + Delayed(p.pending) == ValidTotal(hops)
    ensures Queued(Encoded(PipelineOutputs(m, hops, true))) == ValidTotal(hops)
  {
    OutputsAnswerHops(m, hops);
    QueuedOfAnswers(PushAll(m, hops).1, hops);
    QueuedOfAnswers(PipelineOutputs(m, hops, true), hops);
    hide PushAll, PipelineOutputs;
    assert hops[..|hops|] == hops;
    if hops != [] {
      ValidTotalLast(hops);
    }
  }

  function WorkTotal(works: seq<ModelWork>): nat {
    if works == [] then 0 else Delayed(works[0].source) + WorkTotal(works[1..])
  }

  lemma {:induction false} WorkTotalConcat(a: seq<ModelWork>, b: seq<ModelWork>)
    ensures WorkTotal(a + b) == WorkTotal(a) + WorkTotal(b)
  {
    if a == [] {
      assert a + b == b;
    } else {
      WorkTotalConcat(a[1..], b);
      assert (a + b)[1..] == a[1..] + b;
    }
  }

  lemma {:induction false} WorkTotalSources(hops: seq<SourceHop>)
    ensures WorkTotal(SourceWorks(hops)) == ValidTotal(hops)
  {
    if hops != [] {
      WorkTotalSources(hops[1..]);
      assert SourceWorks(hops)[1..] == SourceWorks(hops[1..]);
    }
  }

  lemma TerminalTotal()
    ensures WorkTotal([FLUSH_WORK]) == 0 && WorkTotal([NO_FLUSH_WORK]) == 0 && WorkTotal([]) == 0
  {
    assert [FLUSH_WORK][1..] == [] && [NO_FLUSH_WORK][1..] == [];
  }

  lemma FeedTotal(start: int, input: seq<real>, mode: Mode)
    ensures WorkTotal(Feed(start, input, mode)) == if mode == Flushing then |input| else WholeHops(|input|)
  {
    hide *;
    var hops := Hops(start, input, mode);
    FeedIs(start, input, mode);
    TerminalShape(input, mode);
    TerminalTotal();
    WorkTotalConcat(SourceWorks(hops), Terminal(input, mode));
    WorkTotalSources(hops);
    HopsTotal(start, input, mode);
  }

  lemma SourcesTotal(m: Model, hops: seq<SourceHop>)
    requires Sound(m) && WellFormedHops(hops)
    ensures Queued(Encoded(Drive(m, SourceWorks(hops)).1)) + Delayed(Drive(m, SourceWorks(hops)).0.pending)
            == WorkTotal(SourceWorks(hops))
  {
    DriveSources(m, SourceWorks(hops));
    assert Sources(SourceWorks(hops)) == hops;
    hide PushAll, Drive, SourceWorks, Encoded;
    PushedTotals(m, hops);
    WorkTotalSources(hops);
  }

  lemma FlushedTotal(m: Model, hops: seq<SourceHop>)
    requires Sound(m) && WellFormedHops(hops)
    ensures var works := SourceWorks(hops) + [FLUSH_WORK];
            Queued(Encoded(Drive(m, works).1)) + Delayed(Drive(m, works).0.pending) == WorkTotal(works)
  {
    DriveSources(m, SourceWorks(hops));
    assert Sources(SourceWorks(hops)) == hops;
    PushesAnswerHops(m, hops);
    DriveNext(m, SourceWorks(hops), FLUSH_WORK);
    WorkTotalConcat(SourceWorks(hops), [FLUSH_WORK]);
    TerminalTotal();
    hide PushAll, Drive, SourceWorks, Encoded, Layout, WorkTotal;
    PushedTotals(m, hops);
    WorkTotalSources(hops);
  }

  /** Committed work is either emitted or delayed, as long as it has not been ended without flush. */
  lemma CommittedTotal(m: Model, start: int, input: seq<real>, mode: Mode, committed: seq<ModelWork>)
    requires Sound(m) && committed <= Feed(start, input, mode)
    requires committed == Feed(start, input, mode) ==> mode != Dropping
    ensures Queued(Encoded(Drive(m, committed).1)) + Delayed(Drive(m, committed).0.pending) == WorkTotal(committed)
  {
    hide Drive, Encoded, Queued, WorkTotal, Hops;
    var hops := Hops(start, input, mode);
    FeedShape(start, input, mode);
    HopsWellFormed(start, input, mode);
    if |committed| <= |hops| {
      assert committed == SourceWorks(hops)[..|committed|] == SourceWorks(hops[..|committed|]);
      SourcesTotal(m, hops[..|committed|]);
    } else {
      assert committed == Feed(start, input, mode) == SourceWorks(hops) + [FLUSH_WORK];
      FlushedTotal(m, hops);
    }
  }

  function ReaderHops(reader: Reader): seq<SourceHop> {
    if reader.Putting? then reader.hops else []
  }

  lemma TodoTotal(reader: Reader, input: seq<real>)
    ensures WorkTotal(Todo(reader, input)) == ValidTotal(ReaderHops(reader))
  {
    TerminalTotal();
    hide WorkTotal, SourceWorks;
    if reader.Putting? {
      WorkTotalSources(reader.hops);
      WorkTotalConcat(SourceWorks(reader.hops), if reader.finishing && input != [] then [FLUSH_WORK] else []);
    }
  }

  /** Every accepted sample is in exactly one place, until a stream ends without flush. */
  ghost predicate Conserved(sl: Slice) {
    var x := sl.x;
    x.s.inputSamples
    == |x.s.rechunk.pending| + ValidTotal(ReaderHops(x.reader)) + WorkTotal(x.s.inputQueue) + WorkTotal(InFlight(sl))
       + Delayed(x.s.pendingSource) + x.s.outputSamples
  }

  lemma SliceConserved(m: Model, sl: Slice)
    requires Sound(m) && Inv(m, sl) && Unfinished(sl) && !sl.x.s.cancelled && !(sl.x.s.ended && sl.x.mode == Dropping)
    ensures Conserved(sl)
  {
    hide Feed, Drive, Queued, WorkTotal, ValidTotal, Sent, Awake, Encoded, Layout, WholeHops, Todo;
    var x := sl.x;
    var (a, b, d, e) := (x.h.committed, InFlight(sl), x.s.inputQueue, Todo(x.reader, x.h.input));
    FeedTotal(x.s.inputStart, x.h.input, x.mode);
    WorkTotalConcat(a + b + d, e);
    WorkTotalConcat(a + b, d);
    WorkTotalConcat(a, b);
    TodoTotal(x.reader, x.h.input);
    CommittedTotal(m, x.s.inputStart, x.h.input, x.mode, a);
    RestLength(x.h.input);
  }

  lemma RestLength(input: seq<real>)
    ensures |Rest(input)| + WholeHops(|input|) == |input|
  {
  }

  lemma WholeHopsAre(start: int, input: seq<real>, mode: Mode)
    ensures var hops := Hops(start, input, mode);
            mode != Flushing ==> |hops| == |input| / HOP && WholeHops(|input|) == HOP * (|input| / HOP)
                                 && forall k | 0 <= k < |hops| :: hops[k].valid == HOP
  {
    if mode != Flushing {
      var hops := Hops(start, input, mode);
      assert hops == FullHops(start, input);
      FullHopsCount(start, input);
      forall k | 0 <= k < |hops| ensures hops[k].valid == HOP {
        FullHopsAt(start, input, k);
      }
    }
  }

  /** After an end without flush: all but the last whole hop is emitted, and that hop and the rest never are. */
  ghost predicate ConservedAfterDrop(sl: Slice) {
    var s := sl.x.s;
    s.inputSamples == |s.rechunk.pending| + (if s.inputSamples >= HOP then HOP else 0) + s.outputSamples
  }

  lemma DroppedTotal(m: Model, start: int, input: seq<real>)
    requires Sound(m)
    ensures WholeHops(|input|)
            == Queued(Encoded(PipelineOutputs(m, Hops(start, input, Dropping), false)))
              + (if |input| >= HOP then HOP else 0)
  {
    var hops := Hops(start, input, Dropping);
    HopsWellFormed(start, input, Dropping);
    HopsTotal(start, input, Dropping);
    OutputsAnswerHops(m, hops);
    PushedTotals(m, hops);
    WholeHopsAre(start, input, Dropping);
    assert PipelineOutputs(m, hops, false) == PushAll(m, hops).1;
    hide PushAll, Encoded, Queued, Hops, Layout, WholeHops, ValidTotal;
  }

  lemma DroppedParts(m: Model, sl: Slice)
    requires Inv(m, sl) && !sl.x.s.cancelled && sl.x.s.ended && sl.x.mode == Dropping
    ensures var x := sl.x;
            && x.h.committed == FeedOf(x) && x.s.inputSamples == |x.h.input| && x.s.rechunk.pending == Rest(x.h.input)
            && x.s.outputSamples == Queued(x.h.emitted)
  {
    hide Shapes, Ledger, Awake, Sent, FeedOf, Queued, Drive, Encoded, Rest, AllAudio, NoAudio;
  }

  lemma SliceConservedAfterDrop(c: Config, sl: Slice)
    requires Inv(SoloModel(c.net), sl) && Sound(SoloModel(c.net))
    requires !sl.x.s.cancelled && sl.x.s.ended && sl.x.mode == Dropping
    ensures ConservedAfterDrop(sl)
  {
    var x := sl.x;
    DroppedParts(SoloModel(c.net), sl);
    EmittedIsPrefix(c, sl);
    DroppedTotal(SoloModel(c.net), x.s.inputStart, x.h.input);
    RestLength(x.h.input);
    hide Inv, Queued, FeedOf, Encoded, PipelineOutputs, Hops, Rest, WholeHops, SoloModel;
  }

  /** Sample conservation in every reachable state of a stream that has not been cancelled: every accepted sample is
      in one place, until an end without flush drops the last whole hop. */
  lemma SampleConservation(c: Config, labels: seq<Label>, i: nat)
    requires RowLocal(c.net) && i < |Run(c, labels).streams|
    ensures var sl := SliceOf(Run(c, labels), i);
            !sl.x.s.cancelled ==>
              if sl.x.s.ended && sl.x.mode == Dropping then ConservedAfterDrop(sl) else Conserved(sl)
  {
    StreamOk(c, labels, i);
    var sl := SliceOf(Run(c, labels), i);
    hide Inv, Unfinished, Conserved, ConservedAfterDrop, Run, Count, Find;
    if !sl.x.s.cancelled {
      if sl.x.s.ended && sl.x.mode == Dropping {
        SliceConservedAfterDrop(c, sl);
      } else {
        SliceConserved(SoloModel(c.net), sl);
      }
    }
  }
}

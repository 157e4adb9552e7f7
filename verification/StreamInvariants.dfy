/** What holds of one stream in every state it can reach. */
module StreamInvariants {
  import opened Wrappers
  import opened Pcm
  import opened Rechunker
  import opened Caches
  import opened Pipeline
  import opened Sessions
  import opened Service
  import opened StreamMachine
  import opened Reference

  /** The work the reader still has to enqueue for input it has already accepted. */
  function Todo(reader: Reader, input: seq<real>): seq<ModelWork> {
    match reader
    case Putting(hops, finishing) => SourceWorks(hops) + (if finishing && input != [] then [FLUSH_WORK] else [])
    case PuttingFlush => [FLUSH_WORK]
    case PuttingNoFlush => [NO_FLUSH_WORK]
    case _ => []
  }

  function InFlight(sl: Slice): seq<ModelWork> {
    if sl.flight.Some? then [sl.flight.value.work] else []
  }

  function FeedOf(x: Stream): seq<ModelWork> {
    Feed(x.s.inputStart, x.h.input, x.mode)
  }

  predicate WorksOk(works: seq<ModelWork>) {
    forall k | 0 <= k < |works| :: |works[k].samples| == HOP
  }

  /** Sizes and layouts; a stream is queued with the scheduler exactly once when it is marked scheduled. */
  ghost predicate Shapes(m: Model, sl: Slice) {
    var s := sl.x.s;
    && 0 < s.inputCap && |s.inputQueue| <= s.inputCap && 0 < s.outputCap && |s.outputQueue| <= s.outputCap
    && Layout(s.caches, 1)
    && WorksOk(s.inputQueue) && WorksOk(Todo(sl.x.reader, sl.x.h.input)) && WorksOk(InFlight(sl))
    && sl.queued == (if s.scheduled then 1 else 0)
    && (sl.flight.Some? ==>
          && !sl.flight.value.work.terminalNoFlush
          && sl.x.h.input != []
          && (sl.flight.value.stage.Launched? ==> Layout(sl.flight.value.stage.caches, 1))
          && (sl.flight.value.stage.Computed? ==> Layout(sl.flight.value.stage.updated, 1)))
  }

  /** Where the reader can be, given how far the input has got. */
  predicate ReaderOk(reader: Reader, mode: Mode, input: seq<real>) {
    && (reader.Putting? ==> if reader.finishing then mode == Flushing else mode == Sending && reader.hops != [])
    && (reader == PuttingFlush ==> mode == Flushing && input != [])
    && (reader == PuttingNoFlush ==> mode == Dropping)
  }

  /** The reader's counters and the rechunker agree with the input accepted. */
  ghost predicate Intake(sl: Slice) {
    var x := sl.x;
    && ReaderOk(x.reader, x.mode, x.h.input)
    && (x.reader != Failed ==>
          && x.s.inputSamples == |x.h.input|
          && x.s.expectedInput == x.s.inputStart + |x.h.input|
          && (x.mode != Flushing ==>
                x.s.rechunk.pending == Rest(x.h.input) && x.s.rechunk.next == x.s.inputStart + WholeHops(|x.h.input|))
          && (x.mode == Flushing ==> x.s.rechunk.pending == []))
    && (x.reader == Failed || (x.reader == Returned && x.mode == Sending) ==> x.s.cancelled)
    && (x.consumer == Closed ==> x.s.cancelled)
  }

  /** No work is lost, repeated or reordered between the input and the pipeline. */
  ghost predicate Ledger(sl: Slice) {
    var x := sl.x;
    && x.h.committed <= FeedOf(x)
    && (!x.s.cancelled ==> x.h.committed + InFlight(sl) + x.s.inputQueue + Todo(x.reader, x.h.input) == FeedOf(x))
  }

  /** Caches, delayed hop and emitted audio are those of the pipeline driven by the committed work. */
  ghost predicate Tracks(m: Model, sl: Slice) {
    var x := sl.x;
    var (p, outs) := Drive(m, x.h.committed);
    && x.h.emitted == Encoded(outs)
    && (!x.s.cancelled ==>
          && x.s.caches == p.caches
          && x.s.pendingSource == p.pending
          && x.s.outputSamples == ValidSum(x.h.emitted)
          && (sl.flight.Some? && sl.flight.value.stage.Launched? ==> sl.flight.value.stage.caches == x.s.caches)
          && (sl.flight.Some? && sl.flight.value.stage.Computed? ==>
                var (wav, updated) := m.step(sl.flight.value.work.samples, x.s.caches);
                sl.flight.value.stage.pcm == Encode(wav) && sl.flight.value.stage.updated == updated))
  }

  /** No wake-up is lost: a live stream with input is with the scheduler or in flight. */
  ghost predicate Awake(sl: Slice) {
    var s := sl.x.s;
    !s.cancelled ==>
      && (s.scheduled ==> s.inputQueue != [])
      && (!s.ended && !sl.closing && s.inputQueue != [] ==> s.scheduled || sl.flight.Some?)
  }

  predicate AllAudio(events: seq<OutputEvent>) {
    forall k | 0 <= k < |events| :: events[k].OutputAudio?
  }

  predicate NoAudio(events: seq<OutputEvent>) {
    forall k | 0 <= k < |events| :: !events[k].OutputAudio?
  }

  function Completion(h: History, mode: Mode): OutputEvent {
    StreamCompletion(|h.input|, ValidSum(h.emitted), mode == Flushing)
  }

  /** The output queue: audio, then at most one terminal event. */
  ghost predicate Outbox(sl: Slice) {
    var x, q := sl.x, sl.x.s.outputQueue;
    && (q != [] ==> AllAudio(q[..|q| - 1]))
    && (x.s.cancelled ==> NoAudio(q))
    && (x.s.cancelled && (x.consumer == Accepting || x.consumer == Streaming) ==> |q| == 1 && q[0].RPCFailure?)
    && (!x.s.cancelled && !x.s.ended ==> AllAudio(q) && (x.consumer == Accepting || x.consumer == Streaming))
    && (!x.s.cancelled && x.s.ended ==>
          && x.h.committed == FeedOf(x) && x.mode != Sending
          && (if x.consumer == Terminated then q == []
              else
                && (x.consumer == Accepting || x.consumer == Streaming)
                && q != [] && q[|q| - 1] == Completion(x.h, x.mode)))
    && (x.h.input == [] && x.reader != Failed && (x.mode == Sending || x.reader.Putting?) ==>
          !x.s.ended && (x.s.cancelled ==> x.consumer == Closed && q == []))
  }

  /** The audio in a transcript, without the numbering. */
  function AudioSent(d: seq<ServerMessage>): seq<OutputEvent> {
    if d == [] then []
    else
      var last := d[|d| - 1];
      AudioSent(d[..|d| - 1]) + (if last.EnhancedAudio? then [OutputAudio(last.start, last.pcm, last.valid)] else [])
  }

  function AudioQueued(events: seq<OutputEvent>): seq<OutputEvent> {
    if events == [] then []
    else (if events[0].OutputAudio? then [events[0]] else []) + AudioQueued(events[1..])
  }

  /** Acceptance first, then audio numbered 0, 1, 2, ..., then at most one terminal message. */
  predicate Transcript(d: seq<ServerMessage>) {
    && (d != [] ==> d[0] == Accepted)
    && forall k | 0 < k < |d| ::
         if d[k].EnhancedAudio? then d[k].sequence == k - 1 else k == |d| - 1 && (d[k].StreamEnded? || d[k].Aborted?)
  }

  ghost predicate Sent(sl: Slice) {
    var x, d := sl.x, sl.x.h.delivered;
    && Transcript(d)
    && x.s.outputSequence == |AudioSent(d)|
    && (x.consumer == Accepting ==> d == [])
    && (x.consumer == Streaming ==> |d| == x.s.outputSequence + 1 && !d[|d| - 1].StreamEnded? && !d[|d| - 1].Aborted?)
    && AudioSent(d) <= x.h.emitted
    && (!x.s.cancelled ==> AudioSent(d) + AudioQueued(x.s.outputQueue) == x.h.emitted)
    && (d != [] && d[|d| - 1].StreamEnded? ==>
          && x.s.ended && x.mode != Sending && x.consumer != Streaming
          && x.h.committed == FeedOf(x) && AudioSent(d) == x.h.emitted
          && d[|d| - 1] == StreamEnded(|x.h.input|, ValidSum(x.h.emitted), x.mode == Flushing))
  }

  ghost predicate InvIn(m: Model, sl: Slice) {
    Shapes(m, sl) && Intake(sl) && Ledger(sl) && Awake(sl)
  }

  ghost predicate InvOut(m: Model, sl: Slice) {
    Tracks(m, sl) && Outbox(sl) && Sent(sl)
  }

  ghost predicate Inv(m: Model, sl: Slice) {
    InvIn(m, sl) && InvOut(m, sl)
  }

  /** As long as a live stream whose input has ended has not ended itself, some of its work is still to come; after a
      flush this holds from the moment its hops are enqueued. */
  ghost predicate Unfinished(sl: Slice) {
    var x := sl.x;
    !x.s.cancelled && !x.s.ended && (x.mode == Dropping || (x.mode == Flushing && !x.reader.Putting?)) ==>
      x.h.committed != FeedOf(x)
  }

  lemma FreshIn(m: Model, inputStart: nat, inputCap: nat, outputCap: nat, closing: bool)
    requires Sound(m) && 0 < inputCap && 0 < outputCap
    ensures var sl := Fresh(m, inputStart, inputCap, outputCap, closing); InvIn(m, sl) && Unfinished(sl)
  {
    EmptyFeed(inputStart, Sending);
    FullHopsOfNone(inputStart);
    assert Terminal([], Sending) == [] && Rest([]) == [];
    hide Feed, Hops, Layout, Rest, WholeHops;
  }

  lemma FreshOut(m: Model, inputStart: nat, inputCap: nat, outputCap: nat, closing: bool)
    ensures InvOut(m, Fresh(m, inputStart, inputCap, outputCap, closing))
  {
    assert Drive(m, []) == (Start(m), []) && Encoded([]) == [];
    hide Feed, Drive, Encoded;
  }

  lemma FreshInv(m: Model, inputStart: nat, inputCap: nat, outputCap: nat, closing: bool)
    requires Sound(m) && 0 < inputCap && 0 < outputCap
    ensures Inv(m, Fresh(m, inputStart, inputCap, outputCap, closing))
            && Unfinished(Fresh(m, inputStart, inputCap, outputCap, closing))
  {
    FreshIn(m, inputStart, inputCap, outputCap, closing);
    FreshOut(m, inputStart, inputCap, outputCap, closing);
    hide InvIn, InvOut, Unfinished, Fresh, Sound;
  }
}

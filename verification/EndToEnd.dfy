/** What holds of plugin, transport and server together in every run. */
module EndToEnd {
  import opened Wrappers
  import opened Pcm
  import opened Rechunker
  import opened Caches
  import opened Pipeline
  import opened Sessions
  import opened Service
  import opened StreamMachine
  import opened Reference
  import opened StreamInvariants
  import opened StreamSteps
  import opened ServerMachine
  import opened ServerTheorems
  import opened ServerOutcomes
  import opened Timeline
  import opened TimelineMap
  import opened Processor
  import opened ProcessorRuns
  import opened ProcessorAlignment
  import opened Utf8
  import opened Handshake
  import opened Transport
  import opened Composition
  import opened ClosedLoop

  // ---- What travels is the input at its own place ----

  /** These bytes are the raw input from an offset on. */
  predicate IsInput(fed: seq<Byte>, start: nat, pcm: seq<Byte>) {
    |pcm| % 2 == 0 && 2 * start + |pcm| <= |fed| && pcm == fed[2 * start..2 * start + |pcm|]
  }

  predicate RequestOk(fed: seq<Byte>, r: Request) {
    r.AudioRequest? ==> IsInput(fed, r.start, r.pcm)
  }

  predicate MessageOk(fed: seq<Byte>, message: ClientMessage) {
    message.AudioMessage? ==> IsInput(fed, message.chunk.start, message.chunk.pcm)
  }

  predicate QueueOk(fed: seq<Byte>, queue: seq<Request>) {
    forall r | r in queue :: RequestOk(fed, r)
  }

  predicate UpOk(fed: seq<Byte>, up: seq<ClientMessage>) {
    forall message | message in up :: MessageOk(fed, message)
  }

  lemma IsInputGrows(fed: seq<Byte>, more: seq<Byte>, start: nat, pcm: seq<Byte>)
    requires fed <= more && IsInput(fed, start, pcm)
    ensures IsInput(more, start, pcm)
  {
    assert more[2 * start..2 * start + |pcm|] == fed[2 * start..2 * start + |pcm|];
  }

  /** What the server has accepted is the raw input from the first sample of the generation on. */
  predicate AcceptedOk(fed: seq<Byte>, first: nat, input: seq<real>) {
    2 * first + 2 * |input| <= |fed| && input == Samples(fed[2 * first..2 * first + 2 * |input|])
  }

  lemma AcceptedGrows(fed: seq<Byte>, more: seq<Byte>, first: nat, input: seq<real>)
    requires fed <= more && AcceptedOk(fed, first, input)
    ensures AcceptedOk(more, first, input)
  {
    assert more[2 * first..2 * first + 2 * |input|] == fed[2 * first..2 * first + 2 * |input|];
  }

  lemma AcceptedMeans(fed: seq<Byte>, first: nat, input: seq<real>)
    ensures AcceptedOk(fed, first, input) <==>
              2 * first + 2 * |input| <= |fed| && input == Samples(fed[2 * first..2 * first + 2 * |input|])
  {
    hide Samples;
  }

  lemma InputMeans(fed: seq<Byte>, start: nat, pcm: seq<Byte>)
    ensures IsInput(fed, start, pcm) <==>
              |pcm| % 2 == 0 && 2 * start + |pcm| <= |fed| && pcm == fed[2 * start..2 * start + |pcm|]
  {
  }

  lemma AcceptedNext(fed: seq<Byte>, first: nat, input: seq<real>, pcm: seq<Byte>)
    requires AcceptedOk(fed, first, input) && IsInput(fed, first + |input|, pcm)
    ensures AcceptedOk(fed, first, input + Samples(pcm))
  {
    hide *;
    AcceptedMeans(fed, first, input);
    InputMeans(fed, first + |input|, pcm);
    var mid := 2 * first + 2 * |input|;
    SamplesLength(pcm);
    SamplesConcat(fed[2 * first..mid], pcm);
    SliceJoin(fed, 2 * first, mid, mid + |pcm|);
    AcceptedMeans(fed, first, input + Samples(pcm));
  }

  lemma SamplesLength(pcm: seq<Byte>)
    requires |pcm| % 2 == 0
    ensures |Samples(pcm)| == |pcm| / 2
  {
  }

  lemma SliceJoin(fed: seq<Byte>, a: nat, b: nat, d: nat)
    requires a <= b <= d <= |fed|
    ensures fed[a..b] + fed[b..d] == fed[a..d]
  {
  }

  // ---- Invariant ----

  /** Nothing stored reaches beyond what this generation has handed over. */
  predicate SegsBelow(segs: seq<Segment>, at: int) {
    forall s | s in segs :: s.End() <= at
  }

  /** The server's stream has accepted input at its own place, and what the client has read of it passed. */
  ghost predicate ServerSide(c: Config, fed: seq<Byte>, conn: Connection) {
    var x := conn.sl.x;
    && Inv(SoloModel(c.net), conn.sl)
    && conn.first == x.s.inputStart && AcceptedOk(fed, conn.first, x.h.input)
    && conn.read <= |x.h.delivered|
    && PassesAs(conn.first, x.h.delivered[..conn.read], conn.progress, None)
  }

  /** A StartStream on its way passes the server's checks and names the offset of the call. */
  predicate StartsAt(first: nat, up: seq<ClientMessage>) {
    forall message | message in up :: message.StartMessage? ==> StartIs(first, message.start)
  }

  predicate StartIs(first: nat, start: StartStream) {
    StartOk(start) && start.inputStart == first
  }

  predicate ClientSide(fed: seq<Byte>, conn: Connection) {
    && (conn.hand.Some? ==> RequestOk(fed, conn.hand.value))
    && UpOk(fed, conn.up) && StartsAt(conn.first, conn.up)
  }

  /** As long as the server has opened nothing, there is nothing to read. */
  predicate Unopened(w: World, conn: Connection) {
    !conn.started ==>
      && conn.sl == OpenedStream(w, conn.first) && conn.read == 0
      && conn.progress == Progress(false, 0, conn.first, [])
  }

  ghost predicate ConnectionOk(w: World, z: Loop, conn: Connection) {
    && z.plugin.p.generation == z.generation
    && ServerSide(w.server, z.plugin.h.fed, conn)
    && ClientSide(z.plugin.h.fed, conn)
    && Unopened(w, conn)
    && SegsBelow(z.plugin.p.segs, conn.progress.expected)
  }

  ghost predicate WorkerOk(w: World, z: Loop) {
    match z.worker
    case Waiting => z.plugin.p.generation <= z.generation
    case Popped(first) => z.plugin.p.generation <= z.generation && first.AudioRequest?
      && RequestOk(z.plugin.h.fed, first)
    case Numbered(first) => z.plugin.p.generation < z.generation && first.AudioRequest?
      && RequestOk(z.plugin.h.fed, first)
    case Connected(conn) => ConnectionOk(w, z, conn)
  }

  ghost predicate LoopOk(w: World, z: Loop) {
    && Good(w.settings, z.plugin)
    && z.plugin.p.metrics.mismatches == 0
    && QueueOk(z.plugin.h.fed, z.queue)
    && (z.pending.Some? ==> RequestOk(z.plugin.h.fed, z.pending.value))
    && WorkerOk(w, z)
  }

  lemma LoopParts(w: World, z: Loop)
    ensures LoopOk(w, z) <==>
              && Good(w.settings, z.plugin) && z.plugin.p.metrics.mismatches == 0 && QueueOk(z.plugin.h.fed, z.queue)
              && (z.pending.Some? ==> RequestOk(z.plugin.h.fed, z.pending.value)) && WorkerOk(w, z)
  {
    hide Good, QueueOk, RequestOk, WorkerOk;
  }

  lemma ConnectedParts(w: World, z: Loop, conn: Connection)
    requires z.worker == Connected(conn)
    ensures WorkerOk(w, z) <==>
              && z.plugin.p.generation == z.generation && SegsBelow(z.plugin.p.segs, conn.progress.expected)
              && ServerSide(w.server, z.plugin.h.fed, conn) && ClientSide(z.plugin.h.fed, conn) && Unopened(w, conn)
  {
    hide ServerSide, ClientSide, SegsBelow, Unopened;
  }

  // ---- The processor's own actions ----

  predicate Local(a: Action) {
    a.BeginFrame? || a.RefuseFrame? || a.FinishFrame? || a.SetEnabled? || a.StartClose? || a.FinishClose?
  }

  /** Actions of the processor itself keep the generation, count no mismatch, and store nothing. */
  lemma LocalKeeps(cfg: Settings, x: Plugin, a: Action, at: int)
    requires Good(cfg, x) && Local(a) && SegsBelow(x.p.segs, at)
    ensures var y := ProcessorRuns.Step(cfg, x, a);
            && Good(cfg, y) && y.p.generation == x.p.generation && x.h.fed <= y.h.fed
            && y.p.metrics.mismatches == x.p.metrics.mismatches && SegsBelow(y.p.segs, at)
  {
    GoodStep(cfg, x, a);
    var y := ProcessorRuns.Act(cfg, x, a);
    LocalMetrics(cfg, x, a);
    hide AllAligned, Tiles, Enhanced;
    assert Cursors(cfg, x);
    match a {
      case BeginFrame(frame) =>
        BeginCases(cfg, x, frame);
        hide OnBegin, Cursors;
      case FinishFrame =>
        hide OnFinish, DiscardSegments;
        if x.mid.Some? {
          FinishCases(cfg, x);
          forall s | s in y.p.segs ensures s.End() <= at {
            DiscardedIsCut(x.p.segs, y.p.output, s);
            var whole :| whole in x.p.segs && y.p.output < whole.End() && s == TimelineMap.Cut(whole, y.p.output);
          }
        }
      case _ => OtherCases(cfg, x, a);
    }
  }

  lemma LocalMetrics(cfg: Settings, x: Plugin, a: Action)
    requires Local(a)
    ensures ProcessorRuns.Step(cfg, x, a).p.metrics.mismatches == x.p.metrics.mismatches
    ensures ProcessorRuns.Step(cfg, x, a).p.generation == x.p.generation
  {
    hide RawAppend, RawDiscard, RawRead, DiscardSegments, ReadFrom, Due;
  }

  // ---- The server's stream ----

  /** What a step makes of a stream's past. */
  predicate Later(x: Stream, y: Stream, e: Option<Event>) {
    && y.s.inputStart == x.s.inputStart && x.h.delivered <= y.h.delivered
    && (y.h.input == x.h.input
        || (e.Some? && e.value.Audio? && e.value.chunk.start == x.s.inputStart + |x.h.input|
            && |e.value.chunk.pcm| % 2 == 0 && y.h.input == x.h.input + Samples(e.value.chunk.pcm)))
  }

  function EventOf(step: StreamMachine.Step): Option<Event> {
    if step.Serve? then Some(step.event) else None
  }

  /** Deliveries are only added, and input only by a chunk that continues it. */
  lemma StreamStep(m: Model, maxChunk: nat, sl: Slice, step: StreamMachine.Step)
    requires Sound(m) && Inv(m, sl)
    ensures Inv(m, StepSlice(m, maxChunk, sl, step))
    ensures Later(sl.x, StepSlice(m, maxChunk, sl, step).x, EventOf(step))
  {
    InvIntake(m, sl);
    hide *;
    StepInv(m, maxChunk, sl, step);
    match step {
      case Serve(e) => ServedLater(m, maxChunk, sl, e);
      case TakeStep => TakenLater(m, maxChunk, sl);
      case CommitStep => CommittedLater(m, maxChunk, sl);
      case _ => OtherwiseLater(m, maxChunk, sl, step);
    }
  }

  lemma InvIntake(m: Model, sl: Slice)
    requires Inv(m, sl)
    ensures Intake(sl)
  {
    hide Shapes, Intake, Ledger, Awake, InvOut;
  }

  lemma ServedLater(m: Model, maxChunk: nat, sl: Slice, e: Event)
    requires Intake(sl)
    ensures Later(sl.x, StepSlice(m, maxChunk, sl, Serve(e)).x, Some(e))
  {
    EventHistory(maxChunk, sl.closing, sl.x, e);
    IntakeReading(sl);
    hide React, Intake, Samples;
  }

  lemma TakenLater(m: Model, maxChunk: nat, sl: Slice)
    ensures Later(sl.x, StepSlice(m, maxChunk, sl, TakeStep).x, None)
  {
    TakeKeeps(sl.x.s);
    hide Take, TakesNoFlush, Samples;
  }

  lemma CommittedLater(m: Model, maxChunk: nat, sl: Slice)
    ensures Later(sl.x, StepSlice(m, maxChunk, sl, CommitStep).x, None)
  {
    if sl.flight.Some? && sl.flight.value.stage.Computed? {
      var Flight(work, Computed(pcm, updated)) := sl.flight.value;
      CommitKeeps(sl.x.s, work, pcm, updated, sl.closing);
    }
    hide CommitAndNotify, CommitWakes, Samples;
  }

  lemma OtherwiseLater(m: Model, maxChunk: nat, sl: Slice, step: StreamMachine.Step)
    requires !step.Serve? && !step.TakeStep? && !step.CommitStep?
    ensures Later(sl.x, StepSlice(m, maxChunk, sl, step).x, EventOf(step))
  {
    hide Pcm.Encode, Samples;
  }

  lemma IntakeReading(sl: Slice)
    requires Intake(sl)
    ensures sl.x.reader == Reading ==> sl.x.s.expectedInput == sl.x.s.inputStart + |sl.x.h.input|
  {
  }

  lemma EventHistory(maxChunk: nat, closing: bool, x: Stream, e: Event)
    ensures var y := React(maxChunk, closing, x, e).x;
            && y.s.inputStart == x.s.inputStart && x.h.delivered <= y.h.delivered
            && (y.h.input == x.h.input
                || (e.Audio? && x.reader == Reading && e.chunk.start == x.s.expectedInput && |e.chunk.pcm| % 2 == 0
                    && y.h.input == x.h.input + Samples(e.chunk.pcm)))
  {
    hide Samples, Rechunker.Append, Rechunker.FlushPartial;
  }

  lemma ServerSideParts(c: Config, fed: seq<Byte>, conn: Connection)
    ensures ServerSide(c, fed, conn) <==>
              && Inv(SoloModel(c.net), conn.sl) && conn.first == conn.sl.x.s.inputStart
              && AcceptedOk(fed, conn.first, conn.sl.x.h.input) && conn.read <= |conn.sl.x.h.delivered|
              && PassesAs(conn.first, conn.sl.x.h.delivered[..conn.read], conn.progress, None)
  {
    hide Inv, AcceptedOk, PassesAs, SoloModel;
  }

  /** A step of the server's stream keeps everything the client has read. */
  lemma ServerSideStep(c: Config, fed: seq<Byte>, conn: Connection, step: StreamMachine.Step, up: seq<ClientMessage>)
    requires RowLocal(c.net) && ServerSide(c, fed, conn)
    requires step.Serve? && step.event.Audio? ==> IsInput(fed, step.event.chunk.start, step.event.chunk.pcm)
    ensures ServerSide(c, fed, conn.(up := up, sl := StepSlice(SoloModel(c.net), c.maxChunk, conn.sl, step)))
  {
    hide *;
    var x := conn.sl.x;
    ServerSideParts(c, fed, conn);
    SoloModelSound(c.net);
    StreamStep(SoloModel(c.net), c.maxChunk, conn.sl, step);
    var sl := StepSlice(SoloModel(c.net), c.maxChunk, conn.sl, step);
    var y := sl.x;
    LaterMeans(x, y, step, conn.read);
    if y.h.input != x.h.input {
      AcceptedNext(fed, conn.first, x.h.input, step.event.chunk.pcm);
    }
    ServerSideParts(c, fed, conn.(up := up, sl := sl));
  }

  lemma LaterMeans(x: Stream, y: Stream, step: StreamMachine.Step, read: nat)
    requires Later(x, y, EventOf(step)) && read <= |x.h.delivered|
    ensures y.s.inputStart == x.s.inputStart && |x.h.delivered| <= |y.h.delivered|
            && y.h.delivered[..read] == x.h.delivered[..read]
    ensures y.h.input == x.h.input
            || (step.Serve? && step.event.Audio? && step.event.chunk.start == x.s.inputStart + |x.h.input|
                && |step.event.chunk.pcm| % 2 == 0 && y.h.input == x.h.input + Samples(step.event.chunk.pcm))
  {
    hide Samples;
  }

  lemma UpTail(fed: seq<Byte>, first: nat, up: seq<ClientMessage>)
    requires UpOk(fed, up) && StartsAt(first, up) && up != []
    ensures MessageOk(fed, up[0]) && UpOk(fed, up[1..]) && StartsAt(first, up[1..])
    ensures up[0].StartMessage? ==> StartIs(first, up[0].start)
  {
  }

  lemma ClientParts(fed: seq<Byte>, conn: Connection)
    ensures ClientSide(fed, conn) <==>
              && (conn.hand.Some? ==> RequestOk(fed, conn.hand.value))
              && UpOk(fed, conn.up) && StartsAt(conn.first, conn.up)
  {
    hide RequestOk, UpOk, StartsAt;
  }

  /** The server takes a message of an open call. */
  lemma ServedOk(w: World, fed: seq<Byte>, conn: Connection, e: Event)
    requires RowLocal(w.server.net) && ServerSide(w.server, fed, conn) && ClientSide(fed, conn)
    requires conn.up != [] && conn.started && (e.Audio? ==> IsInput(fed, e.chunk.start, e.chunk.pcm))
    ensures ServerSide(w.server, fed, Served(w, conn, e)) && ClientSide(fed, Served(w, conn, e))
    ensures Served(w, conn, e).progress == conn.progress && Unopened(w, Served(w, conn, e))
  {
    hide StepSlice, ServerSide, UpOk, StartsAt, RowLocal, RequestOk, SoloModel, IsInput, MessageOk, StartIs;
    UpTail(fed, conn.first, conn.up);
    ServerSideStep(w.server, fed, conn, Serve(e), conn.up[1..]);
  }

  /** The StartStream opens the stream where the generation starts. */
  lemma OpeningOk(w: World, fed: seq<Byte>, conn: Connection)
    requires ServerSide(w.server, fed, conn) && ClientSide(fed, conn) && Unopened(w, conn)
    requires conn.up != [] && !conn.started
    ensures ServerSide(w.server, fed, OnServerReads(w, conn)) && ClientSide(fed, OnServerReads(w, conn))
    ensures OnServerReads(w, conn).progress == conn.progress && Unopened(w, OnServerReads(w, conn))
  {
    hide ServerSide, UpOk, StartsAt, RequestOk, OpenedStream, StartOk, MessageOk;
    UpTail(fed, conn.first, conn.up);
    var y := OnServerReads(w, conn);
    assert y == conn.(up := conn.up[1..], started := y.started);
    ServerSideUp(w.server, fed, conn, conn.up[1..], y.started);
  }

  lemma ServerReadsOk(w: World, fed: seq<Byte>, conn: Connection)
    requires RowLocal(w.server.net) && ServerSide(w.server, fed, conn) && ClientSide(fed, conn) && Unopened(w, conn)
    ensures ServerSide(w.server, fed, OnServerReads(w, conn)) && ClientSide(fed, OnServerReads(w, conn))
    ensures OnServerReads(w, conn).progress == conn.progress && Unopened(w, OnServerReads(w, conn))
  {
    hide ServerSide, ClientSide, RowLocal, Served, Unopened, IsInput, StartOk, OpenedStream;
    if conn.up != [] {
      ClientParts(fed, conn);
      hide UpOk, StartsAt, RequestOk, StartIs;
      UpTail(fed, conn.first, conn.up);
      if !conn.started {
        OpeningOk(w, fed, conn);
      } else {
        match conn.up[0] {
          case StartMessage(_) => ServedOk(w, fed, conn, Violation(FAILED_PRECONDITION));
          case AudioMessage(chunk) => ServedOk(w, fed, conn, Audio(chunk));
          case EndMessage(flush) => ServedOk(w, fed, conn, End(flush));
        }
      }
    }
  }

  lemma ServerSideUp(c: Config, fed: seq<Byte>, conn: Connection, up: seq<ClientMessage>, started: bool)
    requires ServerSide(c, fed, conn)
    ensures ServerSide(c, fed, conn.(up := up, started := started))
  {
    hide Inv, PassesAs, AcceptedOk;
  }

  lemma IterateOk(c: Config, fed: seq<Byte>, conn: Connection, reset: bool)
    requires ServerSide(c, fed, conn) && ClientSide(fed, conn)
    ensures ServerSide(c, fed, OnIterate(conn, reset)) && ClientSide(fed, OnIterate(conn, reset))
    ensures OnIterate(conn, reset).progress == conn.progress
  {
    IterateClient(fed, conn, reset);
    IterateKeeps(conn, reset);
    hide *;
    ServerSideParts(c, fed, conn);
    ServerSideParts(c, fed, OnIterate(conn, reset));
  }

  lemma IterateKeeps(conn: Connection, reset: bool)
    ensures var y := OnIterate(conn, reset);
            y.first == conn.first && y.sl == conn.sl && y.read == conn.read && y.progress == conn.progress
            && y.started == conn.started
  {
  }

  lemma IterateClient(fed: seq<Byte>, conn: Connection, reset: bool)
    requires ClientSide(fed, conn)
    ensures ClientSide(fed, OnIterate(conn, reset))
  {
    hide IsInput, StartIs;
    var y := OnIterate(conn, reset);
    if y.up != conn.up {
      var last := y.up[|conn.up|];
      forall message | message in y.up
        ensures MessageOk(fed, message) && (message.StartMessage? ==> StartIs(conn.first, message.start))
      {
        if message !in conn.up {
          assert message == last;
        }
      }
    }
  }

  // ---- The client reads ----

  lemma {:induction false} SentOfPrefix(d: seq<ServerMessage>, k: nat)
    requires k <= |d|
    ensures AudioSent(d[..k]) <= AudioSent(d)
  {
    if k < |d| {
      var front := d[..|d| - 1];
      SentOfPrefix(front, k);
      assert front[..k] == d[..k];
      AudioSentNext(front, d[|d| - 1]);
      assert d == front + [d[|d| - 1]];
    } else {
      assert d[..k] == d;
    }
  }

  lemma InvSent(m: Model, sl: Slice)
    requires Inv(m, sl)
    ensures Transcript(sl.x.h.delivered) && AudioSent(sl.x.h.delivered) <= sl.x.h.emitted
  {
    hide InvIn, Tracks, Outbox, Transcript, AudioSent, AudioQueued, FeedOf, Queued;
  }

  lemma TranscriptPrefix(d: seq<ServerMessage>, k: nat)
    requires Transcript(d) && k <= |d|
    ensures Transcript(d[..k])
  {
  }

  /** A prefix of what a stream was sent is a transcript of continuous audio within the accepted input as well. */
  lemma PrefixSeen(c: Config, sl: Slice, k: nat)
    requires Inv(SoloModel(c.net), sl) && Sound(SoloModel(c.net)) && k <= |sl.x.h.delivered|
    ensures var d := sl.x.h.delivered[..k];
            && Transcript(d) && Continuous(AudioSent(d), sl.x.s.inputStart) && Queued(AudioSent(d)) <= |sl.x.h.input|
            && AudioSent(d) <= Expected(c, sl.x)
  {
    hide *;
    var x, d := sl.x, sl.x.h.delivered;
    InvSent(SoloModel(c.net), sl);
    TranscriptPrefix(d, k);
    SentPrefix(c, sl);
    SentOfPrefix(d, k);
    EmittedIsPrefix(c, sl);
    var sent := AudioSent(d[..k]);
    assert sent == AudioSent(d)[..|sent|];
    ContinuousPrefix(AudioSent(d), |sent|, x.s.inputStart);
    PrefixChain(sent, AudioSent(d), x.h.emitted, Expected(c, x));
  }

  lemma PrefixChain<T>(a: seq<T>, b: seq<T>, d: seq<T>, e: seq<T>)
    requires a <= b <= d <= e
    ensures a <= e
  {
  }

  /** The verdict on the last message of d: the call goes on or is ended by StreamEnded, and audio starts exactly
      where the audio before it ended. */
  predicate VerdictOk(first: nat, d: seq<ServerMessage>, progress: Progress, r: Response, v: Verdict) {
    if v.Finish? then v.outcome == Ended
    else
      && PassesAs(first, d, v.next, None)
      && (if r.AudioResponse? then
            r.start == progress.expected && 0 < r.valid && |r.pcm| == 2 * r.valid
              && v.next.expected == progress.expected + r.valid
          else v.next.expected == progress.expected)
  }

  predicate NextOk(first: nat, d: seq<ServerMessage>, progress: Progress, message: ServerMessage) {
    ResponseOf(message).Some? ==>
      VerdictOk(first, d, progress, ResponseOf(message).value, Check(progress, ResponseOf(message).value))
  }

  /** The next message passes the client's checks. */
  lemma NextPasses(c: Config, sl: Slice, first: nat, read: nat, progress: Progress)
    requires Inv(SoloModel(c.net), sl) && Sound(SoloModel(c.net)) && first == sl.x.s.inputStart
             && read < |sl.x.h.delivered|
    requires PassesAs(first, sl.x.h.delivered[..read], progress, None)
    ensures NextOk(first, sl.x.h.delivered[..read + 1], progress, sl.x.h.delivered[read])
    ensures Queued(AudioSent(sl.x.h.delivered[..read + 1])) <= |sl.x.h.input|
  {
    hide *;
    var front, last := sl.x.h.delivered[..read], sl.x.h.delivered[read];
    assert sl.x.h.delivered[..read + 1] == front + [last];
    PrefixSeen(c, sl, read + 1);
    NextChecked(first, front, last, progress);
  }

  lemma NextChecked(first: nat, front: seq<ServerMessage>, last: ServerMessage, progress: Progress)
    requires Transcript(front + [last]) && Continuous(AudioSent(front + [last]), first)
             && PassesAs(first, front, progress, None)
    ensures NextOk(first, front + [last], progress, last)
  {
    LastSequence(front, last);
    SentFront(front, last, first);
    PassedAccepted(first, front, progress);
    hide *;
    match last {
      case Accepted => AcceptanceChecked(first, progress, front);
      case EnhancedAudio(_, _, _, _) => AudioChecked(first, front, last, progress);
      case StreamEnded(_, _, _) => TerminalChecked(first, front, last, progress);
      case Aborted(_) => TerminalChecked(first, front, last, progress);
    }
  }

  lemma PassedAccepted(first: nat, front: seq<ServerMessage>, progress: Progress)
    requires PassesAs(first, front, progress, None)
    ensures progress.accepted == (front != []) && progress.sequence == |AudioSent(front)|
    ensures progress.expected == first + Queued(AudioSent(front))
  {
    hide AudioSent, Queued;
  }

  lemma AcceptanceChecked(first: nat, progress: Progress, front: seq<ServerMessage>)
    requires front + [Accepted] == [Accepted] && PassesAs(first, front, progress, None)
    ensures NextOk(first, front + [Accepted], progress, Accepted)
  {
    assert |front| == 0;
    assert [Accepted][..0] == [];
    assert AudioSent([Accepted]) == AudioSent([]) == [];
  }

  lemma AudioChecked(first: nat, front: seq<ServerMessage>, last: ServerMessage, progress: Progress)
    requires last.EnhancedAudio? && front != [] && PassesAs(first, front, progress, None)
    requires last.sequence == |AudioSent(front)| && last.start == first + Queued(AudioSent(front))
    requires 0 < last.valid && |last.pcm| == 2 * last.valid
    requires AudioSent(front + [last]) == AudioSent(front) + [OutputAudio(last.start, last.pcm, last.valid)]
    requires Queued(AudioSent(front + [last])) == Queued(AudioSent(front)) + last.valid
    ensures NextOk(first, front + [last], progress, last)
  {
    hide AudioSent, Queued;
  }

  lemma TerminalChecked(first: nat, front: seq<ServerMessage>, last: ServerMessage, progress: Progress)
    requires (last.StreamEnded? || last.Aborted?) && progress.accepted
    ensures NextOk(first, front + [last], progress, last)
  {
    hide PassesAs;
  }

  // ---- The processor receives ----

  /** A response of the current generation that starts where everything stored ends, within the input, is never a
      mismatch. */
  lemma ReceiveFits(p: Proc, start: nat, pcm: seq<Byte>)
    requires Ordered(p.segs) && SegsBelow(p.segs, start)
    requires pcm != [] && |pcm| % 2 == 0 && start + |pcm| / 2 <= p.input
    ensures var (p', reset) := Receive(p, p.generation, start, pcm);
            !reset && p'.metrics.mismatches == p.metrics.mismatches && SegsBelow(p'.segs, start + |pcm| / 2)
  {
    if start + |pcm| / 2 > p.output {
      var c := TimelineMap.Cut(Segment(start, pcm), p.output);
      StoredAfter(p.segs, c);
      hide Insert, Ordered;
    }
  }

  lemma StoredAfter(segs: seq<Segment>, c: Segment)
    requires Ordered(segs) && c.Sound() && SegsBelow(segs, c.start)
    ensures Insert(segs, c.start, c.pcm).Ok? && SegsBelow(Insert(segs, c.start, c.pcm).value, c.End())
  {
    OverlapMember(segs, c);
    InsertRefinesMap(segs, c.start, c.pcm);
    assert c == Segment(c.start, c.pcm);
    hide Ordered, TimelineMap.At, SortByStart, FirstOverlap;
  }

  lemma ReceiveLate(p: Proc, start: nat, pcm: seq<Byte>)
    ensures Receive(p, p.generation, start, pcm).0.generation == p.generation
  {
    hide Insert;
  }

  // ---- Every move ----

  /** The worker's part depends on the processor only through its generation, its input and what it stores. */
  lemma WorkerKept(w: World, z: Loop, y: Loop)
    requires WorkerOk(w, z) && y.worker == z.worker && y.generation == z.generation
    requires y.plugin.p.generation == z.plugin.p.generation && z.plugin.h.fed <= y.plugin.h.fed
    requires z.worker.Connected? && SegsBelow(z.plugin.p.segs, z.worker.conn.progress.expected)
             ==> SegsBelow(y.plugin.p.segs, z.worker.conn.progress.expected)
    ensures WorkerOk(w, y)
  {
    var fed, more := z.plugin.h.fed, y.plugin.h.fed;
    hide SegsBelow, IsInput, ServerSide, ClientSide;
    match z.worker {
      case Waiting =>
      case Popped(first) => IsInputGrows(fed, more, first.start, first.pcm);
      case Numbered(first) => IsInputGrows(fed, more, first.start, first.pcm);
      case Connected(conn) => SidesGrow(w.server, fed, more, conn);
    }
  }

  lemma SidesGrow(c: Config, fed: seq<Byte>, more: seq<Byte>, conn: Connection)
    requires fed <= more
    ensures ServerSide(c, fed, conn) ==> ServerSide(c, more, conn)
    ensures ClientSide(fed, conn) ==> ClientSide(more, conn)
  {
    hide Inv, PassesAs, AcceptedOk, IsInput, UpOk, StartsAt;
    if ServerSide(c, fed, conn) {
      AcceptedGrows(fed, more, conn.first, conn.sl.x.h.input);
    }
    if ClientSide(fed, conn) {
      UpGrows(fed, more, conn.up);
      if conn.hand.Some? && conn.hand.value.AudioRequest? {
        IsInputGrows(fed, more, conn.hand.value.start, conn.hand.value.pcm);
      }
    }
  }

  lemma UpGrows(fed: seq<Byte>, more: seq<Byte>, up: seq<ClientMessage>)
    requires fed <= more && UpOk(fed, up)
    ensures UpOk(more, up)
  {
    hide IsInput;
    forall message | message in up ensures MessageOk(more, message) {
      if message.AudioMessage? {
        IsInputGrows(fed, more, message.chunk.start, message.chunk.pcm);
      }
    }
  }

  lemma QueueGrows(fed: seq<Byte>, more: seq<Byte>, queue: seq<Request>)
    requires fed <= more && QueueOk(fed, queue)
    ensures QueueOk(more, queue)
  {
    hide IsInput;
    forall r | r in queue ensures RequestOk(more, r) {
      if r.AudioRequest? {
        IsInputGrows(fed, more, r.start, r.pcm);
      }
    }
  }

  lemma LocalOk(w: World, z: Loop, a: Action)
    requires LoopOk(w, z) && Local(a)
    ensures LoopOk(w, ClosedLoop.Act(w, z, a))
  {
    var y := ClosedLoop.Act(w, z, a);
    LocalMetrics(w.settings, z.plugin, a);
    var at := if z.worker.Connected? then z.worker.conn.progress.expected else MaxEnd(z.plugin.p.segs);
    MaxEndBounds(z.plugin.p.segs);
    assert z.worker.Connected? ==> ConnectionOk(w, z, z.worker.conn);
    hide Good, ServerSide, ClientSide, SegsBelow, IsInput, QueueOk, MaxEnd;
    assert SegsBelow(z.plugin.p.segs, at);
    LocalKeeps(w.settings, z.plugin, a, at);
    WorkerKept(w, z, y);
    QueueGrows(z.plugin.h.fed, y.plugin.h.fed, z.queue);
    if z.pending.Some? && z.pending.value.AudioRequest? {
      IsInputGrows(z.plugin.h.fed, y.plugin.h.fed, z.pending.value.start, z.pending.value.pcm);
    }
  }

  function MaxEnd(segs: seq<Segment>): int {
    if segs == [] then 0 else if segs[0].End() > MaxEnd(segs[1..]) then segs[0].End() else MaxEnd(segs[1..])
  }

  lemma {:induction false} MaxEndBounds(segs: seq<Segment>)
    ensures SegsBelow(segs, MaxEnd(segs))
  {
    if segs != [] {
      MaxEndBounds(segs[1..]);
      assert segs == [segs[0]] + segs[1..];
    }
  }

  lemma FrameOk(w: World, z: Loop, frame: Processor.Frame)
    requires LoopOk(w, z)
    ensures LoopOk(w, OnFrame(w, z, frame))
  {
    if z.plugin.mid.None? {
      LocalOk(w, z, BeginFrame(frame));
      FrameIsInput(w.settings, z.plugin, frame);
      hide Good, WorkerOk, QueueOk, IsInput, ProcessorRuns.Step;
    }
  }

  lemma FrameIsInput(cfg: Settings, x: Plugin, frame: Processor.Frame)
    requires Good(cfg, x) && x.mid.None?
    ensures var y := ProcessorRuns.Step(cfg, x, BeginFrame(frame)); y.mid.Some? ==>
            IsInput(y.h.fed, x.p.input, frame.pcm)
  {
    assert Cursors(cfg, x);
    hide Good, Cursors;
    assert (x.h.fed + frame.pcm)[|x.h.fed|..|x.h.fed| + |frame.pcm|] == frame.pcm;
  }

  lemma QueueSnoc(fed: seq<Byte>, queue: seq<Request>, r: Request)
    requires QueueOk(fed, queue) && RequestOk(fed, r)
    ensures QueueOk(fed, queue + [r])
  {
  }

  lemma QueueTail(fed: seq<Byte>, queue: seq<Request>)
    requires QueueOk(fed, queue) && queue != []
    ensures RequestOk(fed, queue[0]) && QueueOk(fed, queue[1..])
  {
  }

  lemma SendOk(w: World, z: Loop, ok: bool)
    requires LoopOk(w, z)
    ensures LoopOk(w, OnSend(w, z, ok))
  {
    hide Good, ConnectionOk, QueueOk, RequestOk, ProcessorRuns.Step;
    if z.pending.Some? {
      if ok {
        QueueSnoc(z.plugin.h.fed, z.queue, z.pending.value);
        SameWorker(w, z, OnSend(w, z, ok));
      } else {
        SameWorker(w, z, z.(pending := None));
        LocalOk(w, z.(pending := None), RefuseFrame);
      }
    }
  }

  lemma SameWorker(w: World, z: Loop, y: Loop)
    requires WorkerOk(w, z) && y.worker == z.worker && y.generation == z.generation && y.plugin == z.plugin
    ensures WorkerOk(w, y)
  {
    hide ServerSide, ClientSide, SegsBelow, RequestOk;
  }

  lemma GenerationStep(cfg: Settings, x: Plugin, generation: nat, state: TransportState)
    ensures var y := ProcessorRuns.Step(cfg, x, NewGeneration(generation, state));
            && y.h.fed == x.h.fed
               && y.p.generation == (if generation > x.p.generation then generation else x.p.generation)
            && y.p.segs == (if generation > x.p.generation then [] else x.p.segs)
            && y.p.metrics.mismatches == x.p.metrics.mismatches
  {
  }

  /** The StartStream a generation sends names its own first sample. */
  lemma DialStarts(w: World, hex: Text, items: seq<(Text, Text)>, first: Request)
    requires first.AudioRequest? && HexDigits(hex)
    ensures StartsAt(first.start, Dial(w, hex, items, first).up)
  {
    StartAlwaysPasses(first.start, hex, items);
    hide StartOk, BuildMetadata, OpenedStream, AllEncodable, FromItems, Replaced, ItemHeld;
  }

  lemma DialIs(w: World, hex: Text, items: seq<(Text, Text)>, first: Request)
    requires first.AudioRequest?
    ensures var conn := Dial(w, hex, items, first);
            && conn.first == first.start && (conn.hand.Some? ==> conn.hand.value == first)
            && (forall message | message in conn.up :: message.StartMessage?)
            && !conn.started && conn.sl == OpenedStream(w, first.start) && conn.read == 0
            && conn.progress == Progress(false, 0, first.start, [])
  {
    hide BuildMetadata, OpenedStream, ClientStart;
  }

  lemma OpenedStreamIs(w: World, first: nat)
    requires RowLocal(w.server.net)
    ensures var sl := OpenedStream(w, first);
            && Inv(SoloModel(w.server.net), sl)
            && sl.x.s.inputStart == first && sl.x.h.input == [] && sl.x.h.delivered == []
  {
    SoloModelSound(w.server.net);
    FreshInv(SoloModel(w.server.net), first, w.inputCap, w.outputCap, false);
    hide Inv, Sound, RowLocal, SoloModel;
  }

  lemma StartsOnly(fed: seq<Byte>, up: seq<ClientMessage>)
    requires forall message | message in up :: message.StartMessage?
    ensures UpOk(fed, up)
  {
  }

  lemma DialOk(w: World, fed: seq<Byte>, hex: Text, items: seq<(Text, Text)>, first: Request)
    requires RowLocal(w.server.net) && first.AudioRequest? && RequestOk(fed, first) && HexDigits(hex)
    ensures var conn := Dial(w, hex, items, first);
            && ServerSide(w.server, fed, conn) && ClientSide(fed, conn) && Unopened(w, conn)
            && conn.progress.expected == first.start
  {
    var conn := Dial(w, hex, items, first);
    DialIs(w, hex, items, first);
    DialStarts(w, hex, items, first);
    hide Dial, OpenedStream, HexDigits;
    OpenedStreamIs(w, first.start);
    FirstAccepted(fed, first);
    NothingRead(first.start);
    StartsOnly(fed, conn.up);
    ClientParts(fed, conn);
    hide *;
    ServerSideParts(w.server, fed, conn);
    NotOpened(w, conn);
    assert conn.sl.x.h.delivered[..0] == [];
  }

  lemma NotOpened(w: World, conn: Connection)
    requires conn.sl == OpenedStream(w, conn.first) && conn.read == 0
             && conn.progress == Progress(false, 0, conn.first, [])
    ensures Unopened(w, conn)
  {
    hide OpenedStream;
  }

  /** A new generation: the processor empties what it stored, and the client calls the server. */
  lemma AnnounceOk(w: World, z: Loop, hex: Text, items: seq<(Text, Text)>)
    requires RowLocal(w.server.net) && LoopOk(w, z) && z.worker.Numbered? && HexDigits(hex)
    ensures LoopOk(w, ClosedLoop.Step(w, z, Announce(hex, items)))
  {
    hide *;
    LoopParts(w, z);
    NumberedParts(w, z);
    var a := NewGeneration(z.generation, Connecting);
    var conn := Dial(w, hex, items, z.worker.first);
    var y := z.(plugin := ProcessorRuns.Step(w.settings, z.plugin, a), worker := Connected(conn));
    AnnounceIs(w, z, hex, items);
    GoodStep(w.settings, z.plugin, a);
    GenerationStep(w.settings, z.plugin, z.generation, Connecting);
    DialOk(w, z.plugin.h.fed, hex, items, z.worker.first);
    NothingBelow(conn.progress.expected);
    ConnectedParts(w, y, conn);
    LoopParts(w, y);
  }

  lemma NothingBelow(at: int)
    ensures SegsBelow([], at)
  {
  }

  lemma NumberedParts(w: World, z: Loop)
    requires WorkerOk(w, z) && z.worker.Numbered?
    ensures z.plugin.p.generation < z.generation && z.worker.first.AudioRequest?
            && RequestOk(z.plugin.h.fed, z.worker.first)
  {
    hide RequestOk;
  }

  lemma AnnounceIs(w: World, z: Loop, hex: Text, items: seq<(Text, Text)>)
    requires z.worker.Numbered? && z.worker.first.AudioRequest? && HexDigits(hex)
    ensures ClosedLoop.Step(w, z, Announce(hex, items))
            == z.(plugin := ProcessorRuns.Step(w.settings, z.plugin, NewGeneration(z.generation, Connecting)),
                  worker := Connected(Dial(w, hex, items, z.worker.first)))
  {
    hide ProcessorRuns.Step, Dial, HexDigits;
  }

  lemma FirstAccepted(fed: seq<Byte>, first: Request)
    requires first.AudioRequest? && RequestOk(fed, first)
    ensures AcceptedOk(fed, first.start, [])
  {
    assert fed[2 * first.start..2 * first.start] == [];
  }

  lemma NothingRead(first: nat)
    ensures PassesAs(first, [], Progress(false, 0, first, []), None)
  {
  }

  lemma LeaveOk(w: World, z: Loop, conn: Connection)
    requires LoopOk(w, z)
    ensures LoopOk(w, Leave(z, conn))
  {
    hide Good, ServerSide, ClientSide, QueueOk, SegsBelow, RequestOk;
  }

  /** Moving on by one message that passed. */
  lemma ServerSideRead(c: Config, fed: seq<Byte>, conn: Connection, next: Progress)
    requires ServerSide(c, fed, conn) && conn.read < |conn.sl.x.h.delivered|
    requires PassesAs(conn.first, conn.sl.x.h.delivered[..conn.read + 1], next, None)
    ensures ServerSide(c, fed, conn.(read := conn.read + 1, progress := next))
    ensures next.expected == conn.first + Queued(AudioSent(conn.sl.x.h.delivered[..conn.read + 1]))
    ensures 2 * (conn.first + |conn.sl.x.h.input|) <= |fed|
  {
    hide Inv;
  }

  lemma GoodFacts(cfg: Settings, x: Plugin)
    requires Good(cfg, x)
    ensures Ordered(x.p.segs) && |x.h.fed| == 2 * x.p.input
  {
  }

  lemma ResponseStep(cfg: Settings, x: Plugin, generation: nat, start: nat, pcm: seq<Byte>)
    ensures var y := ProcessorRuns.Step(cfg, x, Response(generation, start, pcm));
            y.h.fed == x.h.fed && y.p == Receive(x.p, generation, start, pcm).0
  {
    hide Receive;
  }

  /** Audio that passed the client's checks is no mismatch for the processor either. */
  lemma AudioOk(w: World, z: Loop, conn: Connection, r: Response, next: Progress)
    requires LoopOk(w, z) && z.worker == Connected(conn) && conn.read < |conn.sl.x.h.delivered| && r.AudioResponse?
    requires PassesAs(conn.first, conn.sl.x.h.delivered[..conn.read + 1], next, None)
    requires r.start == conn.progress.expected && 0 < r.valid && |r.pcm| == 2 * r.valid
             && next.expected == conn.progress.expected + r.valid
    requires Queued(AudioSent(conn.sl.x.h.delivered[..conn.read + 1])) <= |conn.sl.x.h.input|
    ensures LoopOk(w, z.(worker := Connected(conn.(read := conn.read + 1, progress := next)),
                         plugin := ProcessorRuns.Step(w.settings, z.plugin, Response(z.generation, r.start, r.pcm))))
  {
    hide *;
    var x, a := z.plugin, Response(z.generation, r.start, r.pcm);
    var after := conn.(read := conn.read + 1, progress := next);
    var y := z.(worker := Connected(after), plugin := ProcessorRuns.Step(w.settings, x, a));
    LoopParts(w, z);
    ConnectedParts(w, z, conn);
    GoodStep(w.settings, x, a);
    GoodFacts(w.settings, x);
    ResponseStep(w.settings, x, z.generation, r.start, r.pcm);
    ServerSideRead(w.server, x.h.fed, conn, next);
    ClientSideRead(x.h.fed, conn, after);
    ReadsOpened(w, conn, after);
    ReceiveFits(x.p, r.start, r.pcm);
    ReceiveLate(x.p, r.start, r.pcm);
    ConnectedParts(w, y, after);
    LoopParts(w, y);
  }

  lemma ClientSideRead(fed: seq<Byte>, conn: Connection, after: Connection)
    requires ClientSide(fed, conn) && after == conn.(read := after.read, progress := after.progress)
    ensures ClientSide(fed, after)
  {
    hide RequestOk, UpOk, StartsAt;
  }

  /** Only a stream that has been opened delivers anything. */
  lemma ReadsOpened(w: World, conn: Connection, after: Connection)
    requires Unopened(w, conn) && conn.read < |conn.sl.x.h.delivered| && after.started == conn.started
    ensures conn.started && Unopened(w, after)
  {
  }

  lemma AcceptedResponse(w: World, z: Loop, conn: Connection, next: Progress)
    requires LoopOk(w, z) && z.worker == Connected(conn) && conn.read < |conn.sl.x.h.delivered|
    requires PassesAs(conn.first, conn.sl.x.h.delivered[..conn.read + 1], next, None)
             && next.expected == conn.progress.expected
    ensures LoopOk(w, z.(worker := Connected(conn.(read := conn.read + 1, progress := next)),
                         plugin := ProcessorRuns.Step(w.settings, z.plugin, NewGeneration(z.generation, Active))))
  {
    hide *;
    var x, a := z.plugin, NewGeneration(z.generation, Active);
    var after := conn.(read := conn.read + 1, progress := next);
    var y := z.(worker := Connected(after), plugin := ProcessorRuns.Step(w.settings, x, a));
    LoopParts(w, z);
    ConnectedParts(w, z, conn);
    GoodStep(w.settings, x, a);
    GenerationStep(w.settings, x, z.generation, Active);
    ServerSideRead(w.server, x.h.fed, conn, next);
    ClientSideRead(x.h.fed, conn, after);
    ReadsOpened(w, conn, after);
    ConnectedParts(w, y, after);
    LoopParts(w, y);
  }

  /** What the client makes of a message that passes. */
  lemma ReadCases(w: World, z: Loop, conn: Connection)
    requires conn.read < |conn.sl.x.h.delivered|
    requires NextOk(conn.first, conn.sl.x.h.delivered[..conn.read + 1], conn.progress, conn.sl.x.h.delivered[conn.read])
    ensures var r, y := ResponseOf(conn.sl.x.h.delivered[conn.read]), OnClientReads(w, z, conn);
            if r.Some? && Check(conn.progress, r.value).Continue? then
              var next := Check(conn.progress, r.value).next;
              && VerdictOk(conn.first, conn.sl.x.h.delivered[..conn.read + 1], conn.progress, r.value,
                           Verdict.Continue(next))
              && y == ClosedLoop.Act(w, z.(worker := Connected(conn.(read := conn.read + 1, progress := next))),
                                     if r.value.AudioResponse?
                                       then Response(z.generation, Clip(r.value.start), r.value.pcm)
                                     else NewGeneration(z.generation, Active))
            else y == Leave(z, conn)
  {
    hide PassesAs, Check, ClosedLoop.Act, Leave, Clip;
  }

  lemma VerdictMeans(first: nat, d: seq<ServerMessage>, progress: Progress, r: Response, next: Progress)
    requires VerdictOk(first, d, progress, r, Verdict.Continue(next))
    ensures PassesAs(first, d, next, None)
    ensures if r.AudioResponse? then
              r.start == progress.expected && Clip(r.start) == r.start && 0 < r.valid && |r.pcm| == 2 * r.valid
              && next.expected == progress.expected + r.valid
            else next.expected == progress.expected
  {
    hide PassesAs;
  }

  /** The client takes a message: it is never a mismatch, and neither is its audio for the processor. */
  lemma ClientReadsOk(w: World, z: Loop, conn: Connection)
    requires RowLocal(w.server.net) && LoopOk(w, z) && z.worker == Connected(conn)
    ensures LoopOk(w, OnClientReads(w, z, conn))
  {
    hide *;
    NothingToRead(w, z, conn);
    if conn.read < |conn.sl.x.h.delivered| {
      LeaveOk(w, z, conn);
      ReadPasses(w, z, conn);
      ReadCases(w, z, conn);
      var d, r := conn.sl.x.h.delivered[..conn.read + 1], ResponseOf(conn.sl.x.h.delivered[conn.read]);
      if r.Some? && Check(conn.progress, r.value).Continue? {
        var next := Check(conn.progress, r.value).next;
        VerdictMeans(conn.first, d, conn.progress, r.value, next);
        if r.value.AudioResponse? {
          ReadIs(w, z, conn, next, Response(z.generation, Clip(r.value.start), r.value.pcm));
          AudioOk(w, z, conn, r.value, next);
        } else {
          ReadIs(w, z, conn, next, NewGeneration(z.generation, Active));
          AcceptedResponse(w, z, conn, next);
        }
      }
    }
  }

  lemma NothingToRead(w: World, z: Loop, conn: Connection)
    ensures conn.read >= |conn.sl.x.h.delivered| ==> OnClientReads(w, z, conn) == z
  {
    hide Check, ClosedLoop.Act;
  }

  lemma ReadIs(w: World, z: Loop, conn: Connection, next: Progress, a: Action)
    ensures ClosedLoop.Act(w, z.(worker := Connected(conn.(read := conn.read + 1, progress := next))), a)
            == z.(worker := Connected(conn.(read := conn.read + 1, progress := next)),
                  plugin := ProcessorRuns.Step(w.settings, z.plugin, a))
  {
    hide ProcessorRuns.Step;
  }

  lemma ReadPasses(w: World, z: Loop, conn: Connection)
    requires RowLocal(w.server.net) && LoopOk(w, z) && z.worker == Connected(conn)
             && conn.read < |conn.sl.x.h.delivered|
    ensures NextOk(conn.first, conn.sl.x.h.delivered[..conn.read + 1], conn.progress, conn.sl.x.h.delivered[conn.read])
    ensures Queued(AudioSent(conn.sl.x.h.delivered[..conn.read + 1])) <= |conn.sl.x.h.input|
  {
    SoloModelSound(w.server.net);
    assert ServerSide(w.server, z.plugin.h.fed, conn);
    hide LoopOk, RowLocal, Inv, PassesAs, NextOk, AudioSent, Queued, AcceptedOk;
    NextPasses(w.server, conn.sl, conn.first, conn.read, conn.progress);
  }

  lemma ProcessorMoveOk(w: World, z: Loop, move: Move)
    requires LoopOk(w, z) && ProcessorMove(move)
    ensures LoopOk(w, ClosedLoop.Step(w, z, move))
  {
    hide LoopOk, ClosedLoop.Act, OnFrame, OnSend;
    match move {
      case Frame(frame) => FrameOk(w, z, frame);
      case Send(ok) => SendOk(w, z, ok);
      case Emit => LocalOk(w, z, FinishFrame);
      case Toggle(value) => LocalOk(w, z, SetEnabled(value));
      case BeginClose => LocalOk(w, z, StartClose);
      case EndClose => LocalOk(w, z, FinishClose);
      case _ =>
    }
  }

  lemma WorkerMoveOk(w: World, z: Loop, move: Move)
    requires RowLocal(w.server.net) && LoopOk(w, z) && (move.Announce? || move.ClientReads? || move.LoseCall?)
    ensures LoopOk(w, ClosedLoop.Step(w, z, move))
  {
    hide LoopOk, RowLocal, ClosedLoop.Act, OnClientReads, Leave, Dial;
    match move {
      case Announce(hex, items) =>
        if z.worker.Numbered? && HexDigits(hex) {
          AnnounceOk(w, z, hex, items);
        }
      case ClientReads =>
        if z.worker.Connected? {
          ClientReadsOk(w, z, z.worker.conn);
        }
      case LoseCall =>
        if z.worker.Connected? {
          LeaveOk(w, z, z.worker.conn);
        }
      case _ =>
    }
  }

  predicate ProcessorMove(move: Move) {
    move.Frame? || move.Send? || move.Emit? || move.Toggle? || move.BeginClose? || move.EndClose?
  }

  predicate QueueMove(move: Move) {
    move.SetReset? || move.DropRequest? || move.PutControl? || move.Pop? || move.Number?
  }

  lemma WhichMove(move: Move)
    ensures ProcessorMove(move) || QueueMove(move) || CallMove(move) || move.Announce? || move.ClientReads?
            || move.LoseCall?
  {
  }

  /** Every move of every part keeps the invariant. */
  lemma MoveOk(w: World, z: Loop, move: Move)
    requires RowLocal(w.server.net) && LoopOk(w, z)
    ensures LoopOk(w, ClosedLoop.Step(w, z, move))
  {
    hide *;
    WhichMove(move);
    if ProcessorMove(move) {
      ProcessorMoveOk(w, z, move);
    } else if QueueMove(move) {
      QueueMoveOk(w, z, move);
    } else if CallMove(move) {
      CallMoveOk(w, z, move);
    } else {
      WorkerMoveOk(w, z, move);
    }
  }

  lemma QueueMoveOk(w: World, z: Loop, move: Move)
    requires LoopOk(w, z) && QueueMove(move)
    ensures LoopOk(w, ClosedLoop.Step(w, z, move))
  {
    if z.queue != [] {
      QueueTail(z.plugin.h.fed, z.queue);
    }
    if move.PutControl? {
      if !move.request.AudioRequest? {
        QueueSnoc(z.plugin.h.fed, z.queue, move.request);
      }
    }
    hide Good, QueueOk, ServerSide, ClientSide, SegsBelow, IsInput, ClosedLoop.Act;
  }

  predicate CallMove(move: Move) {
    move.Iterate? || move.GetRequest? || move.ServerReads? || move.ServerActs?
  }

  /** What a move makes of the call. */
  function Moved(w: World, z: Loop, conn: Connection, move: Move): Connection {
    match move
    case Iterate => OnIterate(conn, z.reset)
    case GetRequest => if conn.open && conn.hand.None? && z.queue != [] then conn.(hand := Some(z.queue[0])) else conn
    case ServerReads => OnServerReads(w, conn)
    case ServerActs(step) =>
      if conn.started && Unprompted(step) then
        conn.(sl := StepSlice(SoloModel(w.server.net), w.server.maxChunk, conn.sl, step))
      else conn
    case _ => conn
  }

  lemma MovedOk(w: World, z: Loop, conn: Connection, move: Move)
    requires RowLocal(w.server.net) && QueueOk(z.plugin.h.fed, z.queue) && CallMove(move)
    requires ServerSide(w.server, z.plugin.h.fed, conn) && ClientSide(z.plugin.h.fed, conn) && Unopened(w, conn)
    ensures var after := Moved(w, z, conn, move);
            && ServerSide(w.server, z.plugin.h.fed, after) && ClientSide(z.plugin.h.fed, after) && Unopened(w, after)
            && after.progress == conn.progress
  {
    var fed := z.plugin.h.fed;
    hide OpenedStream, QueueOk, RowLocal, ServerSide, ClientSide, OnIterate, OnServerReads, StepSlice, Unprompted,
      SoloModel;
    match move {
      case Iterate =>
        IterateOk(w.server, fed, conn, z.reset);
        IterateKeeps(conn, z.reset);
      case GetRequest =>
        if z.queue != [] {
          QueueTail(fed, z.queue);
          HandOk(w.server, fed, conn, z.queue[0]);
        }
      case ServerReads => ServerReadsOk(w, fed, conn);
      case ServerActs(step) => UnpromptedOk(w.server, fed, conn, step);
      case _ =>
    }
  }

  lemma CallMoveOk(w: World, z: Loop, move: Move)
    requires RowLocal(w.server.net) && LoopOk(w, z) && CallMove(move)
    ensures LoopOk(w, ClosedLoop.Step(w, z, move))
  {
    if z.worker.Connected? {
      hide *;
      var conn := z.worker.conn;
      LoopParts(w, z);
      ConnectedParts(w, z, conn);
      MovedOk(w, z, conn, move);
      CallMoveIs(w, z, move);
      var y := ClosedLoop.Step(w, z, move);
      if y.queue != z.queue {
        QueueTail(z.plugin.h.fed, z.queue);
      }
      ConnectedParts(w, y, y.worker.conn);
      LoopParts(w, y);
    }
  }

  lemma CallMoveIs(w: World, z: Loop, move: Move)
    requires z.worker.Connected? && CallMove(move)
    ensures var y := ClosedLoop.Step(w, z, move);
            && y == z.(queue := y.queue, worker := Connected(Moved(w, z, z.worker.conn, move)))
            && (y.queue == z.queue || (z.queue != [] && y.queue == z.queue[1..]))
  {
    hide OnIterate, OnServerReads, StepSlice, Unprompted, SoloModel;
  }

  lemma HandOk(c: Config, fed: seq<Byte>, conn: Connection, r: Request)
    requires ServerSide(c, fed, conn) && ClientSide(fed, conn) && RequestOk(fed, r)
    ensures ServerSide(c, fed, conn.(hand := Some(r))) && ClientSide(fed, conn.(hand := Some(r)))
  {
    hide RequestOk, UpOk, StartsAt;
    ServerSideHand(c, fed, conn, Some(r));
  }

  lemma UnpromptedOk(c: Config, fed: seq<Byte>, conn: Connection, step: StreamMachine.Step)
    requires RowLocal(c.net) && ServerSide(c, fed, conn) && ClientSide(fed, conn)
    ensures Unprompted(step) ==>
              var after := conn.(sl := StepSlice(SoloModel(c.net), c.maxChunk, conn.sl, step));
              ServerSide(c, fed, after) && ClientSide(fed, after)
  {
    hide RequestOk, UpOk, StartsAt, ServerSide, RowLocal, StepSlice, SoloModel;
    if Unprompted(step) {
      ServerSideStep(c, fed, conn, step, conn.up);
    }
  }

  lemma ServerSideHand(c: Config, fed: seq<Byte>, conn: Connection, hand: Option<Request>)
    requires ServerSide(c, fed, conn)
    ensures ServerSide(c, fed, conn.(hand := hand))
  {
    hide Inv, PassesAs, AcceptedOk;
  }

  lemma NewLoopOk(w: World)
    ensures LoopOk(w, NEW_LOOP)
  {
    NothingEnhanced(NEW_PLUGIN);
    hide Enhanced;
  }

  lemma {:induction false} RunOk(w: World, moves: seq<Move>)
    requires RowLocal(w.server.net)
    ensures LoopOk(w, ClosedLoop.Run(w, moves))
  {
    if moves == [] {
      NewLoopOk(w);
    } else {
      RunOk(w, moves[..|moves| - 1]);
      MoveOk(w, ClosedLoop.Run(w, moves[..|moves| - 1]), moves[|moves| - 1]);
      hide LoopOk, ClosedLoop.Step, RowLocal;
    }
  }

  /** With this server, and for every interleaving of frames, toggles, overflows, closing, drained or dropped
      requests, resets, lost calls, reconnects, batches and failures, no response is ever a mismatch: none breaks the
      client's checks, none reaches beyond the input, none overlaps another. */
  lemma NeverAMismatch(w: World, moves: seq<Move>)
    requires RowLocal(w.server.net)
    ensures ClosedLoop.Run(w, moves).plugin.p.metrics.mismatches == 0
  {
    RunOk(w, moves);
    hide ClosedLoop.Run, Good, QueueOk, WorkerOk;
  }

  /** What the processor has been handed in this generation is, from end to end, what StreamingPipeline yields on the
      raw input that the processor itself took in from the first sample of the generation on. */
  ghost predicate HandedIsPipelineOfRaw(c: Config, fed: seq<Byte>, conn: Connection) {
    var x := conn.sl.x;
    && AcceptedOk(fed, conn.first, x.h.input)
    && x.s.inputStart == conn.first
    && |conn.progress.handed| <= |Expected(c, x)|
    && forall k | 0 <= k < |conn.progress.handed| ::
         Expected(c, x)[k].OutputAudio? && conn.progress.handed[k] == (Expected(c, x)[k].start, Expected(c, x)[k].pcm)
  }

  lemma HandedExpected(c: Config, fed: seq<Byte>, conn: Connection)
    requires RowLocal(c.net) && ServerSide(c, fed, conn)
    ensures HandedIsPipelineOfRaw(c, fed, conn)
  {
    SoloModelSound(c.net);
    PrefixSeen(c, conn.sl, conn.read);
    hide Inv, Expected, AudioSent, AcceptedOk, Transcript, Continuous, Queued, SoloModel, RowLocal;
    var sent := AudioSent(conn.sl.x.h.delivered[..conn.read]);
    forall k | 0 <= k < |conn.progress.handed|
      ensures Expected(c, conn.sl.x)[k].OutputAudio?
      ensures conn.progress.handed[k] == (Expected(c, conn.sl.x)[k].start, Expected(c, conn.sl.x)[k].pcm)
    {
      assert sent[k] == Expected(c, conn.sl.x)[k];
    }
  }

  /** End to end, in every run and every generation. */
  lemma EnhancedIsPipelineOfRaw(w: World, moves: seq<Move>)
    requires RowLocal(w.server.net)
    ensures var z := ClosedLoop.Run(w, moves);
            z.worker.Connected? ==> HandedIsPipelineOfRaw(w.server, z.plugin.h.fed, z.worker.conn)
  {
    hide *;
    RunOk(w, moves);
    var z := ClosedLoop.Run(w, moves);
    LoopParts(w, z);
    if z.worker.Connected? {
      ConnectedParts(w, z, z.worker.conn);
      HandedExpected(w.server, z.plugin.h.fed, z.worker.conn);
    }
  }
}

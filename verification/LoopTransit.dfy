/** On the way from client to server: in the whole loop, whatever is drained, dropped, reset or lost, the server
    never meets a chunk that is out of place. */
module LoopTransit {
  import opened Wrappers
  import opened Pcm
  import opened Rechunker
  import opened Caches
  import opened Pipeline
  import opened Sessions
  import opened Service
  import opened StreamMachine
  import opened Utf8
  import opened Handshake
  import opened Transport
  import opened ClosedLoop
  import opened EndToEnd
  import Processor
  import ProcessorRuns
  import ProcessorAlignment
  import ProcessorMap

  /** Messages that continue a stream: chunks with the next sequence and offset, one after another, up to where the
      iterator stands; or an end after them, and then the iterator is done. */
  predicate Flows(sequence: nat, at: nat, up: seq<ClientMessage>, conn: Connection)
    decreases |up|
  {
    if up == [] then sequence == conn.sequence && at == conn.expected
    else
      match up[0]
      case StartMessage(_) => false
      case AudioMessage(chunk) =>
        && chunk.sequence == sequence && chunk.start == at
        && Flows(sequence + 1, at + |chunk.pcm| / 2, up[1..], conn)
      case EndMessage(_) => up[1..] == [] && !conn.open && sequence == conn.sequence && at == conn.expected
  }

  /** What is on the way continues what the server has taken in, as long as its reader has refused nothing; after
      the end nothing is. */
  predicate Transit(conn: Connection) {
    var x := conn.sl.x;
    if !conn.started then
      (conn.up == [] && !conn.open)
      || (conn.up != [] && conn.up[0].StartMessage? && Flows(0, conn.first, conn.up[1..], conn))
    else if x.reader == Failed then true
    else if x.mode == Sending then Flows(x.s.expectedSequence, x.s.expectedInput, conn.up, conn)
    else conn.up == [] && !conn.open
  }

  // ---- The iterator ----

  lemma {:induction false} FlowsAudio(sequence: nat, at: nat, up: seq<ClientMessage>, conn: Connection,
                                      chunk: AudioChunk, next: Connection)
    requires Flows(sequence, at, up, conn) && conn.open
    requires chunk.sequence == conn.sequence && chunk.start == conn.expected
    requires next.sequence == conn.sequence + 1 && next.expected == conn.expected + |chunk.pcm| / 2
    ensures Flows(sequence, at, up + [AudioMessage(chunk)], next)
    decreases |up|
  {
    if up == [] {
      assert ([] + [AudioMessage(chunk)])[1..] == [];
    } else {
      FlowsAudio(sequence + 1, at + |up[0].chunk.pcm| / 2, up[1..], conn, chunk, next);
      assert (up + [AudioMessage(chunk)])[1..] == up[1..] + [AudioMessage(chunk)];
    }
  }

  lemma {:induction false} FlowsEnd(sequence: nat, at: nat, up: seq<ClientMessage>, conn: Connection, flush: bool,
                                    next: Connection)
    requires Flows(sequence, at, up, conn) && conn.open
    requires next.sequence == conn.sequence && next.expected == conn.expected && !next.open
    ensures Flows(sequence, at, up, next) && Flows(sequence, at, up + [EndMessage(flush)], next)
    decreases |up|
  {
    if up == [] {
      assert ([] + [EndMessage(flush)])[1..] == [];
    } else {
      FlowsEnd(sequence + 1, at + |up[0].chunk.pcm| / 2, up[1..], conn, flush, next);
      assert (up + [EndMessage(flush)])[1..] == up[1..] + [EndMessage(flush)];
    }
  }

  lemma {:induction false} FlowsSame(sequence: nat, at: nat, up: seq<ClientMessage>, conn: Connection, next: Connection)
    requires Flows(sequence, at, up, conn)
    requires next.sequence == conn.sequence && next.expected == conn.expected && next.open == conn.open
    ensures Flows(sequence, at, up, next)
    decreases |up|
  {
    if up != [] && up[0].AudioMessage? {
      FlowsSame(sequence + 1, at + |up[0].chunk.pcm| / 2, up[1..], conn, next);
    }
  }

  /** One look of the iterator, seen from what is on the way. */
  lemma FlowsIterate(sequence: nat, at: nat, up: seq<ClientMessage>, conn: Connection, reset: bool)
    requires Flows(sequence, at, up, conn) && conn.open && conn.hand.Some?
    ensures var y := OnIterate(conn, reset);
            exists sent :: y.up == conn.up + sent && Flows(sequence, at, up + sent, y)
  {
    var r := conn.hand.value;
    var y := OnIterate(conn, reset);
    var sent := Yields(conn.sequence, conn.expected, r, [], [reset]);
    assert y.up == conn.up + sent;
    if r.AudioRequest? && sent != [] {
      FlowsAudio(sequence, at, up, conn, AudioChunk(conn.sequence, r.start, r.pcm), y);
      assert sent == [AudioMessage(AudioChunk(conn.sequence, r.start, r.pcm))];
    } else {
      FlowsEnd(sequence, at, up, conn, if r.EndRequest? then r.flush else false, y);
      assert sent == [] || sent == [EndMessage(r.flush)];
      assert up + [] == up;
    }
  }

  lemma IterateTransit(conn: Connection, reset: bool)
    requires Transit(conn)
    ensures Transit(OnIterate(conn, reset))
  {
    IterateKeeps(conn, reset);
    if conn.open && conn.hand.Some? {
      hide OnIterate, Flows;
      var x := conn.sl.x;
      if !conn.started {
        FlowsIterate(0, conn.first, conn.up[1..], conn, reset);
        IterateTail(conn, reset);
      } else if x.reader != Failed {
        FlowsIterate(x.s.expectedSequence, x.s.expectedInput, conn.up, conn, reset);
        IterateTail(conn, reset);
      }
    }
  }

  lemma IterateTail(conn: Connection, reset: bool)
    requires conn.open && conn.hand.Some?
    ensures forall sent | OnIterate(conn, reset).up == conn.up + sent ::
              conn.up != [] ==> OnIterate(conn, reset).up[0] == conn.up[0]
                                && OnIterate(conn, reset).up[1..] == conn.up[1..] + sent
  {
    hide OnIterate;
  }

  // ---- The server ----

  /** Without a message nothing changes about what the reader expects. */
  lemma UnpromptedKeeps(m: Model, maxChunk: nat, sl: Slice, step: StreamMachine.Step)
    requires Unprompted(step)
    ensures var x, y := sl.x, StepSlice(m, maxChunk, sl, step).x;
            && y.s.expectedSequence == x.s.expectedSequence && y.s.expectedInput == x.s.expectedInput
            && y.mode == x.mode && (x.reader == Failed ==> y.reader == Failed)
  {
    match step {
      case Serve(e) =>
        EventKeeps(maxChunk, sl.closing, sl.x, e);
        hide React;
      case TakeStep => TakeKeepsIntake(sl.x); hide TakeFrom, Take;
      case CommitStep =>
        if sl.flight.Some? && sl.flight.value.stage.Computed? {
          var Flight(work, Computed(pcm, updated)) := sl.flight.value;
          CommitKeepsIntake(sl.x, work, pcm, updated, sl.closing);
          hide CommitTo, CommitWakes;
        }
      case _ => hide Pcm.Encode;
    }
  }

  lemma EventKeeps(maxChunk: nat, closing: bool, x: Stream, e: Event)
    requires !e.Audio? && !e.End?
    ensures var y := React(maxChunk, closing, x, e).x;
            && y.s.expectedSequence == x.s.expectedSequence && y.s.expectedInput == x.s.expectedInput
            && y.mode == x.mode && (x.reader == Failed ==> y.reader == Failed)
  {
    hide Queued;
  }

  lemma TakeKeepsIntake(x: Stream)
    ensures var y := TakeFrom(x);
            && y.s.expectedSequence == x.s.expectedSequence && y.s.expectedInput == x.s.expectedInput
            && y.mode == x.mode && y.reader == x.reader
  {
  }

  lemma CommitKeepsIntake(x: Stream, work: ModelWork, pcm: seq<Byte>, updated: StreamCaches, closing: bool)
    ensures var y := CommitTo(x, work, pcm, updated, closing);
            && y.s.expectedSequence == x.s.expectedSequence && y.s.expectedInput == x.s.expectedInput
            && y.mode == x.mode && y.reader == x.reader
  {
    hide Sessions.Audio;
  }

  lemma AudioTaken(maxChunk: nat, closing: bool, x: Stream, chunk: AudioChunk)
    requires x.reader == Reading && x.mode == Sending && InPlace(x.s, chunk)
    ensures var y := React(maxChunk, closing, x, Audio(chunk)).x;
            y.reader == Failed
            || (y.mode == Sending && y.s.expectedSequence == x.s.expectedSequence + 1
                && y.s.expectedInput == x.s.expectedInput + |chunk.pcm| / 2)
  {
    AcceptedWhen(maxChunk, x.s, chunk);
    hide Accept, Samples, FullHops, Rest, WholeHops;
  }

  lemma EndTaken(maxChunk: nat, closing: bool, x: Stream, flush: bool)
    requires x.reader == Reading && x.mode == Sending
    ensures var y := React(maxChunk, closing, x, End(flush)).x;
            y.s.expectedSequence == x.s.expectedSequence && y.s.expectedInput == x.s.expectedInput
  {
    hide Rechunker.FlushPartial;
  }

  lemma ServedTransit(w: World, conn: Connection, e: Event)
    requires Transit(conn) && conn.started && conn.up != [] && conn.sl.x.reader == Reading
    requires match conn.up[0]
             case StartMessage(_) => true
             case AudioMessage(chunk) => e == Audio(chunk)
             case EndMessage(flush) => e == End(flush)
    ensures Transit(Served(w, conn, e))
  {
    var x, y := conn.sl.x, Served(w, conn, e);
    match conn.up[0] {
      case AudioMessage(chunk) =>
        AudioTaken(w.server.maxChunk, conn.sl.closing, x, chunk);
        hide React;
        if y.sl.x.reader != Failed {
          FlowsSame(y.sl.x.s.expectedSequence, y.sl.x.s.expectedInput, y.up, conn, y);
        }
      case EndMessage(flush) =>
        EndTaken(w.server.maxChunk, conn.sl.closing, x, flush);
        hide React;
      case _ =>
    }
  }

  lemma ServerReadsTransit(w: World, fed: seq<Byte>, conn: Connection)
    requires Transit(conn) && ClientSide(fed, conn)
    ensures Transit(OnServerReads(w, conn))
  {
    if conn.up != [] {
      if !conn.started {
        UpTail(fed, conn.first, conn.up);
        var y := OnServerReads(w, conn);
        assert y == conn.(up := conn.up[1..], started := true, sl := OpenedStream(w, conn.first));
        hide UpOk, StartsAt, RequestOk, OnServerReads;
        FlowsSame(0, conn.first, y.up, conn, y);
      } else if conn.sl.x.reader == Reading {
        hide Served, Flows, UpOk, StartsAt;
        match conn.up[0] {
          case StartMessage(_) => ServedTransit(w, conn, Violation(FAILED_PRECONDITION));
          case AudioMessage(chunk) => ServedTransit(w, conn, Audio(chunk));
          case EndMessage(flush) => ServedTransit(w, conn, End(flush));
        }
      } else {
        hide Flows, StepSlice;
      }
    }
  }

  // ---- Every move ----

  predicate OnTheWay(z: Loop) {
    z.worker.Connected? ==> Transit(z.worker.conn)
  }

  lemma SameTransit(conn: Connection, next: Connection)
    requires Transit(conn)
    requires next == conn.(hand := next.hand, read := next.read, progress := next.progress)
    ensures Transit(next)
  {
    hide Flows;
    var x := conn.sl.x;
    if !conn.started {
      if conn.up != [] {
        FlowsSame(0, conn.first, conn.up[1..], conn, next);
      }
    } else if x.reader != Failed && x.mode == Sending {
      FlowsSame(x.s.expectedSequence, x.s.expectedInput, conn.up, conn, next);
    }
  }

  lemma ActsTransit(w: World, conn: Connection, step: StreamMachine.Step)
    requires Transit(conn) && conn.started && Unprompted(step)
    ensures Transit(conn.(sl := StepSlice(SoloModel(w.server.net), w.server.maxChunk, conn.sl, step)))
  {
    var next := conn.(sl := StepSlice(SoloModel(w.server.net), w.server.maxChunk, conn.sl, step));
    UnpromptedKeeps(SoloModel(w.server.net), w.server.maxChunk, conn.sl, step);
    hide Flows, StepSlice, Unprompted;
    var x := conn.sl.x;
    if x.reader != Failed && x.mode == Sending {
      FlowsSame(x.s.expectedSequence, x.s.expectedInput, conn.up, conn, next);
    }
  }

  lemma DialTransit(w: World, hex: Text, items: seq<(Text, Text)>, first: Request)
    requires first.AudioRequest?
    ensures Transit(Dial(w, hex, items, first))
  {
    hide BuildMetadata, ClientStart, OpenedStream;
  }

  lemma CallTransit(w: World, z: Loop, conn: Connection, move: Move)
    requires Transit(conn) && ClientSide(z.plugin.h.fed, conn) && CallMove(move)
    ensures Transit(Moved(w, z, conn, move))
  {
    hide Transit, ClientSide, OnIterate, OnServerReads, StepSlice, Unprompted;
    match move {
      case Iterate => IterateTransit(conn, z.reset);
      case GetRequest =>
        if z.queue != [] {
          SameTransit(conn, conn.(hand := Some(z.queue[0])));
        }
      case ServerReads => ServerReadsTransit(w, z.plugin.h.fed, conn);
      case ServerActs(step) =>
        if conn.started && Unprompted(step) {
          ActsTransit(w, conn, step);
        }
      case _ =>
    }
  }

  lemma ReadTransit(w: World, z: Loop, conn: Connection)
    requires z.worker == Connected(conn) && Transit(conn)
    ensures OnTheWay(OnClientReads(w, z, conn))
  {
    hide Transit, Check, ResponseOf, ProcessorRuns.Step;
    if conn.read < |conn.sl.x.h.delivered| {
      var r := ResponseOf(conn.sl.x.h.delivered[conn.read]);
      if r.Some? && Check(conn.progress, r.value).Continue? {
        SameTransit(conn, conn.(read := conn.read + 1, progress := Check(conn.progress, r.value).next));
      }
    }
  }

  /** All other moves leave the call alone or end it. */
  lemma OtherTransit(w: World, z: Loop, move: Move)
    requires OnTheWay(z) && !CallMove(move) && !move.Announce? && !move.ClientReads?
    ensures OnTheWay(ClosedLoop.Step(w, z, move))
  {
    hide Transit, ProcessorRuns.Step;
  }

  lemma MoveTransit(w: World, z: Loop, move: Move)
    requires LoopOk(w, z) && OnTheWay(z)
    ensures OnTheWay(ClosedLoop.Step(w, z, move))
  {
    hide *;
    WayMeans(z);
    WayMeans(ClosedLoop.Step(w, z, move));
    MoveCases(w, z, move);
    if CallMove(move) {
      if z.worker.Connected? {
        LoopParts(w, z);
        ConnectedParts(w, z, z.worker.conn);
        CallTransit(w, z, z.worker.conn, move);
        CallMoveIs(w, z, move);
      }
    } else if move.Announce? {
      if z.worker.Numbered? && z.worker.first.AudioRequest? && HexDigits(move.hex) {
        DialTransit(w, move.hex, move.items, z.worker.first);
        AnnounceIs(w, z, move.hex, move.items);
      }
    } else if move.ClientReads? {
      if z.worker.Connected? {
        ReadTransit(w, z, z.worker.conn);
      }
    } else {
      OtherTransit(w, z, move);
    }
  }

  lemma WayMeans(z: Loop)
    ensures OnTheWay(z) <==> (z.worker.Connected? ==> Transit(z.worker.conn))
  {
    hide Transit;
  }

  lemma MoveCases(w: World, z: Loop, move: Move)
    ensures var y := ClosedLoop.Step(w, z, move);
            && (CallMove(move) && !z.worker.Connected? ==> y == z)
            && (move.Announce? && !(z.worker.Numbered? && z.worker.first.AudioRequest? && HexDigits(move.hex)) ==>
                  y == z)
            && (move.ClientReads? ==> y == if z.worker.Connected? then OnClientReads(w, z, z.worker.conn) else z)
            && (move.Announce? ==> move == Announce(move.hex, move.items))
  {
    hide OnClientReads, ClosedLoop.Act, Dial, OnIterate, OnServerReads, StepSlice, HexDigits;
  }

  lemma {:induction false} RunTransit(w: World, moves: seq<Move>)
    requires RowLocal(w.server.net)
    ensures OnTheWay(ClosedLoop.Run(w, moves))
  {
    if moves != [] {
      var front := moves[..|moves| - 1];
      RunTransit(w, front);
      RunOk(w, front);
      MoveTransit(w, ClosedLoop.Run(w, front), moves[|moves| - 1]);
      hide OnTheWay, LoopOk, ClosedLoop.Step;
    }
  }

  /** In every run of the whole loop: the next message a server stream reads is a chunk with just the sequence and
      offset it expects, or the end; never a second start, nothing after the end. So the server refuses a chunk of
      this client only for its payload or for want of room. */
  lemma NothingMisplaced(w: World, moves: seq<Move>)
    requires RowLocal(w.server.net)
    ensures var z := ClosedLoop.Run(w, moves);
            z.worker.Connected? && z.worker.conn.started && z.worker.conn.up != []
            && z.worker.conn.sl.x.reader == Reading ==>
              var x, message := z.worker.conn.sl.x, z.worker.conn.up[0];
              && x.mode == Sending && !message.StartMessage?
              && (message.AudioMessage? ==> InPlace(x.s, message.chunk))
  {
    RunTransit(w, moves);
    hide ClosedLoop.Run;
  }

  // ---- A request arrives ----

  /** A new call up to its first chunk: the StartStream opens the stream, the iterator sends its first request, and
      the server takes it in. */
  function FirstCall(w: World, hex: Text, first: Request): Connection
    requires first.AudioRequest?
  {
    OnServerReads(w, OnIterate(OnServerReads(w, Dial(w, hex, [], first)), false))
  }

  lemma StartArrives(w: World, hex: Text, first: Request)
    requires first.AudioRequest? && HexDigits(hex)
    ensures OnServerReads(w, Dial(w, hex, [], first))
            == Connection(first.start, 0, first.start, Some(first), true, [], true, OpenedStream(w, first.start), 0,
                          Progress(false, 0, first.start, []))
  {
    StartAlwaysPasses(first.start, hex, []);
    NothingEncodes();
    hide StartOk, ClientStart, BuildMetadata, OpenedStream, HexDigits, FromItems, Replaced, ItemHeld;
  }

  lemma NothingEncodes()
    ensures BuildMetadata([]).Ok?
  {
  }

  lemma FirstChunkArrives(w: World, hex: Text, first: Request)
    requires first.AudioRequest? && HexDigits(hex) && WholeSamples(first.pcm)
    requires |first.pcm| / 2 <= w.server.maxChunk && |first.pcm| / 2 <= 256 * w.inputCap
    ensures var conn := FirstCall(w, hex, first);
            conn.first == first.start && conn.sl.x.h.input == Samples(first.pcm) && !conn.sl.x.s.cancelled
  {
    StartArrives(w, hex, first);
    hide Dial, HexDigits;
    var begun := OnServerReads(w, Dial(w, hex, [], first));
    var message := AudioMessage(AudioChunk(0, first.start, first.pcm));
    var sent := OnIterate(begun, false);
    assert sent.up == [] + [message] && sent.sl == begun.sl && sent.started;
    FirstChunkFits(w.server.maxChunk, first.start, SoloModel(w.server.net).init, w.inputCap, w.outputCap, first.pcm);
    hide OnIterate, Accept, Samples;
  }

  /** The moves that bring the request at the head of the queue to the server. */
  function Arrival(hex: Text): seq<Move> {
    [Pop, Number, Announce(hex, []), ServerReads, Iterate, ServerReads]
  }

  lemma RunTwo(w: World, moves: seq<Move>, a: Move, b: Move)
    ensures ClosedLoop.Run(w, moves + [a, b]) == ClosedLoop.Step(w, ClosedLoop.Step(w, ClosedLoop.Run(w, moves), a), b)
  {
    assert (moves + [a, b])[..|moves| + 1] == moves + [a] && (moves + [a])[..|moves|] == moves;
    hide ClosedLoop.Step;
  }

  lemma RunSix(w: World, moves: seq<Move>, hex: Text)
    ensures ClosedLoop.Run(w, moves + Arrival(hex))
            == ClosedLoop.Step(w, ClosedLoop.Step(w, ClosedLoop.Step(w, ClosedLoop.Step(w, ClosedLoop.Step(w,
                 ClosedLoop.Step(w, ClosedLoop.Run(w, moves), Pop), Number), Announce(hex, [])), ServerReads), Iterate),
                 ServerReads)
  {
    var a, b, d: seq<Move> := [Pop, Number], [Announce(hex, []), ServerReads], [Iterate, ServerReads];
    assert moves + Arrival(hex) == moves + a + b + d;
    hide ClosedLoop.Step, ClosedLoop.Run;
    RunTwo(w, moves, Pop, Number);
    RunTwo(w, moves + a, Announce(hex, []), ServerReads);
    RunTwo(w, moves + a + b, Iterate, ServerReads);
  }

  lemma NumberedNext(w: World, z: Loop)
    requires z.worker.Waiting? && z.queue != [] && z.queue[0].AudioRequest?
    ensures var y := ClosedLoop.Step(w, ClosedLoop.Step(w, z, Pop), Number);
            y.worker == Numbered(z.queue[0]) && !y.reset && y.generation == z.generation + 1
  {
  }

  lemma CallNext(w: World, z: Loop, hex: Text, first: Request)
    requires z.worker == Numbered(first) && first.AudioRequest? && HexDigits(hex) && !z.reset
    ensures var y := ClosedLoop.Step(w, ClosedLoop.Step(w, ClosedLoop.Step(w, ClosedLoop.Step(w, z, Announce(hex, [])),
                                     ServerReads), Iterate), ServerReads);
            y.worker == Connected(FirstCall(w, hex, first)) && y.generation == z.generation
  {
    AnnounceIs(w, z, hex, []);
    hide Dial, OnServerReads, OnIterate, ProcessorRuns.Step, HexDigits, ClosedLoop.Act;
  }

  /** Audio that waits can always reach the server: from every run in which the worker waits and the head of the
      request queue is audio, these moves bring exactly it, as the beginning of a new generation, into a stream of
      the server, whatever resets came before; provided that it is whole samples and within the server's limits. */
  lemma WaitingAudioArrives(w: World, moves: seq<Move>, hex: Text)
    requires HexDigits(hex)
    requires var z := ClosedLoop.Run(w, moves);
             && z.worker.Waiting? && z.queue != [] && z.queue[0].AudioRequest? && WholeSamples(z.queue[0].pcm)
             && |z.queue[0].pcm| / 2 <= w.server.maxChunk && |z.queue[0].pcm| / 2 <= 256 * w.inputCap
    ensures var z, y := ClosedLoop.Run(w, moves), ClosedLoop.Run(w, moves + Arrival(hex));
            && y.worker.Connected? && y.generation == z.generation + 1
            && y.worker.conn.first == z.queue[0].start
            && y.worker.conn.sl.x.h.input == Samples(z.queue[0].pcm) && !y.worker.conn.sl.x.s.cancelled
  {
    hide *;
    var z := ClosedLoop.Run(w, moves);
    RunSix(w, moves, hex);
    NumberedNext(w, z);
    CallNext(w, ClosedLoop.Step(w, ClosedLoop.Step(w, z, Pop), Number), hex, z.queue[0]);
    FirstChunkArrives(w, hex, z.queue[0]);
  }

  lemma TakenFrame(w: World, z: Loop, frame: Processor.Frame)
    requires LoopOk(w, z) && z.plugin.mid.None? && z.plugin.p.enabled && !z.plugin.p.closed
    requires ProcessorRuns.FrameOk(w.settings, frame)
    ensures var y := ClosedLoop.Step(w, z, Move.Frame(frame));
            && y.pending == Some(AudioRequest(z.plugin.p.input, frame.pcm)) && y.plugin.mid == Some(frame.count)
            && y == z.(plugin := y.plugin, pending := y.pending)
            && y.plugin.p.metrics.overflows == z.plugin.p.metrics.overflows
  {
    LoopGood(w, z);
    hide LoopOk, ProcessorRuns.Cursors;
    ProcessorMap.BeginMoves(w.settings, z.plugin, frame);
    hide ProcessorRuns.OnBegin, ProcessorRuns.FrameOk;
  }

  lemma LoopGood(w: World, z: Loop)
    requires LoopOk(w, z)
    ensures ProcessorRuns.Cursors(w.settings, z.plugin)
  {
    LoopParts(w, z);
    hide LoopOk, QueueOk, RequestOk, WorkerOk;
    ProcessorAlignment.GoodParts(w.settings, z.plugin);
  }

  lemma SentNext(w: World, z: Loop, ok: bool)
    requires z.pending.Some? && z.plugin.mid.Some?
    ensures var y := ClosedLoop.Step(w, z, Send(ok));
            && y == z.(plugin := y.plugin, pending := None,
                       queue := if ok then z.queue + [z.pending.value] else z.queue)
            && (if ok then y.plugin == z.plugin
                else
                  && y.plugin.p.segs == [] && y.plugin.mid == z.plugin.mid
                  && y.plugin.p.metrics.overflows == z.plugin.p.metrics.overflows + 1)
  {
  }

  /** What becomes of a frame that an enabled processor takes in: its own interval joins the end of the request
      queue, or, if the queue refuses it, that is counted once and all enhanced audio is thrown away. */
  lemma FrameQueued(w: World, moves: seq<Move>, frame: Processor.Frame, ok: bool)
    requires RowLocal(w.server.net) && ProcessorRuns.FrameOk(w.settings, frame)
    requires var z := ClosedLoop.Run(w, moves); z.plugin.mid.None? && z.plugin.p.enabled && !z.plugin.p.closed
    ensures var z, y := ClosedLoop.Run(w, moves), ClosedLoop.Run(w, moves + [Move.Frame(frame), Send(ok)]);
            && y.pending.None? && y.plugin.mid == Some(frame.count)
            && y.queue == z.queue + (if ok then [AudioRequest(z.plugin.p.input, frame.pcm)] else [])
            && y.plugin.p.metrics.overflows == z.plugin.p.metrics.overflows + (if ok then 0 else 1)
            && (!ok ==> y.plugin.p.segs == [])
  {
    hide *;
    var z := ClosedLoop.Run(w, moves);
    RunOk(w, moves);
    RunTwo(w, moves, Move.Frame(frame), Send(ok));
    TakenFrame(w, z, frame);
    SentNext(w, ClosedLoop.Step(w, z, Move.Frame(frame)), ok);
    assert z.queue + [] == z.queue;
  }

  /** The call can go on: nothing is in the iterator's hand or on the way, the server's reader waits, and the head
      of the request queue is the next audio, whole samples that the server has room for. */
  predicate NextIsThere(w: World, z: Loop) {
    && z.worker.Connected? && z.queue != [] && z.queue[0].AudioRequest? && !z.reset
    && var conn, r := z.worker.conn, z.queue[0];
       var x := conn.sl.x;
       && conn.open && conn.started && conn.hand.None? && conn.up == [] && x.reader == Reading && x.mode == Sending
       && r.start == conn.expected && WholeSamples(r.pcm) && |r.pcm| / 2 <= w.server.maxChunk
       && |x.s.rechunk.pending| + |r.pcm| / 2 <= x.s.rechunk.bound
  }

  lemma NextTaken(w: World, conn: Connection, r: Request)
    requires Transit(conn) && conn.open && conn.started && conn.up == [] && r.AudioRequest? && r.start == conn.expected
    requires conn.sl.x.reader == Reading && conn.sl.x.mode == Sending
    requires WholeSamples(r.pcm) && |r.pcm| / 2 <= w.server.maxChunk
    requires |conn.sl.x.s.rechunk.pending| + |r.pcm| / 2 <= conn.sl.x.s.rechunk.bound
    ensures var after := OnServerReads(w, OnIterate(conn.(hand := Some(r)), false));
            after.up == [] && after.hand.None? && after.sl.x.h.input == conn.sl.x.h.input + Samples(r.pcm)
  {
    var chunk := AudioChunk(conn.sequence, r.start, r.pcm);
    var sent := OnIterate(conn.(hand := Some(r)), false);
    assert sent.up == [AudioMessage(chunk)] && sent.sl == conn.sl && sent.started;
    AcceptedWhen(w.server.maxChunk, conn.sl.x.s, chunk);
    hide OnIterate, Accept, Samples, FullHops, Rest, WholeHops;
  }

  lemma NextMoves(w: World, z: Loop)
    requires z.worker.Connected? && z.worker.conn.open && z.worker.conn.hand.None? && z.queue != [] && !z.reset
    ensures var conn := z.worker.conn;
            ClosedLoop.Step(w, ClosedLoop.Step(w, ClosedLoop.Step(w, z, GetRequest), Iterate), ServerReads)
            == z.(queue := z.queue[1..],
                  worker := Connected(OnServerReads(w, OnIterate(conn.(hand := Some(z.queue[0])), false))))
  {
    hide OnIterate, OnServerReads;
  }

  lemma RunThree(w: World, moves: seq<Move>, a: Move, b: Move, d: Move)
    ensures ClosedLoop.Run(w, moves + [a, b, d])
            == ClosedLoop.Step(w, ClosedLoop.Step(w, ClosedLoop.Step(w, ClosedLoop.Run(w, moves), a), b), d)
  {
    RunTwo(w, moves, a, b);
    assert (moves + [a, b, d])[..|moves| + 2] == moves + [a, b];
    hide ClosedLoop.Step;
  }

  /** And so does the audio after it: in every run, when the call can go on, the next request is taken off the
      queue and its samples join what the server has taken in; sequence and offset are right because nothing is out
      of place. */
  lemma NextAudioArrives(w: World, moves: seq<Move>)
    requires RowLocal(w.server.net) && NextIsThere(w, ClosedLoop.Run(w, moves))
    ensures var z, y := ClosedLoop.Run(w, moves), ClosedLoop.Run(w, moves + [GetRequest, Iterate, ServerReads]);
            && y.queue == z.queue[1..] && y.worker.Connected? && y.worker.conn.up == []
            && y.worker.conn.sl.x.h.input == z.worker.conn.sl.x.h.input + Samples(z.queue[0].pcm)
  {
    var z := ClosedLoop.Run(w, moves);
    RunTransit(w, moves);
    RunThree(w, moves, GetRequest, Iterate, ServerReads);
    assert Transit(z.worker.conn);
    hide ClosedLoop.Run, ClosedLoop.Step, Transit, OnServerReads, OnIterate, Samples, WholeSamples;
    NextMoves(w, z);
    NextTaken(w, z.worker.conn, z.queue[0]);
  }
}

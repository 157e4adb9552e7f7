/** What leaves the processor, told from the processor's own input: every sample emitted in every run of plugin,
    transport and server together. */
module EmittedAudio {
  import opened Wrappers
  import opened Pcm
  import opened Rechunker
  import opened Caches
  import opened Pipeline
  import opened Sessions
  import opened StreamMachine
  import opened Reference
  import opened StreamInvariants
  import opened ServerMachine
  import opened ServerTheorems
  import opened ServerOutcomes
  import opened Timeline
  import opened Processor
  import opened ProcessorRuns
  import opened ProcessorAlignment
  import opened Utf8
  import opened Handshake
  import opened Transport
  import opened Composition
  import opened ClosedLoop
  import opened EndToEnd

  // ---- Audio as one signal ----

  /** The bytes of all audio, one event after another. */
  function PcmOf(events: seq<OutputEvent>): seq<Byte> {
    if events == [] then [] else (if events[0].OutputAudio? then events[0].pcm else []) + PcmOf(events[1..])
  }

  /** In continuous audio each event lies at its own offset. */
  lemma {:induction false} PcmOfAt(events: seq<OutputEvent>, at: int, i: nat, k: nat)
    requires Continuous(events, at) && i < |events| && events[i].OutputAudio? && 2 * k + 1 < |events[i].pcm|
    ensures var off := events[i].start - at + k;
            0 <= off && 2 * off + 1 < |PcmOf(events)| && SampleAt(PcmOf(events), off) == SampleAt(events[i].pcm, k)
  {
    var head, rest := events[0].pcm, PcmOf(events[1..]);
    assert PcmOf(events) == head + rest;
    if i > 0 {
      PcmOfAt(events[1..], at + events[0].valid, i - 1, k);
    }
  }

  // ---- Every delivery was handed over by the call of its generation ----

  type Handed = seq<(int, seq<Byte>)>

  /** The calls so far: call g is number g - 1. */
  function Calls(z: Loop): seq<Connection> {
    z.past + (if z.worker.Connected? then [z.worker.conn] else [])
  }

  function HandedOf(calls: seq<Connection>): seq<Handed> {
    seq(|calls|, k requires 0 <= k < |calls| => calls[k].progress.handed)
  }

  predicate Known(d: Delivery, hs: seq<Handed>) {
    1 <= d.generation <= |hs| && (d.start, d.pcm) in hs[d.generation - 1]
  }

  predicate AllKnown(ds: seq<Delivery>, hs: seq<Handed>) {
    forall i | 0 <= i < |ds| :: Known(ds[i], hs)
  }

  predicate Grown(hs: seq<Handed>, hs': seq<Handed>) {
    |hs| <= |hs'| && forall k | 0 <= k < |hs| :: hs[k] <= hs'[k]
  }

  lemma KnownGrows(ds: seq<Delivery>, hs: seq<Handed>, hs': seq<Handed>)
    requires AllKnown(ds, hs) && Grown(hs, hs')
    ensures AllKnown(ds, hs')
  {
    forall i | 0 <= i < |ds| ensures Known(ds[i], hs') {
      assert Known(ds[i], hs);
      assert hs[ds[i].generation - 1] <= hs'[ds[i].generation - 1];
    }
  }

  lemma KnownNext(ds: seq<Delivery>, d: Delivery, hs: seq<Handed>)
    requires AllKnown(ds, hs) && Known(d, hs)
    ensures AllKnown(ds + [d], hs)
  {
    hide Known;
  }

  /** What one generation delivered to the processor, in order. */
  function By(ds: seq<Delivery>, g: nat): Handed {
    if ds == [] then []
    else
      var last := ds[|ds| - 1];
      By(ds[..|ds| - 1], g) + (if last.generation == g then [(last.start, last.pcm)] else [])
  }

  function HandedBy(hs: seq<Handed>, g: nat): Handed {
    if 1 <= g <= |hs| then hs[g - 1] else []
  }

  /** The deliveries are what the calls handed over: no other, none twice, none left out. */
  ghost predicate Exact(ds: seq<Delivery>, hs: seq<Handed>) {
    forall g: nat :: By(ds, g) == HandedBy(hs, g)
  }

  /** A move hands nothing over, opens a call that has handed over nothing yet, or hands one piece of audio of the
      last call over, which is delivered to the processor under the number of that call. */
  predicate HandsOver(ds: seq<Delivery>, ds': seq<Delivery>, hs: seq<Handed>, hs': seq<Handed>) {
    || (ds' == ds && (hs' == hs || hs' == hs + [[]]))
    || (ds' != [] && ds'[..|ds'| - 1] == ds && hs != []
        && var d := ds'[|ds'| - 1];
           d.generation == |hs| && hs' == hs[..|hs| - 1] + [hs[|hs| - 1] + [(d.start, d.pcm)]])
  }

  lemma ExactAt(ds: seq<Delivery>, hs: seq<Handed>, g: nat)
    requires Exact(ds, hs)
    ensures By(ds, g) == HandedBy(hs, g)
  {
    hide By, HandedBy;
  }

  lemma HandedNext(hs: seq<Handed>, piece: (int, seq<Byte>), g: nat)
    ensures HandedBy(hs + [[]], g) == HandedBy(hs, g)
    ensures hs != [] ==>
              HandedBy(hs[..|hs| - 1] + [hs[|hs| - 1] + [piece]], g)
              == HandedBy(hs, g) + (if g == |hs| then [piece] else [])
  {
  }

  lemma ExactNext(ds: seq<Delivery>, ds': seq<Delivery>, hs: seq<Handed>, hs': seq<Handed>)
    requires Exact(ds, hs) && HandsOver(ds, ds', hs, hs')
    ensures Exact(ds', hs')
  {
    hide By, HandedBy;
    forall g: nat ensures By(ds', g) == HandedBy(hs', g) {
      ExactAt(ds, hs, g);
      ByNext(ds, ds', g);
      HandedNext(hs, if ds' == [] then (0, []) else (ds'[|ds'| - 1].start, ds'[|ds'| - 1].pcm), g);
      hide Exact;
    }
  }

  lemma ByNext(ds: seq<Delivery>, ds': seq<Delivery>, g: nat)
    requires ds' == ds || (ds' != [] && ds'[..|ds'| - 1] == ds)
    ensures ds' == ds ==> By(ds', g) == By(ds, g)
    ensures |ds'| == |ds| + 1 ==>
              var d := ds'[|ds|]; By(ds', g) == By(ds, g) + (if d.generation == g then [(d.start, d.pcm)] else [])
  {
  }

  lemma HandsOverGrows(ds: seq<Delivery>, ds': seq<Delivery>, hs: seq<Handed>, hs': seq<Handed>)
    requires HandsOver(ds, ds', hs, hs')
    ensures Grown(hs, hs')
    ensures ds' == ds || (ds' != [] && ds' == ds + [ds'[|ds|]] && Known(ds'[|ds|], hs'))
  {
    if ds' != ds {
      var d := ds'[|ds'| - 1];
      assert hs'[|hs| - 1][|hs[|hs| - 1]|] == (d.start, d.pcm);
    }
  }

  predicate Counted(z: Loop) {
    |Calls(z)| == if z.worker.Numbered? then z.generation - 1 else z.generation
  }

  ghost predicate PastOk(c: Config, fed: seq<Byte>, past: seq<Connection>) {
    forall k | 0 <= k < |past| :: ServerSide(c, fed, past[k])
  }

  ghost predicate HistoryOk(w: World, z: Loop) {
    && Counted(z)
    && PastOk(w.server, z.plugin.h.fed, z.past)
    && AllKnown(z.plugin.h.delivered, HandedOf(Calls(z)))
    && Exact(z.plugin.h.delivered, HandedOf(Calls(z)))
  }

  /** How a move changes what has been delivered, handed over and left behind. */
  predicate Moves(z: Loop, y: Loop) {
    && z.plugin.h.fed <= y.plugin.h.fed
    && (y.past == z.past || (z.worker.Connected? && y.past == z.past + [z.worker.conn]))
    && (Counted(z) ==>
          && Counted(y)
          && HandsOver(z.plugin.h.delivered, y.plugin.h.delivered, HandedOf(Calls(z)), HandedOf(Calls(y))))
  }

  lemma PastGrows(c: Config, fed: seq<Byte>, more: seq<Byte>, past: seq<Connection>)
    requires fed <= more && PastOk(c, fed, past)
    ensures PastOk(c, more, past)
  {
    forall k | 0 <= k < |past| ensures ServerSide(c, more, past[k]) {
      assert ServerSide(c, fed, past[k]);
      hide ServerSide;
      SidesGrow(c, fed, more, past[k]);
    }
  }

  lemma PastNext(c: Config, fed: seq<Byte>, past: seq<Connection>, conn: Connection)
    requires PastOk(c, fed, past) && ServerSide(c, fed, conn)
    ensures PastOk(c, fed, past + [conn])
  {
    hide ServerSide;
  }

  lemma HistoryParts(w: World, z: Loop)
    ensures HistoryOk(w, z) <==>
              Counted(z) && PastOk(w.server, z.plugin.h.fed, z.past)
                && AllKnown(z.plugin.h.delivered, HandedOf(Calls(z)))
                && Exact(z.plugin.h.delivered, HandedOf(Calls(z)))
  {
    hide Counted, PastOk, AllKnown, Exact, HandedOf, Calls;
  }

  lemma MovesParts(z: Loop, y: Loop)
    requires Moves(z, y) && Counted(z)
    ensures z.plugin.h.fed <= y.plugin.h.fed && Counted(y)
    ensures y.past == z.past || (z.worker.Connected? && y.past == z.past + [z.worker.conn])
    ensures HandsOver(z.plugin.h.delivered, y.plugin.h.delivered, HandedOf(Calls(z)), HandedOf(Calls(y)))
  {
    hide Counted, HandsOver, HandedOf, Calls;
  }

  lemma HistoryMoves(w: World, z: Loop, y: Loop)
    requires LoopOk(w, z) && HistoryOk(w, z) && Moves(z, y)
    ensures HistoryOk(w, y)
  {
    hide *;
    HistoryParts(w, z);
    MovesParts(z, y);
    var ds, hs := z.plugin.h.delivered, HandedOf(Calls(y));
    PastGrows(w.server, z.plugin.h.fed, y.plugin.h.fed, z.past);
    if y.past != z.past {
      LoopParts(w, z);
      ConnectedParts(w, z, z.worker.conn);
      SidesGrow(w.server, z.plugin.h.fed, y.plugin.h.fed, z.worker.conn);
      PastNext(w.server, y.plugin.h.fed, z.past, z.worker.conn);
    }
    HandsOverGrows(ds, y.plugin.h.delivered, HandedOf(Calls(z)), hs);
    ExactNext(ds, y.plugin.h.delivered, HandedOf(Calls(z)), hs);
    KnownGrows(ds, HandedOf(Calls(z)), hs);
    if y.plugin.h.delivered != ds {
      KnownNext(ds, y.plugin.h.delivered[|ds|], hs);
    }
    HistoryParts(w, y);
  }

  // ---- Every move is such a change ----

  lemma SameCalls(z: Loop, y: Loop)
    requires y.past == z.past && y.generation == z.generation && y.plugin.h.delivered == z.plugin.h.delivered
    requires z.plugin.h.fed <= y.plugin.h.fed
    requires y.worker == z.worker
             || (z.worker.Connected? && y.worker.Connected? && y.worker.conn.progress == z.worker.conn.progress)
             || (z.worker.Waiting? && y.worker.Popped?)
    ensures Moves(z, y)
  {
    assert HandedOf(Calls(y)) == HandedOf(Calls(z));
  }

  lemma PluginHistory(w: World, z: Loop, a: Action)
    requires !a.Response?
    ensures var y := ClosedLoop.Act(w, z, a);
            && y == z.(plugin := y.plugin) && z.plugin.h.fed <= y.plugin.h.fed
            && y.plugin.h.delivered == z.plugin.h.delivered
  {
    hide Insert, RawAppend, RawDiscard, RawRead, DiscardSegments, ReadFrom, Due;
  }

  lemma LocalMoves(w: World, z: Loop, a: Action)
    requires !a.Response?
    ensures Moves(z, ClosedLoop.Act(w, z, a))
  {
    PluginHistory(w, z, a);
    hide ClosedLoop.Act, Moves;
    SameCalls(z, ClosedLoop.Act(w, z, a));
  }

  lemma LeaveMoves(z: Loop, conn: Connection)
    requires z.worker == Connected(conn)
    ensures Moves(z, Leave(z, conn))
  {
    assert Calls(Leave(z, conn)) == Calls(z);
    assert Leave(z, conn).plugin == z.plugin;
  }

  lemma NumberMoves(w: World, z: Loop)
    requires z.worker.Popped?
    ensures Moves(z, ClosedLoop.Step(w, z, Number))
  {
    assert HandedOf(Calls(ClosedLoop.Step(w, z, Number))) == HandedOf(Calls(z));
  }

  lemma AnnounceMoves(w: World, z: Loop, hex: Text, items: seq<(Text, Text)>)
    requires z.worker.Numbered? && z.worker.first.AudioRequest? && HexDigits(hex)
    ensures Moves(z, ClosedLoop.Step(w, z, Announce(hex, items)))
  {
    var conn := Dial(w, hex, items, z.worker.first);
    PluginHistory(w, z.(worker := Connected(conn)), NewGeneration(z.generation, Connecting));
    DialIs(w, hex, items, z.worker.first);
    hide ClosedLoop.Act, Dial, HexDigits;
    assert Calls(z) == z.past;
    assert HandedOf(z.past + [conn]) == HandedOf(z.past) + [[]];
  }

  /** Reading audio: what is handed over is what is delivered. */
  lemma AudioMoves(w: World, z: Loop, conn: Connection, r: Response, next: Progress)
    requires z.worker == Connected(conn) && r.AudioResponse? && r.start >= 0
    requires Check(conn.progress, r) == Verdict.Continue(next)
    ensures Moves(z, ClosedLoop.Act(w, z.(worker := Connected(conn.(read := conn.read + 1, progress := next))),
                                    Response(z.generation, Clip(r.start), r.pcm)))
  {
    var after := conn.(read := conn.read + 1, progress := next);
    var a := Response(z.generation, r.start, r.pcm);
    var y := ClosedLoop.Act(w, z.(worker := Connected(after)), a);
    var d := Delivery(z.generation, r.start, r.pcm);
    DeliveryAdded(w.settings, z.plugin, a);
    hide ProcessorRuns.Step;
    assert Calls(y) == z.past + [after] && Calls(z) == z.past + [conn];
    assert next.handed == conn.progress.handed + [(r.start, r.pcm)];
    assert next.handed[|conn.progress.handed|] == (r.start, r.pcm);
    assert y.plugin.h.delivered[..|z.plugin.h.delivered|] == z.plugin.h.delivered;
    assert HandedOf(Calls(y))[|z.past|] == next.handed;
    assert HandedOf(Calls(z)) == HandedOf(z.past) + [conn.progress.handed];
    assert HandedOf(Calls(y)) == HandedOf(z.past) + [next.handed];
  }

  lemma DeliveryAdded(cfg: Settings, x: Plugin, a: Action)
    requires a.Response?
    ensures var y := ProcessorRuns.Step(cfg, x, a);
            y.h.fed == x.h.fed && y.h.delivered == x.h.delivered + [Delivery(a.generation, a.start, a.pcm)]
  {
    hide Receive;
  }

  lemma AcceptedMoves(w: World, z: Loop, conn: Connection, r: Response, next: Progress)
    requires z.worker == Connected(conn) && !r.AudioResponse? && Check(conn.progress, r) == Verdict.Continue(next)
    ensures Moves(z, ClosedLoop.Act(w, z.(worker := Connected(conn.(read := conn.read + 1, progress := next))),
                                    NewGeneration(z.generation, Active)))
  {
    var after := conn.(read := conn.read + 1, progress := next);
    var y := ClosedLoop.Act(w, z.(worker := Connected(after)), NewGeneration(z.generation, Active));
    PluginHistory(w, z.(worker := Connected(after)), NewGeneration(z.generation, Active));
    hide ClosedLoop.Act;
    assert next.handed == conn.progress.handed;
    assert HandedOf(Calls(y)) == HandedOf(Calls(z));
  }

  lemma ReadMoves(w: World, z: Loop, conn: Connection)
    requires RowLocal(w.server.net) && LoopOk(w, z) && z.worker == Connected(conn)
    ensures Moves(z, OnClientReads(w, z, conn))
  {
    hide *;
    NothingToRead(w, z, conn);
    SameCalls(z, z);
    if conn.read < |conn.sl.x.h.delivered| {
      LeaveMoves(z, conn);
      ReadPasses(w, z, conn);
      ReadCases(w, z, conn);
      var d, r := conn.sl.x.h.delivered[..conn.read + 1], ResponseOf(conn.sl.x.h.delivered[conn.read]);
      if r.Some? && Check(conn.progress, r.value).Continue? {
        var next := Check(conn.progress, r.value).next;
        VerdictMeans(conn.first, d, conn.progress, r.value, next);
        if r.value.AudioResponse? {
          AudioMoves(w, z, conn, r.value, next);
        } else {
          AcceptedMoves(w, z, conn, r.value, next);
        }
      }
    }
  }

  lemma FrameMoves(w: World, z: Loop, frame: Processor.Frame)
    ensures Moves(z, OnFrame(w, z, frame))
  {
    PluginHistory(w, z, BeginFrame(frame));
    hide ClosedLoop.Act, Moves;
    SameCalls(z, OnFrame(w, z, frame));
  }

  lemma SendMoves(w: World, z: Loop, ok: bool)
    ensures Moves(z, OnSend(w, z, ok))
  {
    PluginHistory(w, z.(pending := None), RefuseFrame);
    hide ClosedLoop.Act, Moves;
    SameCalls(z, OnSend(w, z, ok));
  }

  lemma CallMoves(w: World, z: Loop, move: Move)
    requires CallMove(move)
    ensures Moves(z, ClosedLoop.Step(w, z, move))
  {
    if z.worker.Connected? {
      CallMoveIs(w, z, move);
      MovedProgress(w, z, z.worker.conn, move);
    }
    hide Moves, OnIterate, OnServerReads, StepSlice, Moved;
    SameCalls(z, ClosedLoop.Step(w, z, move));
  }

  lemma MovedProgress(w: World, z: Loop, conn: Connection, move: Move)
    requires CallMove(move)
    ensures Moved(w, z, conn, move).progress == conn.progress
  {
    IterateKeeps(conn, z.reset);
    hide OnIterate, StepSlice, SoloModel;
  }

  lemma ProcessorMoves(w: World, z: Loop, move: Move)
    requires ProcessorMove(move)
    ensures Moves(z, ClosedLoop.Step(w, z, move))
  {
    SameCalls(z, z);
    hide Moves, ClosedLoop.Act, OnFrame, OnSend;
    match move {
      case Frame(frame) => FrameMoves(w, z, frame);
      case Send(ok) => SendMoves(w, z, ok);
      case Emit => LocalMoves(w, z, FinishFrame);
      case Toggle(value) => LocalMoves(w, z, SetEnabled(value));
      case BeginClose => LocalMoves(w, z, StartClose);
      case EndClose => LocalMoves(w, z, FinishClose);
      case _ =>
    }
  }

  lemma QueueMoves(w: World, z: Loop, move: Move)
    requires QueueMove(move) && !move.Number?
    ensures Moves(z, ClosedLoop.Step(w, z, move))
  {
    hide Moves;
    SameCalls(z, ClosedLoop.Step(w, z, move));
  }

  lemma WorkerMoves(w: World, z: Loop, move: Move)
    requires RowLocal(w.server.net) && LoopOk(w, z)
    requires move.Number? || move.Announce? || move.ClientReads? || move.LoseCall?
    ensures Moves(z, ClosedLoop.Step(w, z, move))
  {
    hide *;
    SameCalls(z, z);
    WorkerMoveIs(w, z, move);
    if move.Number? && z.worker.Popped? {
      NumberMoves(w, z);
    } else if move.Announce? && z.worker.Numbered? && z.worker.first.AudioRequest? && HexDigits(move.hex) {
      AnnounceMoves(w, z, move.hex, move.items);
    } else if move.ClientReads? && z.worker.Connected? {
      ReadMoves(w, z, z.worker.conn);
    } else if move.LoseCall? && z.worker.Connected? {
      LeaveMoves(z, z.worker.conn);
    }
  }

  lemma WorkerMoveIs(w: World, z: Loop, move: Move)
    requires move.Number? || move.Announce? || move.ClientReads? || move.LoseCall?
    ensures var y := ClosedLoop.Step(w, z, move);
            && (move.Number? && !z.worker.Popped? ==> y == z)
            && (move.Announce? && !(z.worker.Numbered? && z.worker.first.AudioRequest? && HexDigits(move.hex)) ==>
                  y == z)
            && (move.ClientReads? ==> y == if z.worker.Connected? then OnClientReads(w, z, z.worker.conn) else z)
            && (move.LoseCall? ==> y == if z.worker.Connected? then Leave(z, z.worker.conn) else z)
  {
    hide OnClientReads, Leave, ClosedLoop.Act, Dial;
  }

  lemma EachMove(w: World, z: Loop, move: Move)
    requires RowLocal(w.server.net) && LoopOk(w, z)
    ensures Moves(z, ClosedLoop.Step(w, z, move))
  {
    hide *;
    WhichMove(move);
    if ProcessorMove(move) {
      ProcessorMoves(w, z, move);
    } else if CallMove(move) {
      CallMoves(w, z, move);
    } else if QueueMove(move) && !move.Number? {
      QueueMoves(w, z, move);
    } else {
      WorkerMoves(w, z, move);
    }
  }

  lemma {:induction false} RunHistory(w: World, moves: seq<Move>)
    requires RowLocal(w.server.net)
    ensures LoopOk(w, ClosedLoop.Run(w, moves)) && HistoryOk(w, ClosedLoop.Run(w, moves))
  {
    hide LoopOk, ClosedLoop.Step, RowLocal, Moves;
    RunOk(w, moves);
    if moves != [] {
      var front := moves[..|moves| - 1];
      RunHistory(w, front);
      hide HistoryOk;
      EachMove(w, ClosedLoop.Run(w, front), moves[|moves| - 1]);
      HistoryMoves(w, ClosedLoop.Run(w, front), ClosedLoop.Run(w, moves));
    }
  }

  /** Nothing is lost between the client's checks and the processor: in every run, what was delivered to the processor
      under the number of a generation is exactly what the call of that generation handed over, in order. */
  lemma DeliveriesAreExact(w: World, moves: seq<Move>, g: nat)
    requires RowLocal(w.server.net)
    ensures var z := ClosedLoop.Run(w, moves);
            By(z.plugin.h.delivered, g) == if 1 <= g <= |Calls(z)| then Calls(z)[g - 1].progress.handed else []
  {
    hide *;
    RunHistory(w, moves);
    var z := ClosedLoop.Run(w, moves);
    HistoryParts(w, z);
    HandedAt(Calls(z));
    ExactAt(z.plugin.h.delivered, HandedOf(Calls(z)), g);
    HandedByIs(HandedOf(Calls(z)), g);
  }

  lemma HandedByIs(hs: seq<Handed>, g: nat)
    ensures HandedBy(hs, g) == if 1 <= g <= |hs| then hs[g - 1] else []
  {
  }

  // ---- What is emitted ----

  /** The pipeline's output on what the server accepted in a call. */
  function Output(c: Config, call: Connection): seq<Byte> {
    PcmOf(Expected(c, call.sl.x))
  }

  /** This is the sample for absolute index t of the pipeline's output in a call; and the pipeline ran on the raw
      input from the first sample of that call on. */
  predicate IsPipelineSample(c: Config, fed: seq<Byte>, call: Connection, t: int, v: Sample) {
    && call.sl.x.s.inputStart == call.first && AcceptedOk(fed, call.first, call.sl.x.h.input)
    && call.first <= t && 2 * (t - call.first) + 1 < |Output(c, call)|
    && SampleAt(Output(c, call), t - call.first) == v
  }

  /** Sample k of a chunk is the raw input at its own index, or what StreamingPipeline yields for that index on the
      raw input from the first sample of the chunk's generation on. */
  predicate SampleFrom(c: Config, fed: seq<Byte>, calls: seq<Connection>, e: Chunk, k: nat)
    requires e.Emitted? && 2 * k + 1 < |e.pcm|
  {
    var t, v := e.start + k, SampleAt(e.pcm, k);
    if e.enhanced then 1 <= e.generation <= |calls| && IsPipelineSample(c, fed, calls[e.generation - 1], t, v)
    else 2 * t + 1 < |fed| && SampleAt(fed, t) == v
  }

  predicate SampleForSample(c: Config, fed: seq<Byte>, calls: seq<Connection>, e: Chunk) {
    e.Emitted? ==>
      && |e.pcm| % 2 == 0 && 2 * e.start + |e.pcm| <= |fed|
      && forall k | 0 <= k < |e.pcm| / 2 :: SampleFrom(c, fed, calls, e, k)
  }

  lemma CallOk(w: World, z: Loop, g: nat)
    requires LoopOk(w, z) && HistoryOk(w, z) && 1 <= g <= |Calls(z)|
    ensures ServerSide(w.server, z.plugin.h.fed, Calls(z)[g - 1])
  {
    hide ServerSide, Good, AllKnown, Exact, HandedOf, QueueOk, ClientSide, SegsBelow, Counted;
  }

  lemma FindHanded(c: Config, fed: seq<Byte>, call: Connection, d: Delivery) returns (k: nat)
    requires HandedIsPipelineOfRaw(c, fed, call) && (d.start, d.pcm) in call.progress.handed
    ensures var x := call.sl.x;
            && x.s.inputStart == call.first && AcceptedOk(fed, call.first, x.h.input) && k < |Expected(c, x)|
            && Expected(c, x)[k].OutputAudio? && Expected(c, x)[k].start == d.start && Expected(c, x)[k].pcm == d.pcm
  {
    hide Expected, AcceptedOk;
    k :| 0 <= k < |call.progress.handed| && call.progress.handed[k] == (d.start, d.pcm);
  }

  lemma GivesMeans(d: Delivery, g: nat, t: int, v: Sample)
    requires Gives(d, g, t, v)
    ensures d.start <= t && 2 * (t - d.start) + 1 < |d.pcm| && SampleAt(d.pcm, t - d.start) == v
  {
  }

  /** A sample that a call handed over is the pipeline's. */
  lemma HandedSample(c: Config, fed: seq<Byte>, call: Connection, d: Delivery, t: int, v: Sample)
    requires RowLocal(c.net) && ServerSide(c, fed, call)
    requires (d.start, d.pcm) in call.progress.handed && Gives(d, d.generation, t, v)
    ensures IsPipelineSample(c, fed, call, t, v)
  {
    hide *;
    HandedExpected(c, fed, call);
    SoloModelSound(c.net);
    ExpectedContinuous(c, call.sl.x);
    GivesMeans(d, d.generation, t, v);
    var k := FindHanded(c, fed, call, d);
    PcmOfAt(Expected(c, call.sl.x), call.first, k, t - d.start);
    PipelineSample(c, fed, call, t, v);
  }

  lemma PipelineSample(c: Config, fed: seq<Byte>, call: Connection, t: int, v: Sample)
    requires call.sl.x.s.inputStart == call.first && AcceptedOk(fed, call.first, call.sl.x.h.input)
             && 0 <= t - call.first
    requires var out := PcmOf(Expected(c, call.sl.x));
             2 * (t - call.first) + 1 < |out| && SampleAt(out, t - call.first) == v
    ensures IsPipelineSample(c, fed, call, t, v)
  {
    hide AcceptedOk, PcmOf, Expected;
  }

  lemma ExpectedContinuous(c: Config, x: Stream)
    requires Sound(SoloModel(c.net))
    ensures Continuous(Expected(c, x), x.s.inputStart)
  {
    PipelineCovers(SoloModel(c.net), x.s.inputStart, x.h.input, x.mode);
    hide Continuous, Encoded, PipelineOutputs, Hops, Sound, SoloModel, Queued;
  }

  lemma FindDelivery(ds: seq<Delivery>, hs: seq<Handed>, g: nat, t: int, v: Sample) returns (d: Delivery)
    requires AllKnown(ds, hs) && Delivered(ds, g, t, v)
    ensures Gives(d, g, t, v) && d.generation == g && 1 <= g <= |hs| && (d.start, d.pcm) in hs[g - 1]
  {
    var i :| 0 <= i < |ds| && Gives(ds[i], g, t, v);
    assert Known(ds[i], hs);
    d := ds[i];
  }

  lemma HandedAt(calls: seq<Connection>)
    ensures |HandedOf(calls)| == |calls|
            && forall k | 0 <= k < |calls| :: HandedOf(calls)[k] == calls[k].progress.handed
  {
  }

  lemma DeliveredSample(w: World, z: Loop, g: nat, t: int, v: Sample)
    requires RowLocal(w.server.net) && LoopOk(w, z) && HistoryOk(w, z) && Delivered(z.plugin.h.delivered, g, t, v)
    ensures 1 <= g <= |Calls(z)| && IsPipelineSample(w.server, z.plugin.h.fed, Calls(z)[g - 1], t, v)
  {
    hide *;
    HistoryParts(w, z);
    HandedAt(Calls(z));
    var d := FindDelivery(z.plugin.h.delivered, HandedOf(Calls(z)), g, t, v);
    CallOk(w, z, g);
    HandedSample(w.server, z.plugin.h.fed, Calls(z)[g - 1], d, t, v);
  }

  lemma AlignedSample(h: ProcessorRuns.History, e: Chunk, k: nat)
    requires Aligned(h, e) && e.Emitted? && k < |e.pcm| / 2
    ensures |e.pcm| % 2 == 0 && 2 * e.start + |e.pcm| <= |h.fed|
    ensures e.enhanced ==> Delivered(h.delivered, e.generation, e.start + k, SampleAt(e.pcm, k))
    ensures !e.enhanced ==> SampleAt(e.pcm, k) == SampleAt(h.fed, e.start + k)
  {
    assert SampleAt(e.pcm, k) == SampleAt(e.pcm, k);
    hide Delivered;
  }

  lemma ChunkSamples(w: World, z: Loop, e: Chunk)
    requires RowLocal(w.server.net) && LoopOk(w, z) && HistoryOk(w, z) && Aligned(z.plugin.h, e)
    ensures SampleForSample(w.server, z.plugin.h.fed, Calls(z), e)
  {
    hide HistoryOk, LoopOk, RowLocal, IsPipelineSample, Calls, Delivered;
    if e.Emitted? {
      forall k | 0 <= k < |e.pcm| / 2 ensures SampleFrom(w.server, z.plugin.h.fed, Calls(z), e, k) {
        AlignedSample(z.plugin.h, e, k);
        if e.enhanced {
          DeliveredSample(w, z, e.generation, e.start + k, SampleAt(e.pcm, k));
        }
      }
    }
  }

  /** End to end: in every run of plugin, transport and server together, each sample that leaves the processor for
      index t is raw sample t, or exactly what StreamingPipeline yields for t when it is run on the processor's own
      raw input from the first sample of the current generation on. */
  lemma EmittedIsPipelineOfRaw(w: World, moves: seq<Move>)
    requires RowLocal(w.server.net)
    ensures var z := ClosedLoop.Run(w, moves);
            && Tiles(z.plugin.h.log, z.plugin.p.output)
            && forall i | 0 <= i < |z.plugin.h.log| ::
                 SampleForSample(w.server, z.plugin.h.fed, Calls(z), z.plugin.h.log[i])
  {
    RunHistory(w, moves);
    var z := ClosedLoop.Run(w, moves);
    LogAligned(w, z);
    hide ClosedLoop.Run, LoopOk, HistoryOk, RowLocal, Tiles, SampleForSample, Calls, Aligned;
    forall i | 0 <= i < |z.plugin.h.log|
      ensures SampleForSample(w.server, z.plugin.h.fed, Calls(z), z.plugin.h.log[i])
    {
      ChunkSamples(w, z, z.plugin.h.log[i]);
    }
  }

  lemma LogAligned(w: World, z: Loop)
    requires LoopOk(w, z)
    ensures Tiles(z.plugin.h.log, z.plugin.p.output)
    ensures forall i | 0 <= i < |z.plugin.h.log| :: Aligned(z.plugin.h, z.plugin.h.log[i])
  {
    hide QueueOk, RequestOk, WorkerOk, Enhanced, Cursors, Tiles, Aligned;
  }
}

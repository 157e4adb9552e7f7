/** Plugin, transport and server together: one processor, its request queue and worker thread, and the server stream
    of the current generation, each acting one atomic stretch at a time. */
module ClosedLoop {
  import opened Wrappers
  import opened Pcm
  import opened Caches
  import opened Pipeline
  import opened Sessions
  import opened Service
  import opened StreamMachine
  import opened ServerMachine
  import opened Processor
  import opened ProcessorRuns
  import opened Utf8
  import opened Handshake
  import opened Transport

  /** The server's configuration and queue capacities, and the processor's settings. */
  datatype World = World(server: Config, inputCap: Capacity, outputCap: Capacity, settings: Settings)

  /** One call: the iterator with the request in its hand, the messages on their way to the server, whether the
      server has opened a stream, that stream, and how far the client has read and checked what the server
      delivered. */
  datatype Connection = Connection(
    first: nat,
    sequence: nat,
    expected: nat,
    hand: Option<Request>,
    open: bool,
    up: seq<ClientMessage>,
    started: bool,
    sl: Slice,
    read: nat,
    progress: Progress)

  /** The worker thread: waiting for audio, holding the first request of a generation, having numbered the generation,
      or in its call. */
  datatype Worker = Waiting | Popped(first: Request) | Numbered(first: Request) | Connected(conn: Connection)

  /** `pending` is the frame between its first locked section and the request queue.  `past` are the calls of earlier
      generations as they were when the client left them, in order; no operation reads it. */
  datatype Loop = Loop(
    plugin: Plugin,
    pending: Option<Request>,
    queue: seq<Request>,
    reset: bool,
    generation: nat,
    worker: Worker,
    past: seq<Connection>)

  datatype Move =
    | Frame(frame: Processor.Frame)
    | Send(ok: bool)
    | Emit
    | Toggle(value: bool)
    | BeginClose
    | EndClose
    | SetReset
    | DropRequest
    | PutControl(request: Request)
    | Pop
    | Number
    | Announce(hex: Text, items: seq<(Text, Text)>)
    | Iterate
    | GetRequest
    | ServerReads
    | ServerActs(step: StreamMachine.Step)
    | ClientReads
    | LoseCall

  const NEW_LOOP := Loop(NEW_PLUGIN, None, [], false, 0, Waiting, [])

  function Act(w: World, z: Loop, a: Action): Loop {
    z.(plugin := ProcessorRuns.Step(w.settings, z.plugin, a))
  }

  /** The first locked section; a frame that goes on carries the request for its own interval. */
  function OnFrame(w: World, z: Loop, frame: Processor.Frame): Loop {
    if z.plugin.mid.Some? then z
    else
      var y := Act(w, z, BeginFrame(frame));
      if y.plugin.mid.Some? then y.(pending := Some(AudioRequest(z.plugin.p.input, frame.pcm))) else y
  }

  function OnSend(w: World, z: Loop, ok: bool): Loop {
    match z.pending
    case None => z
    case Some(request) =>
      if ok then z.(pending := None, queue := z.queue + [request])
      else Act(w, z.(pending := None), RefuseFrame)
  }

  /** The stream that a StartStream opens on the server. */
  function OpenedStream(w: World, inputStart: nat): Slice {
    StreamMachine.Fresh(SoloModel(w.server.net), inputStart, w.inputCap, w.outputCap, false)
  }

  /** A new call: its StartStream is on the way and the server has opened nothing yet. If the metadata cannot be
      encoded the iterator sends nothing at all. */
  function Dial(w: World, hex: Text, items: seq<(Text, Text)>, first: Request): Connection
    requires first.AudioRequest?
  {
    var nothing := Connection(first.start, 0, first.start, None, false, [], false, OpenedStream(w, first.start), 0,
                              Progress(false, 0, first.start, []));
    match BuildMetadata(items)
    case Err(_) => nothing
    case Ok(metadata) =>
      nothing.(hand := Some(first), open := true, up := [StartMessage(ClientStart(first.start, hex, metadata))])
  }

  /** One look of the iterator at the request in its hand: it yields a message and goes on, or it ends. */
  function OnIterate(conn: Connection, reset: bool): Connection {
    if !conn.open || conn.hand.None? then conn
    else
      var r := conn.hand.value;
      var sent := Yields(conn.sequence, conn.expected, r, [], [reset]);
      if r.AudioRequest? && sent != [] then
        conn.(sequence := conn.sequence + 1, expected := conn.expected + |r.pcm| / 2, hand := None,
              up := conn.up + sent)
      else conn.(open := false, up := conn.up + sent)
  }

  function Served(w: World, conn: Connection, e: Event): Connection {
    if conn.sl.x.reader != Reading then conn
    else
      conn.(up := if conn.up == [] then [] else conn.up[1..],
            sl := StepSlice(SoloModel(w.server.net), w.server.maxChunk, conn.sl, Serve(e)))
  }

  /** The server takes the next message on its way: a valid StartStream opens the stream at the offset it names, and
      without one nothing is opened. */
  function OnServerReads(w: World, conn: Connection): Connection {
    if conn.up == [] then conn
    else if !conn.started then
      var next := conn.(up := conn.up[1..]);
      if conn.up[0].StartMessage? && StartOk(conn.up[0].start) then
        next.(started := true, sl := OpenedStream(w, conn.up[0].start.inputStart))
      else next
    else
      match conn.up[0]
      case StartMessage(_) => Served(w, conn, Violation(FAILED_PRECONDITION))
      case AudioMessage(chunk) => Served(w, conn, Audio(chunk))
      case EndMessage(flush) => Served(w, conn, End(flush))
  }

  /** What a message is to the client; an abort ends the call instead. */
  function ResponseOf(message: ServerMessage): Option<Response> {
    match message
    case Accepted => Some(Acceptance(true))
    case EnhancedAudio(sequence, start, pcm, valid) => Some(AudioResponse(sequence, start, pcm, valid))
    case StreamEnded(_, _, _) => Some(EndedResponse)
    case Aborted(_) => None
  }

  /** The worker leaves its call. */
  function Leave(z: Loop, conn: Connection): Loop {
    z.(worker := Waiting, past := z.past + [conn])
  }

  /** The client takes the next message the server delivered, checks it and passes audio on to the processor. */
  function OnClientReads(w: World, z: Loop, conn: Connection): Loop {
    if conn.read >= |conn.sl.x.h.delivered| then z
    else
      match ResponseOf(conn.sl.x.h.delivered[conn.read])
      case None => Leave(z, conn)
      case Some(r) =>
        match Check(conn.progress, r)
        case Continue(next) =>
          var y := z.(worker := Connected(conn.(read := conn.read + 1, progress := next)));
          if r.AudioResponse? then Act(w, y, Response(z.generation, Clip(r.start), r.pcm))
          else Act(w, y, NewGeneration(z.generation, Active))
        case Finish(Mismatch) => Act(w, Leave(z, conn), Fault(z.generation))
        case Finish(_) => Leave(z, conn)
  }

  /** Steps of the server's stream that do not depend on what the client sent: time-outs, the scheduler, delivery. */
  predicate Unprompted(step: StreamMachine.Step) {
    step.Serve? ==> !step.event.Audio? && !step.event.End?
  }

  function Step(w: World, z: Loop, move: Move): Loop {
    match move
    case Frame(frame) => OnFrame(w, z, frame)
    case Send(ok) => OnSend(w, z, ok)
    case Emit => if z.pending.Some? then z else Act(w, z, FinishFrame)
    case Toggle(value) => Act(w, z, SetEnabled(value))
    case BeginClose => if z.pending.Some? then z else Act(w, z, StartClose)
    case EndClose => if z.pending.Some? then z else Act(w, z, FinishClose)
    case SetReset => z.(reset := true)
    case DropRequest => if z.queue == [] then z else z.(queue := z.queue[1..])
    case PutControl(request) => if request.AudioRequest? then z else z.(queue := z.queue + [request])
    case Pop =>
      if !z.worker.Waiting? || z.queue == [] then z
      else if z.queue[0].AudioRequest? then z.(queue := z.queue[1..], worker := Popped(z.queue[0]))
      else z.(queue := z.queue[1..])
    case Number =>
      if z.worker.Popped? then z.(generation := z.generation + 1, reset := false, worker := Numbered(z.worker.first))
      else z
    case Announce(hex, items) =>
      if z.worker.Numbered? && z.worker.first.AudioRequest? && HexDigits(hex) then
        Act(w, z.(worker := Connected(Dial(w, hex, items, z.worker.first))), NewGeneration(z.generation, Connecting))
      else z
    case Iterate => if z.worker.Connected? then z.(worker := Connected(OnIterate(z.worker.conn, z.reset))) else z
    case GetRequest =>
      if z.worker.Connected? && z.worker.conn.open && z.worker.conn.hand.None? && z.queue != [] then
        z.(queue := z.queue[1..], worker := Connected(z.worker.conn.(hand := Some(z.queue[0]))))
      else z
    case ServerReads => if z.worker.Connected? then z.(worker := Connected(OnServerReads(w, z.worker.conn))) else z
    case ServerActs(step) =>
      if z.worker.Connected? && z.worker.conn.started && Unprompted(step) then
        var sl := StepSlice(SoloModel(w.server.net), w.server.maxChunk, z.worker.conn.sl, step);
        z.(worker := Connected(z.worker.conn.(sl := sl)))
      else z
    case ClientReads => if z.worker.Connected? then OnClientReads(w, z, z.worker.conn) else z
    case LoseCall => if z.worker.Connected? then Leave(z, z.worker.conn) else z
  }

  function Run(w: World, moves: seq<Move>): Loop {
    if moves == [] then NEW_LOOP else Step(w, Run(w, moves[..|moves| - 1]), moves[|moves| - 1])
  }
}

/** All runs of a processor: frames, responses, generations, toggles and overflows in any order,
    with other threads acting freely between the two locked sections of a frame. */
module ProcessorRuns {
  import opened Wrappers
  import opened Pcm
  import opened Timeline
  import opened TimelineMap
  import opened Processor

  /** What left the processor, in order: audio for an absolute interval, or a jump of the output cursor at a toggle,
      with the input cursor at that moment. */
  datatype Chunk =
    | Emitted(start: nat, pcm: seq<Byte>, generation: nat, enhanced: bool)
    | Jumped(from: nat, to: nat, input: nat)

  datatype Delivery = Delivery(generation: nat, start: nat, pcm: seq<Byte>)

  /** What has happened so far; no operation reads it.  `base` is the input cursor at the last enable, `clears` counts
      how often enhanced audio was thrown away, `raised` tells whether a timeline buffer ever refused. */
  datatype History = History(fed: seq<Byte>, delivered: seq<Delivery>, log: seq<Chunk>, base: nat, clears: nat,
                             raised: bool)

  /** `mid` is the frame length while a frame is between its two locked sections. */
  datatype Plugin = Plugin(p: Proc, mid: Option<nat>, h: History)

  /** One thread calls _process and _close; the other actions may come at any time. */
  datatype Action =
    | BeginFrame(frame: Frame)
    | RefuseFrame
    | FinishFrame
    | SetEnabled(value: bool)
    | NewGeneration(generation: nat, state: TransportState)
    | Fault(generation: nat)
    | Response(generation: nat, start: nat, pcm: seq<Byte>)
    | StartClose
    | FinishClose

  const NEW_PLUGIN := Plugin(NEW_PROC, None, History([], [], [], 0, 0, false))

  function OnBegin(cfg: Settings, x: Plugin, frame: Frame): Plugin {
    var (p, r) := Begin(cfg, x.p, frame);
    match r
    case Err(e) => x.(p := p, h := x.h.(raised := x.h.raised || e.TimelineFault?))
    case Ok(Some(same)) =>
      x.(p := p, h := x.h.(fed := x.h.fed + frame.pcm,
                           log := x.h.log + [Emitted(x.p.input, same.pcm, x.p.generation, false)]))
    case Ok(None) => Plugin(p, Some(frame.count), x.h.(fed := x.h.fed + frame.pcm))
  }

  function OnFinish(cfg: Settings, x: Plugin, count: nat): Plugin {
    var (p, r) := Finish(cfg, x.p, count);
    match r
    case Err(e) => Plugin(p, None, x.h.(raised := x.h.raised || e.TimelineFault?))
    case Ok(out) =>
      var e := Emitted(x.p.output, out.pcm, x.p.generation, Found(x.p, Due(cfg, x.p, count)).Some?);
      Plugin(p, None, x.h.(log := x.h.log + [e]))
  }

  function OnToggle(x: Plugin, value: bool): Plugin {
    var (p, reset) := Toggle(x.p, value);
    if !reset then x.(p := p)
    else
      x.(p := p, h := x.h.(log := x.h.log + [Jumped(x.p.output, p.output, x.p.input)],
                           base := if value then p.input else x.h.base))
  }

  function OnResponse(x: Plugin, generation: nat, start: nat, pcm: seq<Byte>): Plugin {
    var p := Receive(x.p, generation, start, pcm).0;
    x.(p := p, h := x.h.(delivered := x.h.delivered + [Delivery(generation, start, pcm)]))
  }

  function Act(cfg: Settings, x: Plugin, a: Action): Plugin {
    match a
    case BeginFrame(frame) => if x.mid.Some? then x else OnBegin(cfg, x, frame)
    case RefuseFrame => if x.mid.None? then x else x.(p := Overflow(x.p))
    case FinishFrame => if x.mid.None? then x else OnFinish(cfg, x, x.mid.value)
    case SetEnabled(value) => OnToggle(x, value)
    case NewGeneration(generation, state) => x.(p := GenerationSet(x.p, generation, state))
    case Fault(generation) => x.(p := ProtocolFault(x.p, generation))
    case Response(generation, start, pcm) => OnResponse(x, generation, start, pcm)
    case StartClose => if x.mid.Some? then x else x.(p := CloseBegin(x.p))
    case FinishClose => if x.mid.Some? || !x.p.closed then x else x.(p := CloseEnd(x.p))
  }

  /** Only finishing a frame uses enhanced audio up; any other action that leaves none of it has thrown it away. */
  function Step(cfg: Settings, x: Plugin, a: Action): Plugin {
    var y := Act(cfg, x, a);
    if !a.FinishFrame? && x.p.segs != [] && y.p.segs == [] then y.(h := y.h.(clears := y.h.clears + 1)) else y
  }

  function RunFrom(cfg: Settings, x: Plugin, actions: seq<Action>): Plugin {
    if actions == [] then x else Step(cfg, RunFrom(cfg, x, actions[..|actions| - 1]), actions[|actions| - 1])
  }

  /** The state after any run of a new processor. */
  function Run(cfg: Settings, actions: seq<Action>): Plugin {
    RunFrom(cfg, NEW_PLUGIN, actions)
  }

  function Delay(cfg: Settings): nat {
    256 + cfg.wait
  }

  function Max(a: int, b: int): int {
    if a > b then a else b
  }

  // ---- Cursors and the raw buffer ----

  /** The raw buffer holds the input from the output cursor on, and nothing else. */
  predicate RawIsTail(x: Plugin) {
    && x.p.raw.start == x.p.output <= x.p.input
    && |x.h.fed| == 2 * x.p.input
    && x.p.raw.data == x.h.fed[2 * x.p.output..]
  }

  predicate Cursors(cfg: Settings, x: Plugin) {
    var p := x.p;
    && |x.h.fed| == 2 * p.input
    && x.h.base <= p.input && p.output <= p.input
    && (!p.enabled ==> p.output == p.input)
    && (p.closed ==> x.mid.None?)
    && (!p.closed && (p.enabled || x.mid.Some?) ==> RawIsTail(x))
    && (!p.closed && p.enabled ==>
          match x.mid
          case None => p.output == Max(x.h.base, p.input - Delay(cfg))
          case Some(count) =>
            || p.output == p.input == x.h.base
            || (count <= p.input && x.h.base <= p.input - count
                && p.output == Max(x.h.base, p.input - count - Delay(cfg))))
  }

  lemma BeginCursors(cfg: Settings, x: Plugin, frame: Frame)
    requires Cursors(cfg, x) && x.mid.None?
    ensures Cursors(cfg, OnBegin(cfg, x, frame)) && (OnBegin(cfg, x, frame).h.raised ==> x.h.raised)
  {
    if FrameError(cfg, frame).None? && !x.p.closed && x.p.enabled {
      assert (x.h.fed + frame.pcm)[2 * x.p.output..] == x.h.fed[2 * x.p.output..] + frame.pcm;
    }
  }

  /** What is due brings the output cursor exactly to the lag. */
  lemma DueIsLag(cfg: Settings, x: Plugin)
    requires Cursors(cfg, x) && x.mid.Some?
    ensures x.p.output + Due(cfg, x.p, x.mid.value) <= x.p.input
    ensures x.p.enabled ==> x.p.output + Due(cfg, x.p, x.mid.value) == Max(x.h.base, x.p.input - Delay(cfg))
    ensures !x.p.enabled ==> Due(cfg, x.p, x.mid.value) == 0
  {
  }

  lemma RawServes(x: Plugin, n: nat)
    requires RawIsTail(x) && x.p.output + n <= x.p.input
    ensures RawRead(x.p.raw, x.p.output, n) == Ok(x.h.fed[2 * x.p.output..2 * (x.p.output + n)])
    ensures RawDiscard(x.p.raw, x.p.output + n) == Raw(x.p.output + n, x.h.fed[2 * (x.p.output + n)..])
  {
    DropSlice(x.h.fed, 2 * x.p.output, 0, 2 * n);
    assert x.h.fed[2 * x.p.output..][2 * n..] == x.h.fed[2 * (x.p.output + n)..];
  }

  /** The second locked section when the raw buffer serves `chunk` and keeps `rest`. */
  lemma FinishWith(cfg: Settings, x: Plugin, count: nat, chunk: seq<Byte>, rest: Raw)
    requires var n := Due(cfg, x.p, count);
             RawRead(x.p.raw, x.p.output, n) == Ok(chunk) && RawDiscard(x.p.raw, x.p.output + n) == rest
    ensures var n, y := Due(cfg, x.p, count), OnFinish(cfg, x, count);
            var found, end := Found(x.p, n), x.p.output + n;
            && y.mid.None?
            && y.p == x.p.(output := end, raw := rest, segs := DiscardSegments(x.p.segs, end), metrics := y.p.metrics)
            && y.h == x.h.(log := x.h.log + [Emitted(x.p.output, if found.Some? then found.value else chunk,
                                                     x.p.generation, found.Some?)])
  {
    hide Due, RawRead, RawDiscard, Found, DiscardSegments;
  }

  /** The second locked section in full, when the raw buffer can serve what is due. */
  lemma FinishState(cfg: Settings, x: Plugin, count: nat)
    requires RawIsTail(x) && x.p.output + Due(cfg, x.p, count) <= x.p.input
    ensures var n, y := Due(cfg, x.p, count), OnFinish(cfg, x, count);
            var found, end := Found(x.p, n), x.p.output + n;
            && y.mid.None?
            && y.p == x.p.(output := end, raw := Raw(end, x.h.fed[2 * end..]), segs := DiscardSegments(x.p.segs, end),
                           metrics := y.p.metrics)
            && y.h == x.h.(log := x.h.log
                           + [Emitted(x.p.output, if found.Some? then found.value else x.h.fed[2 * x.p.output..2 * end],
                                                     x.p.generation, found.Some?)])
  {
    var n := Due(cfg, x.p, count);
    RawServes(x, n);
    hide Due, OnFinish, RawRead, RawDiscard, Found, DiscardSegments;
    FinishWith(cfg, x, count, x.h.fed[2 * x.p.output..2 * (x.p.output + n)], RawDiscard(x.p.raw, x.p.output + n));
  }

  lemma FinishServes(cfg: Settings, x: Plugin)
    requires Cursors(cfg, x) && x.mid.Some?
    ensures Finish(cfg, x.p, x.mid.value).1.Ok?
  {
    DueIsLag(cfg, x);
    RawServes(x, Due(cfg, x.p, x.mid.value));
    hide Due, RawRead, RawDiscard, ReadFrom, DiscardSegments, RawIsTail;
  }

  lemma FinishProc(cfg: Settings, x: Plugin, count: nat)
    requires RawIsTail(x) && x.p.output + Due(cfg, x.p, count) <= x.p.input
    ensures var y := OnFinish(cfg, x, count);
            && y.mid.None? && y.p.output == x.p.output + Due(cfg, x.p, count) && RawIsTail(y)
            && (y.p.enabled, y.p.closed, y.p.input) == (x.p.enabled, x.p.closed, x.p.input)
            && (y.h.fed, y.h.base, y.h.raised) == (x.h.fed, x.h.base, x.h.raised)
  {
    FinishState(cfg, x, count);
    hide Due, OnFinish, Found, DiscardSegments;
  }

  lemma FinishCursors(cfg: Settings, x: Plugin)
    requires Cursors(cfg, x) && x.mid.Some?
    ensures Cursors(cfg, OnFinish(cfg, x, x.mid.value)) && (OnFinish(cfg, x, x.mid.value).h.raised ==> x.h.raised)
  {
    DueIsLag(cfg, x);
    FinishProc(cfg, x, x.mid.value);
    hide Due, OnFinish, Max, Delay, RawIsTail;
  }

  lemma ReceiveKeeps(p: Proc, generation: nat, start: nat, pcm: seq<Byte>)
    ensures var p' := Receive(p, generation, start, pcm).0;
            p' == p.(segs := p'.segs, metrics := p'.metrics)
  {
    hide Insert;
  }

  lemma ActCursors(cfg: Settings, x: Plugin, a: Action)
    requires Cursors(cfg, x)
    ensures Cursors(cfg, Act(cfg, x, a)) && (Act(cfg, x, a).h.raised ==> x.h.raised)
  {
    hide Begin, Finish, Receive, OnBegin, OnFinish, Delay, Max;
    match a {
      case BeginFrame(frame) =>
        if x.mid.None? {
          BeginCursors(cfg, x, frame);
        }
      case FinishFrame =>
        if x.mid.Some? {
          FinishCursors(cfg, x);
        }
      case Response(generation, start, pcm) => ReceiveKeeps(x.p, generation, start, pcm);
      case SetEnabled(value) => ToggleCursors(cfg, x, value);
      case _ =>
    }
  }

  lemma ToggleCursors(cfg: Settings, x: Plugin, value: bool)
    requires Cursors(cfg, x)
    ensures Cursors(cfg, OnToggle(x, value)) && (OnToggle(x, value).h.raised ==> x.h.raised)
  {
  }

  lemma CursorsStep(cfg: Settings, x: Plugin, a: Action)
    requires Cursors(cfg, x)
    ensures Cursors(cfg, Step(cfg, x, a)) && (Step(cfg, x, a).h.raised ==> x.h.raised)
    ensures Cursors(cfg, Act(cfg, x, a))
  {
    ActCursors(cfg, x, a);
    hide Act, Delay, Max;
  }

  lemma {:induction false} RunCursors(cfg: Settings, actions: seq<Action>)
    ensures Cursors(cfg, Run(cfg, actions)) && !Run(cfg, actions).h.raised
  {
    if actions != [] {
      RunCursors(cfg, actions[..|actions| - 1]);
      CursorsStep(cfg, Run(cfg, actions[..|actions| - 1]), actions[|actions| - 1]);
      hide Cursors, Step;
    }
  }

  /** With D the algorithmic delay plus the response wait: between frames the output cursor of an enabled processor is
      max(base, input - D), the raw buffer is exactly the input between the two cursors, and so at most D samples. */
  lemma ExactLag(cfg: Settings, actions: seq<Action>)
    ensures var x := Run(cfg, actions);
            x.p.enabled && !x.p.closed && x.mid.None? ==>
              && x.p.output == Max(x.h.base, x.p.input - Delay(cfg))
              && RawIsTail(x) && x.p.raw.start == x.p.output && x.p.raw.End() == x.p.input
              && |x.p.raw.data| <= 2 * Delay(cfg)
  {
    RunCursors(cfg, actions);
    hide Run;
  }

  /** A frame is well formed: 16 kHz, mono, two bytes for every sample, and no longer than the buffer. */
  predicate FrameOk(cfg: Settings, frame: Frame) {
    frame.rate == 16000 && frame.channels == 1 && |frame.pcm| == 2 * frame.count && frame.count <= cfg.maxFrame
  }

  lemma FrameErrorIs(cfg: Settings, frame: Frame)
    ensures FrameError(cfg, frame)
            == if FrameOk(cfg, frame) then None
               else Some(if frame.rate != 16000 || frame.channels != 1 then BadFormat
                         else if |frame.pcm| != 2 * frame.count then BadFrameLength
                         else TooLong)
  {
  }

  /** In every reachable state, whatever happened between the two locked sections, no timeline buffer refuses: a
      frame is refused only for its own format or because the processor is closed, and with the error that says so. */
  lemma NeverRaises(cfg: Settings, actions: seq<Action>, frame: Frame)
    ensures var x := Run(cfg, actions);
            && !x.h.raised
            && (x.mid.None? ==>
                  var r := Begin(cfg, x.p, frame).1;
                  && (r.Ok? <==> FrameOk(cfg, frame) && !x.p.closed)
                  && (r.Err? ==>
                        r.error == if frame.rate != 16000 || frame.channels != 1 then BadFormat
                                   else if |frame.pcm| != 2 * frame.count then BadFrameLength
                                   else if frame.count > cfg.maxFrame then TooLong
                                   else ProcessorClosed))
            && (x.mid.Some? ==> Finish(cfg, x.p, x.mid.value).1.Ok?)
  {
    RunCursors(cfg, actions);
    FrameErrorIs(cfg, frame);
    var x := Run(cfg, actions);
    hide Run, Finish, FrameError;
    if x.mid.Some? {
      FinishServes(cfg, x);
    }
  }
}

/** The frame processor: absolute cursors, a raw buffer and the enhanced segments, updated section by locked
    section. */
module Processor {
  import opened Wrappers
  import opened Pcm
  import opened Timeline

  const SAMPLE_RATE: nat := 16000
  const ALGORITHMIC_DELAY: nat := 256

  /** The response wait and the largest frame, in samples. */
  datatype Settings = Settings(wait: nat, maxFrame: nat)

  datatype TransportState = Disconnected | Connecting | Active | Backoff | Closed

  datatype Metrics = Metrics(
    framesIn: nat, samplesIn: nat, framesOut: nat, samplesOut: nat, rawFallback: nat, enhanced: nat,
    late: nat, mismatches: nat, overflows: nat, reconnects: nat)

  datatype Frame = Frame(rate: nat, channels: nat, count: nat, pcm: seq<Byte>)

  datatype ProcessError = BadFormat | BadFrameLength | TooLong | ProcessorClosed | TimelineFault(fault: TimelineError)

  datatype Proc = Proc(
    enabled: bool,
    closed: bool,
    input: nat,
    output: nat,
    raw: Raw,
    segs: seq<Segment>,
    generation: nat,
    state: TransportState,
    metrics: Metrics)

  const NEW_PROC := Proc(true, false, 0, 0, Raw(0, []), [], 0, Disconnected, Metrics(0, 0, 0, 0, 0, 0, 0, 0, 0, 0))

  // ---- What each locked section does ----

  function FrameError(cfg: Settings, frame: Frame): Option<ProcessError> {
    if frame.rate != SAMPLE_RATE || frame.channels != 1 then Some(BadFormat)
    else if |frame.pcm| != frame.count * 2 then Some(BadFrameLength)
    else if frame.count > cfg.maxFrame then Some(TooLong)
    else None
  }

  /** The enabled setter; the second result tells whether the worker is reset. */
  function Toggle(p: Proc, value: bool): (Proc, bool) {
    if p.closed || value == p.enabled then (p, false)
    else (p.(enabled := value, segs := [], raw := Raw(p.input, []), output := p.input), true)
  }

  function GenerationSet(p: Proc, generation: nat, state: TransportState): Proc {
    if generation > p.generation then
      p.(generation := generation, segs := [], state := state,
         metrics := if p.generation != 0 then p.metrics.(reconnects := p.metrics.reconnects + 1) else p.metrics)
    else p.(state := state)
  }

  function ProtocolFault(p: Proc, generation: nat): Proc {
    if generation >= p.generation then p.(segs := [], metrics := p.metrics.(mismatches := p.metrics.mismatches + 1))
      else p
  }

  function Late(p: Proc, samples: nat): Proc {
    p.(metrics := p.metrics.(late := p.metrics.late + samples))
  }

  /** A response after it has been trimmed at the output cursor. */
  function Store(p: Proc, start: nat, pcm: seq<Byte>): (Proc, bool) {
    var mismatch := p.metrics.(mismatches := p.metrics.mismatches + 1);
    if start + |pcm| / 2 > p.input then (p.(metrics := mismatch), true)
    else
      match Insert(p.segs, start, pcm)
      case Ok(after) => (p.(segs := after), false)
      case Err(_) => (p.(segs := [], metrics := mismatch), true)
  }

  function Receive(p: Proc, generation: nat, start: nat, pcm: seq<Byte>): (Proc, bool) {
    var samples := |pcm| / 2;
    if generation != p.generation then (Late(p, samples), false)
    else if start + samples <= p.output then (Late(p, samples), false)
    else if start < p.output then Store(Late(p, p.output - start), p.output, pcm[(p.output - start) * 2..])
    else Store(p, start, pcm)
  }

  /** The first locked section: a frame that is returned at once while disabled, or None while enabled. */
  function Begin(cfg: Settings, p: Proc, frame: Frame): (Proc, Result<Option<Frame>, ProcessError>) {
    match FrameError(cfg, frame)
    case Some(e) => (p, Err(e))
    case None =>
      if p.closed then (p, Err(ProcessorClosed))
      else
        var m := p.metrics.(framesIn := p.metrics.framesIn + 1, samplesIn := p.metrics.samplesIn + frame.count);
        var p1 := p.(input := p.input + frame.count, metrics := m);
        if !p.enabled then
          (p1.(output := p1.input,
               metrics := m.(framesOut := m.framesOut + 1, samplesOut := m.samplesOut + frame.count,
                             rawFallback := m.rawFallback + frame.count)),
           Ok(Some(frame)))
        else
          match RawAppend(p.raw, p.input, frame.pcm)
          case Ok(raw) => (p1.(raw := raw), Ok(None))
          case Err(e) => (p1, Err(TimelineFault(e)))
  }

  /** What happens when the request queue refuses a frame. */
  function Overflow(p: Proc): Proc {
    p.(segs := [], metrics := p.metrics.(overflows := p.metrics.overflows + 1))
  }

  function Clip(x: int): nat {
    if x > 0 then x else 0
  }

  /** How many samples are due: those older than the delay, and no more than the frame brought in. */
  function Due(cfg: Settings, p: Proc, count: nat): nat {
    var eligible := Clip(p.input - ALGORITHMIC_DELAY - cfg.wait);
    var ready := Clip(eligible - p.output);
    if count < ready then count else ready
  }

  function Advance(p: Proc, n: nat): Proc {
    p.(output := p.output + n, raw := RawDiscard(p.raw, p.output + n), segs := DiscardSegments(p.segs, p.output + n),
       metrics := p.metrics.(framesOut := p.metrics.framesOut + 1, samplesOut := p.metrics.samplesOut + n))
  }

  /** What the second locked section finds for the samples that are due. */
  function Found(p: Proc, n: nat): Option<seq<Byte>> {
    if n == 0 then Some([]) else ReadFrom(p.segs, p.output, p.output + n)
  }

  function OutFrame(pcm: seq<Byte>, n: nat): Frame {
    Frame(SAMPLE_RATE, 1, n, pcm)
  }

  /** The second locked section: enhanced audio where all of it is there, raw audio otherwise. */
  function Finish(cfg: Settings, p: Proc, count: nat): (Proc, Result<Frame, ProcessError>) {
    var n := Due(cfg, p, count);
    match Found(p, n)
    case Some(pcm) => (Advance(p.(metrics := p.metrics.(enhanced := p.metrics.enhanced + n)), n), Ok(OutFrame(pcm, n)))
    case None =>
      match RawRead(p.raw, p.output, n)
      case Err(e) => (p, Err(TimelineFault(e)))
      case Ok(pcm) => (Advance(p.(metrics := p.metrics.(rawFallback := p.metrics.rawFallback + n)), n),
                       Ok(OutFrame(pcm, n)))
  }

  function CloseBegin(p: Proc): Proc {
    p.(closed := true)
  }

  function CloseEnd(p: Proc): Proc {
    p.(segs := [], raw := Raw(p.input, []))
  }

  // ---- The processor itself ----

  class RemoteFastEnhancer {
    const cfg: Settings
    const raw: ContiguousPCM
    const enhanced: EnhancedSegments
    var enabled: bool
    var closed: bool
    var inputCursor: nat
    var outputCursor: nat
    var remoteGeneration: nat
    var transportState: TransportState
    var metrics: Metrics

    ghost function View(): Proc
      reads this, raw, enhanced
    {
      Proc(enabled, closed, inputCursor, outputCursor, raw.View(), enhanced.segments, remoteGeneration, transportState,
           metrics)
    }

    constructor (cfg: Settings)
      ensures View() == NEW_PROC && this.cfg == cfg && fresh(raw) && fresh(enhanced)
    {
      this.cfg := cfg;
      enabled, closed := true, false;
      inputCursor, outputCursor := 0, 0;
      raw := new ContiguousPCM(0);
      enhanced := new EnhancedSegments();
      remoteGeneration, transportState := 0, Disconnected;
      metrics := Metrics(0, 0, 0, 0, 0, 0, 0, 0, 0, 0);
    }

    /** The result tells whether the worker must be reset. */
    method SetEnabled(value: bool) returns (reset: bool)
      modifies this`enabled, this`outputCursor, raw, enhanced
      ensures (View(), reset) == Toggle(old(View()), value)
    {
      reset := false;
      if closed || value == enabled {
        return;
      }
      enabled := value;
      enhanced.Clear();
      raw.ClearAt(inputCursor);
      outputCursor := inputCursor;
      reset := true;
    }

    method GenerationChanged(generation: nat, state: TransportState)
      modifies this`remoteGeneration, this`transportState, this`metrics, enhanced
      ensures View() == GenerationSet(old(View()), generation, state)
    {
      if generation > remoteGeneration {
        if remoteGeneration != 0 {
          metrics := metrics.(reconnects := metrics.reconnects + 1);
        }
        remoteGeneration := generation;
        enhanced.Clear();
      }
      transportState := state;
    }

    method ProtocolError(generation: nat)
      modifies this`metrics, enhanced
      ensures View() == ProtocolFault(old(View()), generation)
    {
      if generation >= remoteGeneration {
        metrics := metrics.(mismatches := metrics.mismatches + 1);
        enhanced.Clear();
      }
    }

    /** The result tells whether the worker must be reset. */
    method ReceiveAudio(generation: nat, startSample: nat, pcm: seq<Byte>) returns (reset: bool)
      modifies this`metrics, enhanced
      ensures (View(), reset) == Receive(old(View()), generation, startSample, pcm)
    {
      reset := false;
      var samples := |pcm| / 2;
      if generation != remoteGeneration {
        metrics := metrics.(late := metrics.late + samples);
        return;
      }
      var start, payload, end := startSample, pcm, startSample + samples;
      if end <= outputCursor {
        metrics := metrics.(late := metrics.late + samples);
        return;
      }
      if start < outputCursor {
        var trim := outputCursor - start;
        metrics := metrics.(late := metrics.late + trim);
        payload := payload[trim * 2..];
        start := outputCursor;
        end := start + |payload| / 2;
      }
      if end > inputCursor {
        metrics := metrics.(mismatches := metrics.mismatches + 1);
        reset := true;
      } else {
        var inserted := enhanced.InsertAudio(start, payload);
        if inserted.Err? {
          metrics := metrics.(mismatches := metrics.mismatches + 1);
          enhanced.Clear();
          reset := true;
        }
      }
    }

    method ProcessBegin(frame: Frame) returns (r: Result<Option<Frame>, ProcessError>)
      modifies this`inputCursor, this`outputCursor, this`metrics, raw
      ensures (View(), r) == Begin(cfg, old(View()), frame)
    {
      if frame.rate != SAMPLE_RATE || frame.channels != 1 {
        return Err(BadFormat);
      }
      if |frame.pcm| != frame.count * 2 {
        return Err(BadFrameLength);
      }
      if frame.count > cfg.maxFrame {
        return Err(TooLong);
      }
      if closed {
        return Err(ProcessorClosed);
      }
      metrics := metrics.(framesIn := metrics.framesIn + 1, samplesIn := metrics.samplesIn + frame.count);
      var start := inputCursor;
      inputCursor := inputCursor + frame.count;
      if !enabled {
        outputCursor := inputCursor;
        metrics := metrics.(framesOut := metrics.framesOut + 1, samplesOut := metrics.samplesOut + frame.count,
                            rawFallback := metrics.rawFallback + frame.count);
        return Ok(Some(frame));
      }
      var appended := raw.Append(start, frame.pcm);
      if appended.Err? {
        return Err(TimelineFault(appended.error));
      }
      return Ok(None);
    }

    method QueueOverflow()
      modifies this`metrics, enhanced
      ensures View() == Overflow(old(View()))
    {
      metrics := metrics.(overflows := metrics.overflows + 1);
      enhanced.Clear();
    }

    method ProcessFinish(count: nat) returns (r: Result<Frame, ProcessError>)
      modifies this`outputCursor, this`metrics, raw, enhanced
      ensures (View(), r) == Finish(cfg, old(View()), count)
    {
      hide RawRead, RawDiscard, ReadFrom, DiscardSegments, Clip;
      var eligible := Clip(inputCursor - ALGORITHMIC_DELAY - cfg.wait);
      var ready := Clip(eligible - outputCursor);
      var n := if count < ready then count else ready;
      var found: Option<seq<Byte>> := Some([]);
      if n > 0 {
        found := enhanced.Read(outputCursor, n);
      }
      var output: seq<Byte>;
      if found.None? {
        var read := raw.Read(outputCursor, n);
        if read.Err? {
          return Err(TimelineFault(read.error));
        }
        output := read.value;
        metrics := metrics.(rawFallback := metrics.rawFallback + n);
      } else {
        output := found.value;
        metrics := metrics.(enhanced := metrics.enhanced + n);
      }
      outputCursor := outputCursor + n;
      raw.DiscardBefore(outputCursor);
      enhanced.DiscardBefore(outputCursor);
      metrics := metrics.(framesOut := metrics.framesOut + 1, samplesOut := metrics.samplesOut + n);
      return Ok(OutFrame(output, n));
    }

    /** A whole frame when nothing else runs between the locked sections; `sent` is the answer of the request
        queue. */
    method Process(frame: Frame, sent: bool) returns (r: Result<Frame, ProcessError>)
      modifies this`inputCursor, this`outputCursor, this`metrics, raw, enhanced
      ensures var (p, begun) := Begin(cfg, old(View()), frame);
              match begun
              case Err(e) => View() == p && r == Err(e)
              case Ok(Some(same)) => View() == p && r == Ok(same)
              case Ok(None) => (View(), r) == Finish(cfg, if sent then p else Overflow(p), frame.count)
    {
      var begun := ProcessBegin(frame);
      if begun.Err? {
        return Err(begun.error);
      }
      if begun.value.Some? {
        return Ok(begun.value.value);
      }
      if !sent {
        QueueOverflow();
      }
      r := ProcessFinish(frame.count);
    }

    method CloseFirst()
      modifies this`closed
      ensures View() == CloseBegin(old(View()))
    {
      closed := true;
    }

    method CloseLast()
      modifies raw, enhanced
      ensures View() == CloseEnd(old(View()))
    {
      enhanced.Clear();
      raw.ClearAt(inputCursor);
    }
  }
}

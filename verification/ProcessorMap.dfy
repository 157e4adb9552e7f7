/** What the processor stores and when it uses it: the enhanced audio of any run as a partial map from sample index to
    sample, and the exact choice between enhanced and raw audio. */
module ProcessorMap {
  import opened Wrappers
  import opened Pcm
  import opened Timeline
  import opened TimelineMap
  import opened Processor
  import opened ProcessorRuns
  import opened ProcessorAlignment

  // ---- Receiving ----

  /** A response can still be used if it belongs to the current generation and ends after the output cursor. */
  predicate Timely(p: Proc, generation: nat, start: nat, pcm: seq<Byte>) {
    generation == p.generation && p.output < start + |pcm| / 2
  }

  /** The part of a response that is not behind the output cursor. */
  function Trimmed(start: nat, pcm: seq<Byte>, output: nat): Segment
    requires output < start + |pcm| / 2
  {
    if start < output then Segment(output, pcm[2 * (output - start)..]) else Segment(start, pcm)
  }

  /** A timely response fits if it stays within the input, and what is left of it is whole samples that either are
      stored just like that or meet nothing that is stored. */
  ghost predicate Fits(p: Proc, start: nat, pcm: seq<Byte>)
    requires p.output < start + |pcm| / 2
  {
    var c := Trimmed(start, pcm, p.output);
    start + |pcm| / 2 <= p.input && c.Sound() && (c in p.segs || forall t | c.Covers(t) :: At(p.segs, t).None?)
  }

  /** How many samples of an interval lie before the output cursor. */
  function Behind(start: nat, end: nat, output: nat): nat
    requires start <= end
  {
    if end <= output then end - start else if start < output then output - start else 0
  }

  /** The map after a response is stored from a sample on. */
  ghost predicate Stores(segs: seq<Segment>, after: seq<Segment>, start: nat, pcm: seq<Byte>, from: nat) {
    && Ordered(after)
    && forall t :: At(after, t) == if from <= t && start <= t < start + |pcm| / 2 then Some(SampleAt(pcm, t - start))
                                   else At(segs, t)
  }

  lemma TrimmedCovers(start: nat, pcm: seq<Byte>, output: nat, t: int)
    requires output < start + |pcm| / 2
    ensures var c := Trimmed(start, pcm, output);
            && (c.Covers(t) <==> output <= t && start <= t < start + |pcm| / 2)
            && (c.Covers(t) ==> SampleAt(c.pcm, t - c.start) == SampleAt(pcm, t - start))
  {
  }

  lemma InsertedAt(segs: seq<Segment>, start: nat, pcm: seq<Byte>, output: nat, t: int)
    requires Ordered(segs) && output < start + |pcm| / 2
    requires var c := Trimmed(start, pcm, output); Insert(segs, c.start, c.pcm).Ok?
    ensures var c := Trimmed(start, pcm, output);
            At(Insert(segs, c.start, c.pcm).value, t)
            == if output <= t && start <= t < start + |pcm| / 2 then Some(SampleAt(pcm, t - start)) else At(segs, t)
  {
    hide *;
    var c := Trimmed(start, pcm, output);
    assert c == Segment(c.start, c.pcm);
    InsertRefinesMap(segs, c.start, c.pcm);
    TrimmedCovers(start, pcm, output, t);
    if c in segs && c.Covers(t) {
      AtMember(segs, c, t);
    }
  }

  lemma InsertStores(segs: seq<Segment>, start: nat, pcm: seq<Byte>, output: nat)
    requires Ordered(segs) && output < start + |pcm| / 2
    requires var c := Trimmed(start, pcm, output); Insert(segs, c.start, c.pcm).Ok?
    ensures var c := Trimmed(start, pcm, output); Stores(segs, Insert(segs, c.start, c.pcm).value, start, pcm, output)
  {
    hide Insert, Ordered, At, Trimmed, SampleAt;
    var c := Trimmed(start, pcm, output);
    InsertRefinesMap(segs, c.start, c.pcm);
    var after := Insert(segs, c.start, c.pcm).value;
    forall t
      ensures At(after, t) == if output <= t && start <= t < start + |pcm| / 2 then Some(SampleAt(pcm, t - start))
                              else At(segs, t)
    {
      InsertedAt(segs, start, pcm, output, t);
    }
  }

  lemma StoreFits(p: Proc, start: nat, pcm: seq<Byte>)
    requires Ordered(p.segs) && p.output < start + |pcm| / 2
    ensures var c := Trimmed(start, pcm, p.output);
            var (p', reset) := Store(p, c.start, c.pcm);
            && (reset <==> !Fits(p, start, pcm))
            && (reset ==> p'.segs == if start + |pcm| / 2 <= p.input then [] else p.segs)
            && (!reset ==> Stores(p.segs, p'.segs, start, pcm, p.output))
            && p'.metrics == p.metrics.(mismatches := p.metrics.mismatches + (if reset then 1 else 0))
  {
    var c := Trimmed(start, pcm, p.output);
    InsertRefinesMap(p.segs, c.start, c.pcm);
    assert c == Segment(c.start, c.pcm) && c.End() == start + |pcm| / 2;
    hide Insert, Ordered, At, Stores;
    if start + |pcm| / 2 <= p.input && Insert(p.segs, c.start, c.pcm).Ok? {
      InsertStores(p.segs, start, pcm, p.output);
    }
  }

  /** What any response does, exactly. Samples of another generation and samples behind the output cursor are
      counted as late and do nothing else. A timely response that fits is stored from the output cursor on; one
      that does not is one mismatch and resets the worker, and if it stays within the input everything stored is
      thrown away. */
  lemma ReceiveRefinesMap(p: Proc, generation: nat, start: nat, pcm: seq<Byte>)
    requires Ordered(p.segs)
    ensures var (p', reset) := Receive(p, generation, start, pcm);
            var late := if generation == p.generation then Behind(start, start + |pcm| / 2, p.output) else |pcm| / 2;
            p' == p.(segs := p'.segs,
                     metrics := p.metrics.(late := p.metrics.late + late,
                                           mismatches := p.metrics.mismatches + (if reset then 1 else 0)))
    ensures var (p', reset) := Receive(p, generation, start, pcm);
            if !Timely(p, generation, start, pcm) then !reset && p'.segs == p.segs
            else
              && (reset <==> !Fits(p, start, pcm))
              && (reset ==> p'.segs == if start + |pcm| / 2 <= p.input then [] else p.segs)
              && (!reset ==> Stores(p.segs, p'.segs, start, pcm, p.output))
  {
    if Timely(p, generation, start, pcm) {
      StoreFits(if start < p.output then Late(p, p.output - start) else p, start, pcm);
      StoreKeeps(if start < p.output then Late(p, p.output - start) else p, Trimmed(start, pcm, p.output));
      hide Store, Stores, Ordered, At;
    }
  }

  lemma StoreKeeps(p: Proc, c: Segment)
    requires c.start >= 0
    ensures var p' := Store(p, c.start, c.pcm).0; p' == p.(segs := p'.segs, metrics := p'.metrics)
  {
    hide Insert;
  }

  // ---- What each action does to the map ----

  /** The actions that throw all enhanced audio away, besides a response that does not fit. */
  predicate Clears(x: Plugin, a: Action) {
    match a
    case SetEnabled(value) => !x.p.closed && value != x.p.enabled
    case NewGeneration(generation, _) => generation > x.p.generation
    case Fault(generation) => generation >= x.p.generation
    case RefuseFrame => x.mid.Some?
    case FinishClose => x.p.closed && x.mid.None?
    case _ => false
  }

  /** The stored audio after any action in any run, exactly: a response is stored as above, finishing a frame forgets
      what lies before the new output cursor, some actions throw everything away, and all others change nothing. */
  lemma StoredAfter(cfg: Settings, actions: seq<Action>, a: Action)
    ensures var x := Run(cfg, actions);
            var y := Step(cfg, x, a);
            && Ordered(x.p.segs) && Ordered(y.p.segs)
            && (a.Response? ==> y.p == Receive(x.p, a.generation, a.start, a.pcm).0)
            && (a.FinishFrame? ==> forall t :: At(y.p.segs, t) == if t < y.p.output then None else At(x.p.segs, t))
            && (!a.Response? && !a.FinishFrame? ==> y.p.segs == if Clears(x, a) then [] else x.p.segs)
  {
    var x := Run(cfg, actions);
    RunGood(cfg, actions);
    GoodStep(cfg, x, a);
    EnhancedOrdered(x);
    EnhancedOrdered(Step(cfg, x, a));
    hide Run;
    StepIsAct(cfg, x, a);
    if a.FinishFrame? {
      FinishForgets(cfg, x);
    } else if !a.Response? {
      OthersKeep(cfg, x, a);
    }
    hide *;
    assert Step(cfg, x, a).p == Act(cfg, x, a).p;
  }

  lemma StepIsAct(cfg: Settings, x: Plugin, a: Action)
    ensures Step(cfg, x, a).p == Act(cfg, x, a).p
    ensures a.Response? ==> Act(cfg, x, a).p == Receive(x.p, a.generation, a.start, a.pcm).0
  {
    hide Receive, Finish, Begin;
  }

  lemma FinishForgets(cfg: Settings, x: Plugin)
    requires Good(cfg, x)
    ensures var y := Act(cfg, x, FinishFrame);
            forall t :: At(y.p.segs, t) == if t < y.p.output then None else At(x.p.segs, t)
  {
    GoodParts(cfg, x);
    if x.mid.Some? {
      FinishCases(cfg, x);
      EnhancedOrdered(x);
      DiscardRefinesMap(x.p.segs, Act(cfg, x, FinishFrame).p.output);
      hide OnFinish, Enhanced, Cursors, Ordered, DiscardSegments, At;
    } else {
      NothingBehind(x);
    }
  }

  lemma NothingBehind(x: Plugin)
    requires Enhanced(x)
    ensures forall t :: At(x.p.segs, t) == if t < x.p.output then None else At(x.p.segs, t)
  {
    hide Ordered, Delivered;
  }

  lemma OthersKeep(cfg: Settings, x: Plugin, a: Action)
    requires Cursors(cfg, x) && !a.Response? && !a.FinishFrame?
    ensures Act(cfg, x, a).p.segs == if Clears(x, a) then [] else x.p.segs
  {
    if a.BeginFrame? && x.mid.None? {
      BeginCases(cfg, x, a.frame);
      hide OnBegin, Cursors;
    }
  }

  // ---- Enhanced or raw ----

  /** What finishing a frame must do: the samples from the old output cursor to the new one leave the processor as
      one frame. They are enhanced exactly if all of them are stored, and then they are what is stored; otherwise
      they are the raw input of their own interval. Log and metrics agree with that. */
  ghost predicate Finishes(x: Plugin, y: Plugin, result: Result<Frame, ProcessError>) {
    && x.p.output <= y.p.output <= x.p.input && |x.h.fed| == 2 * x.p.input
    && y.h.log != [] && y.h.log[..|y.h.log| - 1] == x.h.log
    && var from, end, e := x.p.output, y.p.output, y.h.log[|y.h.log| - 1];
       && e.Emitted? && e.start == from && e.generation == x.p.generation
       && (e.enhanced <==> from == end || AllStored(x.p.segs, from, end))
       && (if e.enhanced then Holds(x.p.segs, from, end, e.pcm) else e.pcm == x.h.fed[2 * from..2 * end])
       && result == Ok(Frame(16000, 1, end - from, e.pcm))
       && Counts(x.p.metrics, y.p.metrics, end - from, e.enhanced)
  }

  predicate Counts(m: Metrics, m': Metrics, n: nat, enhanced: bool) {
    m' == m.(framesOut := m.framesOut + 1, samplesOut := m.samplesOut + n,
             enhanced := m.enhanced + (if enhanced then n else 0),
             rawFallback := m.rawFallback + (if enhanced then 0 else n))
  }

  lemma FoundExactly(p: Proc, n: nat)
    requires Ordered(p.segs)
    ensures Found(p, n).Some? <==> n == 0 || AllStored(p.segs, p.output, p.output + n)
    ensures Found(p, n).Some? ==> Holds(p.segs, p.output, p.output + n, Found(p, n).value)
  {
    hide Ordered, ReadFrom, At;
    if n > 0 {
      ReadRefinesMap(p.segs, p.output, p.output + n);
    }
  }

  /** The second locked section, when the raw buffer serves `chunk`. */
  lemma FinishResult(cfg: Settings, p: Proc, count: nat, chunk: seq<Byte>)
    requires RawRead(p.raw, p.output, Due(cfg, p, count)) == Ok(chunk)
    ensures var n, (p', r) := Due(cfg, p, count), Finish(cfg, p, count);
            var found := Found(p, n);
            && r == Ok(Frame(16000, 1, n, if found.Some? then found.value else chunk))
            && Counts(p.metrics, p'.metrics, n, found.Some?)
  {
    hide Due, RawRead, RawDiscard, Found, DiscardSegments;
  }

  lemma FinishFinishes(cfg: Settings, x: Plugin)
    requires Good(cfg, x) && x.mid.Some?
    ensures Finishes(x, OnFinish(cfg, x, x.mid.value), Finish(cfg, x.p, x.mid.value).1)
  {
    hide *;
    var n, y := Due(cfg, x.p, x.mid.value), OnFinish(cfg, x, x.mid.value);
    GoodParts(cfg, x);
    EnhancedOrdered(x);
    FinishCases(cfg, x);
    ServedRaw(cfg, x);
    FinishResult(cfg, x.p, x.mid.value, x.h.fed[2 * x.p.output..2 * (x.p.output + n)]);
    FoundExactly(x.p, n);
    OnFinishProc(cfg, x);
    FinishesFrom(x, y, Finish(cfg, x.p, x.mid.value).1, n, Found(x.p, n));
  }

  lemma ServedRaw(cfg: Settings, x: Plugin)
    requires Cursors(cfg, x) && x.mid.Some?
    ensures var n := Due(cfg, x.p, x.mid.value);
            && x.p.output + n <= x.p.input && |x.h.fed| == 2 * x.p.input
            && RawRead(x.p.raw, x.p.output, n) == Ok(x.h.fed[2 * x.p.output..2 * (x.p.output + n)])
  {
    DueIsLag(cfg, x);
    hide Due, RawRead;
    RawServes(x, Due(cfg, x.p, x.mid.value));
  }

  lemma OnFinishProc(cfg: Settings, x: Plugin)
    requires x.mid.Some?
    ensures OnFinish(cfg, x, x.mid.value).p == Finish(cfg, x.p, x.mid.value).0
  {
    hide Finish, Found, Due;
  }

  lemma FinishesFrom(x: Plugin, y: Plugin, result: Result<Frame, ProcessError>, n: nat, found: Option<seq<Byte>>)
    requires var from, end := x.p.output, x.p.output + n;
             && y.p.output == end <= x.p.input && |x.h.fed| == 2 * x.p.input
             && (found.Some? <==> n == 0 || AllStored(x.p.segs, from, end))
             && (found.Some? ==> Holds(x.p.segs, from, end, found.value))
             && var pcm := if found.Some? then found.value else x.h.fed[2 * from..2 * end];
                && y.h.log == x.h.log + [Emitted(from, pcm, x.p.generation, found.Some?)]
                && result == Ok(Frame(16000, 1, n, pcm))
                && Counts(x.p.metrics, y.p.metrics, n, found.Some?)
    ensures Finishes(x, y, result)
  {
    hide AllStored, Holds, Counts;
  }

  lemma FinishStep(cfg: Settings, x: Plugin)
    requires x.mid.Some?
    ensures var y, z := Step(cfg, x, FinishFrame), OnFinish(cfg, x, x.mid.value);
            y.p == z.p && y.h.log == z.h.log
  {
    hide OnFinish;
  }

  /** Enhanced audio is used exactly when all of it is there: in every run, whatever came between the two locked
      sections of a frame, what finishing it emits is the stored audio if every sample that is due is stored, the
      raw audio of the same interval if any is missing, and exactly what brings the output cursor to the lag. */
  lemma EnhancedExactlyWhenStored(cfg: Settings, actions: seq<Action>)
    requires Run(cfg, actions).mid.Some?
    ensures var x := Run(cfg, actions);
            var y := Step(cfg, x, FinishFrame);
            && Finishes(x, y, Finish(cfg, x.p, x.mid.value).1)
            && y.p.output == if x.p.enabled then Max(x.h.base, x.p.input - Delay(cfg)) else x.p.output
  {
    hide *;
    RunGood(cfg, actions);
    var x := Run(cfg, actions);
    FinishFinishes(cfg, x);
    FinishStep(cfg, x);
    GoodParts(cfg, x);
    DueIsLag(cfg, x);
    FinishCases(cfg, x);
    SameFinish(x, OnFinish(cfg, x, x.mid.value), Step(cfg, x, FinishFrame), Finish(cfg, x.p, x.mid.value).1);
  }

  lemma SameFinish(x: Plugin, y: Plugin, z: Plugin, result: Result<Frame, ProcessError>)
    requires Finishes(x, y, result) && z.p == y.p && z.h.log == y.h.log
    ensures Finishes(x, z, result)
  {
    hide AllStored, Holds, Counts;
  }

  // ---- Everything else an action changes ----

  /** The frame that a first locked section takes in. */
  function TakenIn(cfg: Settings, x: Plugin, a: Action): Option<Frame> {
    if a.BeginFrame? && x.mid.None? && FrameOk(cfg, a.frame) && !x.p.closed then Some(a.frame) else None
  }

  predicate Toggles(x: Plugin, a: Action) {
    a.SetEnabled? && !x.p.closed && a.value != x.p.enabled
  }

  function One(condition: bool): nat {
    if condition then 1 else 0
  }

  /** Switches, generation, input and output cursor, and what leaves the processor. */
  predicate Moves(cfg: Settings, x: Plugin, a: Action, y: Plugin) {
    var taken := TakenIn(cfg, x, a);
    var passed := taken.Some? && !x.p.enabled;
    && y.p.enabled == (if a.SetEnabled? && !x.p.closed then a.value else x.p.enabled)
    && y.p.closed == (x.p.closed || (a.StartClose? && x.mid.None?))
    && y.p.generation == (if a.NewGeneration? && a.generation > x.p.generation then a.generation else x.p.generation)
    && y.p.state == (if a.NewGeneration? then a.state else x.p.state)
    && y.p.input == x.p.input + (if taken.Some? then taken.value.count else 0)
    && y.h.fed == x.h.fed + (if taken.Some? then taken.value.pcm else [])
    && y.mid == (if taken.Some? && x.p.enabled then Some(taken.value.count) else if a.FinishFrame? then None else x.mid)
    && (!a.FinishFrame? ==>
          && y.p.output == (if Toggles(x, a) || passed then y.p.input else x.p.output)
          && y.h.log == x.h.log + (if Toggles(x, a) then [Jumped(x.p.output, x.p.input, x.p.input)]
                                   else if passed then [Emitted(x.p.input, a.frame.pcm, x.p.generation, false)]
                                   else []))
  }

  /** The counters that do not count samples sent or received. */
  predicate CountersMove(cfg: Settings, x: Plugin, a: Action, m: Metrics, m': Metrics) {
    var taken := TakenIn(cfg, x, a);
    && m'.framesIn == m.framesIn + One(taken.Some?)
    && m'.framesOut == m.framesOut + One((a.FinishFrame? && x.mid.Some?) || (taken.Some? && !x.p.enabled))
    && m'.reconnects
       == m.reconnects + One(a.NewGeneration? && a.generation > x.p.generation && x.p.generation != 0)
    && m'.overflows == m.overflows + One(a.RefuseFrame? && x.mid.Some?)
    && (!a.Response? ==>
          m'.late == m.late
          && m'.mismatches == m.mismatches + One(a.Fault? && a.generation >= x.p.generation))
  }

  lemma BeginMoves(cfg: Settings, x: Plugin, frame: Frame)
    requires Cursors(cfg, x) && x.mid.None?
    ensures var y := OnBegin(cfg, x, frame);
            && Moves(cfg, x, BeginFrame(frame), y)
            && CountersMove(cfg, x, BeginFrame(frame), x.p.metrics, y.p.metrics)
  {
  }

  lemma FinishMoves(cfg: Settings, x: Plugin)
    requires Good(cfg, x) && x.mid.Some?
    ensures var y := OnFinish(cfg, x, x.mid.value);
            Moves(cfg, x, FinishFrame, y) && CountersMove(cfg, x, FinishFrame, x.p.metrics, y.p.metrics)
  {
    hide *;
    var y := OnFinish(cfg, x, x.mid.value);
    GoodParts(cfg, x);
    FinishFinishes(cfg, x);
    FinishKeepsRest(cfg, x);
    FinishesCount(x, y, Finish(cfg, x.p, x.mid.value).1);
    FinishedMoves(cfg, x, y, y.p.output - x.p.output, y.h.log[|y.h.log| - 1].enhanced);
  }

  lemma FinishesCount(x: Plugin, y: Plugin, result: Result<Frame, ProcessError>)
    requires Finishes(x, y, result)
    ensures x.p.output <= y.p.output && y.h.log != [] && y.h.log[|y.h.log| - 1].Emitted?
    ensures Counts(x.p.metrics, y.p.metrics, y.p.output - x.p.output, y.h.log[|y.h.log| - 1].enhanced)
  {
    hide AllStored, Holds, Counts;
  }

  lemma FinishedMoves(cfg: Settings, x: Plugin, y: Plugin, n: nat, enhanced: bool)
    requires x.mid.Some? && y.mid == None && y.h.fed == x.h.fed && Counts(x.p.metrics, y.p.metrics, n, enhanced)
    requires y.p == x.p.(output := y.p.output, raw := y.p.raw, segs := y.p.segs, metrics := y.p.metrics)
    ensures Moves(cfg, x, FinishFrame, y) && CountersMove(cfg, x, FinishFrame, x.p.metrics, y.p.metrics)
  {
    assert x.h.fed + [] == x.h.fed;
  }

  lemma FinishKeepsRest(cfg: Settings, x: Plugin)
    requires Cursors(cfg, x) && x.mid.Some?
    ensures var y := OnFinish(cfg, x, x.mid.value);
            && y.mid == None && y.h.fed == x.h.fed
            && y.p == x.p.(output := y.p.output, raw := y.p.raw, segs := y.p.segs, metrics := y.p.metrics)
  {
    DueIsLag(cfg, x);
    FinishState(cfg, x, x.mid.value);
    hide Due, OnFinish, Found, DiscardSegments;
  }

  lemma OtherMoves(cfg: Settings, x: Plugin, a: Action)
    requires !a.BeginFrame? && !a.FinishFrame?
    ensures var y := Act(cfg, x, a);
            Moves(cfg, x, a, y) && CountersMove(cfg, x, a, x.p.metrics, y.p.metrics)
  {
    match a {
      case Response(generation, start, pcm) => ResponseMoves(cfg, x, generation, start, pcm); hide Act;
      case SetEnabled(value) => ToggleMoves(cfg, x, value); hide Act;
      case NewGeneration(generation, state) => GenerationMoves(cfg, x, generation, state); hide Act;
      case _ =>
    }
  }

  lemma GenerationMoves(cfg: Settings, x: Plugin, generation: nat, state: TransportState)
    ensures var a := NewGeneration(generation, state);
            var y := Act(cfg, x, a);
            Moves(cfg, x, a, y) && CountersMove(cfg, x, a, x.p.metrics, y.p.metrics)
  {
  }

  lemma ToggleMoves(cfg: Settings, x: Plugin, value: bool)
    ensures var y, a := Act(cfg, x, SetEnabled(value)), SetEnabled(value);
            Moves(cfg, x, a, y) && CountersMove(cfg, x, a, x.p.metrics, y.p.metrics)
  {
  }

  lemma ResponseMoves(cfg: Settings, x: Plugin, generation: nat, start: nat, pcm: seq<Byte>)
    ensures var a := Response(generation, start, pcm);
            var y := Act(cfg, x, a);
            Moves(cfg, x, a, y) && CountersMove(cfg, x, a, x.p.metrics, y.p.metrics)
  {
    ReceiveKeepsRest(x.p, generation, start, pcm);
    hide Receive;
  }

  lemma ReceiveKeepsRest(p: Proc, generation: nat, start: nat, pcm: seq<Byte>)
    ensures var p' := Receive(p, generation, start, pcm).0;
            p' == p.(segs := p'.segs, metrics := p.metrics.(late := p'.metrics.late,
                                                            mismatches := p'.metrics.mismatches))
  {
    hide Insert;
  }

  lemma Stepped(cfg: Settings, x: Plugin, a: Action, y: Plugin, z: Plugin)
    requires Moves(cfg, x, a, y) && CountersMove(cfg, x, a, x.p.metrics, y.p.metrics)
    requires z == y.(h := z.h) && z.h == y.h.(clears := z.h.clears)
    ensures Moves(cfg, x, a, z) && CountersMove(cfg, x, a, x.p.metrics, z.p.metrics)
  {
    hide TakenIn, Toggles;
  }

  lemma StepAdds(cfg: Settings, x: Plugin, a: Action)
    ensures var y, z := Act(cfg, x, a), Step(cfg, x, a); z == y.(h := z.h) && z.h == y.h.(clears := z.h.clears)
  {
    hide Act;
  }

  /** Any action in any run: the switch is what was last set before closing, the generation only rises and takes the
      newest number, the state is the last one announced, the input cursor counts the frames taken in, and apart from
      finishing a frame the output cursor moves only when a toggle jumps to the input cursor or a frame passes through
      while disabled; each event counter counts its event, and the worker is reset exactly when the switch changes. */
  lemma StepMoves(cfg: Settings, actions: seq<Action>, a: Action)
    ensures var x := Run(cfg, actions);
            var y := Step(cfg, x, a);
            Moves(cfg, x, a, y) && CountersMove(cfg, x, a, x.p.metrics, y.p.metrics)
    ensures var x := Run(cfg, actions);
            a.SetEnabled? ==> (Toggle(x.p, a.value).1 <==> Toggles(x, a))
  {
    hide *;
    var x := Run(cfg, actions);
    ToggleResets(x, a);
    RunGood(cfg, actions);
    GoodParts(cfg, x);
    StepAdds(cfg, x, a);
    ActCases(cfg, x, a);
    if a.BeginFrame? {
      if x.mid.None? {
        BeginMoves(cfg, x, a.frame);
      } else {
        Idle(cfg, x, a);
      }
    } else if a.FinishFrame? {
      if x.mid.Some? {
        FinishMoves(cfg, x);
      } else {
        Idle(cfg, x, a);
      }
    } else {
      OtherMoves(cfg, x, a);
    }
    Stepped(cfg, x, a, Act(cfg, x, a), Step(cfg, x, a));
  }

  lemma ToggleResets(x: Plugin, a: Action)
    ensures a.SetEnabled? ==> (Toggle(x.p, a.value).1 <==> Toggles(x, a))
  {
  }

  lemma ActCases(cfg: Settings, x: Plugin, a: Action)
    ensures a.BeginFrame? ==> Act(cfg, x, a) == if x.mid.None? then OnBegin(cfg, x, a.frame) else x
    ensures a.FinishFrame? ==> Act(cfg, x, a) == if x.mid.Some? then OnFinish(cfg, x, x.mid.value) else x
    ensures a.FinishFrame? && x.mid.Some? ==> a == FinishFrame
    ensures a.BeginFrame? ==> a == BeginFrame(a.frame)
  {
    hide OnBegin, OnFinish;
  }

  lemma Idle(cfg: Settings, x: Plugin, a: Action)
    requires (a.BeginFrame? && x.mid.Some?) || (a.FinishFrame? && x.mid.None?)
    ensures Moves(cfg, x, a, x) && CountersMove(cfg, x, a, x.p.metrics, x.p.metrics)
  {
  }

  /** Closing, whenever it comes between frames: from the first part on no frame is taken in, and the second part
      leaves nothing stored, raw or enhanced, and moves no cursor. */
  lemma ClosingEmpties(cfg: Settings, actions: seq<Action>, frame: Frame)
    requires Run(cfg, actions).mid.None?
    ensures var x := Run(cfg, actions);
            var closed := Step(cfg, x, StartClose);
            var empty := Step(cfg, closed, FinishClose);
            && closed.p == x.p.(closed := true) && TakenIn(cfg, closed, BeginFrame(frame)).None?
            && Step(cfg, closed, BeginFrame(frame)).p == closed.p
            && empty.p == closed.p.(segs := [], raw := Raw(x.p.input, []))
  {
    hide Run, Insert;
  }
}

/** What the processor emits: time alignment, and what happens when a response is delivered again. */
module ProcessorAlignment {
  import opened Wrappers
  import opened Pcm
  import opened Timeline
  import opened TimelineMap
  import opened Processor
  import opened ProcessorRuns

  /** Some response of a generation gave this sample for absolute index t. */
  ghost predicate Delivered(ds: seq<Delivery>, generation: nat, t: int, v: Sample) {
    exists i {:trigger ds[i]} :: 0 <= i < |ds| && Gives(ds[i], generation, t, v)
  }

  predicate Gives(d: Delivery, generation: nat, t: int, v: Sample) {
    d.generation == generation && d.start <= t < d.start + |d.pcm| / 2 && SampleAt(d.pcm, t - d.start) == v
  }

  /** The enhanced map lies between the cursors and holds only what the current generation delivered. */
  ghost predicate Enhanced(x: Plugin) {
    && Ordered(x.p.segs)
    && x.p.output <= x.p.input
    && forall t {:trigger At(x.p.segs, t)} | At(x.p.segs, t).Some? ::
         x.p.output <= t < x.p.input && Delivered(x.h.delivered, x.p.generation, t, At(x.p.segs, t).value)
  }

  /** Every sample of a chunk is the raw input at its own index, or was delivered for its own index by the generation
      that was current when it was emitted. */
  ghost predicate Aligned(h: History, e: Chunk) {
    e.Emitted? ==>
      && |e.pcm| % 2 == 0 && 2 * e.start + |e.pcm| <= |h.fed|
      && forall k {:trigger SampleAt(e.pcm, k)} | 0 <= k < |e.pcm| / 2 ::
           if e.enhanced then Delivered(h.delivered, e.generation, e.start + k, SampleAt(e.pcm, k))
           else SampleAt(e.pcm, k) == SampleAt(h.fed, e.start + k)
  }

  ghost predicate AllAligned(h: History) {
    forall i {:trigger h.log[i]} | 0 <= i < |h.log| :: Aligned(h, h.log[i])
  }

  /** Chunk after chunk the log continues where it stopped, from 0 to `end`; a jump goes forward to the input
      cursor. */
  predicate Tiles(log: seq<Chunk>, end: int) {
    if log == [] then end == 0
    else
      var front := log[..|log| - 1];
      match log[|log| - 1]
      case Emitted(start, pcm, _, _) => Tiles(front, start) && end == start + |pcm| / 2
      case Jumped(from, to, input) => Tiles(front, from) && from <= to == input && end == to
  }

  lemma TilesSnoc(log: seq<Chunk>, e: Chunk, end: int)
    requires Tiles(log, if e.Emitted? then e.start else e.from)
    requires if e.Emitted? then end == e.start + |e.pcm| / 2 else e.from <= e.to == e.input && end == e.to
    ensures Tiles(log + [e], end)
  {
    assert (log + [e])[..|log|] == log;
  }

  lemma DeliveredGrows(ds: seq<Delivery>, d: Delivery, generation: nat, t: int, v: Sample)
    ensures Delivered(ds, generation, t, v) ==> Delivered(ds + [d], generation, t, v)
    ensures Gives(d, generation, t, v) ==> Delivered(ds + [d], generation, t, v)
  {
    if Delivered(ds, generation, t, v) {
      var i :| 0 <= i < |ds| && Gives(ds[i], generation, t, v);
      assert (ds + [d])[i] == ds[i];
    }
    assert (ds + [d])[|ds|] == d;
  }

  /** Later input and later responses change nothing about chunks already emitted. */
  lemma AlignedGrows(h: History, h': History, e: Chunk)
    requires Aligned(h, e) && h.fed <= h'.fed
    requires h'.delivered == h.delivered || (|h'.delivered| > 0 && h'.delivered[..|h'.delivered| - 1] == h.delivered)
    ensures Aligned(h', e)
  {
    if e.Emitted? {
      forall k | 0 <= k < |e.pcm| / 2
        ensures if e.enhanced then Delivered(h'.delivered, e.generation, e.start + k, SampleAt(e.pcm, k))
                else SampleAt(e.pcm, k) == SampleAt(h'.fed, e.start + k)
      {
        assert SampleAt(e.pcm, k) == SampleAt(e.pcm, k);
        if h'.delivered != h.delivered {
          assert h'.delivered == h.delivered + [h'.delivered[|h.delivered|]];
          DeliveredGrows(h.delivered, h'.delivered[|h.delivered|], e.generation, e.start + k, SampleAt(e.pcm, k));
        }
      }
    }
  }

  /** The log after a step that adds at most one chunk. */
  lemma LogGrows(h: History, h': History)
    requires AllAligned(h) && h.fed <= h'.fed
    requires h'.delivered == h.delivered || (|h'.delivered| > 0 && h'.delivered[..|h'.delivered| - 1] == h.delivered)
    requires h'.log == h.log || (h'.log != [] && h'.log[..|h'.log| - 1] == h.log && Aligned(h', h'.log[|h.log|]))
    ensures AllAligned(h')
  {
    hide Aligned;
    forall i | 0 <= i < |h'.log| ensures Aligned(h', h'.log[i]) {
      if i < |h.log| {
        assert h'.log[i] == h.log[i];
        AlignedGrows(h, h', h.log[i]);
      }
    }
  }

  // ---- The enhanced map ----

  lemma NothingEnhanced(x: Plugin)
    requires x.p.segs == [] && x.p.output <= x.p.input
    ensures Enhanced(x)
  {
  }

  /** A response after trimming, with the delivery it came from. */
  lemma StoreEnhanced(x: Plugin, d: Delivery, start: nat, pcm: seq<Byte>)
    requires Enhanced(x) && d.generation == x.p.generation
    requires d.start <= start && x.p.output <= start && 2 * (start - d.start) <= |d.pcm|
             && pcm == d.pcm[2 * (start - d.start)..]
    ensures Enhanced(x.(p := Store(x.p, start, pcm).0, h := x.h.(delivered := x.h.delivered + [d])))
  {
    var p := Store(x.p, start, pcm).0;
    InsertRefinesMap(x.p.segs, start, pcm);
    if p.segs == [] {
      NothingEnhanced(x.(p := p, h := x.h.(delivered := x.h.delivered + [d])));
    } else {
      var c := Segment(start, pcm);
      hide Insert, At, Ordered, Delivered;
      forall t | At(p.segs, t).Some?
        ensures x.p.output <= t < x.p.input && Delivered(x.h.delivered + [d], x.p.generation, t, At(p.segs, t).value)
      {
        DeliveredGrows(x.h.delivered, d, x.p.generation, t, At(p.segs, t).value);
        if At(x.p.segs, t).None? || At(p.segs, t) != At(x.p.segs, t) {
          assert c.Covers(t);
          assert Gives(d, x.p.generation, t, At(p.segs, t).value);
        }
      }
    }
  }

  lemma SameMapEnhanced(x: Plugin, y: Plugin)
    requires Enhanced(x) && y.p.segs == x.p.segs && y.p.output == x.p.output && x.p.input <= y.p.input
    requires y.p.generation == x.p.generation
    requires y.h.delivered == x.h.delivered
             || (|y.h.delivered| > 0 && y.h.delivered[..|y.h.delivered| - 1] == x.h.delivered)
    ensures Enhanced(y)
  {
    hide At, Delivered, Ordered;
    forall t | At(y.p.segs, t).Some?
      ensures y.p.output <= t < y.p.input && Delivered(y.h.delivered, y.p.generation, t, At(y.p.segs, t).value)
    {
      if y.h.delivered != x.h.delivered {
        assert y.h.delivered == x.h.delivered + [y.h.delivered[|x.h.delivered|]];
        DeliveredGrows(x.h.delivered, y.h.delivered[|x.h.delivered|], x.p.generation, t, At(x.p.segs, t).value);
      }
    }
  }

  lemma ResponseEnhanced(x: Plugin, generation: nat, start: nat, pcm: seq<Byte>)
    requires Enhanced(x)
    ensures Enhanced(OnResponse(x, generation, start, pcm))
  {
    var d := Delivery(generation, start, pcm);
    var y := OnResponse(x, generation, start, pcm);
    assert (x.h.delivered + [d])[..|x.h.delivered|] == x.h.delivered;
    hide Enhanced, Store;
    if generation != x.p.generation || start + |pcm| / 2 <= x.p.output {
      SameMapEnhanced(x, y);
    } else if start < x.p.output {
      var trim := x.p.output - start;
      var late := x.(p := Late(x.p, trim));
      SameMapEnhanced(x, late);
      StoreEnhanced(late, d, x.p.output, pcm[trim * 2..]);
    } else {
      assert pcm == pcm[0..];
      StoreEnhanced(x, d, start, pcm);
    }
  }

  lemma DiscardEnhanced(x: Plugin, y: Plugin)
    requires Enhanced(x) && x.p.output <= y.p.output <= y.p.input && y.p.input == x.p.input
    requires y.p.segs == DiscardSegments(x.p.segs, y.p.output) && y.p.generation == x.p.generation
             && y.h.delivered == x.h.delivered
    ensures Enhanced(y)
  {
    DiscardRefinesMap(x.p.segs, y.p.output);
    hide At, Delivered, Ordered, DiscardSegments;
    forall t | At(y.p.segs, t).Some?
      ensures y.p.output <= t < y.p.input && Delivered(y.h.delivered, y.p.generation, t, At(y.p.segs, t).value)
    {
      assert At(x.p.segs, t) == At(y.p.segs, t);
    }
  }

  // ---- Steps ----

  ghost predicate Good(cfg: Settings, x: Plugin) {
    Cursors(cfg, x) && Enhanced(x) && AllAligned(x.h) && Tiles(x.h.log, x.p.output)
  }

  lemma BeginGood(cfg: Settings, x: Plugin, frame: Frame)
    requires Good(cfg, x) && x.mid.None?
    ensures Good(cfg, OnBegin(cfg, x, frame))
  {
    var y := OnBegin(cfg, x, frame);
    BeginCursors(cfg, x, frame);
    BeginCases(cfg, x, frame);
    hide Begin, OnBegin, Cursors, Enhanced, AllAligned, Tiles;
    if y.p.output == x.p.output {
      SameMapEnhanced(x, y);
      LogGrows(x.h, y.h);
    } else {
      BypassGood(cfg, x, y, frame);
    }
  }

  lemma BeginCases(cfg: Settings, x: Plugin, frame: Frame)
    requires Cursors(cfg, x)
    ensures var y := OnBegin(cfg, x, frame);
            && y.p.segs == x.p.segs && y.p.generation == x.p.generation && y.h.delivered == x.h.delivered
            && x.p.input <= y.p.input && x.h.fed <= y.h.fed
            && ((y.p.output == x.p.output && y.h.log == x.h.log)
                || (!x.p.enabled && x.p.output == x.p.input && FrameError(cfg, frame).None?
                    && y.p.output == x.p.output + frame.count && y.h.fed == x.h.fed + frame.pcm
                    && y.h.log == x.h.log + [Emitted(x.p.output, frame.pcm, x.p.generation, false)]))
  {
  }

  /** A frame passed through while disabled: nothing enhanced is stored then, and the frame is its own interval. */
  lemma BypassGood(cfg: Settings, x: Plugin, y: Plugin, frame: Frame)
    requires Good(cfg, x) && FrameError(cfg, frame).None? && x.p.output == x.p.input && Cursors(cfg, y)
    requires y.p.segs == x.p.segs && y.p.generation == x.p.generation && y.h.delivered == x.h.delivered
    requires y.p.output == x.p.output + frame.count && y.h.fed == x.h.fed + frame.pcm
    requires y.h.log == x.h.log + [Emitted(x.p.output, frame.pcm, x.p.generation, false)]
    ensures Good(cfg, y)
  {
    var e := Emitted(x.p.output, frame.pcm, x.p.generation, false);
    TilesSnoc(x.h.log, e, y.p.output);
    BypassAligned(x.h, y.h, e);
    EmptyBetween(x);
    NothingEnhanced(y);
    assert y.h.log[..|x.h.log|] == x.h.log;
    hide Enhanced, Aligned, AllAligned, Tiles;
    LogGrows(x.h, y.h);
  }

  lemma BypassAligned(h: History, h': History, e: Chunk)
    requires e.Emitted? && !e.enhanced && 2 * e.start == |h.fed| && |e.pcm| % 2 == 0 && h'.fed == h.fed + e.pcm
    ensures Aligned(h', e)
  {
  }

  lemma EmptyBetween(x: Plugin)
    requires Enhanced(x) && x.p.output == x.p.input
    ensures x.p.segs == []
  {
    if x.p.segs != [] {
      var s := x.p.segs[0];
      assert s.Sound();
      AtMember(x.p.segs, s, s.start);
    }
  }

  lemma FinishGood(cfg: Settings, x: Plugin)
    requires Good(cfg, x) && x.mid.Some?
    ensures Good(cfg, OnFinish(cfg, x, x.mid.value))
  {
    var n := Due(cfg, x.p, x.mid.value);
    var y := OnFinish(cfg, x, x.mid.value);
    FinishCursors(cfg, x);
    FinishCases(cfg, x);
    DueIsLag(cfg, x);
    var e := y.h.log[|x.h.log|];
    FinishAligned(cfg, x, n, e);
    TilesSnoc(x.h.log, e, y.p.output);
    DiscardEnhanced(x, y);
    hide Cursors, Enhanced, AllAligned, Tiles, Aligned, OnFinish, Due;
    assert y.h.log[..|x.h.log|] == x.h.log;
    AlignedGrows(x.h, y.h, e);
    LogGrows(x.h, y.h);
  }

  lemma FinishCases(cfg: Settings, x: Plugin)
    requires Cursors(cfg, x) && x.mid.Some?
    ensures var n, y := Due(cfg, x.p, x.mid.value), OnFinish(cfg, x, x.mid.value);
            var found := Found(x.p, n);
            && y.p.segs == DiscardSegments(x.p.segs, y.p.output) && y.p.generation == x.p.generation
            && y.h.delivered == x.h.delivered && y.p.input == x.p.input && y.h.fed == x.h.fed
            && x.p.output + n <= x.p.input && |x.h.fed| == 2 * x.p.input
            && y.p.output == x.p.output + n
            && y.h.log == x.h.log
               + [Emitted(x.p.output, if found.Some? then found.value
                          else x.h.fed[2 * x.p.output..2 * (x.p.output + n)],
                                            x.p.generation, found.Some?)]
  {
    DueIsLag(cfg, x);
    FinishState(cfg, x, x.mid.value);
    hide Due, OnFinish, Found, DiscardSegments;
  }

  lemma FinishAligned(cfg: Settings, x: Plugin, n: nat, e: Chunk)
    requires Enhanced(x) && x.p.output + n <= x.p.input && |x.h.fed| == 2 * x.p.input
    requires var found := Found(x.p, n);
             e == Emitted(x.p.output, if found.Some? then found.value
                          else x.h.fed[2 * x.p.output..2 * (x.p.output + n)],
                          x.p.generation, found.Some?)
    ensures Aligned(x.h, e) && |e.pcm| == 2 * n
  {
    hide Found, Enhanced, Aligned;
    if e.enhanced {
      EnhancedAligned(x, n, e);
    } else {
      RawAligned(x.h, e);
    }
  }

  lemma FoundLength(x: Plugin, n: nat)
    requires Enhanced(x) && Found(x.p, n).Some?
    ensures |Found(x.p, n).value| == 2 * n
  {
    if n > 0 {
      ReadRefinesMap(x.p.segs, x.p.output, x.p.output + n);
      hide ReadFrom, TimelineMap.At, Delivered, Ordered;
    }
  }

  lemma FoundDelivered(x: Plugin, n: nat, k: nat)
    requires Enhanced(x) && Found(x.p, n).Some? && k < n && |Found(x.p, n).value| == 2 * n
    ensures Delivered(x.h.delivered, x.p.generation, x.p.output + k, SampleAt(Found(x.p, n).value, k))
  {
    ReadRefinesMap(x.p.segs, x.p.output, x.p.output + n);
    hide ReadFrom, TimelineMap.At, Delivered, Ordered;
    assert At(x.p.segs, x.p.output + k) == Some(SampleAt(Found(x.p, n).value, k));
  }

  lemma EnhancedAligned(x: Plugin, n: nat, e: Chunk)
    requires Enhanced(x) && x.p.output + n <= x.p.input && |x.h.fed| == 2 * x.p.input && Found(x.p, n).Some?
    requires e == Emitted(x.p.output, Found(x.p, n).value, x.p.generation, true)
    ensures Aligned(x.h, e) && |e.pcm| == 2 * n
  {
    hide Found, Enhanced, Delivered;
    FoundLength(x, n);
    forall k | 0 <= k < n ensures Delivered(x.h.delivered, e.generation, e.start + k, SampleAt(e.pcm, k)) {
      FoundDelivered(x, n, k);
    }
  }

  lemma RawAligned(h: History, e: Chunk)
    requires e.Emitted? && !e.enhanced && |e.pcm| % 2 == 0 && 2 * e.start + |e.pcm| <= |h.fed|
    requires e.pcm == h.fed[2 * e.start..2 * e.start + |e.pcm|]
    ensures Aligned(h, e)
  {
  }

  lemma OtherGood(cfg: Settings, x: Plugin, a: Action)
    requires Good(cfg, x) && !a.BeginFrame? && !a.FinishFrame? && !a.Response?
    ensures Good(cfg, Act(cfg, x, a))
  {
    var y := Act(cfg, x, a);
    CursorsStep(cfg, x, a);
    hide Cursors, AllAligned, Tiles, Aligned;
    OtherCases(cfg, x, a);
    hide Act;
    if y.h.log != x.h.log {
      TilesSnoc(x.h.log, y.h.log[|x.h.log|], y.p.output);
      assert y.h.log[..|x.h.log|] == x.h.log;
    }
    LogGrows(x.h, y.h);
    if y.p.segs != [] {
      SameMapEnhanced(x, y);
    } else {
      NothingEnhanced(y);
    }
  }

  lemma OtherCases(cfg: Settings, x: Plugin, a: Action)
    requires x.p.output <= x.p.input && !a.BeginFrame? && !a.FinishFrame? && !a.Response?
    ensures var y := Act(cfg, x, a);
            && y.h.fed == x.h.fed && y.h.delivered == x.h.delivered && y.p.input == x.p.input && y.p.output <= y.p.input
            && (y.p.segs == [] || (y.p.segs == x.p.segs && y.p.output == x.p.output
                                   && y.p.generation == x.p.generation))
            && (if y.h.log == x.h.log then y.p.output == x.p.output
                else
                  && x.p.output <= y.p.output == x.p.input
                  && y.h.log == x.h.log + [Jumped(x.p.output, x.p.input, x.p.input)]
                  && Aligned(y.h, Jumped(x.p.output, x.p.input, x.p.input)))
  {
    assert x.h.log != x.h.log + [Jumped(x.p.output, x.p.input, x.p.input)];
  }

  lemma GoodStep(cfg: Settings, x: Plugin, a: Action)
    requires Good(cfg, x)
    ensures Good(cfg, Step(cfg, x, a))
  {
    var y := Act(cfg, x, a);
    assert Good(cfg, y) by {
      match a {
        case BeginFrame(frame) =>
          if x.mid.None? {
            BeginGood(cfg, x, frame);
            hide Good, OnBegin;
          }
        case FinishFrame =>
          if x.mid.Some? {
            FinishGood(cfg, x);
            hide Good, OnFinish;
          }
        case Response(generation, start, pcm) => ResponseGood(cfg, x, generation, start, pcm);
        case _ => OtherGood(cfg, x, a);
      }
    }
    hide Act, Enhanced, Tiles;
    CountedGood(cfg, x, y, Step(cfg, x, a));
  }

  lemma CountedGood(cfg: Settings, x: Plugin, y: Plugin, z: Plugin)
    requires Good(cfg, y) && z == y.(h := z.h) && z.h == y.h.(clears := z.h.clears)
    ensures Good(cfg, z)
  {
    hide Tiles, At, Delivered, Ordered;
    LogGrows(y.h, z.h);
  }

  lemma ResponseGood(cfg: Settings, x: Plugin, generation: nat, start: nat, pcm: seq<Byte>)
    requires Good(cfg, x)
    ensures Good(cfg, OnResponse(x, generation, start, pcm))
  {
    var y := OnResponse(x, generation, start, pcm);
    ReceiveKeeps(x.p, generation, start, pcm);
    ResponseEnhanced(x, generation, start, pcm);
    hide Receive, Enhanced, AllAligned, Tiles;
    assert y.h.delivered[..|x.h.delivered|] == x.h.delivered;
    LogGrows(x.h, y.h);
  }

  lemma {:induction false} RunGood(cfg: Settings, actions: seq<Action>)
    ensures Good(cfg, Run(cfg, actions))
  {
    if actions != [] {
      RunGood(cfg, actions[..|actions| - 1]);
      GoodStep(cfg, Run(cfg, actions[..|actions| - 1]), actions[|actions| - 1]);
      hide Good, Step;
    }
  }

  /** Time alignment: in every run, whatever arrives late, reconnects, toggles or overflows, the output is one
      interval after another except for jumps to exactly the input cursor at toggles, and each sample emitted for
      index t is the raw input sample t or a sample that the generation current at that moment delivered for t. */
  lemma TimeAlignment(cfg: Settings, actions: seq<Action>)
    ensures var x := Run(cfg, actions);
            && Tiles(x.h.log, x.p.output)
            && forall i | 0 <= i < |x.h.log| :: Aligned(x.h, x.h.log[i])
  {
    RunGood(cfg, actions);
    hide Run, Tiles, Aligned, Enhanced, Cursors;
  }

  // ---- Redelivery ----

  /** What a response left in the map at the current output cursor is still there, or is already behind the cursor. */
  predicate Held(p: Proc, generation: nat, start: nat, pcm: seq<Byte>) {
    var s := Segment(start, pcm);
    && generation == p.generation && s.Sound() && s.End() <= p.input
    && (s.End() > p.output ==> Cut(s, p.output) in p.segs)
  }

  /** A response that is still held can come again: it changes nothing and is no mismatch, even after the stored part
      was cut, because arrival trims at the same output cursor. */
  lemma HeldAgain(p: Proc, generation: nat, start: nat, pcm: seq<Byte>)
    requires Ordered(p.segs) && Held(p, generation, start, pcm)
    ensures var (p', reset) := Receive(p, generation, start, pcm);
            !reset && p'.segs == p.segs && p'.metrics.mismatches == p.metrics.mismatches
  {
    var s := Segment(start, pcm);
    hide Ordered, FirstOverlap, SortByStart;
    if s.End() > p.output {
      DuplicateMeetsItself(p.segs, Cut(s, p.output));
      OrderedSound(p.segs, Cut(s, p.output));
    }
  }

  lemma StoredIsKept(segs: seq<Segment>, c: Segment)
    requires Ordered(segs) && Insert(segs, c.start, c.pcm).Ok?
    ensures c in Insert(segs, c.start, c.pcm).value
  {
    InsertRefinesMap(segs, c.start, c.pcm);
    assert c == Segment(c.start, c.pcm);
    hide Insert, Ordered, At;
  }

  lemma AcceptedIsHeld(p: Proc, generation: nat, start: nat, pcm: seq<Byte>)
    requires Ordered(p.segs) && generation == p.generation && Segment(start, pcm).Sound() && p.output <= p.input
    requires Receive(p, generation, start, pcm).0.metrics.mismatches == p.metrics.mismatches
    ensures Held(Receive(p, generation, start, pcm).0, generation, start, pcm)
  {
    var s := Segment(start, pcm);
    hide Insert, Ordered;
    if s.End() > p.output {
      var c := Cut(s, p.output);
      if Insert(p.segs, c.start, c.pcm).Ok? {
        StoredIsKept(p.segs, c);
      }
    }
  }

  lemma InsertKeepsMembers(segs: seq<Segment>, start: int, pcm: seq<Byte>, s: Segment)
    requires Ordered(segs) && s in segs && Insert(segs, start, pcm).Ok?
    ensures s in Insert(segs, start, pcm).value
  {
    InsertRefinesMap(segs, start, pcm);
    hide Insert, Ordered, At;
  }

  /** What a response can do to the stored segments. */
  lemma ReceiveCases(p: Proc, g: nat, st: nat, more: seq<Byte>)
    ensures var p' := Receive(p, g, st, more).0;
            var at, rest := if st < p.output then p.output else st,
                            if st < p.output && 2 * (p.output - st) <= |more| then more[(p.output - st) * 2..]
                              else more;
            && p'.generation == p.generation && p'.input == p.input && p'.output == p.output
            && (p'.segs == p.segs || p'.segs == []
                || (Insert(p.segs, at, rest).Ok? && p'.segs == Insert(p.segs, at, rest).value))
  {
    hide Insert;
  }

  lemma HeldReceive(p: Proc, g: nat, st: nat, more: seq<Byte>, generation: nat, start: nat, pcm: seq<Byte>)
    requires Ordered(p.segs) && Held(p, generation, start, pcm)
    requires p.segs != [] ==> Receive(p, g, st, more).0.segs != []
    ensures Held(Receive(p, g, st, more).0, generation, start, pcm)
  {
    hide Insert, Ordered, Cut, Receive;
    ReceiveCases(p, g, st, more);
    var s := Segment(start, pcm);
    var at, rest := if st < p.output then p.output else st,
                    if st < p.output && 2 * (p.output - st) <= |more| then more[(p.output - st) * 2..] else more;
    if s.End() > p.output && Insert(p.segs, at, rest).Ok? {
      InsertKeepsMembers(p.segs, at, rest, Cut(s, p.output));
    }
  }

  lemma HeldFinish(cfg: Settings, x: Plugin, generation: nat, start: nat, pcm: seq<Byte>)
    requires Cursors(cfg, x) && Held(x.p, generation, start, pcm) && x.mid.Some?
    ensures Held(OnFinish(cfg, x, x.mid.value).p, generation, start, pcm)
  {
    var s, y := Segment(start, pcm), OnFinish(cfg, x, x.mid.value);
    FinishCases(cfg, x);
    hide OnFinish, Cursors, DiscardSegments, Cut;
    if s.End() > y.p.output {
      CutTwice(s, x.p.output, y.p.output);
      DiscardMember(x.p.segs, y.p.output, Cut(s, x.p.output));
    }
  }

  lemma HeldAct(cfg: Settings, x: Plugin, a: Action, generation: nat, start: nat, pcm: seq<Byte>)
    requires Good(cfg, x) && Held(x.p, generation, start, pcm)
    requires Act(cfg, x, a).p.generation == generation
    requires !a.FinishFrame? && x.p.segs != [] ==> Act(cfg, x, a).p.segs != []
    ensures Held(Act(cfg, x, a).p, generation, start, pcm)
  {
    var y := Act(cfg, x, a);
    hide Enhanced, AllAligned, Tiles, Cut, OnBegin, OnFinish, Receive, Ordered;
    match a {
      case BeginFrame(frame) =>
        if x.mid.None? {
          BeginCases(cfg, x, frame);
        }
      case FinishFrame =>
        if x.mid.Some? {
          HeldFinish(cfg, x, generation, start, pcm);
        }
      case Response(g, st, more) =>
        EnhancedOrdered(x);
        HeldReceive(x.p, g, st, more, generation, start, pcm);
      case _ => OtherCases(cfg, x, a);
    }
  }

  lemma EnhancedOrdered(x: Plugin)
    requires Enhanced(x)
    ensures Ordered(x.p.segs) && x.p.output <= x.p.input
  {
  }

  lemma Monotone(cfg: Settings, x: Plugin, a: Action)
    ensures var y := Step(cfg, x, a);
            && x.h.clears <= y.h.clears && x.p.generation <= y.p.generation
            && y.p == Act(cfg, x, a).p
            && (y.h.clears == x.h.clears && !a.FinishFrame? && x.p.segs != [] ==> y.p.segs != [])
  {
    hide Insert, RawAppend, RawDiscard, RawRead, DiscardSegments, ReadFrom, Due;
  }

  lemma {:induction false} HeldRun(cfg: Settings, x: Plugin, more: seq<Action>, generation: nat, start: nat,
                                   pcm: seq<Byte>)
    requires Good(cfg, x) && Held(x.p, generation, start, pcm)
    ensures var y := RunFrom(cfg, x, more);
            && Good(cfg, y) && x.h.clears <= y.h.clears && x.p.generation <= y.p.generation
            && (y.h.clears == x.h.clears && y.p.generation == generation ==> Held(y.p, generation, start, pcm))
  {
    if more != [] {
      var front, a := more[..|more| - 1], more[|more| - 1];
      HeldRun(cfg, x, front, generation, start, pcm);
      var w := RunFrom(cfg, x, front);
      var y := RunFrom(cfg, x, more);
      GoodStep(cfg, w, a);
      Monotone(cfg, w, a);
      assert Held(w.p, generation, start, pcm) ==> generation == w.p.generation;
      hide Held, Good, Act, Step;
      assert y == Step(cfg, w, a);
      if y.h.clears == x.h.clears && y.p.generation == generation {
        HeldGeneration(x.p, generation, start, pcm);
        HeldAct(cfg, w, a, generation, start, pcm);
      }
    }
  }

  lemma HeldGeneration(p: Proc, generation: nat, start: nat, pcm: seq<Byte>)
    requires Held(p, generation, start, pcm)
    ensures p.generation == generation
  {
  }

  /** Redelivery is idempotent: a response once accepted may come again after any further run in which no enhanced
      audio was thrown away and the generation stayed; it leaves the map as it is and is counted as no mismatch. */
  lemma RedeliveryIsIdempotent(cfg: Settings, before: seq<Action>, more: seq<Action>, generation: nat, start: nat,
                               pcm: seq<Byte>)
    requires pcm != [] && |pcm| % 2 == 0
    requires var x := Run(cfg, before);
             var y := Step(cfg, x, Response(generation, start, pcm));
             var z := RunFrom(cfg, y, more);
             && generation == x.p.generation && y.p.metrics.mismatches == x.p.metrics.mismatches
             && z.h.clears == y.h.clears && z.p.generation == generation
    ensures var z := RunFrom(cfg, Step(cfg, Run(cfg, before), Response(generation, start, pcm)), more);
            var again := Step(cfg, z, Response(generation, start, pcm));
            again.p.segs == z.p.segs && again.p.metrics.mismatches == z.p.metrics.mismatches
  {
    var x := Run(cfg, before);
    RunGood(cfg, before);
    EnhancedOrdered(x);
    var y := Step(cfg, x, Response(generation, start, pcm));
    GoodStep(cfg, x, Response(generation, start, pcm));
    AcceptedIsHeld(x.p, generation, start, pcm);
    var z := RunFrom(cfg, y, more);
    hide Run, RunFrom, Receive, Held;
    HeldRun(cfg, y, more, generation, start, pcm);
    EnhancedOrdered(z);
    HeldAgain(z.p, generation, start, pcm);
  }

  // ---- Accounting ----

  function Total(log: seq<Chunk>, enhanced: bool): nat {
    if log == [] then 0
    else
      var last := log[|log| - 1];
      Total(log[..|log| - 1], enhanced) + (if last.Emitted? && last.enhanced == enhanced then |last.pcm| / 2 else 0)
  }

  lemma TotalSnoc(log: seq<Chunk>, e: Chunk, enhanced: bool)
    ensures Total(log + [e], enhanced)
            == Total(log, enhanced) + (if e.Emitted? && e.enhanced == enhanced then |e.pcm| / 2 else 0)
  {
    assert (log + [e])[..|log|] == log;
  }

  predicate Accounts(x: Plugin) {
    && x.p.metrics.samplesIn == x.p.input
    && x.p.metrics.rawFallback == Total(x.h.log, false)
    && x.p.metrics.enhanced == Total(x.h.log, true)
    && x.p.metrics.samplesOut == Total(x.h.log, false) + Total(x.h.log, true)
  }

  lemma FinishMetrics(cfg: Settings, x: Plugin, count: nat)
    requires Processor.Finish(cfg, x.p, count).1.Ok?
    ensures var n, m, m' := Due(cfg, x.p, count), x.p.metrics, OnFinish(cfg, x, count).p.metrics;
            && m'.samplesIn == m.samplesIn && m'.samplesOut == m.samplesOut + n
            && m'.enhanced == m.enhanced + (if Found(x.p, n).Some? then n else 0)
            && m'.rawFallback == m.rawFallback + (if Found(x.p, n).Some? then 0 else n)
  {
    hide Due, RawRead, RawDiscard, Found, DiscardSegments;
  }

  lemma AccountsSnoc(x: Plugin, y: Plugin, e: Chunk, n: nat)
    requires Accounts(x) && e.Emitted? && |e.pcm| == 2 * n && y.h.log == x.h.log + [e] && y.p.input == x.p.input
    requires var m, m' := x.p.metrics, y.p.metrics;
             && m'.samplesIn == m.samplesIn && m'.samplesOut == m.samplesOut + n
             && m'.enhanced == m.enhanced + (if e.enhanced then n else 0)
             && m'.rawFallback == m.rawFallback + (if e.enhanced then 0 else n)
    ensures Accounts(y)
  {
    TotalSnoc(x.h.log, e, true);
    TotalSnoc(x.h.log, e, false);
    hide Total;
  }

  lemma GoodParts(cfg: Settings, x: Plugin)
    requires Good(cfg, x)
    ensures Cursors(cfg, x) && Enhanced(x)
  {
    hide Cursors, Enhanced, AllAligned, Tiles;
  }

  lemma AccountsFinish(cfg: Settings, x: Plugin)
    requires Good(cfg, x) && Accounts(x) && x.mid.Some?
    ensures Accounts(OnFinish(cfg, x, x.mid.value))
  {
    hide *;
    var n := Due(cfg, x.p, x.mid.value);
    var y := OnFinish(cfg, x, x.mid.value);
    GoodParts(cfg, x);
    FinishCases(cfg, x);
    FinishServes(cfg, x);
    var e := y.h.log[|x.h.log|];
    FinishAligned(cfg, x, n, e);
    FinishMetrics(cfg, x, x.mid.value);
    AccountsSnoc(x, y, e, n);
  }

  lemma AccountsAct(cfg: Settings, x: Plugin, a: Action)
    requires Good(cfg, x) && Accounts(x)
    ensures Accounts(Act(cfg, x, a))
  {
    hide Enhanced, AllAligned, Tiles, Insert, RawAppend, Total, OnFinish;
    match a {
      case BeginFrame(frame) =>
        TotalSnoc(x.h.log, Emitted(x.p.input, frame.pcm, x.p.generation, false), true);
        TotalSnoc(x.h.log, Emitted(x.p.input, frame.pcm, x.p.generation, false), false);
      case FinishFrame =>
        if x.mid.Some? {
          AccountsFinish(cfg, x);
        }
      case SetEnabled(value) =>
        TotalSnoc(x.h.log, Jumped(x.p.output, x.p.input, x.p.input), true);
        TotalSnoc(x.h.log, Jumped(x.p.output, x.p.input, x.p.input), false);
      case _ =>
    }
  }

  lemma {:induction false} RunAccounts(cfg: Settings, actions: seq<Action>)
    ensures Accounts(Run(cfg, actions))
  {
    if actions != [] {
      var front := actions[..|actions| - 1];
      RunAccounts(cfg, front);
      RunGood(cfg, front);
      AccountsAct(cfg, Run(cfg, front), actions[|actions| - 1]);
      hide Good, Act, Total;
    }
  }

  /** The metrics count what happened: samples in are the input cursor, and samples out are the samples emitted, split
      into raw and enhanced as they were emitted. */
  lemma MetricsCountSamples(cfg: Settings, actions: seq<Action>)
    ensures var x := Run(cfg, actions);
            && x.p.metrics.samplesIn == x.p.input
            && x.p.metrics.rawFallback == Total(x.h.log, false)
            && x.p.metrics.enhanced == Total(x.h.log, true)
            && x.p.metrics.samplesOut == x.p.metrics.rawFallback + x.p.metrics.enhanced
  {
    RunAccounts(cfg, actions);
    hide Run, Total;
  }
}

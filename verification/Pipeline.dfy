/** The single-stream pipeline: the sequential meaning that the batching server must agree with. */
module Pipeline {
  import opened Wrappers
  import opened Rechunker
  import opened Caches

  /** The network seen by one stream: an uninterpreted step on a hop and the stream's caches. */
  datatype Model = Model(step: (seq<real>, StreamCaches) -> (seq<real>, StreamCaches), init: StreamCaches)

  ghost predicate Sound(m: Model) {
    && Layout(m.init, 1)
    && forall hop: seq<real>, c: StreamCaches {:trigger m.step(hop, c)} | |hop| == HOP && Layout(c, 1) ::
         |m.step(hop, c).0| == HOP && Layout(m.step(hop, c).1, 1)
  }

  function SoloModel(net: Net): Model {
    Model((hop, c) => Solo(net, hop, c), net.init)
  }

  lemma SoloModelSound(net: Net)
    requires RowLocal(net)
    ensures Sound(SoloModel(net))
  {
    forall hop: seq<real>, c: StreamCaches | |hop| == HOP && Layout(c, 1)
      ensures |Solo(net, hop, c).0| == HOP && Layout(Solo(net, hop, c).1, 1)
    {
      SoloIsRun(net, hop, c);
    }
  }

  datatype EnhancedHop = EnhancedHop(start: int, samples: seq<real>, valid: nat)

  datatype PipelineError = PipelineClosed | BadHop | ModelFailed

  datatype Pipe = Pipe(caches: StreamCaches, pending: Option<SourceHop>, closed: bool)

  function Start(m: Model): Pipe {
    Pipe(m.init, None, false)
  }

  /** The part of a waveform that answers the hop pushed before; no more of it than the waveform has. */
  function Answer(previous: Option<SourceHop>, wav: seq<real>): Option<EnhancedHop> {
    match previous
    case None => None
    case Some(hop) =>
      Some(EnhancedHop(hop.start, if hop.valid <= |wav| then wav[..hop.valid] else wav, hop.valid))
  }

  function Push(m: Model, p: Pipe, source: SourceHop): Result<(Pipe, Option<EnhancedHop>), PipelineError> {
    if p.closed then Err(PipelineClosed)
    else if |source.samples| != HOP then Err(BadHop)
    else
      var (wav, caches) := m.step(source.samples, p.caches);
      Ok((Pipe(caches, Some(source), false), Answer(p.pending, wav)))
  }

  function Flush(m: Model, p: Pipe): (Pipe, Option<EnhancedHop>) {
    if p.closed then (p, None)
    else if p.pending.None? then (p.(closed := true), None)
    else
      var (wav, caches) := m.step(Padding(HOP), p.caches);
      (Pipe(caches, None, true), Answer(p.pending, wav))
  }

  function Listed<T>(o: Option<T>): seq<T> {
    if o.Some? then [o.value] else []
  }

  /** The pipeline after pushing all hops, with everything it has returned. */
  function PushAll(m: Model, hops: seq<SourceHop>): (Pipe, seq<EnhancedHop>) {
    if hops == [] then (Start(m), [])
    else
      var (p, outs) := PushAll(m, hops[..|hops| - 1]);
      match Push(m, p, hops[|hops| - 1])
      case Ok((p', out)) => (p', outs + Listed(out))
      case Err(_) => (p, outs)
  }

  function PipelineOutputs(m: Model, hops: seq<SourceHop>, flush: bool): seq<EnhancedHop> {
    var (p, outs) := PushAll(m, hops);
    if flush then outs + Listed(Flush(m, p).1) else outs
  }

  predicate WellFormedHops(hops: seq<SourceHop>) {
    forall i | 0 <= i < |hops| :: |hops[i].samples| == HOP && 0 < hops[i].valid <= HOP
  }

  lemma {:induction false} PushesAnswerHops(m: Model, hops: seq<SourceHop>)
    requires Sound(m) && WellFormedHops(hops)
    ensures var (p, outs) := PushAll(m, hops);
            && !p.closed && Layout(p.caches, 1)
            && p.pending == (if hops == [] then None else Some(hops[|hops| - 1]))
            && |outs| == (if hops == [] then 0 else |hops| - 1)
            && forall k | 0 <= k < |outs| ::
                 outs[k].start == hops[k].start && |outs[k].samples| == outs[k].valid == hops[k].valid
  {
    hide Layout;
    if hops != [] {
      PushesAnswerHops(m, hops[..|hops| - 1]);
    }
  }

  /** Output k answers hop k: same offset, same length.  Without a flush the last hop stays unanswered. */
  lemma OutputsAnswerHops(m: Model, hops: seq<SourceHop>)
    requires Sound(m) && WellFormedHops(hops)
    ensures var (p, outs) := PushAll(m, hops);
            && !p.closed && Layout(p.caches, 1)
            && p.pending == (if hops == [] then None else Some(hops[|hops| - 1]))
            && |outs| == (if hops == [] then 0 else |hops| - 1)
            && forall k | 0 <= k < |outs| ::
                 outs[k].start == hops[k].start && |outs[k].samples| == outs[k].valid == hops[k].valid
    ensures var outs := PipelineOutputs(m, hops, true);
            && |outs| == |hops|
            && forall k | 0 <= k < |hops| ::
                 outs[k].start == hops[k].start && |outs[k].samples| == outs[k].valid == hops[k].valid
  {
    PushesAnswerHops(m, hops);
    hide PushAll;
  }

  /** The caches after some hops. */
  function CachesAfter(m: Model, hops: seq<SourceHop>): StreamCaches {
    if hops == [] then m.init else m.step(hops[|hops| - 1].samples, CachesAfter(m, hops[..|hops| - 1])).1
  }

  function Silence(): seq<real> {
    seq(256, i => 0.0)
  }

  /** The waveform that comes one hop after hop k: that of the next hop, or of silence after the last one, on the
      caches after all hops up to k. */
  function Reply(m: Model, hops: seq<SourceHop>, k: nat): seq<real>
    requires k < |hops|
  {
    m.step(if k + 1 < |hops| then hops[k + 1].samples else Silence(), CachesAfter(m, hops[..k + 1])).0
  }

  predicate Answers(m: Model, hops: seq<SourceHop>, outs: seq<EnhancedHop>) {
    && |outs| <= |hops|
    && forall k | 0 <= k < |outs| ::
         hops[k].valid <= |Reply(m, hops, k)|
         && outs[k] == EnhancedHop(hops[k].start, Reply(m, hops, k)[..hops[k].valid], hops[k].valid)
  }

  lemma {:induction false} CachesAre(m: Model, hops: seq<SourceHop>)
    requires Sound(m) && WellFormedHops(hops)
    ensures PushAll(m, hops).0.caches == CachesAfter(m, hops) && Layout(CachesAfter(m, hops), 1)
  {
    PushesAnswerHops(m, hops);
    hide Layout;
    if hops != [] {
      CachesAre(m, hops[..|hops| - 1]);
      PushesAnswerHops(m, hops[..|hops| - 1]);
    }
  }

  lemma ReplyLength(m: Model, hops: seq<SourceHop>, k: nat)
    requires Sound(m) && WellFormedHops(hops) && k < |hops|
    ensures |Reply(m, hops, k)| == HOP
  {
    CachesAre(m, hops[..k + 1]);
    hide Layout, CachesAfter;
  }

  /** More hops do not change the replies to all but the last hop. */
  lemma ReplyStays(m: Model, hops: seq<SourceHop>, hop: SourceHop, k: nat)
    requires k + 1 < |hops|
    ensures Reply(m, hops + [hop], k) == Reply(m, hops, k)
  {
    assert (hops + [hop])[..k + 1] == hops[..k + 1];
  }

  /** What the last push adds. */
  lemma PushAnswer(m: Model, hops: seq<SourceHop>)
    requires Sound(m) && WellFormedHops(hops) && hops != []
    ensures var (p, outs) := PushAll(m, hops[..|hops| - 1]);
            PushAll(m, hops).1
            == outs + Listed(Answer(p.pending, m.step(hops[|hops| - 1].samples, p.caches).0))
  {
    PushesAnswerHops(m, hops[..|hops| - 1]);
    hide Layout;
  }

  lemma AnswersStay(m: Model, hops: seq<SourceHop>, last: SourceHop, outs: seq<EnhancedHop>)
    requires Answers(m, hops, outs) && (outs == [] || |outs| < |hops|)
    ensures Answers(m, hops + [last], outs)
  {
    hide Reply;
    forall k | 0 <= k < |outs|
      ensures hops[k].valid <= |Reply(m, hops + [last], k)|
      ensures outs[k] == EnhancedHop(hops[k].start, Reply(m, hops + [last], k)[..hops[k].valid], hops[k].valid)
    {
      ReplyStays(m, hops, last, k);
    }
  }

  lemma AnswersNext(m: Model, hops: seq<SourceHop>, outs: seq<EnhancedHop>)
    requires WellFormedHops(hops) && Answers(m, hops, outs) && |outs| < |hops| && |Reply(m, hops, |outs|)| == HOP
    ensures Answers(m, hops, outs + Listed(Answer(Some(hops[|outs|]), Reply(m, hops, |outs|))))
  {
    hide Reply;
  }

  lemma ReplyBefore(m: Model, front: seq<SourceHop>, last: SourceHop)
    requires front != []
    ensures Reply(m, front + [last], |front| - 1) == m.step(last.samples, CachesAfter(m, front)).0
  {
    assert (front + [last])[..|front|] == front;
  }

  lemma {:induction false} PushesReply(m: Model, hops: seq<SourceHop>)
    requires Sound(m) && WellFormedHops(hops)
    ensures Answers(m, hops, PushAll(m, hops).1)
  {
    if hops == [] {
      assert PushAll(m, hops).1 == [];
    } else {
      var front, last := hops[..|hops| - 1], hops[|hops| - 1];
      assert hops == front + [last] && WellFormedHops(front);
      hide *;
      PushesReply(m, front);
      PushesAnswerHops(m, front);
      CachesAre(m, front);
      PushAnswer(m, hops);
      var before := PushAll(m, front).1;
      AnswersStay(m, front, last, before);
      NoAnswer(m.step(last.samples, CachesAfter(m, front)).0, before);
      if front != [] {
        ReplyLength(m, hops, |before|);
        ReplyBefore(m, front, last);
        AnswersNext(m, hops, before);
      }
    }
  }

  lemma NoAnswer(wav: seq<real>, outs: seq<EnhancedHop>)
    ensures outs + Listed(Answer(None, wav)) == outs
  {
  }

  /** What the pipeline says, in full: output k has the offset and the length of hop k, and its samples are the first
      ones of the waveform that comes one hop later, which after a flush is that of silence for the last hop. */
  lemma OutputsAreReplies(m: Model, hops: seq<SourceHop>)
    requires Sound(m) && WellFormedHops(hops)
    ensures Answers(m, hops, PipelineOutputs(m, hops, false)) && Answers(m, hops, PipelineOutputs(m, hops, true))
    ensures |PipelineOutputs(m, hops, true)| == |hops|
    ensures |PipelineOutputs(m, hops, false)| == if hops == [] then 0 else |hops| - 1
  {
    PushesReply(m, hops);
    PushesAnswerHops(m, hops);
    CachesAre(m, hops);
    var (p, outs) := PushAll(m, hops);
    UnflushedIs(m, hops);
    hide PushAll, CachesAfter, Sound, Layout, Reply, Answers, WellFormedHops;
    if hops != [] {
      FlushedReplies(m, hops, p, outs);
    } else {
      assert Answers(m, hops, outs + []);
    }
  }

  lemma UnflushedIs(m: Model, hops: seq<SourceHop>)
    ensures PipelineOutputs(m, hops, false) == PushAll(m, hops).1
  {
    hide PushAll;
  }

  /** The flush answers the last hop. */
  lemma FlushedReplies(m: Model, hops: seq<SourceHop>, p: Pipe, outs: seq<EnhancedHop>)
    requires Sound(m) && WellFormedHops(hops) && hops != [] && PushAll(m, hops) == (p, outs)
    requires Answers(m, hops, outs) && |outs| == |hops| - 1
    requires !p.closed && p.pending == Some(hops[|hops| - 1]) && p.caches == CachesAfter(m, hops)
    ensures Answers(m, hops, PipelineOutputs(m, hops, true)) && |PipelineOutputs(m, hops, true)| == |hops|
  {
    var n := |hops| - 1;
    ReplyLength(m, hops, n);
    assert hops[..n + 1] == hops;
    assert Padding(HOP) == Silence();
    hide PushAll, CachesAfter, Sound;
    var last := Answer(p.pending, Reply(m, hops, n)).value;
    assert PipelineOutputs(m, hops, true) == outs + [last];
  }

  /** A pipeline takes exactly whole hops, and only as long as it is not closed; a flush closes it for good, and
      flushing again answers nothing. */
  lemma PushAndFlushWhen(m: Model, p: Pipe, source: SourceHop)
    ensures Push(m, p, source).Ok? <==> !p.closed && |source.samples| == 256
    ensures Push(m, p, source).Err? ==> Push(m, p, source).error == if p.closed then PipelineClosed else BadHop
    ensures Push(m, p, source).Ok? ==> !Push(m, p, source).value.0.closed
    ensures var after := Flush(m, p).0; after.closed && Flush(m, after) == (after, None)
    ensures Flush(m, p).1.Some? <==> !p.closed && p.pending.Some?
  {
  }

  /** Later hops only add outputs at the end. */
  lemma {:induction false} OutputsGrow(m: Model, hops: seq<SourceHop>, more: seq<SourceHop>, flush: bool)
    ensures PushAll(m, hops).1 <= PipelineOutputs(m, hops + more, flush)
  {
    if more == [] {
      assert hops + more == hops;
    } else {
      var front := more[..|more| - 1];
      OutputsGrow(m, hops, front, false);
      assert (hops + more)[..|hops + more| - 1] == hops + front;
    }
  }

  class StreamingPipeline {
    const net: Net
    var caches: StreamCaches
    var pending: Option<SourceHop>
    var closed: bool

    ghost predicate Valid()
      reads this
    {
      RowLocal(net) && Layout(caches, 1)
    }

    function View(): Pipe
      reads this
    {
      Pipe(caches, pending, closed)
    }

    constructor (net: Net)
      requires RowLocal(net)
      ensures this.net == net && Valid() && View() == Start(SoloModel(net))
    {
      this.net := net;
      caches := net.init;
      pending := None;
      closed := false;
    }

    method PushHop(source: SourceHop) returns (r: Result<Option<EnhancedHop>, PipelineError>)
      requires Valid()
      modifies this
      ensures Valid()
      ensures match Push(SoloModel(net), old(View()), source)
              case Ok((p, out)) => View() == p && r == Ok(out)
              case Err(e) => View() == old(View()) && r == Err(e)
    {
      if closed {
        return Err(PipelineClosed);
      }
      if |source.samples| != HOP {
        return Err(BadHop);
      }
      BatchIsSolo(net, [source.samples], [caches]);
      SoloIsRun(net, source.samples, caches);
      var inferred := InferBatch(net, [source.samples], [caches]);
      if inferred.Err? {
        return Err(ModelFailed);
      }
      var (wav, updated) := inferred.value;
      caches := updated[0];
      var previous := pending;
      pending := Some(source);
      if previous.None? {
        return Ok(None);
      }
      assert (wav[0], updated[0]) == Solo(net, source.samples, old(caches));
      return Ok(Some(EnhancedHop(previous.value.start,
                                 if previous.value.valid <= |wav[0]| then wav[0][..previous.value.valid] else wav[0],
                                 previous.value.valid)));
    }

    method Finish() returns (r: Result<Option<EnhancedHop>, PipelineError>)
      requires Valid()
      modifies this
      ensures Valid()
      ensures (View(), r) == (Flush(SoloModel(net), old(View())).0, Ok(Flush(SoloModel(net), old(View())).1))
    {
      if closed {
        return Ok(None);
      }
      closed := true;
      if pending.None? {
        return Ok(None);
      }
      BatchIsSolo(net, [Padding(HOP)], [caches]);
      SoloIsRun(net, Padding(HOP), caches);
      var inferred := InferBatch(net, [Padding(HOP)], [caches]);
      if inferred.Err? {
        return Err(ModelFailed);
      }
      var (wav, updated) := inferred.value;
      assert (wav[0], updated[0]) == Solo(net, Padding(HOP), caches);
      caches := updated[0];
      var last := pending.value;
      pending := None;
      return Ok(Some(EnhancedHop(last.start,
                                 if last.valid <= |wav[0]| then wav[0][..last.valid] else wav[0],
                                 last.valid)));
    }
  }
}

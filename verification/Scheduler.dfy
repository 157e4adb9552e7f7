/** The micro-batch scheduler: every stretch of its loop between two suspension points, as a method. */
module Scheduler {
  import opened Wrappers
  import opened Pcm
  import opened Rechunker
  import opened Caches
  import opened Sessions
  import Spec = Sessions

  class ServerMetrics {
    var outputQueueSamples: int
  }

  // ---- What a stretch over the first k streams of a batch does ----

  /** One row of an inferred batch: the work, its encoded waveform and its new caches. */
  datatype Row = Row(work: ModelWork, pcm: seq<Byte>, updated: StreamCaches)

  function TakeGauges(was: seq<Session>, k: nat): int
    requires k <= |was|
  {
    if k == 0 then 0 else TakeGauges(was, k - 1) + TakeGauge(was[k - 1])
  }

  function Active<T>(sessions: seq<T>, was: seq<Session>, k: nat): seq<(T, ModelWork)>
    requires k <= |was| == |sessions|
  {
    if k == 0 then []
    else
      match Take(was[k - 1]).1
      case None => Active(sessions, was, k - 1)
      case Some(work) => Active(sessions, was, k - 1) + [(sessions[k - 1], work)]
  }

  function AfterRow(s: Session, row: Row, closing: bool): Session {
    CommitAndNotify(s, row.work, row.pcm, row.updated, closing)
  }

  predicate RowWakes(s: Session, row: Row, closing: bool) {
    CommitWakes(s, row.work, row.pcm, row.updated, closing)
  }

  function RowGauge(s: Session, row: Row): int {
    CommitGauge(s, row.work, row.pcm, row.updated)
  }

  function CommitGauges(was: seq<Session>, rows: seq<Row>, k: nat): int
    requires k <= |was| == |rows|
  {
    if k == 0 then 0
    else CommitGauges(was, rows, k - 1) + RowGauge(was[k - 1], rows[k - 1])
  }

  function Woken<T>(sessions: seq<T>, was: seq<Session>, rows: seq<Row>, closing: bool, k: nat): seq<T>
    requires k <= |sessions| == |was| == |rows|
  {
    if k == 0 then []
    else
      Woken(sessions, was, rows, closing, k - 1)
      + (if RowWakes(was[k - 1], rows[k - 1], closing) then [sessions[k - 1]] else [])
  }

  /** One more row. */
  lemma WokenNext<T>(sessions: seq<T>, was: seq<Session>, rows: seq<Row>, closing: bool, k: nat, ready: seq<T>)
    requires k < |sessions| == |was| == |rows|
    ensures ready + Woken(sessions, was, rows, closing, k + 1)
            == if RowWakes(was[k], rows[k], closing) then ready + Woken(sessions, was, rows, closing, k) + [sessions[k]]
               else ready + Woken(sessions, was, rows, closing, k)
    ensures CommitGauges(was, rows, k + 1) == CommitGauges(was, rows, k) + RowGauge(was[k], rows[k])
  {
    hide RowWakes, RowGauge;
  }

  function FailGauges(was: seq<Session>, k: nat): int
    requires k <= |was|
  {
    if k == 0 then 0 else FailGauges(was, k - 1) + FailGauge(was[k - 1])
  }

  class BatchScheduler {
    const net: Net
    const maxBatchSize: nat
    const metrics: ServerMetrics
    var ready: seq<StreamSession>
    var closing: bool

    constructor (net: Net, metrics: ServerMetrics, maxBatchSize: nat)
      requires 0 < maxBatchSize
      ensures this.net == net && this.metrics == metrics && this.maxBatchSize == maxBatchSize
      ensures ready == [] && !closing
    {
      this.net, this.metrics, this.maxBatchSize := net, metrics, maxBatchSize;
      ready, closing := [], false;
    }

    method Notify(session: StreamSession)
      modifies this`ready, session`scheduled
      ensures session.View() == Spec.Notify(old(session.View()), closing)
      ensures ready == if Wakes(old(session.View()), closing) then old(ready) + [session] else old(ready)
    {
      if closing || session.cancelled || session.scheduled || session.inputQueue == [] {
        return;
      }
      session.scheduled := true;
      ready := ready + [session];
    }

    /** Collecting one more session from a non-empty ready queue. */
    method Collect(sessions: seq<StreamSession>) returns (collected: seq<StreamSession>)
      requires ready != [] && |sessions| < maxBatchSize
      modifies this`ready
      ensures collected == sessions + [old(ready)[0]] && ready == old(ready)[1..]
    {
      collected := sessions + [ready[0]];
      ready := ready[1..];
    }

    method Fail(session: StreamSession, status: Status)
      modifies session`cancelled, session`outputQueue, metrics
      ensures session.View() == Spec.Fail(old(session.View()), status)
      ensures metrics.outputQueueSamples == old(metrics.outputQueueSamples) + FailGauge(old(session.View()))
    {
      session.Cancel();
      while session.outputQueue != []
        invariant session.cancelled
        invariant metrics.outputQueueSamples - Queued(session.outputQueue)
                  == old(metrics.outputQueueSamples - Queued(session.outputQueue))
        decreases |session.outputQueue|
      {
        var event := session.outputQueue[0];
        session.outputQueue := session.outputQueue[1..];
        if event.OutputAudio? {
          metrics.outputQueueSamples := metrics.outputQueueSamples - event.valid;
        }
      }
      var ok := session.EmitNowait(RPCFailure(status));
      assert ok;
    }

    method Complete(session: StreamSession, flushed: bool)
      modifies session`ended, session`cancelled, session`outputQueue, metrics
      ensures session.View() == Spec.Complete(old(session.View()), flushed)
      ensures metrics.outputQueueSamples == old(metrics.outputQueueSamples) + CompleteGauge(old(session.View()))
    {
      if session.ended {
        return;
      }
      session.ended := true;
      var ok := session.EmitNowait(StreamCompletion(session.inputSamples, session.outputSamples, flushed));
      if !ok {
        Fail(session, RESOURCE_EXHAUSTED);
      }
    }

    method CompleteWithoutFlush(session: StreamSession)
      modifies session`pendingSource, session`ended, session`cancelled, session`outputQueue, metrics
      ensures session.View() == Spec.CompleteWithoutFlush(old(session.View()))
      ensures metrics.outputQueueSamples == old(metrics.outputQueueSamples) + CompleteGauge(old(session.View()))
    {
      session.pendingSource := None;
      Complete(session, false);
    }

    method CompleteEmptyFlush(session: StreamSession)
      modifies session`ended, session`cancelled, session`outputQueue, metrics
      ensures session.View() == Spec.Complete(old(session.View()), true)
      ensures metrics.outputQueueSamples == old(metrics.outputQueueSamples) + CompleteGauge(old(session.View()))
    {
      Complete(session, true);
    }

    /** One session of the collected batch: its work, if it has any to give. */
    method TakeOne(session: StreamSession) returns (work: Option<ModelWork>)
      modifies session, metrics
      ensures (session.View(), work) == Take(old(session.View()))
      ensures metrics.outputQueueSamples == old(metrics.outputQueueSamples) + TakeGauge(old(session.View()))
    {
      session.scheduled := false;
      if session.cancelled || session.ended {
        return None;
      }
      if session.inputQueue == [] {
        return None;
      }
      var next := session.inputQueue[0];
      session.inputQueue := session.inputQueue[1..];
      if next.terminalNoFlush {
        CompleteWithoutFlush(session);
        return None;
      }
      return Some(next);
    }

    /** From the end of collecting to the start of inference: at most one hop of each collected session. */
    method TakeBatch(sessions: seq<StreamSession>, ghost was: seq<Session>)
      returns (active: seq<(StreamSession, ModelWork)>)
      requires forall i, j | 0 <= i < j < |sessions| :: sessions[i] != sessions[j]
      requires |was| == |sessions|
      requires forall k | 0 <= k < |sessions| :: was[k] == sessions[k].View()
      modifies sessions, metrics
      ensures forall k | 0 <= k < |sessions| :: sessions[k].View() == Take(was[k]).0
      ensures active == Active(sessions, was, |was|)
      ensures metrics.outputQueueSamples == old(metrics.outputQueueSamples) + TakeGauges(was, |was|)
    {
      hide StreamSession.View, Take, TakeGauge;
      active := [];
      for k := 0 to |sessions|
        invariant forall j | 0 <= j < k :: sessions[j].View() == Take(was[j]).0
        invariant forall j | k <= j < |sessions| :: sessions[j].View() == was[j]
        invariant active == Active(sessions, was, k)
        invariant metrics.outputQueueSamples == old(metrics.outputQueueSamples) + TakeGauges(was, k)
      {
        var work := TakeOne(sessions[k]);
        if work.Some? {
          active := active + [(sessions[k], work.value)];
        }
      }
    }

    /** The executor's part: one batched inference, and the encoding of every row. */
    method TimedInference(audio: Matrix, caches: seq<StreamCaches>)
      returns (r: Result<(seq<seq<Byte>>, seq<StreamCaches>), ModelError>)
      ensures match InferBatch(net, audio, caches)
              case Err(e) => r == Err(e)
              case Ok((wav, updated)) =>
                r.Ok? && r.value.1 == updated && |r.value.0| == |wav|
                && forall k | 0 <= k < |wav| :: r.value.0[k] == Encode(wav[k])
    {
      var inferred := InferBatch(net, audio, caches);
      if inferred.Err? {
        return Err(inferred.error);
      }
      var (wav, updated) := inferred.value;
      var pcms: seq<seq<Byte>> := [];
      for k := 0 to |wav|
        invariant |pcms| == k && forall j | 0 <= j < k :: pcms[j] == Encode(wav[j])
      {
        pcms := pcms + [Encode(wav[k])];
      }
      return Ok((pcms, updated));
    }

    /** Emitting the delayed hop, or failing the stream when its output queue is full. */
    method EmitDelayed(session: StreamSession, previous: SourceHop, pcm: seq<Byte>) returns (ok: bool)
      modifies session`outputQueue, session`outputSamples, session`cancelled, metrics
      ensures ok <==> !Full(old(session.View()))
      ensures session.View() == if ok then Emit(old(session.View()), previous, pcm)
                                else Spec.Fail(old(session.View()), RESOURCE_EXHAUSTED)
      ensures metrics.outputQueueSamples
              == old(metrics.outputQueueSamples) + (if ok then previous.valid else FailGauge(old(session.View())))
    {
      ok := session.EmitNowait(OutputAudio(previous.start, Cut(pcm, previous.valid), previous.valid));
      if !ok {
        Fail(session, RESOURCE_EXHAUSTED);
        return;
      }
      metrics.outputQueueSamples := metrics.outputQueueSamples + previous.valid;
      session.outputSamples := session.outputSamples + previous.valid;
    }

    /** One session of an inferred batch: commit its caches, emit the delayed hop, finish or notify. */
    method CommitOne(session: StreamSession, row: Row)
      modifies this`ready, session`caches, session`pendingSource, session`outputQueue, session`outputSamples
      modifies session`scheduled, session`ended, session`cancelled, metrics
      ensures session.View() == AfterRow(old(session.View()), row, closing)
      ensures ready == if RowWakes(old(session.View()), row, closing) then old(ready) + [session] else old(ready)
      ensures metrics.outputQueueSamples == old(metrics.outputQueueSamples) + RowGauge(old(session.View()), row)
    {
      hide Spec.Fail, Spec.Complete, Spec.Notify, CompleteGauge, Wakes, Emit, Queued;
      var Row(work, pcm, updated) := row;
      if session.cancelled || session.ended {
        return;
      }
      session.caches := updated;
      var previous := session.pendingSource;
      if work.terminalFlush {
        session.pendingSource := None;
      } else {
        session.pendingSource := work.source;
      }
      assert session.View() == Advance(old(session.View()), work, updated);
      if previous.Some? {
        var ok := EmitDelayed(session, previous.value, pcm);
        if !ok {
          return;
        }
      }
      if work.terminalFlush {
        Complete(session, true);
      } else if session.inputQueue != [] {
        Notify(session);
      }
    }

    /** From the end of inference to the next wait for a ready session. */
    method CommitBatch(sessions: seq<StreamSession>, rows: seq<Row>, ghost was: seq<Session>)
      requires |rows| == |was| == |sessions|
      requires forall i, j | 0 <= i < j < |sessions| :: sessions[i] != sessions[j]
      requires forall k | 0 <= k < |sessions| :: was[k] == sessions[k].View()
      modifies this`ready, sessions, metrics
      ensures forall k | 0 <= k < |sessions| :: sessions[k].View() == AfterRow(was[k], rows[k], closing)
      ensures ready == old(ready) + Woken(sessions, was, rows, closing, |was|)
      ensures metrics.outputQueueSamples == old(metrics.outputQueueSamples) + CommitGauges(was, rows, |was|)
    {
      ghost var down := closing;
      hide StreamSession.View, AfterRow, RowWakes, RowGauge;
      for k := 0 to |sessions|
        invariant closing == down
        invariant forall j | 0 <= j < k ::
                    sessions[j].View() == AfterRow(was[j], rows[j], down)
        invariant forall j | k <= j < |sessions| :: sessions[j].View() == was[j]
        invariant ready == old(ready) + Woken(sessions, was, rows, down, k)
        invariant metrics.outputQueueSamples == old(metrics.outputQueueSamples) + CommitGauges(was, rows, k)
      {
        WokenNext(sessions, was, rows, down, k, old(ready));
        hide Woken, CommitGauges;
        CommitOne(sessions[k], rows[k]);
      }
    }

    /** When inference raises, every session of the batch fails. */
    method FailBatch(sessions: seq<StreamSession>, ghost was: seq<Session>)
      requires |was| == |sessions|
      requires forall i, j | 0 <= i < j < |sessions| :: sessions[i] != sessions[j]
      requires forall k | 0 <= k < |sessions| :: was[k] == sessions[k].View()
      modifies sessions, metrics
      ensures forall k | 0 <= k < |sessions| :: sessions[k].View() == Spec.Fail(was[k], INTERNAL)
      ensures metrics.outputQueueSamples == old(metrics.outputQueueSamples) + FailGauges(was, |was|)
    {
      hide StreamSession.View, Spec.Fail, FailGauge;
      for k := 0 to |sessions|
        invariant forall j | 0 <= j < k :: sessions[j].View() == Spec.Fail(was[j], INTERNAL)
        invariant forall j | k <= j < |sessions| :: sessions[j].View() == was[j]
        invariant metrics.outputQueueSamples == old(metrics.outputQueueSamples) + FailGauges(was, k)
      {
        Fail(sessions[k], INTERNAL);
      }
    }
  }
}

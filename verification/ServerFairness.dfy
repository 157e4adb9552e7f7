/** Scheduling guarantees over whole runs: no wake-up is lost, nothing is scheduled twice, and bypass is bounded. */
module ServerFairness {
  import opened Wrappers
  import opened Pcm
  import opened Caches
  import opened Pipeline
  import opened Sessions
  import opened StreamMachine
  import opened StreamInvariants
  import opened ServerMachine
  import opened ServerProjection
  import opened ServerInvariants

  predicate Flying(st: Server, j: nat) {
    Find(Jobs(st.phase), j).Some?
  }

  /** `scheduled` holds exactly when a stream is once in the ready queue or in the batch being collected, no batch
      holds a stream twice, and a live stream with input - so every stream whose reader waits for room - is with the
      scheduler. */
  lemma NoLostWakeup(c: Config, labels: seq<Label>, j: nat)
    requires RowLocal(c.net) && j < |Run(c, labels).streams|
    ensures var st := Run(c, labels);
            var s := st.streams[j].s;
            && Count(st.ready, j) + Count(Pending(st.phase), j) == (if s.scheduled then 1 else 0)
            && Count(Pending(st.phase), j) + Count(Sids(Jobs(st.phase)), j) <= 1
            && (!s.cancelled && !st.closing && s.inputQueue != [] ==> s.scheduled || Flying(st, j))
            && (!s.cancelled && !st.closing && |s.inputQueue| == s.inputCap ==> s.scheduled || Flying(st, j))
            && (!s.cancelled && s.ended ==> s.inputQueue == [] && !Flying(st, j))
  {
    RunsAreOk(c, labels);
    var st := Run(c, labels);
    QueuedOnce(c, st, j);
    assert Inv(SoloModel(c.net), SliceOf(st, j));
    hide Run, Count, Find, Tracks, Sent, Intake, Layout, WorksOk, FeedOf;
    EndedIsSpent(SliceOf(st, j));
  }

  lemma EndedIsSpent(sl: Slice)
    requires Ledger(sl) && Outbox(sl)
    ensures !sl.x.s.cancelled && sl.x.s.ended ==> sl.x.s.inputQueue == [] && sl.flight.None?
  {
    hide FeedOf, AllAudio, NoAudio, Todo;
    var x := sl.x;
    if !x.s.cancelled && x.s.ended {
      var a, b, d, e := x.h.committed, InFlight(sl), x.s.inputQueue, Todo(x.reader, x.h.input);
      assert |a + b + d + e| == |a|;
    }
  }

  // ---- Bounds ----

  function BatchSize(st: Server): nat {
    |Pending(st.phase)| + |Jobs(st.phase)|
  }

  function MaxBatch(c: Config): nat {
    if c.maxBatch < 1 then 1 else c.maxBatch
  }

  lemma BatchSizeStep(c: Config, st: Server, l: Label)
    requires BatchSize(st) <= MaxBatch(c)
    ensures BatchSize(ServerMachine.Step(c, st, l)) <= MaxBatch(c)
  {
    hide Take, TakeFrom, TakeGauge, React, LaunchJob, InferBatch, Captured, HopsOf, AllLaunched, CommitTo,
      CommitWakes, CommitGauge, FailGauge;
  }

  lemma {:induction false} BatchSizeRun(c: Config, labels: seq<Label>)
    ensures BatchSize(Run(c, labels)) <= MaxBatch(c)
  {
    if labels != [] {
      BatchSizeRun(c, labels[..|labels| - 1]);
      BatchSizeStep(c, Run(c, labels[..|labels| - 1]), labels[|labels| - 1]);
      hide ServerMachine.Step, BatchSize;
    }
  }

  /** Everything stays within its bound in every run: a batch never exceeds the configured size, and is added to
      exactly as long as it is below that size and a stream waits; the queues of each stream never exceed their
      capacities. */
  lemma WithinBounds(c: Config, labels: seq<Label>)
    requires RowLocal(c.net)
    ensures var st := Run(c, labels);
            && BatchSize(st) <= MaxBatch(c)
            && (forall j | 0 <= j < |st.streams| ::
                  |st.streams[j].s.inputQueue| <= st.streams[j].s.inputCap
                  && |st.streams[j].s.outputQueue| <= st.streams[j].s.outputCap)
            && (st.phase.Idle? || st.phase.Collecting? ==>
                  (BatchSize(ServerMachine.Step(c, st, Collect)) > BatchSize(st)
                   <==> st.ready != [] && (st.phase.Idle? || BatchSize(st) < c.maxBatch)))
  {
    hide *;
    var st := Run(c, labels);
    BatchSizeRun(c, labels);
    RunsAreOk(c, labels);
    forall j | 0 <= j < |st.streams|
      ensures |st.streams[j].s.inputQueue| <= st.streams[j].s.inputCap
              && |st.streams[j].s.outputQueue| <= st.streams[j].s.outputCap
    {
      QueuesWithin(c, st, j);
    }
    CollectGrows(c, st);
  }

  lemma QueuesWithin(c: Config, st: Server, j: nat)
    requires AllOk(c, st) && j < |st.streams|
    ensures |st.streams[j].s.inputQueue| <= st.streams[j].s.inputCap
            && |st.streams[j].s.outputQueue| <= st.streams[j].s.outputCap
  {
    assert Inv(SoloModel(c.net), SliceOf(st, j));
    hide InvOut, Intake, Ledger, Awake, Count, Find, Layout, WorksOk;
  }

  lemma CollectGrows(c: Config, st: Server)
    ensures st.phase.Idle? || st.phase.Collecting? ==>
              (BatchSize(ServerMachine.Step(c, st, Collect)) > BatchSize(st)
               <==> st.ready != [] && (st.phase.Idle? || BatchSize(st) < c.maxBatch))
  {
  }

  // ---- The ready queue is a queue ----

  /** Streams that enter the ready queue in a step. */
  function Arrives(c: Config, st: Server, l: Label): seq<nat> {
    match l
    case At(i, e) =>
      if i < |st.streams| && React(c.maxChunk, st.closing, st.streams[i], e).wakes then [i] else []
    case CommitNext =>
      if |CommitNextStep(st).ready| > |st.ready| then [st.phase.jobs[0].sid] else []
    case _ => []
  }

  /** Streams that leave the ready queue for the batch in a step. */
  function Collects(c: Config, st: Server, l: Label): seq<nat> {
    if l.Collect? && CollectStep(c, st) != st then [st.ready[0]] else []
  }

  /** Streams whose work is taken in a step. */
  function Takes(st: Server, l: Label): seq<nat> {
    if l.TakeNext? && TakeNextStep(st) != st then [st.phase.todo[0]] else []
  }

  /** Whether a step begins an iteration of the scheduler's loop. */
  predicate Begins(c: Config, st: Server, l: Label) {
    l.Collect? && st.phase.Idle? && st.ready != []
  }

  function Arrived(c: Config, st: Server, more: seq<Label>): seq<nat> {
    if more == [] then []
    else
      var front := more[..|more| - 1];
      Arrived(c, st, front) + Arrives(c, RunFrom(c, st, front), more[|more| - 1])
  }

  function Collected(c: Config, st: Server, more: seq<Label>): seq<nat> {
    if more == [] then []
    else
      var front := more[..|more| - 1];
      Collected(c, st, front) + Collects(c, RunFrom(c, st, front), more[|more| - 1])
  }

  function Taken(c: Config, st: Server, more: seq<Label>): seq<nat> {
    if more == [] then []
    else
      var front := more[..|more| - 1];
      Taken(c, st, front) + Takes(RunFrom(c, st, front), more[|more| - 1])
  }

  function Iterations(c: Config, st: Server, more: seq<Label>): nat {
    if more == [] then 0
    else
      var front := more[..|more| - 1];
      Iterations(c, st, front) + (if Begins(c, RunFrom(c, st, front), more[|more| - 1]) then 1 else 0)
  }

  lemma QueueStep(c: Config, st: Server, l: Label)
    ensures var st' := ServerMachine.Step(c, st, l);
            && st.ready + Arrives(c, st, l) == Collects(c, st, l) + st'.ready
            && Pending(st.phase) + Collects(c, st, l) == Takes(st, l) + Pending(st'.phase)
  {
    match l {
      case At(i, e) => QueueAt(c, st, i, e);
      case Collect => QueueCollect(c, st);
      case TakeNext => QueueTake(c, st);
      case CommitNext => QueueCommit(c, st);
      case _ => QueueOther(c, st, l);
    }
  }

  lemma QueueAt(c: Config, st: Server, i: nat, e: Event)
    ensures var st' := ServerMachine.Step(c, st, At(i, e));
            st.ready + Arrives(c, st, At(i, e)) == st'.ready && st'.phase == st.phase
    ensures Collects(c, st, At(i, e)) == [] && Takes(st, At(i, e)) == []
  {
    hide React;
  }

  lemma QueueCollect(c: Config, st: Server)
    ensures var st' := ServerMachine.Step(c, st, Collect);
            && st.ready == Collects(c, st, Collect) + st'.ready
            && Pending(st.phase) + Collects(c, st, Collect) == Pending(st'.phase)
    ensures Arrives(c, st, Collect) == [] && Takes(st, Collect) == []
  {
  }

  lemma QueueTake(c: Config, st: Server)
    ensures var st' := ServerMachine.Step(c, st, TakeNext);
            st'.ready == st.ready && Pending(st.phase) == Takes(st, TakeNext) + Pending(st'.phase)
    ensures Arrives(c, st, TakeNext) == [] && Collects(c, st, TakeNext) == []
  {
    hide Take, TakeFrom, TakeGauge;
  }

  lemma QueueCommit(c: Config, st: Server)
    ensures var st' := ServerMachine.Step(c, st, CommitNext);
            && st.ready + Arrives(c, st, CommitNext) == st'.ready
            && Pending(st.phase) == Pending(st'.phase)
    ensures Collects(c, st, CommitNext) == [] && Takes(st, CommitNext) == []
  {
    hide CommitTo, CommitWakes, CommitGauge;
  }

  lemma QueueOther(c: Config, st: Server, l: Label)
    requires !l.At? && !l.Collect? && !l.TakeNext? && !l.CommitNext?
    ensures var st' := ServerMachine.Step(c, st, l);
            st'.ready == st.ready && Pending(st.phase) == Pending(st'.phase)
    ensures Arrives(c, st, l) == [] && Collects(c, st, l) == [] && Takes(st, l) == []
  {
    hide InferBatch, Captured, HopsOf, AllLaunched;
  }

  lemma BeginsCollects(c: Config, st: Server, l: Label)
    ensures Begins(c, st, l) ==> |Collects(c, st, l)| == 1
  {
  }

  /** One more step of a queue: what was in it and what came is what left and what stayed. */
  lemma QueueShift(start: seq<nat>, came: seq<nat>, left: seq<nat>, now: seq<nat>, a: seq<nat>, l: seq<nat>,
                   next: seq<nat>)
    requires start + came == left + now && now + a == l + next
    ensures start + (came + a) == (left + l) + next
  {
    assert start + (came + a) == (start + came) + a;
    assert (left + now) + a == left + (now + a);
    assert left + (l + next) == (left + l) + next;
  }

  /** The ready queue and the batch are first-in, first-out: what was waiting and what arrives is collected in that
      order, and everything collected is taken in that order. */
  lemma {:induction false} FirstInFirstOut(c: Config, st: Server, more: seq<Label>)
    requires RowLocal(c.net) && AllOk(c, st)
    ensures AllOk(c, RunFrom(c, st, more))
    ensures st.ready + Arrived(c, st, more) == Collected(c, st, more) + RunFrom(c, st, more).ready
    ensures Pending(st.phase) + Collected(c, st, more) == Taken(c, st, more) + Pending(RunFrom(c, st, more).phase)
    ensures Iterations(c, st, more) <= |Collected(c, st, more)|
  {
    if more != [] {
      var front, l := more[..|more| - 1], more[|more| - 1];
      FirstInFirstOut(c, st, front);
      var mid := RunFrom(c, st, front);
      var y := ServerMachine.Step(c, mid, l);
      StepBatchOk(c, mid, l);
      StreamsStayOk(c, mid, l);
      QueueStep(c, mid, l);
      BeginsCollects(c, mid, l);
      hide ServerMachine.Step, BatchOk, StreamsOk, Arrives, Collects, Takes, Begins, Pending, RowLocal;
      QueueShift(st.ready, Arrived(c, st, front), Collected(c, st, front), mid.ready, Arrives(c, mid, l),
                 Collects(c, mid, l), y.ready);
      QueueShift(Pending(st.phase), Collected(c, st, front), Taken(c, st, front), Pending(mid.phase),
                 Collects(c, mid, l), Takes(mid, l), Pending(y.phase));
    }
  }

  /** Only a stream that can use its turn enters the ready queue: it is live, was not scheduled before, has input, and
      the scheduler is not closing. */
  lemma ArrivalsAreLive(c: Config, st: Server, l: Label, j: nat)
    requires j in Arrives(c, st, l)
    ensures var st' := ServerMachine.Step(c, st, l);
            && !st'.closing && j < |st.streams| && j < |st'.streams|
            && !st.streams[j].s.scheduled && st'.streams[j].s.scheduled
            && !st'.streams[j].s.cancelled && st'.streams[j].s.inputQueue != []
  {
    match l {
      case At(i, e) =>
        WokenLive(c.maxChunk, st.closing, st.streams[i], e);
        hide React;
      case CommitNext =>
        var Job(i, Flight(work, Computed(pcm, updated))) := st.phase.jobs[0];
        CommittedLive(st.streams[i], work, pcm, updated, st.closing);
        hide CommitTo, CommitWakes, CommitGauge;
      case _ =>
    }
  }

  lemma WokenLive(maxChunk: nat, closing: bool, x: Stream, e: Event)
    ensures var r := React(maxChunk, closing, x, e);
            r.wakes ==> !closing && !x.s.scheduled && r.x.s.scheduled && !r.x.s.cancelled && r.x.s.inputQueue != []
  {
  }

  lemma CommittedLive(x: Stream, work: ModelWork, pcm: seq<Byte>, updated: StreamCaches, closing: bool)
    ensures var y := CommitTo(x, work, pcm, updated, closing);
            CommitWakes(x.s, work, pcm, updated, closing) ==>
              !closing && !x.s.scheduled && y.s.scheduled && !y.s.cancelled && y.s.inputQueue != []
  {
    hide Sessions.Audio;
  }

  // ---- Bounded bypass ----

  lemma {:induction false} CountConcat(a: seq<nat>, b: seq<nat>, j: nat)
    ensures Count(a + b, j) == Count(a, j) + Count(b, j)
  {
    if a == [] {
      assert a + b == b;
    } else {
      CountConcat(a[1..], b, j);
      assert (a + b)[1..] == a[1..] + b;
    }
  }

  lemma WaitsOnce(c: Config, st: Server, j: nat)
    requires AllOk(c, st)
    ensures Count(Pending(st.phase) + st.ready, j) <= 1
  {
    CountConcat(Pending(st.phase), st.ready, j);
    if j < |st.streams| {
      QueuedOnce(c, st, j);
    } else {
      CountOutside(Pending(st.phase), |st.streams|, j);
      CountOutside(st.ready, |st.streams|, j);
    }
  }

  lemma CountPrefix(sids: seq<nat>, p: nat, j: nat)
    requires p <= |sids|
    ensures Count(sids[..p], j) <= Count(sids, j)
  {
    CountConcat(sids[..p], sids[p..], j);
    assert sids[..p] + sids[p..] == sids;
  }

  /** Bounded bypass: what waits is the batch being taken and then the ready queue, and the next streams taken are
      exactly those, in this order and each of them once; so before the stream at position p is taken, at most p
      others are, each at most once. */
  lemma BoundedBypass(c: Config, labels: seq<Label>, more: seq<Label>, p: nat)
    requires RowLocal(c.net)
    requires p <= |Pending(Run(c, labels).phase) + Run(c, labels).ready|
    ensures var st := Run(c, labels);
            var y, taken, waiting := RunFrom(c, st, more), Taken(c, st, more), Pending(st.phase) + st.ready;
            && (p <= |taken| ==> taken[..p] == waiting[..p])
            && (|taken| < p ==> taken == waiting[..|taken|] && waiting[|taken|..p] <= Pending(y.phase) + y.ready)
            && forall j: nat :: Count(waiting[..p], j) <= 1
  {
    hide *;
    var st := Run(c, labels);
    RunsAreOk(c, labels);
    FirstInFirstOut(c, st, more);
    var y, taken, waiting := RunFrom(c, st, more), Taken(c, st, more), Pending(st.phase) + st.ready;
    QueueOrder(Pending(st.phase), st.ready, Arrived(c, st, more), Collected(c, st, more), y.ready, taken,
               Pending(y.phase), p);
    forall j: nat ensures Count(waiting[..p], j) <= 1 {
      WaitsOnce(c, st, j);
      CountPrefix(waiting, p, j);
    }
  }

  lemma QueueOrder(batch: seq<nat>, ready: seq<nat>, came: seq<nat>, left: seq<nat>, ready': seq<nat>, taken: seq<nat>,
                   batch': seq<nat>, p: nat)
    requires ready + came == left + ready' && batch + left == taken + batch' && p <= |batch + ready|
    ensures p <= |taken| ==> taken[..p] == (batch + ready)[..p]
    ensures |taken| < p ==> taken == (batch + ready)[..|taken|] && (batch + ready)[|taken|..p] <= batch' + ready'
  {
    var all := batch + ready + came;
    assert all == batch + (ready + came) == (batch + left) + ready' == taken + (batch' + ready');
    assert p <= |taken| ==> taken[..p] == all[..p];
    assert (batch + ready)[..p] == all[..p];
    if |taken| < p {
      assert taken == all[..|taken|];
      assert (batch + ready)[|taken|..p] == all[|taken|..p] == (batch' + ready')[..p - |taken|];
    }
  }

  /** A stream at position p of the ready queue is collected within p + 1 iterations of the scheduler, and has been
      taken when the last of these has taken its batch. */
  lemma TakenInTime(c: Config, labels: seq<Label>, more: seq<Label>, p: nat)
    requires RowLocal(c.net) && p < |Run(c, labels).ready| && Iterations(c, Run(c, labels), more) > p
    ensures var st := Run(c, labels);
            var collected, taken, n := Collected(c, st, more), Taken(c, st, more), |Pending(st.phase)|;
            && |collected| > p && collected[p] == st.ready[p]
            && (Pending(RunFrom(c, st, more).phase) == [] ==> |taken| > n + p && taken[n + p] == st.ready[p])
  {
    hide *;
    var st := Run(c, labels);
    RunsAreOk(c, labels);
    FirstInFirstOut(c, st, more);
    var y := RunFrom(c, st, more);
    CollectedAt(Pending(st.phase), st.ready, Arrived(c, st, more), Collected(c, st, more), y.ready, Taken(c, st, more),
                Pending(y.phase), p);
  }

  lemma CollectedAt(batch: seq<nat>, ready: seq<nat>, came: seq<nat>, left: seq<nat>, ready': seq<nat>, taken: seq<nat>,
                    batch': seq<nat>, p: nat)
    requires ready + came == left + ready' && batch + left == taken + batch' && p < |ready| && p < |left|
    ensures left[p] == ready[p]
    ensures batch' == [] ==> |taken| > |batch| + p && taken[|batch| + p] == ready[p]
  {
    assert (left + ready')[p] == (ready + came)[p];
    if batch' == [] {
      assert taken == batch + left;
    }
  }
}

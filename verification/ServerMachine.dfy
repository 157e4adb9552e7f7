/** The whole server: any number of streams, one ready queue and one batch at a time. Every step is one atomic
    stretch; the loops of the scheduler that run over a batch are cut into one step per stream, so that readers and
    consumers may act even between those. A step that is not enabled changes nothing: every list of labels is a
    run. */
module ServerMachine {
  import opened Wrappers
  import opened Pcm
  import opened Caches
  import opened Pipeline
  import opened Sessions
  import opened Service
  import opened StreamMachine

  datatype Config = Config(net: Net, maxChunk: nat, maxBatch: nat)

  datatype Job = Job(sid: nat, flight: Flight)

  /** Where the scheduler is: waiting, collecting a batch, taking work, inferring, committing, or failing a batch. */
  datatype Phase =
    | Idle
    | Collecting(batch: seq<nat>)
    | Taking(todo: seq<nat>, jobs: seq<Job>)
    | Inferring(jobs: seq<Job>)
    | Committing(jobs: seq<Job>)
    | Failing(jobs: seq<Job>)

  /** `gauge` is the metric output_queue_samples. */
  datatype Server = Server(streams: seq<Stream>, ready: seq<nat>, closing: bool, gauge: int, phase: Phase)

  datatype Label =
    | OpenNew(inputStart: nat, inputCap: nat, outputCap: nat)
    | At(sid: nat, event: Event)
    | Collect
    | EndCollect
    | TakeNext
    | LaunchBatch
    | Infer(ok: bool)
    | CommitNext
    | FailNext
    | CloseScheduler

  const EMPTY := Server([], [], false, 0, Idle)

  function OpenNewStep(c: Config, st: Server, inputStart: nat, inputCap: nat, outputCap: nat): Server {
    if inputCap == 0 || outputCap == 0 then st
    else st.(streams := st.streams + [OpenStream(SoloModel(c.net), inputStart, inputCap, outputCap)])
  }

  function AtStep(c: Config, st: Server, i: nat, e: Event): Server {
    if i >= |st.streams| then st
    else
      var r := React(c.maxChunk, st.closing, st.streams[i], e);
      st.(streams := st.streams[i := r.x],
          ready := if r.wakes then st.ready + [i] else st.ready,
          gauge := st.gauge + r.gauge)
  }

  function CollectStep(c: Config, st: Server): Server {
    if st.ready == [] then st
    else
      match st.phase
      case Idle => st.(phase := Collecting([st.ready[0]]), ready := st.ready[1..])
      case Collecting(batch) =>
        if |batch| < c.maxBatch then st.(phase := Collecting(batch + [st.ready[0]]), ready := st.ready[1..]) else st
      case _ => st
  }

  function TakeNextStep(st: Server): Server {
    if !st.phase.Taking? || st.phase.todo == [] || st.phase.todo[0] >= |st.streams| then st
    else
      var i := st.phase.todo[0];
      var x := st.streams[i];
      var work := Take(x.s).1;
      st.(streams := st.streams[i := TakeFrom(x)],
          gauge := st.gauge + TakeGauge(x.s),
          phase := Taking(st.phase.todo[1..],
                          st.phase.jobs + (if work.Some? then [Job(i, Flight(work.value, Taken))] else [])))
  }

  function LaunchJob(streams: seq<Stream>, job: Job): Job {
    if job.sid < |streams| then Job(job.sid, Flight(job.flight.work, Launched(streams[job.sid].s.caches))) else job
  }

  function LaunchStep(st: Server): Server {
    if !st.phase.Taking? || st.phase.todo != [] then st
    else
      var jobs := st.phase.jobs;
      if jobs == [] then st.(phase := Idle)
      else st.(phase := Inferring(seq(|jobs|, k requires 0 <= k < |jobs| => LaunchJob(st.streams, jobs[k]))))
  }

  function HopsOf(jobs: seq<Job>): Matrix {
    seq(|jobs|, k requires 0 <= k < |jobs| => jobs[k].flight.work.samples)
  }

  predicate AllLaunched(jobs: seq<Job>) {
    forall k | 0 <= k < |jobs| :: jobs[k].flight.stage.Launched?
  }

  function Captured(jobs: seq<Job>): seq<StreamCaches>
    requires AllLaunched(jobs)
  {
    seq(|jobs|, k requires 0 <= k < |jobs| => jobs[k].flight.stage.caches)
  }

  function ComputeJobs(jobs: seq<Job>, wav: Matrix, updated: seq<StreamCaches>): seq<Job>
    requires |wav| == |updated| == |jobs|
  {
    seq(|jobs|, k requires 0 <= k < |jobs| =>
      Job(jobs[k].sid, Flight(jobs[k].flight.work, Computed(Encode(wav[k]), updated[k]))))
  }

  /** One batched inference on the captured caches; it may raise, and then the whole batch fails. */
  function InferStep(c: Config, st: Server, ok: bool): Server {
    if !st.phase.Inferring? || !AllLaunched(st.phase.jobs) then st
    else
      var jobs := st.phase.jobs;
      match InferBatch(c.net, HopsOf(jobs), Captured(jobs))
      case Ok((wav, updated)) =>
        if ok && |wav| == |updated| == |jobs| then st.(phase := Committing(ComputeJobs(jobs, wav, updated)))
        else st.(phase := Failing(jobs))
      case Err(_) => st.(phase := Failing(jobs))
  }

  function CommitNextStep(st: Server): Server {
    if !st.phase.Committing? || st.phase.jobs == [] || st.phase.jobs[0].sid >= |st.streams|
       || !st.phase.jobs[0].flight.stage.Computed? then st
    else
      var Job(i, Flight(work, Computed(pcm, updated))) := st.phase.jobs[0];
      var x := st.streams[i];
      st.(streams := st.streams[i := CommitTo(x, work, pcm, updated, st.closing)],
          ready := if CommitWakes(x.s, work, pcm, updated, st.closing) then st.ready + [i] else st.ready,
          gauge := st.gauge + CommitGauge(x.s, work, pcm, updated),
          phase := if |st.phase.jobs| == 1 then Idle else Committing(st.phase.jobs[1..]))
  }

  function FailNextStep(st: Server): Server {
    if !st.phase.Failing? || st.phase.jobs == [] || st.phase.jobs[0].sid >= |st.streams| then st
    else
      var i := st.phase.jobs[0].sid;
      var x := st.streams[i];
      st.(streams := st.streams[i := x.(s := Fail(x.s, INTERNAL))],
          gauge := st.gauge + FailGauge(x.s),
          phase := if |st.phase.jobs| == 1 then Idle else Failing(st.phase.jobs[1..]))
  }

  function Step(c: Config, st: Server, l: Label): Server {
    match l
    case OpenNew(inputStart, inputCap, outputCap) => OpenNewStep(c, st, inputStart, inputCap, outputCap)
    case At(i, e) => AtStep(c, st, i, e)
    case Collect => CollectStep(c, st)
    case EndCollect => if st.phase.Collecting? then st.(phase := Taking(st.phase.batch, [])) else st
    case TakeNext => TakeNextStep(st)
    case LaunchBatch => LaunchStep(st)
    case Infer(ok) => InferStep(c, st, ok)
    case CommitNext => CommitNextStep(st)
    case FailNext => FailNextStep(st)
    case CloseScheduler => st.(closing := true)
  }

  /** The state after any run from the empty server. */
  function Run(c: Config, labels: seq<Label>): Server {
    if labels == [] then EMPTY else Step(c, Run(c, labels[..|labels| - 1]), labels[|labels| - 1])
  }

  /** The state after more labels. */
  function RunFrom(c: Config, st: Server, more: seq<Label>): Server {
    if more == [] then st else Step(c, RunFrom(c, st, more[..|more| - 1]), more[|more| - 1])
  }

  // ---- One stream's part of the state ----

  function Pending(phase: Phase): seq<nat> {
    match phase
    case Collecting(batch) => batch
    case Taking(todo, _) => todo
    case _ => []
  }

  function Jobs(phase: Phase): seq<Job> {
    match phase
    case Taking(_, jobs) => jobs
    case Inferring(jobs) => jobs
    case Committing(jobs) => jobs
    case Failing(jobs) => jobs
    case _ => []
  }

  function Count(sids: seq<nat>, j: nat): nat {
    if sids == [] then 0 else (if sids[0] == j then 1 else 0) + Count(sids[1..], j)
  }

  function Find(jobs: seq<Job>, j: nat): Option<Flight> {
    if jobs == [] then None
    else if jobs[0].sid == j then Some(jobs[0].flight)
    else Find(jobs[1..], j)
  }

  function Sids(jobs: seq<Job>): seq<nat> {
    seq(|jobs|, k requires 0 <= k < |jobs| => jobs[k].sid)
  }

  function SliceOf(st: Server, j: nat): Slice
    requires j < |st.streams|
  {
    Slice(st.streams[j], Count(st.ready, j) + Count(Pending(st.phase), j), Find(Jobs(st.phase), j), st.closing)
  }

  predicate InRange(sids: seq<nat>, n: nat) {
    forall k | 0 <= k < |sids| :: sids[k] < n
  }

  predicate StagesOk(phase: Phase) {
    forall k | 0 <= k < |Jobs(phase)| ::
      var stage := Jobs(phase)[k].flight.stage;
      match phase
      case Taking(_, _) => stage.Taken?
      case Committing(_) => stage.Computed?
      case _ => stage.Launched?
  }

  /** No batch holds a stream twice. */
  ghost predicate BatchOk(st: Server) {
    && InRange(st.ready, |st.streams|) && InRange(Pending(st.phase), |st.streams|)
       && InRange(Sids(Jobs(st.phase)), |st.streams|)
    && (forall j: nat :: Count(Pending(st.phase), j) + Count(Sids(Jobs(st.phase)), j) <= 1)
    && StagesOk(st.phase)
    && (st.phase.Inferring? || st.phase.Committing? || st.phase.Failing? ==> Jobs(st.phase) != [])
  }
}

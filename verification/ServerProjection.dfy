/** Every step of the server is, for each stream, a step of that stream alone or no step at all. */
module ServerProjection {
  import opened Wrappers
  import opened Pcm
  import opened Rechunker
  import opened Caches
  import opened Pipeline
  import opened Sessions
  import opened Service
  import opened StreamMachine
  import opened Reference
  import opened StreamInvariants
  import opened StreamSteps
  import opened ServerMachine

  ghost predicate StreamsOk(c: Config, st: Server) {
    forall j: nat | j < |st.streams| :: Inv(SoloModel(c.net), SliceOf(st, j)) && Unfinished(SliceOf(st, j))
  }

  ghost predicate AllOk(c: Config, st: Server) {
    BatchOk(st) && StreamsOk(c, st)
  }

  // ---- Queues and batches ----

  lemma {:induction false} CountAppend(sids: seq<nat>, i: nat, j: nat)
    ensures Count(sids + [i], j) == Count(sids, j) + (if i == j then 1 else 0)
  {
    if sids == [] {
      assert [i][1..] == [];
      assert sids + [i] == [i];
    } else {
      CountAppend(sids[1..], i, j);
      assert (sids + [i])[1..] == sids[1..] + [i];
    }
  }

  lemma CountHead(sids: seq<nat>, j: nat)
    requires sids != []
    ensures Count(sids, j) == (if sids[0] == j then 1 else 0) + Count(sids[1..], j)
  {
  }

  lemma {:induction false} FindAppend(jobs: seq<Job>, job: Job, j: nat)
    ensures Find(jobs + [job], j)
            == if Find(jobs, j).Some? then Find(jobs, j) else if job.sid == j then Some(job.flight) else None
  {
    if jobs == [] {
      assert jobs + [job] == [job];
    } else {
      FindAppend(jobs[1..], job, j);
      assert (jobs + [job])[1..] == jobs[1..] + [job];
    }
  }

  lemma {:induction false} FindCount(jobs: seq<Job>, j: nat)
    ensures Find(jobs, j).Some? <==> Count(Sids(jobs), j) > 0
  {
    if jobs != [] {
      FindCount(jobs[1..], j);
      assert Sids(jobs)[1..] == Sids(jobs[1..]);
    }
  }

  lemma {:induction false} FindAt(jobs: seq<Job>, k: nat)
    requires k < |jobs| && (forall j: nat :: Count(Sids(jobs), j) <= 1)
    ensures Find(jobs, jobs[k].sid) == Some(jobs[k].flight)
  {
    assert Sids(jobs)[1..] == Sids(jobs[1..]);
    if k > 0 {
      forall j: nat ensures Count(Sids(jobs[1..]), j) <= 1 {
        CountHead(Sids(jobs), j);
      }
      FindAt(jobs[1..], k - 1);
      FindCount(jobs[1..], jobs[k].sid);
      CountHead(Sids(jobs), jobs[k].sid);
    }
  }

  /** Changing every job without changing whose it is: each stream finds its own changed job. */
  lemma {:induction false} FindMapped(jobs: seq<Job>, jobs': seq<Job>, j: nat)
    requires |jobs| == |jobs'| && forall k | 0 <= k < |jobs| :: jobs[k].sid == jobs'[k].sid
    ensures Sids(jobs) == Sids(jobs')
    ensures Find(jobs, j).None? ==> Find(jobs', j).None?
    ensures Find(jobs, j).Some? ==>
              exists k :: 0 <= k < |jobs| && jobs[k].sid == j && Find(jobs, j) == Some(jobs[k].flight)
                && Find(jobs', j) == Some(jobs'[k].flight)
  {
    if jobs != [] && jobs[0].sid != j {
      FindMapped(jobs[1..], jobs'[1..], j);
      if Find(jobs, j).Some? {
        var k :| 0 <= k < |jobs[1..]| && jobs[1..][k].sid == j && Find(jobs[1..], j) == Some(jobs[1..][k].flight)
                 && Find(jobs'[1..], j) == Some(jobs'[1..][k].flight);
        assert jobs[k + 1] == jobs[1..][k] && jobs'[k + 1] == jobs'[1..][k];
      }
    }
  }

  // ---- Projection ----

  /** What a step of the server is to stream j: None when it is not about j, as a batch in which j has no work. */
  function Local(c: Config, st: Server, l: Label, j: nat): Option<StreamMachine.Step> {
    match l
    case At(i, e) => if i == j then Some(Serve(e)) else None
    case TakeNext => if st.phase.Taking? && st.phase.todo != [] && st.phase.todo[0] == j then Some(TakeStep) else None
    case LaunchBatch =>
      if st.phase.Taking? && st.phase.todo == [] && Find(st.phase.jobs, j).Some? then Some(Launch) else None
    case Infer(ok) => if Infers(c, st, ok) && Find(st.phase.jobs, j).Some? then Some(Compute) else None
    case CommitNext =>
      if st.phase.Committing? && st.phase.jobs != [] && st.phase.jobs[0].sid == j then Some(CommitStep) else None
    case FailNext => if st.phase.Failing? && st.phase.jobs != [] && st.phase.jobs[0].sid == j then Some(Abort) else None
    case CloseScheduler => Some(Shutdown)
    case _ => None
  }

  ghost predicate Projects(c: Config, st: Server, l: Label, j: nat)
    requires j < |st.streams|
  {
    var st' := ServerMachine.Step(c, st, l);
    && j < |st'.streams|
    && SliceOf(st', j) == (match Local(c, st, l, j)
                           case None => SliceOf(st, j)
                           case Some(step) => StepSlice(SoloModel(c.net), c.maxChunk, SliceOf(st, j), step))
  }

  lemma ProjectAt(c: Config, st: Server, i: nat, e: Event, j: nat)
    requires j < |st.streams|
    ensures Projects(c, st, At(i, e), j)
  {
    hide React, Count, Find;
    CountAppend(st.ready, i, j);
  }

  lemma ProjectCollect(c: Config, st: Server, j: nat)
    requires j < |st.streams|
    ensures Projects(c, st, Collect, j)
  {
    hide Count, Find;
    if st.ready != [] {
      CountHead(st.ready, j);
      if st.phase.Collecting? {
        CountAppend(st.phase.batch, st.ready[0], j);
      } else {
        CountAppend([], st.ready[0], j);
        assert [] + [st.ready[0]] == [st.ready[0]];
      }
    }
  }

  lemma ProjectTake(c: Config, st: Server, j: nat)
    requires BatchOk(st) && j < |st.streams|
    ensures Projects(c, st, TakeNext, j)
  {
    hide Take, TakeFrom, TakeGauge, Count, Find, StagesOk, SoloModel;
    if st.phase.Taking? && st.phase.todo != [] {
      var i := st.phase.todo[0];
      CountHead(st.phase.todo, j);
      CountHead(st.phase.todo, i);
      FindCount(st.phase.jobs, j);
      var work := Take(st.streams[i].s).1;
      if work.Some? {
        FindAppend(st.phase.jobs, Job(i, Flight(work.value, Taken)), j);
      } else {
        assert st.phase.jobs + [] == st.phase.jobs;
      }
    }
  }

  lemma SidInRange(jobs: seq<Job>, n: nat, k: nat)
    requires InRange(Sids(jobs), n) && k < |jobs|
    ensures jobs[k].sid < n
  {
    assert Sids(jobs)[k] < n;
  }

  /** Launching gives each stream's work the caches of that stream. */
  lemma {:induction false} LaunchedFlight(st: Server, jobs: seq<Job>, jobs': seq<Job>, j: nat)
    requires j < |st.streams| && |jobs| == |jobs'|
             && forall k | 0 <= k < |jobs| :: jobs'[k] == LaunchJob(st.streams, jobs[k])
    ensures Find(jobs', j)
            == match Find(jobs, j)
               case None => None
               case Some(f) => Some(Flight(f.work, Launched(st.streams[j].s.caches)))
  {
    FindMapped(jobs, jobs', j);
    if Find(jobs, j).Some? {
      var k :| 0 <= k < |jobs| && jobs[k].sid == j && Find(jobs, j) == Some(jobs[k].flight)
               && Find(jobs', j) == Some(jobs'[k].flight);
      hide Find;
    }
  }

  lemma {:induction false} TakenFlight(st: Server, j: nat)
    requires BatchOk(st) && st.phase.Taking?
    ensures Find(st.phase.jobs, j).Some? ==> Find(st.phase.jobs, j).value.stage.Taken?
  {
    var jobs := st.phase.jobs;
    FindMapped(jobs, jobs, j);
    if Find(jobs, j).Some? {
      var k :| 0 <= k < |jobs| && jobs[k].sid == j && Find(jobs, j) == Some(jobs[k].flight);
      hide Find;
      assert Jobs(st.phase)[k].flight.stage.Taken?;
    }
  }

  lemma ProjectLaunch(c: Config, st: Server, j: nat)
    requires BatchOk(st) && j < |st.streams|
    ensures Projects(c, st, LaunchBatch, j)
  {
    if st.phase.Taking? {
      TakenFlight(st, j);
      hide BatchOk, Count, Find, LaunchJob, SoloModel;
      NothingFound(j);
      if st.phase.todo == [] && st.phase.jobs != [] {
        LaunchedFlight(st, st.phase.jobs, LaunchStep(st).phase.jobs, j);
      }
    }
  }

  lemma NothingFound(j: nat)
    ensures Find([], j) == None
  {
  }

  /** The heart of batching: what stream j gets from the batch is what it would compute alone. */
  lemma ProjectInfer(c: Config, st: Server, ok: bool, j: nat)
    requires RowLocal(c.net) && AllOk(c, st) && j < |st.streams|
    ensures Projects(c, st, Infer(ok), j)
  {
    if Infers(c, st, ok) {
      var jobs := st.phase.jobs;
      BatchReady(c, st);
      hide *;
      BatchIsSolo(c.net, HopsOf(jobs), Captured(jobs));
      var (wav, updated) := InferBatch(c.net, HopsOf(jobs), Captured(jobs)).value;
      SoloAll(c.net, jobs, wav, updated);
      InferredJob(c, st, ok, j);
    } else {
      InferFails(c, st, ok, j);
    }
  }

  predicate Infers(c: Config, st: Server, ok: bool) {
    st.phase.Inferring? && InferStep(c, st, ok).phase.Committing?
  }

  /** A batch that fails leaves the jobs as they are; the streams fail one by one afterwards. */
  lemma InferFails(c: Config, st: Server, ok: bool, j: nat)
    requires j < |st.streams| && !Infers(c, st, ok)
    ensures Projects(c, st, Infer(ok), j)
  {
    hide InferBatch, Encode, Count, Find, AllLaunched;
  }

  lemma BatchReady(c: Config, st: Server)
    requires AllOk(c, st) && st.phase.Inferring?
    ensures var jobs := st.phase.jobs;
            && HopsOf(jobs) != [] && AllLaunched(jobs)
            && |Captured(jobs)| == |HopsOf(jobs)| == |jobs|
            && Shape2(HopsOf(jobs), |Captured(jobs)|, HOP) && AllSingle(Captured(jobs))
  {
    var jobs := st.phase.jobs;
    assert jobs != [];
    hide Layout, StreamsOk, AllOk, BatchOk;
    forall k | 0 <= k < |jobs|
      ensures jobs[k].flight.stage.Launched? && |jobs[k].flight.work.samples| == HOP
              && Layout(jobs[k].flight.stage.caches, 1)
    {
      JobReady(c, st, k);
    }
  }

  lemma JobReady(c: Config, st: Server, k: nat)
    requires AllOk(c, st) && st.phase.Inferring? && k < |st.phase.jobs|
    ensures var flight := st.phase.jobs[k].flight;
            flight.stage.Launched? && |flight.work.samples| == HOP && Layout(flight.stage.caches, 1)
  {
    var jobs := st.phase.jobs;
    assert Jobs(st.phase)[k].flight.stage.Launched?;
    forall i: nat ensures Count(Sids(jobs), i) <= 1 {
      assert Count(Pending(st.phase), i) + Count(Sids(Jobs(st.phase)), i) <= 1;
    }
    FindAt(jobs, k);
    SidInRange(jobs, |st.streams|, k);
    var sl := SliceOf(st, jobs[k].sid);
    assert Inv(SoloModel(c.net), sl);
    hide InvOut, Intake, Ledger, Awake, Count, Find, Layout;
    assert InFlight(sl)[0] == jobs[k].flight.work;
  }

  predicate SoloResults(net: Net, jobs: seq<Job>, wav: Matrix, updated: seq<StreamCaches>)
    requires AllLaunched(jobs)
  {
    |wav| == |updated| == |jobs|
    && forall k | 0 <= k < |jobs| :: (wav[k], updated[k]) == Solo(net, HopsOf(jobs)[k], Captured(jobs)[k])
  }

  lemma SoloAll(net: Net, jobs: seq<Job>, wav: Matrix, updated: seq<StreamCaches>)
    requires AllLaunched(jobs) && |wav| == |updated| == |Captured(jobs)| == |HopsOf(jobs)|
    requires forall i | 0 <= i < |Captured(jobs)| ::
             (wav[i], updated[i]) == Solo(net, HopsOf(jobs)[i], Captured(jobs)[i])
    ensures SoloResults(net, jobs, wav, updated)
  {
    hide Solo;
  }

  lemma ComputedFlight(net: Net, jobs: seq<Job>, wav: Matrix, updated: seq<StreamCaches>, j: nat)
    requires AllLaunched(jobs) && SoloResults(net, jobs, wav, updated)
    ensures match Find(jobs, j)
            case None => Find(ComputeJobs(jobs, wav, updated), j).None?
            case Some(flight) =>
              && flight.stage.Launched?
              && var (w, u) := Solo(net, flight.work.samples, flight.stage.caches);
                 Find(ComputeJobs(jobs, wav, updated), j) == Some(Flight(flight.work, Computed(Encode(w), u)))
  {
    hide Solo, Encode;
    var jobs' := ComputeJobs(jobs, wav, updated);
    FindMapped(jobs, jobs', j);
    if Find(jobs, j).Some? {
      var k :| 0 <= k < |jobs| && jobs[k].sid == j && Find(jobs, j) == Some(jobs[k].flight)
        && Find(jobs', j) == Some(jobs'[k].flight);
      hide Find;
      assert (wav[k], updated[k]) == Solo(net, HopsOf(jobs)[k], Captured(jobs)[k]);
    }
  }

  lemma InferredJob(c: Config, st: Server, ok: bool, j: nat)
    requires j < |st.streams| && Infers(c, st, ok) && AllLaunched(st.phase.jobs)
    requires InferBatch(c.net, HopsOf(st.phase.jobs), Captured(st.phase.jobs)).Ok?
    requires var (wav, updated) := InferBatch(c.net, HopsOf(st.phase.jobs), Captured(st.phase.jobs)).value;
             SoloResults(c.net, st.phase.jobs, wav, updated)
    ensures Projects(c, st, Infer(ok), j)
  {
    hide InferBatch, Solo, Count, Encode, Find, SoloResults, HopsOf, Captured, AllLaunched, ComputeJobs;
    var jobs := st.phase.jobs;
    var (wav, updated) := InferBatch(c.net, HopsOf(jobs), Captured(jobs)).value;
    ComputedFlight(c.net, jobs, wav, updated, j);
    InferredPhase(c, st, ok);
  }

  lemma InferredPhase(c: Config, st: Server, ok: bool)
    requires Infers(c, st, ok)
    ensures AllLaunched(st.phase.jobs)
    ensures var jobs := st.phase.jobs;
            var r := InferBatch(c.net, HopsOf(jobs), Captured(jobs));
            && r.Ok? && |r.value.0| == |r.value.1| == |jobs|
            && InferStep(c, st, ok) == st.(phase := Committing(ComputeJobs(jobs, r.value.0, r.value.1)))
  {
    hide InferBatch, ComputeJobs;
  }

  lemma HeadAlone(jobs: seq<Job>, j: nat)
    requires jobs != [] && (forall i: nat :: Count(Sids(jobs), i) <= 1)
    ensures Find(jobs, j) == if jobs[0].sid == j then Some(jobs[0].flight) else Find(jobs[1..], j)
    ensures jobs[0].sid == j ==> Find(jobs[1..], j).None?
    ensures |jobs| == 1 ==> jobs[1..] == []
  {
    FindCount(jobs[1..], j);
    assert Sids(jobs)[1..] == Sids(jobs[1..]);
    CountHead(Sids(jobs), j);
  }

  lemma JobsOnce(st: Server)
    requires BatchOk(st)
    ensures forall i: nat :: Count(Sids(Jobs(st.phase)), i) <= 1
  {
    forall i: nat ensures Count(Sids(Jobs(st.phase)), i) <= 1 {
      assert Count(Pending(st.phase), i) + Count(Sids(Jobs(st.phase)), i) <= 1;
    }
  }

  lemma ProjectCommit(c: Config, st: Server, j: nat)
    requires BatchOk(st) && j < |st.streams|
    ensures Projects(c, st, CommitNext, j)
  {
    hide CommitTo, CommitWakes, Count, CommitGauge, Sids, SoloModel;
    if st.phase.Committing? && st.phase.jobs != [] {
      var jobs := st.phase.jobs;
      JobsOnce(st);
      HeadAlone(jobs, j);
      SidInRange(jobs, |st.streams|, 0);
      assert Jobs(st.phase)[0].flight.stage.Computed?;
      CountAppend(st.ready, jobs[0].sid, j);
      assert Find([], j) == None;
    }
  }

  lemma ProjectFail(c: Config, st: Server, j: nat)
    requires BatchOk(st) && j < |st.streams|
    ensures Projects(c, st, FailNext, j)
  {
    if st.phase.Failing? && st.phase.jobs != [] {
      var jobs := st.phase.jobs;
      JobsOnce(st);
      HeadAlone(jobs, j);
      SidInRange(jobs, |st.streams|, 0);
      hide Count, Sids;
      assert Find([], j) == None;
    }
  }

  lemma ProjectOther(c: Config, st: Server, l: Label, j: nat)
    requires j < |st.streams| && (l.OpenNew? || l.EndCollect? || l.CloseScheduler?)
    ensures Projects(c, st, l, j)
  {
    hide Count, Find;
  }

  /** Each stream sees a run of the server as a run of its own. */
  lemma Projection(c: Config, st: Server, l: Label, j: nat)
    requires RowLocal(c.net) && AllOk(c, st) && j < |st.streams|
    ensures Projects(c, st, l, j)
  {
    assert BatchOk(st);
    hide *;
    match l {
      case At(i, e) => ProjectAt(c, st, i, e, j);
      case Collect => ProjectCollect(c, st, j);
      case TakeNext => ProjectTake(c, st, j);
      case LaunchBatch => ProjectLaunch(c, st, j);
      case Infer(ok) => ProjectInfer(c, st, ok, j);
      case CommitNext => ProjectCommit(c, st, j);
      case FailNext => ProjectFail(c, st, j);
      case _ => ProjectOther(c, st, l, j);
    }
  }
}

/** What holds in every state the server can reach. */
module ServerInvariants {
  import opened Wrappers
  import opened Pcm
  import opened Caches
  import opened Pipeline
  import opened Sessions
  import opened Service
  import opened StreamMachine
  import opened StreamInvariants
  import opened StreamSteps
  import opened ServerMachine
  import opened ServerProjection

  lemma InRangeAppend(sids: seq<nat>, i: nat, n: nat)
    requires InRange(sids, n) && i < n
    ensures InRange(sids + [i], n)
  {
  }

  lemma {:induction false} CountOutside(sids: seq<nat>, n: nat, j: nat)
    requires InRange(sids, n) && j >= n
    ensures Count(sids, j) == 0
  {
    if sids != [] {
      CountOutside(sids[1..], n, j);
    }
  }

  lemma QueuedOnce(c: Config, st: Server, j: nat)
    requires StreamsOk(c, st) && j < |st.streams|
    ensures Count(st.ready, j) + Count(Pending(st.phase), j) == (if st.streams[j].s.scheduled then 1 else 0)
  {
    assert Inv(SoloModel(c.net), SliceOf(st, j));
    hide InvOut, Intake, Ledger, Awake, Count, Find, Layout;
  }

  lemma CollectBatchOk(c: Config, st: Server)
    requires AllOk(c, st)
    ensures BatchOk(CollectStep(c, st))
  {
    var st' := CollectStep(c, st);
    if st' != st {
      var i := st.ready[0];
      hide StreamsOk;
      assert [i] == [] + [i];
      forall j: nat ensures Count(Pending(st'.phase), j) + Count(Sids(Jobs(st'.phase)), j) <= 1 {
        assert Count(Pending(st.phase), j) + Count(Sids(Jobs(st.phase)), j) <= 1;
        CountHead(st.ready, i);
        QueuedOnce(c, st, i);
        CountAppend(Pending(st.phase), i, j);
      }
      InRangeAppend(Pending(st.phase), i, |st.streams|);
    }
  }

  lemma TakeBatchOk(c: Config, st: Server)
    requires AllOk(c, st)
    ensures BatchOk(TakeNextStep(st))
  {
    var st' := TakeNextStep(st);
    if st.phase.Taking? && st.phase.todo != [] {
      hide StreamsOk, Take, TakeFrom, TakeGauge;
      var i, jobs, jobs' := st.phase.todo[0], st.phase.jobs, st'.phase.jobs;
      var work := Take(st.streams[i].s).1;
      assert jobs' == jobs || Sids(jobs') == Sids(jobs) + [i];
      forall j: nat ensures Count(Pending(st'.phase), j) + Count(Sids(Jobs(st'.phase)), j) <= 1 {
        assert Count(Pending(st.phase), j) + Count(Sids(Jobs(st.phase)), j) <= 1;
        CountHead(st.phase.todo, j);
        CountAppend(Sids(jobs), i, j);
      }
      InRangeAppend(Sids(jobs), i, |st.streams|);
      forall k | 0 <= k < |jobs'| ensures jobs'[k].flight.stage.Taken? {
        assert k < |jobs| ==> Jobs(st.phase)[k].flight.stage.Taken?;
      }
    }
  }

  lemma LaunchBatchOk(c: Config, st: Server)
    requires BatchOk(st)
    ensures BatchOk(LaunchStep(st))
  {
    var st' := LaunchStep(st);
    if st.phase.Taking? && st.phase.todo == [] && st.phase.jobs != [] {
      var jobs, jobs' := st.phase.jobs, st'.phase.jobs;
      JobsOnce(st);
      assert Sids(jobs') == Sids(jobs);
      forall k | 0 <= k < |jobs'| ensures jobs'[k].flight.stage.Launched? {
        SidInRange(jobs, |st.streams|, k);
      }
    }
  }

  lemma InferBatchOk(c: Config, st: Server, ok: bool)
    requires BatchOk(st)
    ensures BatchOk(InferStep(c, st, ok))
  {
    var st' := InferStep(c, st, ok);
    if st'.phase.Committing? && st.phase.Inferring? {
      hide InferBatch, Encode;
      JobsOnce(st);
      assert Sids(st'.phase.jobs) == Sids(st.phase.jobs);
    } else if st'.phase.Failing? && st.phase.Inferring? {
      hide InferBatch, Encode;
      JobsOnce(st);
      assert st'.phase.jobs == st.phase.jobs;
      forall k | 0 <= k < |st.phase.jobs| ensures st.phase.jobs[k].flight.stage.Launched? {
        assert Jobs(st.phase)[k].flight.stage.Launched?;
      }
    }
  }

  /** Dropping the first job of a batch, as committing and failing do. */
  lemma DropHeadOk(st: Server, st': Server)
    requires BatchOk(st) && (st.phase.Committing? || st.phase.Failing?)
    requires |st'.streams| == |st.streams| && InRange(st'.ready, |st.streams|)
    requires st'.phase == if |st.phase.jobs| == 1 then Idle
                          else if st.phase.Committing? then Committing(st.phase.jobs[1..])
                          else Failing(st.phase.jobs[1..])
    ensures BatchOk(st')
  {
    var jobs := st.phase.jobs;
    JobsOnce(st);
    assert Sids(jobs)[1..] == Sids(jobs[1..]);
    forall j: nat ensures Count(Sids(jobs[1..]), j) <= 1 {
      CountHead(Sids(jobs), j);
    }
    forall k | 0 <= k < |jobs[1..]| ensures jobs[1..][k] == Jobs(st.phase)[k + 1] && jobs[1..][k].sid < |st.streams| {
      SidInRange(jobs, |st.streams|, k + 1);
    }
  }

  lemma StepBatchOk(c: Config, st: Server, l: Label)
    requires AllOk(c, st)
    ensures BatchOk(ServerMachine.Step(c, st, l))
  {
    hide StreamsOk;
    var st' := ServerMachine.Step(c, st, l);
    match l {
      case OpenNew(_, _, _) => SameBatch(st, st');
      case At(i, e) =>
        if i < |st.streams| {
          InRangeAppend(st.ready, i, |st.streams|);
        }
        SameBatch(st, st');
      case Collect => CollectBatchOk(c, st);
      case EndCollect =>
        if st.phase.Collecting? {
          EndCollectOk(st);
        }
      case TakeNext => TakeBatchOk(c, st);
      case LaunchBatch => LaunchBatchOk(c, st);
      case Infer(ok) => InferBatchOk(c, st, ok);
      case CommitNext => CommitBatchOk(st);
      case FailNext => FailBatchOk(st);
      case CloseScheduler => SameBatch(st, st');
    }
  }

  lemma EndCollectOk(st: Server)
    requires BatchOk(st) && st.phase.Collecting?
    ensures BatchOk(st.(phase := Taking(st.phase.batch, [])))
  {
    assert Sids([]) == [];
    forall j: nat ensures Count(st.phase.batch, j) <= 1 {
      assert Count(Pending(st.phase), j) + Count(Sids(Jobs(st.phase)), j) <= 1;
    }
  }

  lemma CommitBatchOk(st: Server)
    requires BatchOk(st)
    ensures BatchOk(CommitNextStep(st))
  {
    var st' := CommitNextStep(st);
    if st.phase.Committing? {
      SidInRange(st.phase.jobs, |st.streams|, 0);
      InRangeAppend(st.ready, st.phase.jobs[0].sid, |st.streams|);
      hide CommitTo, CommitWakes, CommitGauge, BatchOk;
      if st'.phase != st.phase {
        DropHeadOk(st, st');
      }
    }
  }

  lemma FailBatchOk(st: Server)
    requires BatchOk(st)
    ensures BatchOk(FailNextStep(st))
  {
    if st.phase.Failing? {
      SidInRange(st.phase.jobs, |st.streams|, 0);
      DropHeadOk(st, FailNextStep(st));
    }
  }

  lemma SameBatch(st: Server, st': Server)
    requires BatchOk(st) && st'.phase == st.phase && |st.streams| <= |st'.streams| && InRange(st'.ready, |st'.streams|)
    ensures BatchOk(st')
  {
  }

  lemma StreamsStayOk(c: Config, st: Server, l: Label)
    requires RowLocal(c.net) && AllOk(c, st)
    ensures StreamsOk(c, ServerMachine.Step(c, st, l))
  {
    var m := SoloModel(c.net);
    var st' := ServerMachine.Step(c, st, l);
    SoloModelSound(c.net);
    forall j: nat | j < |st'.streams| ensures Inv(m, SliceOf(st', j)) && Unfinished(SliceOf(st', j)) {
      if j < |st.streams| {
        Projection(c, st, l, j);
        assert Inv(m, SliceOf(st, j)) && Unfinished(SliceOf(st, j));
        hide Inv, Unfinished, BatchOk, StreamsOk, RowLocal;
        var step := Local(c, st, l, j);
        if step.Some? {
          StepInv(m, c.maxChunk, SliceOf(st, j), step.value);
          UnfinishedStep(m, c.maxChunk, SliceOf(st, j), step.value);
        }
      } else {
        NewStreamOk(c, st, l, j);
      }
    }
  }

  lemma NewStreamIsFresh(c: Config, st: Server, l: Label, j: nat)
    requires BatchOk(st) && |st.streams| <= j < |ServerMachine.Step(c, st, l).streams|
    ensures l.OpenNew?
    ensures SliceOf(ServerMachine.Step(c, st, l), j)
            == StreamMachine.Fresh(SoloModel(c.net), l.inputStart, l.inputCap, l.outputCap, st.closing)
  {
    assert l.OpenNew?;
    CountOutside(st.ready, |st.streams|, j);
    CountOutside(Pending(st.phase), |st.streams|, j);
    CountOutside(Sids(Jobs(st.phase)), |st.streams|, j);
    FindCount(Jobs(st.phase), j);
  }

  lemma NewStreamOk(c: Config, st: Server, l: Label, j: nat)
    requires Sound(SoloModel(c.net)) && BatchOk(st) && |st.streams| <= j < |ServerMachine.Step(c, st, l).streams|
    ensures Inv(SoloModel(c.net), SliceOf(ServerMachine.Step(c, st, l), j))
    ensures Unfinished(SliceOf(ServerMachine.Step(c, st, l), j))
  {
    hide *;
    NewStreamIsFresh(c, st, l, j);
    OpensWithRoom(c, st, l);
    FreshInv(SoloModel(c.net), l.inputStart, l.inputCap, l.outputCap, st.closing);
  }

  lemma OpensWithRoom(c: Config, st: Server, l: Label)
    requires l.OpenNew? && |ServerMachine.Step(c, st, l).streams| > |st.streams|
    ensures 0 < l.inputCap && 0 < l.outputCap
  {
  }

  /** In every run, at every step, every stream keeps its invariants and no batch holds a stream twice. */
  lemma {:induction false} RunsAreOk(c: Config, labels: seq<Label>)
    requires RowLocal(c.net)
    ensures AllOk(c, Run(c, labels))
  {
    if labels == [] {
      assert Sids([]) == [];
    } else {
      var front := labels[..|labels| - 1];
      RunsAreOk(c, front);
      StepBatchOk(c, Run(c, front), labels[|labels| - 1]);
      StreamsStayOk(c, Run(c, front), labels[|labels| - 1]);
    }
  }
}

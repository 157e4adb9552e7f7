/** The loops of the scheduler over a batch, against the machine's steps: undisturbed, one step per stream adds up to
    what the methods of BatchScheduler do to the whole batch. */
module SchedulerStretches {
  import opened Wrappers
  import opened Pcm
  import opened Caches
  import opened Sessions
  import opened Scheduler
  import opened StreamMachine
  import opened ServerMachine

  /** The same step over and over, with nothing in between. */
  function Repeat(c: Config, st: Server, l: Label, k: nat): Server {
    if k == 0 then st else ServerMachine.Step(c, Repeat(c, st, l, k - 1), l)
  }

  predicate Distinct(sids: seq<nat>) {
    forall i, j | 0 <= i < j < |sids| :: sids[i] != sids[j]
  }

  /** The sessions of a batch, in its order. */
  function SessionsOf(st: Server, sids: seq<nat>): seq<Session>
    requires InRange(sids, |st.streams|)
  {
    seq(|sids|, k requires 0 <= k < |sids| => st.streams[sids[k]].s)
  }

  /** The first k streams of a batch have become what `after` says, and no other stream has changed. */
  predicate Changed(st: Server, y: Server, sids: seq<nat>, after: seq<Session>, k: nat) {
    && k <= |sids| && k <= |after| && InRange(sids, |st.streams|)
    && |y.streams| == |st.streams| && y.closing == st.closing
    && (forall i {:trigger sids[i]} | 0 <= i < k :: y.streams[sids[i]].s == after[i])
    && forall j {:trigger y.streams[j]} | 0 <= j < |st.streams| && j !in sids[..k] :: y.streams[j] == st.streams[j]
  }

  lemma ChangedNext(st: Server, y: Server, z: Server, sids: seq<nat>, after: seq<Session>, k: nat)
    requires Changed(st, y, sids, after, k) && k < |sids| && k < |after| && Distinct(sids) && z.closing == y.closing
    requires sids[k] < |y.streams| && exists x :: z.streams == y.streams[sids[k] := x] && x.s == after[k]
    ensures Changed(st, z, sids, after, k + 1)
  {
    assert sids[..k + 1] == sids[..k] + [sids[k]];
  }

  lemma Untouched(st: Server, y: Server, sids: seq<nat>, after: seq<Session>, k: nat)
    requires Changed(st, y, sids, after, k) && k < |sids| && Distinct(sids)
    ensures sids[k] < |st.streams| && y.streams[sids[k]] == st.streams[sids[k]]
  {
    assert sids[k] !in sids[..k];
  }

  lemma RepeatNext(c: Config, st: Server, l: Label, k: nat)
    requires k > 0
    ensures Repeat(c, st, l, k) == ServerMachine.Step(c, Repeat(c, st, l, k - 1), l)
  {
    hide ServerMachine.Step;
  }

  lemma Unchanged(c: Config, st: Server, l: Label, sids: seq<nat>, after: seq<Session>)
    requires InRange(sids, |st.streams|)
    ensures Repeat(c, st, l, 0) == st && Changed(st, st, sids, after, 0)
  {
  }

  lemma SessionAt(st: Server, sids: seq<nat>, k: nat)
    requires InRange(sids, |st.streams|) && k < |sids|
    ensures |SessionsOf(st, sids)| == |sids| && sids[k] < |st.streams|
            && SessionsOf(st, sids)[k] == st.streams[sids[k]].s
  {
  }

  lemma TailOf<T>(s: seq<T>, k: nat)
    requires k < |s|
    ensures s[k..] != [] && s[k..][0] == s[k] && s[k..][1..] == s[k + 1..] && |s[k..]| == |s| - k
  {
  }

  // ---- Taking ----

  function JobsOf(active: seq<(nat, ModelWork)>): seq<Job> {
    seq(|active|, k requires 0 <= k < |active| => Job(active[k].0, Flight(active[k].1, Taken)))
  }

  function TakenSessions(was: seq<Session>): seq<Session> {
    seq(|was|, k requires 0 <= k < |was| => Take(was[k]).0)
  }

  lemma TakeOneStep(c: Config, y: Server)
    requires y.phase.Taking? && y.phase.todo != [] && y.phase.todo[0] < |y.streams|
    ensures var i, z := y.phase.todo[0], ServerMachine.Step(c, y, TakeNext);
            var x := y.streams[i];
            && z.streams == y.streams[i := TakeFrom(x)] && TakeFrom(x).s == Take(x.s).0
            && z.ready == y.ready && z.closing == y.closing && z.gauge == y.gauge + TakeGauge(x.s)
            && z.phase == Taking(y.phase.todo[1..],
                                 y.phase.jobs + (if Take(x.s).1.Some? then [Job(i, Flight(Take(x.s).1.value, Taken))]
                                                 else []))
  {
    hide Take, TakeGauge;
  }

  lemma TakeSums(sids: seq<nat>, was: seq<Session>, k: nat)
    requires k < |was| == |sids|
    ensures |TakenSessions(was)| == |was| && TakenSessions(was)[k] == Take(was[k]).0
    ensures TakeGauges(was, k + 1) == TakeGauges(was, k) + TakeGauge(was[k])
    ensures JobsOf(Active(sids, was, k + 1))
            == JobsOf(Active(sids, was, k))
               + (if Take(was[k]).1.Some? then [Job(sids[k], Flight(Take(was[k]).1.value, Taken))] else [])
  {
    hide Take, TakeGauge;
  }

  lemma NothingTaken(st: Server, sids: seq<nat>)
    requires InRange(sids, |st.streams|)
    ensures var was := SessionsOf(st, sids);
            |was| == |sids| && JobsOf(Active(sids, was, 0)) == [] && TakeGauges(was, 0) == 0 && sids[0..] == sids
  {
  }

  /** Taking the batch: the machine's steps leave every stream, the jobs and the gauge as TakeBatch does. */
  lemma {:induction false} TakeStretch(c: Config, st: Server, k: nat)
    requires st.phase.Taking? && st.phase.jobs == [] && k <= |st.phase.todo|
    requires Distinct(st.phase.todo) && InRange(st.phase.todo, |st.streams|)
    ensures var sids := st.phase.todo;
            var was, y := SessionsOf(st, sids), Repeat(c, st, TakeNext, k);
            && Changed(st, y, sids, TakenSessions(was), k)
            && y.phase == Taking(sids[k..], JobsOf(Active(sids, was, k)))
            && y.ready == st.ready && y.gauge == st.gauge + TakeGauges(was, k)
  {
    hide *;
    var sids := st.phase.todo;
    NothingTaken(st, sids);
    var was := SessionsOf(st, sids);
    if k == 0 {
      Unchanged(c, st, TakeNext, sids, TakenSessions(was));
    } else {
      var y := Repeat(c, st, TakeNext, k - 1);
      TakeStretch(c, st, k - 1);
      SessionAt(st, sids, k - 1);
      TakeSums(sids, was, k - 1);
      Untouched(st, y, sids, TakenSessions(was), k - 1);
      SameClosing(st, y, sids, TakenSessions(was), k - 1);
      TailOf(sids, k - 1);
      TakeOneStep(c, y);
      RepeatNext(c, st, TakeNext, k);
      ChangedNext(st, y, Repeat(c, st, TakeNext, k), sids, TakenSessions(was), k - 1);
    }
  }

  // ---- Committing ----

  predicate AllComputed(jobs: seq<Job>) {
    forall k | 0 <= k < |jobs| :: jobs[k].flight.stage.Computed?
  }

  function RowOf(job: Job): Row
    requires job.flight.stage.Computed?
  {
    Row(job.flight.work, job.flight.stage.pcm, job.flight.stage.updated)
  }

  function RowsOf(jobs: seq<Job>): seq<Row>
    requires AllComputed(jobs)
  {
    seq(|jobs|, k requires 0 <= k < |jobs| => RowOf(jobs[k]))
  }

  function CommittedSessions(was: seq<Session>, rows: seq<Row>, closing: bool): seq<Session>
    requires |was| == |rows|
  {
    seq(|was|, k requires 0 <= k < |was| => AfterRow(was[k], rows[k], closing))
  }

  lemma CommitOneStep(c: Config, y: Server)
    requires y.phase.Committing? && y.phase.jobs != [] && y.phase.jobs[0].sid < |y.streams|
             && y.phase.jobs[0].flight.stage.Computed?
    ensures var i, z := y.phase.jobs[0].sid, ServerMachine.Step(c, y, CommitNext);
            var x, row := y.streams[i], RowOf(y.phase.jobs[0]);
            && (exists x' :: z.streams == y.streams[i := x'] && x'.s == AfterRow(x.s, row, y.closing))
            && z.ready == y.ready + (if RowWakes(x.s, row, y.closing) then [i] else [])
            && z.closing == y.closing && z.gauge == y.gauge + RowGauge(x.s, row)
            && z.phase == if |y.phase.jobs| == 1 then Idle else Committing(y.phase.jobs[1..])
  {
    hide CommitAndNotify, CommitWakes, CommitGauge;
    var x, row := y.streams[y.phase.jobs[0].sid], RowOf(y.phase.jobs[0]);
    var x' := CommitTo(x, row.work, row.pcm, row.updated, y.closing);
    assert x'.s == AfterRow(x.s, row, y.closing);
  }

  lemma CommitSums(jobs: seq<Job>, was: seq<Session>, closing: bool, k: nat)
    requires AllComputed(jobs) && k < |was| == |jobs|
    ensures |Sids(jobs)| == |RowsOf(jobs)| == |jobs| && Sids(jobs)[k] == jobs[k].sid && jobs[k].flight.stage.Computed?
    ensures RowsOf(jobs)[k] == RowOf(jobs[k])
    ensures |CommittedSessions(was, RowsOf(jobs), closing)| == |jobs|
    ensures CommittedSessions(was, RowsOf(jobs), closing)[k] == AfterRow(was[k], RowOf(jobs[k]), closing)
    ensures CommitGauges(was, RowsOf(jobs), k + 1)
            == CommitGauges(was, RowsOf(jobs), k) + RowGauge(was[k], RowOf(jobs[k]))
    ensures Woken(Sids(jobs), was, RowsOf(jobs), closing, k + 1)
            == Woken(Sids(jobs), was, RowsOf(jobs), closing, k)
               + (if RowWakes(was[k], RowOf(jobs[k]), closing) then [jobs[k].sid] else [])
  {
    hide AfterRow, RowWakes, RowGauge;
  }

  lemma LengthsAgree(st: Server, jobs: seq<Job>)
    requires InRange(Sids(jobs), |st.streams|)
    ensures |Sids(jobs)| == |SessionsOf(st, Sids(jobs))| == |jobs|
    ensures AllComputed(jobs) ==> |RowsOf(jobs)| == |jobs|
  {
  }

  lemma NothingCommitted(sids: seq<nat>, was: seq<Session>, rows: seq<Row>, closing: bool)
    requires |sids| == |was| == |rows|
    ensures Woken(sids, was, rows, closing, 0) == [] && CommitGauges(was, rows, 0) == 0
  {
  }

  /** Committing the batch: streams, ready queue and gauge end as CommitBatch leaves them. */
  lemma {:induction false} CommitStretch(c: Config, st: Server, k: nat)
    requires st.phase.Committing? && st.phase.jobs != [] && k <= |st.phase.jobs| && AllComputed(st.phase.jobs)
    requires Distinct(Sids(st.phase.jobs)) && InRange(Sids(st.phase.jobs), |st.streams|)
    ensures var sids, rows := Sids(st.phase.jobs), RowsOf(st.phase.jobs);
            var was, y := SessionsOf(st, sids), Repeat(c, st, CommitNext, k);
            && Changed(st, y, sids, CommittedSessions(was, rows, st.closing), k)
            && y.phase == (if k == |st.phase.jobs| then Idle else Committing(st.phase.jobs[k..]))
            && y.ready == st.ready + Woken(sids, was, rows, st.closing, k)
            && y.gauge == st.gauge + CommitGauges(was, rows, k)
  {
    hide *;
    var jobs := st.phase.jobs;
    LengthsAgree(st, jobs);
    NothingCommitted(Sids(jobs), SessionsOf(st, Sids(jobs)), RowsOf(jobs), st.closing);
    var sids, rows := Sids(jobs), RowsOf(jobs);
    var was := SessionsOf(st, sids);
    if k == 0 {
      Unchanged(c, st, CommitNext, sids, CommittedSessions(was, rows, st.closing));
      assert jobs[0..] == jobs;
    } else {
      var y := Repeat(c, st, CommitNext, k - 1);
      CommitStretch(c, st, k - 1);
      SessionAt(st, sids, k - 1);
      CommitSums(jobs, was, st.closing, k - 1);
      var after := CommittedSessions(was, rows, st.closing);
      Untouched(st, y, sids, after, k - 1);
      SameClosing(st, y, sids, after, k - 1);
      TailOf(jobs, k - 1);
      CommitOneStep(c, y);
      RepeatNext(c, st, CommitNext, k);
      ChangedNext(st, y, Repeat(c, st, CommitNext, k), sids, after, k - 1);
    }
  }

  lemma SameClosing(st: Server, y: Server, sids: seq<nat>, after: seq<Session>, k: nat)
    requires Changed(st, y, sids, after, k)
    ensures y.closing == st.closing && |y.streams| == |st.streams|
  {
  }

  // ---- Failing ----

  function FailedSessions(was: seq<Session>): seq<Session> {
    seq(|was|, k requires 0 <= k < |was| => Sessions.Fail(was[k], INTERNAL))
  }

  lemma FailOneStep(c: Config, y: Server)
    requires y.phase.Failing? && y.phase.jobs != [] && y.phase.jobs[0].sid < |y.streams|
    ensures var i, z := y.phase.jobs[0].sid, ServerMachine.Step(c, y, FailNext);
            var x := y.streams[i];
            && z.streams == y.streams[i := x.(s := Sessions.Fail(x.s, INTERNAL))]
            && z.ready == y.ready && z.closing == y.closing && z.gauge == y.gauge + FailGauge(x.s)
            && z.phase == if |y.phase.jobs| == 1 then Idle else Failing(y.phase.jobs[1..])
  {
  }

  /** Failing the batch: every stream of it fails, as FailBatch says. */
  lemma {:induction false} FailStretch(c: Config, st: Server, k: nat)
    requires st.phase.Failing? && st.phase.jobs != [] && k <= |st.phase.jobs|
    requires Distinct(Sids(st.phase.jobs)) && InRange(Sids(st.phase.jobs), |st.streams|)
    ensures var sids := Sids(st.phase.jobs);
            var was, y := SessionsOf(st, sids), Repeat(c, st, FailNext, k);
            && Changed(st, y, sids, FailedSessions(was), k)
            && y.phase == (if k == |st.phase.jobs| then Idle else Failing(st.phase.jobs[k..]))
            && y.ready == st.ready && y.gauge == st.gauge + FailGauges(was, k)
  {
    hide *;
    var jobs, sids := st.phase.jobs, Sids(st.phase.jobs);
    LengthsAgree(st, jobs);
    var was := SessionsOf(st, sids);
    NothingFailed(was);
    if k == 0 {
      Unchanged(c, st, FailNext, sids, FailedSessions(was));
      assert jobs[0..] == jobs;
    } else {
      var y := Repeat(c, st, FailNext, k - 1);
      FailStretch(c, st, k - 1);
      SessionAt(st, sids, k - 1);
      FailSums(jobs, was, k - 1);
      Untouched(st, y, sids, FailedSessions(was), k - 1);
      SameClosing(st, y, sids, FailedSessions(was), k - 1);
      TailOf(jobs, k - 1);
      FailOneStep(c, y);
      RepeatNext(c, st, FailNext, k);
      ChangedNext(st, y, Repeat(c, st, FailNext, k), sids, FailedSessions(was), k - 1);
    }
  }

  lemma NothingFailed(was: seq<Session>)
    ensures FailGauges(was, 0) == 0
  {
  }

  lemma FailSums(jobs: seq<Job>, was: seq<Session>, k: nat)
    requires k < |was| == |jobs|
    ensures |Sids(jobs)| == |jobs| && Sids(jobs)[k] == jobs[k].sid
    ensures |FailedSessions(was)| == |jobs| && FailedSessions(was)[k] == Sessions.Fail(was[k], INTERNAL)
    ensures FailGauges(was, k + 1) == FailGauges(was, k) + FailGauge(was[k])
  {
    hide Sessions.Fail, FailGauge;
  }
}

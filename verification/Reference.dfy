/** What a stream should do, told without queues or batches: the work list its input gives,
    and the pipeline driven by such a list. */
module Reference {
  import opened Wrappers
  import opened Pcm
  import opened Rechunker
  import opened Caches
  import opened Pipeline
  import opened Sessions
  import opened StreamMachine

  function SourceWorks(hops: seq<SourceHop>): seq<ModelWork> {
    seq(|hops|, k requires 0 <= k < |hops| => SourceWork(hops[k]))
  }

  /** The hops of an input: whole ones, and the padded partial one once the input has ended with flush. */
  function Hops(start: int, input: seq<real>, mode: Mode): seq<SourceHop> {
    if mode == Flushing then FlushedHops(start, input) else FullHops(start, input)
  }

  function Terminal(input: seq<real>, mode: Mode): seq<ModelWork> {
    if mode == Flushing && input != [] then [FLUSH_WORK]
    else if mode == Dropping then [NO_FLUSH_WORK]
    else []
  }

  /** All the work that an input gives rise to, in order. */
  function Feed(start: int, input: seq<real>, mode: Mode): seq<ModelWork> {
    SourceWorks(Hops(start, input, mode)) + Terminal(input, mode)
  }

  /** The pipeline driven by a work list.  A work that ends the stream without flush drops the delayed hop. */
  function Drive(m: Model, works: seq<ModelWork>): (Pipe, seq<EnhancedHop>) {
    if works == [] then (Start(m), [])
    else
      var (p, outs) := Drive(m, works[..|works| - 1]);
      var work := works[|works| - 1];
      if work.source.Some? then
        match Push(m, p, work.source.value)
        case Ok((p', out)) => (p', outs + Listed(out))
        case Err(_) => (p, outs)
      else if work.terminalFlush then
        var (p', out) := Flush(m, p);
        (p', outs + Listed(out))
      else (p.(pending := None), outs)
  }

  function Encoded(outs: seq<EnhancedHop>): seq<OutputEvent> {
    seq(|outs|, k requires 0 <= k < |outs| => OutputAudio(outs[k].start, Encode(outs[k].samples), outs[k].valid))
  }

  predicate AllSources(works: seq<ModelWork>) {
    forall k | 0 <= k < |works| :: works[k].source.Some? && works[k] == SourceWork(works[k].source.value)
  }

  function Sources(works: seq<ModelWork>): seq<SourceHop>
    requires AllSources(works)
  {
    seq(|works|, k requires 0 <= k < |works| => works[k].source.value)
  }

  // ---- Shape of a feed ----

  lemma FullHopsWellFormed(start: int, input: seq<real>)
    ensures WellFormedHops(FullHops(start, input))
  {
    forall k | 0 <= k < |FullHops(start, input)|
      ensures |FullHops(start, input)[k].samples| == HOP && FullHops(start, input)[k].valid == HOP
    {
      FullHopsCount(start, input);
      FullHopsAt(start, input, k);
    }
  }

  lemma HopsWellFormed(start: int, input: seq<real>, mode: Mode)
    ensures WellFormedHops(Hops(start, input, mode))
  {
    FullHopsWellFormed(start, input);
  }

  /** More audio extends the feed by the hops it completes. */
  lemma FeedAudio(start: int, input: seq<real>, more: seq<real>)
    ensures Feed(start, input + more, Sending)
            == Feed(start, input, Sending) + SourceWorks(FullHops(start + WholeHops(|input|), Rest(input) + more))
  {
    hide *;
    FullHopsAppend(start, input, more);
    FeedSending(start, input);
    FeedSending(start, input + more);
    SourceWorksConcat(FullHops(start, input), FullHops(start + WholeHops(|input|), Rest(input) + more));
  }

  lemma SourceWorksConcat(a: seq<SourceHop>, b: seq<SourceHop>)
    ensures SourceWorks(a + b) == SourceWorks(a) + SourceWorks(b)
  {
  }

  lemma FeedSending(start: int, input: seq<real>)
    ensures Feed(start, input, Sending) == SourceWorks(FullHops(start, input))
  {
    assert Hops(start, input, Sending) == FullHops(start, input);
  }

  /** The end of the input extends the feed by the partial hop and the terminal work. */
  lemma FeedEnd(start: int, input: seq<real>)
    ensures Feed(start, input, Dropping) == Feed(start, input, Sending) + [NO_FLUSH_WORK]
    ensures var partial := FlushPartial(Rechunk(Rest(input), start + WholeHops(|input|), 0)).1;
            Feed(start, input, Flushing)
            == Feed(start, input, Sending) + (SourceWorks(Listed(partial)) + (if input != [] then [FLUSH_WORK] else []))
  {
    FeedSending(start, input);
    hide FullHops;
    assert Hops(start, input, Dropping) == FullHops(start, input);
    assert Hops(start, input, Flushing)
      == FullHops(start, input) + Listed(FlushPartial(Rechunk(Rest(input), start + WholeHops(|input|), 0)).1);
  }

  lemma SourceWorksShape(hops: seq<SourceHop>)
    requires WellFormedHops(hops)
    ensures var works := SourceWorks(hops);
            |works| == |hops| && AllSources(works) && Sources(works) == hops
            && forall k | 0 <= k < |works| :: |works[k].samples| == HOP
  {
  }

  lemma TerminalShape(input: seq<real>, mode: Mode)
    ensures var terminal := Terminal(input, mode);
            && (terminal == [] || terminal == [if mode == Flushing then FLUSH_WORK else NO_FLUSH_WORK])
            && (terminal != [] ==> mode != Sending && (mode == Flushing ==> input != []))
            && (terminal == [] && mode == Flushing ==> input == [])
            && |FLUSH_WORK.samples| == |NO_FLUSH_WORK.samples| == HOP
  {
  }

  lemma FlushHasHop(start: int, input: seq<real>)
    requires input != []
    ensures Hops(start, input, Flushing) != []
  {
    FullHopsCount(start, input);
    if |input| < HOP {
      assert Rest(input) == input;
    }
  }

  /** Only the last work of a feed is terminal, and a flush comes after at least one hop. */
  lemma FeedShape(start: int, input: seq<real>, mode: Mode)
    ensures var feed := Feed(start, input, mode);
            var n := |Hops(start, input, mode)|;
            && n <= |feed| <= n + 1
            && feed[..n] == SourceWorks(Hops(start, input, mode)) && AllSources(feed[..n])
            && (forall k | 0 <= k < |feed| :: |feed[k].samples| == HOP)
            && (|feed| == n + 1 ==> feed[n] == (if mode == Flushing then FLUSH_WORK else NO_FLUSH_WORK))
            && (|feed| == n + 1 && mode == Flushing ==> n > 0)
            && (|feed| == n + 1 ==> mode != Sending)
  {
    HopsWellFormed(start, input, mode);
    FeedIs(start, input, mode);
    hide *;
    var hops, terminal := Hops(start, input, mode), Terminal(input, mode);
    SourceWorksShape(hops);
    TerminalShape(input, mode);
    if mode == Flushing && input != [] {
      FlushHasHop(start, input);
    }
    assert (SourceWorks(hops) + terminal)[..|hops|] == SourceWorks(hops);
  }

  lemma FeedIs(start: int, input: seq<real>, mode: Mode)
    ensures Feed(start, input, mode) == SourceWorks(Hops(start, input, mode)) + Terminal(input, mode)
  {
    hide Hops, Terminal, SourceWorks;
  }

  /** Driving by hops alone is pushing them. */
  lemma {:induction false} DriveSources(m: Model, works: seq<ModelWork>)
    requires AllSources(works)
    ensures Drive(m, works) == PushAll(m, Sources(works))
  {
    if works != [] {
      var front := works[..|works| - 1];
      DriveSources(m, front);
      assert Sources(works)[..|works| - 1] == Sources(front);
    }
  }

  lemma DriveHops(m: Model, hops: seq<SourceHop>)
    ensures Drive(m, SourceWorks(hops)) == PushAll(m, hops)
  {
    DriveSources(m, SourceWorks(hops));
    assert Sources(SourceWorks(hops)) == hops;
    hide Drive, PushAll;
  }

  /** The end of a work list is the end of the pipeline: a flush, a drop, or nothing after nothing. */
  lemma DriveEnd(m: Model, hops: seq<SourceHop>, terminal: seq<ModelWork>, flush: bool)
    requires if flush then terminal == [FLUSH_WORK] || (terminal == [] && hops == [])
             else terminal == [NO_FLUSH_WORK] || terminal == []
    ensures Drive(m, SourceWorks(hops) + terminal).1 == PipelineOutputs(m, hops, flush)
  {
    DriveHops(m, hops);
    assert hops == [] ==> PushAll(m, hops) == (Start(m), []);
    hide Drive, PushAll, SourceWorks;
    if terminal == [] {
      assert SourceWorks(hops) + terminal == SourceWorks(hops);
    } else {
      DriveNext(m, SourceWorks(hops), terminal[0]);
      assert terminal == [terminal[0]];
    }
  }

  /** A driven pipeline emits what StreamingPipeline yields on the same hops, with a flush exactly if the list ends
      in one. */
  lemma DriveIsPipeline(m: Model, start: int, input: seq<real>, mode: Mode)
    ensures Drive(m, Feed(start, input, mode)).1 == PipelineOutputs(m, Hops(start, input, mode), mode == Flushing)
  {
    hide *;
    FeedIs(start, input, mode);
    TerminalShape(input, mode);
    EmptyFeed(start, mode);
    DriveEnd(m, Hops(start, input, mode), Terminal(input, mode), mode == Flushing);
  }

  lemma EmptyFeed(start: int, mode: Mode)
    ensures Hops(start, [], mode) == [] && Feed(start, [], mode) == Terminal([], mode)
  {
  }

  lemma {:induction false} DriveGrows(m: Model, works: seq<ModelWork>, more: seq<ModelWork>)
    ensures Drive(m, works).1 <= Drive(m, works + more).1
  {
    if more == [] {
      assert works + more == works;
    } else {
      DriveGrows(m, works, more[..|more| - 1]);
      assert (works + more)[..|works + more| - 1] == works + more[..|more| - 1];
    }
  }

  /** One more work, seen from the pipeline it meets. */
  lemma DriveNext(m: Model, works: seq<ModelWork>, work: ModelWork)
    ensures Drive(m, works + [work])
            == var (p, outs) := Drive(m, works);
               if work.source.Some? then
                 match Push(m, p, work.source.value)
                 case Ok((p', out)) => (p', outs + Listed(out))
                 case Err(_) => (p, outs)
               else if work.terminalFlush then (Flush(m, p).0, outs + Listed(Flush(m, p).1))
               else (p.(pending := None), outs)
  {
    assert (works + [work])[..|works|] == works;
  }

  /** A work of a feed, told from its place: terminal ones come last, and a flush after at least one hop. */
  lemma FeedAt(start: int, input: seq<real>, mode: Mode, before: seq<ModelWork>, work: ModelWork, rest: seq<ModelWork>)
    requires before + [work] + rest == Feed(start, input, mode)
    ensures AllSources(before) && WellFormedHops(Sources(before)) && |work.samples| == HOP
    ensures if work.terminalFlush then work == FLUSH_WORK && mode == Flushing && rest == [] && before != []
            else if work.terminalNoFlush then work == NO_FLUSH_WORK && mode == Dropping && rest == []
            else work.source.Some? && work == SourceWork(work.source.value)
  {
    var feed := Feed(start, input, mode);
    var n := |Hops(start, input, mode)|;
    FeedShape(start, input, mode);
    HopsWellFormed(start, input, mode);
    assert before == feed[..|before|] && work == feed[|before|];
    assert |before| <= n;
    assert before == feed[..n][..|before|];
    assert Sources(before) == Hops(start, input, mode)[..|before|];
    if |before| < n {
      assert work == feed[..n][|before|];
    }
  }

  lemma WorkHasInput(start: int, input: seq<real>, mode: Mode, before: seq<ModelWork>, work: ModelWork,
                     rest: seq<ModelWork>)
    requires before + [work] + rest == Feed(start, input, mode) && !work.terminalNoFlush
    ensures input != []
  {
    EmptyFeed(start, mode);
    assert (before + [work] + rest)[|before|] == work;
  }

  lemma AnswerEncoded(previous: Option<SourceHop>, wav: seq<real>)
    ensures Encoded(Listed(Answer(previous, wav)))
            == if previous.Some? then [Sessions.Audio(previous.value, Encode(wav))] else []
  {
    if previous.Some? && previous.value.valid <= |wav| {
      EncodePrefix(wav, previous.value.valid);
    }
  }

  lemma EncodedConcat(a: seq<EnhancedHop>, b: seq<EnhancedHop>)
    ensures Encoded(a + b) == Encoded(a) + Encoded(b)
  {
  }

  /** Inference on the next work of a feed, from the caches of the pipeline so far, moves the pipeline over that
      work. */
  lemma DriveCommit(m: Model, start: int, input: seq<real>, mode: Mode, before: seq<ModelWork>, work: ModelWork,
                    rest: seq<ModelWork>)
    requires Sound(m) && before + [work] + rest == Feed(start, input, mode) && !work.terminalNoFlush
    ensures var (p, outs) := Drive(m, before);
            var (p', outs') := Drive(m, before + [work]);
            var (wav, updated) := m.step(work.samples, p.caches);
            && p'.caches == updated
            && p'.pending == (if work.terminalFlush then None else work.source)
            && Encoded(outs') == Encoded(outs)
               + (if p.pending.Some? then [Sessions.Audio(p.pending.value, Encode(wav))] else [])
  {
    FeedAt(start, input, mode, before, work, rest);
    DriveSources(m, before);
    OutputsAnswerHops(m, Sources(before));
    DriveNext(m, before, work);
    var (p, outs) := Drive(m, before);
    var wav := m.step(work.samples, p.caches).0;
    hide Drive, Encoded, PushAll;
    assert Drive(m, before + [work]).1 == outs + Listed(Answer(p.pending, wav));
    EncodedConcat(outs, Listed(Answer(p.pending, wav)));
    AnswerEncoded(p.pending, wav);
  }

  /** Ending without flush drops the delayed hop and emits nothing. */
  lemma DriveDrop(m: Model, works: seq<ModelWork>)
    ensures Drive(m, works + [NO_FLUSH_WORK]) == (Drive(m, works).0.(pending := None), Drive(m, works).1)
  {
    DriveNext(m, works, NO_FLUSH_WORK);
  }

  function ValidSum(events: seq<OutputEvent>): nat {
    Queued(events)
  }

  // ---- Counting samples ----

  lemma {:induction false} ValidTotalAppend(a: seq<SourceHop>, b: seq<SourceHop>)
    ensures ValidTotal(a + b) == ValidTotal(a) + ValidTotal(b)
  {
    if a == [] {
      assert a + b == b;
    } else {
      ValidTotalAppend(a[1..], b);
      assert (a + b)[1..] == a[1..] + b;
    }
  }

  lemma {:induction false} FullHopsTotal(start: int, input: seq<real>)
    ensures ValidTotal(FullHops(start, input)) == WholeHops(|input|)
    decreases |input|
  {
    if |input| >= HOP {
      FullHopsTotal(start + HOP, input[HOP..]);
      assert FullHops(start, input)[1..] == FullHops(start + HOP, input[HOP..]);
    }
  }

  /** The hops of an input carry all of it after a flush, and its whole hops otherwise. */
  lemma HopsTotal(start: int, input: seq<real>, mode: Mode)
    ensures ValidTotal(Hops(start, input, mode)) == if mode == Flushing then |input| else WholeHops(|input|)
  {
    FullHopsTotal(start, input);
    if mode == Flushing && Rest(input) != [] {
      var last := PartialHop(start + WholeHops(|input|), Rest(input));
      ValidTotalAppend(FullHops(start, input), [last]);
      assert ValidTotal([last]) == last.valid + ValidTotal([]) by {
        assert [last][1..] == [];
      }
    } else {
      assert Hops(start, input, mode) == FullHops(start, input);
    }
  }

  /** Hop k + 1 starts where hop k ends, from `at` on. */
  predicate Contiguous(hops: seq<SourceHop>, at: int) {
    hops != [] ==> hops[0].start == at && Contiguous(hops[1..], at + hops[0].valid)
  }

  lemma {:induction false} ContiguousAppend(a: seq<SourceHop>, b: seq<SourceHop>, at: int)
    requires Contiguous(a, at) && Contiguous(b, at + ValidTotal(a))
    ensures Contiguous(a + b, at)
  {
    if a == [] {
      assert a + b == b;
    } else {
      ContiguousAppend(a[1..], b, at + a[0].valid);
      assert (a + b)[1..] == a[1..] + b;
    }
  }

  lemma {:induction false} FullHopsContiguous(start: int, input: seq<real>)
    ensures Contiguous(FullHops(start, input), start)
    decreases |input|
  {
    if |input| >= HOP {
      FullHopsContiguous(start + HOP, input[HOP..]);
      assert FullHops(start, input)[1..] == FullHops(start + HOP, input[HOP..]);
    }
  }

  lemma HopsContiguous(start: int, input: seq<real>, mode: Mode)
    ensures Contiguous(Hops(start, input, mode), start)
  {
    FullHopsContiguous(start, input);
    FullHopsTotal(start, input);
    if mode == Flushing && Rest(input) != [] {
      var last := [PartialHop(start + WholeHops(|input|), Rest(input))];
      assert last[1..] == [];
      ContiguousAppend(FullHops(start, input), last, start);
    } else {
      assert Hops(start, input, mode) == FullHops(start, input);
    }
  }
}

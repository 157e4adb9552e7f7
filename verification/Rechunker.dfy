/** Bounded PCM accumulator that emits exact model-sized source hops. */
module Rechunker {
  import opened Wrappers
  import opened Pcm

  const HOP: nat := 256

  /** A hop handed to the model: 256 samples, of which the first `valid` are input and the rest is padding. */
  datatype SourceHop = SourceHop(start: int, samples: seq<real>, valid: nat)

  datatype RechunkError = BadPcm | BufferFull | BoundTooSmall

  /** What a rechunker holds: the samples not yet emitted, the offset of the first of them, and its bound. */
  datatype Rechunk = Rechunk(pending: seq<real>, next: int, bound: nat)

  // ---- Specification: what rechunking a signal means ----

  /** The part of a length that whole hops cover. */
  function WholeHops(n: nat): (w: nat)
    ensures w <= n < w + HOP && w % HOP == 0
  {
    n / HOP * HOP
  }

  function Rest(data: seq<real>): seq<real> {
    data[WholeHops(|data|)..]
  }

  function FullHops(start: int, data: seq<real>): (hops: seq<SourceHop>)
    decreases |data|
  {
    if |data| < HOP then [] else [SourceHop(start, data[..HOP], HOP)] + FullHops(start + HOP, data[HOP..])
  }

  function Padding(n: nat): seq<real> {
    seq(n, i => 0.0)
  }

  function PartialHop(start: int, data: seq<real>): SourceHop
    requires 0 < |data| < HOP
  {
    SourceHop(start, data + Padding(HOP - |data|), |data|)
  }

  function Append(r: Rechunk, pcm: seq<Byte>): Result<(Rechunk, seq<SourceHop>), RechunkError> {
    match Decode(pcm)
    case Err(_) => Err(BadPcm)
    case Ok(incoming) =>
      if |r.pending| + |incoming| > r.bound then Err(BufferFull)
      else
        var all := r.pending + incoming;
        Ok((Rechunk(Rest(all), r.next + WholeHops(|all|), r.bound), FullHops(r.next, all)))
  }

  function FlushPartial(r: Rechunk): (Rechunk, Option<SourceHop>)
    requires |r.pending| < HOP
  {
    if r.pending == [] then (r, None)
    else (Rechunk([], r.next + |r.pending|, r.bound), Some(PartialHop(r.next, r.pending)))
  }

  // ---- Properties of the specification ----

  /** Hops k of a signal: at offset start + 256k, the samples of exactly that interval. */
  lemma {:induction false} FullHopsAt(start: int, data: seq<real>, k: nat)
    requires k < |data| / HOP
    ensures |FullHops(start, data)| == |data| / HOP
    ensures FullHops(start, data)[k] == SourceHop(start + HOP * k, data[HOP * k..HOP * (k + 1)], HOP)
    decreases k
  {
    if k > 0 {
      FullHopsAt(start + HOP, data[HOP..], k - 1);
      assert data[HOP..][HOP * (k - 1)..HOP * k] == data[HOP * k..HOP * (k + 1)];
    } else {
      FullHopsCount(start, data);
    }
  }

  lemma {:induction false} FullHopsCount(start: int, data: seq<real>)
    ensures |FullHops(start, data)| == |data| / HOP
    decreases |data|
  {
    if |data| >= HOP {
      FullHopsCount(start + HOP, data[HOP..]);
    }
  }

  lemma WholeHopsAdd(a: nat, b: nat)
    ensures WholeHops(a + b) == WholeHops(a) + WholeHops(a - WholeHops(a) + b)
  {
    var k := a / HOP;
    assert (a + b) / HOP == k + (a - k * HOP + b) / HOP;
  }

  lemma RestAppend(a: seq<real>, b: seq<real>)
    ensures WholeHops(|a + b|) == WholeHops(|a|) + WholeHops(|Rest(a) + b|)
    ensures Rest(a + b) == Rest(Rest(a) + b)
  {
    WholeHopsAdd(|a|, |b|);
    var w, v := WholeHops(|a|), WholeHops(|Rest(a) + b|);
    assert (a + b)[w..] == Rest(a) + b;
    assert (a + b)[w + v..] == (a + b)[w..][v..];
  }

  lemma WholeHopsStep(n: nat)
    ensures WholeHops(n) == if n < HOP then 0 else HOP + WholeHops(n - HOP)
  {
  }

  lemma RestStep(data: seq<real>)
    ensures Rest(data) == if |data| < HOP then data else Rest(data[HOP..])
  {
    WholeHopsStep(|data|);
  }

  /** Rechunking in two steps is rechunking at once: only the rest of the first step matters to the second. */
  lemma {:induction false} FullHopsAppend(start: int, a: seq<real>, b: seq<real>)
    ensures FullHops(start, a + b) == FullHops(start, a) + FullHops(start + WholeHops(|a|), Rest(a) + b)
    decreases |a|
  {
    hide WholeHops, Rest;
    WholeHopsStep(|a|);
    RestStep(a);
    if |a| >= HOP {
      FullHopsAppend(start + HOP, a[HOP..], b);
      assert (a + b)[..HOP] == a[..HOP];
      assert (a + b)[HOP..] == a[HOP..] + b;
    }
  }

  function ValidTotal(hops: seq<SourceHop>): nat {
    if hops == [] then 0 else hops[0].valid + ValidTotal(hops[1..])
  }

  /** The samples that hops carry, without padding. */
  function AudioOf(hops: seq<SourceHop>): seq<real>
    requires Sized(hops)
  {
    if hops == [] then [] else hops[0].samples[..hops[0].valid] + AudioOf(hops[1..])
  }

  lemma FullHopsStep(start: int, data: seq<real>)
    requires |data| >= HOP
    ensures FullHops(start, data) != [] && FullHops(start, data)[0] == SourceHop(start, data[..HOP], HOP)
    ensures FullHops(start, data)[1..] == FullHops(start + HOP, data[HOP..])
    ensures FullHops(start, data) == [SourceHop(start, data[..HOP], HOP)] + FullHops(start + HOP, data[HOP..])
  {
  }

  predicate Sized(hops: seq<SourceHop>) {
    forall k | 0 <= k < |hops| :: 0 < hops[k].valid <= |hops[k].samples| == HOP
  }

  predicate AllFull(hops: seq<SourceHop>) {
    forall k | 0 <= k < |hops| :: hops[k].valid == |hops[k].samples| == HOP
  }

  lemma FullHopsAreFull(start: int, data: seq<real>)
    ensures AllFull(FullHops(start, data))
  {
    FullHopsCount(start, data);
    forall k | 0 <= k < |FullHops(start, data)|
      ensures FullHops(start, data)[k].valid == |FullHops(start, data)[k].samples| == HOP
    {
      FullHopsAt(start, data, k);
    }
  }

  lemma AudioOfStep(hops: seq<SourceHop>)
    requires AllFull(hops) && hops != []
    ensures AllFull(hops[1..]) && AudioOf(hops) == hops[0].samples + AudioOf(hops[1..])
  {
    assert hops[0].samples[..HOP] == hops[0].samples;
  }

  lemma Joins(data: seq<real>, middle: seq<real>, rest: seq<real>)
    requires |data| >= HOP && middle + rest == data[HOP..]
    ensures (data[..HOP] + middle) + rest == data
  {
    assert (data[..HOP] + middle) + rest == data[..HOP] + (middle + rest);
  }

  /** Nothing is lost or repeated: the hops followed by the rest are the signal, and the rest is shorter than a
      hop. */
  lemma {:induction false} HopsCoverSignal(start: int, data: seq<real>)
    ensures AllFull(FullHops(start, data))
    ensures AudioOf(FullHops(start, data)) + Rest(data) == data
    ensures |Rest(data)| < HOP
    decreases |data|
  {
    RestStep(data);
    FullHopsAreFull(start, data);
    if |data| >= HOP {
      var tail := data[HOP..];
      HopsCoverSignal(start + HOP, tail);
      FullHopsStep(start, data);
      AudioOfStep(FullHops(start, data));
      hide *;
      Joins(data, AudioOf(FullHops(start + HOP, tail)), Rest(tail));
    }
  }

  /** The hop a flush gives: there is one exactly if samples are pending, it starts where the hops before it stopped,
      its first samples are the pending ones, and silence fills it up. */
  lemma PartialIsPadded(r: Rechunk)
    requires |r.pending| < HOP
    ensures FlushPartial(r).1.Some? <==> r.pending != []
    ensures FlushPartial(r).0 == Rechunk([], r.next + |r.pending|, r.bound)
    ensures FlushPartial(r).1.Some? ==>
              var hop := FlushPartial(r).1.value;
              && hop.start == r.next && hop.valid == |r.pending| && |hop.samples| == HOP
              && hop.samples[..hop.valid] == r.pending
              && forall k | hop.valid <= k < HOP :: hop.samples[k] == 0.0
  {
  }

  lemma {:induction false} AudioOfSnoc(hops: seq<SourceHop>, last: SourceHop)
    requires Sized(hops) && 0 < last.valid <= |last.samples| == HOP
    ensures Sized(hops + [last]) && AudioOf(hops + [last]) == AudioOf(hops) + last.samples[..last.valid]
  {
    if hops == [] {
      assert hops + [last] == [last] && [last][1..] == [];
    } else {
      AudioOfSnoc(hops[1..], last);
      assert (hops + [last])[1..] == hops[1..] + [last];
    }
  }

  /** The whole run of a rechunker that is fed a list of chunks; it stops at the first one that is refused. */
  function AppendAll(r: Rechunk, chunks: seq<seq<Byte>>): Result<(Rechunk, seq<SourceHop>), RechunkError> {
    if chunks == [] then Ok((r, []))
    else
      match AppendAll(r, chunks[..|chunks| - 1])
      case Err(e) => Err(e)
      case Ok(before) =>
        match Append(before.0, chunks[|chunks| - 1])
        case Err(e) => Err(e)
        case Ok(after) => Ok((after.0, before.1 + after.1))
  }

  function Joined(chunks: seq<seq<Byte>>): (all: seq<Byte>)
  {
    if chunks == [] then [] else Joined(chunks[..|chunks| - 1]) + chunks[|chunks| - 1]
  }

  lemma FullHopsOfNone(start: int)
    ensures FullHops(start, Samples([])) == [] && Rest(Samples([])) == [] && WholeHops(0) == 0
  {
  }

  /** What a run has emitted and still holds is a function of the joined input alone. */
  lemma {:induction false} AppendAllIsJoined(start: int, bound: nat, chunks: seq<seq<Byte>>)
    requires AppendAll(Rechunk([], start, bound), chunks).Ok?
    ensures |Joined(chunks)| % 2 == 0
    ensures var all := Samples(Joined(chunks));
            AppendAll(Rechunk([], start, bound), chunks)
            == Ok((Rechunk(Rest(all), start + WholeHops(|all|), bound), FullHops(start, all)))
  {
    hide WholeHops, Rest, FullHops;
    if chunks == [] {
      FullHopsOfNone(start);
    } else {
      var front, last := chunks[..|chunks| - 1], chunks[|chunks| - 1];
      AppendAllIsJoined(start, bound, front);
      var all := Samples(Joined(front));
      SamplesConcat(Joined(front), last);
      FullHopsAppend(start, all, Samples(last));
      RestAppend(all, Samples(last));
    }
  }

  /** Two ways of splitting the same PCM that both fit the bound give the same hops, rest and final partial hop. */
  lemma ChunkingIndependence(start: int, bound: nat, chunks: seq<seq<Byte>>, others: seq<seq<Byte>>)
    requires Joined(chunks) == Joined(others)
    requires AppendAll(Rechunk([], start, bound), chunks).Ok? && AppendAll(Rechunk([], start, bound), others).Ok?
    ensures AppendAll(Rechunk([], start, bound), chunks) == AppendAll(Rechunk([], start, bound), others)
    ensures var end := AppendAll(Rechunk([], start, bound), chunks).value.0;
            |end.pending| < HOP && FlushPartial(end).0.pending == []
            && FlushPartial(end).0.next == start + |Joined(chunks)| / 2
  {
    AppendAllIsJoined(start, bound, chunks);
    AppendAllIsJoined(start, bound, others);
  }

  /** All hops of a signal that ends with a flush. */
  function FlushedHops(start: int, data: seq<real>): seq<SourceHop> {
    FullHops(start, data) + (if Rest(data) != [] then [PartialHop(start + WholeHops(|data|), Rest(data))] else [])
  }

  /** Hop k starts at start + 256k, all hops but the last are whole, and silence fills up the last one. */
  predicate Spread(start: int, hops: seq<SourceHop>) {
    && Sized(hops)
    && (forall k | 0 <= k < |hops| :: hops[k].start == start + HOP * k)
    && (forall k | 0 <= k < |hops| - 1 :: hops[k].valid == HOP)
    && forall k, i | 0 <= k < |hops| && hops[k].valid <= i < HOP :: hops[k].samples[i] == 0.0
  }

  lemma SpreadSnoc(start: int, hops: seq<SourceHop>, last: SourceHop)
    requires Spread(start, hops) && forall k | 0 <= k < |hops| :: hops[k].valid == HOP
    requires last.start == start + HOP * |hops| && 0 < last.valid <= |last.samples| == HOP
    requires forall i | last.valid <= i < HOP :: last.samples[i] == 0.0
    ensures Spread(start, hops + [last])
  {
  }

  lemma FullHopsSpread(start: int, data: seq<real>)
    ensures var hops := FullHops(start, data);
            && Spread(start, hops) && |hops| == |data| / HOP
            && forall k | 0 <= k < |hops| :: hops[k].valid == HOP
  {
    var hops := FullHops(start, data);
    FullHopsCount(start, data);
    forall k | 0 <= k < |hops|
      ensures hops[k].start == start + HOP * k && hops[k].valid == |hops[k].samples| == HOP
    {
      FullHopsAt(start, data, k);
    }
  }

  lemma PendingAt(start: int, data: seq<real>)
    ensures start + WholeHops(|data|) == start + HOP * (|data| / HOP) && |Rest(data)| < HOP
  {
  }

  lemma FlushedHopsAre(start: int, data: seq<real>)
    ensures |Rest(data)| < HOP
    ensures FlushedHops(start, data)
            == var partial := FlushPartial(Rechunk(Rest(data), start + WholeHops(|data|), 0)).1;
               FullHops(start, data) + (if partial.Some? then [partial.value] else [])
  {
  }

  lemma SpreadSized(start: int, hops: seq<SourceHop>)
    requires Spread(start, hops)
    ensures Sized(hops)
  {
  }

  /** The samples of the hops of a flushed signal, one after another and without the padding, are the signal. */
  lemma FlushedHopsCoverSignal(start: int, data: seq<real>)
    ensures Spread(start, FlushedHops(start, data)) && Sized(FlushedHops(start, data))
    ensures AudioOf(FlushedHops(start, data)) == data
  {
    hide *;
    var hops, end := FullHops(start, data), Rechunk(Rest(data), start + WholeHops(|data|), 0);
    FlushedHopsAre(start, data);
    HopsCoverSignal(start, data);
    FullHopsSpread(start, data);
    PendingAt(start, data);
    PartialIsPadded(end);
    SpreadSized(start, hops);
    if end.pending != [] {
      var last := FlushPartial(end).1.value;
      SpreadSnoc(start, hops, last);
      AudioOfSnoc(hops, last);
    } else {
      assert hops + [] == hops;
      assert AudioOf(hops) + [] == AudioOf(hops);
    }
  }

  /** A flushed run in full, for every chunking that fits: the hops emitted on the way and the partial hop at the
      end are those of the joined input, whose samples they carry. */
  lemma RunCoversInput(start: int, bound: nat, chunks: seq<seq<Byte>>)
    requires AppendAll(Rechunk([], start, bound), chunks).Ok?
    ensures |Joined(chunks)| % 2 == 0 && |AppendAll(Rechunk([], start, bound), chunks).value.0.pending| < HOP
    ensures var (end, before) := AppendAll(Rechunk([], start, bound), chunks).value;
            var partial := FlushPartial(end).1;
            var hops := before + (if partial.Some? then [partial.value] else []);
            Spread(start, hops) && AudioOf(hops) == Samples(Joined(chunks))
  {
    hide *;
    AppendAllIsJoined(start, bound, chunks);
    var all := Samples(Joined(chunks));
    FlushedHopsAre(start, all);
    FlushedHopsCoverSignal(start, all);
    SamePartial(Rest(all), start + WholeHops(|all|), bound);
  }

  lemma SamePartial(pending: seq<real>, next: int, bound: nat)
    requires |pending| < HOP
    ensures FlushPartial(Rechunk(pending, next, bound)).1 == FlushPartial(Rechunk(pending, next, 0)).1
  {
  }

  // ---- The accumulator itself ----

  function Flatten(parts: seq<seq<real>>): seq<real> {
    if parts == [] then [] else parts[0] + Flatten(parts[1..])
  }

  lemma {:induction false} FlattenAppend(parts: seq<seq<real>>, last: seq<real>)
    ensures Flatten(parts + [last]) == Flatten(parts) + last
  {
    if parts == [] {
      assert [last][1..] == [];
    } else {
      FlattenAppend(parts[1..], last);
      assert (parts + [last])[1..] == parts[1..] + [last];
    }
  }

  predicate Drained(all: seq<real>, done: nat) {
    done <= |all| && done % HOP == 0
  }

  lemma NothingDrained(all: seq<real>)
    ensures Drained(all, 0)
  {
  }

  lemma DrainedEnd(all: seq<real>, done: nat)
    requires Drained(all, done) && |all| < done + HOP
    ensures all[done..] == Rest(all) && WholeHops(|all|) == done
    ensures forall start: int :: FullHops(start, all[done..]) == []
  {
  }

  /** Taking from the first part: all of it, or its beginning. */
  lemma FlattenTaken(parts: seq<seq<real>>, take: nat)
    requires parts != [] && take <= |parts[0]|
    ensures Flatten(parts) == parts[0] + Flatten(parts[1..])
    ensures Flatten(parts[0 := parts[0][take..]]) == Flatten(parts)[take..]
    ensures Flatten(parts[1..]) == Flatten(parts)[|parts[0]|..]
  {
    assert parts[0 := parts[0][take..]][1..] == parts[1..];
  }

  lemma Continues(all: seq<real>, position: nat, part: seq<real>, rest: seq<real>, take: nat)
    requires position <= |all| && all[position..] == part + rest && take <= |part|
    ensures position + take <= |all| && all[..position + take] == all[..position] + part[..take]
    ensures (part + rest)[take..] == all[position + take..]
  {
    assert all == all[..position] + part + rest;
  }

  /** One more hop is drained. */
  lemma DrainedNext(start: int, all: seq<real>, done: nat, output: seq<SourceHop>)
    requires Drained(all, done) && done + HOP <= |all|
    requires output + FullHops(start + done, all[done..]) == FullHops(start, all)
    ensures Drained(all, done + HOP)
    ensures output + [SourceHop(start + done, all[done..][..HOP], HOP)]
            + FullHops(start + done + HOP, all[done + HOP..])
            == FullHops(start, all)
    ensures all[done..][HOP..] == all[done + HOP..]
  {
    FullHopsStep(start + done, all[done..]);
    hide FullHops;
    var hop, rest := SourceHop(start + done, all[done..][..HOP], HOP), FullHops(start + done + HOP, all[done + HOP..]);
    assert all[done..][HOP..] == all[done + HOP..];
    assert output + ([hop] + rest) == output + [hop] + rest;
  }

  class PCMRechunker {
    var parts: seq<seq<real>>
    var pendingSamples: nat
    var nextSample: int
    const maxPendingSamples: nat

    ghost predicate Valid()
      reads this
    {
      pendingSamples == |Flatten(parts)|
    }

    ghost function View(): Rechunk
      reads this
    {
      Rechunk(Flatten(parts), nextSample, maxPendingSamples)
    }

    constructor (startSample: int, maxPending: nat)
      ensures Valid() && View() == Rechunk([], startSample, maxPending)
    {
      parts := [];
      pendingSamples := 0;
      nextSample := startSample;
      maxPendingSamples := maxPending;
    }

    static method Create(startSample: int, maxPending: nat) returns (r: Result<PCMRechunker, RechunkError>)
      ensures r.Ok? <==> maxPending >= HOP
      ensures r.Ok? ==> fresh(r.value) && r.value.Valid() && r.value.View() == Rechunk([], startSample, maxPending)
    {
      if maxPending < HOP {
        return Err(BoundTooSmall);
      }
      var rechunker := new PCMRechunker(startSample, maxPending);
      return Ok(rechunker);
    }

    method Add(pcm: seq<Byte>) returns (r: Result<seq<SourceHop>, RechunkError>)
      requires Valid()
      modifies this
      ensures Valid()
      ensures match Append(old(View()), pcm)
              case Ok(after) => View() == after.0 && r == Ok(after.1)
              case Err(e) => View() == old(View()) && r == Err(e)
    {
      var incoming := Decode(pcm);
      if incoming.Err? {
        return Err(BadPcm);
      }
      if pendingSamples + |incoming.value| > maxPendingSamples {
        return Err(BufferFull);
      }
      FlattenAppend(parts, incoming.value);
      parts := parts + [incoming.value];
      pendingSamples := pendingSamples + |incoming.value|;
      var hops := DrainFullHops();
      return Ok(hops);
    }

    /** Moves the first `count` pending samples into a fresh buffer, splitting the last part it reaches. */
    method Take(count: nat) returns (output: seq<real>)
      requires Valid() && count <= pendingSamples
      modifies this`parts, this`pendingSamples
      ensures Valid()
      ensures output == old(Flatten(parts))[..count] && Flatten(parts) == old(Flatten(parts))[count..]
    {
      var buffer := new real[count];
      var position := 0;
      ghost var all := Flatten(parts);
      while position < count
        invariant 0 <= position <= count <= |all|
        invariant buffer[..position] == all[..position]
        invariant Flatten(parts) == all[position..]
        invariant unchanged(this`pendingSamples)
        decreases count - position + |parts|
      {
        var part := parts[0];
        var take := if count - position < |part| then count - position else |part|;
        FlattenTaken(parts, take);
        Continues(all, position, part, Flatten(parts[1..]), take);
        hide Flatten;
        forall k | 0 <= k < take {
          buffer[position + k] := part[k];
        }
        assert buffer[..position + take] == all[..position] + part[..take];
        position := position + take;
        if take == |part| {
          parts := parts[1..];
        } else {
          parts := parts[0 := part[take..]];
        }
      }
      pendingSamples := pendingSamples - count;
      output := buffer[..];
    }

    method DrainFullHops() returns (output: seq<SourceHop>)
      requires Valid()
      modifies this
      ensures Valid()
      ensures var all := old(Flatten(parts));
              output == FullHops(old(nextSample), all)
              && View() == Rechunk(Rest(all), old(nextSample) + WholeHops(|all|), maxPendingSamples)
    {
      hide FullHops, WholeHops, Rest, Drained;
      output := [];
      ghost var all, done: nat := Flatten(parts), 0;
      assert all[0..] == all;
      NothingDrained(all);
      while pendingSamples >= HOP
        invariant Valid() && 0 <= done <= |all| && Drained(all, done)
        invariant Flatten(parts) == all[done..] && nextSample == old(nextSample) + done
        invariant output + FullHops(nextSample, all[done..]) == FullHops(old(nextSample), all)
        decreases pendingSamples
      {
        DrainedNext(old(nextSample), all, done, output);
        var samples := Take(HOP);
        output := output + [SourceHop(nextSample, samples, HOP)];
        nextSample := nextSample + HOP;
        done := done + HOP;
      }
      DrainedEnd(all, done);
    }

    method FlushTail() returns (hop: Option<SourceHop>)
      requires Valid() && pendingSamples < HOP
      modifies this
      ensures Valid()
      ensures (View(), hop) == FlushPartial(old(View()))
    {
      if pendingSamples == 0 {
        return None;
      }
      var valid := pendingSamples;
      ghost var pending := Flatten(parts);
      var taken := Take(valid);
      assert taken == pending && Flatten(parts) == [];
      var samples := new real[HOP](i => 0.0);
      forall k | 0 <= k < valid {
        samples[k] := taken[k];
      }
      assert samples[..] == taken + Padding(HOP - valid);
      hop := Some(SourceHop(nextSample, samples[..], valid));
      nextSample := nextSample + valid;
    }
  }
}

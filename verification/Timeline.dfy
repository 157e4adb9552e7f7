/** Timeline buffers addressed by absolute sample: a contiguous raw buffer and a list of enhanced segments. */
module Timeline {
  import opened Wrappers
  import opened Pcm

  datatype TimelineError = NotContiguous | OddLength | Unavailable | BadPayload | NonIdenticalOverlap

  /** The two bytes of one sample. */
  type Sample = (Byte, Byte)

  function SampleAt(pcm: seq<Byte>, k: nat): Sample
    requires 2 * k + 1 < |pcm|
  {
    (pcm[2 * k], pcm[2 * k + 1])
  }

  // ---- The raw buffer ----

  datatype Raw = Raw(start: int, data: seq<Byte>) {
    function End(): int {
      start + |data| / 2
    }
  }

  function RawAppend(r: Raw, start: int, pcm: seq<Byte>): Result<Raw, TimelineError> {
    if start != r.End() then Err(NotContiguous)
    else if |pcm| % 2 != 0 then Err(OddLength)
    else Ok(Raw(r.start, r.data + pcm))
  }

  function RawRead(r: Raw, start: int, count: nat): Result<seq<Byte>, TimelineError> {
    if start < r.start || start + count > r.End() then Err(Unavailable)
    else
      var begin := (start - r.start) * 2;
      Ok(r.data[begin..begin + count * 2])
  }

  /** What is appended is what is read back, and nothing that was readable changes. */
  lemma AppendRead(r: Raw, start: int, pcm: seq<Byte>, from: int, count: nat)
    requires |r.data| % 2 == 0 && RawAppend(r, start, pcm).Ok?
    ensures RawRead(RawAppend(r, start, pcm).value, start, |pcm| / 2) == Ok(pcm)
    ensures RawRead(r, from, count).Ok? ==>
            RawRead(RawAppend(r, start, pcm).value, from, count) == RawRead(r, from, count)
  {
    var all := r.data + pcm;
    assert all[|r.data|..|r.data| + |pcm|] == pcm;
    if RawRead(r, from, count).Ok? {
      var begin := (from - r.start) * 2;
      assert all[begin..begin + count * 2] == r.data[begin..begin + count * 2];
    }
  }

  /** How many samples discarding removes. */
  function Removed(r: Raw, sample: int): nat {
    var wanted := if sample - r.start > 0 then sample - r.start else 0;
    if wanted < |r.data| / 2 then wanted else |r.data| / 2
  }

  function RawDiscard(r: Raw, sample: int): Raw {
    Raw(r.start + Removed(r, sample), r.data[2 * Removed(r, sample)..])
  }

  /** Discarding forgets exactly the samples before the given one; the end does not move. */
  lemma DiscardRead(r: Raw, sample: int, from: int, count: nat)
    requires |r.data| % 2 == 0
    ensures RawDiscard(r, sample).End() == r.End()
    ensures from >= sample ==> RawRead(RawDiscard(r, sample), from, count) == RawRead(r, from, count)
    ensures from < sample <= r.End() && 0 < count ==> RawRead(RawDiscard(r, sample), from, count) == Err(Unavailable)
  {
    var n := Removed(r, sample);
    if from >= r.start + n && from + count <= r.End() {
      DropSlice(r.data, 2 * n, (from - r.start - n) * 2, count * 2);
    }
  }

  lemma DropSlice(data: seq<Byte>, n: nat, begin: nat, count: nat)
    requires n + begin + count <= |data|
    ensures data[n..][begin..begin + count] == data[n + begin..n + begin + count]
  {
  }

  class ContiguousPCM {
    var startSample: int
    var data: seq<Byte>

    function View(): Raw
      reads this
    {
      Raw(startSample, data)
    }

    constructor (startSample: int)
      ensures View() == Raw(startSample, [])
    {
      this.startSample, data := startSample, [];
    }

    method Append(start: int, pcm: seq<Byte>) returns (r: Result<(), TimelineError>)
      modifies this
      ensures match RawAppend(old(View()), start, pcm)
              case Ok(after) => View() == after && r == Ok(())
              case Err(e) => View() == old(View()) && r == Err(e)
    {
      if start != startSample + |data| / 2 {
        return Err(NotContiguous);
      }
      if |pcm| % 2 != 0 {
        return Err(OddLength);
      }
      data := data + pcm;
      return Ok(());
    }

    method Read(start: int, count: nat) returns (r: Result<seq<Byte>, TimelineError>)
      ensures r == RawRead(View(), start, count)
    {
      if start < startSample || start + count > startSample + |data| / 2 {
        return Err(Unavailable);
      }
      var begin := (start - startSample) * 2;
      return Ok(data[begin..begin + count * 2]);
    }

    method DiscardBefore(sample: int)
      modifies this
      ensures View() == RawDiscard(old(View()), sample)
    {
      var wanted := if sample - startSample > 0 then sample - startSample else 0;
      var remove := if wanted < |data| / 2 then wanted else |data| / 2;
      if remove > 0 {
        data := data[2 * remove..];
        startSample := startSample + remove;
      }
    }

    method ClearAt(start: int)
      modifies this
      ensures View() == Raw(start, [])
    {
      startSample := start;
      data := [];
    }
  }

  // ---- Enhanced segments ----

  datatype Segment = Segment(start: int, pcm: seq<Byte>) {
    function End(): int {
      start + |pcm| / 2
    }

    predicate Sound() {
      pcm != [] && |pcm| % 2 == 0
    }

    predicate Covers(t: int) {
      start <= t < End()
    }
  }

  predicate Overlaps(a: Segment, b: Segment) {
    !(a.End() <= b.start || a.start >= b.End())
  }

  /** Sorted, non-empty and disjoint. */
  predicate Ordered(segs: seq<Segment>) {
    && (forall i | 0 <= i < |segs| :: segs[i].Sound())
    && forall i, j | 0 <= i < j < |segs| :: segs[i].End() <= segs[j].start
  }

  /** The first segment met that overlaps a candidate. */
  function FirstOverlap(segs: seq<Segment>, candidate: Segment): Option<Segment> {
    if segs == [] then None
    else if Overlaps(candidate, segs[0]) then Some(segs[0])
    else FirstOverlap(segs[1..], candidate)
  }

  /** Insertion sort: stable, by start, as list.sort with that key. */
  function Place(segs: seq<Segment>, s: Segment): seq<Segment> {
    if segs == [] || segs[|segs| - 1].start <= s.start then segs + [s]
    else Place(segs[..|segs| - 1], s) + [segs[|segs| - 1]]
  }

  function SortByStart(segs: seq<Segment>): seq<Segment> {
    if segs == [] then [] else Place(SortByStart(segs[..|segs| - 1]), segs[|segs| - 1])
  }

  function Insert(segs: seq<Segment>, start: int, pcm: seq<Byte>): Result<seq<Segment>, TimelineError> {
    if pcm == [] || |pcm| % 2 != 0 then Err(BadPayload)
    else
      var candidate := Segment(start, pcm);
      match FirstOverlap(segs, candidate)
      case None => Ok(SortByStart(segs + [candidate]))
      case Some(existing) => if candidate == existing then Ok(segs) else Err(NonIdenticalOverlap)
  }

  /** Why the buffers refuse: the raw buffer anything that does not continue it, then half samples, and reading
      what it does not hold whole; the segments a payload of no or half samples, and then an overlap. */
  lemma Refusals(r: Raw, segs: seq<Segment>, start: int, pcm: seq<Byte>, count: nat)
    ensures RawAppend(r, start, pcm).Err? <==> start != r.End() || |pcm| % 2 != 0
    ensures RawAppend(r, start, pcm).Err? ==>
              RawAppend(r, start, pcm).error == if start != r.End() then NotContiguous else OddLength
    ensures RawRead(r, start, count).Err? <==> start < r.start || r.End() < start + count
    ensures Insert(segs, start, pcm).Err? ==>
              Insert(segs, start, pcm).error == if pcm == [] || |pcm| % 2 != 0 then BadPayload else NonIdenticalOverlap
  {
  }

  function Min(a: int, b: int): int {
    if a < b then a else b
  }

  function ReadFrom(segs: seq<Segment>, cursor: int, end: int): Option<seq<Byte>>
    requires cursor <= end
  {
    if segs == [] then None
    else
      var s := segs[0];
      if s.End() <= cursor then ReadFrom(segs[1..], cursor, end)
      else if s.start > cursor then None
      else
        var begin, take := (cursor - s.start) * 2, Min(s.End(), end) - cursor;
        var chunk := s.pcm[begin..begin + take * 2];
        if cursor + take == end then Some(chunk)
        else Prepend(chunk, ReadFrom(segs[1..], cursor + take, end))
  }

  function Prepend(head: seq<Byte>, rest: Option<seq<Byte>>): Option<seq<Byte>> {
    if rest.Some? then Some(head + rest.value) else None
  }

  function DiscardSegments(segs: seq<Segment>, sample: int): seq<Segment> {
    if segs == [] then []
    else Retained(segs[0], sample) + DiscardSegments(segs[1..], sample)
  }

  /** What becomes of one segment. */
  function Retained(s: Segment, sample: int): seq<Segment> {
    if s.End() <= sample then []
    else if s.start < sample then [Segment(sample, s.pcm[(sample - s.start) * 2..])]
    else [s]
  }

  lemma DiscardStep(segs: seq<Segment>, i: nat, sample: int, retained: seq<Segment>)
    requires i < |segs|
    ensures retained + DiscardSegments(segs[i..], sample)
            == (retained + Retained(segs[i], sample)) + DiscardSegments(segs[i + 1..], sample)
  {
    assert segs[i..][1..] == segs[i + 1..];
    assert DiscardSegments(segs[i..], sample) == Retained(segs[i], sample) + DiscardSegments(segs[i + 1..], sample);
  }

  class EnhancedSegments {
    var segments: seq<Segment>

    constructor ()
      ensures segments == []
    {
      segments := [];
    }

    method InsertAudio(start: int, pcm: seq<Byte>) returns (r: Result<(), TimelineError>)
      modifies this
      ensures match Insert(old(segments), start, pcm)
              case Ok(after) => segments == after && r == Ok(())
              case Err(e) => segments == old(segments) && r == Err(e)
    {
      if pcm == [] || |pcm| % 2 != 0 {
        return Err(BadPayload);
      }
      var candidate := Segment(start, pcm);
      for i := 0 to |segments|
        invariant FirstOverlap(segments, candidate) == FirstOverlap(segments[i..], candidate)
        invariant segments == old(segments)
      {
        var existing := segments[i];
        assert segments[i..][1..] == segments[i + 1..];
        if candidate.End() <= existing.start || candidate.start >= existing.End() {
          continue;
        }
        if candidate == existing {
          return Ok(());
        }
        return Err(NonIdenticalOverlap);
      }
      segments := SortByStart(segments + [candidate]);
      return Ok(());
    }

    method Read(start: int, count: nat) returns (r: Option<seq<Byte>>)
      ensures r == ReadFrom(segments, start, start + count)
    {
      var cursor, end := start, start + count;
      var output: seq<Byte> := [];
      ghost var whole := ReadFrom(segments, start, end);
      assert whole.Some? ==> [] + whole.value == whole.value;
      assert segments[0..] == segments;
      for i := 0 to |segments|
        invariant start <= cursor <= end
        invariant ReadFrom(segments, start, end) == Prepend(output, ReadFrom(segments[i..], cursor, end))
      {
        var segment := segments[i];
        assert segments[i..][1..] == segments[i + 1..];
        if segment.End() <= cursor {
          continue;
        }
        if segment.start > cursor {
          return None;
        }
        var begin, take := (cursor - segment.start) * 2, Min(segment.End(), end) - cursor;
        ghost var before := output;
        output := output + segment.pcm[begin..begin + take * 2];
        cursor := cursor + take;
        if cursor == end {
          return Some(output);
        }
        ghost var rest := ReadFrom(segments[i + 1..], cursor, end);
        assert rest.Some? ==> before + (segment.pcm[begin..begin + take * 2] + rest.value) == output + rest.value;
      }
      return None;
    }

    method DiscardBefore(sample: int)
      modifies this
      ensures segments == DiscardSegments(old(segments), sample)
    {
      var retained: seq<Segment> := [];
      assert segments[0..] == segments;
      for i := 0 to |segments|
        invariant segments == old(segments)
        invariant retained + DiscardSegments(segments[i..], sample) == DiscardSegments(segments, sample)
      {
        hide DiscardSegments;
        var segment := segments[i];
        DiscardStep(segments, i, sample, retained);
        if segment.End() <= sample {
          continue;
        }
        if segment.start < sample {
          var begin := (sample - segment.start) * 2;
          retained := retained + [Segment(sample, segment.pcm[begin..])];
        } else {
          retained := retained + [segment];
        }
      }
      segments := retained;
    }

    method Clear()
      modifies this
      ensures segments == []
    {
      segments := [];
    }
  }
}

/** The enhanced segments as a partial map from sample index to sample. */
module TimelineMap {
  import opened Wrappers
  import opened Pcm
  import opened Timeline

  /** The sample stored for absolute index t, if any. */
  function At(segs: seq<Segment>, t: int): Option<Sample> {
    if segs == [] then None
    else if segs[0].Covers(t) then Some(SampleAt(segs[0].pcm, t - segs[0].start))
    else At(segs[1..], t)
  }

  lemma {:induction false} AtMember(segs: seq<Segment>, s: Segment, t: int)
    requires Ordered(segs) && s in segs && s.Covers(t)
    ensures At(segs, t) == Some(SampleAt(s.pcm, t - s.start))
  {
    if segs[0] != s {
      AtMember(segs[1..], s, t);
    }
  }

  lemma {:induction false} AtSome(segs: seq<Segment>, t: int)
    ensures At(segs, t).Some? <==> exists s :: s in segs && s.Covers(t)
  {
    if segs != [] {
      AtSome(segs[1..], t);
      assert segs == [segs[0]] + segs[1..];
    }
  }

  // ---- Insertion ----

  lemma {:induction false} OverlapMember(segs: seq<Segment>, candidate: Segment)
    ensures FirstOverlap(segs, candidate).None? <==> forall s | s in segs :: !Overlaps(candidate, s)
    ensures FirstOverlap(segs, candidate).Some? ==>
              FirstOverlap(segs, candidate).value in segs && Overlaps(candidate, FirstOverlap(segs, candidate).value)
  {
    if segs != [] {
      OverlapMember(segs[1..], candidate);
      assert segs == [segs[0]] + segs[1..];
    }
  }

  lemma OrderedFront(segs: seq<Segment>)
    requires Ordered(segs) && segs != []
    ensures Ordered(segs[..|segs| - 1]) && segs[|segs| - 1].Sound()
    ensures forall s | s in segs[..|segs| - 1] :: s.Sound() && s.End() <= segs[|segs| - 1].start
  {
  }

  lemma OrderedSnoc(front: seq<Segment>, last: Segment)
    requires Ordered(front) && last.Sound() && forall s | s in front :: s.End() <= last.start
    ensures Ordered(front + [last])
  {
  }

  lemma OrderedStarts(segs: seq<Segment>)
    requires Ordered(segs) && segs != []
    ensures Ordered(segs[..|segs| - 1])
    ensures |segs| > 1 ==> segs[|segs| - 2].start <= segs[|segs| - 1].start
  {
    if |segs| > 1 {
      assert segs[|segs| - 2].Sound();
    }
  }

  lemma PlaceLast(segs: seq<Segment>, s: Segment)
    requires segs == [] || segs[|segs| - 1].start <= s.start
    ensures Place(segs, s) == segs + [s]
  {
  }

  /** On a list that is already in order, sorting changes nothing. */
  lemma {:induction false} SortOrdered(segs: seq<Segment>)
    requires Ordered(segs)
    ensures SortByStart(segs) == segs
  {
    if segs != [] {
      var front, last := segs[..|segs| - 1], segs[|segs| - 1];
      OrderedStarts(segs);
      hide Ordered, Place;
      SortOrdered(front);
      PlaceLast(front, last);
      assert SortByStart(segs) == Place(SortByStart(front), last);
    }
  }

  lemma {:induction false} PlaceOrdered(segs: seq<Segment>, c: Segment)
    requires Ordered(segs) && c.Sound() && forall s | s in segs :: !Overlaps(c, s)
    ensures Ordered(Place(segs, c)) && |Place(segs, c)| == |segs| + 1
    ensures forall s :: s in Place(segs, c) <==> s in segs || s == c
  {
    if segs == [] {
      assert Place(segs, c) == [c];
    } else {
      var front, last := segs[..|segs| - 1], segs[|segs| - 1];
      OrderedFront(segs);
      hide Ordered;
      assert segs == front + [last] && !Overlaps(c, last);
      if last.start > c.start {
        PlaceOrdered(front, c);
        OrderedSnoc(Place(front, c), last);
      } else {
        OrderedSnoc(segs, c);
      }
    }
  }

  /** Two disjoint stored segments cannot both meet the first overlap of an exact duplicate. */
  lemma DuplicateMeetsItself(segs: seq<Segment>, c: Segment)
    requires Ordered(segs) && c in segs
    ensures FirstOverlap(segs, c) == Some(c)
  {
    OverlapMember(segs, c);
    var i :| 0 <= i < |segs| && segs[i] == c;
    assert segs[i].Sound() && Overlaps(c, c);
    var s := FirstOverlap(segs, c).value;
    var j :| 0 <= j < |segs| && segs[j] == s;
    assert i == j;
  }

  /** Insertion refines the map: a fresh interval is added, an exact duplicate changes nothing,
      and everything else that overlaps is refused. */
  lemma InsertRefinesMap(segs: seq<Segment>, start: int, pcm: seq<Byte>)
    requires Ordered(segs)
    ensures var c := Segment(start, pcm);
            Insert(segs, start, pcm).Ok? <==> c.Sound() && (c in segs || forall t | c.Covers(t) :: At(segs, t).None?)
    ensures Insert(segs, start, pcm).Ok? ==>
              var c, after := Segment(start, pcm), Insert(segs, start, pcm).value;
              && Ordered(after)
              && (c in segs ==> after == segs)
              && (c !in segs ==>
                    && |after| == |segs| + 1 && (forall s :: s in after <==> s in segs || s == c)
                    && forall t :: At(after, t) == if c.Covers(t) then Some(SampleAt(pcm, t - start)) else At(segs, t))
  {
    var c := Segment(start, pcm);
    if c.Sound() {
      OverlapMember(segs, c);
      if c in segs {
        DuplicateMeetsItself(segs, c);
      } else if FirstOverlap(segs, c).Some? {
        var s := FirstOverlap(segs, c).value;
        var t := if c.start < s.start then s.start else c.start;
        var j :| 0 <= j < |segs| && segs[j] == s;
        assert segs[j].Sound();
        assert c.Covers(t) && s.Covers(t);
        AtSome(segs, t);
      } else {
        InsertFresh(segs, c);
        forall t | c.Covers(t) ensures At(segs, t).None? {
          AtSome(segs, t);
          assert forall s | s in segs :: !Overlaps(c, s);
        }
      }
    }
  }

  lemma InsertFresh(segs: seq<Segment>, c: Segment)
    requires Ordered(segs) && c.Sound() && forall s | s in segs :: !Overlaps(c, s)
    ensures var after := SortByStart(segs + [c]);
            && Ordered(after) && |after| == |segs| + 1 && (forall s :: s in after <==> s in segs || s == c)
            && forall t :: At(after, t) == if c.Covers(t) then Some(SampleAt(c.pcm, t - c.start)) else At(segs, t)
  {
    SortOrdered(segs);
    PlaceOrdered(segs, c);
    assert (segs + [c])[..|segs|] == segs;
    var after := Place(segs, c);
    forall t ensures At(after, t) == if c.Covers(t) then Some(SampleAt(c.pcm, t - c.start)) else At(segs, t) {
      AtSome(segs, t);
      AtSome(after, t);
      if c.Covers(t) {
        AtMember(after, c, t);
      } else if At(segs, t).Some? {
        var s :| s in segs && s.Covers(t);
        AtMember(segs, s, t);
        AtMember(after, s, t);
      }
    }
  }

  // ---- Reading ----

  lemma OrderedTail(segs: seq<Segment>)
    requires Ordered(segs) && segs != []
    ensures Ordered(segs[1..]) && segs[0].Sound()
    ensures forall s | s in segs[1..] :: s.Sound() && segs[0].End() <= s.start
  {
    forall s | s in segs[1..] ensures s.Sound() && segs[0].End() <= s.start {
      var i :| 0 <= i < |segs[1..]| && segs[1..][i] == s;
      assert segs[i + 1] == s;
    }
  }

  /** The whole interval is stored, and `pcm` is what the map holds for it. */
  ghost predicate Holds(segs: seq<Segment>, from: int, end: int, pcm: seq<Byte>) {
    && |pcm| == 2 * (end - from)
    && forall t | from <= t < end :: At(segs, t) == Some(SampleAt(pcm, t - from))
  }

  ghost predicate AllStored(segs: seq<Segment>, from: int, end: int) {
    forall t | from <= t < end :: At(segs, t).Some?
  }

  lemma HoldsTail(segs: seq<Segment>, from: int, end: int, pcm: seq<Byte>)
    requires segs != [] && segs[0].End() <= from
    ensures Holds(segs[1..], from, end, pcm) ==> Holds(segs, from, end, pcm)
    ensures AllStored(segs, from, end) <==> AllStored(segs[1..], from, end)
  {
    forall t | from <= t < end ensures At(segs, t) == At(segs[1..], t) {
    }
  }

  lemma NotStored(segs: seq<Segment>, from: int, end: int)
    requires from < end && At(segs, from).None?
    ensures !AllStored(segs, from, end)
  {
  }

  /** For a non-empty interval, reading gives the values of the map when all of them are there, and nothing
      otherwise. */
  lemma {:induction false} ReadRefinesMap(segs: seq<Segment>, from: int, end: int)
    requires Ordered(segs) && from < end
    ensures ReadFrom(segs, from, end).Some? <==> AllStored(segs, from, end)
    ensures ReadFrom(segs, from, end).Some? ==> Holds(segs, from, end, ReadFrom(segs, from, end).value)
  {
    if segs == [] {
      NotStored(segs, from, end);
    } else {
      var s := segs[0];
      OrderedTail(segs);
      if s.End() <= from {
        ReadRefinesMap(segs[1..], from, end);
        var r := ReadFrom(segs, from, end);
        HoldsTail(segs, from, end, if r.Some? then r.value else []);
        hide Ordered, Holds, At;
      } else if s.start > from {
        AtSome(segs, from);
        assert segs == [s] + segs[1..];
        NotStored(segs, from, end);
      } else {
        var mid := Min(s.End(), end);
        if mid < end {
          ReadRefinesMap(segs[1..], mid, end);
        }
        ReadHead(segs, from, end);
      }
    }
  }

  /** The part that the first segment gives, and the part that the others give. */
  lemma ReadHead(segs: seq<Segment>, from: int, end: int)
    requires from < end && segs != [] && segs[0].Covers(from)
    requires var mid := Min(segs[0].End(), end);
             mid < end ==>
               && (ReadFrom(segs[1..], mid, end).Some? <==> AllStored(segs[1..], mid, end))
               && (ReadFrom(segs[1..], mid, end).Some? ==>
                   Holds(segs[1..], mid, end, ReadFrom(segs[1..], mid, end).value))
    ensures ReadFrom(segs, from, end).Some? <==> AllStored(segs, from, end)
    ensures ReadFrom(segs, from, end).Some? ==> Holds(segs, from, end, ReadFrom(segs, from, end).value)
  {
    var s, mid := segs[0], Min(segs[0].End(), end);
    var begin := (from - s.start) * 2;
    var chunk := s.pcm[begin..begin + (mid - from) * 2];
    ChunkHolds(segs, from, mid);
    if mid < end {
      var rest := ReadFrom(segs[1..], mid, end);
      HoldsTail(segs, mid, end, if rest.Some? then rest.value else []);
      assert ReadFrom(segs, from, end) == Prepend(chunk, rest);
      hide ReadFrom, At;
      if rest.Some? {
        HoldsJoin(segs, from, mid, end, chunk, rest.value);
      } else {
        var t :| mid <= t < end && At(segs, t).None?;
        assert !AllStored(segs, from, end);
      }
    } else {
      assert ReadFrom(segs, from, end) == Some(chunk);
    }
  }

  lemma ChunkHolds(segs: seq<Segment>, from: int, mid: int)
    requires segs != [] && segs[0].start <= from <= mid <= segs[0].End()
    ensures var begin := (from - segs[0].start) * 2;
            Holds(segs, from, mid, segs[0].pcm[begin..begin + (mid - from) * 2])
  {
  }

  lemma HoldsJoin(segs: seq<Segment>, from: int, mid: int, end: int, a: seq<Byte>, b: seq<Byte>)
    requires from <= mid <= end && Holds(segs, from, mid, a) && Holds(segs, mid, end, b)
    ensures Holds(segs, from, end, a + b)
  {
    hide At;
  }

  /** An empty interval is answered with empty audio exactly where a sample is stored; the processor never asks for
      one. */
  lemma {:induction false} ReadOfNothing(segs: seq<Segment>, at: int)
    requires Ordered(segs)
    ensures ReadFrom(segs, at, at) == if At(segs, at).Some? then Some([]) else None
  {
    if segs != [] {
      OrderedTail(segs);
      if segs[0].End() <= at {
        ReadOfNothing(segs[1..], at);
      } else if segs[0].start > at {
        AtSome(segs, at);
        assert segs == [segs[0]] + segs[1..];
      } else {
        var begin := (at - segs[0].start) * 2;
        assert segs[0].pcm[begin..begin + 0] == [];
      }
    }
  }

  // ---- Discarding ----

  /** The part of a segment from a sample on. */
  function Cut(s: Segment, sample: int): Segment
    requires sample < s.End()
  {
    if s.start < sample then Segment(sample, s.pcm[(sample - s.start) * 2..]) else s
  }

  lemma CutFacts(s: Segment, sample: int)
    requires s.Sound() && sample < s.End()
    ensures var x := Cut(s, sample);
            && x.Sound() && x.End() == s.End() && x.start == (if s.start < sample then sample else s.start)
            && forall t | x.Covers(t) :: SampleAt(x.pcm, t - x.start) == SampleAt(s.pcm, t - s.start)
  {
  }

  /** Cutting twice is cutting once at the later sample. */
  lemma CutTwice(s: Segment, a: int, b: int)
    requires s.Sound() && a <= b < s.End()
    ensures a < s.End() && b < Cut(s, a).End() && Cut(Cut(s, a), b) == Cut(s, b)
  {
    CutFacts(s, a);
  }

  ghost predicate CutOf(x: Segment, segs: seq<Segment>, sample: int) {
    exists s :: s in segs && sample < s.End() && x == Cut(s, sample)
  }

  lemma {:induction false} DiscardMember(segs: seq<Segment>, sample: int, s: Segment)
    requires s in segs && sample < s.End()
    ensures Cut(s, sample) in DiscardSegments(segs, sample)
  {
    if segs[0] != s {
      DiscardMember(segs[1..], sample, s);
    }
  }

  lemma {:induction false} DiscardedIsCut(segs: seq<Segment>, sample: int, x: Segment)
    requires x in DiscardSegments(segs, sample)
    ensures CutOf(x, segs, sample)
  {
    var head := if sample < segs[0].End() then [Cut(segs[0], sample)] else [];
    assert DiscardSegments(segs, sample) == head + DiscardSegments(segs[1..], sample);
    if x in DiscardSegments(segs[1..], sample) {
      DiscardedIsCut(segs[1..], sample, x);
      var s :| s in segs[1..] && sample < s.End() && x == Cut(s, sample);
      assert s in segs;
    } else {
      assert segs[0] in segs;
    }
  }

  lemma OrderedCons(head: Segment, rest: seq<Segment>)
    requires head.Sound() && Ordered(rest) && forall x | x in rest :: head.End() <= x.start
    ensures Ordered([head] + rest)
  {
    var segs := [head] + rest;
    forall i, j | 0 <= i < j < |segs| ensures segs[i].End() <= segs[j].start {
      assert segs[j] == rest[j - 1];
    }
  }

  lemma {:induction false} DiscardOrdered(segs: seq<Segment>, sample: int)
    requires Ordered(segs)
    ensures Ordered(DiscardSegments(segs, sample))
  {
    if segs != [] {
      var rest := DiscardSegments(segs[1..], sample);
      OrderedTail(segs);
      DiscardOrdered(segs[1..], sample);
      if sample < segs[0].End() {
        var head := Cut(segs[0], sample);
        assert DiscardSegments(segs, sample) == [head] + rest;
        CutFacts(segs[0], sample);
        hide Ordered, Cut;
        forall x | x in rest ensures head.End() <= x.start {
          hide DiscardSegments;
          DiscardedIsCut(segs[1..], sample, x);
          var s :| s in segs[1..] && sample < s.End() && x == Cut(s, sample);
          CutFacts(s, sample);
        }
        OrderedCons(head, rest);
      }
    }
  }

  lemma OrderedSound(segs: seq<Segment>, s: Segment)
    requires Ordered(segs) && s in segs
    ensures s.Sound()
  {
  }

  lemma DiscardAt(segs: seq<Segment>, sample: int, t: int)
    requires Ordered(segs)
    ensures At(DiscardSegments(segs, sample), t) == if t < sample then None else At(segs, t)
  {
    DiscardOrdered(segs, sample);
    var after := DiscardSegments(segs, sample);
    AtSome(segs, t);
    AtSome(after, t);
    hide Ordered, DiscardSegments, At, Cut;
    if t >= sample && At(segs, t).Some? {
      var s :| s in segs && s.Covers(t);
      OrderedSound(segs, s);
      CutFacts(s, sample);
      DiscardMember(segs, sample, s);
      AtMember(after, Cut(s, sample), t);
      AtMember(segs, s, t);
    } else if At(after, t).Some? {
      var x :| x in after && x.Covers(t);
      DiscardedIsCut(segs, sample, x);
      var s :| s in segs && sample < s.End() && x == Cut(s, sample);
      OrderedSound(segs, s);
      CutFacts(s, sample);
    }
  }

  /** Discarding restricts the map to the samples from the given one on. */
  lemma DiscardRefinesMap(segs: seq<Segment>, sample: int)
    requires Ordered(segs)
    ensures Ordered(DiscardSegments(segs, sample))
    ensures forall t :: At(DiscardSegments(segs, sample), t) == if t < sample then None else At(segs, t)
  {
    DiscardOrdered(segs, sample);
    hide Ordered, At, DiscardSegments;
    forall t ensures At(DiscardSegments(segs, sample), t) == if t < sample then None else At(segs, t) {
      DiscardAt(segs, sample, t);
    }
  }

  // ---- Whole lives ----

  datatype Operation = InsertOp(start: int, pcm: seq<Byte>) | DiscardOp(sample: int) | ClearOp

  /** The list after any sequence of operations; a refused insertion leaves it as it is. */
  function Life(ops: seq<Operation>): seq<Segment> {
    if ops == [] then []
    else
      var before := Life(ops[..|ops| - 1]);
      match ops[|ops| - 1]
      case InsertOp(start, pcm) => (match Insert(before, start, pcm) case Ok(after) => after case Err(_) => before)
      case DiscardOp(sample) => DiscardSegments(before, sample)
      case ClearOp => []
  }

  /** The partial map the same operations make. */
  ghost function LifeMap(ops: seq<Operation>, t: int): Option<Sample> {
    if ops == [] then None
    else
      var front := ops[..|ops| - 1];
      match ops[|ops| - 1]
      case InsertOp(start, pcm) =>
        var c := Segment(start, pcm);
        if c.Sound() && c.Covers(t)
          && (forall u | c.Covers(u) :: LifeMap(front, u).None?) then Some(SampleAt(pcm, t - start))
        else LifeMap(front, t)
      case DiscardOp(sample) => if t < sample then None else LifeMap(front, t)
      case ClearOp => None
  }

  /** Over any sequence of operations the segments stay sorted, non-empty and disjoint, and are the map. */
  lemma {:induction false} LifeIsMap(ops: seq<Operation>)
    ensures Ordered(Life(ops)) && forall t :: At(Life(ops), t) == LifeMap(ops, t)
  {
    if ops != [] {
      var front := ops[..|ops| - 1];
      LifeIsMap(front);
      match ops[|ops| - 1] {
        case InsertOp(start, pcm) =>
          var c := Segment(start, pcm);
          InsertRefinesMap(Life(front), start, pcm);
          hide Insert, At, Ordered;
          if c in Life(front) && c.Sound() {
            AtMember(Life(front), c, start);
            assert c.Covers(start) && LifeMap(front, start).Some?;
          }
        case DiscardOp(sample) => DiscardRefinesMap(Life(front), sample);
        case ClearOp =>
      }
    }
  }
}

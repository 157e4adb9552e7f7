/** Client and server fit: what a generation sends passes the server's checks, and what the server sends passes the
    client's. */
module Composition {
  import opened Wrappers
  import opened Pcm
  import opened Rechunker
  import opened Caches
  import opened Pipeline
  import opened Sessions
  import opened Service
  import opened StreamMachine
  import opened Reference
  import opened StreamInvariants
  import opened ServerMachine
  import opened ServerInvariants
  import opened ServerTheorems
  import opened ServerOutcomes
  import opened Utf8
  import opened Handshake
  import opened Transport

  // ---- Client to server ----

  /** The server's reader on a list of messages after the start: every audio chunk it reaches is in place, until
      one is refused for its payload; nothing follows the end, and no second start comes. */
  ghost predicate NeverMisplaced(maxChunk: nat, s: Session, messages: seq<ClientMessage>)
    decreases |messages|
  {
    if messages == [] then true
    else
      match messages[0]
      case StartMessage(_) => false
      case EndMessage(_) => messages[1..] == []
      case AudioMessage(chunk) =>
        && InPlace(s, chunk)
        && (Accept(maxChunk, s, chunk).1.Ok? ==> NeverMisplaced(maxChunk, Accept(maxChunk, s, chunk).0, messages[1..]))
  }

  lemma {:induction false} YieldsInPlace(maxChunk: nat, s: Session, sequence: nat, expected: nat, request: Request,
                                         gets: seq<Request>, resets: seq<bool>)
    requires |resets| > |gets| && s.expectedSequence == sequence && s.expectedInput == expected
    ensures NeverMisplaced(maxChunk, s, Yields(sequence, expected, request, gets, resets))
    decreases |gets|
  {
    var all := Yields(sequence, expected, request, gets, resets);
    if request.AudioRequest? && request.start == expected && !resets[0] {
      var chunk := AudioChunk(sequence, request.start, request.pcm);
      AcceptedWhen(maxChunk, s, chunk);
      var after := Accept(maxChunk, s, chunk).0;
      var rest := if gets == [] then []
        else Yields(sequence + 1, expected + |request.pcm| / 2, gets[0], gets[1..], resets[1..]);
      assert all[0] == AudioMessage(chunk) && all[1..] == rest;
      hide Accept;
      if Accept(maxChunk, s, chunk).1.Ok? && gets != [] {
        YieldsInPlace(maxChunk, after, sequence + 1, expected + |request.pcm| / 2, gets[0], gets[1..], resets[1..]);
      }
    }
  }

  /** The session that a StartStream opens. */
  function OpenedBy(start: StartStream, init: StreamCaches, inputCap: nat, outputCap: nat): Session {
    Opened(start.inputStart, init, inputCap, outputCap)
  }

  /** Whatever is drained, dropped or taken from the request queue, and whenever resets come: what one generation
      sends is a StartStream that passes every check of the server, and then only chunks that are in place for the
      session which that StartStream opens. */
  lemma ClientPassesServer(init: StreamCaches, maxChunk: nat, hex: Text, items: seq<(Text, Text)>, first: Request,
                           gets: seq<Request>, resets: seq<bool>, inputCap: nat, outputCap: nat)
    requires HexDigits(hex) && first.AudioRequest? && |resets| > |gets|
    ensures Messages(hex, items, first, gets, resets).Ok?
            <==> AllEncodable(if |items| <= 16 then items else items[..16])
    ensures Messages(hex, items, first, gets, resets).Ok? ==>
              var messages := Messages(hex, items, first, gets, resets).value;
              && messages != [] && messages[0].StartMessage? && StartOk(messages[0].start)
              && messages[0].start.inputStart == first.start
              && NeverMisplaced(maxChunk, OpenedBy(messages[0].start, init, inputCap, outputCap), messages[1..])
  {
    StartAlwaysPasses(first.start, hex, items);
    hide Yields, BuildMetadata, StartOk, AllEncodable, FromItems, Replaced, ItemHeld;
    YieldsInPlace(maxChunk, Opened(first.start, init, inputCap, outputCap), 0, first.start, first, gets, resets);
  }

  // ---- Server to client ----

  /** The responses a client reads from what the server sent; an aborted call gives none for the abort itself. */
  function Responses(d: seq<ServerMessage>): seq<Response> {
    if d == [] then []
    else
      var front := Responses(d[..|d| - 1]);
      match d[|d| - 1]
      case Accepted => front + [Acceptance(true)]
      case EnhancedAudio(sequence, start, pcm, valid) => front + [AudioResponse(sequence, start, pcm, valid)]
      case StreamEnded(_, _, _) => front + [EndedResponse]
      case Aborted(_) => front
  }

  lemma {:induction false} ContinuousStarts(events: seq<OutputEvent>, at: nat, k: nat)
    requires Continuous(events, at) && k < |events|
    ensures events[k].OutputAudio? && events[k].start == at + Queued(events[..k])
    ensures 0 < events[k].valid && |events[k].pcm| == 2 * events[k].valid
  {
    if k > 0 {
      ContinuousStarts(events[1..], at + events[0].valid, k - 1);
      assert events[..k][1..] == events[1..][..k - 1];
    }
  }

  lemma {:induction false} AudioSentLength(d: seq<ServerMessage>)
    requires Transcript(d)
    ensures |AudioSent(d)| == if d == [] then 0 else if |d| == 1 || d[|d| - 1].EnhancedAudio? then |d| - 1 else |d| - 2
  {
    if d != [] {
      TranscriptFront(d);
      AudioSentLength(d[..|d| - 1]);
    }
  }

  lemma TranscriptFront(d: seq<ServerMessage>)
    requires Transcript(d) && d != []
    ensures Transcript(d[..|d| - 1])
    ensures |d| > 1 ==> d[0] == Accepted && (|d| == 2 || d[|d| - 2].EnhancedAudio?)
    ensures |d| == 1 ==> d == [Accepted]
  {
    if |d| > 2 {
      assert d[|d| - 2].EnhancedAudio?;
    }
  }

  /** What the client's checks make of a transcript: everything passes, all its audio is handed on, and the
      generation is ended exactly by StreamEnded. */
  predicate PassesAs(first: nat, d: seq<ServerMessage>, p: Progress, done: Option<Outcome>) {
    && p.accepted == (d != [])
    && p.sequence == |AudioSent(d)| == |p.handed|
    && p.expected == first + Queued(AudioSent(d))
    && (forall k | 0 <= k < |p.handed| ::
          AudioSent(d)[k].OutputAudio? && p.handed[k] == (AudioSent(d)[k].start, AudioSent(d)[k].pcm))
    && done == (if d != [] && d[|d| - 1].StreamEnded? then Some(Ended) else None)
  }

  lemma {:induction false} TranscriptPasses(first: nat, d: seq<ServerMessage>)
    requires Transcript(d) && Continuous(AudioSent(d), first)
    ensures var (p, done) := CheckAll(first, Responses(d)); PassesAs(first, d, p, done)
  {
    if d != [] {
      var front, last := d[..|d| - 1], d[|d| - 1];
      assert d == front + [last];
      TranscriptFront(d);
      SentFront(front, last, first);
      TranscriptPasses(first, front);
      hide Transcript, Continuous, AudioSent, CheckAll, PassesAs, Responses;
      LastPasses(first, front, last);
    }
  }

  lemma SentFront(front: seq<ServerMessage>, last: ServerMessage, first: nat)
    requires Continuous(AudioSent(front + [last]), first)
    ensures var sent, all := AudioSent(front), AudioSent(front + [last]);
            && Continuous(sent, first)
            && all == sent + (if last.EnhancedAudio? then [OutputAudio(last.start, last.pcm, last.valid)] else [])
            && (last.EnhancedAudio? ==>
                  && last.start == first + Queued(sent) && 0 < last.valid && |last.pcm| == 2 * last.valid
                  && Queued(all) == Queued(sent) + last.valid)
  {
    assert (front + [last])[..|front|] == front;
    var sent, all := AudioSent(front), AudioSent(front + [last]);
    if last.EnhancedAudio? {
      var e := OutputAudio(last.start, last.pcm, last.valid);
      assert all == sent + [e];
      assert all[..|sent|] == sent;
      ContinuousStarts(all, first, |sent|);
      ContinuousPrefix(all, |sent|, first);
      QueuedAppend(sent, e);
    } else {
      assert all == sent;
    }
  }

  lemma CheckNext(first: nat, before: seq<Response>, r: Response)
    ensures CheckAll(first, before + [r])
            == var (p, done) := CheckAll(first, before);
               if done.Some? then (p, done)
               else
                 match Check(p, r)
                 case Continue(p') => (p', None)
                 case Finish(outcome) => (p, Some(outcome))
  {
    assert (before + [r])[..|before|] == before;
  }

  lemma LastPasses(first: nat, front: seq<ServerMessage>, last: ServerMessage)
    requires Transcript(front + [last]) && Continuous(AudioSent(front + [last]), first)
    requires var (p, done) := CheckAll(first, Responses(front)); PassesAs(first, front, p, done)
    ensures var (p, done) := CheckAll(first, Responses(front + [last])); PassesAs(first, front + [last], p, done)
  {
    SentFront(front, last, first);
    LastSequence(front, last);
    hide Transcript, Continuous, AudioSent, CheckAll, PassesAs, Responses, Queued;
    match last {
      case Accepted => AcceptancePasses(first);
      case EnhancedAudio(_, _, _, _) => AudioPasses(first, front, last);
      case StreamEnded(_, _, _) => TerminalPasses(first, front, last);
      case Aborted(_) => TerminalPasses(first, front, last);
    }
  }

  lemma LastSequence(front: seq<ServerMessage>, last: ServerMessage)
    requires Transcript(front + [last])
    ensures last.Accepted? ==> front + [last] == [Accepted]
    ensures !last.Accepted? ==> front != [] && !front[|front| - 1].StreamEnded?
    ensures last.EnhancedAudio? ==> last.sequence == |AudioSent(front)|
  {
    var d := front + [last];
    assert d[..|front|] == front && d[|front|] == last;
    TranscriptFront(d);
    AudioSentLength(d);
    AudioSentLength(front);
  }

  lemma AcceptancePasses(first: nat)
    ensures var d := [Accepted]; var (p, done) := CheckAll(first, Responses(d)); PassesAs(first, d, p, done)
  {
    var d := [Accepted];
    assert d[..0] == [];
    assert Responses([]) == [] && AudioSent(d) == [];
    CheckNext(first, [], Acceptance(true));
    assert Responses(d) == [] + [Acceptance(true)];
  }

  lemma TerminalPasses(first: nat, front: seq<ServerMessage>, last: ServerMessage)
    requires (last.StreamEnded? || last.Aborted?) && front != [] && !front[|front| - 1].StreamEnded?
    requires AudioSent(front + [last]) == AudioSent(front) + []
    requires var (p, done) := CheckAll(first, Responses(front)); PassesAs(first, front, p, done)
    ensures var (p, done) := CheckAll(first, Responses(front + [last])); PassesAs(first, front + [last], p, done)
  {
    var d := front + [last];
    assert d[..|d| - 1] == front && AudioSent(d) == AudioSent(front);
    CheckNext(first, Responses(front), EndedResponse);
    hide Queued, CheckAll, AudioSent;
  }

  lemma AudioPasses(first: nat, front: seq<ServerMessage>, last: ServerMessage)
    requires last.EnhancedAudio? && front != [] && !front[|front| - 1].StreamEnded?
    requires last.sequence == |AudioSent(front)| && last.start == first + Queued(AudioSent(front))
    requires 0 < last.valid && |last.pcm| == 2 * last.valid
    requires var (p, done) := CheckAll(first, Responses(front)); PassesAs(first, front, p, done)
    requires Queued(AudioSent(front + [last])) == Queued(AudioSent(front)) + last.valid
    ensures var (p, done) := CheckAll(first, Responses(front + [last])); PassesAs(first, front + [last], p, done)
  {
    var d := front + [last];
    assert d[..|d| - 1] == front;
    CheckNext(first, Responses(front), AudioResponse(last.sequence, last.start, last.pcm, last.valid));
    hide Queued, CheckAll;
  }

  /** In every run of the server, what it sends to a stream passes all of the client's checks: every piece of audio is
      handed to the processor at its own offset, nothing beyond the accepted input is, and the generation is ended by
      StreamEnded or lost by an abort, never refused. */
  lemma ServerPassesClient(c: Config, labels: seq<Label>, i: nat, broken: bool, stopped: bool)
    requires RowLocal(c.net) && i < |Run(c, labels).streams|
    ensures var x := Run(c, labels).streams[i];
            var (p, done) := CheckAll(x.s.inputStart, Responses(x.h.delivered));
            && PassesAs(x.s.inputStart, x.h.delivered, p, done)
            && p.expected <= x.s.inputStart + |x.h.input|
            && AtEnd(done, broken, stopped) != Mismatch
  {
    ClientSees(c, labels, i);
    var x := Run(c, labels).streams[i];
    hide Run, Transcript, Continuous, CheckAll, AudioSent, Queued;
    TranscriptPasses(x.s.inputStart, x.h.delivered);
  }
}

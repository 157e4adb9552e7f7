/** The client side of one stream: the messages a generation sends, and its checks on what the server sends back. */
module Transport {
  import opened Wrappers
  import opened Pcm
  import opened Sessions
  import opened Service
  import opened Utf8
  import opened Handshake

  /** What the processor and the control paths put on the request queue. */
  datatype Request =
    | AudioRequest(start: nat, pcm: seq<Byte>)
    | EndRequest(flush: bool)
    | StopRequest
    | ResetRequest

  datatype ClientMessage =
    | StartMessage(start: StartStream)
    | AudioMessage(chunk: AudioChunk)
    | EndMessage(flush: bool)

  // ---- Sending ----

  /** What the iterator yields after the start.  `gets` are the requests it takes from the queue, whatever else was
      drained, dropped or taken by others in between; `resets` tells for each look at the reset flag whether it was
      set. Where `gets` ends the iterator waits. */
  function Yields(sequence: nat, expected: nat, request: Request, gets: seq<Request>,
                  resets: seq<bool>): seq<ClientMessage>
    requires |resets| > |gets|
    decreases |gets|
  {
    match request
    case AudioRequest(start, pcm) =>
      if start != expected || resets[0] then []
      else
        [AudioMessage(AudioChunk(sequence, start, pcm))]
        + (if gets == [] then [] else Yields(sequence + 1, expected + |pcm| / 2, gets[0], gets[1..], resets[1..]))
    case EndRequest(flush) => if resets[0] then [] else [EndMessage(flush)]
    case _ => []
  }

  /** One look of the iterator at a request. */
  lemma YieldsStep(sequence: nat, at: nat, request: Request, gets: seq<Request>, resets: seq<bool>)
    requires |resets| > |gets|
    ensures Yields(sequence, at, request, gets, resets)
            == if request.AudioRequest? && request.start == at && !resets[0] then
                 [AudioMessage(AudioChunk(sequence, request.start, request.pcm))]
                 + (if gets == [] then []
                    else Yields(sequence + 1, at + |request.pcm| / 2, gets[0], gets[1..], resets[1..]))
               else if request.EndRequest? && !resets[0] then [EndMessage(request.flush)]
               else []
  {
  }

  /** The same, for an iterator that has taken some of the requests already. */
  lemma YieldsNext(yielded: seq<ClientMessage>, sequence: nat, at: nat, request: Request, gets: seq<Request>,
                   resets: seq<bool>, taken: nat)
    requires taken <= |gets| < |resets|
    ensures yielded + Yields(sequence, at, request, gets[taken..], resets[taken..])
            == if request.AudioRequest? && request.start == at && !resets[taken] then
                 var next := yielded + [AudioMessage(AudioChunk(sequence, request.start, request.pcm))];
                 if taken == |gets| then next
                 else next + Yields(sequence + 1, at + |request.pcm| / 2, gets[taken], gets[taken + 1..],
                                    resets[taken + 1..])
               else if request.EndRequest? && !resets[taken] then yielded + [EndMessage(request.flush)]
               else yielded
  {
    hide *;
    YieldsStep(sequence, at, request, gets[taken..], resets[taken..]);
    if request.AudioRequest? {
      var head := AudioMessage(AudioChunk(sequence, request.start, request.pcm));
      if taken < |gets| {
        assert gets[taken..][1..] == gets[taken + 1..] && resets[taken..][1..] == resets[taken + 1..];
        Regrouped(yielded, head, Yields(sequence + 1, at + |request.pcm| / 2, gets[taken], gets[taken + 1..],
                                        resets[taken + 1..]));
      } else {
        Regrouped(yielded, head, []);
      }
    }
  }

  lemma Regrouped<T>(front: seq<T>, middle: T, tail: seq<T>)
    ensures front + ([middle] + tail) == front + [middle] + tail
  {
  }

  /** All messages of a generation, in order; None of them if the metadata cannot be encoded. */
  function Messages(hex: Text, items: seq<(Text, Text)>, first: Request, gets: seq<Request>, resets: seq<bool>)
    : Result<seq<ClientMessage>, EncodeError>
    requires first.AudioRequest? && |resets| > |gets|
  {
    match BuildMetadata(items)
    case Err(e) => Err(e)
    case Ok(metadata) =>
      Ok([StartMessage(ClientStart(first.start, hex, metadata))] + Yields(0, first.start, first, gets, resets))
  }

  /** `items` is what the metadata provider gives, and `hex` the digits of a fresh UUID. */
  method RequestIterator(hex: Text, items: seq<(Text, Text)>, first: Request, gets: seq<Request>, resets: seq<bool>)
    returns (sent: Result<seq<ClientMessage>, EncodeError>)
    requires first.AudioRequest? && |resets| > |gets|
    ensures sent == Messages(hex, items, first, gets, resets)
  {
    var metadata := BuildMetadata(items);
    if metadata.Err? {
      return Err(metadata.error);
    }
    var start := ClientStart(first.start, hex, metadata.value);
    ghost var whole := [StartMessage(start)] + Yields(0, first.start, first, gets, resets);
    hide BuildMetadata, ClientStart, Yields;
    var yielded := [StartMessage(start)];
    var sequence: nat, expected: nat := 0, first.start;
    var request := first;
    var taken := 0;
    assert gets[0..] == gets && resets[0..] == resets;
    while request.AudioRequest?
      invariant 0 <= taken <= |gets|
      invariant yielded + Yields(sequence, expected, request, gets[taken..], resets[taken..]) == whole
      decreases |gets| - taken
    {
      YieldsNext(yielded, sequence, expected, request, gets, resets, taken);
      if request.start != expected || resets[taken] {
        return Ok(yielded);
      }
      var samples := |request.pcm| / 2;
      yielded := yielded + [AudioMessage(AudioChunk(sequence, request.start, request.pcm))];
      sequence := sequence + 1;
      expected := expected + samples;
      if taken == |gets| {
        return Ok(yielded);
      }
      request := gets[taken];
      taken := taken + 1;
    }
    YieldsNext(yielded, sequence, expected, request, gets, resets, taken);
    if request.EndRequest? && !resets[taken] {
      yielded := yielded + [EndMessage(request.flush)];
    }
    return Ok(yielded);
  }

  /** The requests are audio, each starting where the one before it ends, and no reset is seen on the way. */
  predicate Continues(requests: seq<Request>, resets: seq<bool>, at: nat)
    requires |resets| >= |requests|
    decreases |requests|
  {
    requests != [] ==>
      && requests[0].AudioRequest? && requests[0].start == at && !resets[0]
      && Continues(requests[1..], resets[1..], at + |requests[0].pcm| / 2)
  }

  /** The chunks that such requests become. */
  function Chunks(requests: seq<Request>, sequence: nat): seq<ClientMessage>
    requires forall k | 0 <= k < |requests| :: requests[k].AudioRequest?
  {
    seq(|requests|, k requires 0 <= k < |requests| =>
      AudioMessage(AudioChunk(sequence + k, requests[k].start, requests[k].pcm)))
  }

  lemma {:induction false} ContinuesAudio(requests: seq<Request>, resets: seq<bool>, at: nat)
    requires |resets| >= |requests| && Continues(requests, resets, at)
    ensures forall k | 0 <= k < |requests| :: requests[k].AudioRequest?
    decreases |requests|
  {
    if requests != [] {
      ContinuesAudio(requests[1..], resets[1..], at + |requests[0].pcm| / 2);
    }
  }

  /** Where the offset stands after the requests. */
  function OffsetAfter(requests: seq<Request>, at: nat): nat {
    if requests == [] then at
    else OffsetAfter(requests[1..], at + (if requests[0].AudioRequest? then |requests[0].pcm| / 2 else 0))
  }

  /** The iterator goes no further than request r: it is no audio, or not the next audio, or a reset is seen. */
  predicate Halts(r: Request, at: nat, reset: bool) {
    !r.AudioRequest? || r.start != at || reset
  }

  /** What follows the chunks: the end if the next request is one and no reset is seen, and otherwise nothing. */
  function EndAt(rest: seq<Request>, reset: bool): seq<ClientMessage> {
    if rest != [] && rest[0].EndRequest? && !reset then [EndMessage(rest[0].flush)] else []
  }

  /** What the iterator yields for a list of requests, with the first one in its hand. */
  function YieldsFor(sequence: nat, at: nat, requests: seq<Request>, resets: seq<bool>): seq<ClientMessage>
    requires |resets| >= |requests|
  {
    if requests == [] then [] else Yields(sequence, at, requests[0], requests[1..], resets)
  }

  lemma YieldsForRun(sequence: nat, at: nat, request: Request, requests: seq<Request>, resets: seq<bool>)
    requires |resets| > |requests| && request.AudioRequest? && request.start == at && !resets[0]
    ensures YieldsFor(sequence, at, [request] + requests, resets)
            == [AudioMessage(AudioChunk(sequence, request.start, request.pcm))]
               + YieldsFor(sequence + 1, at + |request.pcm| / 2, requests, resets[1..])
  {
    assert ([request] + requests)[1..] == requests;
  }

  lemma YieldsForHalted(sequence: nat, at: nat, rest: seq<Request>, resets: seq<bool>)
    requires |resets| >= |rest| && (rest != [] ==> Halts(rest[0], OffsetAfter([], at), resets[0]))
    ensures YieldsFor(sequence, at, [] + rest, resets) == EndAt(rest, rest != [] && resets[0])
    ensures Chunks([], sequence) == [] && OffsetAfter([], at) == at
  {
    assert [] + rest == rest;
  }

  /** What a generation sends after its start, exactly: the requests that continue one another become chunks numbered
      0, 1, 2, ... with their own offsets and bytes; if the request after them is an end and no reset is seen, the end
      follows with the same flush, and nothing else is sent. */
  lemma {:induction false} YieldsExactly(sequence: nat, at: nat, run: seq<Request>, rest: seq<Request>,
                                         resets: seq<bool>)
    requires |resets| >= |run| + |rest|
    requires Continues(run, resets, at) && (rest != [] ==> Halts(rest[0], OffsetAfter(run, at), resets[|run|]))
    ensures forall k | 0 <= k < |run| :: run[k].AudioRequest?
    ensures YieldsFor(sequence, at, run + rest, resets)
            == Chunks(run, sequence) + EndAt(rest, rest != [] && resets[|run|])
    decreases |run|
  {
    hide *;
    ContinuesAudio(run, resets, at);
    if run == [] {
      YieldsForHalted(sequence, at, rest, resets);
    } else {
      var request, more := run[0], run[1..];
      assert run == [request] + more;
      ContinuesStep(request, more, resets, at);
      ChunksStep(request, more, sequence);
      YieldsExactly(sequence + 1, at + |request.pcm| / 2, more, rest, resets[1..]);
      YieldsForRun(sequence, at, request, more + rest, resets);
      Regroup(request, more, rest);
      Regroup(AudioMessage(AudioChunk(sequence, request.start, request.pcm)), Chunks(more, sequence + 1),
              EndAt(rest, rest != [] && resets[|run|]));
    }
  }

  lemma Regroup<T>(head: T, middle: seq<T>, tail: seq<T>)
    ensures [head] + (middle + tail) == [head] + middle + tail
  {
  }

  lemma ContinuesStep(request: Request, rest: seq<Request>, resets: seq<bool>, at: nat)
    requires |resets| > |rest| && Continues([request] + rest, resets, at)
    ensures request.AudioRequest? && request.start == at && !resets[0]
    ensures Continues(rest, resets[1..], at + |request.pcm| / 2)
    ensures OffsetAfter([request] + rest, at) == OffsetAfter(rest, at + |request.pcm| / 2)
  {
    assert ([request] + rest)[1..] == rest;
  }

  lemma ChunksStep(request: Request, rest: seq<Request>, sequence: nat)
    requires request.AudioRequest? && forall k | 0 <= k < |rest| :: rest[k].AudioRequest?
    ensures forall k | 0 <= k < |[request] + rest| :: ([request] + rest)[k].AudioRequest?
    ensures Chunks([request] + rest, sequence)
            == [AudioMessage(AudioChunk(sequence, request.start, request.pcm))] + Chunks(rest, sequence + 1)
  {
  }

  // ---- Receiving ----

  /** A response; `matches` tells whether an acceptance carries the capabilities the client insists on. */
  datatype Response =
    | Acceptance(matches: bool)
    | AudioResponse(sequence: nat, start: int, pcm: seq<Byte>, valid: nat)
    | EndedResponse
    | EmptyResponse

  /** How a generation ends: StreamEnded came, a check failed, the transport broke, or it was stopped. */
  datatype Outcome = Ended | Mismatch | Lost | Stopped

  /** `handed` is the audio passed on to the processor so far. */
  datatype Progress = Progress(accepted: bool, sequence: nat, expected: nat, handed: seq<(int, seq<Byte>)>)

  datatype Verdict = Continue(next: Progress) | Finish(outcome: Outcome)

  function Check(p: Progress, r: Response): Verdict {
    if !p.accepted then
      if r.Acceptance? && r.matches then Continue(p.(accepted := true)) else Finish(Mismatch)
    else
      match r
      case AudioResponse(sequence, start, pcm, valid) =>
        if sequence != p.sequence || start != p.expected || valid == 0 || |pcm| != valid * 2 then Finish(Mismatch)
        else Continue(Progress(true, p.sequence + 1, p.expected + valid, p.handed + [(start, pcm)]))
      case EndedResponse => Finish(Ended)
      case _ => Finish(Mismatch)
  }

  /** All responses of a call, one after another; None as long as no response has ended the generation. */
  function CheckAll(first: nat, responses: seq<Response>): (Progress, Option<Outcome>) {
    if responses == [] then (Progress(false, 0, first, []), None)
    else
      var (p, done) := CheckAll(first, responses[..|responses| - 1]);
      if done.Some? then (p, done)
      else
        match Check(p, responses[|responses| - 1])
        case Continue(p') => (p', None)
        case Finish(outcome) => (p, Some(outcome))
  }

  /** What a call that ends without StreamEnded amounts to: `broken` for a transport error, `stopped` for a closed
      client. */
  function AtEnd(done: Option<Outcome>, broken: bool, stopped: bool): Outcome {
    if done.Some? then done.value else if broken || !stopped then Lost else Stopped
  }

  method RunGeneration(first: nat, responses: seq<Response>, broken: bool, stopped: bool)
    returns (handed: seq<(int, seq<Byte>)>, outcome: Outcome)
    ensures handed == CheckAll(first, responses).0.handed
    ensures outcome == AtEnd(CheckAll(first, responses).1, broken, stopped)
  {
    var accepted, sequence: nat, expected: nat := false, 0, first;
    handed := [];
    for k := 0 to |responses|
      invariant CheckAll(first, responses[..k]) == (Progress(accepted, sequence, expected, handed), None)
    {
      var response := responses[k];
      assert responses[..k + 1][..k] == responses[..k];
      DoneStays(first, responses, k + 1);
      if !accepted {
        if !response.Acceptance? {
          return handed, Mismatch;
        }
        if !response.matches {
          return handed, Mismatch;
        }
        accepted := true;
        continue;
      }
      if response.AudioResponse? {
        if response.sequence != sequence {
          return handed, Mismatch;
        }
        if response.start != expected {
          return handed, Mismatch;
        }
        if response.valid == 0 || |response.pcm| != response.valid * 2 {
          return handed, Mismatch;
        }
        handed := handed + [(response.start, response.pcm)];
        sequence := sequence + 1;
        expected := expected + response.valid;
        continue;
      }
      if response.EndedResponse? {
        return handed, Ended;
      }
      return handed, Mismatch;
    }
    assert responses[..|responses|] == responses;
    if broken || !stopped {
      return handed, Lost;
    }
    return handed, Stopped;
  }

  lemma {:induction false} DoneStays(first: nat, responses: seq<Response>, n: nat)
    requires n <= |responses|
    ensures CheckAll(first, responses[..n]).1.Some? ==> CheckAll(first, responses) == CheckAll(first, responses[..n])
    decreases |responses|
  {
    if n == |responses| {
      assert responses[..n] == responses;
    } else {
      var front := responses[..|responses| - 1];
      DoneStays(first, front, n);
      assert front[..n] == responses[..n];
    }
  }

  /** Audio responses numbered 0, 1, 2, ..., each starting where the one before it ends, with at least one sample
      and two bytes for each. */
  predicate Follows(first: nat, run: seq<Response>) {
    if run == [] then true
    else
      var front, last := run[..|run| - 1], run[|run| - 1];
      && Follows(first, front)
      && last.AudioResponse? && last.sequence == |front| && last.start == first + ValidIn(front)
      && 0 < last.valid && |last.pcm| == 2 * last.valid
  }

  function ValidIn(run: seq<Response>): nat {
    if run == [] then 0
    else ValidIn(run[..|run| - 1]) + (if run[|run| - 1].AudioResponse? then run[|run| - 1].valid else 0)
  }

  function AudioIn(run: seq<Response>): seq<(int, seq<Byte>)> {
    if run == [] then []
    else
      var last := run[|run| - 1];
      AudioIn(run[..|run| - 1]) + (if last.AudioResponse? then [(last.start, last.pcm)] else [])
  }

  lemma {:induction false} FollowingPasses(first: nat, run: seq<Response>)
    requires Follows(first, run)
    ensures CheckAll(first, [Acceptance(true)] + run)
            == (Progress(true, |run|, first + ValidIn(run), AudioIn(run)), None)
  {
    var all := [Acceptance(true)] + run;
    if run == [] {
      assert all == [Acceptance(true)] && all[..0] == [];
      assert CheckAll(first, all[..0]) == (Progress(false, 0, first, []), None);
    } else {
      FollowingPasses(first, run[..|run| - 1]);
      assert all[..|all| - 1] == [Acceptance(true)] + run[..|run| - 1];
    }
  }

  /** What the client makes of any responses after the acceptance, exactly: those that follow one another are
      handed over, and the first that does not ends the generation, well if it is the end and with a mismatch if it
      is anything else; what comes after it does not matter. If there is none, the generation is lost, or stopped
      if the call ended well after the client was closed. */
  lemma ChecksExactly(first: nat, run: seq<Response>, rest: seq<Response>)
    requires Follows(first, run) && (rest != [] ==> !Follows(first, run + [rest[0]]))
    ensures CheckAll(first, [Acceptance(true)] + run + rest)
            == (Progress(true, |run|, first + ValidIn(run), AudioIn(run)),
                if rest == [] then None else if rest[0].EndedResponse? then Some(Ended) else Some(Mismatch))
    ensures forall broken, stopped ::
              AtEnd(CheckAll(first, [Acceptance(true)] + run + rest).1, broken, stopped)
              == if rest == [] then (if stopped && !broken then Stopped else Lost)
                 else if rest[0].EndedResponse? then Ended
                 else Mismatch
  {
    var passed := [Acceptance(true)] + run;
    FollowingPasses(first, run);
    if rest == [] {
      assert passed + rest == passed;
    } else {
      var all := passed + rest;
      assert all[..|passed| + 1][..|passed|] == passed && all[..|passed| + 1][|passed|] == rest[0];
      assert (run + [rest[0]])[..|run|] == run;
      DoneStays(first, all, |passed| + 1);
    }
  }

  /** Anything but a matching acceptance at the beginning is a mismatch, and nothing is handed over. */
  lemma UnacceptedIsMismatch(first: nat, responses: seq<Response>)
    requires responses != [] && responses[0] != Acceptance(true)
    ensures CheckAll(first, responses) == (Progress(false, 0, first, []), Some(Mismatch))
  {
    assert responses[..1][..0] == [];
    DoneStays(first, responses, 1);
  }
}

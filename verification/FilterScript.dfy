/**
 What a filter does to one request, and what becomes of the request: the outcome of
 handle_request (src/main.cpp:723-884) in terms of the host calls that the filter makes in
 each of its callbacks and of what the reads of the body return.
 */
module FilterScript {
  import opened Common
  import opened HttpText
  import opened Streaming

  /** A response given by sendLocalResponse. */
  datatype Local = Local(code: nat, headers: seq<Header>, body: string)

  /** A host call that matters to the response. */
  datatype HostCall =
    | SendLocal(local: Local)
    | Stream(call: Call)
    | PutHeaders(headers: seq<Header>)  // any change of the response header map

  /** The host calls of each callback in turn; none in any behind the last. */
  type Script = seq<seq<HostCall>>

  function Made(script: Script, k: nat): seq<HostCall> {
    if k < |script| then script[k] else []
  }

  // ----- One callback -----

  /** The local response that stands at the end of a callback: the last one sent. */
  function LocalIn(calls: seq<HostCall>): Option<Local> {
    if calls == [] then None
    else if calls[|calls| - 1].SendLocal? then Some(calls[|calls| - 1].local)
    else LocalIn(calls[..|calls| - 1])
  }

  function StreamsIn(calls: seq<HostCall>): seq<Call> {
    if calls == [] then []
    else
      var last := calls[|calls| - 1];
      StreamsIn(calls[..|calls| - 1]) + if last.Stream? then [last.call] else []
  }

  function PutIn(calls: seq<HostCall>, before: seq<Header>): seq<Header> {
    if calls == [] then before
    else if calls[|calls| - 1].PutHeaders? then calls[|calls| - 1].headers
    else PutIn(calls[..|calls| - 1], before)
  }

  // ----- All callbacks -----

  /** The streaming calls of the first n callbacks. */
  function StreamCalls(script: Script, n: nat): seq<Call> {
    if n == 0 then [] else StreamCalls(script, n - 1) + StreamsIn(Made(script, n - 1))
  }

  /** The first of the first n callbacks that sends a local response. */
  function FirstLocal(script: Script, n: nat): (r: Option<nat>)
    ensures r.Some? ==> r.value < n && LocalIn(Made(script, r.value)).Some?
    ensures forall j :: 0 <= j < (if r.Some? then r.value else n) ==> LocalIn(Made(script, j)).None?
  {
    if n == 0 then None
    else match FirstLocal(script, n - 1)
      case Some(k) => Some(k)
      case None => if LocalIn(Made(script, n - 1)).Some? then Some(n - 1) else None
  }

  /** The response headers after n callbacks from number `from` on. */
  function HeadersAfter(script: Script, from: nat, n: nat, before: seq<Header>): seq<Header> {
    if n == 0 then before else PutIn(Made(script, from + n - 1), HeadersAfter(script, from, n - 1, before))
  }

  // ----- The request body -----

  /** What readBodyChunk may return; no more than was asked for is data. */
  datatype ReadResult = Data(data: string) | Error | Truncated

  /** The data of the k-th read, if there is any. */
  function Chunk(results: seq<ReadResult>, k: nat, want: nat): (r: Option<string>)
    requires want > 0
    ensures r.Some? ==> 0 < |r.value| <= want
  {
    if k < |results| && results[k].Data? && results[k].data != ""
    then Some(if |results[k].data| > want then results[k].data[..want] else results[k].data)
    else None
  }

  function Wanted(contentLength: nat, consumed: nat): (want: nat)
    requires consumed < contentLength
    ensures want > 0
  {
    Min(contentLength - consumed, BODY_CHUNK_SIZE)
  }

  /** How many more chunks the reads from number k on give, and whether they complete the body. */
  function ChunksFrom(contentLength: nat, consumed: nat, results: seq<ReadResult>, k: nat): (nat, bool)
    decreases if contentLength > consumed then contentLength - consumed else 0
  {
    if consumed >= contentLength then (0, true)
    else match Chunk(results, k, Wanted(contentLength, consumed))
      case None => (0, false)
      case Some(data) =>
        var (more, complete) := ChunksFrom(contentLength, consumed + |data|, results, k + 1);
        (more + 1, complete)
  }

  /** How many onRequestBody callbacks the body is good for, and whether it is complete with them. */
  function BodyPlan(contentLength: nat, prefix: string, results: seq<ReadResult>): (nat, bool) {
    if contentLength == 0 then (0, true)
    else
      var (more, complete) := ChunksFrom(contentLength, |prefix|, results, 0);
      (more + if prefix == "" then 0 else 1, complete)
  }

  // ----- The outcome -----

  /** How a request is answered, and the streaming calls made until then. */
  datatype Outcome =
    | Failed(calls: seq<Call>)  // setError
    | LocalReply(local: Local, calls: seq<Call>)
    | Streamed(calls: seq<Call>)
    | Plain(headers: seq<Header>, body: string)

  const PLAIN_TEXT := Header("Content-Type", "text/plain")
  const CLOSING := Header("Connection", "close")

  function StreamOf(calls: seq<Call>): Trace {
    FollowAll(BEGIN, calls)
  }

  /** A response that the filter has begun to stream is done, or an error. */
  function Ended(calls: seq<Call>): Outcome {
    if StreamOf(calls).s.state == Finished then Streamed(calls) else Failed(calls)
  }

  /**
   The callbacks of the request phase, as many as there can be: request headers, the chunks
   of the body, and, if it is complete, trailers.
   */
  function RequestPhase(contentLength: nat, prefix: string, results: seq<ReadResult>): nat {
    var (chunks, complete) := BodyPlan(contentLength, prefix, results);
    1 + chunks + if complete then 1 else 0
  }

  /**
   The first local response is the answer if it comes in the request phase, or later while
   nothing is streamed.  Without one, a stream must be finished by the end of its phase.  A
   body that cannot be read ends everything that has not been answered before.
   */
  function Result(script: Script, contentLength: nat, prefix: string, results: seq<ReadResult>,
                  responseBody: string): Outcome
  {
    var n := RequestPhase(contentLength, prefix, results);
    var calls := StreamCalls(script, n);
    if FirstLocal(script, n).Some? then Replied(script, FirstLocal(script, n).value)
    else if !BodyPlan(contentLength, prefix, results).1 then Failed(calls)
    else if StreamOf(calls).s.state != Idle then Ended(calls)
    else ResponsePhase(script, n, responseBody)
  }

  /** The local response of callback k. */
  function Replied(script: Script, k: nat): Outcome
    requires LocalIn(Made(script, k)).Some?
  {
    LocalReply(LocalIn(Made(script, k)).value, StreamCalls(script, k + 1))
  }

  /** The three callbacks of the response phase, from number n on. */
  function ResponsePhase(script: Script, n: nat, responseBody: string): Outcome {
    match FirstLocal(script, n + 3)
    case Some(k) =>
      if StreamOf(StreamCalls(script, k + 1)).s.state != Idle then Failed(StreamCalls(script, k + 1))
      else Replied(script, k)
    case None =>
      var calls := StreamCalls(script, n + 3);
      if StreamOf(calls).s.state != Idle then Ended(calls)
      else Plain(HeadersAfter(script, n, 3, [PLAIN_TEXT, CLOSING]), responseBody)
  }

  /** A local response combined with a streamed one that had been started. */
  predicate Mixed(o: Outcome) {
    o.LocalReply? && StreamOf(o.calls).s.state != Idle
  }

  /** A stream and a local response are mixed exactly if the filter does so in the request phase. */
  lemma MixedIff(script: Script, contentLength: nat, prefix: string, results: seq<ReadResult>, responseBody: string)
    ensures Mixed(Result(script, contentLength, prefix, results, responseBody)) <==>
            var first := FirstLocal(script, RequestPhase(contentLength, prefix, results));
            first.Some? && StreamOf(StreamCalls(script, first.value + 1)).s.state != Idle
  {
    hide FollowAll, StreamCalls, BodyPlan, FirstLocal, LocalIn, HeadersAfter;
  }
}

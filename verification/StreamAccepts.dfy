/**
 Which streaming calls of a filter are accepted, told from their places in the sequence of its
 calls alone, and what a client reads of an ordinary stream.
 */
module StreamAccepts {
  import opened Common
  import opened HttpText
  import opened Streaming
  import HeaderName

  /** Every transfer coding that is asked for is chunked. */
  predicate OnlyChunked(headers: seq<Header>) {
    forall k :: 0 <= k < |headers| && HeaderName.NameEq(headers[k].name, "Transfer-Encoding") ==>
      HeaderName.NameEq(headers[k].value, "chunked")
  }

  /** A call that can begin a stream. */
  predicate Begins(call: Call) {
    call.SendHeaders? && OnlyChunked(call.headers)
  }

  /** One of the first n calls begins a stream. */
  predicate Begun(calls: seq<Call>, n: nat)
    requires n <= |calls|
  {
    exists b :: 0 <= b < n && Begins(calls[b])
  }

  /** One of the first n calls sends headers that cannot begin a stream, before any that can. */
  predicate Spoiled(calls: seq<Call>, n: nat)
    requires n <= |calls|
  {
    exists k :: 0 <= k < n && calls[k].SendHeaders? && !Begins(calls[k]) && !Begun(calls, k)
  }

  /** A stream that is not spoiled has been finished by one of the first n calls. */
  predicate Over(calls: seq<Call>, n: nat)
    requires n <= |calls|
  {
    !Spoiled(calls, n) && exists k :: 0 <= k < n && calls[k].Finish? && Begun(calls, k)
  }

  /** What the filter is told of call k. */
  function Told(calls: seq<Call>, k: nat): WasmResult
    requires k < |calls|
  {
    match calls[k]
    case SendHeaders(_, headers) =>
      if Begun(calls, k) then BadArgument else if OnlyChunked(headers) then Ok else InternalFailure
    case WriteChunk(data) =>
      if !Begun(calls, k) || Over(calls, k) then BadArgument
      else if data != "" && Spoiled(calls, k) then InternalFailure else Ok
    case Finish =>
      if !Begun(calls, k) || Over(calls, k) then BadArgument
      else if Spoiled(calls, k) then InternalFailure else Ok
  }

  /** The state after n calls, told from their places. */
  predicate InPlace(calls: seq<Call>, n: nat, s: S)
    requires n <= |calls|
  {
    && (s.state == Idle <==> !Begun(calls, n))
    && (s.state == Finished <==> Over(calls, n))
    && (s.error <==> Spoiled(calls, n))
    && (s.state != Idle ==> s.streaming)
  }

  lemma ConflictsIff(headers: seq<Header>)
    ensures Conflicts(headers) <==> !OnlyChunked(headers)
  {
    hide HeaderName.NameEq;
  }

  /** One more call. */
  lemma OneMore(calls: seq<Call>, n: nat)
    requires n < |calls|
    ensures Begun(calls, n + 1) <==> Begun(calls, n) || Begins(calls[n])
    ensures Spoiled(calls, n + 1) <==>
            Spoiled(calls, n) || (calls[n].SendHeaders? && !Begins(calls[n]) && !Begun(calls, n))
    ensures (exists k :: 0 <= k < n + 1 && calls[k].Finish? && Begun(calls, k)) <==>
            (exists k :: 0 <= k < n && calls[k].Finish? && Begun(calls, k)) || (calls[n].Finish? && Begun(calls, n))
  {
    hide Begins;
  }

  lemma {:induction false} AlwaysInPlace(calls: seq<Call>, n: nat)
    requires n <= |calls|
    ensures InPlace(calls, n, FollowAll(BEGIN, calls[..n]).s)
  {
    if n > 0 {
      AlwaysInPlace(calls, n - 1);
      assert calls[..n][..n - 1] == calls[..n - 1];
      OneMore(calls, n - 1);
      if calls[n - 1].SendHeaders? {
        ConflictsIff(calls[n - 1].headers);
      }
      hide Begun, Spoiled, OnlyChunked, Conflicts, Normalized, Head;
    }
  }

  /** Every call of every sequence is answered as its place says; a call out of place changes nothing. */
  lemma TheirPlacesTell(calls: seq<Call>, k: nat)
    requires k < |calls|
    ensures var s := FollowAll(BEGIN, calls[..k]).s;
      && Step(s, calls[k]).1 == Told(calls, k)
      && (Told(calls, k) == BadArgument ==> Step(s, calls[k]).0 == s)
  {
    AlwaysInPlace(calls, k);
    if calls[k].SendHeaders? {
      ConflictsIff(calls[k].headers);
    }
    hide FollowAll, Begun, Spoiled, Over, OnlyChunked, Conflicts, Normalized, Head;
  }

  // ----- What is accepted -----

  /** The data of the chunks among these calls. */
  function ChunkData(calls: seq<Call>): seq<string> {
    if calls == [] then []
    else
      var last := calls[|calls| - 1];
      ChunkData(calls[..|calls| - 1]) + if last.WriteChunk? && last.data != "" then [last.data] else []
  }

  /** Call b begins the stream, and none has tried to before; none finishes it before call e. */
  predicate StreamsFrom(calls: seq<Call>, b: nat, e: nat) {
    && b < e <= |calls| && Begins(calls[b])
    && (forall k :: 0 <= k < b ==> !calls[k].SendHeaders?)
    && (forall k :: b < k < e ==> !calls[k].Finish?)
  }

  lemma {:induction false} NothingBegun(calls: seq<Call>)
    requires forall k :: 0 <= k < |calls| ==> !calls[k].SendHeaders?
    ensures FollowAll(BEGIN, calls) == BEGIN
  {
    if calls != [] {
      NothingBegun(calls[..|calls| - 1]);
    }
  }

  lemma FollowBegin(call: Call)
    requires Begins(call)
    ensures var t := Follow(BEGIN, call);
      && t.s.state == HeadersSent && t.s.streaming && !t.s.error
      && t.head == [(call.status, call.headers)] && t.data == []
  {
    ConflictsIff(call.headers);
    hide OnlyChunked, Conflicts, Normalized, Head;
  }

  lemma FollowOther(t: Trace, call: Call)
    requires t.s.state == HeadersSent && t.s.streaming && !t.s.error && !call.Finish?
    ensures var t' := Follow(t, call);
      && t'.s.state == HeadersSent && t'.s.streaming && !t'.s.error && t'.head == t.head
      && t'.data == t.data + if call.WriteChunk? && call.data != "" then [call.data] else []
  {
    hide Conflicts, Normalized, Head, Frame;
    assert t.data + [] == t.data;
  }

  lemma FollowFinished(t: Trace, call: Call)
    requires t.s.state == Finished
    ensures Follow(t, call) == t
  {
    hide Conflicts, Normalized, Head, Frame;
  }

  /** The stream has the headers of the call that begins it, and the data of all the chunks behind that one. */
  lemma {:induction false} AllIsAccepted(calls: seq<Call>, b: nat, e: nat)
    requires StreamsFrom(calls, b, e)
    ensures var t := FollowAll(BEGIN, calls[..e]);
      && t.s.state == HeadersSent && t.s.streaming && !t.s.error
      && t.head == [(calls[b].status, calls[b].headers)] && t.data == ChunkData(calls[b + 1..e])
  {
    assert calls[..e][..e - 1] == calls[..e - 1];
    if e == b + 1 {
      NothingBegun(calls[..b]);
      FollowBegin(calls[b]);
      hide Follow;
    } else {
      AllIsAccepted(calls, b, e - 1);
      assert calls[b + 1..e][..e - b - 2] == calls[b + 1..e - 1];
      FollowOther(FollowAll(BEGIN, calls[..e - 1]), calls[e - 1]);
      hide Follow;
    }
  }

  /** Nothing can be added to a stream that is finished. */
  lemma {:induction false} FinishedIsFinal(calls: seq<Call>, n: nat)
    requires n <= |calls| && FollowAll(BEGIN, calls[..n]).s.state == Finished
    ensures FollowAll(BEGIN, calls) == FollowAll(BEGIN, calls[..n])
    decreases |calls|
  {
    if n == |calls| {
      assert calls[..n] == calls;
    } else {
      var m := |calls| - 1;
      assert calls[..m][..n] == calls[..n];
      FinishedIsFinal(calls[..m], n);
      FollowFinished(FollowAll(BEGIN, calls[..m]), calls[m]);
      hide Follow;
    }
  }

  function ChunkCalls(chunks: seq<string>): seq<Call> {
    seq(|chunks|, k requires 0 <= k < |chunks| => WriteChunk(chunks[k]))
  }

  /** Headers, chunks, and the end, and then anything. */
  function WholeStream(status: nat, headers: seq<Header>, chunks: seq<string>, more: seq<Call>): seq<Call> {
    [SendHeaders(status, headers)] + ChunkCalls(chunks) + [Finish] + more
  }

  lemma {:induction false} ChunksMakeTheBody(chunks: seq<string>)
    ensures Concat(ChunkData(ChunkCalls(chunks))) == Concat(chunks)
  {
    if chunks != [] {
      var n := |chunks| - 1;
      ChunksMakeTheBody(chunks[..n]);
      assert ChunkCalls(chunks)[..n] == ChunkCalls(chunks[..n]);
      var before := ChunkData(ChunkCalls(chunks[..n]));
      assert (before + [chunks[n]])[..|before|] == before;
      assert Concat(before) + "" == Concat(before) && before + [] == before;
    }
  }

  /** Such a stream is finished, with these headers and with the chunks that are not empty, whatever comes behind. */
  lemma StreamIsAccepted(status: nat, headers: seq<Header>, chunks: seq<string>, more: seq<Call>)
    requires OnlyChunked(headers)
    ensures var t := FollowAll(BEGIN, WholeStream(status, headers, chunks, more));
      && t.s.state == Finished && t.head == [(status, headers)] && t.data == ChunkData(ChunkCalls(chunks))
  {
    var calls := WholeStream(status, headers, chunks, more);
    var e := |chunks| + 1;
    hide OnlyChunked;
    assert calls[1..e] == ChunkCalls(chunks);
    AllIsAccepted(calls, 0, e);
    assert calls[e] == Finish && calls[..e + 1][..e] == calls[..e];
    hide WholeStream, ChunkCalls, ChunkData, StreamsFrom;
    assert FollowAll(BEGIN, calls[..e + 1]) == Follow(FollowAll(BEGIN, calls[..e]), Finish);
    FinishedIsFinal(calls, e + 1);
  }

  /** And its client reads exactly these headers, normalised, and all of the data. */
  lemma StreamIsRead(request: Request, status: nat, headers: seq<Header>, chunks: seq<string>, more: seq<Call>)
    requires OnlyChunked(headers) && Streamable(request, status, headers)
    ensures ReadResponse(request, FollowAll(BEGIN, WholeStream(status, headers, chunks, more)).s.wire)
            == Some(Response(StatusLine(status), Normalized(headers), Concat(chunks)))
  {
    StreamIsAccepted(status, headers, chunks, more);
    ChunksMakeTheBody(chunks);
    hide OnlyChunked, Streamable, WholeStream, FollowAll, ReadResponse, StatusLine, Normalized;
    FinishedIsOneResponse(request, WholeStream(status, headers, chunks, more));
  }
}

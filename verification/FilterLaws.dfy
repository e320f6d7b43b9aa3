/** What becomes of a request, told from the places of the host calls in the script of its filter. */
module FilterLaws {
  import opened Common
  import opened HttpText
  import opened Streaming
  import opened StreamAccepts
  import opened FilterScript

  // ----- One callback -----

  lemma {:induction false} LastPutCounts(calls: seq<HostCall>, j: nat, before: seq<Header>)
    requires j < |calls| && calls[j].PutHeaders? && forall i :: j < i < |calls| ==> !calls[i].PutHeaders?
    ensures PutIn(calls, before) == calls[j].headers
  {
    if j < |calls| - 1 {
      LastPutCounts(calls[..|calls| - 1], j, before);
    }
  }

  lemma {:induction false} WithoutPuts(calls: seq<HostCall>, before: seq<Header>)
    requires forall i :: 0 <= i < |calls| ==> !calls[i].PutHeaders?
    ensures PutIn(calls, before) == before
  {
    if calls != [] {
      WithoutPuts(calls[..|calls| - 1], before);
    }
  }

  lemma {:induction false} LastLocalCounts(calls: seq<HostCall>, j: nat)
    requires j < |calls| && calls[j].SendLocal? && forall i :: j < i < |calls| ==> !calls[i].SendLocal?
    ensures LocalIn(calls) == Some(calls[j].local)
  {
    if j < |calls| - 1 {
      LastLocalCounts(calls[..|calls| - 1], j);
    }
  }

  lemma {:induction false} WithoutLocals(calls: seq<HostCall>)
    requires forall i :: 0 <= i < |calls| ==> !calls[i].SendLocal?
    ensures LocalIn(calls) == None
  {
    if calls != [] {
      WithoutLocals(calls[..|calls| - 1]);
    }
  }

  lemma {:induction false} WithoutStreams(calls: seq<HostCall>)
    requires forall i :: 0 <= i < |calls| ==> !calls[i].Stream?
    ensures StreamsIn(calls) == []
  {
    if calls != [] {
      WithoutStreams(calls[..|calls| - 1]);
    }
  }

  /** A filter that streams these calls in one callback. */
  function StreamingOf(calls: seq<Call>): seq<HostCall> {
    seq(|calls|, k requires 0 <= k < |calls| => HostCall.Stream(calls[k]))
  }

  lemma {:induction false} AllAreStreamed(calls: seq<Call>)
    ensures StreamsIn(StreamingOf(calls)) == calls
  {
    if calls != [] {
      var n := |calls| - 1;
      AllAreStreamed(calls[..n]);
      assert StreamingOf(calls)[..n] == StreamingOf(calls[..n]);
    }
  }

  /** What the other host calls are, and where, does not matter to the stream. */
  lemma {:induction false} OthersDoNotStream(before: seq<HostCall>, c: HostCall, behind: seq<HostCall>)
    requires !c.Stream?
    ensures StreamsIn(before + [c] + behind) == StreamsIn(before + behind)
  {
    if behind == [] {
      assert (before + [c] + behind)[..|before|] == before && before + behind == before;
      assert StreamsIn(before) + [] == StreamsIn(before);
    } else {
      var n := |behind| - 1;
      OthersDoNotStream(before, c, behind[..n]);
      assert (before + [c] + behind)[..|before| + 1 + n] == before + [c] + behind[..n];
      assert (before + behind)[..|before| + n] == before + behind[..n];
    }
  }

  // ----- The callbacks of a request -----

  /** Callback k of the script makes no such call. */
  predicate NoLocal(script: Script, k: nat) {
    forall j :: 0 <= j < |Made(script, k)| ==> !Made(script, k)[j].SendLocal?
  }

  predicate NoStream(script: Script, k: nat) {
    forall j :: 0 <= j < |Made(script, k)| ==> !Made(script, k)[j].Stream?
  }

  predicate NoPut(script: Script, k: nat) {
    forall j :: 0 <= j < |Made(script, k)| ==> !Made(script, k)[j].PutHeaders?
  }

  /** None of the first n callbacks sends a local response. */
  predicate NoLocals(script: Script, n: nat) {
    forall k :: 0 <= k < n ==> NoLocal(script, k)
  }

  predicate NoStreams(script: Script, n: nat) {
    forall k :: 0 <= k < n ==> NoStream(script, k)
  }

  lemma Fewer(script: Script, m: nat, n: nat)
    requires m <= n
    ensures NoLocals(script, n) ==> NoLocals(script, m)
    ensures NoStreams(script, n) ==> NoStreams(script, m)
  {
    hide NoLocal, NoStream;
  }

  lemma {:induction false} NoneIsFirst(script: Script, n: nat)
    requires NoLocals(script, n)
    ensures FirstLocal(script, n) == None
  {
    if n > 0 {
      assert NoLocal(script, n - 1);
      NoneIsFirst(script, n - 1);
      WithoutLocals(Made(script, n - 1));
    }
  }

  lemma {:induction false} NothingStreamed(script: Script, n: nat)
    requires NoStreams(script, n)
    ensures StreamCalls(script, n) == []
  {
    hide StreamsIn, Made;
    if n > 0 {
      assert NoStream(script, n - 1);
      NothingStreamed(script, n - 1);
      NotStreaming(script, n - 1);
    }
  }

  /** Call j of callback k sends the local response that counts: the last of the first callback that sends any. */
  predicate SendsFirst(script: Script, k: nat, j: nat) {
    && k < |script| && j < |script[k]| && script[k][j].SendLocal? && NoLocals(script, k)
    && forall i :: j < i < |script[k]| ==> !script[k][i].SendLocal?
  }

  lemma {:induction false} ThatIsFirst(script: Script, k: nat, j: nat, n: nat)
    requires SendsFirst(script, k, j) && k < n
    ensures FirstLocal(script, n) == Some(k) && LocalIn(Made(script, k)) == Some(script[k][j].local)
  {
    LastLocalCounts(script[k], j);
    if k == n - 1 {
      NoneIsFirst(script, k);
    } else {
      ThatIsFirst(script, k, j, n - 1);
    }
  }

  /** Call j of callback k is the last of the three response callbacks, from number n on, to change the headers. */
  predicate PutsLast(script: Script, n: nat, k: nat, j: nat) {
    && n <= k < n + 3 && k < |script| && j < |script[k]| && script[k][j].PutHeaders?
    && (forall i :: j < i < |script[k]| ==> !script[k][i].PutHeaders?)
    && forall m :: k < m < n + 3 ==> NoPut(script, m)
  }

  lemma {:induction false} LastPutStays(script: Script, n: nat, k: nat, j: nat, m: nat, before: seq<Header>)
    requires PutsLast(script, n, k, j) && k - n < m <= 3
    ensures HeadersAfter(script, n, m, before) == script[k][j].headers
  {
    if n + m - 1 == k {
      LastPutCounts(script[k], j, HeadersAfter(script, n, m - 1, before));
    } else {
      LastPutStays(script, n, k, j, m - 1, before);
      assert NoPut(script, n + m - 1);
      WithoutPuts(Made(script, n + m - 1), HeadersAfter(script, n, m - 1, before));
    }
  }

  lemma {:induction false} NoPutsStay(script: Script, n: nat, m: nat, before: seq<Header>)
    requires forall k :: n <= k < n + m ==> NoPut(script, k)
    ensures HeadersAfter(script, n, m, before) == before
  {
    if m > 0 {
      NoPutsStay(script, n, m - 1, before);
      assert NoPut(script, n + m - 1);
      WithoutPuts(Made(script, n + m - 1), before);
    }
  }

  // ----- The outcome -----

  /** A request whose body can be read, with a filter that neither replies nor streams: the default response. */
  predicate Quiet(script: Script, contentLength: nat, prefix: string, results: seq<ReadResult>) {
    && BodyPlan(contentLength, prefix, results).1
    && NoLocals(script, RequestPhase(contentLength, prefix, results) + 3)
    && NoStreams(script, RequestPhase(contentLength, prefix, results) + 3)
  }

  /** The cases of the outcome. */
  lemma Cases(script: Script, contentLength: nat, prefix: string, results: seq<ReadResult>, responseBody: string)
    ensures var n := RequestPhase(contentLength, prefix, results); var calls := StreamCalls(script, n);
      && (FirstLocal(script, n).None? && BodyPlan(contentLength, prefix, results).1 ==>
            Result(script, contentLength, prefix, results, responseBody)
            == if StreamOf(calls).s.state == Idle then ResponsePhase(script, n, responseBody) else Ended(calls))
    ensures StreamOf([]).s.state == Idle
  {
    hide BodyPlan, RequestPhase, FirstLocal, StreamCalls, ResponsePhase, Ended;
    assert FollowAll(BEGIN, []) == BEGIN;
    hide FollowAll;
  }

  lemma SilentPhase(script: Script, n: nat, responseBody: string)
    requires FirstLocal(script, n + 3).None? && StreamCalls(script, n + 3) == []
    ensures ResponsePhase(script, n, responseBody)
            == Plain(HeadersAfter(script, n, 3, [PLAIN_TEXT, CLOSING]), responseBody)
  {
    hide FirstLocal, StreamCalls, HeadersAfter;
    assert FollowAll(BEGIN, []) == BEGIN;
    hide FollowAll;
  }

  lemma ReplyPhase(script: Script, n: nat, responseBody: string, k: nat)
    requires FirstLocal(script, n + 3) == Some(k) && StreamCalls(script, k + 1) == []
    ensures ResponsePhase(script, n, responseBody) == LocalReply(LocalIn(Made(script, k)).value, [])
  {
    hide FirstLocal, StreamCalls, HeadersAfter, LocalIn, Made;
    assert FollowAll(BEGIN, []) == BEGIN;
    hide FollowAll;
  }

  lemma StreamPhase(script: Script, n: nat, responseBody: string)
    requires FirstLocal(script, n + 3).None? && StreamOf(StreamCalls(script, n + 3)).s.state == Finished
    ensures ResponsePhase(script, n, responseBody) == Streamed(StreamCalls(script, n + 3))
  {
    hide FirstLocal, StreamCalls, HeadersAfter, FollowAll;
  }

  lemma QuietIsPlain(script: Script, contentLength: nat, prefix: string, results: seq<ReadResult>, responseBody: string)
    requires Quiet(script, contentLength, prefix, results)
    ensures var n := RequestPhase(contentLength, prefix, results);
      Result(script, contentLength, prefix, results, responseBody)
      == Plain(HeadersAfter(script, n, 3, [PLAIN_TEXT, CLOSING]), responseBody)
  {
    hide BodyPlan, RequestPhase, FirstLocal, StreamCalls, HeadersAfter, NoLocals, NoStreams, Result, ResponsePhase;
    var n := RequestPhase(contentLength, prefix, results);
    NothingSoFar(script, n, n + 3);
    NothingSoFar(script, n + 3, n + 3);
    Cases(script, contentLength, prefix, results, responseBody);
    SilentPhase(script, n, responseBody);
  }

  lemma NothingSoFar(script: Script, m: nat, n: nat)
    requires m <= n
    ensures NoLocals(script, n) ==> FirstLocal(script, m) == None
    ensures NoStreams(script, n) ==> StreamCalls(script, m) == []
  {
    Fewer(script, m, n);
    hide NoLocals, NoStreams, FirstLocal, StreamCalls;
    if NoLocals(script, m) {
      NoneIsFirst(script, m);
    }
    if NoStreams(script, m) {
      NothingStreamed(script, m);
    }
  }

  /** It has the headers of the last change that a response callback has made, */
  lemma LastChangeIsSent(script: Script, contentLength: nat, prefix: string, results: seq<ReadResult>,
                         responseBody: string, k: nat, j: nat)
    requires Quiet(script, contentLength, prefix, results)
    requires PutsLast(script, RequestPhase(contentLength, prefix, results), k, j)
    ensures Result(script, contentLength, prefix, results, responseBody) == Plain(script[k][j].headers, responseBody)
  {
    hide Quiet, RequestPhase, Result, HeadersAfter;
    var n := RequestPhase(contentLength, prefix, results);
    QuietIsPlain(script, contentLength, prefix, results, responseBody);
    LastPutStays(script, n, k, j, 3, [PLAIN_TEXT, CLOSING]);
  }

  /** and the default headers if there is none. */
  lemma DefaultsAreSent(script: Script, contentLength: nat, prefix: string, results: seq<ReadResult>,
                        responseBody: string)
    requires Quiet(script, contentLength, prefix, results)
    requires var n := RequestPhase(contentLength, prefix, results); forall k :: n <= k < n + 3 ==> NoPut(script, k)
    ensures Result(script, contentLength, prefix, results, responseBody)
            == Plain([Header("Content-Type", "text/plain"), Header("Connection", "close")], responseBody)
  {
    hide Quiet, RequestPhase, Result, HeadersAfter;
    QuietIsPlain(script, contentLength, prefix, results, responseBody);
    NoPutsStay(script, RequestPhase(contentLength, prefix, results), 3, [PLAIN_TEXT, CLOSING]);
  }

  /** In the request phase a local response is the answer, whatever has been streamed. */
  lemma RequestLocalIsSent(script: Script, contentLength: nat, prefix: string, results: seq<ReadResult>,
                           responseBody: string, k: nat, j: nat)
    requires SendsFirst(script, k, j) && k < RequestPhase(contentLength, prefix, results)
    ensures Result(script, contentLength, prefix, results, responseBody)
            == LocalReply(script[k][j].local, StreamCalls(script, k + 1))
  {
    ThatIsFirst(script, k, j, RequestPhase(contentLength, prefix, results));
    hide BodyPlan, RequestPhase, FirstLocal, StreamCalls, HeadersAfter, SendsFirst;
  }

  /** In the response phase it is if nothing has been streamed. */
  lemma ResponseLocalIsSent(script: Script, contentLength: nat, prefix: string, results: seq<ReadResult>,
                            responseBody: string, k: nat, j: nat)
    requires var n := RequestPhase(contentLength, prefix, results); SendsFirst(script, k, j) && n <= k < n + 3
    requires BodyPlan(contentLength, prefix, results).1 && NoStreams(script, k + 1)
    ensures Result(script, contentLength, prefix, results, responseBody) == LocalReply(script[k][j].local, [])
  {
    hide BodyPlan, RequestPhase, FirstLocal, StreamCalls, HeadersAfter, NoLocals, NoStreams, Result, ResponsePhase;
    var n := RequestPhase(contentLength, prefix, results);
    ThatIsFirst(script, k, j, n + 3);
    NothingSoFar(script, n, k);
    NothingSoFar(script, n, k + 1);
    NothingSoFar(script, k + 1, k + 1);
    hide SendsFirst;
    Cases(script, contentLength, prefix, results, responseBody);
    ReplyPhase(script, n, responseBody, k);
  }

  lemma {:induction false} OneStreams(script: Script, k: nat, calls: seq<Call>, n: nat)
    requires k < n && Made(script, k) == StreamingOf(calls)
    requires forall m :: 0 <= m < n && m != k ==> NoStream(script, m)
    ensures StreamCalls(script, n) == calls
  {
    hide StreamingOf, StreamsIn, Made;
    if k == n - 1 {
      assert NoStreams(script, k);
      NothingStreamed(script, k);
      AllAreStreamed(calls);
      assert [] + calls == calls;
    } else {
      OneStreams(script, k, calls, n - 1);
      NotStreaming(script, n - 1);
      assert calls + [] == calls;
    }
  }

  lemma NotStreaming(script: Script, k: nat)
    requires NoStream(script, k)
    ensures StreamsIn(Made(script, k)) == []
  {
    WithoutStreams(Made(script, k));
  }

  /** A stream that is begun, filled and finished in one callback is the answer. */
  lemma StreamIsSent(script: Script, contentLength: nat, prefix: string, results: seq<ReadResult>,
                     responseBody: string, k: nat, status: nat, headers: seq<Header>, chunks: seq<string>)
    requires var n := RequestPhase(contentLength, prefix, results);
      && BodyPlan(contentLength, prefix, results).1 && k < n + 3 && NoLocals(script, n + 3) && OnlyChunked(headers)
      && Made(script, k) == StreamingOf(WholeStream(status, headers, chunks, []))
      && forall m :: 0 <= m < n + 3 && m != k ==> NoStream(script, m)
    ensures Result(script, contentLength, prefix, results, responseBody)
            == Streamed(WholeStream(status, headers, chunks, []))
  {
    hide BodyPlan, RequestPhase, HeadersAfter, FollowAll, OnlyChunked, StreamingOf, WholeStream, Result, ResponsePhase,
      NoLocals, NoStream, FirstLocal, StreamCalls, Made;
    var n := RequestPhase(contentLength, prefix, results);
    var calls := WholeStream(status, headers, chunks, []);
    StreamIsAccepted(status, headers, chunks, []);
    Cases(script, contentLength, prefix, results, responseBody);
    NothingSoFar(script, n, n + 3);
    NothingSoFar(script, n + 3, n + 3);
    if k < n {
      OneStreams(script, k, calls, n);
    } else {
      NothingSoFar(script, n, n);
      OneStreams(script, k, calls, n + 3);
      StreamPhase(script, n, responseBody);
    }
  }

  // ----- The body -----

  /** The first reads give these pieces. */
  predicate Gives(results: seq<ReadResult>, pieces: seq<string>) {
    && |pieces| <= |results|
    && forall k :: 0 <= k < |pieces| ==> results[k] == Data(pieces[k]) && 0 < |pieces[k]| <= BODY_CHUNK_SIZE
  }

  /** The read behind them gives nothing. */
  predicate GivesNoMore(results: seq<ReadResult>, k: nat) {
    k >= |results| || !results[k].Data? || results[k].data == ""
  }

  lemma {:induction false} ConcatGrows(pieces: seq<string>, k: nat)
    requires k < |pieces|
    ensures |Concat(pieces[..k])| + |pieces[k]| == |Concat(pieces[..k + 1])| <= |Concat(pieces)|
    decreases |pieces|
  {
    assert pieces[..k + 1][..k] == pieces[..k];
    if k == |pieces| - 1 {
      assert pieces[..k + 1] == pieces;
    } else {
      var most := pieces[..|pieces| - 1];
      ConcatGrows(most, k);
      assert most[..k] == pieces[..k] && most[..k + 1] == pieces[..k + 1];
    }
  }

  lemma {:induction false} ChunksAreRead(contentLength: nat, consumed: nat, results: seq<ReadResult>,
                                         pieces: seq<string>, k: nat, complete: bool)
    requires Gives(results, pieces) && k <= |pieces|
    requires contentLength >= consumed + |Concat(pieces)| - |Concat(pieces[..k])|
    requires if complete then contentLength == consumed + |Concat(pieces)| - |Concat(pieces[..k])|
             else contentLength > consumed + |Concat(pieces)| - |Concat(pieces[..k])| && GivesNoMore(results, |pieces|)
    ensures ChunksFrom(contentLength, consumed, results, k) == (|pieces| - k, complete)
    decreases |pieces| - k
  {
    hide Concat;
    if k == |pieces| {
      assert pieces[..k] == pieces;
    } else {
      ConcatGrows(pieces, k);
      ChunksAreRead(contentLength, consumed + |pieces[k]|, results, pieces, k + 1, complete);
    }
  }

  /** How much of a body has come with its head and in these pieces. */
  function Arrived(prefix: string, pieces: seq<string>): nat {
    |prefix| + |Concat(pieces)|
  }

  /** One callback for a prefix, one for each piece. */
  function BodyCallbacks(prefix: string, pieces: seq<string>): nat {
    |pieces| + if prefix == "" then 0 else 1
  }

  /** A body that arrives wholly is read with one callback each, and then trailers. */
  lemma BodyIsRead(contentLength: nat, prefix: string, results: seq<ReadResult>, pieces: seq<string>)
    requires Gives(results, pieces) && Arrived(prefix, pieces) == contentLength
    ensures BodyPlan(contentLength, prefix, results) == (BodyCallbacks(prefix, pieces), true)
    ensures RequestPhase(contentLength, prefix, results) == BodyCallbacks(prefix, pieces) + 2
  {
    assert pieces[..0] == [];
    SomethingArrives(results, pieces);
    ChunksAreRead(contentLength, |prefix|, results, pieces, 0, true);
    hide ChunksFrom, Gives;
  }

  lemma SomethingArrives(results: seq<ReadResult>, pieces: seq<string>)
    requires Gives(results, pieces)
    ensures pieces != [] ==> Concat(pieces) != ""
  {
    if pieces != [] {
      assert results[|pieces| - 1] == Data(pieces[|pieces| - 1]);
    }
  }

  /** A body that breaks off ends the request in an error, unless a local response has come before. */
  lemma BrokenBodyFails(script: Script, contentLength: nat, prefix: string, results: seq<ReadResult>,
                        responseBody: string, pieces: seq<string>)
    requires Gives(results, pieces) && Arrived(prefix, pieces) < contentLength && GivesNoMore(results, |pieces|)
    requires NoLocals(script, BodyCallbacks(prefix, pieces) + 1)
    ensures Result(script, contentLength, prefix, results, responseBody)
            == Failed(StreamCalls(script, BodyCallbacks(prefix, pieces) + 1))
  {
    assert pieces[..0] == [];
    ChunksAreRead(contentLength, |prefix|, results, pieces, 0, false);
    NoneIsFirst(script, BodyCallbacks(prefix, pieces) + 1);
    hide ChunksFrom, Gives, GivesNoMore, FirstLocal, StreamCalls, NoLocals;
  }
}

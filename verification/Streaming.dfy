/**
 A response a filter streams: the state machine of LsWasmContext
 (src/wasm_module_manager.h:470-530) above HttpResponseSink (src/http_response_sink.h:42-126).
 */
module Streaming {
  import opened Common
  import opened HttpText
  import HeaderName

  datatype State = Idle | HeadersSent | Finished

  /** proxy_wasm::WasmResult, as far as it is used. */
  datatype WasmResult = Ok | BadArgument | InternalFailure

  datatype Call =
    | SendHeaders(status: nat, headers: seq<Header>)
    | WriteChunk(data: string)
    | Finish

  // ----- Headers of a streamed response -----

  predicate IsLength(h: Header) {
    HeaderName.NameEq(h.name, "Content-Length")
  }

  predicate IsCoding(h: Header) {
    HeaderName.NameEq(h.name, "Transfer-Encoding")
  }

  function Strip(headers: seq<Header>): seq<Header> {
    if headers == [] then []
    else (if IsLength(headers[0]) then [] else [headers[0]]) + Strip(headers[1..])
  }

  /** Some transfer coding other than chunked is asked for. */
  predicate Conflicts(headers: seq<Header>) {
    exists k :: 0 <= k < |headers| && IsCoding(headers[k]) && !IsChunked(headers[k].value)
  }

  predicate HasCoding(headers: seq<Header>) {
    exists k :: 0 <= k < |headers| && IsCoding(headers[k])
  }

  function Normalized(headers: seq<Header>): seq<Header> {
    Strip(headers) + if HasCoding(headers) then [] else [Header("Transfer-Encoding", "chunked")]
  }

  // ----- The transport -----

  datatype End = FinishCalled | ErrorSet

  /** What a worker does to its ConnectionIO: module Bridge says what becomes of it. */
  class Channel {
    var writes: seq<string>  // everything given to writeData, call by call
    var ends: seq<End>

    constructor ()
      ensures writes == [] && Wire() == "" && ends == []
    {
      writes, ends := [], [];
    }

    /** The text of all calls. */
    function Wire(): string
      reads this`writes
    {
      Concat(writes)
    }

    method WriteData(data: string)
      modifies this`writes
      ensures Wire() == old(Wire()) + data
    {
      if data == "" {
        assert old(Wire()) + "" == old(Wire());
        return;
      }
      writes := writes + [data];
      assert writes[..|writes| - 1] == old(writes);
    }

    method Finish()
      modifies this`ends
      ensures ends == old(ends) + [FinishCalled]
    {
      ends := ends + [FinishCalled];
    }

    method SetError()
      modifies this`ends
      ensures ends == old(ends) + [ErrorSet]
    {
      ends := ends + [ErrorSet];
    }
  }

  class Sink {
    const conn: Channel
    var streaming: bool
    var error: bool

    constructor (conn: Channel)
      ensures this.conn == conn && !streaming && !error
    {
      this.conn, streaming, error := conn, false, false;
    }

    /** The loop of sendHeaders. */
    method Normalize(headers: seq<Header>) returns (ok: bool, normalized: seq<Header>)
      ensures ok == !Conflicts(headers) && (ok ==> normalized == Normalized(headers))
    {
      normalized := [];
      var sawChunked := false;
      assert headers[0..] == headers;
      for i := 0 to |headers|
        invariant normalized + Strip(headers[i..]) == Strip(headers)
        invariant forall k :: 0 <= k < i && IsCoding(headers[k]) ==> IsChunked(headers[k].value)
        invariant sawChunked == exists k :: 0 <= k < i && IsCoding(headers[k])
      {
        hide HeaderName.NameEq, IsChunked;
        var hdr := headers[i];
        assert headers[i..][1..] == headers[i + 1..];
        ghost var rest := Strip(headers[i + 1..]);
        assert normalized + ([hdr] + rest) == normalized + [hdr] + rest;
        assert normalized + ([] + rest) == normalized + rest;
        var isLength := HeaderName.HeaderNameEq(hdr.name, "Content-Length");
        if isLength {
          LengthIsNoCoding(hdr);
          continue;
        }
        var isCoding := HeaderName.HeaderNameEq(hdr.name, "Transfer-Encoding");
        if isCoding {
          var isChunked := HeaderName.HeaderNameEq(hdr.value, "chunked");
          if !isChunked {
            assert IsCoding(headers[i]) && !IsChunked(headers[i].value) by { CodingIs(hdr); }
            return false, [];
          }
          assert IsCoding(headers[i]) && IsChunked(headers[i].value) by { CodingIs(hdr); }
          sawChunked := true;
        }
        normalized := normalized + [hdr];
      }
      assert normalized + [] == normalized;
      if !sawChunked {
        normalized := normalized + [Header("Transfer-Encoding", "chunked")];
      }
      ok := true;
    }

    /** sendHeaders. */
    method SendHeaders(status: nat, headers: seq<Header>, streaming: bool) returns (ok: bool)
      modifies this, conn`writes
      ensures this.streaming == streaming
      ensures ok == !(streaming && Conflicts(headers)) && error == (old(error) || !ok)
      ensures conn.Wire() == old(conn.Wire()) +
                (if ok then Head(status, if streaming then Normalized(headers) else headers) else "")
    {
      this.streaming := streaming;
      var text := headers;
      if streaming {
        ok, text := Normalize(headers);
        if !ok {
          error := true;
          return;
        }
      }
      var hdrStr := SerializeHeaders(status, text);
      conn.WriteData(hdrStr);
      ok := true;
    }

    /** writeBody. */
    method WriteBody(data: string) returns (ok: bool)
      modifies conn`writes
      ensures ok == !error
      ensures conn.Wire() == old(conn.Wire()) +
                (if error || data == "" then "" else if streaming then Frame(data) else data)
    {
      if error {
        return false;
      }
      if data == "" {
        return true;
      }
      if streaming {
        var chunk := Numeral(|data|, 16) + CRLF;
        chunk := chunk + data;
        chunk := chunk + CRLF;
        conn.WriteData(chunk);
      } else {
        conn.WriteData(data);
      }
      ok := true;
    }

    /** finishBody. */
    method FinishBody() returns (ok: bool)
      modifies conn`writes
      ensures ok == !error
      ensures conn.Wire() == old(conn.Wire()) + if !error && streaming then TERMINATOR else ""
    {
      if error {
        return false;
      }
      if streaming {
        conn.WriteData(TERMINATOR);
      }
      ok := true;
    }
  }

  lemma LengthIsNoCoding(h: Header)
    requires HeaderName.NameEq(h.name, "Content-Length")
    ensures IsLength(h) && !IsCoding(h)
  {
    assert |h.name| == 14;
  }

  lemma CodingIs(h: Header)
    ensures IsCoding(h) == HeaderName.NameEq(h.name, "Transfer-Encoding")
    ensures IsChunked(h.value) == HeaderName.NameEq(h.value, "chunked")
  {
  }

  // ----- The state machine -----

  /** The state machine and the transport below it. */
  datatype S = S(state: State, streaming: bool, error: bool, wire: string)

  const START := S(Idle, false, false, "")

  function Step(s: S, call: Call): (S, WasmResult) {
    match call
    case SendHeaders(status, headers) =>
      if s.state != Idle then (s, BadArgument)
      else if Conflicts(headers) then (s.(streaming := true, error := true), InternalFailure)
      else (S(HeadersSent, true, s.error, s.wire + Head(status, Normalized(headers))), Ok)
    case WriteChunk(data) =>
      if s.state != HeadersSent then (s, BadArgument)
      else if data == "" then (s, Ok)
      else if s.error then (s, InternalFailure)
      else (s.(wire := s.wire + if s.streaming then Frame(data) else data), Ok)
    case Finish =>
      if s.state != HeadersSent then (s, BadArgument)
      else if s.error then (s, InternalFailure)
      else (S(Finished, s.streaming, s.error, s.wire + if s.streaming then TERMINATOR else ""), Ok)
  }

  // ----- Any sequence of calls -----

  /** What the filter was told has been accepted: a head, and the data of its chunks. */
  datatype Trace = Trace(s: S, head: seq<(nat, seq<Header>)>, data: seq<string>)

  const BEGIN := Trace(START, [], [])

  function Follow(t: Trace, call: Call): Trace {
    var (s, r) := Step(t.s, call);
    if r != Ok then t.(s := s)
    else match call
      case SendHeaders(status, headers) => t.(s := s, head := t.head + [(status, headers)])
      case WriteChunk(data) => t.(s := s, data := if data == "" then t.data else t.data + [data])
      case Finish => t.(s := s)
  }

  function FollowAll(t: Trace, calls: seq<Call>): Trace {
    if calls == [] then t else Follow(FollowAll(t, calls[..|calls| - 1]), calls[|calls| - 1])
  }

  function EndOf(state: State): string {
    if state == Finished then TERMINATOR else ""
  }

  /** What is on the wire is what has been accepted. */
  predicate Faithful(t: Trace) {
    && "" !in t.data
    && (t.s.error ==> t.data == [] && t.s.state != Finished)
    && match t.s.state
       case Idle => t.head == [] && t.data == [] && t.s.wire == ""
       case _ =>
         && t.s.streaming && |t.head| == 1 && !Conflicts(t.head[0].1)
         && t.s.wire == Head(t.head[0].0, Normalized(t.head[0].1)) + (Frames(t.data) + EndOf(t.s.state))
  }

  lemma HeadersKeepFaithful(t: Trace, status: nat, headers: seq<Header>)
    requires Faithful(t)
    ensures Faithful(Follow(t, SendHeaders(status, headers)))
  {
    hide Head, Normalized, Conflicts, Frame;
    if t.s.state == Idle && !Conflicts(headers) {
      var t' := Follow(t, SendHeaders(status, headers));
      assert t'.s.wire == Head(status, Normalized(headers)) + ("" + "");
      assert t'.head == [(status, headers)];
    }
  }

  lemma ChunkKeepsFaithful(t: Trace, data: string)
    requires Faithful(t)
    ensures Faithful(Follow(t, WriteChunk(data)))
  {
    hide Head, Normalized, Conflicts, Frame;
    if t.s.state == HeadersSent && data != "" && !t.s.error {
      var t' := Follow(t, WriteChunk(data));
      assert t'.data[..|t.data|] == t.data;
      var head := Head(t.head[0].0, Normalized(t.head[0].1));
      assert t'.s.wire == head + ((Frames(t.data) + Frame(data)) + "");
    }
  }

  lemma FinishKeepsFaithful(t: Trace)
    requires Faithful(t)
    ensures Faithful(Follow(t, Finish))
  {
    hide Head, Normalized, Conflicts, Frames;
    if t.s.state == HeadersSent {
      var head := Head(t.head[0].0, Normalized(t.head[0].1));
      assert head + (Frames(t.data) + "") + TERMINATOR == head + (Frames(t.data) + TERMINATOR);
    }
  }

  lemma FollowKeepsFaithful(t: Trace, call: Call)
    requires Faithful(t)
    ensures Faithful(Follow(t, call))
  {
    hide Faithful, Follow;
    match call
    case SendHeaders(status, headers) => HeadersKeepFaithful(t, status, headers);
    case WriteChunk(data) => ChunkKeepsFaithful(t, data);
    case Finish => FinishKeepsFaithful(t);
  }

  lemma {:induction false} AlwaysFaithful(calls: seq<Call>)
    ensures Faithful(FollowAll(BEGIN, calls))
  {
    if calls != [] {
      AlwaysFaithful(calls[..|calls| - 1]);
      hide Faithful, Follow;
      FollowKeepsFaithful(FollowAll(BEGIN, calls[..|calls| - 1]), calls[|calls| - 1]);
    }
  }

  // ----- Decoding -----

  /** The accepted head can be read back. */
  predicate HeadClean(t: Trace) {
    forall k :: 0 <= k < |t.head| ==> Clean(Normalized(t.head[k].1))
  }

  lemma {:induction false} NamedConcat(x: seq<Header>, y: seq<Header>, name: string)
    ensures Named(x + y, name) == Named(x, name) + Named(y, name)
  {
    hide HeaderName.NameEq;
    if x == [] {
      assert x + y == y;
    } else {
      NamedConcat(x[1..], y, name);
      assert (x + y)[1..] == x[1..] + y;
    }
  }

  /** Whether a coding is named, and whether only chunked ones are. */
  lemma {:induction false} CodingsNamed(headers: seq<Header>)
    ensures var codings := Named(headers, "Transfer-Encoding");
      && (codings == [] <==> !HasCoding(headers))
      && (!Conflicts(headers) ==> forall k :: 0 <= k < |codings| ==> IsChunked(codings[k]))
  {
    hide HeaderName.NameEq, IsChunked;
    if headers != [] {
      var h, rest := headers[0], headers[1..];
      CodingsNamed(rest);
      assert HasCoding(headers) <==> IsCoding(h) || HasCoding(rest) by {
        if HasCoding(rest) {
          var k :| 0 <= k < |rest| && IsCoding(rest[k]);
          assert IsCoding(headers[k + 1]);
        }
      }
      assert !Conflicts(headers) ==> !Conflicts(rest) && (IsCoding(h) ==> IsChunked(h.value)) by {
        if Conflicts(rest) {
          var k :| 0 <= k < |rest| && IsCoding(rest[k]) && !IsChunked(rest[k].value);
          assert IsCoding(headers[k + 1]) && !IsChunked(headers[k + 1].value);
        }
      }
    }
  }

  /** Transfer codings of the stripped headers, and no lengths. */
  lemma StripNamed(headers: seq<Header>)
    ensures Named(Strip(headers), "Content-Length") == []
    ensures Named(Strip(headers), "Transfer-Encoding") == Named(headers, "Transfer-Encoding")
    ensures Named(Strip(headers), "Transfer-Encoding") == [] <==> !HasCoding(headers)
    ensures !Conflicts(headers) ==>
              forall k :: 0 <= k < |Named(Strip(headers), "Transfer-Encoding")| ==>
                            IsChunked(Named(Strip(headers), "Transfer-Encoding")[k])
  {
    hide HeaderName.NameEq, Named, Strip, Conflicts, HasCoding, IsChunked;
    CodingsNamed(headers);
    SameName("Content-Length");
    LengthDiffers();
    StripValues(headers, "Content-Length");
    StripValues(headers, "Transfer-Encoding");
  }

  lemma SingleNamed(h: Header, name: string)
    ensures Named([h], name) == if HeaderName.NameEq(h.name, name) then [h.value] else []
  {
    assert [h][1..] == [];
  }

  /** No length, and nothing but chunked codings, of which there is one at least. */
  predicate ChunkedFraming(headers: seq<Header>) {
    var codings := Named(headers, "Transfer-Encoding");
    && Named(headers, "Content-Length") == []
    && |codings| > 0 && forall k :: 0 <= k < |codings| ==> IsChunked(codings[k])
  }

  /** The codings of the normalised headers: those given, or the one added. */
  lemma NormalizedFraming(headers: seq<Header>)
    requires !Conflicts(headers)
    ensures ChunkedFraming(Normalized(headers))
    ensures var given := Named(headers, "Transfer-Encoding");
      Named(Normalized(headers), "Transfer-Encoding") == if given == [] then ["chunked"] else given
  {
    StripNamed(headers);
    var coding := Header("Transfer-Encoding", "chunked");
    SingleNamed(coding, "Transfer-Encoding");
    SingleNamed(coding, "Content-Length");
    hide HeaderName.NameEq;
    if !HasCoding(headers) {
      NamedConcat(Strip(headers), [coding], "Transfer-Encoding");
      NamedConcat(Strip(headers), [coding], "Content-Length");
      assert HeaderName.NameEq("Transfer-Encoding", "Transfer-Encoding") by { SameName("Transfer-Encoding"); }
      assert !HeaderName.NameEq("Transfer-Encoding", "Content-Length") by { LengthDiffers(); }
      assert IsChunked("chunked") by { SameName("chunked"); }
    } else {
      assert Strip(headers) + [] == Strip(headers);
    }
  }

  lemma NameEqVia(a: string, b: string, c: string)
    requires HeaderName.NameEq(a, b)
    ensures HeaderName.NameEq(a, c) <==> HeaderName.NameEq(b, c)
    ensures HeaderName.NameEq(c, a) <==> HeaderName.NameEq(c, b)
  {
  }

  lemma NameEqTurned(a: string, b: string)
    ensures HeaderName.NameEq(a, b) <==> HeaderName.NameEq(b, a)
  {
  }

  /** Stripping takes away the lengths, and no value under any other name. */
  lemma {:induction false} StripValues(headers: seq<Header>, name: string)
    ensures Named(Strip(headers), name)
            == if HeaderName.NameEq(name, "Content-Length") then [] else Named(headers, name)
  {
    if headers != [] {
      var h, rest := headers[0], headers[1..];
      StripValues(rest, name);
      NamedConcat([h], Strip(rest), name);
      SingleNamed(h, name);
      if HeaderName.NameEq(h.name, name) {
        NameEqVia(h.name, name, "Content-Length");
      }
      hide HeaderName.NameEq;
      assert [] + Strip(rest) == Strip(rest);
      assert [] + Named(Strip(rest), name) == Named(Strip(rest), name);
    }
  }

  /** What a streamed response has under each name: the values given, but no length and one coding at least. */
  lemma NormalizedValues(headers: seq<Header>, name: string)
    ensures Named(Normalized(headers), name)
            == if HeaderName.NameEq(name, "Content-Length") then []
               else if HeaderName.NameEq(name, "Transfer-Encoding") && Named(headers, name) == [] then ["chunked"]
               else Named(headers, name)
  {
    var coding := Header("Transfer-Encoding", "chunked");
    StripValues(headers, name);
    StripNamed(headers);
    StripValues(headers, "Transfer-Encoding");
    LengthDiffers();
    NamedConcat(Strip(headers), [coding], name);
    SingleNamed(coding, name);
    NameEqTurned("Transfer-Encoding", name);
    if HeaderName.NameEq(name, "Transfer-Encoding") {
      NameEqVia(name, "Transfer-Encoding", "Content-Length");
      SameNamed(headers, name, "Transfer-Encoding");
    }
    hide HeaderName.NameEq;
    assert Strip(headers) + [] == Strip(headers);
    assert Named(Strip(headers), name) + [] == Named(Strip(headers), name);
  }

  lemma {:induction false} SameNamed(headers: seq<Header>, a: string, b: string)
    requires HeaderName.NameEq(a, b)
    ensures Named(headers, a) == Named(headers, b)
  {
    if headers != [] {
      SameNamed(headers[1..], a, b);
      NameEqVia(a, b, headers[0].name);
    }
  }

  lemma SameName(name: string)
    ensures HeaderName.NameEq(name, name)
  {
  }

  lemma LengthDiffers()
    ensures !HeaderName.NameEq("Transfer-Encoding", "Content-Length")
  {
    assert |"Transfer-Encoding"| == 17 && |"Content-Length"| == 14;
  }

  /** The text of a stream that has been started. */
  lemma StartedText(calls: seq<Call>)
    requires FollowAll(BEGIN, calls).s.state != Idle
    ensures var t := FollowAll(BEGIN, calls);
      && |t.head| == 1 && "" !in t.data
      && var (status, headers) := t.head[0];
      && ChunkedFraming(Normalized(headers))
      && |Named(Normalized(headers), "Transfer-Encoding")|
         == (if Named(headers, "Transfer-Encoding") == [] then 1 else |Named(headers, "Transfer-Encoding")|)
      && t.s.wire == Head(status, Normalized(headers)) + (Frames(t.data) + EndOf(t.s.state))
  {
    AlwaysFaithful(calls);
    var t := FollowAll(BEGIN, calls);
    hide FollowAll, Conflicts, ChunkedFraming, Head, Normalized, Frames;
    NormalizedFraming(t.head[0].1);
  }

  /**
   Whatever a filter calls, the wire carries a chunked head and the accepted data in whole
   chunks; the terminator is there, once and last, exactly if the state is Finished.
   */
  lemma StreamDecodes(calls: seq<Call>)
    requires HeadClean(FollowAll(BEGIN, calls))
    ensures var t := FollowAll(BEGIN, calls);
      && (t.s.state == Idle ==> t.s.wire == "")
      && (t.s.state != Idle ==>
            && |t.head| == 1
            && var (status, headers) := t.head[0];
               var read := ReadHead(t.s.wire);
            && read.Some? && read.value.0 == StatusLine(status) && read.value.1 == Normalized(headers)
            && ChunkedFraming(read.value.1)
            && ReadChunks(read.value.2) == if t.s.state == Finished then Complete(t.data, "") else Open(t.data))
  {
    var t := FollowAll(BEGIN, calls);
    if t.s.state == Idle {
      AlwaysFaithful(calls);
    } else {
      StartedText(calls);
      hide FollowAll, Conflicts, ChunkedFraming, ReadHead, ReadChunks, StatusLine, Head, Clean, Normalized, Frames;
      var (status, headers) := t.head[0];
      HeadRoundTrip(status, Normalized(headers), Frames(t.data) + EndOf(t.s.state));
      FramesRead(t.data, EndOf(t.s.state));
      EndRead(EndOf(t.s.state));
      assert t.data + [] == t.data;
    }
  }

  lemma EndRead(end: string)
    requires end == TERMINATOR || end == ""
    ensures ReadChunks(end) == if end == "" then Open([]) else Complete([], "")
  {
    TerminatorRead("");
    assert TERMINATOR + "" == TERMINATOR;
  }

  /**
   The status is final, such a response to this request has a body that may be chunked, the
   fields are well-formed, and the filter named the coding at most once.
   */
  predicate Streamable(request: Request, status: nat, headers: seq<Header>) {
    && IsFinal(status) && !Bodiless(request, status) && KnowsCodings(request)
    && AreFields(Strip(headers)) && |Named(headers, "Transfer-Encoding")| <= 1
  }

  /** What a finished stream of these calls stands for. */
  function StreamedResponse(t: Trace): Response {
    if |t.head| == 1 then Response(StatusLine(t.head[0].0), Normalized(t.head[0].1), Concat(t.data))
    else Response("", [], "")
  }

  /**
   A finished stream is one response, whose body is the accepted data, exactly if it is
   streamable; if not, it is none at all, provided that its head can be read.
   */
  lemma FinishedIsOneResponse(request: Request, calls: seq<Call>)
    requires FollowAll(BEGIN, calls).s.state == Finished
    ensures var t := FollowAll(BEGIN, calls);
      && |t.head| == 1
      && var (status, headers) := t.head[0];
      && (ReadResponse(request, t.s.wire) == Some(StreamedResponse(t)) <==> Streamable(request, status, headers))
      && (HeadClean(t) && !Streamable(request, status, headers) ==> ReadResponse(request, t.s.wire) == None)
  {
    StartedText(calls);
    var t := FollowAll(BEGIN, calls);
    NormalizedFields(t.head[0].1);
    if HeadClean(t) {
      CleanStreamIsOneResponse(request, calls);
    } else {
      hide FollowAll, ReadResponse, Normalized, Clean, AreFields, Strip, Bodiless;
      if ReadResponse(request, t.s.wire) == Some(StreamedResponse(t)) {
        ResponseText(request, t.s.wire);
      }
      if AreFields(Normalized(t.head[0].1)) {
        FieldsAreClean(Normalized(t.head[0].1));
      }
    }
  }

  lemma CleanStreamIsOneResponse(request: Request, calls: seq<Call>)
    requires FollowAll(BEGIN, calls).s.state == Finished && HeadClean(FollowAll(BEGIN, calls))
    ensures var t := FollowAll(BEGIN, calls);
      && |t.head| == 1
      && ReadResponse(request, t.s.wire)
         == if Streamable(request, t.head[0].0, t.head[0].1) then Some(StreamedResponse(t)) else None
  {
    StreamDecodes(calls);
    StartedText(calls);
    var t := FollowAll(BEGIN, calls);
    var (status, headers) := t.head[0];
    StatusRoundTrip(status);
    NormalizedFields(headers);
    hide FollowAll, ReadHead, StatusLine, Normalized, ReadChunks, ReadStatus, Bodiless, KnowsCodings, AreFields, Strip;
  }

  lemma NormalizedFields(headers: seq<Header>)
    ensures AreFields(Normalized(headers)) <==> AreFields(Strip(headers))
  {
    CodingIsField();
    var added := Header("Transfer-Encoding", "chunked");
    hide IsField;
    forall h | h in Strip(headers)
      ensures h in Normalized(headers)
    {
    }
    assert forall h :: h in Normalized(headers) ==> h in Strip(headers) || h == added;
  }

  lemma CodingIsField()
    ensures IsField(Header("Transfer-Encoding", "chunked"))
  {
    assert IsWord("Transfer-Encoding") && IsWord("chunked");
    WordIsToken("Transfer-Encoding");
    WordIsToken("chunked");
    hide IsToken, IsValue, IsWord;
  }

  // ----- LsWasmContext -----

  class Context {
    const sink: Sink
    var state: State
    ghost var calls: seq<Call>  // the calls of the filter so far

    ghost predicate Valid()
      reads this, sink, sink.conn
    {
      View() == FollowAll(BEGIN, calls).s
    }

    constructor (sink: Sink)
      requires !sink.streaming && !sink.error && sink.conn.Wire() == ""
      ensures this.sink == sink && Valid() && calls == []
    {
      this.sink, state, calls := sink, Idle, [];
    }

    function View(): S
      reads this, sink, sink.conn
    {
      S(state, sink.streaming, sink.error, sink.conn.Wire())
    }

    predicate HasStreamingResponse()
      reads this
    {
      state != Idle
    }

    predicate IsStreamingFinished()
      reads this
    {
      state == Finished
    }

    method StreamingSendHeaders(status: nat, headers: seq<Header>) returns (r: WasmResult)
      modifies this`state, sink, sink.conn`writes
      ensures (View(), r) == Step(old(View()), Call.SendHeaders(status, headers))
    {
      if state != Idle {
        return BadArgument;
      }
      var ok := sink.SendHeaders(status, headers, true);
      if !ok {
        assert sink.conn.Wire() == old(sink.conn.Wire());
        return InternalFailure;
      }
      state := HeadersSent;
      r := Ok;
    }

    method StreamingWriteChunk(data: string) returns (r: WasmResult)
      modifies sink.conn`writes
      ensures (View(), r) == Step(old(View()), WriteChunk(data))
    {
      if state != HeadersSent {
        return BadArgument;
      }
      if data != "" {
        var ok := sink.WriteBody(data);
        if !ok {
          assert sink.conn.Wire() == old(sink.conn.Wire());
          return InternalFailure;
        }
      }
      r := Ok;
    }

    method StreamingFinish() returns (r: WasmResult)
      modifies this`state, sink.conn`writes
      ensures (View(), r) == Step(old(View()), Finish)
    {
      if state != HeadersSent {
        return BadArgument;
      }
      var ok := sink.FinishBody();
      if !ok {
        assert sink.conn.Wire() == old(sink.conn.Wire());
        return InternalFailure;
      }
      state := Finished;
      r := Ok;
    }

    /** The foreign function a filter called. */
    method Dispatch(call: Call) returns (r: WasmResult)
      modifies this`state, sink, sink.conn`writes
      ensures (View(), r) == Step(old(View()), call)
    {
      hide Step;
      match call
      case SendHeaders(status, headers) => r := StreamingSendHeaders(status, headers);
      case WriteChunk(data) => r := StreamingWriteChunk(data);
      case Finish => r := StreamingFinish();
    }

    method Perform(call: Call) returns (r: WasmResult)
      requires Valid()
      modifies this, sink, sink.conn`writes
      ensures Valid() && calls == old(calls) + [call]
      ensures r == Step(old(View()), call).1
    {
      FollowOne(calls, call);
      hide Step, FollowAll;
      r := Dispatch(call);
      calls := calls + [call];
    }
  }

  lemma FollowOne(calls: seq<Call>, call: Call)
    ensures FollowAll(BEGIN, calls + [call]).s == Step(FollowAll(BEGIN, calls).s, call).0
  {
    assert (calls + [call])[..|calls|] == calls;
    hide Step;
  }
}

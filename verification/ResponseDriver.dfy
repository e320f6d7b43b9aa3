/**
 One request from its parsing to the end of its response: handle_request
 (src/main.cpp:723-942) and the filter phases it calls (src/http_filter.h:122-240, 335-348),
 for one filter module whose callbacks make any host calls whatsoever.
 */
module ResponseDriver {
  import opened Common
  import opened HttpText
  import opened Streaming
  import opened FilterScript
  import HeaderName

  // ----- Responses with a Content-Length -----

  function LengthHeader(body: string): Header {
    Header("Content-Length", Numeral(|body|, 10))
  }

  predicate IsReplaced(h: Header) {
    || HeaderName.NameEq(h.name, "Content-Length")
    || HeaderName.NameEq(h.name, "Content-Type")
    || HeaderName.NameEq(h.name, "Connection")
  }

  function Kept(headers: seq<Header>): seq<Header> {
    if headers == [] then []
    else (if IsReplaced(headers[0]) then [] else [headers[0]]) + Kept(headers[1..])
  }

  const POWERED_BY := Header("X-Powered-By", "lswasm/proxy-wasm")
  const LOCAL_HEADERS := [PLAIN_TEXT, POWERED_BY, CLOSING]

  function LocalHeaders(l: Local): seq<Header> {
    LOCAL_HEADERS + Kept(l.headers) + [LengthHeader(l.body)]
  }

  function LocalText(l: Local): string {
    Head(l.code, LocalHeaders(l)) + l.body
  }

  /** build_local_response. */
  method BuildLocalResponse(l: Local) returns (response: string)
    ensures response == LocalText(l)
  {
    var headers := LOCAL_HEADERS;
    hide HeaderName.NameEq, Numeral, Head;
    assert l.headers[0..] == l.headers;
    for i := 0 to |l.headers|
      invariant headers + Kept(l.headers[i..]) == LOCAL_HEADERS + Kept(l.headers)
    {
      var h := l.headers[i];
      assert l.headers[i..][1..] == l.headers[i + 1..];
      ghost var rest := Kept(l.headers[i + 1..]);
      assert headers + ([h] + rest) == headers + [h] + rest;
      assert headers + ([] + rest) == headers + rest;
      var isLength := HeaderName.HeaderNameEq(h.name, "Content-Length");
      var isType := HeaderName.HeaderNameEq(h.name, "Content-Type");
      var isConnection := HeaderName.HeaderNameEq(h.name, "Connection");
      if isLength || isType || isConnection {
        continue;
      }
      headers := headers + [h];
    }
    assert headers + [] == headers;
    headers := headers + [LengthHeader(l.body)];
    var hdrStr := SerializeHeaders(l.code, headers);
    response := hdrStr + l.body;
  }

  /** std::remove_if for Content-Length. */
  method EraseLength(hdrs: seq<Header>) returns (kept: seq<Header>)
    ensures kept == Strip(hdrs)
  {
    kept := [];
    assert hdrs[0..] == hdrs;
    for i := 0 to |hdrs|
      invariant kept + Strip(hdrs[i..]) == Strip(hdrs)
    {
      assert hdrs[i..][1..] == hdrs[i + 1..];
      ghost var rest := Strip(hdrs[i + 1..]);
      assert kept + ([hdrs[i]] + rest) == kept + [hdrs[i]] + rest;
      assert kept + ([] + rest) == kept + rest;
      var isLength := HeaderName.HeaderNameEq(hdrs[i].name, "Content-Length");
      hide HeaderName.NameEq;
      if !isLength {
        kept := kept + [hdrs[i]];
      }
    }
    assert kept + [] == kept;
  }

  /** write_chunked. */
  method WriteChunked(conn: Channel, data: string)
    modifies conn`writes
    ensures conn.Wire() == old(conn.Wire()) + data
  {
    var offset := 0;
    while offset < |data|
      invariant offset <= |data| && conn.Wire() == old(conn.Wire()) + data[..offset]
    {
      var chunk := Min(|data| - offset, BODY_CHUNK_SIZE);
      conn.WriteData(data[offset..offset + chunk]);
      assert data[..offset + chunk] == data[..offset] + data[offset..offset + chunk];
      offset := offset + chunk;
    }
    assert data[..offset] == data;
  }

  // ----- The filter -----

  /** HttpFilterContext with its module's LsWasmContext, and the HttpData they work on. */
  class Filter {
    const context: Context
    const loaded: bool                  // the module's RequestScope could be created
    const script: Script                // what the module does in its callbacks
    var position: nat                   // how many callbacks have passed
    var captured: Option<Local>         // the local response of the context
    var headerMap: seq<Header>          // the response header map of the context
    var local: Option<Local>            // the local response of the HttpData
    var responseHeaders: seq<Header>

    /** Between callbacks: what the callbacks so far have done has been taken over. */
    ghost predicate Valid()
      reads this, context, context.sink, context.sink.conn
    {
      && context.Valid() && context.calls == StreamCalls(script, position)
      && (!loaded ==> script == [])
      && captured == local && IsLocal(script, position, local)
    }

    constructor (conn: Channel, loaded: bool, script: Script)
      requires conn.Wire() == ""
      ensures Valid() && fresh(context) && fresh(context.sink) && context.sink.conn == conn
      ensures position == 0 && local == None && this.script == if loaded then script else []
    {
      var sink := new Sink(conn);
      context := new Context(sink);
      this.loaded, this.script := loaded, if loaded then script else [];
      position, captured, headerMap, local, responseHeaders := 0, None, [], None, [];
    }

    /** One host call. */
    method Serve(c: HostCall)
      requires context.Valid()
      modifies this`captured, this`headerMap, context, context.sink, context.sink.conn`writes
      ensures context.Valid() && context.calls == old(context.calls) + if c.Stream? then [c.call] else []
      ensures captured == if c.SendLocal? then Some(c.local) else old(captured)
      ensures headerMap == if c.PutHeaders? then c.headers else old(headerMap)
    {
      match c
      case SendLocal(l) => captured := Some(l);
      case PutHeaders(headers) => headerMap := headers;
      case Stream(call) =>
        hide Context.Valid;
        var r := context.Perform(call);
    }

    /** One callback of the module. */
    method RunFilter()
      requires context.Valid() && captured.None?
      modifies this`captured, this`headerMap, context, context.sink, context.sink.conn`writes
      ensures context.Valid() && context.calls == old(context.calls) + StreamsIn(Made(script, position))
      ensures captured == LocalIn(Made(script, position))
      ensures headerMap == PutIn(Made(script, position), old(headerMap))
    {
      hide Context.Valid;
      var calls := Made(script, position);
      for i := 0 to |calls|
        invariant context.Valid() && context.calls == old(context.calls) + StreamsIn(calls[..i])
        invariant captured == LocalIn(calls[..i]) && headerMap == PutIn(calls[..i], old(headerMap))
      {
        Serve(calls[i]);
        assert calls[..i + 1][..i] == calls[..i];
      }
      assert calls[..|calls|] == calls;
    }

    /** checkLocalResponse. */
    method CheckLocalResponse()
      modifies this`local
      ensures local == if captured.Some? then captured else old(local)
    {
      if captured.Some? {
        local := captured;
      }
    }

    /**
     onRequestHeaders, onRequestBody, onRequestTrailers: a local response stops all callbacks,
     and stays as it is.
     */
    method RequestCallback()
      requires Valid()
      modifies this`captured, this`headerMap, this`local, this`position,
               context, context.sink, context.sink.conn`writes
      ensures Valid() && position == old(position) + if old(local).None? then 1 else 0
      ensures old(local).Some? ==> local == old(local)
    {
      if local.Some? {
        return;
      }
      hide Context.Valid, StreamsIn, LocalIn, PutIn;
      NothingMade(loaded, script, position);
      if loaded {
        RunFilter();
        CheckLocalResponse();
      }
      NextCallback(script, position);
      position := position + 1;
    }

    /** The default response headers. */
    method PopulateHeaders()
      requires Valid()
      modifies this`responseHeaders
      ensures Valid() && responseHeaders == [PLAIN_TEXT, CLOSING]
    {
      hide Context.Valid, StreamCalls, IsLocal;
      responseHeaders := [PLAIN_TEXT, CLOSING];
    }

    /** onResponseHeaders, onResponseBody, onResponseTrailers. */
    method ResponseCallback()
      requires Valid()
      modifies this`captured, this`headerMap, this`local, this`position, this`responseHeaders,
               context, context.sink, context.sink.conn`writes
      ensures Valid() && position == old(position) + if old(local).None? then 1 else 0
      ensures old(local).Some? ==> local == old(local)
      ensures responseHeaders == if old(local).None? then PutIn(Made(script, old(position)), old(responseHeaders))
                                 else old(responseHeaders)
    {
      if local.Some? {
        return;
      }
      hide Context.Valid, StreamsIn, LocalIn, PutIn;
      NothingMade(loaded, script, position);
      if loaded {
        headerMap := responseHeaders;
        RunFilter();
        responseHeaders := headerMap;
        CheckLocalResponse();
      }
      NextCallback(script, position);
      position := position + 1;
    }

    /** The body of handle_request: false if it could not be read. */
    method RequestBody(contentLength: nat, prefix: string, results: seq<ReadResult>) returns (ok: bool)
      requires Valid() && local.None?
      modifies this`captured, this`headerMap, this`local, this`position,
               context, context.sink, context.sink.conn`writes
      ensures Valid()
      ensures var (chunks, complete) := BodyPlan(contentLength, prefix, results);
        && position <= old(position) + chunks && (local.Some? ==> ok)
        && (local.None? ==> position == old(position) + chunks && ok == complete)
    {
      hide Valid, ChunksFrom;
      if contentLength == 0 {
        return true;
      }
      if prefix != "" {
        RequestCallback();
      }
      ok := ReadAll(contentLength, |prefix|, results);
    }

    /** Its loop. */
    method ReadAll(contentLength: nat, consumed: nat, results: seq<ReadResult>) returns (ok: bool)
      requires Valid()
      modifies this`captured, this`headerMap, this`local, this`position,
               context, context.sink, context.sink.conn`writes
      ensures Valid()
      ensures var (chunks, complete) := ChunksFrom(contentLength, consumed, results, 0);
        && position <= old(position) + chunks && (local.Some? ==> ok)
        && (local.None? ==> position == old(position) + chunks && ok == complete)
    {
      hide Valid;
      var bodyConsumed, k := consumed, 0;
      ghost var all := ChunksFrom(contentLength, consumed, results, 0);
      while bodyConsumed < contentLength && local.None?
        invariant Valid() && ChunksFrom(contentLength, bodyConsumed, results, k).1 == all.1
        invariant position <= old(position) + all.0
        invariant local.None? ==>
                    position + ChunksFrom(contentLength, bodyConsumed, results, k).0 == old(position) + all.0
        decreases contentLength - bodyConsumed
      {
        var got := ReadBodyChunk(results, k, Wanted(contentLength, bodyConsumed));
        if got.None? {
          return false;
        }
        bodyConsumed, k := bodyConsumed + |got.value|, k + 1;
        RequestCallback();
      }
      ok := true;
    }
  }

  /** readBodyChunk, whose k-th result is given: no data is an error whatever the status. */
  method ReadBodyChunk(results: seq<ReadResult>, k: nat, want: nat) returns (r: Option<string>)
    requires want > 0
    ensures r == Chunk(results, k, want)
  {
    if k >= |results| {
      return None;
    }
    var got := results[k];
    if got.Error? || got.Truncated? || got.data == "" {
      return None;
    }
    r := Some(if |got.data| > want then got.data[..want] else got.data);
  }

  /** The local response in force after n callbacks is that of the last one, and no earlier one sent any. */
  ghost predicate IsLocal(script: Script, n: nat, local: Option<Local>) {
    match FirstLocal(script, n)
    case None => local.None?
    case Some(k) => k + 1 == n && local == LocalIn(Made(script, k))
  }

  lemma NextCallback(script: Script, n: nat)
    requires IsLocal(script, n, None)
    ensures IsLocal(script, n + 1, LocalIn(Made(script, n)))
    ensures StreamCalls(script, n + 1) == StreamCalls(script, n) + StreamsIn(Made(script, n))
  {
    hide StreamsIn, LocalIn;
  }

  lemma NothingMade(loaded: bool, script: Script, n: nat)
    requires !loaded ==> script == []
    ensures !loaded ==> Made(script, n) == [] && StreamsIn([]) == [] && LocalIn([]) == None
    ensures !loaded ==> forall before :: PutIn([], before) == before
  {
  }

  // ----- The response -----

  /** The text an outcome has left in the channel. */
  ghost predicate Delivered(o: Outcome, wire: string) {
    match o
    case Failed(calls) => wire == StreamOf(calls).s.wire
    case LocalReply(l, calls) => wire == StreamOf(calls).s.wire + LocalText(l)
    case Streamed(calls) => StreamOf(calls).s.state == Finished && wire == StreamOf(calls).s.wire
    case Plain(headers, body) => wire == Head(200, Strip(headers) + [LengthHeader(body)]) + body
  }

  /**
   The status is final and the fields are well-formed; there is no body where there must be
   none, and else no coding beside the length.
   */
  predicate Sendable(request: Request, status: nat, headers: seq<Header>, body: string) {
    && IsFinal(status) && AreFields(headers)
    && if Bodiless(request, status) then body == "" else Named(headers, "Transfer-Encoding") == []
  }

  /** What a filter must keep to, because the host does not check it. */
  predicate Proper(request: Request, o: Outcome) {
    match o
    case Failed(_) => false
    case LocalReply(l, calls) => !Mixed(o) && Sendable(request, l.code, Kept(l.headers), l.body)
    case Streamed(calls) =>
      var head := StreamOf(calls).head;
      |head| == 1 && Streamable(request, head[0].0, head[0].1)
    case Plain(headers, body) => Sendable(request, 200, Strip(headers), body)
  }

  /** The response an outcome stands for. */
  function ResponseOf(o: Outcome): Response
    requires !o.Failed?
  {
    match o
    case LocalReply(l, _) => Response(StatusLine(l.code), LocalHeaders(l), l.body)
    case Streamed(calls) => StreamedResponse(StreamOf(calls))
    case Plain(headers, body) => Response(StatusLine(200), Strip(headers) + [LengthHeader(body)], body)
  }

  // ----- Reading the responses -----

  lemma {:induction false} NoneNamed(headers: seq<Header>, name: string)
    requires forall h :: h in headers ==> !HeaderName.NameEq(h.name, name)
    ensures Named(headers, name) == []
  {
    if headers != [] {
      assert headers[0] in headers;
      NoneNamed(headers[1..], name);
    }
  }

  lemma {:induction false} KeptElements(headers: seq<Header>)
    ensures forall h :: h in Kept(headers) ==> h in headers && !IsReplaced(h)
  {
    if headers != [] {
      KeptElements(headers[1..]);
      hide IsReplaced;
    }
  }

  lemma {:induction false} StripElements(headers: seq<Header>)
    ensures forall h :: h in Strip(headers) ==> h in headers && !IsLength(h)
  {
    if headers != [] {
      StripElements(headers[1..]);
      hide IsLength;
    }
  }

  /** The headers announce the length of the body once; their codings are those given, and so are their faults. */
  predicate LengthFraming(headers: seq<Header>, given: seq<Header>, body: string) {
    && Named(headers, "Content-Length") == [Numeral(|body|, 10)]
    && Named(headers, "Transfer-Encoding") == Named(given, "Transfer-Encoding")
    && (Clean(headers) <==> Clean(given)) && (AreFields(headers) <==> AreFields(given))
  }

  /** Headers without a length, and then the length. */
  lemma LengthAppended(headers: seq<Header>, body: string)
    requires forall h :: h in headers ==> !IsLength(h)
    ensures LengthFraming(headers + [LengthHeader(body)], headers, body)
  {
    var h := LengthHeader(body);
    LengthIsField(body);
    FieldsOfBoth(headers, [h]);
    hide AreFields, Clean, Numeral;
    NoneNamed(headers, "Content-Length");
    NamedConcat(headers, [h], "Content-Length");
    NamedConcat(headers, [h], "Transfer-Encoding");
    SingleNamed(h, "Content-Length");
    SingleNamed(h, "Transfer-Encoding");
    SameName("Content-Length");
    assert !HeaderName.NameEq("Content-Length", "Transfer-Encoding") by {
      assert |"Transfer-Encoding"| == 17 && |"Content-Length"| == 14;
    }
  }

  lemma LengthIsField(body: string)
    ensures AreFields([LengthHeader(body)]) && Clean([LengthHeader(body)])
  {
    var h := LengthHeader(body);
    NumeralSize(|body|);
    hide Numeral;
    assert IsWord(h.name) && IsWord(h.value);
    WordIsToken(h.name);
    WordIsToken(h.value);
    hide IsToken, IsValue, IsWord, Clean;
    FieldsAreClean([LengthHeader(body)]);
  }

  lemma FieldsOfBoth(x: seq<Header>, y: seq<Header>)
    ensures AreFields(x + y) <==> AreFields(x) && AreFields(y)
    ensures Clean(x + y) <==> Clean(x) && Clean(y)
  {
    hide IsField, CleanHeader;
    forall h | h in x || h in y
      ensures h in x + y
    {
    }
  }

  /** A local response announces its length once, whatever headers the filter adds. */
  lemma LocalFraming(l: Local)
    ensures LengthFraming(LocalHeaders(l), Kept(l.headers), l.body)
  {
    KeptElements(l.headers);
    var headers := LOCAL_HEADERS + Kept(l.headers);
    forall h | h in headers
      ensures !IsLength(h)
    {
      if h in LOCAL_HEADERS {
        OwnHeader(h);
      }
    }
    OwnCodings();
    OwnFields();
    FieldsAreClean(LOCAL_HEADERS);
    NamedConcat(LOCAL_HEADERS, Kept(l.headers), "Transfer-Encoding");
    FieldsOfBoth(LOCAL_HEADERS, Kept(l.headers));
    hide Clean, Kept, HeaderName.NameEq, AreFields;
    LengthAppended(headers, l.body);
  }

  lemma OwnFields()
    ensures AreFields(LOCAL_HEADERS)
  {
    PlainTextIsField();
    PoweredByIsField();
    ClosingIsField();
    hide IsField;
  }

  lemma PlainTextIsField()
    ensures IsField(PLAIN_TEXT)
  {
    assert IsWord(PLAIN_TEXT.name);
    WordIsToken(PLAIN_TEXT.name);
    hide IsToken, IsWord;
  }

  lemma PoweredByIsField()
    ensures IsField(POWERED_BY)
  {
    assert IsWord(POWERED_BY.name);
    WordIsToken(POWERED_BY.name);
    hide IsToken, IsWord;
  }

  lemma ClosingIsField()
    ensures IsField(CLOSING)
  {
    assert IsWord(CLOSING.name) && IsWord(CLOSING.value);
    WordIsToken(CLOSING.name);
    WordIsToken(CLOSING.value);
    hide IsToken, IsValue, IsWord;
  }

  lemma OwnCodings()
    ensures Named(LOCAL_HEADERS, "Transfer-Encoding") == []
  {
    forall h | h in LOCAL_HEADERS
      ensures !HeaderName.NameEq(h.name, "Transfer-Encoding")
    {
      OwnHeader(h);
    }
    NoneNamed(LOCAL_HEADERS, "Transfer-Encoding");
  }

  lemma ShortName(h: Header)
    requires |h.name| < 14
    ensures !IsLength(h) && !IsCoding(h)
  {
    assert |"Transfer-Encoding"| == 17 && |"Content-Length"| == 14;
  }

  lemma OwnHeader(h: Header)
    requires h in LOCAL_HEADERS
    ensures !IsLength(h) && !IsCoding(h)
  {
    assert |h.name| < 14;
    ShortName(h);
    hide IsLength, IsCoding;
  }

  /** The host gives this header itself. */
  predicate IsOwn(name: string) {
    || HeaderName.NameEq(name, "Content-Length") || HeaderName.NameEq(name, "Content-Type")
    || HeaderName.NameEq(name, "Connection")
  }

  lemma {:induction false} KeptValues(headers: seq<Header>, name: string)
    ensures Named(Kept(headers), name) == if IsOwn(name) then [] else Named(headers, name)
  {
    if headers != [] {
      var h, rest := headers[0], headers[1..];
      KeptValues(rest, name);
      NamedConcat([h], Kept(rest), name);
      SingleNamed(h, name);
      if HeaderName.NameEq(h.name, name) {
        NameEqVia(h.name, name, "Content-Length");
        NameEqVia(h.name, name, "Content-Type");
        NameEqVia(h.name, name, "Connection");
      }
      hide HeaderName.NameEq;
      assert [] + Kept(rest) == Kept(rest);
      assert [] + Named(Kept(rest), name) == Named(Kept(rest), name);
    }
  }

  /** The value of a header, if it has this name. */
  function ValueUnder(h: Header, name: string): seq<string> {
    if HeaderName.NameEq(h.name, name) then [h.value] else []
  }

  /** What a local response has under each name: the values of the host, and those given under any other name. */
  lemma LocalValues(l: Local, name: string)
    ensures Named(LocalHeaders(l), name)
            == ValueUnder(Header("Content-Type", "text/plain"), name)
               + ValueUnder(Header("X-Powered-By", "lswasm/proxy-wasm"), name)
               + ValueUnder(Header("Connection", "close"), name)
               + (if IsOwn(name) then [] else Named(l.headers, name))
               + ValueUnder(Header("Content-Length", Numeral(|l.body|, 10)), name)
  {
    KeptValues(l.headers, name);
    SingleNamed(PLAIN_TEXT, name);
    SingleNamed(POWERED_BY, name);
    SingleNamed(CLOSING, name);
    SingleNamed(LengthHeader(l.body), name);
    NamedConcat(LOCAL_HEADERS + Kept(l.headers), [LengthHeader(l.body)], name);
    NamedConcat(LOCAL_HEADERS, Kept(l.headers), name);
    NamedConcat([PLAIN_TEXT, POWERED_BY], [CLOSING], name);
    NamedConcat([PLAIN_TEXT], [POWERED_BY], name);
    hide Named, HeaderName.NameEq, Kept, IsOwn, Numeral;
    assert LOCAL_HEADERS == [PLAIN_TEXT] + [POWERED_BY] + [CLOSING];
    assert [PLAIN_TEXT, POWERED_BY] == [PLAIN_TEXT] + [POWERED_BY];
  }

  /** What the default response has under each name: the values left by the filter, but the right length. */
  lemma PlainValues(headers: seq<Header>, body: string, name: string)
    ensures Named(Strip(headers) + [LengthHeader(body)], name)
            == (if HeaderName.NameEq(name, "Content-Length") then [] else Named(headers, name))
               + ValueUnder(Header("Content-Length", Numeral(|body|, 10)), name)
  {
    StripValues(headers, name);
    NamedConcat(Strip(headers), [LengthHeader(body)], name);
    SingleNamed(LengthHeader(body), name);
  }

  /** A Content-Length left by the filter is replaced by the right one. */
  lemma PlainFraming(headers: seq<Header>, body: string)
    ensures LengthFraming(Strip(headers) + [LengthHeader(body)], Strip(headers), body)
  {
    StripElements(headers);
    LengthAppended(Strip(headers), body);
  }

  /**
   A response with a length is one response exactly if it is sendable with the headers it was
   made of; if not, it is none at all, provided that its head can be read.
   */
  lemma LengthIsOneResponse(request: Request, status: nat, headers: seq<Header>, given: seq<Header>, body: string)
    requires LengthFraming(headers, given, body)
    ensures var read := ReadResponse(request, Head(status, headers) + body);
      && (read == Some(Response(StatusLine(status), headers, body)) <==> Sendable(request, status, given, body))
      && (Clean(given) && !Sendable(request, status, given, body) ==> read == None)
  {
    if Clean(given) {
      HeadRoundTrip(status, headers, body);
      StatusRoundTrip(status);
      NumberRoundTrip(|body|, 10);
      hide Numeral, NumberOf, Head, StatusLine, ReadHead, Named, ReadStatus, Bodiless, AreFields, Clean;
    } else {
      var s := Head(status, headers) + body;
      hide ReadResponse, Clean, AreFields, Head, Numeral, Named, Bodiless;
      if ReadResponse(request, s).Some? {
        ResponseText(request, s);
      }
      if AreFields(given) {
        FieldsAreClean(given);
      }
    }
  }

  lemma {:induction false} NotANumber(s: string)
    requires 'H' in s
    ensures NumberOf(s, 16) == None
  {
    var n := |s| - 1;
    if s[n] != 'H' {
      assert s == s[..n] + [s[n]];
      NotANumber(s[..n]);
    }
  }

  /** A head is no chunk. */
  lemma HeadIsNoChunk(status: nat, headers: seq<Header>, body: string)
    ensures ReadChunks(Head(status, headers) + body) == Malformed && Head(status, headers) + body != ""
  {
    var line, rest := StatusLine(status), FieldLines(headers) + CRLF + body;
    StatusLineClean(status);
    assert line[0] == 'H';
    NotANumber(line);
    hide StatusLine, FieldLines, NumberOf;
    assert Head(status, headers) + body == line + CRLF + rest;
    LineRoundTrip(line, rest);
  }

  /** Text behind a started stream makes it no response. */
  lemma MixedIsNoResponse(request: Request, calls: seq<Call>, tail: string)
    requires StreamOf(calls).s.state != Idle && HeadClean(StreamOf(calls))
    requires tail != "" && ReadChunks(tail) == Malformed
    ensures ReadResponse(request, StreamOf(calls).s.wire + tail) == None
  {
    StartedText(calls);
    var t := StreamOf(calls);
    var (status, headers) := t.head[0];
    hide FollowAll, ChunkedFraming, ReadResponse, ReadChunks, Head, Clean, Normalized, Frames;
    var end := EndOf(t.s.state) + tail;
    Regroup(Head(status, Normalized(headers)), Frames(t.data), EndOf(t.s.state), tail);
    StreamTailIsNoResponse(request, status, Normalized(headers), t.data, end, tail);
  }

  lemma Regroup(w: string, x: string, y: string, z: string)
    ensures w + (x + y) + z == w + (x + (y + z))
  {
  }

  lemma StreamTailIsNoResponse(request: Request, status: nat, headers: seq<Header>, data: seq<string>,
                               end: string, tail: string)
    requires Clean(headers) && ChunkedFraming(headers) && "" !in data
    requires tail != "" && ReadChunks(tail) == Malformed && (end == TERMINATOR + tail || end == "" + tail)
    ensures ReadResponse(request, Head(status, headers) + (Frames(data) + end)) == None
  {
    hide ReadHead, ReadChunks, StatusLine, Head, Clean, Frames, ReadStatus, Bodiless, AreFields, KnowsCodings;
    HeadRoundTrip(status, headers, Frames(data) + end);
    FramesRead(data, end);
    TerminatorRead(tail);
    assert "" + tail == tail;
    assert Frames(data) + end != "";
  }

  /** The heads that have been sent can be read back. */
  predicate Readable(o: Outcome)
    requires !o.Failed?
  {
    match o
    case LocalReply(l, calls) => Clean(Kept(l.headers)) && HeadClean(StreamOf(calls))
    case Streamed(calls) => HeadClean(StreamOf(calls))
    case Plain(headers, _) => Clean(Strip(headers))
  }

  /**
   What is sent is the response that the outcome stands for exactly if the filter keeps to
   what it must; if it does not, it is no response at all, provided that it can be read.
   */
  predicate Answers(request: Request, o: Outcome, wire: string)
    requires !o.Failed?
  {
    && (ReadResponse(request, wire) == Some(ResponseOf(o)) <==> Proper(request, o))
    && (Readable(o) && !Proper(request, o) ==> ReadResponse(request, wire) == None)
  }

  lemma OneResponseIff(request: Request, o: Outcome, wire: string)
    requires !o.Failed? && Delivered(o, wire)
    ensures Answers(request, o, wire)
  {
    match o
    case LocalReply(l, calls) =>
      if Mixed(o) {
        MixedIsNotTheLocal(request, l, calls);
        HeadIsNoChunk(l.code, LocalHeaders(l), l.body);
        hide FollowAll, ReadChunks, ReadResponse, Head, LocalHeaders, Sendable, HeadClean, Clean;
        if HeadClean(StreamOf(calls)) {
          MixedIsNoResponse(request, calls, LocalText(l));
        }
      } else {
        LocalFraming(l);
        AlwaysFaithful(calls);
        LengthIsOneResponse(request, l.code, LocalHeaders(l), Kept(l.headers), l.body);
        hide FollowAll, LengthFraming, ReadResponse, Head, LocalHeaders, Sendable, Clean, HeadClean;
        assert "" + LocalText(l) == LocalText(l);
      }
    case Streamed(calls) =>
      FinishedIsOneResponse(request, calls);
      hide FollowAll, ReadResponse, Streamable, HeadClean;
    case Plain(headers, body) =>
      PlainFraming(headers, body);
      LengthIsOneResponse(request, 200, Strip(headers) + [LengthHeader(body)], Strip(headers), body);
      hide Sendable, Clean, ReadResponse, Head, LengthFraming;
  }

  /** A local response behind a started stream is not read as such, whatever the stream is. */
  lemma MixedIsNotTheLocal(request: Request, l: Local, calls: seq<Call>)
    requires StreamOf(calls).s.state != Idle
    ensures ReadResponse(request, StreamOf(calls).s.wire + LocalText(l))
            != Some(Response(StatusLine(l.code), LocalHeaders(l), l.body))
  {
    StartedText(calls);
    LocalFraming(l);
    var started := StreamOf(calls).s.wire;
    assert started != "";
    hide ReadResponse, FollowAll, LocalHeaders, Named, FieldLines, StatusLine, Numeral, AreFields, Clean;
    if ReadResponse(request, started + LocalText(l)) == Some(Response(StatusLine(l.code), LocalHeaders(l), l.body)) {
      ResponseText(request, started + LocalText(l));
    }
  }

  const GET := Request("GET", "HTTP/1.1")
  const HEAD := Request("HEAD", "HTTP/1.1")

  /** A local response of status 204 with a body is no response, although nothing is mixed. */
  lemma NoContentExample(wire: string)
    requires wire == LocalText(Local(204, [], "x"))
    ensures var o := LocalReply(Local(204, [], "x"), []);
      Delivered(o, wire) && !Mixed(o) && ReadResponse(GET, wire) == None
  {
    hide LocalText;
    var o := LocalReply(Local(204, [], "x"), []);
    assert FollowAll(BEGIN, []) == BEGIN;
    assert "" + wire == wire;
    OneResponseIff(GET, o, wire);
  }

  /** Neither is one with a body to a HEAD request. */
  lemma HeadExample(wire: string)
    requires wire == LocalText(Local(200, [], "x"))
    ensures var o := LocalReply(Local(200, [], "x"), []);
      && Delivered(o, wire) && !Mixed(o)
      && ReadResponse(HEAD, wire) == None && ReadResponse(GET, wire).Some?
  {
    hide LocalText;
    var o := LocalReply(Local(200, [], "x"), []);
    assert FollowAll(BEGIN, []) == BEGIN;
    assert "" + wire == wire;
    OneResponseIff(HEAD, o, wire);
    OneResponseIff(GET, o, wire);
  }

  /** Nor is a stream of status 304, which always ends in a terminator. */
  lemma NotModifiedExample(wire: string)
    requires wire == StreamOf([SendHeaders(304, []), Finish]).s.wire
    ensures var o := Streamed([SendHeaders(304, []), Finish]);
      Delivered(o, wire) && !Mixed(o) && ReadResponse(GET, wire) == None
  {
    var calls := [SendHeaders(304, []), Finish];
    TwoCalls(calls[0], calls[1]);
    NoHeaders();
    hide Head, Normalized, FollowAll, Clean, ReadResponse;
    OneResponseIff(GET, Streamed(calls), wire);
  }

  lemma TwoCalls(x: Call, y: Call)
    ensures StreamOf([x, y]) == Follow(Follow(BEGIN, x), y)
  {
    assert [x, y][..1] == [x] && [x][..0] == [];
    assert FollowAll(BEGIN, []) == BEGIN;
    assert FollowAll(BEGIN, [x]) == Follow(BEGIN, x);
    hide Follow;
  }

  lemma OneCall(x: Call)
    ensures StreamOf([x]) == Follow(BEGIN, x)
  {
    assert [x][..0] == [];
    assert FollowAll(BEGIN, []) == BEGIN;
    hide Follow;
  }

  lemma NoHeaders()
    ensures Clean(Normalized([])) && Clean(Kept([])) && !Conflicts([])
  {
    NormalizedFields([]);
    hide IsField, Clean, Normalized;
    FieldsAreClean(Normalized([]));
    FieldsAreClean([]);
  }

  /** Mixing is possible: a stream begun in a callback that then sends a local response. */
  lemma MixedExample(wire: string)
    requires wire == StreamOf([SendHeaders(200, [])]).s.wire + LocalText(Local(403, [], ""))
    ensures var o := LocalReply(Local(403, [], ""), [SendHeaders(200, [])]);
      Delivered(o, wire) && Mixed(o) && ReadResponse(GET, wire) == None
  {
    var calls := [SendHeaders(200, [])];
    OneCall(calls[0]);
    NoHeaders();
    hide Head, Normalized, LocalText, FollowAll, Clean, Kept, ReadResponse;
    OneResponseIff(GET, LocalReply(Local(403, [], ""), calls), wire);
  }

  /** An interim status, a coding behind a blank in its name, a name that is empty. */
  const FAULTY := [Local(100, [], ""), Local(200, [Header("Transfer-Encoding ", "chunked")], "x"),
                   Local(200, [Header("", "v")], "x")]

  lemma FaultyExamples(k: nat)
    requires k < |FAULTY|
    ensures ReadResponse(GET, LocalText(FAULTY[k])) == None
  {
    var l := FAULTY[k];
    LocalFraming(l);
    FaultyHeaders(l);
    hide Head, LocalHeaders, Kept, Clean, LengthFraming, ReadResponse;
    LengthIsOneResponse(GET, l.code, LocalHeaders(l), Kept(l.headers), l.body);
  }

  lemma FaultyHeaders(l: Local)
    requires l in FAULTY
    ensures Clean(Kept(l.headers)) && (l.code == 100 || !AreFields(Kept(l.headers)))
  {
    if l.headers == [] {
      NoHeaders();
    } else {
      FaultyHeader(l.headers[0]);
      hide IsReplaced, IsField, CleanHeader;
      assert l.headers[1..] == [] && Kept(l.headers) == [l.headers[0]];
    }
  }

  lemma FaultyHeader(h: Header)
    requires h == Header("Transfer-Encoding ", "chunked") || h == Header("", "v")
    ensures !IsReplaced(h) && !IsField(h) && CleanHeader(h)
  {
    FaultyClean(h);
    OtherName(h.name);
    hide HeaderName.NameEq, ValueChar, CleanHeader;
    if h.name != "" {
      assert h.name[17] == ' ';
      assert ' ' in h.name && !TokenChar(' ');
    }
  }

  lemma FaultyClean(h: Header)
    requires h == Header("Transfer-Encoding ", "chunked") || h == Header("", "v")
    ensures CleanHeader(h)
  {
    hide OneLine;
    assert OneLine(h.name) && OneLine(h.value) by {
      SmallIsOneLine(h.name);
      SmallIsOneLine(h.value);
    }
  }

  lemma SmallIsOneLine(s: string)
    requires s in ["Transfer-Encoding ", "chunked", "", "v"]
    ensures OneLine(s)
  {
  }

  lemma OtherName(name: string)
    requires |name| == 18 || |name| == 0
    ensures !HeaderName.NameEq(name, "Content-Length")
    ensures !HeaderName.NameEq(name, "Content-Type")
    ensures !HeaderName.NameEq(name, "Connection")
  {
  }

  // ----- handle_request -----

  /** A local response: build_local_response, write_chunked, finish. */
  method ReplyLocally(conn: Channel, filter: Filter) returns (ghost o: Outcome)
    requires filter.Valid() && filter.local.Some? && filter.context.sink.conn == conn && conn.ends == []
    modifies conn
    ensures conn.ends == [FinishCalled] && Delivered(o, conn.Wire())
    ensures o == LocalReply(filter.local.value, filter.context.calls)
  {
    hide LocalText;
    o := LocalReply(filter.local.value, filter.context.calls);
    var response := BuildLocalResponse(filter.local.value);
    WriteChunked(conn, response);
    conn.Finish();
  }

  /** Nothing more is said to the client. */
  method Fail(conn: Channel, filter: Filter) returns (ghost o: Outcome)
    requires filter.Valid() && filter.context.sink.conn == conn && conn.ends == []
    modifies conn`ends
    ensures conn.ends == [ErrorSet] && Delivered(o, conn.Wire()) && o == Failed(filter.context.calls)
  {
    o := Failed(filter.context.calls);
    conn.SetError();
  }

  /** The end of a response that the filter has streamed, or only begun to stream. */
  method EndStream(conn: Channel, filter: Filter) returns (ghost o: Outcome)
    requires filter.Valid() && filter.context.sink.conn == conn && conn.ends == []
    modifies conn`ends
    ensures conn.ends == [EndFor(o)] && Delivered(o, conn.Wire()) && o == Ended(filter.context.calls)
  {
    if !filter.context.IsStreamingFinished() {
      o := Fail(conn, filter);
      return;
    }
    conn.Finish();
    o := Streamed(filter.context.calls);
  }

  /** How the worker ends a request with this outcome. */
  function EndFor(o: Outcome): End {
    if o.Failed? then ErrorSet else FinishCalled
  }

  /** The three callbacks of the response phase. */
  method RunResponsePhase(filter: Filter)
    requires filter.Valid() && filter.local.None?
    modifies filter, filter.context, filter.context.sink, filter.context.sink.conn`writes
    ensures filter.Valid() && old(filter.position) < filter.position <= old(filter.position) + 3
    ensures filter.local.None? ==>
      && filter.position == old(filter.position) + 3
      && filter.responseHeaders == HeadersAfter(filter.script, old(filter.position), 3, [PLAIN_TEXT, CLOSING])
  {
    hide Filter.Valid, PutIn, HeadersAfter;
    HeadersUnfold(filter.script, filter.position, [PLAIN_TEXT, CLOSING]);
    filter.PopulateHeaders();
    filter.ResponseCallback();  // onResponseHeaders
    filter.ResponseCallback();  // onResponseBody
    filter.ResponseCallback();  // onResponseTrailers
  }

  lemma HeadersUnfold(script: Script, n: nat, before: seq<Header>)
    ensures HeadersAfter(script, n, 3, before)
            == PutIn(Made(script, n + 2), PutIn(Made(script, n + 1), PutIn(Made(script, n), before)))
  {
    hide PutIn;
    assert HeadersAfter(script, n, 1, before) == PutIn(Made(script, n), before);
    assert HeadersAfter(script, n, 2, before) == PutIn(Made(script, n + 1), HeadersAfter(script, n, 1, before));
  }

  /** The response phases and the response behind them. */
  method Respond(conn: Channel, filter: Filter, responseBody: string) returns (ghost o: Outcome)
    requires filter.Valid() && filter.context.sink.conn == conn && conn.ends == []
    requires filter.local.None? && !filter.context.HasStreamingResponse()
    modifies conn, filter, filter.context, filter.context.sink
    ensures conn.ends == [EndFor(o)] && Delivered(o, conn.Wire())
    ensures o == ResponsePhase(filter.script, old(filter.position), responseBody)
  {
    RunResponsePhase(filter);
    PhaseIs(filter, old(filter.position), responseBody);
    hide Filter.Valid, ResponsePhase, Delivered;
    if filter.local.Some? {
      if filter.context.HasStreamingResponse() {
        o := Fail(conn, filter);
        return;
      }
      o := ReplyLocally(conn, filter);
      return;
    }
    if filter.context.HasStreamingResponse() {
      o := EndStream(conn, filter);
      return;
    }
    IdleIsSilent(filter);
    o := ReplyPlainly(conn, filter.responseHeaders, responseBody);
  }

  /** The outcome of the response phase, read off the filter behind it. */
  lemma PhaseIs(filter: Filter, n: nat, responseBody: string)
    requires filter.Valid() && FirstLocal(filter.script, n).None? && n < filter.position <= n + 3
    requires filter.local.None? ==> filter.position == n + 3
    ensures ResponsePhase(filter.script, n, responseBody) ==
            if filter.local.Some? then
              if filter.context.HasStreamingResponse() then Failed(filter.context.calls)
              else LocalReply(filter.local.value, filter.context.calls)
            else if filter.context.HasStreamingResponse() then Ended(filter.context.calls)
            else Plain(HeadersAfter(filter.script, n, 3, [PLAIN_TEXT, CLOSING]), responseBody)
  {
    hide HeadersAfter, LocalIn, FollowAll, FirstLocal, StreamCalls, Ended;
    LocalIsFirst(filter.script, filter.position, n + 3);
    assert filter.context.calls == StreamCalls(filter.script, filter.position);
    assert IsLocal(filter.script, filter.position, filter.local);
    StateIs(filter.context);
    hide Filter.Valid, Context.Valid;
  }

  lemma StateIs(context: Context)
    requires context.Valid()
    ensures context.HasStreamingResponse() <==> StreamOf(context.calls).s.state != Idle
  {
    hide FollowAll;
  }

  /** A local response in force is that of the first callback that sent one, and that was the last one. */
  lemma LocalIsFirst(script: Script, position: nat, n: nat)
    requires position <= n
    ensures FirstLocal(script, position).Some? ==> FirstLocal(script, n) == FirstLocal(script, position)
  {
  }

  method ReplyPlainly(conn: Channel, headers: seq<Header>, responseBody: string) returns (ghost o: Outcome)
    requires conn.Wire() == "" && conn.ends == []
    modifies conn
    ensures conn.ends == [FinishCalled] && Delivered(o, conn.Wire()) && o == Plain(headers, responseBody)
  {
    hide Strip, Head;
    o := Plain(headers, responseBody);
    var hdrs := EraseLength(headers);
    hdrs := hdrs + [LengthHeader(responseBody)];
    var hdrStr := SerializeHeaders(200, hdrs);
    conn.WriteData(hdrStr);
    WriteChunked(conn, responseBody);
    conn.Finish();
  }

  lemma IdleIsSilent(filter: Filter)
    requires filter.Valid() && !filter.context.HasStreamingResponse()
    ensures filter.context.sink.conn.Wire() == ""
  {
    AlwaysFaithful(filter.context.calls);
    hide FollowAll;
  }

  /**
   handle_request on a request that has been parsed, or could not be, with a filter that does
   what its script says: what it sends and how it ends follow from the script and the reads of
   the body alone.
   */
  method HandleRequest(conn: Channel, request: Option<Request>, loaded: bool, script: Script,
                       contentLength: nat, prefix: string, results: seq<ReadResult>, responseBody: string)
    returns (ghost o: Outcome)
    requires conn.writes == [] && conn.ends == [] && |prefix| <= contentLength
    modifies conn
    ensures o == OutcomeOf(request, loaded, script, contentLength, prefix, results, responseBody)
    ensures conn.ends == [EndFor(o)] && Delivered(o, conn.Wire())
    ensures !o.Failed? ==> Answers(request.value, o, conn.Wire())
  {
    if request.None? {
      assert StreamOf([]) == BEGIN;
      conn.SetError();
      return Failed([]);
    }
    hide Delivered, ReadResponse, ResponseOf, Proper, Filter.Valid, Result, ResponsePhase, RequestPhase;
    var filter := new Filter(conn, loaded, script);
    var ok := RunRequestPhase(filter, contentLength, prefix, results);
    RequestPhaseIs(filter, contentLength, prefix, results, responseBody);
    if !ok {
      o := Fail(conn, filter);
    } else if filter.local.Some? {
      o := ReplyLocally(conn, filter);
    } else if filter.context.HasStreamingResponse() {
      o := EndStream(conn, filter);
    } else {
      o := Respond(conn, filter, responseBody);
    }
    if !o.Failed? {
      OneResponseIff(request.value, o, conn.Wire());
    }
  }

  /** What becomes of a request: nothing is answered that could not be parsed. */
  function OutcomeOf(request: Option<Request>, loaded: bool, script: Script, contentLength: nat, prefix: string,
                     results: seq<ReadResult>, responseBody: string): (o: Outcome)
    ensures !o.Failed? ==> request.Some?
  {
    if request.None? then Failed([])
    else Result(if loaded then script else [], contentLength, prefix, results, responseBody)
  }

  /** The request phase of handle_request: false if the body could not be read. */
  method RunRequestPhase(filter: Filter, contentLength: nat, prefix: string, results: seq<ReadResult>)
    returns (ok: bool)
    requires filter.Valid() && filter.position == 0 && filter.local.None?
    modifies filter`captured, filter`headerMap, filter`local, filter`position,
             filter.context, filter.context.sink, filter.context.sink.conn`writes
    ensures filter.Valid() && (!ok ==> filter.local.None?)
    ensures filter.position <= RequestPhase(contentLength, prefix, results)
    ensures filter.local.None? ==>
      && filter.position == RequestPhase(contentLength, prefix, results)
      && ok == BodyPlan(contentLength, prefix, results).1
  {
    hide Filter.Valid, BodyPlan;
    assert BodyPlan(contentLength, prefix, results).0 >= 0;
    ok := true;
    filter.RequestCallback();  // onRequestHeaders
    if filter.local.None? {
      ok := filter.RequestBody(contentLength, prefix, results);
      if ok && filter.local.None? {
        filter.RequestCallback();  // onRequestTrailers
      }
    }
  }

  /** The outcome of a request, as far as the filter tells it behind the request phase. */
  lemma RequestPhaseIs(filter: Filter, contentLength: nat, prefix: string, results: seq<ReadResult>,
                       responseBody: string)
    requires filter.Valid() && filter.position <= RequestPhase(contentLength, prefix, results)
    requires filter.local.None? ==> filter.position == RequestPhase(contentLength, prefix, results)
    ensures Result(filter.script, contentLength, prefix, results, responseBody) ==
            if filter.local.Some? then LocalReply(filter.local.value, filter.context.calls)
            else if !BodyPlan(contentLength, prefix, results).1 then Failed(filter.context.calls)
            else if filter.context.HasStreamingResponse() then Ended(filter.context.calls)
            else ResponsePhase(filter.script, filter.position, responseBody)
  {
    hide LocalIn, FollowAll, FirstLocal, StreamCalls, RequestPhase, BodyPlan, Ended, ResponsePhase;
    LocalIsFirst(filter.script, filter.position, RequestPhase(contentLength, prefix, results));
    StateIs(filter.context);
    hide Context.Valid;
  }

  /** A filter that begins a stream and sends a local response in its first callback. */
  const MIXING: Script := [[HostCall.Stream(SendHeaders(200, [])), SendLocal(Local(403, [], ""))]]

  /** The host lets it: the run ends in good order, and what it has sent is no response. */
  method MixingRun(conn: Channel)
    requires conn.writes == [] && conn.ends == []
    modifies conn
    ensures conn.ends == [FinishCalled] && ReadResponse(GET, conn.Wire()) == None
  {
    MixingOutcome();
    ghost var wire := StreamOf([SendHeaders(200, [])]).s.wire + LocalText(Local(403, [], ""));
    MixedExample(wire);
    hide ReadResponse, Result, FollowAll, LocalText;
    ghost var o := HandleRequest(conn, Some(GET), true, MIXING, 0, "", [], "");
  }

  lemma MixingOutcome()
    ensures Result(MIXING, 0, "", [], "") == LocalReply(Local(403, [], ""), [SendHeaders(200, [])])
  {
    var calls := MIXING[0];
    assert calls[..1] == [calls[0]] && calls[..0] == [];
    assert LocalIn(calls) == Some(Local(403, [], ""));
    assert StreamsIn(calls[..1]) == [SendHeaders(200, [])];
    assert StreamsIn(calls) == [SendHeaders(200, [])];
    assert FirstLocal(MIXING, 1) == Some(0);
    assert FirstLocal(MIXING, 2) == Some(0);
    assert StreamCalls(MIXING, 1) == [SendHeaders(200, [])];
  }
}

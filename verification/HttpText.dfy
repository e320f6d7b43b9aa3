/**
 HTTP/1.1 text: what serialize_headers writes (src/http_utils.h:47-81), the chunk framing of
 the response sink, and independent readers of both, after RFC 9112 sections 2.1, 5 and 7.1.
 */
module HttpText {
  import opened Common
  import HeaderName

  datatype Header = Header(name: string, value: string)

  const CRLF := "\r\n"

  // ----- Numbers -----

  function DigitOf(d: nat): char
    requires d < 16
  {
    "0123456789abcdef"[d]
  }

  /** The value of a digit, letters in either case. */
  function DigitValue(c: char): (v: Option<nat>)
    ensures v.Some? ==> v.value < 16
  {
    if '0' <= c <= '9' then Some((c - '0') as int)
    else if 'a' <= c <= 'f' then Some((c - 'a') as int + 10)
    else if 'A' <= c <= 'F' then Some((c - 'A') as int + 10)
    else None
  }

  /** std::to_string and snprintf's %zx. */
  function Numeral(n: nat, base: nat): (s: string)
    requires 2 <= base <= 16
    ensures |s| > 0
    decreases n
  {
    if n < base then [DigitOf(n)] else Numeral(n / base, base) + [DigitOf(n % base)]
  }

  function NumberOf(s: string, base: nat): Option<nat>
    requires 2 <= base <= 16
  {
    if s == [] then None
    else
      var digit := DigitValue(s[|s| - 1]);
      if digit.None? || digit.value >= base then None
      else if |s| == 1 then digit
      else match NumberOf(s[..|s| - 1], base)
        case None => None
        case Some(rest) => Some(rest * base + digit.value)
  }

  lemma DigitRoundTrip(d: nat)
    requires d < 16
    ensures DigitValue(DigitOf(d)) == Some(d) && DigitOf(d) != '\r' && DigitOf(d) != ' '
  {
  }

  lemma DivMod(n: nat, base: nat)
    requires base >= 2
    ensures n / base * base + n % base == n && (n >= base ==> 0 < n / base < n)
  {
  }

  lemma AppendDigit(t: string, q: nat, d: nat, base: nat)
    requires 2 <= base <= 16 && d < base && t != "" && NumberOf(t, base) == Some(q)
    ensures NumberOf(t + [DigitOf(d)], base) == Some(q * base + d)
  {
    DigitRoundTrip(d);
    assert (t + [DigitOf(d)])[..|t|] == t;
    hide DigitOf, DigitValue;
  }

  lemma {:induction false} NumberRoundTrip(n: nat, base: nat)
    requires 2 <= base <= 16
    ensures NumberOf(Numeral(n, base), base) == Some(n) && '\r' !in Numeral(n, base)
    decreases n
  {
    DivMod(n, base);
    DigitRoundTrip(n % base);
    hide DigitOf, DigitValue, NumberOf;
    if n < base {
      OneDigit(n, base);
    } else {
      NumberRoundTrip(n / base, base);
      AppendDigit(Numeral(n / base, base), n / base, n % base, base);
    }
  }

  lemma OneDigit(n: nat, base: nat)
    requires n < base <= 16 && 2 <= base
    ensures NumberOf([DigitOf(n)], base) == Some(n) && n % base == n
  {
    DigitRoundTrip(n);
  }

  // ----- Lines -----

  /** The text before the first CRLF and the text behind it. */
  function Line(s: string): Option<(string, string)> {
    if |s| < 2 then None
    else if s[..2] == CRLF then Some(("", s[2..]))
    else match Line(s[1..])
      case None => None
      case Some((line, rest)) => Some(([s[0]] + line, rest))
  }

  /** There is no CRLF in it. */
  predicate OneLine(s: string) {
    forall k :: 0 < k < |s| ==> !(s[k - 1] == '\r' && s[k] == '\n')
  }

  lemma {:induction false} LineRoundTrip(line: string, rest: string)
    requires OneLine(line)
    ensures Line(line + CRLF + rest) == Some((line, rest))
  {
    var s := line + CRLF + rest;
    if line == "" {
      assert s[..2] == CRLF && s[2..] == rest;
    } else {
      LineRoundTrip(line[1..], rest);
      assert s[1..] == line[1..] + CRLF + rest;
      assert s[..2][0] == line[0];
      assert [line[0]] + line[1..] == line;
    }
  }

  lemma {:induction false} LineText(s: string)
    ensures Line(s).Some? ==> s == Line(s).value.0 + CRLF + Line(s).value.1
    decreases |s|
  {
    if |s| >= 2 && s[..2] != CRLF {
      LineText(s[1..]);
      assert s == [s[0]] + s[1..];
    }
  }

  lemma {:induction false} LineShortens(s: string)
    ensures Line(s).Some? ==> |Line(s).value.1| + 2 <= |s|
  {
    if |s| >= 2 && s[..2] != CRLF {
      LineShortens(s[1..]);
    }
  }

  // ----- Head -----

  /** reason_phrase, by class of status. */
  function EarlyPhrase(status: nat): string {
    match status
    case 200 => "OK"
    case 201 => "Created"
    case 204 => "No Content"
    case 301 => "Moved Permanently"
    case 302 => "Found"
    case 304 => "Not Modified"
    case _ => ""
  }

  function ClientPhrase(status: nat): string {
    match status
    case 400 => "Bad Request"
    case 401 => "Unauthorized"
    case 403 => "Forbidden"
    case 404 => "Not Found"
    case 405 => "Method Not Allowed"
    case 431 => "Request Header Fields Too Large"
    case _ => ""
  }

  function ServerPhrase(status: nat): string {
    match status
    case 500 => "Internal Server Error"
    case 502 => "Bad Gateway"
    case 503 => "Service Unavailable"
    case _ => ""
  }

  function ReasonPhrase(status: nat): string {
    if status < 400 then EarlyPhrase(status) else if status < 500 then ClientPhrase(status) else ServerPhrase(status)
  }

  /** Reason phrases registered with the status codes (RFC 9110 section 15, RFC 6585 section 5). */
  const REGISTERED: map<nat, string> := map[
    200 := "OK", 201 := "Created", 204 := "No Content",
    301 := "Moved Permanently", 302 := "Found", 304 := "Not Modified",
    400 := "Bad Request", 401 := "Unauthorized", 403 := "Forbidden", 404 := "Not Found",
    405 := "Method Not Allowed", 431 := "Request Header Fields Too Large",
    500 := "Internal Server Error", 502 := "Bad Gateway", 503 := "Service Unavailable"]

  /** Each of these codes has its registered phrase, and other codes have none. */
  lemma PhrasesAreRegistered(status: nat)
    ensures ReasonPhrase(status) == if status in REGISTERED then REGISTERED[status] else ""
  {
    assert status in REGISTERED <==>
      status in {200, 201, 204, 301, 302, 304, 400, 401, 403, 404, 405, 431, 500, 502, 503};
  }

  function StatusLine(status: nat): string {
    "HTTP/1.1 " + Numeral(status, 10) + " " + ReasonPhrase(status)
  }

  function FieldLine(h: Header): string {
    h.name + ": " + h.value
  }

  function FieldLines(headers: seq<Header>): string {
    if headers == [] then ""
    else FieldLine(headers[0]) + CRLF + FieldLines(headers[1..])
  }

  function Head(status: nat, headers: seq<Header>): string {
    StatusLine(status) + CRLF + FieldLines(headers) + CRLF
  }

  /** serialize_headers. */
  method SerializeHeaders(status: nat, headers: seq<Header>) returns (response: string)
    ensures response == Head(status, headers)
  {
    hide FieldLine, Numeral, ReasonPhrase;
    response := "HTTP/1.1 " + Numeral(status, 10) + " " + ReasonPhrase(status) + CRLF;
    ghost var start := response;
    assert headers[0..] == headers && start == StatusLine(status) + CRLF;
    hide StatusLine;
    for i := 0 to |headers|
      invariant response + FieldLines(headers[i..]) == start + FieldLines(headers)
    {
      ghost var line, rest := FieldLine(headers[i]) + CRLF, FieldLines(headers[i + 1..]);
      assert headers[i..][1..] == headers[i + 1..];
      assert response + (line + rest) == response + line + rest;
      response := response + (FieldLine(headers[i]) + CRLF);
    }
    assert response + "" == response;
    response := response + CRLF;
  }

  function Colon(line: string): Option<nat> {
    if line == "" then None
    else if line[0] == ':' then Some(0)
    else match Colon(line[1..])
      case None => None
      case Some(k) => Some(k + 1)
  }

  lemma {:induction false} ColonAt(name: string, rest: string)
    requires ':' !in name
    ensures Colon(name + ":" + rest) == Some(|name|)
  {
    if name != "" {
      ColonAt(name[1..], rest);
      assert (name + ":" + rest)[1..] == name[1..] + ":" + rest;
    }
  }

  /** A header field: a name, a colon, a space and a value. */
  function ReadField(line: string): Option<Header> {
    match Colon(line)
    case None => None
    case Some(k) =>
      if 0 <= k && k + 2 <= |line| && line[k..k + 2] == ": "
      then Some(Header(line[..k], line[k + 2..])) else None
  }

  /** Field lines up to the empty line, and the text behind it. */
  function ReadFields(s: string): Option<(seq<Header>, string)>
    decreases |s|
  {
    LineShortens(s);
    match Line(s)
    case None => None
    case Some((line, rest)) =>
      if line == "" then Some(([], rest))
      else match ReadField(line)
        case None => None
        case Some(h) =>
          match ReadFields(rest)
          case None => None
          case Some((headers, body)) => Some(([h] + headers, body))
  }

  /** What its field line must be for it to be read back. */
  predicate CleanHeader(h: Header) {
    ':' !in h.name && OneLine(h.name) && OneLine(h.value)
  }

  predicate Clean(headers: seq<Header>) {
    forall h :: h in headers ==> CleanHeader(h)
  }

  lemma FieldRoundTrip(h: Header)
    requires CleanHeader(h)
    ensures ReadField(FieldLine(h)) == Some(h) && OneLine(FieldLine(h)) && FieldLine(h) != ""
  {
    var line := FieldLine(h);
    ColonAt(h.name, " " + h.value);
    assert line == h.name + ":" + (" " + h.value);
    assert line[|h.name|..|h.name| + 2] == ": ";
    assert line[..|h.name|] == h.name && line[|h.name| + 2..] == h.value;
  }

  lemma {:induction false} FieldsRoundTrip(headers: seq<Header>, body: string)
    requires Clean(headers)
    ensures ReadFields(FieldLines(headers) + CRLF + body) == Some((headers, body))
    decreases |headers|
  {
    hide FieldLine, ReadField, Line;
    if headers == [] {
      LineRoundTrip("", body);
      assert FieldLines(headers) + CRLF + body == "" + CRLF + body;
    } else {
      var line, rest := FieldLine(headers[0]), FieldLines(headers[1..]);
      FieldRoundTrip(headers[0]);
      FieldsRoundTrip(headers[1..], body);
      LineRoundTrip(line, rest + CRLF + body);
      assert FieldLines(headers) + CRLF + body == line + CRLF + (rest + CRLF + body);
      assert [headers[0]] + headers[1..] == headers;
    }
  }

  /** The status line, the header fields and the text behind the head. */
  function ReadHead(s: string): Option<(string, seq<Header>, string)> {
    match Line(s)
    case None => None
    case Some((status, rest)) =>
      match ReadFields(rest)
      case None => None
      case Some((headers, body)) => Some((status, headers, body))
  }

  lemma EarlyClean(status: nat)
    ensures '\r' !in EarlyPhrase(status)
  {
  }

  lemma ClientClean(status: nat)
    ensures '\r' !in ClientPhrase(status)
  {
    if status == 431 {
      LongestClean();
    }
  }

  lemma LongestClean()
    ensures '\r' !in "Request Header Fields Too Large"
  {
  }

  lemma ServerClean(status: nat)
    ensures '\r' !in ServerPhrase(status)
  {
  }

  lemma ReasonClean(status: nat)
    ensures '\r' !in ReasonPhrase(status)
  {
    EarlyClean(status);
    ClientClean(status);
    ServerClean(status);
    hide EarlyPhrase, ClientPhrase, ServerPhrase;
  }

  lemma StatusLineClean(status: nat)
    ensures '\r' !in StatusLine(status)
  {
    NumberRoundTrip(status, 10);
    ReasonClean(status);
    hide Numeral, ReasonPhrase, NumberOf;
  }

  lemma {:induction false} LineIsOne(s: string)
    ensures Line(s).Some? ==> OneLine(Line(s).value.0)
    decreases |s|
  {
    if |s| >= 2 && s[..2] != CRLF && Line(s[1..]).Some? {
      LineIsOne(s[1..]);
      LineText(s[1..]);
      assert s[..2] == [s[0], s[1]];
    }
  }

  lemma {:induction false} FirstColon(line: string)
    ensures Colon(line).Some? ==> Colon(line).value < |line| && ':' !in line[..Colon(line).value]
  {
    if line != "" && line[0] != ':' && Colon(line[1..]).Some? {
      FirstColon(line[1..]);
      var k := Colon(line).value;
      assert line[..k] == [line[0]] + line[1..][..k - 1];
    }
  }

  /** A header that has been read is clean. */
  lemma FieldReadIsClean(line: string)
    requires OneLine(line)
    ensures ReadField(line).Some? ==> CleanHeader(ReadField(line).value)
  {
    FirstColon(line);
  }

  lemma {:induction false} FieldsReadAreClean(s: string)
    ensures ReadFields(s).Some? ==> Clean(ReadFields(s).value.0)
    decreases |s|
  {
    if ReadFields(s).Some? {
      LineShortens(s);
      LineIsOne(s);
      var (line, rest) := Line(s).value;
      if line != "" {
        FieldReadIsClean(line);
        hide Line, ReadField, CleanHeader, OneLine;
        FieldsReadAreClean(rest);
      }
    }
  }

  /** A head in front of any text is read back exactly if its headers are clean. */
  lemma HeadRoundTrip(status: nat, headers: seq<Header>, body: string)
    ensures ReadHead(Head(status, headers) + body) == Some((StatusLine(status), headers, body)) <==> Clean(headers)
  {
    StatusLineClean(status);
    var rest := FieldLines(headers) + CRLF + body;
    assert Head(status, headers) + body == StatusLine(status) + CRLF + rest;
    hide StatusLine, ReadFields, FieldLines, Clean;
    LineRoundTrip(StatusLine(status), rest);
    FieldsReadAreClean(rest);
    if Clean(headers) {
      FieldsRoundTrip(headers, body);
    }
  }

  // ----- Chunks -----

  function Frame(data: string): string {
    Numeral(|data|, 16) + CRLF + data + CRLF
  }

  function Frames(chunks: seq<string>): string {
    if chunks == [] then "" else Frames(chunks[..|chunks| - 1]) + Frame(chunks[|chunks| - 1])
  }

  const TERMINATOR := "0\r\n\r\n"

  datatype Chunked =
    | Complete(chunks: seq<string>, rest: string)  // ends in a zero-size chunk
    | Open(chunks: seq<string>)                    // whole chunks, and then the text ends
    | Malformed

  /** A chunked body, without extensions and trailer fields. */
  function ReadChunks(s: string): Chunked
    decreases |s|
  {
    if s == "" then Open([]) else
    LineShortens(s);
    match Line(s)
    case None => Malformed
    case Some((size, rest)) =>
      match NumberOf(size, 16)
      case None => Malformed
      case Some(n) =>
        if n == 0 then
          if |rest| >= 2 && rest[..2] == CRLF then Complete([], rest[2..]) else Malformed
        else if n + 2 > |rest| || rest[n..n + 2] != CRLF then Malformed
        else match ReadChunks(rest[n + 2..])
          case Complete(chunks, end) => Complete([rest[..n]] + chunks, end)
          case Open(chunks) => Open([rest[..n]] + chunks)
          case Malformed => Malformed
  }

  function Prepend(chunks: seq<string>, c: Chunked): Chunked {
    match c
    case Complete(more, rest) => Complete(chunks + more, rest)
    case Open(more) => Open(chunks + more)
    case Malformed => Malformed
  }

  lemma FrameRead(data: string, rest: string)
    requires data != ""
    ensures ReadChunks(Frame(data) + rest) == Prepend([data], ReadChunks(rest))
  {
    var size := Numeral(|data|, 16);
    NumberRoundTrip(|data|, 16);
    var tail := data + CRLF + rest;
    LineRoundTrip(size, tail);
    assert Frame(data) + rest == size + CRLF + tail;
    assert tail[..|data|] == data && tail[|data|..|data| + 2] == CRLF && tail[|data| + 2..] == rest;
  }

  /** Frames in front of any text are read as their data. */
  lemma {:induction false} FramesRead(chunks: seq<string>, rest: string)
    requires "" !in chunks
    ensures ReadChunks(Frames(chunks) + rest) == Prepend(chunks, ReadChunks(rest))
    decreases |chunks|
  {
    hide Frame, ReadChunks;
    if chunks == [] {
      assert Frames(chunks) + rest == rest;
    } else {
      var most, last := chunks[..|chunks| - 1], chunks[|chunks| - 1];
      assert chunks == most + [last];
      FramesRead(most, Frame(last) + rest);
      FrameRead(last, rest);
      assert Frames(chunks) + rest == Frames(most) + (Frame(last) + rest);
      assert most + ([last] + ReadTail(ReadChunks(rest))) == chunks + ReadTail(ReadChunks(rest));
    }
  }

  function ReadTail(c: Chunked): seq<string> {
    if c.Malformed? then [] else c.chunks
  }

  lemma TerminatorRead(rest: string)
    ensures ReadChunks(TERMINATOR + rest) == Complete([], rest)
  {
    var s := TERMINATOR + rest;
    LineRoundTrip("0", CRLF + rest);
    assert s == "0" + CRLF + (CRLF + rest);
    assert NumberOf("0", 16) == Some(0);
    assert (CRLF + rest)[..2] == CRLF && (CRLF + rest)[2..] == rest;
  }

  // ----- Responses -----

  /** The status code of a status line: three digits between two spaces. */
  function ReadStatus(line: string): Option<nat> {
    if |line| < 13 || line[..9] != "HTTP/1.1 " || line[12] != ' ' then None else NumberOf(line[9..12], 10)
  }

  lemma DecimalDigit(d: nat)
    requires d < 10
    ensures '0' <= DigitOf(d) <= '9'
  {
  }

  lemma {:induction false} NumeralSize(n: nat)
    ensures var k := |Numeral(n, 10)|;
      if n < 10 then k == 1 else if n < 100 then k == 2 else if n < 1000 then k == 3 else k > 3
    ensures forall c :: c in Numeral(n, 10) ==> '0' <= c <= '9'
    decreases n
  {
    DecimalDigit(n % 10);
    hide DigitOf;
    if n >= 10 {
      NumeralSize(n / 10);
    }
  }

  /** Only a code of three characters is found where the status code must be. */
  lemma StatusPlace(code: string, reason: string)
    requires ' ' !in code && (|code| < 3 ==> reason == "")
    ensures ReadStatus("HTTP/1.1 " + code + " " + reason) == if |code| == 3 then NumberOf(code, 10) else None
  {
    var start := "HTTP/1.1 ";
    var line := start + code + " " + reason;
    assert line[..9] == start;
    hide NumberOf;
    if |code| == 3 {
      assert line[9..12] == code && line[12] == ' ';
    } else if |code| > 3 {
      assert line[12] == code[3] && code[3] in code;
    }
  }

  /** The status code of a status line that has been written is found if it has three digits. */
  lemma StatusRoundTrip(status: nat)
    ensures ReadStatus(StatusLine(status)) == if 100 <= status <= 999 then Some(status) else None
  {
    NumeralSize(status);
    NumberRoundTrip(status, 10);
    assert ' ' !in Numeral(status, 10);
    assert status < 100 ==> ReasonPhrase(status) == "";
    hide Numeral, NumberOf, ReasonPhrase, ReadStatus;
    StatusPlace(Numeral(status, 10), ReasonPhrase(status));
  }

  /** The parts of a request that matter to its response. */
  datatype Request = Request(requestMethod: string, version: string)

  /** Responses that end with their head: to HEAD and to a successful CONNECT, 204, 304 (RFC 9112 section 6.3). */
  predicate Bodiless(request: Request, status: nat) {
    || request.requestMethod == "HEAD" || status == 204 || status == 304
    || (request.requestMethod == "CONNECT" && 200 <= status < 300)
  }

  /** Transfer codings are only for clients of HTTP/1.1 or later (RFC 9112 section 6.1). */
  predicate KnowsCodings(request: Request) {
    |request.version| == 8 && request.version[..7] == "HTTP/1." && '1' <= request.version[7] <= '9'
  }

  /** The status codes of final responses; 1xx is interim, and there are none from 600 on (RFC 9110 section 15). */
  predicate IsFinal(status: nat) {
    200 <= status <= 599
  }

  predicate IsAlphanumeric(c: char) {
    'a' <= c <= 'z' || 'A' <= c <= 'Z' || '0' <= c <= '9'
  }

  predicate TokenChar(c: char) {
    || IsAlphanumeric(c)
    || c == '!' || c == '#' || c == '$' || c == '%' || c == '&' || c == '\'' || c == '*' || c == '+' || c == '-'
    || c == '.' || c == '^' || c == '_' || c == '`' || c == '|' || c == '~'
  }

  /** No control characters but the tab. */
  predicate ValueChar(c: char) {
    c == '\t' || (' ' <= c && c != 127 as char)
  }

  predicate IsToken(s: string) {
    s != "" && forall c :: c in s ==> TokenChar(c)
  }

  predicate IsValue(s: string) {
    forall c :: c in s ==> ValueChar(c)
  }

  /** A field whose name is a token and whose value has no control characters (RFC 9110 sections 5.1 and 5.5). */
  predicate IsField(h: Header) {
    IsToken(h.name) && IsValue(h.value)
  }

  /** Letters, digits and hyphens only. */
  predicate IsWord(s: string) {
    s != "" && forall c :: c in s ==> IsAlphanumeric(c) || c == '-'
  }

  lemma WordIsToken(s: string)
    requires IsWord(s)
    ensures IsToken(s) && IsValue(s)
  {
    hide IsAlphanumeric;
    forall c | c in s
      ensures TokenChar(c)
    {
    }
    assert forall c :: IsAlphanumeric(c) ==> ValueChar(c) by {
      WordChars();
    }
  }

  lemma WordChars()
    ensures forall c :: IsAlphanumeric(c) ==> ValueChar(c)
  {
  }

  predicate AreFields(headers: seq<Header>) {
    forall h :: h in headers ==> IsField(h)
  }

  datatype Response = Response(statusLine: string, headers: seq<Header>, body: string)

  function Named(headers: seq<Header>, name: string): (values: seq<string>)
  {
    if headers == [] then []
    else
      var rest := Named(headers[1..], name);
      if HeaderName.NameEq(headers[0].name, name) then [headers[0].value] + rest else rest
  }

  predicate IsChunked(value: string) {
    HeaderName.NameEq(value, "chunked")
  }

  /** The body that the headers frame, if it is all of the text: one chunked coding, or one length. */
  function ReadBody(request: Request, headers: seq<Header>, rest: string): Option<string> {
    var codings, lengths := Named(headers, "Transfer-Encoding"), Named(headers, "Content-Length");
    if codings != [] then
      if !KnowsCodings(request) || lengths != [] || |codings| > 1 || !IsChunked(codings[0]) then None
      else
        var body := ReadChunks(rest);
        if body.Complete? && body.rest == "" then Some(Concat(body.chunks)) else None
    else if |lengths| == 1 && NumberOf(lengths[0], 10) == Some(|rest|) then Some(rest)
    else None
  }

  /** Exactly one final response to the request, and nothing behind it (RFC 9112 section 6.3). */
  function ReadResponse(request: Request, s: string): Option<Response> {
    match ReadHead(s)
    case None => None
    case Some((statusLine, headers, rest)) =>
      match ReadStatus(statusLine)
      case None => None
      case Some(status) =>
        if !IsFinal(status) || !AreFields(headers) then None
        else if Bodiless(request, status) then if rest == "" then Some(Response(statusLine, headers, "")) else None
        else match ReadBody(request, headers, rest)
          case None => None
          case Some(body) => Some(Response(statusLine, headers, body))
  }

  // ----- What has been read is what was there -----

  lemma FieldText(line: string)
    ensures ReadField(line).Some? ==> FieldLine(ReadField(line).value) == line
  {
    if ReadField(line).Some? {
      var k := Colon(line).value;
      assert line == line[..k] + line[k..k + 2] + line[k + 2..];
    }
  }

  lemma {:induction false} FieldsText(s: string)
    ensures ReadFields(s).Some? ==> s == FieldLines(ReadFields(s).value.0) + CRLF + ReadFields(s).value.1
    decreases |s|
  {
    hide Line, ReadField, FieldLine;
    if ReadFields(s).Some? {
      LineShortens(s);
      LineText(s);
      var (line, rest) := Line(s).value;
      if line != "" {
        FieldText(line);
        FieldsText(rest);
        var (headers, body) := ReadFields(rest).value;
        var all := [ReadField(line).value] + headers;
        assert all[1..] == headers;
        assert s == line + CRLF + FieldLines(headers) + CRLF + body;
      } else {
        assert "" + CRLF + rest == CRLF + rest;
      }
    }
  }

  /** A response that has been read has well-formed fields; one with a length is the text that was read. */
  lemma ResponseText(request: Request, s: string)
    requires ReadResponse(request, s).Some?
    ensures var r := ReadResponse(request, s).value;
      && AreFields(r.headers)
      && (Named(r.headers, "Content-Length") != [] ==>
            s == r.statusLine + CRLF + FieldLines(r.headers) + CRLF + r.body)
  {
    LineText(s);
    FieldsText(Line(s).value.1);
    hide Line, ReadFields, FieldLines, Named, AreFields, ReadStatus, Bodiless, NumberOf, ReadChunks;
    var (statusLine, headers, rest) := ReadHead(s).value;
    assert s == statusLine + CRLF + FieldLines(headers) + CRLF + rest;
  }

  lemma FieldsAreClean(headers: seq<Header>)
    requires AreFields(headers)
    ensures Clean(headers)
  {
    forall h | h in headers
      ensures CleanHeader(h)
    {
      assert IsField(h);
      assert !TokenChar('\r') && !TokenChar(':') && !ValueChar('\r');
    }
  }
}

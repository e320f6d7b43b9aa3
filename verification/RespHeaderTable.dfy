/** The response header table of an LSAPI request (src/lsapilib.c:2506-2594). */
module RespHeaderTable {
  import opened Common
  import opened LsapiPacket

  const MAX_RESP_HEADERS: nat := 1000
  const RESP_HTTP_HEADER_MAX: nat := 32768

  /** A C string: no NUL inside. */
  predicate CString(s: seq<byte>) {
    forall k :: 0 <= k < |s| ==> s[k] != 0
  }

  /** Without trailing CR and LF. */
  function Trimmed(s: seq<byte>): (t: seq<byte>)
    ensures t <= s
    ensures t != [] ==> t[|t| - 1] != 10 && t[|t| - 1] != 13
    ensures forall k :: |t| <= k < |s| ==> s[k] == 10 || s[k] == 13
  {
    if s != [] && (s[|s| - 1] == 10 || s[|s| - 1] == 13) then Trimmed(s[..|s| - 1]) else s
  }

  /** The line built from a name and a value. */
  function Line(name: seq<byte>, value: seq<byte>): seq<byte> {
    Trimmed(name) + [58] + Trimmed(value)
  }

  datatype Outcome = Refused | Ignored | Appended

  /** What AppendRespHeader2 does, given the table's size and whether the body has started. */
  function Outcome2(bodyStarted: bool, count: nat, name: seq<byte>, value: seq<byte>): Outcome {
    if bodyStarted || count >= MAX_RESP_HEADERS || name == [] then Refused
    else if Trimmed(name) == [] then Ignored
    else if |Line(name, value)| > RESP_HTTP_HEADER_MAX then Refused
    else Appended
  }

  /** What AppendRespHeader does with one preformatted line. */
  function Outcome1(bodyStarted: bool, count: nat, line: seq<byte>): Outcome {
    if line == [] || |line| > RESP_HTTP_HEADER_MAX || bodyStarted || count >= MAX_RESP_HEADERS then Refused
    else if Trimmed(line) == [] then Ignored
    else Appended
  }

  // ----- Reading a line -----

  /** A line cut at its first colon. */
  function ReadPair(line: seq<byte>): Option<(seq<byte>, seq<byte>)> {
    if line == [] then None
    else if line[0] == 58 then Some(([], line[1..]))
    else match ReadPair(line[1..])
      case None => None
      case Some((name, value)) => Some(([line[0]] + name, value))
  }

  lemma {:induction false} JoinedIsRead(name: seq<byte>, value: seq<byte>)
    requires 58 !in name
    ensures ReadPair(name + [58] + value) == Some((name, value))
  {
    var line := name + [58] + value;
    if name == [] {
      assert line[1..] == value;
    } else {
      JoinedIsRead(name[1..], value);
      assert line[1..] == name[1..] + [58] + value;
      assert [name[0]] + name[1..] == name;
    }
  }

  /** A line built from a name without a colon is read as that name and its value, both trimmed. */
  lemma PairIsRead(name: seq<byte>, value: seq<byte>)
    requires 58 !in name
    ensures ReadPair(Line(name, value)) == Some((Trimmed(name), Trimmed(value)))
  {
    assert 58 !in Trimmed(name);
    JoinedIsRead(Trimmed(name), Trimmed(value));
  }

  /** A line says this name and this value. */
  predicate Tells(line: seq<byte>, name: seq<byte>, value: seq<byte>) {
    line == name + [58] + value && (58 !in name ==> ReadPair(line) == Some((name, value)))
  }

  /** A pair that is left to be sent, and is not too long. */
  predicate PairFits(name: seq<byte>, value: seq<byte>) {
    Trimmed(name) != [] && |Trimmed(name)| + 1 + |Trimmed(value)| <= 32768
  }

  /** When a pair is appended, ignored or refused. */
  lemma PairOutcome(bodyStarted: bool, count: nat, name: seq<byte>, value: seq<byte>)
    ensures var o := Outcome2(bodyStarted, count, name, value);
      && (o == Appended <==> !bodyStarted && count < 1000 && PairFits(name, value))
      && (o == Ignored <==> !bodyStarted && count < 1000 && name != [] && Trimmed(name) == [])
  {
  }

  /** When a line is. */
  lemma LineOutcome(bodyStarted: bool, count: nat, line: seq<byte>)
    ensures var o := Outcome1(bodyStarted, count, line);
      && (o == Appended <==> !bodyStarted && count < 1000 && |line| <= 32768 && Trimmed(line) != [])
      && (o == Ignored <==> !bodyStarted && count < 1000 && 0 < |line| <= 32768 && Trimmed(line) == [])
  {
  }

  /** The new capacity chosen when `len + 1` more bytes do not fit. */
  function Grown(pos: nat, len: nat): (size: nat)
    ensures size % 4096 == 0 && size >= pos + len + 1
  {
    pos + len + 4096 - (pos + len + 4096) % 4096
  }

  lemma LinesAppend(lines: seq<seq<byte>>, line: seq<byte>)
    ensures Lines(lines + [line]) == Lines(lines) + line + [0]
  {
    assert (lines + [line])[..|lines|] == lines;
  }

  /** The trimming loop. */
  method TrimLength(s: seq<byte>) returns (len: nat)
    ensures len == |Trimmed(s)| && s[..len] == Trimmed(s)
  {
    len := |s|;
    assert s[..len] == s;
    while len > 0
      invariant len <= |s| && Trimmed(s) == Trimmed(s[..len])
    {
      var ch := s[len - 1];
      if ch == 10 || ch == 13 {
        assert s[..len][..len - 1] == s[..len - 1];
        len := len - 1;
      } else {
        break;
      }
    }
  }

  class Table {
    var buf: array<byte>       // m_pRespHeaderBuf .. m_pRespHeaderBufEnd
    var pos: nat               // m_pRespHeaderBufPos
    const lens: array<nat>     // m_respHeaderLen, read as unsigned 16-bit
    var count: nat             // m_cntHeaders
    ghost var lines: seq<seq<byte>>  // the lines appended so far

    ghost predicate Valid()
      reads this, buf, lens
    {
      && lens.Length == MAX_RESP_HEADERS
      && buf.Length % 4096 == 0
      && count == |lines| <= MAX_RESP_HEADERS
      && pos == |Lines(lines)| <= buf.Length
      && buf[..pos] == Lines(lines)
      && (forall k :: 0 <= k < count ==> lens[k] == |lines[k]| + 1 < TWO16)
    }

    constructor ()
      ensures Valid() && lines == [] && fresh(buf) && fresh(lens)
    {
      buf := new byte[4096];
      pos, count := 0, 0;
      lens := new nat[MAX_RESP_HEADERS];
      lines := [];
    }

    method Reset()
      requires Valid()
      modifies this
      ensures Valid() && lines == [] && buf == old(buf)
    {
      pos, count, lines := 0, 0, [];
    }

    /** Make room for len + 1 bytes, as both append functions do. */
    method Reserve(len: nat)
      requires Valid()
      modifies this
      ensures Valid() && lines == old(lines) && pos == old(pos) && count == old(count)
      ensures pos + len + 1 <= buf.Length
      ensures buf.Length >= old(buf.Length)
      ensures buf == old(buf) || fresh(buf)
    {
      if pos + len + 1 > buf.Length {
        var newLen := pos + len + 4096;
        newLen := newLen - newLen % 4096;
        assert newLen == Grown(pos, len);
        var p := new byte[newLen];
        Copy(p, 0, buf[..]);
        assert p[..pos] == p[..buf.Length][..pos] == buf[..pos];
        buf := p;
      }
    }

    /** Record one line: its bytes, a NUL, and its length with the NUL. */
    method Put(line: seq<byte>)
      requires Valid() && count < MAX_RESP_HEADERS && 0 < |line| <= RESP_HTTP_HEADER_MAX
      modifies this, buf, lens
      ensures Valid() && lines == old(lines) + [line]
      ensures buf.Length >= old(buf.Length)
      ensures buf == old(buf) || fresh(buf)
    {
      hide Lines;
      LinesAppend(lines, line);
      Reserve(|line|);
      ghost var text := buf[..pos];
      Copy(buf, pos, line);
      pos := pos + |line|;
      buf[pos] := 0;
      assert buf[..pos + 1] == buf[..pos] + [0];
      pos := pos + 1;
      lens[count] := |line| + 1;
      count := count + 1;
      lines := lines + [line];
    }

    /** LSAPI_AppendRespHeader2_r. */
    method AppendPair(bodyStarted: bool, name: seq<byte>, value: seq<byte>) returns (ret: int)
      requires Valid() && CString(name) && CString(value)
      modifies this, buf, lens
      ensures Valid()
      ensures ret == if Outcome2(bodyStarted, old(count), name, value) == Refused then -1 else 0
      ensures lines == if Outcome2(bodyStarted, old(count), name, value) == Appended
                       then old(lines) + [Line(name, value)] else old(lines)
      ensures buf.Length >= old(buf.Length) && (buf == old(buf) || fresh(buf))
    {
      if bodyStarted || count >= MAX_RESP_HEADERS || |name| == 0 {
        return -1;
      }
      var nameLen := TrimLength(name);
      if nameLen <= 0 {
        return 0;
      }
      var valLen := TrimLength(value);
      if nameLen + valLen + 1 > RESP_HTTP_HEADER_MAX {
        return -1;
      }
      Put(name[..nameLen] + [58] + value[..valLen]);
      ret := 0;
    }

    /** LSAPI_AppendRespHeader_r. */
    method AppendLine(bodyStarted: bool, line: seq<byte>) returns (ret: int)
      requires Valid()
      modifies this, buf, lens
      ensures Valid()
      ensures ret == if Outcome1(bodyStarted, old(count), line) == Refused then -1 else 0
      ensures lines == if Outcome1(bodyStarted, old(count), line) == Appended
                       then old(lines) + [Trimmed(line)] else old(lines)
      ensures buf.Length >= old(buf.Length) && (buf == old(buf) || fresh(buf))
    {
      if |line| <= 0 || |line| > RESP_HTTP_HEADER_MAX || bodyStarted || count >= MAX_RESP_HEADERS {
        return -1;
      }
      var len := TrimLength(line);
      if len <= 0 {
        return 0;
      }
      Put(line[..len]);
      ret := 0;
    }
  }
}

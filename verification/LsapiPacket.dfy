/**
 The LSAPI response wire format (src/lsapidef.h:85-118): packets with an 8-byte
 header whose length field counts the header, and the payload of RESP_HEADER.
 */
module LsapiPacket {
  import opened Common
  import opened Endian

  const RESP_HEADER: byte := 3
  const RESP_STREAM: byte := 4
  const RESP_END: byte := 5

  const PACKET_HEADER_LEN: nat := 8
  const MAX_DATA_PACKET_LEN: nat := 16384

  datatype Packet = Packet(kind: byte, payload: seq<byte>)

  /** lsapi_buildPacketHeader on a little-endian host: 'L', 'S', type, flag, length. */
  function PacketHeader(kind: byte, len: nat): (h: seq<byte>)
    requires len < TWO32
    ensures |h| == PACKET_HEADER_LEN
  {
    [76, 83, kind, 0] + Le32(len)
  }

  predicate Fits(p: Packet) {
    |p.payload| + PACKET_HEADER_LEN < TWO31
  }

  predicate AllFit(ps: seq<Packet>) {
    forall k :: 0 <= k < |ps| ==> Fits(ps[k])
  }

  function Encode(p: Packet): (w: seq<byte>)
    requires Fits(p)
    ensures |w| == PACKET_HEADER_LEN + |p.payload|
  {
    PacketHeader(p.kind, |p.payload| + PACKET_HEADER_LEN) + p.payload
  }

  function EncodeAll(ps: seq<Packet>): (w: seq<byte>)
    requires AllFit(ps)
  {
    if ps == [] then [] else EncodeAll(ps[..|ps| - 1]) + Encode(ps[|ps| - 1])
  }

  /** The receiver: cut the wire into packets by their length fields. */
  function Decode(w: seq<byte>): Option<seq<Packet>> {
    if w == [] then Some([])
    else if |w| < PACKET_HEADER_LEN || w[0] != 76 || w[1] != 83 || w[3] != 0 then None
    else
      var len := FromLe32(w[4..8]);
      if len < PACKET_HEADER_LEN || len > |w| then None
      else match Decode(w[len..])
        case None => None
        case Some(rest) => Some([Packet(w[2], w[8..len])] + rest)
  }

  lemma EncodeAllSnoc(ps: seq<Packet>, p: Packet)
    requires AllFit(ps) && Fits(p)
    ensures AllFit(ps + [p]) && EncodeAll(ps + [p]) == EncodeAll(ps) + Encode(p)
  {
    assert (ps + [p])[..|ps|] == ps;
  }

  lemma DecodeOne(p: Packet, rest: seq<byte>)
    requires Fits(p) && Decode(rest).Some?
    ensures Decode(Encode(p) + rest) == Some([p] + Decode(rest).value)
  {
    var w := Encode(p) + rest;
    var len := |p.payload| + PACKET_HEADER_LEN;
    Le32RoundTrip(len);
    assert w[4..8] == Le32(len);
    assert w[8..len] == p.payload;
    assert w[len..] == rest;
  }

  /** Every sequence of packets is read back from its encoding. */
  lemma {:induction false} DecodeEncode(ps: seq<Packet>, rest: seq<byte>)
    requires AllFit(ps) && Decode(rest).Some?
    ensures Decode(EncodeAll(ps) + rest) == Some(ps + Decode(rest).value)
  {
    hide Decode, Encode;
    if ps == [] {
      assert EncodeAll(ps) + rest == rest && ps + Decode(rest).value == Decode(rest).value;
    } else {
      var n := |ps| - 1;
      DecodeOne(ps[n], rest);
      DecodeEncode(ps[..n], Encode(ps[n]) + rest);
      assert EncodeAll(ps) + rest == EncodeAll(ps[..n]) + (Encode(ps[n]) + rest);
      assert ps + Decode(rest).value == ps[..n] + ([ps[n]] + Decode(rest).value);
    }
  }

  // ----- RESP_HEADER -----

  /** The content of a RESP_HEADER packet: lsapi_resp_info, the lengths, the header bytes. */
  datatype HeaderInfo = HeaderInfo(status: int, lines: seq<seq<byte>>)

  function Lengths(lines: seq<seq<byte>>): (b: seq<byte>)
    requires forall k :: 0 <= k < |lines| ==> |lines[k]| + 1 < TWO16
    ensures |b| == 2 * |lines|
  {
    if lines == [] then [] else Lengths(lines[..|lines| - 1]) + Le16(|lines[|lines| - 1]| + 1)
  }

  /** The header buffer: each line with its NUL. */
  function Lines(lines: seq<seq<byte>>): seq<byte> {
    if lines == [] then [] else Lines(lines[..|lines| - 1]) + lines[|lines| - 1] + [0]
  }

  predicate HeaderFits(h: HeaderInfo) {
    && -TWO31 <= h.status < TWO31
    && |h.lines| < TWO31
    && (forall k :: 0 <= k < |h.lines| ==> |h.lines[k]| + 1 < TWO16)
  }

  function HeaderPayload(h: HeaderInfo): seq<byte>
    requires HeaderFits(h)
  {
    Le32(|h.lines|) + Le32(Unsigned32(h.status)) + Lengths(h.lines) + Lines(h.lines)
  }

  /** The receiver: cut `text` by the recorded lengths, dropping each final NUL. */
  function CutLines(lens: seq<byte>, text: seq<byte>): Option<seq<seq<byte>>> {
    if |lens| < 2 then (if lens == [] && text == [] then Some([]) else None)
    else
      var n := FromLe16(lens[..2]);
      if n == 0 || n > |text| then None
      else match CutLines(lens[2..], text[n..])
        case None => None
        case Some(rest) => Some([text[..n - 1]] + rest)
  }

  function DecodeHeader(payload: seq<byte>): Option<HeaderInfo> {
    if |payload| < 8 then None
    else
      var count := FromLe32(payload[..4]);
      var status := Signed32(FromLe32(payload[4..8]));
      if |payload| < 8 + 2 * count then None
      else match CutLines(payload[8..8 + 2 * count], payload[8 + 2 * count..])
        case None => None
        case Some(lines) => Some(HeaderInfo(status, lines))
  }

  lemma CutOne(line: seq<byte>, lens: seq<byte>, text: seq<byte>)
    requires |line| + 1 < TWO16 && CutLines(lens, text).Some?
    ensures CutLines(Le16(|line| + 1) + lens, line + [0] + text) == Some([line] + CutLines(lens, text).value)
  {
    Le16RoundTrip(|line| + 1);
    var l, t := Le16(|line| + 1) + lens, line + [0] + text;
    assert l[..2] == Le16(|line| + 1) && l[2..] == lens;
    assert t[|line| + 1..] == text && t[..|line|] == line;
  }

  lemma LengthsAssoc(lines: seq<seq<byte>>, lens: seq<byte>)
    requires lines != [] && forall k :: 0 <= k < |lines| ==> |lines[k]| + 1 < TWO16
    ensures var n := |lines| - 1;
      Lengths(lines) + lens == Lengths(lines[..n]) + (Le16(|lines[n]| + 1) + lens)
  {
    hide Le16;
  }

  lemma LinesAssoc(lines: seq<seq<byte>>, text: seq<byte>)
    requires lines != []
    ensures var n := |lines| - 1;
      Lines(lines) + text == Lines(lines[..n]) + (lines[n] + [0] + text)
  {
  }

  lemma {:induction false} CutAll(lines: seq<seq<byte>>, lens: seq<byte>, text: seq<byte>)
    requires forall k :: 0 <= k < |lines| ==> |lines[k]| + 1 < TWO16
    requires CutLines(lens, text).Some?
    ensures CutLines(Lengths(lines) + lens, Lines(lines) + text) == Some(lines + CutLines(lens, text).value)
  {
    var rest := CutLines(lens, text).value;
    if lines == [] {
      hide CutLines;
      assert Lengths(lines) + lens == lens && Lines(lines) + text == text;
      assert lines + rest == rest;
    } else {
      hide CutLines, Lengths, Lines, Le16;
      var n := |lines| - 1;
      CutOne(lines[n], lens, text);
      CutAll(lines[..n], Le16(|lines[n]| + 1) + lens, lines[n] + [0] + text);
      LengthsAssoc(lines, lens);
      LinesAssoc(lines, text);
      assert lines + rest == lines[..n] + ([lines[n]] + rest);
    }
  }

  /** The header list is read back from its payload. */
  lemma HeaderRoundTrip(h: HeaderInfo)
    requires HeaderFits(h)
    ensures DecodeHeader(HeaderPayload(h)) == Some(h)
  {
    var p := HeaderPayload(h);
    var n := |h.lines|;
    Le32RoundTrip(n);
    Le32RoundTrip(Unsigned32(h.status));
    assert p[..4] == Le32(n);
    assert p[4..8] == Le32(Unsigned32(h.status));
    assert p[8..8 + 2 * n] == Lengths(h.lines);
    assert p[8 + 2 * n..] == Lines(h.lines);
    CutAll(h.lines, [], []);
    assert h.lines + [] == h.lines;
    assert Lengths(h.lines) + [] == Lengths(h.lines) && Lines(h.lines) + [] == Lines(h.lines);
  }
}

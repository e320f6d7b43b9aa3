/**
 The response side of LSAPI_Request: the 8192-byte response buffer, five
 packet-header slots and sixteen I/O vectors (src/lsapilib.c:1490-1528, 1600-1715,
 1850-1937, 2070-2134 and 2479-2503).

 A vector holds a reference, not bytes: what is written is what the slot, the
 buffer or the header table contains when writev runs.
 */
module LsapiResponse {
  import opened Common
  import opened Endian
  import opened LsapiPacket
  import opened RespHeaderTable

  const RESP_BUF_SIZE: nat := 8192
  const HEADER_SLOTS: nat := 5
  const IOVECS: nat := 16

  /** An lsapi_packet_header in m_respPktHeader. */
  datatype Slot = Slot(kind: byte, len: nat)

  /** One struct iovec: what it points to and how long it is. */
  datatype IoVec =
    | RespHeaderVec(len: nat)            // &m_respHeader and the lengths behind it
    | HeaderTextVec(len: nat)            // m_pRespHeaderBuf
    | SlotVec(slot: nat, len: nat)       // &m_respPktHeader[slot]
    | BufferVec(len: nat)                // m_pRespBuf
    | UserVec(data: seq<byte>, len: nat) // the caller's bytes
    | EndVec(len: nat)                   // finish_close

  /** The memory the vectors refer to. */
  datatype Memory = Memory(
    respHeader: seq<byte>,
    headerText: seq<byte>,
    slots: seq<Slot>,
    buffer: seq<byte>)

  /** The bytes a vector refers to. */
  function VecBytes(mem: Memory, v: IoVec): seq<byte> {
    match v
    case RespHeaderVec(_) => mem.respHeader
    case HeaderTextVec(_) => mem.headerText
    case SlotVec(k, _) =>
      if k < |mem.slots| && mem.slots[k].len < TWO32 then PacketHeader(mem.slots[k].kind, mem.slots[k].len) else []
    case BufferVec(n) => if n <= |mem.buffer| then mem.buffer[..n] else []
    case UserVec(data, _) => data
    case EndVec(_) => PacketHeader(RESP_END, PACKET_HEADER_LEN)
  }

  /** What writev sends for a list of vectors. */
  function Gather(mem: Memory, vs: seq<IoVec>): seq<byte> {
    if vs == [] then [] else Gather(mem, vs[..|vs| - 1]) + VecBytes(mem, vs[|vs| - 1])
  }

  function TotalLen(vs: seq<IoVec>): nat {
    if vs == [] then 0 else TotalLen(vs[..|vs| - 1]) + vs[|vs| - 1].len
  }

  /** Each vector's length is the length of what it refers to. */
  predicate Exact(mem: Memory, vs: seq<IoVec>) {
    forall k :: 0 <= k < |vs| ==> vs[k].len == |VecBytes(mem, vs[k])|
  }

  lemma GatherSnoc(mem: Memory, vs: seq<IoVec>, v: IoVec)
    ensures Gather(mem, vs + [v]) == Gather(mem, vs) + VecBytes(mem, v)
    ensures TotalLen(vs + [v]) == TotalLen(vs) + v.len
  {
    assert (vs + [v])[..|vs|] == vs;
  }

  /** Vectors that refer to unchanged memory still mean the same bytes. */
  lemma {:induction false} GatherFrame(mem: Memory, mem': Memory, vs: seq<IoVec>)
    requires forall v :: v in vs ==> VecBytes(mem, v) == VecBytes(mem', v)
    ensures Gather(mem', vs) == Gather(mem, vs)
  {
    hide VecBytes;
    if vs != [] {
      GatherFrame(mem, mem', vs[..|vs| - 1]);
      assert vs[|vs| - 1] in vs;
    }
  }

  /** The bytes of m_respHeader as the finaliser leaves them, with the lengths that follow it. */
  function RespHeaderBytes(packetLen: nat, status: int, lens: seq<nat>): (b: seq<byte>)
    requires packetLen < TWO32 && -TWO31 <= status < TWO31 && |lens| < TWO32
    requires forall k :: 0 <= k < |lens| ==> lens[k] < TWO16
    ensures |b| == 16 + 2 * |lens|
  {
    PacketHeader(RESP_HEADER, packetLen) + Le32(|lens|) + Le32(Unsigned32(status)) + LensBytes(lens)
  }

  function LensBytes(lens: seq<nat>): (b: seq<byte>)
    requires forall k :: 0 <= k < |lens| ==> lens[k] < TWO16
    ensures |b| == 2 * |lens|
  {
    if lens == [] then [] else LensBytes(lens[..|lens| - 1]) + Le16(lens[|lens| - 1])
  }

  lemma {:induction false} LensAreLengths(lens: seq<nat>, lines: seq<seq<byte>>)
    requires |lens| == |lines|
    requires forall k :: 0 <= k < |lens| ==> lens[k] == |lines[k]| + 1 < TWO16
    ensures LensBytes(lens) == Lengths(lines)
  {
    if lens != [] {
      LensAreLengths(lens[..|lens| - 1], lines[..|lines| - 1]);
    }
  }

  lemma {:induction false} LinesBound(lines: seq<seq<byte>>)
    requires forall k :: 0 <= k < |lines| ==> |lines[k]| + 1 < TWO16
    ensures |Lines(lines)| <= TWO16 * |lines|
  {
    if lines != [] {
      LinesBound(lines[..|lines| - 1]);
    }
  }

  /** The finalised header vectors are one RESP_HEADER packet. */
  lemma HeaderPacketBytes(status: int, lens: seq<nat>, lines: seq<seq<byte>>)
    requires |lens| == |lines| <= MAX_RESP_HEADERS && -TWO31 <= status < TWO31
    requires forall k :: 0 <= k < |lens| ==> lens[k] == |lines[k]| + 1 < TWO16
    ensures HeaderFits(HeaderInfo(status, lines))
    ensures var p := Packet(RESP_HEADER, HeaderPayload(HeaderInfo(status, lines)));
      && Fits(p)
      && |p.payload| + PACKET_HEADER_LEN == 16 + 2 * |lens| + |Lines(lines)|
      && Encode(p) == RespHeaderBytes(16 + 2 * |lens| + |Lines(lines)|, status, lens) + Lines(lines)
  {
    LensAreLengths(lens, lines);
    LinesBound(lines);
    hide Lines, Lengths, LensBytes, PacketHeader;
  }

  // ----- What a response must look like -----

  /** The stream bytes carried by a list of packets. */
  function Streamed(ps: seq<Packet>): seq<byte> {
    if ps == [] then []
    else
      var last := ps[|ps| - 1];
      Streamed(ps[..|ps| - 1]) + if last.kind == RESP_STREAM then last.payload else []
  }

  predicate IsStream(p: Packet) {
    p.kind == RESP_STREAM && 0 < |p.payload| <= MAX_DATA_PACKET_LEN
  }

  /** One RESP_HEADER, then non-empty RESP_STREAM packets of bounded size. */
  predicate Streaming(ps: seq<Packet>, info: HeaderInfo) {
    && HeaderFits(info)
    && |ps| > 0 && ps[0] == Packet(RESP_HEADER, HeaderPayload(info))
    && (forall k :: 1 <= k < |ps| ==> IsStream(ps[k]))
  }

  /** A complete response: the same, and one RESP_END. */
  predicate Complete(ps: seq<Packet>, info: HeaderInfo) {
    && |ps| > 1 && Streaming(ps[..|ps| - 1], info)
    && ps[|ps| - 1] == Packet(RESP_END, [])
  }

  lemma StreamedSnoc(ps: seq<Packet>, p: Packet)
    ensures Streamed(ps + [p]) == Streamed(ps) + if p.kind == RESP_STREAM then p.payload else []
  {
    assert (ps + [p])[..|ps|] == ps;
  }

  /** The queued vectors stand for the packets not yet on the wire. */
  predicate Pending(mem: Memory, vs: seq<IoVec>, total: nat, wire: seq<byte>, packets: seq<Packet>) {
    && Exact(mem, vs) && total == TotalLen(vs)
    && AllFit(packets) && wire + Gather(mem, vs) == EncodeAll(packets)
  }

  // ----- The response side as a value -----

  /** The fields of one response; `lens` and `text` are the header table's. */
  datatype R = R(
    lens: seq<nat>,
    text: seq<byte>,
    buffer: seq<byte>,   // m_pRespBuf
    slots: seq<Slot>,    // m_respPktHeader
    iov: seq<IoVec>,     // m_pIovec
    bufPos: nat,         // m_pRespBufPos - m_pRespBuf
    cur: nat,            // m_pIovecCur - m_pIovec
    toWrite: nat,        // m_pIovecToWrite - m_pIovec
    totalLen: nat,
    respHeaderLen: nat,  // the length field of m_respHeader
    status: int,
    connected: bool,     // m_fd != -1
    wire: seq<byte>)     // what the socket has taken for this response

  predicate Shape(r: R) {
    && |r.buffer| == RESP_BUF_SIZE && |r.slots| == HEADER_SLOTS && |r.iov| == IOVECS
    && r.respHeaderLen < TWO32 && -TWO31 <= r.status < TWO31
    && |r.lens| <= MAX_RESP_HEADERS && (forall k :: 0 <= k < |r.lens| ==> r.lens[k] < TWO16)
    && r.toWrite <= r.cur <= 11 && r.bufPos < RESP_BUF_SIZE
  }

  function Mem(r: R): Memory
    requires Shape(r)
  {
    Memory(RespHeaderBytes(r.respHeaderLen, r.status, r.lens), r.text, r.slots, r.buffer)
  }

  function Queue(r: R): seq<IoVec>
    requires Shape(r)
  {
    r.iov[r.toWrite..r.cur]
  }

  /** Fill the next vector. */
  function Pushed(r: R, v: IoVec): R
    requires r.cur < |r.iov|
  {
    r.(iov := r.iov[r.cur := v], cur := r.cur + 1)
  }

  function Finalized(r: R): R
    requires |r.iov| == IOVECS && r.cur == 1
  {
    var r1 := if r.text != [] then Pushed(r, HeaderTextVec(|r.text|)) else r;
    var total := r.totalLen + |r.text| + 16 + 2 * |r.lens|;
    r1.(iov := r1.iov[0 := RespHeaderVec(16 + 2 * |r.lens|)], totalLen := total, respHeaderLen := total, toWrite := 0)
  }

  /** Build header slot k for a packet of `len` bytes in all. */
  function Built(r: R, k: nat, len: nat): R
    requires k < |r.slots|
  {
    r.(slots := r.slots[k := Slot(RESP_STREAM, len)], totalLen := r.totalLen + len)
  }

  /** Queue the buffered bytes, if any, and empty the buffer. */
  function WithBuffer(r: R, buffered: nat): R
    requires r.cur < |r.iov|
  {
    if buffered > 0 then Pushed(r.(bufPos := 0), BufferVec(buffered)) else r
  }

  function WithPiece(r: R, piece: seq<byte>): R
    requires r.cur < |r.iov|
  {
    if piece == [] then r else Pushed(r, UserVec(piece, |piece|))
  }

  /** One RESP_STREAM packet: header slot k, the buffered bytes, a piece of the caller's data. */
  function Queued(r: R, k: nat, buffered: nat, piece: seq<byte>): R
    requires k < |r.slots| && r.cur + 3 <= |r.iov|
  {
    var r1 := Pushed(Built(r, k, buffered + |piece| + PACKET_HEADER_LEN), SlotVec(k, PACKET_HEADER_LEN));
    WithPiece(WithBuffer(r1, buffered), piece)
  }

  /** After writev: all bytes taken, or a failure that closes the connection. */
  function Sent(r: R, ok: bool, taken: nat): R
    requires Shape(r)
  {
    var bytes := Gather(Mem(r), Queue(r));
    r.(wire := r.wire + (if ok then bytes else bytes[..Min(taken, |bytes|)]),
       connected := ok, totalLen := 0, cur := 0, toWrite := 0)
  }

  /** The vectors stand for the packets that are not on the wire; no stream byte is lost. */
  predicate Flowing(r: R, lines: seq<seq<byte>>, packets: seq<Packet>, buffered: seq<byte>, written: seq<byte>) {
    && Shape(r)
    && Pending(Mem(r), Queue(r), r.totalLen, r.wire, packets)
    && Streaming(packets, HeaderInfo(r.status, lines))
    && Streamed(packets) + buffered == written
  }

  /** No queued vector refers to header slot k or above. */
  predicate SlotsBelow(vs: seq<IoVec>, k: nat) {
    forall v :: v in vs && v.SlotVec? ==> v.slot < k
  }

  /** Between API calls: at most two vectors are occupied, and none refers to a slot or to the buffer. */
  predicate AtRest(r: R)
    requires Shape(r)
  {
    r.toWrite == 0 && r.cur <= 2 && forall v :: v in Queue(r) ==> v.RespHeaderVec? || v.HeaderTextVec?
  }

  /** Before the headers are finalised nothing is pending. */
  predicate Unstarted(r: R) {
    r.cur == 1 && r.toWrite == 1 && r.bufPos == 0 && r.totalLen == 0 && r.wire == []
  }

  predicate TableOf(r: R, lines: seq<seq<byte>>) {
    && |r.lens| == |lines| && r.text == Lines(lines)
    && (forall k :: 0 <= k < |lines| ==> r.lens[k] == |lines[k]| + 1)
  }

  lemma OnePacket(p: Packet)
    requires Fits(p)
    ensures EncodeAll([p]) == Encode(p) && AllFit([p])
    ensures Streamed([p]) == if p.kind == RESP_STREAM then p.payload else []
  {
    EncodeAllSnoc([], p);
    StreamedSnoc([], p);
    assert [] + [p] == [p];
  }

  lemma GatherOne(mem: Memory, v: IoVec)
    ensures Gather(mem, [v]) == VecBytes(mem, v) && TotalLen([v]) == v.len
  {
    GatherSnoc(mem, [], v);
    assert [] + [v] == [v];
  }

  lemma GatherTwo(mem: Memory, v: IoVec, w: IoVec)
    ensures Gather(mem, [v, w]) == VecBytes(mem, v) + VecBytes(mem, w) && TotalLen([v, w]) == v.len + w.len
  {
    GatherOne(mem, v);
    GatherSnoc(mem, [v], w);
    assert [v] + [w] == [v, w];
  }

  /** The finalised vectors carry exactly the RESP_HEADER packet. */
  lemma HeaderVectors(mem: Memory, vs: seq<IoVec>, n: nat, p: Packet)
    requires Fits(p) && Encode(p) == mem.respHeader + mem.headerText && n == |mem.headerText|
    requires vs == if n > 0 then [RespHeaderVec(|mem.respHeader|), HeaderTextVec(n)]
                   else [RespHeaderVec(|mem.respHeader|)]
    ensures Pending(mem, vs, |mem.respHeader| + n, [], [p])
  {
    hide Encode, EncodeAll, Gather, TotalLen;
    OnePacket(p);
    if n > 0 {
      GatherTwo(mem, vs[0], vs[1]);
    } else {
      GatherOne(mem, vs[0]);
      assert mem.respHeader + mem.headerText == mem.respHeader;
    }
  }

  lemma FinalizedFlows(r: R, lines: seq<seq<byte>>)
    requires Shape(r) && Unstarted(r) && TableOf(r, lines)
    ensures HeaderFits(HeaderInfo(r.status, lines)) && Shape(Finalized(r)) && AtRest(Finalized(r))
    ensures Flowing(Finalized(r), lines, [Packet(RESP_HEADER, HeaderPayload(HeaderInfo(r.status, lines)))], [], [])
  {
    HeaderPacketBytes(r.status, r.lens, lines);
    var p := Packet(RESP_HEADER, HeaderPayload(HeaderInfo(r.status, lines)));
    hide Encode, EncodeAll, Gather, TotalLen, HeaderPayload, RespHeaderBytes, Lines, Streamed;
    var r' := Finalized(r);
    OnePacket(p);
    var n := |r.text|;
    assert Queue(r') == if n > 0 then [RespHeaderVec(16 + 2 * |r.lens|), HeaderTextVec(n)]
                        else [RespHeaderVec(16 + 2 * |r.lens|)];
    HeaderVectors(Mem(r'), Queue(r'), n, p);
  }

  lemma PushedQueue(r: R, v: IoVec)
    requires Shape(r) && r.cur < 11
    ensures Shape(Pushed(r, v)) && Queue(Pushed(r, v)) == Queue(r) + [v] && Mem(Pushed(r, v)) == Mem(r)
  {
  }

  /** Pushing a vector of n bytes extends what is pending by what it refers to. */
  lemma ExtendPending(mem: Memory, vs: seq<IoVec>, v: IoVec, wire: seq<byte>)
    requires Exact(mem, vs) && v.len == |VecBytes(mem, v)|
    ensures Exact(mem, vs + [v]) && TotalLen(vs + [v]) == TotalLen(vs) + v.len
    ensures wire + Gather(mem, vs + [v]) == wire + Gather(mem, vs) + VecBytes(mem, v)
  {
    hide VecBytes;
    GatherSnoc(mem, vs, v);
  }

  /** Rewriting slot k does not touch vectors that refer to lower slots. */
  lemma SlotRewritten(mem: Memory, k: nat, slot: Slot, vs: seq<IoVec>)
    requires k < |mem.slots| && SlotsBelow(vs, k) && Exact(mem, vs)
    ensures var mem' := mem.(slots := mem.slots[k := slot]);
      Gather(mem', vs) == Gather(mem, vs) && Exact(mem', vs)
  {
    var mem' := mem.(slots := mem.slots[k := slot]);
    forall v | v in vs
      ensures VecBytes(mem, v) == VecBytes(mem', v)
    {
    }
    hide VecBytes;
    GatherFrame(mem, mem', vs);
    forall j | 0 <= j < |vs|
      ensures vs[j].len == |VecBytes(mem', vs[j])|
    {
      assert vs[j] in vs;
    }
  }

  function StreamPacket(r: R, buffered: nat, piece: seq<byte>): Packet
    requires buffered <= |r.buffer|
  {
    Packet(RESP_STREAM, r.buffer[..buffered] + piece)
  }

  /** The vectors that Queued adds. */
  function Added(k: nat, buffered: nat, piece: seq<byte>): seq<IoVec> {
    [SlotVec(k, PACKET_HEADER_LEN)]
    + (if buffered > 0 then [BufferVec(buffered)] else [])
    + (if piece == [] then [] else [UserVec(piece, |piece|)])
  }

  lemma QueuedShape(r: R, k: nat, buffered: nat, piece: seq<byte>)
    requires Shape(r) && k < 4 && r.cur + (if buffered > 0 then 3 else 2) <= 11
    ensures var r' := Queued(r, k, buffered, piece);
      var slot := Slot(RESP_STREAM, buffered + |piece| + PACKET_HEADER_LEN);
      && Shape(r')
      && Mem(r') == Mem(r).(slots := r.slots[k := slot])
      && Queue(r') == Queue(r) + Added(k, buffered, piece)
      && r'.wire == r.wire && r'.status == r.status && r'.totalLen == r.totalLen + slot.len
  {
    hide RespHeaderBytes;
  }

  lemma {:induction false} GatherConcat(mem: Memory, vs: seq<IoVec>, ws: seq<IoVec>)
    ensures Gather(mem, vs + ws) == Gather(mem, vs) + Gather(mem, ws)
    ensures TotalLen(vs + ws) == TotalLen(vs) + TotalLen(ws)
  {
    hide VecBytes;
    if ws == [] {
      assert vs + ws == vs;
    } else {
      var n := |ws| - 1;
      GatherConcat(mem, vs, ws[..n]);
      assert (vs + ws)[..|vs + ws| - 1] == vs + ws[..n];
    }
  }

  lemma GatherThree(mem: Memory, u: IoVec, v: IoVec, w: IoVec)
    ensures Gather(mem, [u, v, w]) == VecBytes(mem, u) + VecBytes(mem, v) + VecBytes(mem, w)
    ensures TotalLen([u, v, w]) == u.len + v.len + w.len
  {
    hide VecBytes, Gather, TotalLen;
    GatherTwo(mem, u, v);
    GatherSnoc(mem, [u, v], w);
    assert [u, v] + [w] == [u, v, w];
  }

  /** The vectors that Queued adds are exactly one encoded packet. */
  lemma AddedBytes(mem: Memory, k: nat, buffered: nat, piece: seq<byte>)
    requires k < |mem.slots| && buffered <= |mem.buffer| && 0 < buffered + |piece| <= MAX_DATA_PACKET_LEN
    requires mem.slots[k] == Slot(RESP_STREAM, buffered + |piece| + PACKET_HEADER_LEN)
    ensures var vs := Added(k, buffered, piece);
      && Exact(mem, vs) && TotalLen(vs) == buffered + |piece| + PACKET_HEADER_LEN
      && Gather(mem, vs) == Encode(Packet(RESP_STREAM, mem.buffer[..buffered] + piece))
  {
    hide Gather, TotalLen, PacketHeader;
    var v1, v2, v3 := SlotVec(k, PACKET_HEADER_LEN), BufferVec(buffered), UserVec(piece, |piece|);
    var header := VecBytes(mem, v1);
    if buffered == 0 {
      GatherTwo(mem, v1, v3);
      assert Added(k, buffered, piece) == [v1, v3];
      assert mem.buffer[..0] + piece == piece;
    } else if piece == [] {
      GatherTwo(mem, v1, v2);
      assert Added(k, buffered, piece) == [v1, v2];
      assert mem.buffer[..buffered] + piece == mem.buffer[..buffered];
    } else {
      GatherThree(mem, v1, v2, v3);
      assert Added(k, buffered, piece) == [v1, v2, v3];
      assert header + mem.buffer[..buffered] + piece == header + (mem.buffer[..buffered] + piece);
    }
  }

  lemma ExactConcat(mem: Memory, vs: seq<IoVec>, ws: seq<IoVec>)
    requires Exact(mem, vs) && Exact(mem, ws)
    ensures Exact(mem, vs + ws)
  {
    hide VecBytes;
  }

  lemma Assoc(a: seq<byte>, b: seq<byte>, c: seq<byte>)
    ensures a + (b + c) == a + b + c
  {
  }

  /** Appending whole packets to what is pending. */
  lemma PendingGrows(mem: Memory, vs: seq<IoVec>, ws: seq<IoVec>, total: nat, wire: seq<byte>,
                     packets: seq<Packet>, p: Packet)
    requires Pending(mem, vs, total, wire, packets) && Exact(mem, ws) && Fits(p) && Gather(mem, ws) == Encode(p)
    ensures Pending(mem, vs + ws, total + TotalLen(ws), wire, packets + [p])
  {
    hide Gather, TotalLen, Encode, EncodeAll, Exact, AllFit, Fits;
    GatherConcat(mem, vs, ws);
    ExactConcat(mem, vs, ws);
    EncodeAllSnoc(packets, p);
    Assoc(wire, Gather(mem, vs), Gather(mem, ws));
  }

  lemma QueuedPending(r: R, packets: seq<Packet>, k: nat, buffered: nat, piece: seq<byte>)
    requires Shape(r) && Pending(Mem(r), Queue(r), r.totalLen, r.wire, packets)
    requires k < 4 && SlotsBelow(Queue(r), k) && r.cur + (if buffered > 0 then 3 else 2) <= 11
    requires 0 < buffered + |piece| <= MAX_DATA_PACKET_LEN && buffered <= |r.buffer|
    ensures var r' := Queued(r, k, buffered, piece);
      Shape(r') && Pending(Mem(r'), Queue(r'), r'.totalLen, r'.wire, packets + [StreamPacket(r, buffered, piece)])
  {
    hide Gather, TotalLen, Encode, EncodeAll, Exact, Queued, Mem, VecBytes, Added, Queue, SlotsBelow, AllFit;
    var r' := Queued(r, k, buffered, piece);
    var slot := Slot(RESP_STREAM, buffered + |piece| + PACKET_HEADER_LEN);
    QueuedShape(r, k, buffered, piece);
    MemParts(r);
    SlotRewritten(Mem(r), k, slot, Queue(r));
    AddedBytes(Mem(r'), k, buffered, piece);
    assert Pending(Mem(r'), Queue(r), r.totalLen, r.wire, packets);
    PendingGrows(Mem(r'), Queue(r), Added(k, buffered, piece), r.totalLen, r.wire, packets,
                 StreamPacket(r, buffered, piece));
  }

  lemma MemParts(r: R)
    requires Shape(r)
    ensures Mem(r).slots == r.slots && Mem(r).buffer == r.buffer && Mem(r).headerText == r.text
  {
  }

  lemma StreamingGrows(packets: seq<Packet>, p: Packet, info: HeaderInfo)
    requires Streaming(packets, info) && IsStream(p)
    ensures Streaming(packets + [p], info)
  {
    hide HeaderFits, HeaderPayload;
  }

  lemma AddedSlots(vs: seq<IoVec>, k: nat, buffered: nat, piece: seq<byte>)
    requires SlotsBelow(vs, k)
    ensures SlotsBelow(vs + Added(k, buffered, piece), k + 1)
  {
  }

  /** Queuing one more packet keeps the flow, and accounts for its piece of the data. */
  lemma QueuedFlows(r: R, lines: seq<seq<byte>>, packets: seq<Packet>, k: nat, buffered: nat, piece: seq<byte>,
                    written: seq<byte>)
    requires Shape(r) && buffered <= |r.buffer| && Flowing(r, lines, packets, r.buffer[..buffered], written)
    requires k < 4 && SlotsBelow(Queue(r), k) && r.cur + (if buffered > 0 then 3 else 2) <= 11
    requires 0 < buffered + |piece| <= MAX_DATA_PACKET_LEN
    ensures var r' := Queued(r, k, buffered, piece);
      && Flowing(r', lines, packets + [StreamPacket(r, buffered, piece)], [], written + piece)
      && SlotsBelow(Queue(r'), k + 1)
  {
    hide Pending, Streaming, SlotsBelow, Queued, Mem, Added, Streamed, Queue, Shape;
    var p := StreamPacket(r, buffered, piece);
    QueuedShape(r, k, buffered, piece);
    QueuedPending(r, packets, k, buffered, piece);
    StreamingGrows(packets, p, HeaderInfo(r.status, lines));
    AddedSlots(Queue(r), k, buffered, piece);
    StreamedSnoc(packets, p);
    Assoc(Streamed(packets), r.buffer[..buffered], piece);
    assert Streamed(packets + [p]) + [] == written + piece;
  }

  /** After a writev that took everything, the wire is exactly the packets. */
  lemma SentFlows(r: R, lines: seq<seq<byte>>, packets: seq<Packet>, buffered: seq<byte>, written: seq<byte>,
                  taken: nat)
    requires Flowing(r, lines, packets, buffered, written)
    ensures var r' := Sent(r, true, taken);
      && Flowing(r', lines, packets, buffered, written) && AtRest(r') && Queue(r') == []
      && r'.wire == EncodeAll(packets)
  {
    hide EncodeAll, Streamed;
    var r' := Sent(r, true, taken);
    assert Queue(r') == [];
    assert r'.wire + [] == r'.wire;
  }

  function EndQueued(r: R): R
    requires r.cur < |r.iov|
  {
    Pushed(r, EndVec(PACKET_HEADER_LEN)).(totalLen := r.totalLen + PACKET_HEADER_LEN)
  }

  const END_PACKET := Packet(RESP_END, [])

  /** The vectors with the RESP_END stand for the packets with the RESP_END. */
  lemma EndQueuedPending(r: R, packets: seq<Packet>)
    requires Shape(r) && r.cur < 11 && Pending(Mem(r), Queue(r), r.totalLen, r.wire, packets)
    ensures var r' := EndQueued(r);
      Shape(r') && Pending(Mem(r'), Queue(r'), r'.totalLen, r'.wire, packets + [END_PACKET])
  {
    hide Gather, TotalLen, EncodeAll, Exact, RespHeaderBytes;
    var end := EndVec(PACKET_HEADER_LEN);
    assert Encode(END_PACKET) == PacketHeader(RESP_END, PACKET_HEADER_LEN) == VecBytes(Mem(r), end);
    PushedQueue(r, end);
    EndQueuedIsPushed(r);
    hide Mem, Queue, Pushed, EndQueued, Shape, Encode, VecBytes, PacketHeader;
    ExtendPending(Mem(r), Queue(r), end, r.wire);
    EncodeAllSnoc(packets, END_PACKET);
  }

  lemma EndQueuedIsPushed(r: R)
    requires Shape(r) && r.cur < 11
    ensures var r', p := EndQueued(r), Pushed(r, EndVec(PACKET_HEADER_LEN));
      && Shape(r') && Shape(p) && Queue(r') == Queue(p) && Mem(r') == Mem(p)
      && r'.totalLen == r.totalLen + PACKET_HEADER_LEN && r'.wire == r.wire
  {
  }

  /** LSAPI_Flush_r on an open connection whose headers are finalised. */
  function Flushed(r: R, ok: bool, taken: nat): R
    requires Shape(r) && (r.bufPos > 0 ==> r.cur <= 2)
  {
    if r.toWrite == r.cur && r.bufPos == 0 then r
    else if r.bufPos == 0 then Sent(r, ok, taken)
    else
      QueuedShape(r, 0, r.bufPos, []);
      Sent(Queued(r, 0, r.bufPos, []), ok, taken)
  }

  /** The packets after a flush: the buffered bytes have become one more. */
  function FlushedPackets(r: R, packets: seq<Packet>): seq<Packet>
    requires Shape(r)
  {
    if r.bufPos == 0 then packets else packets + [StreamPacket(r, r.bufPos, [])]
  }

  /** A successful flush leaves nothing pending: the wire is exactly the packets. */
  lemma FlushedFlows(r: R, lines: seq<seq<byte>>, packets: seq<Packet>, written: seq<byte>, taken: nat)
    requires Shape(r) && Flowing(r, lines, packets, r.buffer[..r.bufPos], written) && (r.bufPos > 0 ==> AtRest(r))
    requires r.toWrite == r.cur ==> r.cur <= 2 && r.toWrite == 0
    ensures var r' := Flushed(r, true, taken);
      && Flowing(r', lines, FlushedPackets(r, packets), [], written) && AtRest(r') && r'.bufPos == 0
      && r'.wire == EncodeAll(FlushedPackets(r, packets))
  {
    hide Pending, Streaming, Streamed, Queued, RespHeaderBytes;
    if r.bufPos == 0 && r.toWrite == r.cur {
      NothingQueued(r, packets);
      assert r.buffer[..0] == [];
    } else if r.bufPos == 0 {
      assert r.buffer[..0] == [];
      SentFlows(r, lines, packets, [], written, taken);
    } else {
      RestHasNoSlots(r);
      QueuedFlows(r, lines, packets, 0, r.bufPos, [], written);
      QueuedBufPos(r, 0, r.bufPos, []);
      assert written + [] == written;
      SentFlows(Queued(r, 0, r.bufPos, []), lines, FlushedPackets(r, packets), [], written, taken);
    }
  }

  lemma QueuedBufPos(r: R, k: nat, buffered: nat, piece: seq<byte>)
    requires k < |r.slots| && r.cur + 3 <= |r.iov|
    ensures Queued(r, k, buffered, piece).bufPos == if buffered > 0 then 0 else r.bufPos
    ensures Queued(r, k, buffered, piece).cur == r.cur + |Added(k, buffered, piece)|
    ensures Queued(r, k, buffered, piece).toWrite == r.toWrite
    ensures Queued(r, k, buffered, piece).buffer == r.buffer
    ensures Queued(r, k, buffered, piece).connected == r.connected
  {
  }

  lemma RestHasNoSlots(r: R)
    requires Shape(r) && AtRest(r)
    ensures SlotsBelow(Queue(r), 0)
  {
  }

  lemma NothingQueued(r: R, packets: seq<Packet>)
    requires Shape(r) && r.toWrite == r.cur == 0 && Pending(Mem(r), Queue(r), r.totalLen, r.wire, packets)
    ensures r.wire == EncodeAll(packets) && AtRest(r)
  {
    hide EncodeAll;
    assert Queue(r) == [];
    assert r.wire + [] == r.wire;
  }

  /** Bytes may be added to the response buffer at rest: no queued vector refers to it. */
  lemma BufferedFlows(r: R, r': R, lines: seq<seq<byte>>, packets: seq<Packet>, data: seq<byte>, written: seq<byte>)
    requires Shape(r) && AtRest(r) && Flowing(r, lines, packets, r.buffer[..r.bufPos], written)
    requires r' == r.(buffer := r'.buffer, bufPos := r.bufPos + |data|)
    requires |r'.buffer| == RESP_BUF_SIZE && r'.bufPos < RESP_BUF_SIZE
    requires r'.buffer[..r'.bufPos] == r.buffer[..r.bufPos] + data
    ensures AtRest(r') && Flowing(r', lines, packets, r'.buffer[..r'.bufPos], written + data)
  {
    hide Streamed, EncodeAll, Streaming, RespHeaderBytes, TotalLen, PacketHeader;
    forall v | v in Queue(r)
      ensures VecBytes(Mem(r), v) == VecBytes(Mem(r'), v)
    {
    }
    GatherFrame(Mem(r), Mem(r'), Queue(r));
    forall k | 0 <= k < |Queue(r)|
      ensures Queue(r)[k].len == |VecBytes(Mem(r'), Queue(r)[k])|
    {
      assert Queue(r)[k] in Queue(r);
    }
    Assoc(Streamed(packets), r.buffer[..r.bufPos], data);
  }

  /** After a writev that took everything, the wire is the packets, whatever they are. */
  lemma SentPending(r: R, packets: seq<Packet>, taken: nat)
    requires Shape(r) && Pending(Mem(r), Queue(r), r.totalLen, r.wire, packets)
    ensures Sent(r, true, taken).wire == EncodeAll(packets)
  {
  }

  /** A finished response as the receiver reads it. */
  lemma CompleteDecodes(packets: seq<Packet>, info: HeaderInfo)
    requires Streaming(packets, info) && AllFit(packets)
    ensures var ps := packets + [END_PACKET];
      && AllFit(ps) && Complete(ps, info)
      && Decode(EncodeAll(ps)) == Some(ps)
      && DecodeHeader(ps[0].payload) == Some(info)
  {
    var ps := packets + [END_PACKET];
    assert ps[..|ps| - 1] == packets;
    HeaderRoundTrip(info);
    hide EncodeAll, HeaderPayload, DecodeHeader;
    DecodeEncode(ps, []);
    assert EncodeAll(ps) + [] == EncodeAll(ps);
    assert ps + [] == ps;
  }
}

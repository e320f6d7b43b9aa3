/** The response side of LSAPI_Request as an object, against the values of LsapiResponse. */
module LsapiWriter {
  import opened Common
  import opened LsapiPacket
  import opened RespHeaderTable
  import opened LsapiResponse

  /** A connection is open behind the writevs from `from` to `to` exactly if it was, and each took all. */
  ghost predicate Survives(accepts: nat -> bool, was: bool, from: nat, now: bool, to: nat) {
    from <= to && (now <==> was && forall k :: from <= k < to ==> accepts(k))
  }

  lemma SurvivesTwice(accepts: nat -> bool, was: bool, from: nat, mean: bool, mid: nat, now: bool, to: nat)
    requires Survives(accepts, was, from, mean, mid) && Survives(accepts, mean, mid, now, to)
    ensures Survives(accepts, was, from, now, to)
  {
  }

  class Request {
    const headers: Table
    const respBuf: array<byte>
    const slots: array<Slot>
    const iov: array<IoVec>
    var bufPos: nat
    var cur: nat
    var toWrite: nat
    var totalLen: nat
    var respHeaderLen: nat
    var status: int
    var active: bool        // m_reqState != 0
    var needHeader: bool    // LSAPI_ST_RESP_HEADER
    var bodyStarted: bool   // LSAPI_ST_RESP_BODY
    var connected: bool     // m_fd != -1
    const accepts: nat -> bool  // whether the k-th writev on the socket takes all its bytes
    var writevs: nat            // how many there have been
    var wire: seq<byte>
    ghost var packets: seq<Packet>  // the packets queued or sent for this response
    ghost var written: seq<byte>    // all bytes given to Write for this response
    ghost var mostIov: nat          // one past the highest vector ever used
    ghost var mostSlots: nat        // the most header slots ever in use

    ghost predicate Sound()
      reads this, respBuf, slots, iov, headers, headers.buf, headers.lens
    {
      && headers.Valid() && respBuf != headers.buf
      && mostIov <= 11 && mostSlots <= 4
      && Shape(View())
    }

    function View(): R
      requires headers.Valid()
      reads this, respBuf, slots, iov, headers, headers.buf, headers.lens
    {
      R(headers.lens[..headers.count], headers.buf[..headers.pos], respBuf[..], slots[..], iov[..],
        bufPos, cur, toWrite, totalLen, respHeaderLen, status, connected, wire)
    }

    /** Between API calls. */
    ghost predicate Valid()
      reads this, respBuf, slots, iov, headers, headers.buf, headers.lens
    {
      && Sound()
      && (active && connected ==>
            if needHeader then Unstarted(View()) && packets == [] && written == []
            else AtRest(View()) && Flowing(View(), headers.lines, packets, respBuf[..bufPos], written))
    }

    /** Between requests. */
    ghost predicate Ready()
      reads this, respBuf, slots, iov, headers, headers.buf, headers.lens
    {
      Valid() && !active && cur == 1 && toWrite == 1 && bufPos == 0 && totalLen == 0
    }

    /** A connection breaks when a writev on it fails, and only then. */
    ghost predicate Kept(was: bool, from: nat)
      reads this`connected, this`writevs
    {
      Survives(accepts, was, from, connected, writevs)
    }

    /** LSAPI_InitRequest: no request yet. */
    constructor (accepts: nat -> bool)
      ensures this.accepts == accepts && Ready() && headers.lines == [] && status == 0
      ensures fresh(headers) && fresh(headers.buf) && fresh(headers.lens)
      ensures fresh(respBuf) && fresh(slots) && fresh(iov)
    {
      headers := new Table();
      respBuf := new byte[RESP_BUF_SIZE];
      slots := new Slot[HEADER_SLOTS](_ => Slot(0, 0));
      iov := new IoVec[IOVECS](_ => EndVec(0));
      bufPos, cur, toWrite, totalLen, respHeaderLen, status := 0, 1, 1, 0, 0, 0;
      active, needHeader, bodyStarted, connected, wire := false, false, false, false, [];
      packets, written, mostIov, mostSlots := [], [], 0, 0;
      this.accepts, writevs := accepts, 0;
    }

    /** readReq has accepted a request on an open connection. */
    method BeginRequest()
      requires Ready()
      modifies this
      ensures Valid() && active && needHeader && connected && !bodyStarted && writevs == old(writevs)
      ensures headers.lines == old(headers.lines) && status == old(status)
    {
      hide Shape, Table.Valid;
      var before := View();
      active, needHeader, bodyStarted, connected, wire := true, true, false, true, [];
      packets, written := [], [];
      SameShape(before, View());
    }

    /** LSAPI_SetRespStatus_r, while headers may still be set. */
    method SetStatus(code: int)
      requires Valid() && (active && connected ==> needHeader) && -TWO31 <= code < TWO31
      modifies this`status
      ensures Valid() && status == code
    {
      status := code;
    }

    /** iov[cur] := v; ++cur. */
    method Push(v: IoVec)
      requires Sound() && cur < 11
      modifies this`cur, this`mostIov, iov
      ensures Sound() && View() == Pushed(old(View()), v) && cur == old(cur) + 1
    {
      iov[cur] := v;
      cur := cur + 1;
      mostIov := if cur > mostIov then cur else mostIov;
    }

    /** LSAPI_FinalizeRespHeaders_r. */
    method FinalizeHeaders()
      requires Sound() && Unstarted(View()) && needHeader
      modifies this`needHeader, this`totalLen, this`respHeaderLen, this`toWrite, this`cur, this`mostIov, iov
      ensures Sound() && !needHeader && View() == Finalized(old(View()))
    {
      hide RespHeaderBytes, Shape;
      LinesBound(headers.lines);
      FinalizedShape(View());
      needHeader := false;
      var n := headers.pos;
      if n > 0 {
        Push(HeaderTextVec(n));
      }
      PlaceHeader(n);
    }

    /** The second half of the finaliser: the vector in front, the length, the packet header. */
    method PlaceHeader(n: nat)
      requires Sound() && 0 < cur && totalLen + n + 16 + 2 * headers.count < TWO32
      modifies this`totalLen, this`respHeaderLen, this`toWrite, iov
      ensures Sound()
      ensures var total := old(totalLen) + n + 16 + 2 * headers.count;
        View() == old(View()).(iov := old(View()).iov[0 := RespHeaderVec(16 + 2 * headers.count)],
                               totalLen := total, respHeaderLen := total, toWrite := 0)
    {
      iov[0] := RespHeaderVec(16 + 2 * headers.count);
      totalLen := totalLen + n + 16 + 2 * headers.count;
      respHeaderLen := totalLen;
      toWrite := 0;
    }

    /** lsapi_buildPacketHeader and the vectors of one RESP_STREAM packet. */
    method QueuePacket(k: nat, buffered: nat, piece: seq<byte>)
      requires Sound() && k < 4 && cur + (if buffered > 0 then 3 else 2) <= 11
      modifies this`totalLen, this`mostSlots, this`bufPos, this`cur, this`mostIov, iov, slots
      ensures Sound() && View() == Queued(old(View()), k, buffered, piece)
    {
      hide Request.Sound, Request.View, Table.Valid, Shape, Pushed, Built, WithBuffer, WithPiece;
      BuildHeader(k, buffered + |piece| + PACKET_HEADER_LEN);
      Push(SlotVec(k, PACKET_HEADER_LEN));
      PushBuffer(buffered);
      PushPiece(piece);
    }

    method BuildHeader(k: nat, len: nat)
      requires Sound() && k < 4
      modifies this`totalLen, this`mostSlots, slots
      ensures Sound() && View() == Built(old(View()), k, len)
    {
      slots[k] := Slot(RESP_STREAM, len);
      totalLen := totalLen + len;
      mostSlots := if k + 1 > mostSlots then k + 1 else mostSlots;
    }

    method PushBuffer(buffered: nat)
      requires Sound() && (buffered > 0 ==> cur < 11)
      modifies this`bufPos, this`cur, this`mostIov, iov
      ensures Sound() && View() == WithBuffer(old(View()), buffered)
      ensures cur == old(cur) + if buffered > 0 then 1 else 0
    {
      hide RespHeaderBytes;
      if buffered > 0 {
        Push(BufferVec(buffered));
        bufPos := 0;
      }
    }

    method PushPiece(piece: seq<byte>)
      requires Sound() && (piece != [] ==> cur < 11)
      modifies this`cur, this`mostIov, iov
      ensures Sound() && View() == WithPiece(old(View()), piece)
    {
      if piece != [] {
        Push(UserVec(piece, |piece|));
      }
    }

    /**
     lsapi_writev on the queued vectors and what LSAPI_Flush_r does after it.  On the
     blocking socket it takes all bytes, or fails after any part of them.
     */
    method Writev() returns (ok: bool, taken: nat)
      requires Sound()
      modifies this`wire, this`connected, this`writevs, this`totalLen, this`cur, this`toWrite
      ensures Sound() && ok == connected && View() == Sent(old(View()), ok, taken)
      ensures writevs == old(writevs) + 1 && ok == accepts(old(writevs))
    {
      hide RespHeaderBytes, Gather;
      var bytes := Gather(Mem(View()), Queue(View()));
      taken, ok := *, accepts(writevs);
      writevs := writevs + 1;
      wire := wire + if ok then bytes else bytes[..Min(taken, |bytes|)];
      connected, totalLen, cur, toWrite := ok, 0, 0, 0;
    }

    /** Flush_RespBuf_r: the buffered bytes become one packet in header slot 0. */
    method FlushRespBuf()
      requires Sound() && bufPos > 0 && cur <= 2
      modifies this`bodyStarted, this`totalLen, this`mostSlots, this`bufPos, this`cur, this`mostIov, iov, slots
      ensures Sound() && View() == Queued(old(View()), 0, old(bufPos), [])
    {
      bodyStarted := true;
      QueuePacket(0, bufPos, []);
    }

    /**
     LSAPI_Flush_r on an open connection, from any state the other methods call it in.
     While headers are still to be finalised nothing is queued, so it returns early.
     */
    method FlushQueue() returns (ret: int, taken: nat)
      requires Sound() && connected && (needHeader ==> Unstarted(View())) && (bufPos > 0 ==> cur <= 2)
      modifies this`wire, this`connected, this`writevs, this`totalLen, this`toWrite, this`bodyStarted, this`mostSlots,
               this`bufPos, this`cur, this`mostIov, iov, slots
      ensures Sound() && (ret == -1 <==> !connected)
      ensures View() == if old(needHeader) then old(View()) else Flushed(old(View()), connected, taken)
      ensures Kept(old(connected), old(writevs))
    {
      hide Pushed, Queued, Sent, Shape;
      taken := 0;
      if cur - toWrite == 0 && bufPos == 0 {
        return 0, 0;
      }
      if bufPos != 0 {
        FlushRespBuf();
      }
      var ok;
      ret := totalLen;
      ok, taken := Writev();
      if !ok {
        ret := -1;
      }
    }

    /** The finaliser, with the packet it queues. */
    method StartBody()
      requires Valid() && active && connected
      modifies this`needHeader, this`bodyStarted, this`totalLen, this`respHeaderLen, this`toWrite, this`cur,
               this`mostIov, this`packets, iov
      ensures Valid() && !needHeader && bufPos == old(bufPos)
    {
      hide Pending, Streaming, Streamed, RespHeaderBytes, HeaderPayload;
      if needHeader {
        FinalizedFlows(View(), headers.lines);
        packets := [Packet(RESP_HEADER, HeaderPayload(HeaderInfo(status, headers.lines)))];
        FinalizeHeaders();
      }
      bodyStarted := true;
    }

    /** The copying branch of LSAPI_Write_r. */
    method Buffer(data: seq<byte>)
      requires Valid() && active && connected && !needHeader && bufPos + |data| < RESP_BUF_SIZE
      modifies this`bufPos, this`written, respBuf
      ensures Valid() && written == old(written) + data
    {
      hide Pending, Streaming, Streamed, RespHeaderBytes;
      ghost var r := View();
      Copy(respBuf, bufPos, data);
      bufPos := bufPos + |data|;
      written := written + data;
      BufferedFlows(r, View(), headers.lines, packets, data, old(written));
    }

    /** One iteration of the loop of LSAPI_Write_r, up to the flush. */
    method Emit(k: nat, buffered: nat, piece: seq<byte>, ghost sofar: seq<byte>)
      requires Sound() && connected && k < 4 && cur + (if buffered > 0 then 3 else 2) <= 11
      requires buffered == bufPos && 0 < buffered + |piece| <= MAX_DATA_PACKET_LEN
      requires SlotsBelow(Queue(View()), k)
      requires Flowing(View(), headers.lines, packets, respBuf[..buffered], sofar)
      modifies this`totalLen, this`mostSlots, this`bufPos, this`cur, this`mostIov, this`packets, iov, slots
      ensures Sound() && connected && bufPos == 0 && cur <= old(cur) + if buffered > 0 then 3 else 2
      ensures toWrite < cur
      ensures SlotsBelow(Queue(View()), k + 1)
      ensures Flowing(View(), headers.lines, packets, [], sofar + piece)
    {
      hide Pending, Streaming, Streamed, Queued, RespHeaderBytes, SlotsBelow, Mem;
      ghost var r := View();
      QueuedFlows(r, headers.lines, packets, k, buffered, piece, sofar);
      QueuedBufPos(r, k, buffered, piece);
      QueuePacket(k, buffered, piece);
      packets := packets + [StreamPacket(r, buffered, piece)];
    }

    /** LSAPI_Flush_r with nothing buffered: everything queued goes out, or the connection is closed. */
    method Drain(ghost sofar: seq<byte>) returns (ret: int)
      requires Sound() && connected && !needHeader && bufPos == 0 && toWrite < cur
      requires Flowing(View(), headers.lines, packets, [], sofar)
      modifies this`wire, this`connected, this`writevs, this`totalLen, this`toWrite, this`bodyStarted, this`mostSlots,
               this`bufPos, this`cur, this`mostIov, iov, slots
      ensures Sound() && (ret == -1 <==> !connected)
      ensures connected ==> bufPos == 0 && cur == 0 && toWrite == 0
      ensures connected ==> Flowing(View(), headers.lines, packets, [], sofar) && AtRest(View())
      ensures Kept(old(connected), old(writevs))
    {
      hide Pending, Streaming, Streamed, Queued, RespHeaderBytes, SlotsBelow, Mem, Gather;
      ghost var r := View();
      var taken;
      ret, taken := FlushQueue();
      if connected {
        SentFlows(r, headers.lines, packets, [], sofar, taken);
      }
    }

    /** In the loop of LSAPI_Write_r: data[..p] is queued or sent, its last packets in slots below k. */
    ghost predicate Underway(data: seq<byte>, p: nat, k: nat)
      reads this, respBuf, slots, iov, headers, headers.buf, headers.lens
    {
      && Sound() && connected && !needHeader && p <= |data| && k <= 4
      && cur <= (if k == 0 then 2 else 3 + 2 * k)
      && (p > 0 ==> bufPos == 0 && (k == 0 ==> AtRest(View())))
      && (k > 0 ==> p > 0 && toWrite < cur)
      && SlotsBelow(Queue(View()), k)
      && Flowing(View(), headers.lines, packets, respBuf[..bufPos], written + data[..p])
    }

    /** One packet of the loop of LSAPI_Write_r. */
    method NextPacket(data: seq<byte>, p: nat, k: nat) returns (n: nat)
      requires Underway(data, p, k) && p < |data| && k < 4
      modifies this`totalLen, this`mostSlots, this`bufPos, this`cur, this`mostIov, this`packets, iov, slots
      ensures 0 < n && p + n <= |data| && Underway(data, p + n, k + 1)
    {
      hide Flowing, Queued, Sent, Flushed, RespHeaderBytes, SlotsBelow, Mem, Queue, AtRest;
      var bufLen := bufPos;
      n := |data| - p;
      var packetLen := n + bufLen;
      if MAX_DATA_PACKET_LEN < packetLen {
        packetLen := MAX_DATA_PACKET_LEN;
        n := packetLen - bufLen;
      }
      assert written + data[..p] + data[p..p + n] == written + data[..p + n];
      Emit(k, bufLen, data[p..p + n], written + data[..p]);
      assert respBuf[..0] == [];
    }

    /** The flush behind queued packets: everything written is sent, or the connection is closed. */
    method SendQueued(data: seq<byte>, p: nat, k: nat) returns (ret: int)
      requires Underway(data, p, k) && k > 0
      modifies this`wire, this`connected, this`writevs, this`totalLen, this`toWrite, this`bodyStarted, this`mostSlots,
               this`bufPos, this`cur, this`mostIov, iov, slots
      ensures Sound() && (ret == -1 <==> !connected) && (connected ==> Underway(data, p, 0) && AtRest(View()))
      ensures Kept(true, old(writevs))
    {
      hide Flowing, Queued, Sent, Flushed, RespHeaderBytes, SlotsBelow, Mem, Survives;
      assert respBuf[..0] == [];
      ret := Drain(written + data[..p]);
      if connected {
        RestHasNoSlots(View());
      }
    }

    /** The loop of LSAPI_Write_r: whole packets, at most four at a time. */
    method WriteThrough(data: seq<byte>) returns (ret: int)
      requires Valid() && active && connected && !needHeader && data != []
      modifies this`wire, this`connected, this`writevs, this`totalLen, this`toWrite, this`bodyStarted, this`mostSlots,
               this`bufPos, this`cur, this`mostIov, this`packets, this`written, iov, slots
      ensures Valid() && (connected ==> ret == |data| && written == old(written) + data)
      ensures !connected ==> ret == -1
      ensures Kept(old(connected), old(writevs))
    {
      BeginWriting(data);
      ret := WritePackets(data);
      if connected {
        EndWriting(data);
        written := written + data;
      }
    }

    lemma BeginWriting(data: seq<byte>)
      requires Valid() && active && connected && !needHeader
      ensures Underway(data, 0, 0)
    {
      hide Flowing, RespHeaderBytes, Mem, Gather;
      assert data[..0] == [] && written + [] == written;
      RestHasNoSlots(View());
    }

    lemma EndWriting(data: seq<byte>)
      requires Underway(data, |data|, 0) && data != []
      ensures bufPos == 0 && AtRest(View()) && Sound() && connected && !needHeader
      ensures Flowing(View(), headers.lines, packets, respBuf[..bufPos], written + data)
    {
      hide Flowing, RespHeaderBytes, Mem, Gather;
      assert data[..|data|] == data;
    }

    method WritePackets(data: seq<byte>) returns (ret: int)
      requires Underway(data, 0, 0) && data != []
      modifies this`wire, this`connected, this`writevs, this`totalLen, this`toWrite, this`bodyStarted, this`mostSlots,
               this`bufPos, this`cur, this`mostIov, this`packets, iov, slots
      ensures Sound() && (connected ==> ret == |data| && Underway(data, |data|, 0))
      ensures !connected ==> ret == -1
      ensures Kept(true, old(writevs))
    {
      ghost var from := writevs;
      assert Kept(true, from) && Sound() && connected;
      hide Underway, Sound, Survives;
      var k, p := 0, 0;
      while p < |data|
        invariant p <= |data| && k <= 3 && Underway(data, p, k) && Kept(true, from) && connected
      {
        p, k, ret := OnePacket(data, p, k, from);
        if ret == -1 {
          return;
        }
      }
      ret := p;
      if k != 0 {
        var sent := Flushing(data, p, k, from);
        if sent == -1 {
          return -1;
        }
      }
      UnderwayIsSound(data, p);
    }

    /** The body of the loop. */
    method OnePacket(data: seq<byte>, p: nat, k: nat, ghost from: nat) returns (p': nat, k': nat, ret: int)
      requires Underway(data, p, k) && p < |data| && k <= 3 && Kept(true, from) && connected
      modifies this`wire, this`connected, this`writevs, this`totalLen, this`toWrite, this`bodyStarted, this`mostSlots,
               this`bufPos, this`cur, this`mostIov, this`packets, iov, slots
      ensures p < p' <= |data| && k' <= 3 && Kept(true, from) && Sound()
      ensures (ret == -1 <==> !connected) && (connected ==> Underway(data, p', k'))
    {
      var n := NextPacket(data, p, k);
      p', k', ret := p + n, k + 1, 0;
      assert Sound();
      hide Underway, Sound, Survives;
      if k' >= 4 {
        ret := Flushing(data, p', k', from);
        k' := 0;
      }
    }

    lemma UnderwayIsSound(data: seq<byte>, p: nat)
      requires Underway(data, p, 0)
      ensures Sound()
    {
    }

    /** SendQueued, behind the writevs since `from`. */
    method Flushing(data: seq<byte>, p: nat, k: nat, ghost from: nat) returns (ret: int)
      requires Underway(data, p, k) && k > 0 && Kept(true, from) && connected
      modifies this`wire, this`connected, this`writevs, this`totalLen, this`toWrite, this`bodyStarted, this`mostSlots,
               this`bufPos, this`cur, this`mostIov, iov, slots
      ensures Sound() && (ret == -1 <==> !connected) && (connected ==> Underway(data, p, 0))
      ensures Kept(true, from)
    {
      hide Underway, Sound, AtRest, Survives;
      ghost var sofar := writevs;
      ret := SendQueued(data, p, k);
      SurvivesTwice(accepts, true, from, true, sofar, connected, writevs);
    }

    /** LSAPI_Write_r. */
    method Write(data: seq<byte>) returns (ret: int)
      requires Valid() && active
      modifies this, respBuf, iov, slots
      ensures Valid() && active && status == old(status)
      ensures connected ==> old(connected) && ret == |data| && written == old(written) + data
      ensures !connected ==> ret == -1
      ensures Kept(old(connected), old(writevs))
    {
      hide Flowing, Unstarted, RespHeaderBytes;
      if !connected {
        return -1;
      }
      StartBody();
      if |data| < RESP_BUF_SIZE - bufPos {
        Buffer(data);
        ret := |data|;
      } else {
        ret := WriteThrough(data);
      }
    }

    /** LSAPI_Flush_r on an open connection. */
    method FlushOpen() returns (ret: int)
      requires Valid() && active && connected
      modifies this`wire, this`connected, this`writevs, this`totalLen, this`toWrite, this`bodyStarted, this`mostSlots,
               this`bufPos, this`cur, this`mostIov, this`packets, iov, slots
      ensures Valid() && (ret == -1 <==> !connected)
      ensures connected && !needHeader ==> wire == EncodeAll(packets) && Streamed(packets) == written
      ensures Kept(old(connected), old(writevs))
    {
      hide Flowing, Pending, Streaming, Streamed, Queued, Sent, Flushed, RespHeaderBytes, Mem, Gather, EncodeAll;
      ghost var r := View();
      var taken;
      ret, taken := FlushQueue();
      if connected && !needHeader {
        FlushedFlows(r, headers.lines, packets, written, taken);
        packets := FlushedPackets(r, packets);
        assert respBuf[..0] == [];
        NothingBuffered(View(), headers.lines, packets, written);
      }
    }

    /** LSAPI_Flush_r. */
    method Flush() returns (ret: int)
      requires Valid() && active
      modifies this, iov, slots
      ensures Valid() && active && written == old(written) && status == old(status)
      ensures connected ==> old(connected) && ret != -1
      ensures connected && !needHeader ==> wire == EncodeAll(packets) && Streamed(packets) == written
      ensures !connected ==> ret == -1 || (ret == 0 && !old(connected))
      ensures Kept(old(connected), old(writevs))
    {
      hide Flowing, Unstarted, RespHeaderBytes;
      if connected {
        ret := FlushOpen();
      } else if cur - toWrite == 0 && bufPos == 0 {
        ret := 0;
      } else {
        bufPos, totalLen, cur, toWrite := 0, 0, 0, 0;
        ret := -1;
      }
    }

    /** The RESP_END vector of LSAPI_Finish_r. */
    method PushEnd()
      requires Sound() && cur < 11
      modifies this`totalLen, this`cur, this`mostIov, iov
      ensures Sound() && View() == EndQueued(old(View())) && cur == old(cur) + 1
    {
      hide RespHeaderBytes;
      Push(EndVec(PACKET_HEADER_LEN));
      totalLen := totalLen + PACKET_HEADER_LEN;
    }

    /** The end of LSAPI_Finish_r: RESP_END and the last flush. */
    method CloseStream()
      requires Sound() && active && connected && !needHeader && bufPos == 0 && cur <= 5
      requires Flowing(View(), headers.lines, packets, [], written)
      modifies this`wire, this`connected, this`writevs, this`totalLen, this`toWrite, this`bodyStarted, this`mostSlots,
               this`bufPos, this`cur, this`mostIov, this`packets, iov, slots
      ensures Sound()
      ensures connected ==>
        && AllFit(packets) && Complete(packets, HeaderInfo(status, headers.lines))
        && Streamed(packets) == written
        && wire == EncodeAll(packets) && Decode(wire) == Some(packets)
        && DecodeHeader(packets[0].payload) == Some(HeaderInfo(status, headers.lines))
      ensures Kept(old(connected), old(writevs))
    {
      hide Queued, Sent, RespHeaderBytes, Mem, Gather, Encode, EncodeAll, Exact, TotalLen, Streamed;
      hide Decode, DecodeHeader;
      ghost var r := View();
      EndQueuedPending(r, packets);
      PushEnd();
      var ret, taken := FlushQueue();
      if connected {
        SentPending(EndQueued(r), packets + [END_PACKET], taken);
        CompleteDecodes(packets, HeaderInfo(status, headers.lines));
        StreamedSnoc(packets, END_PACKET);
        packets := packets + [END_PACKET];
        assert Streamed(packets) == written + [];
      }
    }

    /** LSAPI_Finish_r up to the reset: everything buffered, then RESP_END. */
    method EndResponse()
      requires Valid() && active && connected && !needHeader
      modifies this`wire, this`connected, this`writevs, this`totalLen, this`toWrite, this`bodyStarted, this`mostSlots,
               this`bufPos, this`cur, this`mostIov, this`packets, iov, slots
      ensures Sound()
      ensures connected ==>
        && AllFit(packets) && Complete(packets, HeaderInfo(status, headers.lines))
        && Streamed(packets) == written
        && wire == EncodeAll(packets) && Decode(wire) == Some(packets)
        && DecodeHeader(packets[0].payload) == Some(HeaderInfo(status, headers.lines))
      ensures Kept(old(connected), old(writevs))
    {
      hide Streaming, Streamed, Queued, Sent, RespHeaderBytes, Mem, Gather, Encode, EncodeAll, Exact, TotalLen;
      if bufPos != 0 {
        RestHasNoSlots(View());
        assert written + [] == written;
        Emit(0, bufPos, [], written);
      } else {
        assert respBuf[..0] == [];
      }
      CloseStream();
    }

    /** LSAPI_Reset_r. */
    method Reset()
      requires Sound()
      modifies this`bufPos, this`cur, this`toWrite, this`totalLen, this`respHeaderLen, this`status, this`active,
               this`needHeader, this`bodyStarted, headers
      ensures Ready() && headers.lines == [] && status == 0 && headers.buf == old(headers.buf)
    {
      hide RespHeaderBytes, Flowing, AtRest, Unstarted, LensBytes, Lines, Shape;
      ghost var r := View();
      headers.Reset();
      bufPos, cur, toWrite, totalLen, respHeaderLen, status := 0, 1, 1, 0, 0, 0;
      active, needHeader, bodyStarted := false, false, false;
      ResetShape(r, View());
    }

    /**
     LSAPI_Finish_r.  If the connection survives, the receiver reads from the wire one
     RESP_HEADER with the status and header lines, RESP_STREAM packets of at most
     16384 bytes carrying all that was written in order, and one RESP_END.
     */
    method Finish()
      requires Valid() && active
      modifies this, iov, slots, headers
      ensures Ready() && headers.lines == [] && status == 0 && headers.buf == old(headers.buf)
      ensures connected ==> old(connected)
      ensures connected ==>
        var info := HeaderInfo(old(status), old(headers.lines));
        && AllFit(packets) && Complete(packets, info) && Streamed(packets) == old(written)
        && wire == EncodeAll(packets) && Decode(wire) == Some(packets)
        && DecodeHeader(packets[0].payload) == Some(info)
      ensures Kept(old(connected), old(writevs))
    {
      hide Flowing, Unstarted, RespHeaderBytes, Complete, EncodeAll, Decode, DecodeHeader, Streamed;
      if connected {
        StartBody();
        EndResponse();
      }
      Reset();
    }

    /** LSAPI_AppendRespHeader2_r, before the headers are finalised. */
    method AppendHeader(name: seq<byte>, value: seq<byte>) returns (ret: int)
      requires Valid() && active && (connected ==> needHeader) && CString(name) && CString(value)
      modifies headers, headers.buf, headers.lens
      ensures Valid() && (headers.buf == old(headers.buf) || fresh(headers.buf))
      ensures ret == if Outcome2(bodyStarted, |old(headers.lines)|, name, value) == Refused then -1 else 0
      ensures headers.lines == if Outcome2(bodyStarted, |old(headers.lines)|, name, value) == Appended
                               then old(headers.lines) + [Line(name, value)] else old(headers.lines)
    {
      hide RespHeaderBytes;
      ret := headers.AppendPair(bodyStarted, name, value);
    }
  }

  lemma NothingBuffered(r: R, lines: seq<seq<byte>>, packets: seq<Packet>, written: seq<byte>)
    requires Flowing(r, lines, packets, [], written)
    ensures Streamed(packets) == written
  {
    assert Streamed(packets) + [] == Streamed(packets);
  }

  /** Between API calls at most two vectors are queued, and none while the headers are open. */
  lemma QueueIsBounded(req: Request)
    requires req.Valid() && req.active && req.connected
    ensures |Queue(req.View())| <= 2 && req.totalLen == TotalLen(Queue(req.View()))
    ensures req.needHeader ==> Queue(req.View()) == [] && req.bufPos == 0
    ensures req.mostIov <= 11 < IOVECS && req.mostSlots <= 4 < HEADER_SLOTS
  {
    if req.needHeader {
      assert Queue(req.View()) == [];
    }
  }

  /** A call into the response API between the headers and LSAPI_Finish_r. */
  datatype Call = CallWrite(data: seq<byte>) | CallFlush

  function AllData(calls: seq<Call>): seq<byte> {
    if calls == [] then []
    else
      var last := calls[|calls| - 1];
      AllData(calls[..|calls| - 1]) + if last.CallWrite? then last.data else []
  }

  /** Any sequence of writes and flushes closed by a finish is read back from the wire, in order. */
  method Respond(req: Request, calls: seq<Call>) returns (ok: bool)
    requires req.Valid() && req.active && req.connected && req.needHeader
    modifies req, req.respBuf, req.iov, req.slots, req.headers
    ensures req.Ready() && req.headers.lines == [] && req.status == 0 && ok == req.connected
    ensures req.headers.buf == old(req.headers.buf)
    ensures ok ==>
      var info := HeaderInfo(old(req.status), old(req.headers.lines));
      && AllFit(req.packets) && Complete(req.packets, info) && Streamed(req.packets) == AllData(calls)
      && req.wire == EncodeAll(req.packets) && Decode(req.wire) == Some(req.packets)
      && DecodeHeader(req.packets[0].payload) == Some(info)
    ensures req.Kept(true, old(req.writevs))
  {
    hide Flowing, RespHeaderBytes, Complete, EncodeAll, Decode, DecodeHeader, Streamed;
    for i := 0 to |calls|
      invariant req.Valid() && req.active && req.status == old(req.status)
      invariant req.headers.lines == old(req.headers.lines) && req.headers.buf == old(req.headers.buf)
      invariant req.connected ==> req.written == AllData(calls[..i])
      invariant req.Kept(true, old(req.writevs))
    {
      assert calls[..i + 1][..i] == calls[..i];
      match calls[i] {
        case CallWrite(data) =>
          var n := req.Write(data);
        case CallFlush =>
          var n := req.Flush();
      }
    }
    assert calls[..|calls|] == calls;
    req.Finish();
    ok := req.connected;
  }

  /** What a program answers to one request. */
  datatype Reply = Reply(status: int, headers: seq<(seq<byte>, seq<byte>)>, calls: seq<Call>)

  predicate IsReply(reply: Reply) {
    && -TWO31 <= reply.status < TWO31
    && forall k :: 0 <= k < |reply.headers| ==> CString(reply.headers[k].0) && CString(reply.headers[k].1)
  }

  /** The lines of those headers that are neither refused nor ignored. */
  function AcceptedLines(headers: seq<(seq<byte>, seq<byte>)>): seq<seq<byte>> {
    if headers == [] then []
    else
      var (name, value) := headers[|headers| - 1];
      var lines := AcceptedLines(headers[..|headers| - 1]);
      if Outcome2(false, |lines|, name, value) == Appended then lines + [Line(name, value)] else lines
  }

  /** The headers that fit, trimmed. */
  function Fitting(headers: seq<(seq<byte>, seq<byte>)>): seq<(seq<byte>, seq<byte>)> {
    if headers == [] then []
    else
      var (name, value) := headers[|headers| - 1];
      Fitting(headers[..|headers| - 1]) + if PairFits(name, value) then [(Trimmed(name), Trimmed(value))] else []
  }

  /** The lines tell the first thousand headers that fit, in order. */
  predicate TellsHeaders(lines: seq<seq<byte>>, headers: seq<(seq<byte>, seq<byte>)>) {
    && |lines| == (if |Fitting(headers)| < 1000 then |Fitting(headers)| else 1000)
    && forall k :: 0 <= k < |lines| ==> Tells(lines[k], Fitting(headers)[k].0, Fitting(headers)[k].1)
  }

  lemma LineTells(name: seq<byte>, value: seq<byte>)
    ensures Tells(Line(name, value), Trimmed(name), Trimmed(value))
  {
    if 58 !in Trimmed(name) {
      JoinedIsRead(Trimmed(name), Trimmed(value));
    }
  }

  lemma {:induction false} AcceptedTell(headers: seq<(seq<byte>, seq<byte>)>)
    ensures TellsHeaders(AcceptedLines(headers), headers)
  {
    if headers != [] {
      var n := |headers| - 1;
      var (name, value) := headers[n];
      AcceptedTell(headers[..n]);
      PairOutcome(false, |AcceptedLines(headers[..n])|, name, value);
      LineTells(name, value);
      hide Tells, Line, Outcome2, PairFits;
    }
  }

  /** A header with a name, of moderate length, that does not end in a line break. */
  predicate OrdinaryPair(name: seq<byte>, value: seq<byte>) {
    Trimmed(name) == name != [] && Trimmed(value) == value && |name| + 1 + |value| <= 32768
  }

  /** At most a thousand such headers. */
  predicate Ordinary(headers: seq<(seq<byte>, seq<byte>)>) {
    |headers| <= 1000 && forall k :: 0 <= k < |headers| ==> OrdinaryPair(headers[k].0, headers[k].1)
  }

  /** Of those, all are sent as they are. */
  lemma {:induction false} OrdinaryAllFit(headers: seq<(seq<byte>, seq<byte>)>)
    requires Ordinary(headers)
    ensures Fitting(headers) == headers
  {
    hide Trimmed, OrdinaryPair, PairFits;
    if headers != [] {
      var n := |headers| - 1;
      var (name, value) := headers[n];
      OrdinaryAllFit(headers[..n]);
      assert OrdinaryPair(headers[n].0, headers[n].1);
      OrdinaryFits(name, value);
      hide Fitting;
      assert Fitting(headers) == Fitting(headers[..n]) + [(name, value)] by {
        FittingLast(headers);
      }
      assert headers == headers[..n] + [headers[n]];
    }
  }

  lemma FittingLast(headers: seq<(seq<byte>, seq<byte>)>)
    requires headers != []
    ensures var n := |headers| - 1; var (name, value) := headers[n];
      Fitting(headers)
      == Fitting(headers[..n]) + if PairFits(name, value) then [(Trimmed(name), Trimmed(value))] else []
  {
    hide Trimmed, PairFits;
  }

  lemma OrdinaryFits(name: seq<byte>, value: seq<byte>)
    requires OrdinaryPair(name, value)
    ensures PairFits(name, value) && Trimmed(name) == name && Trimmed(value) == value
  {
    hide Trimmed;
  }

  /** These packets are the reply. */
  predicate IsAnswer(packets: seq<Packet>, reply: Reply) {
    && AllFit(packets) && packets != []
    && var read := DecodeHeader(packets[0].payload);
    && read.Some? && Complete(packets, read.value) && Streamed(packets) == AllData(reply.calls)
    && read.value.status == reply.status && TellsHeaders(read.value.lines, reply.headers)
  }

  lemma RepliesAreAnswers(packets: seq<Packet>, reply: Reply)
    requires var info := HeaderInfo(reply.status, AcceptedLines(reply.headers));
      && AllFit(packets) && Complete(packets, info) && Streamed(packets) == AllData(reply.calls)
      && DecodeHeader(packets[0].payload) == Some(info)
    ensures IsAnswer(packets, reply)
  {
    AcceptedTell(reply.headers);
    hide DecodeHeader, AcceptedLines, TellsHeaders;
  }

  /** What is read of such a reply with names without colons: its status, its headers and its data. */
  lemma OrdinaryIsRead(packets: seq<Packet>, reply: Reply)
    requires IsAnswer(packets, reply) && Ordinary(reply.headers)
    requires forall k :: 0 <= k < |reply.headers| ==> 58 !in reply.headers[k].0
    ensures var info := DecodeHeader(packets[0].payload).value;
      && |info.lines| == |reply.headers| && info.status == reply.status
      && forall k :: 0 <= k < |info.lines| ==> ReadPair(info.lines[k]) == Some(reply.headers[k])
  {
    OrdinaryAllFit(reply.headers);
    hide DecodeHeader, Complete, Fitting, Trimmed, ReadPair;
    var lines := DecodeHeader(packets[0].payload).value.lines;
    forall k | 0 <= k < |lines|
      ensures ReadPair(lines[k]) == Some(reply.headers[k])
    {
      assert Tells(lines[k], reply.headers[k].0, reply.headers[k].1);
    }
  }

  // ----- Several responses on one connection -----

  /** The packets up to and including the last RESP_END, response by response, and those behind it. */
  function Cut(packets: seq<Packet>): (seq<seq<Packet>>, seq<Packet>) {
    if packets == [] then ([], [])
    else
      var (done, open) := Cut(packets[..|packets| - 1]);
      var last := packets[|packets| - 1];
      if last.kind == RESP_END then (done + [open + [last]], []) else (done, open + [last])
  }

  /** What the peer reads from all bytes of a connection. */
  function ReadReplies(stream: seq<byte>): Option<seq<seq<Packet>>> {
    match Decode(stream)
    case None => None
    case Some(packets) => if Cut(packets).1 == [] then Some(Cut(packets).0) else None
  }

  lemma {:induction false} CutOpen(a: seq<Packet>, ps: seq<Packet>)
    requires forall p :: p in ps ==> p.kind != RESP_END
    ensures Cut(a + ps) == (Cut(a).0, Cut(a).1 + ps)
  {
    if ps == [] {
      assert a + ps == a && Cut(a).1 + ps == Cut(a).1;
    } else {
      var n := |ps| - 1;
      CutOpen(a, ps[..n]);
      assert (a + ps)[..|a + ps| - 1] == a + ps[..n];
      assert Cut(a).1 + ps[..n] + [ps[n]] == Cut(a).1 + ps;
    }
  }

  lemma AnswerEndsOnce(ps: seq<Packet>, info: HeaderInfo)
    requires Complete(ps, info)
    ensures ps[|ps| - 1].kind == RESP_END && forall p :: p in ps[..|ps| - 1] ==> p.kind != RESP_END
  {
    var most := ps[..|ps| - 1];
    hide HeaderPayload;
    forall p | p in most
      ensures p.kind != RESP_END
    {
      var k :| 0 <= k < |most| && most[k] == p;
    }
  }

  lemma CutEnd(a: seq<Packet>, end: Packet)
    requires end.kind == RESP_END
    ensures Cut(a + [end]) == (Cut(a).0 + [Cut(a).1 + [end]], [])
  {
    assert (a + [end])[..|a|] == a;
  }

  lemma CutAnswer(a: seq<Packet>, ps: seq<Packet>, info: HeaderInfo)
    requires Complete(ps, info) && Cut(a).1 == []
    ensures Cut(a + ps) == (Cut(a).0 + [ps], [])
  {
    AnswerEndsOnce(ps, info);
    var most, end := ps[..|ps| - 1], ps[|ps| - 1];
    hide Complete, Cut;
    CutOpen(a, most);
    CutEnd(a + most, end);
    assert a + most + [end] == a + ps && [] + most + [end] == ps;
  }

  lemma {:induction false} EncodeConcat(a: seq<Packet>, b: seq<Packet>)
    requires AllFit(a) && AllFit(b)
    ensures AllFit(a + b) && EncodeAll(a + b) == EncodeAll(a) + EncodeAll(b)
  {
    hide Encode;
    if b == [] {
      assert a + b == a;
    } else {
      var n := |b| - 1;
      EncodeConcat(a, b[..n]);
      assert (a + b)[..|a + b| - 1] == a + b[..n];
    }
  }

  /** The peer has received exactly these replies. */
  ghost predicate Received(stream: seq<byte>, replies: seq<Reply>) {
    var read := ReadReplies(stream);
    && read.Some? && |read.value| == |replies|
    && forall k :: 0 <= k < |replies| ==> IsAnswer(read.value[k], replies[k])
  }

  /** The packets that spell a stream which ends with a response. */
  ghost predicate Spells(stream: seq<byte>, packets: seq<Packet>) {
    AllFit(packets) && stream == EncodeAll(packets) && Cut(packets).1 == []
  }

  lemma SpelledIsRead(stream: seq<byte>, packets: seq<Packet>)
    requires Spells(stream, packets)
    ensures ReadReplies(stream) == Some(Cut(packets).0)
  {
    DecodeEncode(packets, []);
    assert EncodeAll(packets) + [] == EncodeAll(packets) && packets + [] == packets;
  }

  /** One more answer at the end of a stream. */
  lemma OneMoreReply(stream: seq<byte>, packets: seq<Packet>, replies: seq<Reply>, ps: seq<Packet>, reply: Reply)
    requires Spells(stream, packets) && Received(stream, replies) && IsAnswer(ps, reply)
    ensures Spells(stream + EncodeAll(ps), packets + ps) && Received(stream + EncodeAll(ps), replies + [reply])
  {
    SpelledIsRead(stream, packets);
    CutAnswer(packets, ps, DecodeHeader(ps[0].payload).value);
    EncodeConcat(packets, ps);
    hide IsAnswer, EncodeAll, Cut, ReadReplies;
    SpelledIsRead(stream + EncodeAll(ps), packets + ps);
  }

  lemma NothingReceived()
    ensures Spells([], []) && Received([], [])
  {
  }

  method AppendHeaders(req: Request, headers: seq<(seq<byte>, seq<byte>)>)
    requires req.Valid() && req.active && req.connected && req.needHeader && !req.bodyStarted
    requires req.headers.lines == [] && IsReply(Reply(0, headers, []))
    modifies req.headers, req.headers.buf, req.headers.lens
    ensures req.Valid() && req.headers.lines == AcceptedLines(headers)
    ensures req.headers.buf == old(req.headers.buf) || fresh(req.headers.buf)
  {
    hide Request.Valid, Line, Outcome2;
    for i := 0 to |headers|
      invariant req.Valid() && req.headers.lines == AcceptedLines(headers[..i])
      invariant req.headers.buf == old(req.headers.buf) || fresh(req.headers.buf)
    {
      assert headers[..i + 1][..i] == headers[..i];
      var ret := req.AppendHeader(headers[i].0, headers[i].1);
    }
    assert headers[..|headers|] == headers;
  }

  /** One request on an open connection, from readReq to LSAPI_Finish_r. */
  method Answer(req: Request, reply: Reply) returns (ok: bool)
    requires req.Ready() && req.headers.lines == [] && IsReply(reply)
    modifies req, req.respBuf, req.iov, req.slots, req.headers, req.headers.buf, req.headers.lens
    ensures req.Ready() && req.headers.lines == [] && ok == req.connected && req.Kept(true, old(req.writevs))
    ensures ok ==> IsAnswer(req.packets, reply) && req.wire == EncodeAll(req.packets)
    ensures req.headers.buf == old(req.headers.buf) || fresh(req.headers.buf)
  {
    hide Request.Valid, AcceptedLines, AllData, Complete, EncodeAll, Decode, DecodeHeader, Streamed, IsAnswer;
    req.BeginRequest();
    req.SetStatus(reply.status);
    AppendHeaders(req, reply.headers);
    ok := Respond(req, reply.calls);
    if ok {
      RepliesAreAnswers(req.packets, reply);
    }
  }

  /**
   Any number of requests on one connection.  While every writev succeeds all are answered, and
   the peer reads from the bytes of the connection exactly the replies, in order.
   */
  method AnswerAll(req: Request, replies: seq<Reply>) returns (stream: seq<byte>, answered: nat)
    requires req.Ready() && req.headers.lines == [] && forall k :: 0 <= k < |replies| ==> IsReply(replies[k])
    modifies req, req.respBuf, req.iov, req.slots, req.headers, req.headers.buf, req.headers.lens
    ensures req.Ready() && answered <= |replies| && Received(stream, replies[..answered])
    ensures old(req.writevs) <= req.writevs
    ensures answered == |replies| <==> forall k :: old(req.writevs) <= k < req.writevs ==> req.accepts(k)
  {
    hide Request.Ready, IsAnswer, IsReply, Received, Spells, EncodeAll;
    NothingReceived();
    stream, answered := [], 0;
    assert replies[..0] == [];
    ghost var packets: seq<Packet> := [];
    while answered < |replies|
      invariant req.Ready() && req.headers.lines == [] && answered <= |replies|
      invariant req.headers.buf == old(req.headers.buf) || fresh(req.headers.buf)
      invariant Spells(stream, packets) && Received(stream, replies[..answered])
      invariant old(req.writevs) <= req.writevs
      invariant forall k :: old(req.writevs) <= k < req.writevs ==> req.accepts(k)
    {
      var ok := Answer(req, replies[answered]);
      if !ok {
        break;
      }
      OneMoreReply(stream, packets, replies[..answered], req.packets, replies[answered]);
      assert replies[..answered] + [replies[answered]] == replies[..answered + 1];
      stream, packets := stream + req.wire, packets + req.packets;
      answered := answered + 1;
    }
  }

  lemma FinalizedShape(r: R)
    requires Shape(r) && Unstarted(r) && |r.text| < TWO31
    ensures Shape(Finalized(r))
  {
  }

  lemma ResetShape(r: R, r': R)
    requires Shape(r) && r'.buffer == r.buffer && r'.slots == r.slots && r'.iov == r.iov && r'.lens == []
    requires r'.respHeaderLen == 0 && r'.status == 0 && r'.cur == r'.toWrite == 1 && r'.bufPos == 0
    ensures Shape(r')
  {
  }

  lemma SameShape(r: R, r': R)
    requires Shape(r) && r' == r.(connected := r'.connected, wire := r'.wire)
    ensures Shape(r')
  {
  }
}

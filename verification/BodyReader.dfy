/**
 The three readers of the request body (src/lsapilib.c:1718-1847), which share the bytes
 left in the request buffer behind the packet and one count of delivered bytes.
 */
module BodyReader {
  import opened Common

  const LF: byte := 10
  const EOF: int := -1

  /** What one call of a reader delivers. */
  datatype Call = GetChar | GetLine(size: nat) | Read(size: nat)  // size: the bufLen of the call

  /** At most the last byte is a newline. */
  predicate OneLine(s: seq<byte>) {
    forall k :: 0 <= k < |s| - 1 ==> s[k] != LF
  }

  /** A piece of a line: with or without the newline that ends it. */
  predicate Piece(s: seq<byte>, lf: bool) {
    |s| > 0 && OneLine(s) && lf == (s[|s| - 1] == LF)
  }

  lemma LineGrows(line: seq<byte>, piece: seq<byte>, lf: bool)
    requires LF !in line && Piece(piece, lf)
    ensures if lf then Piece(line + piece, true) else LF !in line + piece
  {
    if !lf {
      forall k | 0 <= k < |piece|
        ensures piece[k] != LF
      {
      }
    }
  }

  lemma LineIsOne(text: seq<byte>)
    ensures LF !in text || Piece(text, true) ==> OneLine(text)
  {
  }

  /** One more piece of a stream. */
  lemma ConcatSnoc(pieces: seq<seq<byte>>, piece: seq<byte>, stream: seq<byte>, from: nat, mid: nat, to: nat)
    requires from <= mid <= to <= |stream| && Concat(pieces) == stream[from..mid] && piece == stream[mid..to]
    ensures Concat(pieces + [piece]) == stream[from..to]
  {
    assert (pieces + [piece])[..|pieces|] == pieces;
  }

  lemma Adjacent(s: seq<byte>, i: nat, j: nat, k: nat)
    requires i <= j <= k <= |s|
    ensures s[i..j] + s[j..k] == s[i..k]
  {
  }

  class Reader {
    const stream: seq<byte>  // what the peer sends behind the request packet
    const buf: array<byte>   // m_pReqBuf
    const packetLen: nat
    const bodyLen: int       // m_reqBodyLen
    var taken: nat           // how much of the stream has been taken from the socket
    var bufRead: nat
    var bufProcessed: nat
    var bodyRead: nat        // m_reqBodyRead
    var connected: bool      // m_fd != -1
    ghost var failed: bool   // the latest read of the socket returned nothing or an error

    /** The buffer holds exactly what has been taken and not yet delivered. */
    ghost predicate Valid()
      reads this, buf
    {
      HoldsFrom(bodyRead)
    }

    /** The buffer holds what has been taken from position `at` of the stream on. */
    ghost predicate HoldsFrom(at: nat)
      reads this`taken, this`bufRead, this`bufProcessed, buf
    {
      && packetLen <= bufProcessed <= bufRead <= buf.Length && packetLen + 1024 <= buf.Length
      && at + (bufRead - bufProcessed) == taken <= |stream|
      && buf[bufProcessed..bufRead] == stream[at..taken]
    }

    /** What was taken since `before` is body, if anything was. */
    ghost predicate WithinSince(before: nat)
      reads this
    {
      before <= taken && (taken == before || taken <= bodyLen)
    }

    /** How much of the body is not delivered. */
    function Left(): nat
      reads this`bodyRead
    {
      if bodyLen > bodyRead then bodyLen - bodyRead else 0
    }

    /** The state readReq leaves: the packet, and perhaps the beginning of the body, is in the buffer. */
    constructor (stream: seq<byte>, buf: array<byte>, bufRead: nat, packetLen: nat, bodyLen: int)
      requires packetLen <= bufRead <= buf.Length && packetLen + 1024 <= buf.Length
      requires buf[packetLen..bufRead] <= stream
      ensures Valid() && connected && bodyRead == 0 && taken == bufRead - packetLen
      ensures this.stream == stream && this.buf == buf && this.bodyLen == bodyLen && this.packetLen == packetLen
    {
      this.stream, this.buf, this.packetLen, this.bodyLen := stream, buf, packetLen, bodyLen;
      this.bufRead, bufProcessed, bodyRead, taken := bufRead, packetLen, 0, bufRead - packetLen;
      connected, failed := true, false;
    }

    /**
     lsapi_read: an error, the end of the stream, or any number of its next bytes.  A negative
     length becomes a size beyond SSIZE_MAX, which the kernel refuses.
     */
    method SocketRead(dst: array<byte>, at: nat, n: int) returns (k: int)
      requires taken <= |stream| && (n > 0 ==> at + n <= dst.Length) && at <= dst.Length
      modifies this`taken, this`failed, dst
      ensures -1 <= k && (k > 0 ==> k <= n) && failed == (k <= 0)
      ensures taken == old(taken) + (if k > 0 then k else 0) <= |stream|
      ensures dst[..] == old(dst[..at]) + stream[old(taken)..taken] + old(dst[..])[at + (taken - old(taken))..]
    {
      var most := if n < 0 then -1 else Min(n, |stream| - taken);
      k :| -1 <= k <= most;
      assert k > 0 ==> k <= n && taken + k <= |stream|;
      failed := k <= 0;
      if k > 0 {
        ghost var before := dst[..];
        forall i | 0 <= i < k {
          dst[at + i] := stream[taken + i];
        }
        taken := taken + k;
        assert dst[..] == before[..at] + stream[taken - k..taken] + before[at + k..];
      } else {
        assert dst[..] == old(dst[..at]) + old(dst[at..]);
      }
    }

    /** readBodyToReqBuf. */
    method Refill() returns (len: int)
      requires Valid() && bufProcessed == bufRead
      modifies this`taken, this`failed, this`bufRead, this`bufProcessed, buf
      ensures Valid() && WithinSince(old(taken))
      ensures len > 0 ==> bufRead - bufProcessed == len && taken == old(taken) + len
      ensures len <= 0 ==> failed && bufProcessed == bufRead && taken == old(taken)
    {
      bufRead := packetLen;
      bufProcessed := packetLen;
      var bodyLeft := bodyLen - bodyRead;
      len := buf.Length - bufRead;
      if len > bodyLeft {
        len := bodyLeft;
      }
      len := SocketRead(buf, bufRead, len);
      if len > 0 {
        bufRead := bufRead + len;
        assert buf[bufProcessed..bufRead] == stream[bodyRead..taken];
      }
    }

    /** LSAPI_ReqBodyGetChar_r. */
    method GetChar() returns (c: int)
      requires Valid()
      modifies this`taken, this`failed, this`bufRead, this`bufProcessed, this`bodyRead, buf
      ensures Valid() && WithinSince(old(taken))
      ensures old(bufProcessed < bufRead) ==> taken == old(taken)
      ensures c == EOF ==> bodyRead == old(bodyRead) && (connected ==> failed && bodyRead == taken)
      ensures c != EOF ==> connected && bodyRead == old(bodyRead) + 1 && c == stream[old(bodyRead)]
      ensures old(connected && bufProcessed < bufRead) ==> c != EOF
    {
      if !connected {
        return EOF;
      }
      if bufProcessed >= bufRead {
        var len := Refill();
        if len <= 0 {
          return EOF;
        }
      }
      assert buf[bufProcessed] == buf[bufProcessed..bufRead][0];
      bodyRead := bodyRead + 1;
      c := buf[bufProcessed];
      bufProcessed := bufProcessed + 1;
      assert buf[bufProcessed..bufRead] == buf[bufProcessed - 1..bufRead][1..];
    }

    /** memchr for a newline. */
    method FindLf(from: nat, len: nat) returns (p: Option<nat>)
      requires from + len <= buf.Length
      ensures p.Some? ==> p.value < len && Piece(buf[from..from + p.value + 1], true)
      ensures p.None? && len > 0 ==> Piece(buf[from..from + len], false)
    {
      for k := 0 to len
        invariant LF !in buf[from..from + k]
      {
        ghost var seen := buf[from..from + k];
        assert buf[from..from + k + 1] == seen + [buf[from + k]];
        if buf[from + k] == LF {
          return Some(k);
        }
      }
      p := None;
    }

    /** Moves the next n bytes of the buffer, which are at position `from` of the stream, to dst. */
    method Move(dst: array<byte>, at: nat, n: nat, ghost from: nat)
      requires HoldsFrom(from) && dst != buf && n <= bufRead - bufProcessed && at + n <= dst.Length
      modifies this`bufProcessed, dst
      ensures HoldsFrom(from + n) && bufProcessed == old(bufProcessed) + n
      ensures dst[..at] == old(dst[..at]) && dst[at..at + n] == stream[from..from + n]
      ensures dst[at..at + n] == old(buf[bufProcessed..bufProcessed + n])
    {
      ghost var left, piece := buf[bufProcessed..bufRead], buf[bufProcessed..bufProcessed + n];
      assert piece == left[..n];
      forall k | 0 <= k < n {
        dst[at + k] := buf[bufProcessed + k];
      }
      assert dst[at..at + n] == piece;
      bufProcessed := bufProcessed + n;
      assert buf[bufProcessed..bufRead] == left[n..];
    }

    /** The body of the loop of GetLine, behind the refill. */
    method TakePiece(dst: array<byte>, at: nat, left: nat) returns (n: nat, lf: bool)
      requires Valid() && dst != buf && bufProcessed < bufRead && 0 < left && at + left <= dst.Length
      modifies this`bufProcessed, this`bodyRead, dst
      ensures Valid() && 0 < n <= left && bodyRead == old(bodyRead) + n
      ensures dst[..at] == old(dst[..at]) && dst[at..at + n] == stream[old(bodyRead)..bodyRead]
      ensures Piece(dst[at..at + n], lf)
    {
      n := bufRead - bufProcessed;
      if n > left {
        n := left;
      }
      var p := FindLf(bufProcessed, n);
      hide Piece;
      if p.Some? {
        n := p.value + 1;
      }
      lf := p.Some?;
      Move(dst, at, n, bodyRead);
      bodyRead := bodyRead + n;
    }

    /** The body of the loop of GetLine: nothing if there is no more to be had. */
    method NextPiece(dst: array<byte>, at: nat, end: nat) returns (n: nat, lf: bool)
      requires Valid() && dst != buf && at < end <= dst.Length
      modifies this`taken, this`failed, this`bufRead, this`bufProcessed, this`bodyRead, buf, dst
      ensures Valid() && WithinSince(old(taken))
      ensures at + n <= end && bodyRead == old(bodyRead) + n <= |stream|
      ensures dst[..at + n] == old(dst[..at]) + stream[old(bodyRead)..bodyRead]
      ensures if n == 0 then failed && bodyRead == taken else Piece(stream[old(bodyRead)..bodyRead], lf)
    {
      hide Piece;
      if bufRead - bufProcessed <= 0 {
        var got := Refill();
        if got <= 0 {
          return 0, false;
        }
      }
      n, lf := TakePiece(dst, at, end - at);
      assert dst[..at + n] == dst[..at] + dst[at..at + n];
    }

    /** The loop of LSAPI_ReqBodyGetLine_r: fills dst up to `end`. */
    method ReadLine(dst: array<byte>, end: nat) returns (n: nat, lf: bool)
      requires Valid() && dst != buf && end <= dst.Length
      modifies this`taken, this`failed, this`bufRead, this`bufProcessed, this`bodyRead, buf, dst
      ensures Valid() && WithinSince(old(taken))
      ensures n <= end && bodyRead == old(bodyRead) + n <= |stream|
      ensures dst[..n] == stream[old(bodyRead)..bodyRead]
      ensures !lf ==> n == end && LF !in dst[..n]
      ensures lf ==> Piece(dst[..n], true) || (failed && bodyRead == taken && LF !in dst[..n])
    {
      ghost var start, before := bodyRead, taken;
      assert start <= |stream|;
      hide Piece, OneLine, HoldsFrom;
      lf := false;
      n := 0;
      while end - n > 0
        invariant Valid() && WithinSince(before)
        invariant 0 <= n <= end && bodyRead == start + n <= |stream| && !lf
        invariant dst[..n] == stream[start..start + n] && LF !in dst[..n]
      {
        var k, found := NextPiece(dst, n, end);
        if k == 0 {
          lf := true;
          break;
        }
        Adjacent(stream, start, start + n, start + n + k);
        LineGrows(stream[start..start + n], stream[start + n..start + n + k], found);
        n := n + k;
        if found {
          lf := true;
          break;
        }
      }
    }

    /** LSAPI_ReqBodyGetLine_r: the length of the line, and whether the reading of it is over. */
    method GetLine(dst: array<byte>, bufLen: nat) returns (n: int, lf: bool)
      requires Valid() && dst != buf && bufLen <= dst.Length && dst.Length > 0
      modifies this`taken, this`failed, this`bufRead, this`bufProcessed, this`bodyRead, buf, dst
      ensures Valid() && WithinSince(old(taken))
      ensures !connected ==> n == -1 && bodyRead == old(bodyRead)
      ensures connected ==> 0 <= n < dst.Length && bodyRead == old(bodyRead) + n && dst[n] == 0
      ensures connected ==> n == 0 || n < bufLen
      ensures connected ==> dst[..n] == stream[old(bodyRead)..bodyRead] && OneLine(dst[..n])
      ensures connected && !lf ==> n == (if bufLen > 0 then bufLen - 1 else 0) && LF !in dst[..n]
      ensures connected && lf ==> Piece(dst[..n], true) || (failed && bodyRead == taken && LF !in dst[..n])
    {
      if !connected {
        return -1, false;
      }
      hide Piece, OneLine, HoldsFrom;
      n, lf := ReadLine(dst, if bufLen > 0 then bufLen - 1 else 0);
      ghost var text := dst[..n];
      dst[n] := 0;
      assert dst[..n] == text;
      LineIsOne(text);
    }

    /** The loop of LSAPI_ReadReqBody_r: reads straight into dst[total..size]. */
    method ReadRest(dst: array<byte>, total: nat, size: nat) returns (n: nat)
      requires HoldsFrom(bodyRead + total) && bufProcessed == bufRead && dst != buf && total <= size <= dst.Length
      requires taken + (size - total) <= bodyLen
      requires dst[..total] == stream[bodyRead..taken]
      modifies this`taken, this`failed, dst
      ensures HoldsFrom(bodyRead + n) && total <= n <= size && WithinSince(old(taken))
      ensures bodyRead + n <= |stream| && dst[..n] == stream[bodyRead..bodyRead + n] && (n < size ==> failed)
    {
      n := total;
      while n < size
        invariant total <= n <= size && bodyRead + n == taken <= |stream| && old(taken) <= taken <= bodyLen
        invariant dst[..n] == stream[bodyRead..taken]
      {
        ghost var before := dst[..n];
        var len := SocketRead(dst, n, size - n);
        if len <= 0 {
          assert dst[..n] == before;
          break;
        }
        n := n + len;
        assert dst[..n] == before + stream[taken - len..taken];
      }
    }

    /** The first part of LSAPI_ReadReqBody_r: what the buffer has. */
    method TakeBuffered(dst: array<byte>, size: nat) returns (total: nat)
      requires Valid() && dst != buf && size <= dst.Length
      modifies this`bufProcessed, dst
      ensures HoldsFrom(bodyRead + total) && total <= size && (total < size ==> bufProcessed == bufRead)
      ensures total < size ==> bodyRead + total == taken
      ensures bodyRead + total <= taken <= |stream| && dst[..total] == stream[bodyRead..bodyRead + total]
    {
      total := Min(bufRead - bufProcessed, size);
      if total > 0 {
        Move(dst, 0, total, bodyRead);
      }
      assert dst[..total] == stream[bodyRead..bodyRead + total];
    }

    /** LSAPI_ReadReqBody_r: less than asked for only at the end of the body or if the socket failed. */
    method Read(dst: array<byte>) returns (n: int)
      requires Valid() && dst != buf
      modifies this`taken, this`failed, this`bufProcessed, this`bodyRead, dst
      ensures Valid() && WithinSince(old(taken))
      ensures n == -1 ==> bodyRead == old(bodyRead) && (connected ==> failed)
      ensures n != -1 ==> connected && 0 <= n <= Min(dst.Length, old(Left()))
      ensures n != -1 ==> bodyRead == old(bodyRead) + n && dst[..n] == stream[old(bodyRead)..bodyRead]
      ensures connected && n < Min(dst.Length, old(Left())) ==> failed
    {
      if !connected {
        return -1;
      }
      var size := bodyLen - bodyRead;
      if size <= 0 {
        return 0;
      }
      size := Min(dst.Length, size);
      hide HoldsFrom;
      var total := TakeBuffered(dst, size);
      if total < size {
        var got := ReadRest(dst, total, size);
        if got == 0 {
          return -1;
        }
        total := got;
      }
      bodyRead := bodyRead + total;
      n := total;
    }

    /** Any calls in any order deliver consecutive pieces of the stream; what they take from it is body. */
    method Run(calls: seq<Call>) returns (pieces: seq<seq<byte>>)
      requires Valid()
      modifies this`taken, this`failed, this`bufRead, this`bufProcessed, this`bodyRead, buf
      ensures Valid() && WithinSince(old(taken)) && |pieces| == |calls|
      ensures old(bodyRead) <= bodyRead <= |stream| && Concat(pieces) == stream[old(bodyRead)..bodyRead]
      ensures bodyRead <= bodyLen || bodyRead <= old(taken)
      ensures forall k :: 0 <= k < |calls| && calls[k].GetLine? ==> OneLine(pieces[k])
    {
      pieces := [];
      for i := 0 to |calls|
        invariant Valid() && WithinSince(old(taken)) && |pieces| == i && old(bodyRead) <= bodyRead <= taken
        invariant Concat(pieces) == stream[old(bodyRead)..bodyRead]
        invariant forall k :: 0 <= k < i && calls[k].GetLine? ==> OneLine(pieces[k])
      {
        ghost var start := bodyRead;
        var piece := RunOne(calls[i]);
        ConcatSnoc(pieces, piece, stream, old(bodyRead), start, bodyRead);
        pieces := pieces + [piece];
      }
    }

    method RunOne(call: Call) returns (piece: seq<byte>)
      requires Valid()
      modifies this`taken, this`failed, this`bufRead, this`bufProcessed, this`bodyRead, buf
      ensures Valid() && WithinSince(old(taken)) && old(bodyRead) <= bodyRead <= taken
      ensures piece == stream[old(bodyRead)..bodyRead] && (call.GetLine? ==> OneLine(piece))
    {
      piece := [];
      match call
      case GetChar =>
        var c := GetChar();
        if c != EOF {
          piece := [c];
        }
      case GetLine(size) =>
        var dst := new byte[size + 1];
        var n, lf := GetLine(dst, size);
        if n > 0 {
          piece := dst[..n];
        }
      case Read(size) =>
        var dst := new byte[size];
        var n := Read(dst);
        if n > 0 {
          piece := dst[..n];
        }
    }

    /**
     The readers hand out whatever already lies in the buffer, without regard to bodyLen: the
     delivered bytes stay within the body exactly if those taken so far do.
     */
    method Drain()
      requires Valid() && connected
      modifies this`taken, this`failed, this`bufRead, this`bufProcessed, this`bodyRead, buf
      ensures Valid() && bodyRead == old(taken) && taken == old(taken)
      ensures bodyRead <= bodyLen <==> old(taken) <= bodyLen
    {
      while bufProcessed < bufRead
        invariant Valid() && taken == old(taken) && connected
        decreases taken - bodyRead
      {
        var c := GetChar();
      }
    }

    /** Beyond the body nothing is read from the socket any more: its length would be negative. */
    method ReadBeyond() returns (c: int)
      requires Valid() && connected && bodyRead == taken && taken > bodyLen
      modifies this`taken, this`failed, this`bufRead, this`bufProcessed, this`bodyRead, buf
      ensures Valid() && c == EOF && failed && bodyRead == old(bodyRead) && taken == old(taken)
    {
      c := GetChar();
    }
  }

  /** One byte behind a packet whose request has no body: it is delivered all the same. */
  method Overdelivery() returns (c: int, delivered: nat, bodyLen: int)
    ensures c == 65 && delivered == 1 && bodyLen == 0
  {
    var buf := new byte[1025](_ => 65);
    var reader := new Reader([65], buf, 1, 0, 0);
    c := reader.GetChar();
    delivered, bodyLen := reader.bodyRead, reader.bodyLen;
  }
}

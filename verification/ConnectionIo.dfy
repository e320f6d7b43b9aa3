/**
 The in-memory bridge between one worker thread and the event loop
 (src/connection_io.h).

 `Io` is the value of one ConnectionIO's fields, and the functions on it are what
 each critical section does.  The class `ConnectionIO` has the fields themselves;
 its methods are proved to perform exactly those functions and to write the
 eventfd exactly when the source does.  Module Bridge interleaves the functions.
 */
module ConnectionIo {
  datatype Status = Data | Complete | Truncated | Error

  datatype Io = Io(
    contentLength: nat,  // content_length_
    prefix: string,      // body_prefix_
    chunk: string,       // read_chunk_
    fed: nat,            // body_bytes_fed_
    eof: bool,           // read_eof_
    readError: bool,     // read_error_
    buffer: string,      // write_buffer_
    cursor: nat,         // write_cursor_
    pending: bool,       // write_pending_
    finished: bool,      // finished_
    writeError: bool)    // write_error_

  function Truncate(s: string, n: nat): string {
    if |s| > n then s[..n] else s
  }

  /** A freshly constructed ConnectionIO after setHeaderData. */
  function SetHeaderData(prefix: string, contentLength: nat): Io {
    var p := Truncate(prefix, contentLength);
    Io(contentLength, p, "", |p|, false, false, "", 0, false, false, false)
  }

  predicate BodyComplete(io: Io) {
    io.fed >= io.contentLength
  }

  /** The wait predicate of readBodyChunk. */
  predicate ReadReady(io: Io, max: nat) {
    |io.chunk| >= max || BodyComplete(io) || io.eof || io.readError
  }

  function EmptyStatus(io: Io): Status {
    if BodyComplete(io) then Complete
    else if io.readError then Error
    else if io.eof then Truncated
    else Data
  }

  /** What readBodyChunk does once its wait predicate holds. */
  function ReadBodyChunk(io: Io, max: nat): (Io, string, Status) {
    if io.chunk == "" && EmptyStatus(io) != Data then
      (io, "", EmptyStatus(io))
    else
      var data := Truncate(io.chunk, max);
      var rest := io.(chunk := io.chunk[|data|..]);
      (rest, data, if rest.chunk == "" then EmptyStatus(rest) else Data)
  }

  /** The wait predicate of writeData. */
  predicate WriteReady(io: Io) {
    io.buffer == "" || io.writeError
  }

  function WriteData(io: Io, data: string): Io {
    if io.writeError then io
    else io.(buffer := data, cursor := 0, pending := true)
  }

  function Finish(io: Io): Io {
    io.(finished := true)
  }

  function SetErrorFlags(io: Io): Io {
    io.(writeError := true, finished := true)
  }

  function FeedBody(io: Io, data: string, eof: bool): Io {
    io.(chunk := io.chunk + data, fed := io.fed + |data|, eof := io.eof || eof)
  }

  function FeedError(io: Io): Io {
    io.(readError := true)
  }

  function WriteFailed(io: Io): Io {
    io.(writeError := true, buffer := "")
  }

  function PendingWriteData(io: Io): string {
    if io.cursor >= |io.buffer| then "" else io.buffer[io.cursor..]
  }

  function AdvanceWrite(io: Io, n: nat): Io {
    if io.cursor + n >= |io.buffer| then io.(buffer := "", cursor := 0, pending := false)
    else io.(cursor := io.cursor + n)
  }

  predicate IsFinished(io: Io) {
    io.finished && io.buffer == ""
  }

  /** The largest value an eventfd counter can hold. */
  const MAX_COUNTER: nat := 0xffff_ffff_ffff_fffe

  /** The eventfd counter after a best-effort write of 1. */
  function Signalled(counter: nat): (c: nat)
    ensures c > 0
  {
    if counter < MAX_COUNTER then counter + 1 else MAX_COUNTER
  }

  /** The non-blocking eventfd shared by all connections. */
  class EventFd {
    var counter: nat

    constructor ()
      ensures counter == 0
    {
      counter := 0;
    }

    method Signal()
      modifies this
      ensures counter == Signalled(old(counter))
    {
      counter := if counter < MAX_COUNTER then counter + 1 else MAX_COUNTER;
    }
  }

  /**
   The methods below are the critical sections.  A blocking call returns `ran ==
   false` with nothing changed when its wait predicate is false: the caller is then
   put to sleep on the condition variable (module Bridge).
   */
  class ConnectionIO {
    const eventFd: EventFd
    var header: string
    var bodyPrefix: string
    var contentLength: nat
    var readChunk: string
    var bodyBytesFed: nat
    var readDataReady: bool
    var readEof: bool
    var readError: bool
    var writeBuffer: string
    var writeCursor: nat
    var writePending: bool
    var finished: bool
    var writeError: bool

    ghost function View(): Io
      reads this
    {
      Io(contentLength, bodyPrefix, readChunk, bodyBytesFed, readEof, readError,
         writeBuffer, writeCursor, writePending, finished, writeError)
    }

    constructor (eventFd: EventFd)
      ensures this.eventFd == eventFd
      ensures View() == SetHeaderData("", 0)
    {
      this.eventFd := eventFd;
      header, bodyPrefix, contentLength := "", "", 0;
      readChunk, bodyBytesFed, readDataReady, readEof, readError := "", 0, false, false, false;
      writeBuffer, writeCursor, writePending, finished, writeError := "", 0, false, false, false;
    }

    method SetHeader(headerData: string, prefix: string, length: nat)
      requires View() == SetHeaderData("", 0)
      modifies this
      ensures header == headerData
      ensures View() == SetHeaderData(prefix, length)
    {
      header := headerData;
      bodyPrefix := prefix;
      contentLength := length;
      if |bodyPrefix| > contentLength {
        bodyPrefix := bodyPrefix[..contentLength];
      }
      bodyBytesFed := |bodyPrefix|;
    }

    method ReadChunk(max: nat) returns (ran: bool, data: string, status: Status)
      modifies this
      ensures ran == ReadReady(old(View()), max)
      ensures ran ==> (View(), data, status) == ReadBodyChunk(old(View()), max)
      ensures !ran ==> View() == old(View())
    {
      data, status := "", Data;
      ran := |readChunk| >= max || bodyBytesFed >= contentLength || readEof || readError;
      if !ran {
        return;
      }
      if readChunk == "" {
        if bodyBytesFed >= contentLength {
          status := Complete;
          return;
        }
        if readError {
          status := Error;
          return;
        }
        if readEof {
          status := Truncated;
          return;
        }
      }
      if |readChunk| <= max {
        data, readChunk := readChunk, "";
      } else {
        data, readChunk := readChunk[..max], readChunk[max..];
      }
      if readChunk == "" {
        readDataReady := false;
        if bodyBytesFed >= contentLength {
          status := Complete;
        } else if readError {
          status := Error;
        } else if readEof {
          status := Truncated;
        }
      }
    }

    method Write(data: string) returns (ran: bool)
      modifies this, eventFd
      ensures ran == (data == "" || WriteReady(old(View())))
      ensures View() == if ran && data != "" then WriteData(old(View()), data) else old(View())
      ensures eventFd.counter == if ran && data != "" && !old(writeError)
                                 then Signalled(old(eventFd.counter)) else old(eventFd.counter)
    {
      if data == "" {
        return true;
      }
      ran := writeBuffer == "" || writeError;
      if !ran || writeError {
        return;
      }
      writeBuffer := data;
      writeCursor := 0;
      writePending := true;
      eventFd.Signal();
    }

    method FinishResponse()
      modifies this, eventFd
      ensures View() == Finish(old(View()))
      ensures eventFd.counter == Signalled(old(eventFd.counter))
    {
      finished := true;
      eventFd.Signal();
    }

    /** The flags are set under the lock; the eventfd is written after it is released. */
    method SetError()
      modifies this, eventFd
      ensures View() == SetErrorFlags(old(View()))
      ensures eventFd.counter == Signalled(old(eventFd.counter))
    {
      writeError := true;
      finished := true;
      eventFd.Signal();
    }

    method Feed(data: string, eof: bool)
      modifies this
      ensures View() == FeedBody(old(View()), data, eof)
    {
      if |data| > 0 {
        readChunk := readChunk + data;
        bodyBytesFed := bodyBytesFed + |data|;
        readDataReady := true;
      } else {
        assert readChunk + data == readChunk;
      }
      if eof {
        readEof := true;
      }
    }

    method FeedFailure()
      modifies this
      ensures View() == FeedError(old(View()))
    {
      readError := true;
    }

    method WriteFailure()
      modifies this
      ensures View() == WriteFailed(old(View()))
    {
      writeError := true;
      writeBuffer := "";
    }

    method PendingData() returns (view: string)
      ensures view == PendingWriteData(View())
    {
      if writeCursor >= |writeBuffer| {
        return "";
      }
      view := writeBuffer[writeCursor..];
    }

    method Advance(n: nat)
      modifies this
      ensures View() == AdvanceWrite(old(View()), n)
    {
      writeCursor := writeCursor + n;
      if writeCursor >= |writeBuffer| {
        writeBuffer := "";
        writeCursor := 0;
        writePending := false;
      }
    }

    method FinishedAndDrained() returns (b: bool)
      ensures b == IsFinished(View())
    {
      b := finished && writeBuffer == "";
    }
  }
}

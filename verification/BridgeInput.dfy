/** What the loop does with what it receives: heads, bodies and the end of the stream. */
module BridgeInput {
  import opened Common
  import opened ConnectionIo
  import opened Bridge
  import opened BridgeInvariant
  import opened BridgeSteps
  import opened BridgeTheorems
  import opened BridgeProgress

  /** EPOLLIN is reported for fd, perhaps with EPOLLOUT, and recv gives this. */
  function Receives(fd: Fd, what: Received, id: Id, contentLength: nat, out: bool): seq<LoopMove> {
    [Event(fd, false, true, out), Recv(what, id, contentLength)]
  }

  /** Where the loop stands behind the EPOLLIN part: at the EPOLLOUT part of an active connection, if reported. */
  function Behind(s: State, fd: Fd, out: bool): Loop {
    if out && Linked(s, fd) then OutView(fd) else AtWait
  }

  lemma ReceivesOf(s: State, fd: Fd, what: Received, id: Id, contentLength: nat, out: bool)
    requires s.loop == AtWait && fd in s.conns
    ensures After(s, Receives(fd, what, id, contentLength, out))
            == InMoves(At(s, InRecv(fd, out)), Recv(what, id, contentLength))
  {
    AfterTwo(s, Event(fd, false, true, out), Recv(what, id, contentLength));
    hide After, ScanMoves, InMoves, OutMoves, CloseMoves;
  }

  // ----- Heads -----

  /** A connection whose head is still incomplete. */
  predicate ReadingHead(s: State, fd: Fd) {
    s.loop == AtWait && fd in s.conns && s.conns[fd].io == None
  }

  predicate Chunk(data: string) {
    0 < |data| <= BUFFER_SIZE
  }

  /** The head of the connection is complete: the request waits for a worker, with the body begun behind the head. */
  predicate Dispatched(s: State, fd: Fd, id: Id, stream: string, k: nat, contentLength: nat) {
    && k <= |stream| && fd in s.conns && s.conns[fd].io == Some(id) && id in s.links
    && var l := s.links[id];
    && l.header == stream[..k] && l.body == stream[k..] && l.worker == Queued && l.owner == Some(fd)
    && l.io.contentLength == contentLength && l.io.prefix == l.body[..Min(|l.body|, contentLength)]
    && l.io.fed == |l.io.prefix| && l.produced == "" == l.sent && l.io.buffer == "" && !l.io.writeError
    && (s.conns[fd].bodyComplete <==> |l.body| >= contentLength)
  }

  /** The connection has gone from s to being dispatched in s', and nothing else has changed. */
  predicate Hands(s: State, s': State, fd: Fd, id: Id, stream: string, k: nat, contentLength: nat) {
    && Dispatched(s', fd, id, stream, k, contentLength)
    && s'.conns.Keys == s.conns.Keys && s'.links == s.links[id := s'.links[id]] && s'.counter == s.counter
  }

  lemma FoundIsFirst(s: string)
    ensures NoBlankLine(s) ==> FindHeaderEnd(s) == None
    ensures forall k: nat :: FirstBlankLine(s, k) ==> FindHeaderEnd(s) == Some(k)
  {
    FindIsFirst(s, 0);
    forall k: nat | FirstBlankLine(s, k)
      ensures FindHeaderEnd(s) == Some(k)
    {
      assert BlankLine(s, k);
    }
  }

  lemma BytesOf(s: State, fd: Fd, data: string, id: Id, contentLength: nat, out: bool)
    requires s.loop == AtWait && fd in s.conns && Chunk(data) && id !in s.links
    ensures After(s, Receives(fd, Bytes(data), id, contentLength, out))
            == ReceiveBytes(At(s, InRecv(fd, out)), fd, out, data, id, contentLength)
  {
    hide After, Receives, ReceiveBytes;
    ReceivesOf(s, fd, Bytes(data), id, contentLength, out);
  }

  lemma TooLargeOf(s: State, fd: Fd, data: string, id: Id, contentLength: nat, out: bool)
    requires ReadingHead(s, fd) && CtxOk(s, fd, s.conns[fd])
    requires |s.conns[fd].stream + data| > MAX_HEADER_SIZE
    ensures ReceiveBytes(At(s, InRecv(fd, out)), fd, out, data, id, contentLength) == At(s, Closing(fd, 0, ToWait))
  {
    hide FindHeaderEnd;
  }

  lemma IncompleteOf(s: State, fd: Fd, data: string, id: Id, contentLength: nat, out: bool)
    requires ReadingHead(s, fd) && CtxOk(s, fd, s.conns[fd])
    requires var buf := s.conns[fd].stream + data; |buf| <= MAX_HEADER_SIZE && NoBlankLine(buf)
    ensures var buf := s.conns[fd].stream + data;
      ReceiveBytes(At(s, InRecv(fd, out)), fd, out, data, id, contentLength)
      == SetCtx(s, fd, s.conns[fd].(headerBuf := buf, stream := buf))
  {
    FoundIsFirst(s.conns[fd].stream + data);
    hide FindHeaderEnd, NoBlankLine;
  }

  lemma CompleteOf(s: State, fd: Fd, data: string, id: Id, contentLength: nat, out: bool, k: nat)
    requires ReadingHead(s, fd) && CtxOk(s, fd, s.conns[fd]) && id !in s.links
    requires var buf := s.conns[fd].stream + data; |buf| <= MAX_HEADER_SIZE && FirstBlankLine(buf, k)
    ensures var buf := s.conns[fd].stream + data;
      var s' := ReceiveBytes(At(s, InRecv(fd, out)), fd, out, data, id, contentLength);
      Hands(s, s', fd, id, buf, k, contentLength) && s'.loop == Behind(s', fd, out)
  {
    FoundIsFirst(s.conns[fd].stream + data);
    assert BlankLine(s.conns[fd].stream + data, k);
    hide FindHeaderEnd, FirstBlankLine;
  }

  /** A piece of the head: the stream grows by it, and nothing else happens. */
  lemma PieceArrives(schedule: seq<Action>, fd: Fd, data: string, id: Id, contentLength: nat)
    requires var s := Run(schedule); ReadingHead(s, fd) && id !in s.links && Chunk(data)
    requires var buf := Run(schedule).conns[fd].stream + data; |buf| <= MAX_HEADER_SIZE && NoBlankLine(buf)
    ensures var s := Run(schedule); var buf := s.conns[fd].stream + data;
      Run(schedule + Loops(Receives(fd, Bytes(data), id, contentLength, false)))
      == SetCtx(s, fd, s.conns[fd].(headerBuf := buf, stream := buf))
  {
    RunKeepsInv(schedule);
    AtFd(Run(schedule), fd);
    RunOn(schedule, Receives(fd, Bytes(data), id, contentLength, false));
    hide Run, Inv, CtxOk, ReceiveBytes, Loops, Receives, NoBlankLine;
    BytesOf(Run(schedule), fd, data, id, contentLength, false);
    IncompleteOf(Run(schedule), fd, data, id, contentLength, false);
  }

  /** The last piece of the head, with whatever follows it: the request is dispatched. */
  lemma HeadEnds(schedule: seq<Action>, fd: Fd, data: string, id: Id, contentLength: nat, out: bool, k: nat)
    requires var s := Run(schedule); ReadingHead(s, fd) && id !in s.links && Chunk(data)
    requires var buf := Run(schedule).conns[fd].stream + data; |buf| <= MAX_HEADER_SIZE && FirstBlankLine(buf, k)
    ensures var s := Run(schedule); var buf := s.conns[fd].stream + data;
      var s' := Run(schedule + Loops(Receives(fd, Bytes(data), id, contentLength, out)));
      Hands(s, s', fd, id, buf, k, contentLength) && s'.loop == Behind(s', fd, out)
  {
    RunKeepsInv(schedule);
    AtFd(Run(schedule), fd);
    RunOn(schedule, Receives(fd, Bytes(data), id, contentLength, out));
    hide Run, Inv, CtxOk, ReceiveBytes, Loops, Receives, FirstBlankLine, Dispatched;
    BytesOf(Run(schedule), fd, data, id, contentLength, out);
    CompleteOf(Run(schedule), fd, data, id, contentLength, out, k);
  }

  /** A head that is too long closes the connection, and no worker hears of it. */
  lemma LongHeadCloses(schedule: seq<Action>, fd: Fd, data: string, id: Id, contentLength: nat, out: bool)
    requires var s := Run(schedule); ReadingHead(s, fd) && id !in s.links && Chunk(data)
    requires |Run(schedule).conns[fd].stream + data| > MAX_HEADER_SIZE
    ensures var s := Run(schedule);
      Run(schedule + Loops(Receives(fd, Bytes(data), id, contentLength, out) + CHECKS)) == s.(conns := s.conns - {fd})
  {
    RunKeepsInv(schedule);
    AtFd(Run(schedule), fd);
    RunOn(schedule, Receives(fd, Bytes(data), id, contentLength, out) + CHECKS);
    hide Run, Inv, CtxOk, ReceiveBytes, Loops, Receives;
    AfterBoth(Run(schedule), Receives(fd, Bytes(data), id, contentLength, out), CHECKS);
    BytesOf(Run(schedule), fd, data, id, contentLength, out);
    TooLargeOf(Run(schedule), fd, data, id, contentLength, out);
    UnlinkedCloses(Run(schedule), fd);
  }

  lemma UnlinkedCloses(s: State, fd: Fd)
    requires ReadingHead(s, fd)
    ensures After(At(s, Closing(fd, 0, ToWait)), CHECKS) == s.(conns := s.conns - {fd})
  {
    var s1 := At(s, Closing(fd, 0, ToWait));
    AfterTwo(s1, Go, Go);
    hide After, ScanMoves, InMoves, OutMoves, WaitMoves;
    assert LoopMoves(s1, Go).conns - {fd} == s.conns - {fd};
  }

  /** One event for each piece. */
  function Arrivals(fd: Fd, pieces: seq<string>, id: Id, contentLength: nat): seq<LoopMove> {
    if pieces == [] then []
    else
      var n := |pieces| - 1;
      Arrivals(fd, pieces[..n], id, contentLength) + Receives(fd, Bytes(pieces[n]), id, contentLength, false)
  }

  predicate Chunks(pieces: seq<string>) {
    forall data :: data in pieces ==> Chunk(data)
  }

  lemma NoBlankLineBefore(s: string, t: string)
    requires NoBlankLine(s + t)
    ensures NoBlankLine(s)
  {
    forall j | 0 <= j <= |s|
      ensures !BlankLine(s, j)
    {
      assert !BlankLine(s + t, j);
      if 4 <= j {
        assert (s + t)[j - 4..j] == s[j - 4..j];
      }
    }
  }

  lemma {:induction false} PiecesArrive(schedule: seq<Action>, fd: Fd, pieces: seq<string>, id: Id, contentLength: nat)
    requires var s := Run(schedule); ReadingHead(s, fd) && id !in s.links && Chunks(pieces)
    requires var buf := Run(schedule).conns[fd].stream + Concat(pieces); |buf| <= MAX_HEADER_SIZE && NoBlankLine(buf)
    ensures var s := Run(schedule); var buf := s.conns[fd].stream + Concat(pieces);
      var s' := Run(schedule + Loops(Arrivals(fd, pieces, id, contentLength)));
      && ReadingHead(s', fd) && s'.conns[fd].stream == buf
      && s'.links == s.links && s'.counter == s.counter && s'.conns.Keys == s.conns.Keys
  {
    hide Run, NoBlankLine, Receives;
    if pieces == [] {
      assert schedule + Loops([]) == schedule;
      assert Run(schedule).conns[fd].stream + "" == Run(schedule).conns[fd].stream;
    } else {
      var n := |pieces| - 1;
      var before := schedule + Loops(Arrivals(fd, pieces[..n], id, contentLength));
      var stream := Run(schedule).conns[fd].stream;
      assert stream + Concat(pieces) == stream + Concat(pieces[..n]) + pieces[n];
      NoBlankLineBefore(stream + Concat(pieces[..n]), pieces[n]);
      PiecesArrive(schedule, fd, pieces[..n], id, contentLength);
      PieceArrives(before, fd, pieces[n], id, contentLength);
      LoopsBoth(Arrivals(fd, pieces[..n], id, contentLength), Receives(fd, Bytes(pieces[n]), id, contentLength, false));
      assert schedule + Loops(Arrivals(fd, pieces, id, contentLength))
             == before + Loops(Receives(fd, Bytes(pieces[n]), id, contentLength, false));
    }
  }

  /**
   However a head of no more than MAX_HEADER_SIZE is cut, the piece that completes it hands
   the request to the pool, split at its first blank line.
   */
  lemma HeadIsDispatched(schedule: seq<Action>, fd: Fd, pieces: seq<string>, last: string, id: Id, contentLength: nat,
                         k: nat)
    requires var s := Run(schedule); ReadingHead(s, fd) && s.conns[fd].stream == "" && id !in s.links
    requires Chunks(pieces) && Chunk(last) && NoBlankLine(Concat(pieces))
    requires |Concat(pieces) + last| <= MAX_HEADER_SIZE && FirstBlankLine(Concat(pieces) + last, k)
    ensures var s := Run(schedule);
      var s' := Run(schedule + Loops(Arrivals(fd, pieces + [last], id, contentLength)));
      Hands(s, s', fd, id, Concat(pieces) + last, k, contentLength) && s'.loop == AtWait
  {
    var before := schedule + Loops(Arrivals(fd, pieces, id, contentLength));
    hide Run, NoBlankLine, FirstBlankLine, Receives, Dispatched, Loops;
    assert "" + Concat(pieces) == Concat(pieces);
    PiecesArrive(schedule, fd, pieces, id, contentLength);
    HeadEnds(before, fd, last, id, contentLength, false, k);
    hide Arrivals;
    LastArrives(schedule, fd, pieces, last, id, contentLength);
  }

  lemma LastArrives(schedule: seq<Action>, fd: Fd, pieces: seq<string>, last: string, id: Id, contentLength: nat)
    ensures schedule + Loops(Arrivals(fd, pieces + [last], id, contentLength))
            == schedule + Loops(Arrivals(fd, pieces, id, contentLength))
               + Loops(Receives(fd, Bytes(last), id, contentLength, false))
  {
    assert (pieces + [last])[..|pieces|] == pieces;
    LoopsBoth(Arrivals(fd, pieces, id, contentLength), Receives(fd, Bytes(last), id, contentLength, false));
  }

  // ----- Bodies -----

  /** A connection whose body is still incomplete. */
  predicate ReadingBody(s: State, fd: Fd) {
    s.loop == AtWait && Linked(s, fd) && !s.conns[fd].bodyComplete
  }

  /** What has arrived is fed to the worker, who is awake if it reads; the loop stops reading when it is enough. */
  predicate FedTo(s: State, s': State, fd: Fd, data: string) {
    && Linked(s, fd) && Linked(s', fd) && s'.conns.Keys == s.conns.Keys && s'.conns[fd].io == s.conns[fd].io
    && var l, l' := LinkOf(s, fd), LinkOf(s', fd);
    && l'.body == l.body + data && l'.io.fed == Min(|l'.body|, l.io.contentLength)
    && l'.io.contentLength == l.io.contentLength && l'.consumed == l.consumed && l'.sent == l.sent
    && l'.produced == l.produced && l'.worker == WakeReader(l.worker)
    && (s'.conns[fd].bodyComplete <==> |l'.body| >= l.io.contentLength)
    && (s'.conns[fd].bodyComplete ==> !s'.conns[fd].events.input && l'.io.eof)
  }

  lemma FedOf(s: State, fd: Fd, data: string, out: bool)
    requires ReadingBody(s, fd) && CtxOk(s, fd, s.conns[fd])
    ensures var received := LinkOf(s, fd).io.fed;
      var s' := Feed(At(s, InFeed(fd, data, received, out)), fd, data, received, out);
      FedTo(s, s', fd, data) && s'.loop == Behind(s', fd, out) && s'.links.Keys == s.links.Keys
  {
    hide FindHeaderEnd;
  }

  lemma FeedingOf(s: State, fd: Fd, data: string, id: Id, contentLength: nat, out: bool)
    requires ReadingBody(s, fd) && Chunk(data) && id !in s.links
    ensures After(s, Receives(fd, Bytes(data), id, contentLength, out))
            == At(s, InFeed(fd, data, LinkOf(s, fd).io.fed, out))
  {
    BytesOf(s, fd, data, id, contentLength, out);
    hide After, Receives, FindHeaderEnd;
  }

  lemma FeedStep(s: State, fd: Fd, data: string, received: nat, out: bool)
    requires Linked(s, fd) && s.loop == InFeed(fd, data, received, out)
    ensures LoopMoves(s, Go) == Feed(s, fd, data, received, out)
  {
    hide ScanMoves, OutMoves, CloseMoves, WaitMoves, Feed;
  }

  lemma FeedingAfter(s: State, fd: Fd, data: string, id: Id, contentLength: nat, out: bool)
    requires ReadingBody(s, fd) && Chunk(data) && id !in s.links && CtxOk(s, fd, s.conns[fd])
    ensures var s' := After(s, Receives(fd, Bytes(data), id, contentLength, out) + [Go]);
      FedTo(s, s', fd, data) && s'.loop == Behind(s', fd, out) && s'.links.Keys == s.links.Keys
  {
    hide Receives, FedTo, Feed, CtxOk, LoopMoves, After;
    AfterBoth(s, Receives(fd, Bytes(data), id, contentLength, out), [Go]);
    FeedingOf(s, fd, data, id, contentLength, out);
    var s1 := At(s, InFeed(fd, data, LinkOf(s, fd).io.fed, out));
    AfterOne(s1, Go);
    FeedStep(s1, fd, data, LinkOf(s, fd).io.fed, out);
    FedOf(s, fd, data, out);
  }

  /** Bytes of the body reach the worker. */
  lemma BodyArrives(schedule: seq<Action>, fd: Fd, data: string, id: Id, contentLength: nat, out: bool)
    requires var s := Run(schedule); ReadingBody(s, fd) && id !in s.links && Chunk(data)
    ensures var s' := Run(schedule + Loops(Receives(fd, Bytes(data), id, contentLength, out) + [Go]));
      && FedTo(Run(schedule), s', fd, data) && s'.loop == Behind(s', fd, out)
      && s'.links.Keys == Run(schedule).links.Keys
  {
    RunKeepsInv(schedule);
    AtFd(Run(schedule), fd);
    hide Run, Inv, Loops, Receives, CtxOk, FedTo, After;
    RunOn(schedule, Receives(fd, Bytes(data), id, contentLength, out) + [Go]);
    FeedingAfter(Run(schedule), fd, data, id, contentLength, out);
  }

  /** One event for each piece of a body. */
  function Feedings(fd: Fd, pieces: seq<string>, id: Id): seq<LoopMove> {
    if pieces == [] then []
    else
      var n := |pieces| - 1;
      Feedings(fd, pieces[..n], id) + (Receives(fd, Bytes(pieces[n]), id, 0, false) + [Go])
  }

  lemma FedTwice(s: State, s1: State, s2: State, fd: Fd, data: string, more: string)
    requires FedTo(s, s1, fd, data) && FedTo(s1, s2, fd, more)
    ensures FedTo(s, s2, fd, data + more)
  {
    assert LinkOf(s, fd).body + data + more == LinkOf(s, fd).body + (data + more);
  }

  /** However the body is cut, the first Content-Length bytes of it are fed, and then the loop stops reading. */
  lemma {:induction false} BodyIsFed(schedule: seq<Action>, fd: Fd, pieces: seq<string>, id: Id)
    requires var s := Run(schedule); ReadingBody(s, fd) && id !in s.links && Chunks(pieces) && pieces != []
    requires var l := LinkOf(Run(schedule), fd); |l.body + Concat(pieces[..|pieces| - 1])| < l.io.contentLength
    ensures var s' := Run(schedule + Loops(Feedings(fd, pieces, id)));
      FedTo(Run(schedule), s', fd, Concat(pieces)) && s'.loop == AtWait && s'.links.Keys == Run(schedule).links.Keys
  {
    var n := |pieces| - 1;
    var before := schedule + Loops(Feedings(fd, pieces[..n], id));
    var moves := Receives(fd, Bytes(pieces[n]), id, 0, false) + [Go];
    LoopsBoth(Feedings(fd, pieces[..n], id), moves);
    assert schedule + Loops(Feedings(fd, pieces, id)) == before + Loops(moves);
    hide Run, Loops, Receives;
    if n == 0 {
      assert before == schedule && Concat(pieces) == pieces[n] by {
        assert Concat(pieces) == "" + pieces[n];
        NoMoves();
        assert schedule + [] == schedule;
      }
      hide FedTo, Feedings;
      BodyArrives(schedule, fd, pieces[n], id, 0, false);
    } else {
      hide Feedings;
      BodyIsFed(schedule, fd, pieces[..n], id);
      BodyArrives(before, fd, pieces[n], id, 0, false);
      FedTwice(Run(schedule), Run(before), Run(schedule + Loops(Feedings(fd, pieces, id))), fd,
               Concat(pieces[..n]), pieces[n]);
    }
  }

  lemma NoMoves()
    ensures Loops([]) == []
  {
  }

  /** The end of the stream reaches a worker that waits for more of the body. */
  lemma EndArrives(schedule: seq<Action>, fd: Fd, id: Id, out: bool)
    requires ReadingBody(Run(schedule), fd)
    ensures var s := Run(schedule); var l := LinkOf(s, fd);
      var s' := Run(schedule + Loops(Receives(fd, Eof, id, 0, out) + [Go]));
      && s'.loop == Behind(s, fd, out) && Linked(s', fd) && s'.conns[fd].bodyComplete
      && LinkOf(s', fd) == l.(io := FeedBody(l.io, "", true), worker := WakeReader(l.worker))
  {
    var s := Run(schedule);
    RunOn(schedule, Receives(fd, Eof, id, 0, out) + [Go]);
    AfterBoth(s, Receives(fd, Eof, id, 0, out), [Go]);
    ReceivesOf(s, fd, Eof, id, 0, out);
    hide Run, Loops, Receives, ScanMoves, OutMoves, CloseMoves, WaitMoves;
    var s1 := At(s, InEof(fd, out));
    assert InMoves(At(s, InRecv(fd, out)), Recv(Eof, id, 0)) == s1;
    AfterOne(s1, Go);
    hide After, FeedBody;
  }

  /** Behind the EPOLLIN part of an event, its EPOLLOUT part sends as it does alone. */
  lemma OutputBehindInput(schedule: seq<Action>, fd: Fd, n: nat)
    requires Run(schedule).loop == OutView(fd) && Linked(Run(schedule), fd)
    requires var l := LinkOf(Run(schedule), fd); |l.sent| < |l.produced| && |l.sent| + n <= |l.produced|
    ensures var l := LinkOf(Run(schedule), fd); var s' := Run(schedule + Loops([Go] + [Sent(n), Go]));
      && Linked(s', fd) && s'.conns == Run(schedule).conns && s'.loop == OutPend(fd)
      && LinkOf(s', fd).sent == l.produced[..|l.sent| + n] && LinkOf(s', fd).produced == l.produced
  {
    var s := Run(schedule);
    var l := LinkOf(s, fd);
    NothingIsLost(schedule, fd);
    RunOn(schedule, [Go] + [Sent(n), Go]);
    hide Run, Loops;
    var view := PendingWriteData(l.io);
    assert l.produced[..|l.sent| + n] == l.sent + view[..n];
    AfterBoth(s, [Go], [Sent(n), Go]);
    AfterOne(s, Go);
    hide After, PendingWriteData, ScanMoves, InMoves, CloseMoves, WaitMoves;
    var s1 := At(s, OutSend(fd, view));
    assert LoopMoves(s, Go) == s1;
    hide OutMoves;
    SentOf(s1, fd, view, n);
  }

  /** Without data, or with data behind a complete body, the EPOLLOUT part comes at once. */
  lemma NothingToFeed(schedule: seq<Action>, fd: Fd, what: Received, id: Id, out: bool)
    requires var s := Run(schedule); s.loop == AtWait && Linked(s, fd) && id !in s.links
    requires what == Again || (what.Bytes? && Chunk(what.data) && Run(schedule).conns[fd].bodyComplete)
    ensures var s := Run(schedule); var s' := Run(schedule + Loops(Receives(fd, what, id, 0, out)));
      && s'.loop == Behind(s, fd, out) && Linked(s', fd) && s'.conns[fd].events == s.conns[fd].events
      && LinkOf(s', fd) == LinkOf(s, fd).(body := LinkOf(s, fd).body + if what.Bytes? then what.data else "")
  {
    var s := Run(schedule);
    RunOn(schedule, Receives(fd, what, id, 0, out));
    ReceivesOf(s, fd, what, id, 0, out);
    hide Run, Loops, Receives, After, FindHeaderEnd;
    assert LinkOf(s, fd).body + "" == LinkOf(s, fd).body;
  }
}

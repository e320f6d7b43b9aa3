/** What the event loop leaves alone: the worker's side of every link. */
module BridgeWork {
  import opened ConnectionIo
  import opened Bridge

  /** The loop has left the worker's side of a link alone. */
  predicate SameWork(l: Link, l': Link) {
    && l'.produced == l.produced && l'.discarded == l.discarded
    && (l'.worker == l.worker
        || (l.worker.Reading? && l'.worker.Reading?)
        || (l.worker.Writing? && l'.worker.Writing? && l'.worker.data == l.worker.data))
  }

  /** Every link of s' is one of s with the same work, or new. */
  predicate LinksKeptOrNew(s: State, s': State) {
    && (forall i :: i in s.links ==> i in s'.links)
    && forall i :: i in s'.links ==>
      if i in s.links then SameWork(s.links[i], s'.links[i])
      else s'.links[i].worker == Queued && s'.links[i].produced == "" && s'.links[i].discarded == 0
  }

  lemma WaitKeepsWork(s: State, m: LoopMove)
    requires s.loop == AtWait
    ensures LinksKeptOrNew(s, WaitMoves(s, m))
  {
  }

  lemma ScanKeepsWork(s: State, m: LoopMove)
    ensures LinksKeptOrNew(s, ScanMoves(s, m))
  {
  }

  lemma CloseKeepsWork(s: State, fd: Fd, stage: nat, next: Then)
    ensures LinksKeptOrNew(s, CloseMoves(s, fd, stage, next))
  {
  }

  lemma BytesKeepWork(s: State, fd: Fd, out: bool, data: string, id: Id, contentLength: nat)
    requires fd in s.conns && id !in s.links
    ensures LinksKeptOrNew(s, ReceiveBytes(s, fd, out, data, id, contentLength))
  {
    hide FindHeaderEnd;
  }

  lemma FeedKeepsWork(s: State, fd: Fd, data: string, received: nat, out: bool)
    requires Linked(s, fd)
    ensures LinksKeptOrNew(s, Feed(s, fd, data, received, out))
  {
  }

  lemma InKeepsWork(s: State, m: LoopMove)
    ensures LinksKeptOrNew(s, InMoves(s, m))
  {
    hide ReceiveBytes, Feed;
    match s.loop
    case InRecv(fd, out) =>
      if m.Recv? && fd in s.conns && m.what.Bytes? && 0 < |m.what.data| <= BUFFER_SIZE && m.id !in s.links {
        BytesKeepWork(s, fd, out, m.what.data, m.id, m.contentLength);
      }
    case InFeed(fd, data, received, out) =>
      if Linked(s, fd) {
        FeedKeepsWork(s, fd, data, received, out);
      }
    case _ =>
  }

  lemma UpdateKeepsWork(s: State, s': State, fd: Fd, l: Link)
    requires Linked(s, fd) && SameWork(LinkOf(s, fd), l) && s'.links == SetLink(s, fd, l).links
    ensures LinksKeptOrNew(s, s')
  {
  }

  lemma UntouchedKeepsWork(s: State, s': State)
    requires s'.links == s.links
    ensures LinksKeptOrNew(s, s')
  {
  }

  lemma DecideKeepsWork(s: State, s': State, fd: Fd, fate: Fate)
    requires s'.links == Decide(s, fd, fate).links
    ensures LinksKeptOrNew(s, s')
  {
  }

  lemma OutKeepsWork(s: State, m: LoopMove)
    ensures LinksKeptOrNew(s, OutMoves(s, m))
  {
    var s' := OutMoves(s, m);
    hide LinksKeptOrNew, Decide, AdvanceWrite, PendingWriteData, IsFinished, WriteFailed;
    match s.loop
    case OutEmpty(fd) => FinishKeepsWork(s, m, fd);
    case OutFin(fd) => FinishKeepsWork(s, m, fd);
    case OutSend(fd, view) =>
      if Linked(s, fd) && m.Sent? && m.n <= |view| {
        var l := LinkOf(s, fd);
        UpdateKeepsWork(s, s', fd, l.(sent := l.sent + view[..m.n], inFlight := m.n));
      } else {
        UntouchedKeepsWork(s, s');
      }
    case OutFail(fd) => FailKeepsWork(s, m, fd);
    case OutAdvance(fd, view, n) =>
      if Linked(s, fd) {
        UpdateKeepsWork(s, s', fd, LinkAdvanced(LinkOf(s, fd), n));
      } else {
        UntouchedKeepsWork(s, s');
      }
    case _ => UntouchedKeepsWork(s, s');
  }

  lemma FinishKeepsWork(s: State, m: LoopMove, fd: Fd)
    requires s.loop == OutEmpty(fd) || s.loop == OutFin(fd)
    ensures LinksKeptOrNew(s, OutMoves(s, m))
  {
    hide LinksKeptOrNew, Decide, IsFinished;
    var s' := OutMoves(s, m);
    if s'.links == s.links {
      UntouchedKeepsWork(s, s');
    } else {
      DecideKeepsWork(s, s', fd, Orderly);
    }
  }

  lemma FailKeepsWork(s: State, m: LoopMove, fd: Fd)
    requires s.loop == OutFail(fd)
    ensures LinksKeptOrNew(s, OutMoves(s, m))
  {
    hide WriteFailed;
  }

  lemma LoopKeepsWork(s: State, m: LoopMove)
    ensures LinksKeptOrNew(s, LoopMoves(s, m))
  {
    hide ScanMoves, InMoves, OutMoves, CloseMoves, WaitMoves;
    match s.loop
    case AtWait => WaitKeepsWork(s, m);
    case Scan(_, _) => ScanKeepsWork(s, m);
    case ScanErr(_, _, _) => ScanKeepsWork(s, m);
    case ScanFin(_, _, _) => ScanKeepsWork(s, m);
    case ScanFinPend(_, _, _) => ScanKeepsWork(s, m);
    case ScanPend(_, _, _) => ScanKeepsWork(s, m);
    case ScanArm(_, _, _) => ScanKeepsWork(s, m);
    case ScanClose(_) =>
    case Closing(fd, stage, next) => CloseKeepsWork(s, fd, stage, next);
    case InRecv(_, _) => InKeepsWork(s, m);
    case InFeed(_, _, _, _) => InKeepsWork(s, m);
    case InEof(_, _) => InKeepsWork(s, m);
    case Stopping(_) =>
    case Stopped =>
    case _ => OutKeepsWork(s, m);
  }
}

/**
 The event loop and its workers as one transition system
 (src/main.cpp:244-585 and the worker side of handle_request).

 A step is one critical section of ConnectionIO, one system call of the loop, or
 one write of the eventfd, together with the thread-local work up to the next one.
 Any number of connections; every worker may be interleaved at every step.
 The kernel is arbitrary: events may be stale or spurious, `recv` delivers any
 bytes, `send` takes any part of what it is given.
 */
module Bridge {
  import opened Common
  import opened ConnectionIo

  type Fd = nat
  type Id = nat  // names a ConnectionIO object; an Fd is reused, an Id is not

  const BUFFER_SIZE: nat := 65536
  const MAX_HEADER_SIZE: nat := 65536

  /** Why a worker gives up and calls setError. */
  datatype Reason = Rejected | ReadFailed | BodyTruncated | NoData

  /** Where a worker thread stands. */
  datatype Worker =
    | Queued                                 // accepted by the pool
    | Running                                // between calls into ConnectionIO
    | Reading(want: nat, asleep: bool)       // inside readBodyChunk
    | Writing(data: string, asleep: bool)    // inside writeData
    | Failing(reason: Reason)                // about to call setError
    | Erring                                 // setError: flags set, eventfd not yet written
    | Done

  /** One call of onRequestBody. */
  datatype Call = Call(data: string, endOfStream: bool)

  datatype Fate = Open | Orderly | Aborted

  /** A ConnectionIO, its worker, and what has happened on it so far. */
  datatype Link = Link(
    io: Io,
    worker: Worker,
    header: string,           // header_data_
    bodyStarted: bool,        // the worker has passed the body prefix on
    consumed: nat,            // body_consumed
    calls: seq<Call>,         // history: the onRequestBody calls
    discarded: nat,           // history: bytes taken by a read that failed
    produced: string,         // history: all writeData arguments
    sent: string,             // history: all bytes the kernel took
    inFlight: nat,            // bytes of `sent` not yet reported to advanceWrite
    body: string,             // history: all body bytes received on the socket
    owner: Option<Fd>,        // the map entry that refers to this object
    dropped: bool,            // history: the loop has called writeError
    fate: Fate)               // history: how the loop decided to close it

  datatype Interest = Interest(input: bool, out: bool)

  /** ConnCtx; `io` is set exactly in the Active state. */
  datatype Ctx = Ctx(
    headerBuf: string,
    io: Option<Id>,
    bodyComplete: bool,
    events: Interest,
    stream: string)           // history: all bytes received on this socket

  datatype Then = ToWait | ToScanClose(rest: set<Fd>) | ToStopping(left: set<Fd>)

  /** The loop's program counter: what it will do next. */
  datatype Loop =
    | AtWait
    | Scan(todo: set<Fd>, doomed: set<Fd>)
    | ScanErr(fd: Fd, todo: set<Fd>, doomed: set<Fd>)      // hasError
    | ScanFin(fd: Fd, todo: set<Fd>, doomed: set<Fd>)      // isFinished
    | ScanFinPend(fd: Fd, todo: set<Fd>, doomed: set<Fd>)  // isWritePending, as its conjunct
    | ScanPend(fd: Fd, todo: set<Fd>, doomed: set<Fd>)     // isWritePending
    | ScanArm(fd: Fd, todo: set<Fd>, doomed: set<Fd>)      // update_epoll
    | ScanClose(doomed: set<Fd>)
    | Closing(fd: Fd, stage: nat, next: Then)              // close_conn, in four stages
    | InRecv(fd: Fd, out: bool)                            // recv
    | InFeed(fd: Fd, data: string, received: nat, out: bool)  // feedBody
    | InEof(fd: Fd, out: bool)                             // feedBody at end of stream
    | OutView(fd: Fd)                                      // pendingWriteData
    | OutEmpty(fd: Fd)                                     // isFinished, nothing pending
    | OutSend(fd: Fd, view: string)                        // send
    | OutFail(fd: Fd)                                      // writeError
    | OutAdvance(fd: Fd, view: string, n: nat)             // advanceWrite
    | OutPend(fd: Fd)                                      // isWritePending
    | OutFin(fd: Fd)                                       // isFinished
    | OutIdle(fd: Fd)                                      // update_epoll
    | Stopping(left: set<Fd>)
    | Stopped

  datatype State = State(conns: map<Fd, Ctx>, links: map<Id, Link>, counter: nat, loop: Loop)

  const Init := State(map[], map[], 0, AtWait)

  // ----- Worker steps -----

  datatype WorkerMove =
    | Start            // the pool runs the task
    | PassPrefix       // onRequestBody with the prefix
    | BeginRead
    | TryRead          // evaluate the wait predicate of readBodyChunk
    | BeginWrite(data: string)
    | TryWrite         // evaluate the wait predicate of writeData
    | SpuriousWake
    | CallFinish
    | GiveUp           // parse failure, an exception, an unfinished stream
    | RaiseFlags
    | RaiseSignal

  function PassedPrefix(l: Link): Link {
    var first := if l.io.prefix == "" then [] else [Call(l.io.prefix, l.consumed >= l.io.contentLength)];
    l.(bodyStarted := true, calls := first)
  }

  /** The rest of one iteration of the body loop, after readBodyChunk has returned. */
  function AfterRead(l: Link, want: nat): Link {
    var (io, data, status) := ReadBodyChunk(l.io, want);
    if status == Error then l.(io := io, worker := Failing(ReadFailed), discarded := |data|)
    else if status == Truncated then l.(io := io, worker := Failing(BodyTruncated), discarded := |data|)
    else if data == "" then l.(io := io, worker := Failing(NoData))
    else
      var c := l.consumed + |data|;
      l.(io := io, worker := Running, consumed := c, calls := l.calls + [Call(data, c >= io.contentLength)])
  }

  function AfterWrite(l: Link, data: string): Link {
    l.(io := WriteData(l.io, data), worker := Running, produced := l.produced + data)
  }

  /** A read attempt: go on if the wait predicate holds, else sleep. */
  function ReadAttempt(l: Link, want: nat): Link {
    if ReadReady(l.io, want) then AfterRead(l, want) else l.(worker := Reading(want, true))
  }

  function WriteAttempt(l: Link, data: string): Link {
    if WriteReady(l.io) then AfterWrite(l, data) else l.(worker := Writing(data, true))
  }

  predicate Enabled(l: Link, m: WorkerMove) {
    match m
    case Start => l.worker == Queued
    case PassPrefix => l.worker == Running && !l.bodyStarted && l.io.contentLength > 0
    case BeginRead => l.worker == Running && l.bodyStarted && l.consumed < l.io.contentLength
    case TryRead => l.worker.Reading? && !l.worker.asleep
    case BeginWrite(data) => l.worker == Running && data != ""
    case TryWrite => l.worker.Writing? && !l.worker.asleep
    case SpuriousWake => l.worker.Reading? || l.worker.Writing?
    case CallFinish => l.worker == Running
    case GiveUp => l.worker == Running
    case RaiseFlags => l.worker.Failing?
    case RaiseSignal => l.worker == Erring
  }

  function WorkerMoves(l: Link, m: WorkerMove): Link
    requires Enabled(l, m)
  {
    match m
    case Start => l.(worker := Running)
    case PassPrefix => PassedPrefix(l)
    case BeginRead => l.(worker := Reading(Min(l.io.contentLength - l.consumed, BODY_CHUNK_SIZE), false))
    case TryRead => ReadAttempt(l, l.worker.want)
    case BeginWrite(data) => l.(worker := Writing(data, false))
    case TryWrite => WriteAttempt(l, l.worker.data)
    case SpuriousWake => l.(worker := WakeReader(WakeWriter(l.worker)))
    case CallFinish => l.(io := Finish(l.io), worker := Done)
    case GiveUp => l.(worker := Failing(Rejected))
    case RaiseFlags => l.(io := SetErrorFlags(l.io), worker := Erring)
    case RaiseSignal => l.(worker := Done)
  }

  /** Whether the move writes the eventfd. */
  predicate Signals(l: Link, m: WorkerMove) {
    || m == CallFinish
    || m == RaiseSignal
    || (m == TryWrite && WriteReady(l.io) && !l.io.writeError)
  }

  // ----- What the loop does to a link -----

  function WakeReader(w: Worker): Worker {
    match w
    case Reading(want, _) => Reading(want, false)
    case _ => w
  }

  function WakeWriter(w: Worker): Worker {
    match w
    case Writing(data, _) => Writing(data, false)
    case _ => w
  }

  function LinkFed(l: Link, data: string, eof: bool): Link {
    l.(io := FeedBody(l.io, data, eof), worker := WakeReader(l.worker))
  }

  function LinkFeedError(l: Link): Link {
    l.(io := FeedError(l.io), worker := WakeReader(l.worker))
  }

  function LinkWriteError(l: Link): Link {
    l.(io := WriteFailed(l.io), worker := WakeWriter(l.worker), dropped := true)
  }

  function LinkAdvanced(l: Link, n: nat): Link {
    var io := AdvanceWrite(l.io, n);
    l.(io := io, inFlight := 0, worker := if io.buffer == "" then WakeWriter(l.worker) else l.worker)
  }

  function NewLink(header: string, prefix: string, contentLength: nat, fd: Fd): Link {
    var io := SetHeaderData(prefix, contentLength);
    Link(io, Queued, header, false, |io.prefix|, [], 0, "", "", 0, prefix, Some(fd), false, Open)
  }

  // ----- Loop steps -----

  datatype Received = Again | Broken | Eof | Bytes(data: string)

  datatype LoopMove =
    | Accept(fd: Fd)
    | Notified                                       // an event on the eventfd
    | Event(fd: Fd, hup: bool, input: bool, out: bool) // an event on a client fd
    | Pick(fd: Fd)                                   // the next element of a set or of the map
    | Recv(what: Received, id: Id, contentLength: nat)
    | Sent(n: nat)
    | SendFailed(again: bool)
    | Go                                             // the only thing to do next
    | Shutdown

  function SetCtx(s: State, fd: Fd, ctx: Ctx): State {
    s.(conns := s.conns[fd := ctx])
  }

  function SetLink(s: State, fd: Fd, l: Link): State
    requires Linked(s, fd)
  {
    s.(links := s.links[s.conns[fd].io.value := l])
  }

  predicate Linked(s: State, fd: Fd) {
    fd in s.conns && s.conns[fd].io.Some? && s.conns[fd].io.value in s.links
  }

  function LinkOf(s: State, fd: Fd): Link
    requires Linked(s, fd)
  {
    s.links[s.conns[fd].io.value]
  }

  function At(s: State, loop: Loop): State {
    s.(loop := loop)
  }

  /** Start close_conn; the fate is recorded when the decision is first taken. */
  function Close(s: State, fd: Fd, fate: Fate, next: Then): State {
    At(Decide(s, fd, fate), Closing(fd, 0, next))
  }

  function Decide(s: State, fd: Fd, fate: Fate): State {
    if Linked(s, fd) && LinkOf(s, fd).fate == Open then SetLink(s, fd, LinkOf(s, fd).(fate := fate)) else s
  }

  function Resume(next: Then): Loop {
    match next
    case ToWait => AtWait
    case ToScanClose(rest) => ScanClose(rest)
    case ToStopping(left) => Stopping(left)
  }

  /** After the EPOLLIN part of a client event: the EPOLLOUT part, if any. */
  function AfterIn(s: State, fd: Fd, out: bool): State {
    At(s, if out && Linked(s, fd) then OutView(fd) else AtWait)
  }

  function WithoutIn(ctx: Ctx): Ctx {
    ctx.(bodyComplete := true, events := ctx.events.(input := false))
  }

  /** The position after the first blank line at or after `from`. */
  function FindHeaderEnd(s: string, from: nat := 0): (r: Option<nat>)
    ensures r.Some? ==> 4 <= r.value <= |s|
    decreases |s| - from
  {
    if from + 4 > |s| then None
    else if s[from..from + 4] == "\r\n\r\n" then Some(from + 4)
    else FindHeaderEnd(s, from + 1)
  }

  /** Headers complete: create the ConnectionIO and hand it to the pool. */
  function Dispatch(s: State, fd: Fd, headerBuf: string, end: nat, id: Id, contentLength: nat, out: bool): State
    requires end <= |headerBuf| && fd in s.conns
  {
    var l := NewLink(headerBuf[..end], headerBuf[end..], contentLength, fd);
    var ctx := Ctx("", Some(id), false, s.conns[fd].events, headerBuf);
    var ctx' := if contentLength == 0 || l.io.fed >= contentLength
                then ctx.(bodyComplete := true, events := Interest(false, false)) else ctx;
    AfterIn(SetCtx(s, fd, ctx').(links := s.links[id := l]), fd, out)
  }

  /** History: body bytes have arrived. */
  function Record(s: State, fd: Fd, data: string): State
    requires Linked(s, fd)
  {
    var l := LinkOf(s, fd);
    var ctx := s.conns[fd];
    SetCtx(SetLink(s, fd, l.(body := l.body + data)), fd, ctx.(stream := ctx.stream + data))
  }

  function ReceiveBytes(s: State, fd: Fd, out: bool, data: string, id: Id, contentLength: nat): State
    requires fd in s.conns
  {
    var ctx := s.conns[fd];
    if Linked(s, fd) then
      if !ctx.bodyComplete then At(s, InFeed(fd, data, LinkOf(s, fd).io.fed, out))
      else AfterIn(Record(s, fd, data), fd, out)
    else
      var buf := ctx.headerBuf + data;
      var end := FindHeaderEnd(buf);
      if |buf| > MAX_HEADER_SIZE then Close(s, fd, Aborted, ToWait)  // 431
      else if end.None? then AfterIn(SetCtx(s, fd, ctx.(headerBuf := buf, stream := buf)), fd, out)
      else Dispatch(s, fd, buf, end.value, id, contentLength, out)
  }

  function ReceiveEof(s: State, fd: Fd, out: bool): State
    requires fd in s.conns
  {
    var ctx := s.conns[fd];
    if ctx.io.None? then Close(s, fd, Aborted, ToWait)
    else if !ctx.bodyComplete then At(s, InEof(fd, out))
    else AfterIn(SetCtx(s, fd, WithoutIn(ctx)), fd, out)
  }

  /** How much of a received buffer is passed on, and whether that ends the body. */
  function ToFeed(contentLength: nat, received: nat, n: nat): (nat, bool) {
    var remaining := if contentLength > received then contentLength - received else 0;
    (Min(n, remaining), Min(n, remaining) >= remaining)
  }

  function Feed(s: State, fd: Fd, data: string, received: nat, out: bool): State
    requires Linked(s, fd)
  {
    var l := LinkOf(s, fd);
    var (n, eof) := ToFeed(l.io.contentLength, received, |data|);
    var s' := SetLink(Record(s, fd, data), fd, LinkFed(l, data[..n], eof).(body := l.body + data));
    AfterIn(if eof then SetCtx(s', fd, WithoutIn(s'.conns[fd])) else s', fd, out)
  }

  /** One step of the loop. A move that is not enabled changes nothing. */
  function LoopMoves(s: State, m: LoopMove): State {
    match s.loop
    case AtWait => WaitMoves(s, m)
    case Scan(_, _) => ScanMoves(s, m)
    case ScanErr(_, _, _) => ScanMoves(s, m)
    case ScanFin(_, _, _) => ScanMoves(s, m)
    case ScanFinPend(_, _, _) => ScanMoves(s, m)
    case ScanPend(_, _, _) => ScanMoves(s, m)
    case ScanArm(_, _, _) => ScanMoves(s, m)
    case ScanClose(doomed) =>
      if doomed == {} then At(s, AtWait)
      else if m.Pick? && m.fd in doomed then At(s, Closing(m.fd, 0, ToScanClose(doomed - {m.fd})))
      else s
    case Closing(fd, stage, next) => CloseMoves(s, fd, stage, next)
    case InRecv(_, _) => InMoves(s, m)
    case InFeed(_, _, _, _) => InMoves(s, m)
    case InEof(_, _) => InMoves(s, m)
    case Stopping(left) =>
      if left == {} then At(s, Stopped)
      else if m.Pick? && m.fd in left then Close(s, m.fd, Aborted, ToStopping(left - {m.fd}))
      else s
    case Stopped => s
    case _ => OutMoves(s, m)
  }

  function WaitMoves(s: State, m: LoopMove): State
    requires s.loop == AtWait
  {
    match m
    case Accept(fd) =>
      if fd in s.conns then s else SetCtx(s, fd, Ctx("", None, false, Interest(true, false), ""))
    case Notified => s.(counter := 0, loop := Scan(s.conns.Keys, {}))
    case Event(fd, hup, input, out) =>
      if fd !in s.conns then s
      else if hup then Close(s, fd, Aborted, ToWait)
      else if input then At(s, InRecv(fd, out))
      else AfterIn(s, fd, out)
    case Shutdown => At(s, Stopping(s.conns.Keys))
    case _ => s
  }

  function ScanMoves(s: State, m: LoopMove): State {
    match s.loop
    case Scan(todo, doomed) =>
      if todo == {} then At(s, ScanClose(doomed))
      else if m.Pick? && m.fd in todo then
        At(s, if Linked(s, m.fd) then ScanErr(m.fd, todo - {m.fd}, doomed) else Scan(todo - {m.fd}, doomed))
      else s
    case ScanErr(fd, todo, doomed) =>
      if !Linked(s, fd) then s
      else if LinkOf(s, fd).io.writeError then At(Decide(s, fd, Aborted), Scan(todo, doomed + {fd}))
      else At(s, ScanFin(fd, todo, doomed))
    case ScanFin(fd, todo, doomed) =>
      if !Linked(s, fd) then s
      else At(s, if IsFinished(LinkOf(s, fd).io) then ScanFinPend(fd, todo, doomed) else ScanPend(fd, todo, doomed))
    case ScanFinPend(fd, todo, doomed) =>
      if !Linked(s, fd) then s
      else if LinkOf(s, fd).io.pending then At(s, ScanPend(fd, todo, doomed))
      else At(Decide(s, fd, Orderly), Scan(todo, doomed + {fd}))
    case ScanPend(fd, todo, doomed) =>
      if !Linked(s, fd) then s
      else At(s, if LinkOf(s, fd).io.pending then ScanArm(fd, todo, doomed) else Scan(todo, doomed))
    case ScanArm(fd, todo, doomed) =>
      if fd !in s.conns then s
      else
        var ctx := s.conns[fd];
        At(SetCtx(s, fd, ctx.(events := Interest(!ctx.bodyComplete, true))), Scan(todo, doomed))
    case _ => s
  }

  /** close_conn and the erasure that follows it; the loop's map is not visible to workers. */
  function CloseMoves(s: State, fd: Fd, stage: nat, next: Then): State {
    if fd !in s.conns then s
    else if stage == 0 then
      At(SetCtx(s, fd, s.conns[fd].(events := Interest(false, false))), Closing(fd, 1, next))
    else if !Linked(s, fd) then
      s.(conns := s.conns - {fd}, loop := Resume(next))
    else if stage == 1 then
      At(SetLink(s, fd, LinkFeedError(LinkOf(s, fd))), Closing(fd, 2, next))
    else if stage == 2 then
      At(SetLink(s, fd, LinkWriteError(LinkOf(s, fd))), Closing(fd, 3, next))
    else
      var s' := SetLink(s, fd, LinkOf(s, fd).(owner := None));
      s'.(conns := s.conns - {fd}, loop := Resume(next))
  }

  function InMoves(s: State, m: LoopMove): State {
    match s.loop
    case InRecv(fd, out) =>
      if !m.Recv? || fd !in s.conns then s
      else (match m.what
            case Again => AfterIn(s, fd, out)
            case Broken => Close(s, fd, Aborted, ToWait)
            case Eof => ReceiveEof(s, fd, out)
            case Bytes(data) =>
              if 0 < |data| <= BUFFER_SIZE && m.id !in s.links
              then ReceiveBytes(s, fd, out, data, m.id, m.contentLength) else s)
    case InFeed(fd, data, received, out) =>
      if Linked(s, fd) then Feed(s, fd, data, received, out) else s
    case InEof(fd, out) =>
      if !Linked(s, fd) then s
      else
        var s' := SetLink(s, fd, LinkFed(LinkOf(s, fd), "", true));
        AfterIn(SetCtx(s', fd, WithoutIn(s.conns[fd])), fd, out)
    case _ => s
  }

  function OutMoves(s: State, m: LoopMove): State {
    match s.loop
    case OutView(fd) =>
      if !Linked(s, fd) then s
      else
        var view := PendingWriteData(LinkOf(s, fd).io);
        At(s, if view == "" then OutEmpty(fd) else OutSend(fd, view))
    case OutEmpty(fd) =>
      if !Linked(s, fd) then s
      else if IsFinished(LinkOf(s, fd).io) then Close(s, fd, Orderly, ToWait)
      else At(s, OutIdle(fd))
    case OutSend(fd, view) =>
      if !Linked(s, fd) then s
      else if m.Sent? && m.n <= |view| then
        var l := LinkOf(s, fd);
        At(SetLink(s, fd, l.(sent := l.sent + view[..m.n], inFlight := m.n)), OutAdvance(fd, view, m.n))
      else if m.SendFailed? then At(s, if m.again then AtWait else OutFail(fd))
      else s
    case OutFail(fd) =>
      if !Linked(s, fd) then s
      else Close(SetLink(s, fd, LinkWriteError(LinkOf(s, fd))), fd, Aborted, ToWait)
    case OutAdvance(fd, view, n) =>
      if !Linked(s, fd) then s
      else At(SetLink(s, fd, LinkAdvanced(LinkOf(s, fd), n)), OutPend(fd))
    case OutPend(fd) =>
      if !Linked(s, fd) then s
      else At(s, if LinkOf(s, fd).io.pending then AtWait else OutFin(fd))
    case OutFin(fd) =>
      if !Linked(s, fd) then s
      else if IsFinished(LinkOf(s, fd).io) then Close(s, fd, Orderly, ToWait)
      else At(s, OutIdle(fd))
    case OutIdle(fd) =>
      if fd !in s.conns then s
      else
        var ctx := s.conns[fd];
        At(SetCtx(s, fd, ctx.(events := Interest(!ctx.bodyComplete, false))), AtWait)
    case _ => s
  }

  // ----- Runs -----

  datatype Action = ByLoop(move: LoopMove) | ByWorker(id: Id, what: WorkerMove)

  function Step(s: State, action: Action): State {
    match action
    case ByLoop(m) => LoopMoves(s, m)
    case ByWorker(i, m) =>
      if i !in s.links || !Enabled(s.links[i], m) then s
      else
        var l := s.links[i];
        s.(links := s.links[i := WorkerMoves(l, m)],
           counter := if Signals(l, m) then Signalled(s.counter) else s.counter)
  }

  /** The state after any schedule. */
  function Run(schedule: seq<Action>): State {
    if schedule == [] then Init
    else Step(Run(schedule[..|schedule| - 1]), schedule[|schedule| - 1])
  }
}

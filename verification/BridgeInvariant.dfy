/**
 What every step of the event loop and of every worker keeps.

 The invariant has three layers: facts about one link (body delivery, response
 delivery), facts tying links to the connection map and to the loop's program
 counter, and the wake-up condition.
 */
module BridgeInvariant {
  import opened Common
  import opened ConnectionIo
  import opened Bridge

  // ----- One link -----

  function Delivered(calls: seq<Call>): string {
    if calls == [] then "" else Delivered(calls[..|calls| - 1]) + calls[|calls| - 1].data
  }

  /** The size the k-th call must have; only the prefix may differ. */
  function Due(calls: seq<Call>, k: nat, contentLength: nat): int
    requires k <= |calls|
  {
    var left := contentLength - |Delivered(calls[..k])|;
    if left < BODY_CHUNK_SIZE then left else BODY_CHUNK_SIZE
  }

  predicate CallsOk(l: Link)
    requires l.consumed <= |l.body|
  {
    && Delivered(l.calls) == l.body[..l.consumed]
    && (forall k :: 0 <= k < |l.calls| ==>
          (l.calls[k].endOfStream <==> k == |l.calls| - 1 && l.consumed >= l.io.contentLength))
    && (forall k :: 0 <= k < |l.calls| && (k > 0 || l.io.prefix == "") ==>
          |l.calls[k].data| == Due(l.calls, k, l.io.contentLength))
  }

  predicate BodyInv(l: Link) {
    && |l.io.prefix| <= l.consumed
    && l.consumed + l.discarded + |l.io.chunk| == l.io.fed <= l.io.contentLength
    && (l.discarded != 0 ==> l.worker.Failing? || l.worker.Erring? || l.worker.Done?)
    && l.io.fed <= |l.body|
    && l.io.prefix == l.body[..|l.io.prefix|]
    && l.io.chunk == l.body[l.consumed + l.discarded..l.io.fed]
    && (!l.bodyStarted ==> l.consumed == |l.io.prefix| && l.calls == [] && !l.worker.Reading?)
    && (l.bodyStarted ==> CallsOk(l))
    && (l.worker.Reading? ==>
          && l.consumed < l.io.contentLength
          && l.worker.want == Min(l.io.contentLength - l.consumed, BODY_CHUNK_SIZE)
          && (l.worker.asleep ==> !ReadReady(l.io, l.worker.want)))
    && l.worker != Failing(NoData)
  }

  predicate WriteInv(l: Link) {
    && (l.io.finished <==> l.worker.Done? || l.worker.Erring?)
    && (l.worker.Erring? ==> l.io.writeError)
    && (l.worker.Writing? ==> l.worker.data != "" && (l.worker.asleep ==> !WriteReady(l.io)))
    && (!l.dropped ==>
          && (l.io.pending <==> l.io.buffer != "")
          && (l.io.buffer == "" ==> l.io.cursor == 0 && l.inFlight == 0)
          && (l.io.buffer != "" ==> l.io.cursor < |l.io.buffer|)
          && l.io.cursor + l.inFlight <= |l.io.buffer|
          && l.produced == l.sent + l.io.buffer[l.io.cursor + l.inFlight..]
          && (l.io.writeError ==> l.io.finished))
    && (l.dropped ==> l.io.writeError && l.io.buffer == "" && l.sent <= l.produced)
    && (l.fate == Orderly ==> IsFinished(l.io) && l.sent == l.produced)
  }

  /** Nothing the worker waits for can come any more, and nothing it waits for is withheld. */
  predicate Released(l: Link) {
    l.io.readError && l.io.writeError
  }

  // ----- The map and the program counter -----

  predicate MapInv(s: State) {
    forall fd :: fd in s.conns && s.conns[fd].io.Some? ==>
      s.conns[fd].io.value in s.links && s.links[s.conns[fd].io.value].owner == Some(fd)
  }

  predicate OwnerInv(s: State) {
    forall i :: i in s.links ==>
      if s.links[i].owner.None? then Released(s.links[i])
      else s.links[i].owner.value in s.conns && s.conns[s.links[i].owner.value].io == Some(i)
  }

  predicate LinksInv(s: State) {
    forall i :: i in s.links ==>
      && BodyInv(s.links[i]) && WriteInv(s.links[i])
      && (s.links[i].inFlight != 0 ==> s.loop.OutAdvance? && s.links[i].owner == Some(s.loop.fd))
      && (s.links[i].dropped && s.links[i].owner.Some? ==>
            s.loop.Closing? && s.links[i].owner == Some(s.loop.fd))
  }

  predicate CtxInv(s: State) {
    forall fd :: fd in s.conns ==> CtxOk(s, fd, s.conns[fd])
  }

  predicate CtxOk(s: State, fd: Fd, ctx: Ctx) {
    if Linked(s, fd) then
      var l := LinkOf(s, fd);
      && ctx.stream == l.header + l.body
      && FindHeaderEnd(ctx.stream) == Some(|l.header|)
      && (!ctx.bodyComplete ==> l.io.fed == |l.body| < l.io.contentLength)
    else
      ctx.io.None? && ctx.stream == ctx.headerBuf && FindHeaderEnd(ctx.headerBuf) == None
  }

  predicate InScan(s: State, fd: Fd, todo: set<Fd>, doomed: set<Fd>) {
    Linked(s, fd) && fd !in todo && fd !in doomed && todo !! doomed && todo + doomed <= s.conns.Keys
  }

  predicate ThenOk(s: State, fd: Fd, next: Then) {
    match next
    case ToWait => true
    case ToScanClose(rest) => fd !in rest && rest <= s.conns.Keys
    case ToStopping(left) => fd !in left && s.conns.Keys == left + {fd}
  }

  predicate LoopInv(s: State) {
    match s.loop
    case AtWait => true
    case Scan(todo, doomed) => todo !! doomed && todo + doomed <= s.conns.Keys
    case ScanErr(fd, todo, doomed) => InScan(s, fd, todo, doomed)
    case ScanFin(fd, todo, doomed) => InScan(s, fd, todo, doomed)
    case ScanFinPend(fd, todo, doomed) => InScan(s, fd, todo, doomed) && IsFinished(LinkOf(s, fd).io)
    case ScanPend(fd, todo, doomed) => InScan(s, fd, todo, doomed)
    case ScanArm(fd, todo, doomed) => InScan(s, fd, todo, doomed)
    case ScanClose(doomed) => doomed <= s.conns.Keys
    case Closing(fd, stage, next) =>
      && fd in s.conns && ThenOk(s, fd, next)
      && (Linked(s, fd) ==>
            && (stage >= 2 ==> LinkOf(s, fd).io.readError)
            && (stage >= 3 ==> LinkOf(s, fd).io.writeError))
    case InRecv(fd, _) => fd in s.conns
    case InFeed(fd, data, received, _) =>
      && Linked(s, fd) && !s.conns[fd].bodyComplete && received == LinkOf(s, fd).io.fed
    case InEof(fd, _) => Linked(s, fd) && !s.conns[fd].bodyComplete
    case OutView(fd) => Linked(s, fd)
    case OutEmpty(fd) => Linked(s, fd)
    case OutSend(fd, view) => Linked(s, fd) && view != "" && view == PendingWriteData(LinkOf(s, fd).io)
    case OutFail(fd) => Linked(s, fd)
    case OutAdvance(fd, view, n) =>
      && Linked(s, fd) && view != "" && n <= |view|
      && view == PendingWriteData(LinkOf(s, fd).io)
      && LinkOf(s, fd).inFlight == n
    case OutPend(fd) => Linked(s, fd)
    case OutFin(fd) => Linked(s, fd)
    case OutIdle(fd) => Linked(s, fd)
    case Stopping(left) => left == s.conns.Keys
    case Stopped => s.conns == map[]
  }

  // ----- Wake-up -----

  /** The running scan has yet to look at fd's error flag. */
  predicate SeesError(loop: Loop, fd: Fd) {
    match loop
    case Scan(todo, _) => fd in todo
    case ScanErr(f, todo, _) => f == fd || fd in todo
    case ScanFin(_, todo, _) => fd in todo
    case ScanFinPend(_, todo, _) => fd in todo
    case ScanPend(_, todo, _) => fd in todo
    case ScanArm(_, todo, _) => fd in todo
    case _ => false
  }

  /** The running scan has yet to act on fd's finished flag. */
  predicate SeesFinished(loop: Loop, fd: Fd) {
    || SeesError(loop, fd)
    || ((loop.ScanFin? || loop.ScanFinPend?) && loop.fd == fd)
  }

  /** The running scan has yet to act on fd's pending flag. */
  predicate SeesPending(loop: Loop, fd: Fd) {
    || SeesFinished(loop, fd)
    || ((loop.ScanPend? || loop.ScanArm?) && loop.fd == fd)
  }

  /** The loop has decided to close fd and is on its way. */
  predicate TearingDown(loop: Loop, fd: Fd) {
    match loop
    case Scan(_, doomed) => fd in doomed
    case ScanErr(_, _, doomed) => fd in doomed
    case ScanFin(_, _, doomed) => fd in doomed
    case ScanFinPend(_, _, doomed) => fd in doomed
    case ScanPend(_, _, doomed) => fd in doomed
    case ScanArm(_, _, doomed) => fd in doomed
    case ScanClose(doomed) => fd in doomed
    case Closing(f, _, next) =>
      f == fd || (match next
                  case ToWait => false
                  case ToScanClose(rest) => fd in rest
                  case ToStopping(left) => fd in left)
    case OutFail(f) => f == fd
    case Stopping(left) => fd in left
    case _ => false
  }

  /** The loop is between send and the check that follows it on fd. */
  predicate Sending(loop: Loop, fd: Fd) {
    (loop.OutSend? || loop.OutAdvance? || loop.OutPend? || loop.OutFin?) && loop.fd == fd
  }

  /** The loop has seen nothing pending on fd and may stop watching it for output. */
  predicate Disarming(loop: Loop, fd: Fd) {
    (loop.OutEmpty? || loop.OutFin? || loop.OutIdle?) && loop.fd == fd
  }

  predicate WakeOk(counter: nat, loop: Loop, fd: Fd, out: bool, l: Link) {
    && (l.io.writeError ==>
          counter > 0 || l.worker.Erring? || SeesError(loop, fd) || TearingDown(loop, fd))
    && (l.io.pending && !l.io.writeError ==>
          counter > 0 || out || SeesPending(loop, fd) || TearingDown(loop, fd))
    && (IsFinished(l.io) && !l.io.writeError ==>
          counter > 0 || SeesFinished(loop, fd) || TearingDown(loop, fd)
          || ((loop.OutPend? || loop.OutFin?) && loop.fd == fd))
    && (Sending(loop, fd) ==> counter > 0 || out || l.worker.Erring?)
    && (Disarming(loop, fd) && l.io.pending && !l.io.writeError ==> counter > 0)
  }

  predicate WakeInv(s: State) {
    forall fd :: fd in s.conns && Linked(s, fd) ==>
      WakeOk(s.counter, s.loop, fd, s.conns[fd].events.out, LinkOf(s, fd))
  }

  predicate Inv(s: State) {
    MapInv(s) && OwnerInv(s) && LinksInv(s) && CtxInv(s) && LoopInv(s) && WakeInv(s)
  }

  // ----- Worker steps -----

  lemma DeliveredLast(calls: seq<Call>, c: Call)
    ensures Delivered(calls + [c]) == Delivered(calls) + c.data
  {
    assert (calls + [c])[..|calls|] == calls;
  }

  lemma DueExtends(calls: seq<Call>, c: Call, k: nat, contentLength: nat)
    requires k <= |calls|
    ensures Due(calls + [c], k, contentLength) == Due(calls, k, contentLength)
  {
    assert (calls + [c])[..k] == calls[..k];
  }

  lemma PrefixKeepsBody(l: Link)
    requires BodyInv(l) && l.worker == Running && !l.bodyStarted && l.io.contentLength > 0
    ensures BodyInv(PassedPrefix(l))
  {
    var calls := PassedPrefix(l).calls;
    if l.io.prefix != "" {
      DeliveredLast([], calls[0]);
      assert calls == [] + [calls[0]];
    }
  }

  /** A successful read returns exactly what was asked for, cut from the received body. */
  lemma ReadIsExact(l: Link)
    requires BodyInv(l) && l.worker.Reading? && ReadReady(l.io, l.worker.want)
    ensures var (io, data, status) := ReadBodyChunk(l.io, l.worker.want);
      && (status == Data || status == Complete ==> |data| == l.worker.want)
      && |data| <= |l.io.chunk|
      && data == l.body[l.consumed..l.consumed + |data|]
      && io == l.io.(chunk := l.body[l.consumed + |data|..l.io.fed])
  {
  }

  lemma CallsExtend(l: Link, c: Call)
    requires l.consumed <= |l.body| && CallsOk(l) && l.consumed < l.io.contentLength
    requires l.consumed + |c.data| <= l.io.contentLength && l.consumed + |c.data| <= |l.body|
    requires c.data == l.body[l.consumed..l.consumed + |c.data|]
    requires |c.data| == Min(l.io.contentLength - l.consumed, BODY_CHUNK_SIZE)
    requires c.endOfStream <==> l.consumed + |c.data| >= l.io.contentLength
    ensures CallsOk(l.(consumed := l.consumed + |c.data|, calls := l.calls + [c]))
  {
    DeliveredLast(l.calls, c);
    forall k | 0 <= k <= |l.calls|
      ensures Due(l.calls + [c], k, l.io.contentLength) == Due(l.calls, k, l.io.contentLength)
    {
      DueExtends(l.calls, c, k, l.io.contentLength);
    }
    assert l.calls[..|l.calls|] == l.calls;
  }

  lemma ReadKeepsBody(l: Link)
    requires BodyInv(l) && l.worker.Reading? && ReadReady(l.io, l.worker.want)
    ensures BodyInv(AfterRead(l, l.worker.want))
  {
    hide CallsOk;
    hide ReadBodyChunk;
    var (io, data, status) := ReadBodyChunk(l.io, l.worker.want);
    ReadIsExact(l);
    var l' := AfterRead(l, l.worker.want);
    if status == Data || status == Complete {
      var c := Call(data, l.consumed + |data| >= l.io.contentLength);
      CallsExtend(l, c);
      CallsFrame(l.(consumed := l.consumed + |data|, calls := l.calls + [c]), l');
    } else {
      CallsFrame(l, l');
    }
  }

  lemma CallsFrame(l: Link, l': Link)
    requires l.consumed <= |l.body| && CallsOk(l)
    requires l'.calls == l.calls && l'.consumed == l.consumed && l.body <= l'.body
    requires l'.io.contentLength == l.io.contentLength && l'.io.prefix == l.io.prefix
    ensures CallsOk(l')
  {
  }

  lemma SleepKeepsBody(l: Link)
    requires BodyInv(l) && l.worker.Reading? && !ReadReady(l.io, l.worker.want)
    ensures BodyInv(l.(worker := Reading(l.worker.want, true)))
  {
    hide CallsOk;
    CallsFrame(l, l.(worker := Reading(l.worker.want, true)));
  }

  /** Moves other than reads leave the body side alone. */
  lemma OtherMoveKeepsBody(l: Link, m: WorkerMove)
    requires Enabled(l, m) && BodyInv(l) && m != PassPrefix && m != TryRead
    ensures BodyInv(WorkerMoves(l, m))
  {
    hide CallsOk;
    hide ReadAttempt;
    var l' := WorkerMoves(l, m);
    if l.bodyStarted {
      CallsFrame(l, l');
    }
    assert l'.io.chunk == l.io.chunk && l'.discarded == l.discarded;
  }

  lemma WorkerKeepsBody(l: Link, m: WorkerMove)
    requires Enabled(l, m) && BodyInv(l)
    ensures BodyInv(WorkerMoves(l, m))
  {
    hide BodyInv;
    if m == PassPrefix {
      PrefixKeepsBody(l);
    } else if m == TryRead && ReadReady(l.io, l.worker.want) {
      ReadKeepsBody(l);
    } else if m == TryRead {
      SleepKeepsBody(l);
    } else {
      OtherMoveKeepsBody(l, m);
    }
  }

  predicate SameWriteSide(l: Link, l': Link) {
    && l'.io.buffer == l.io.buffer && l'.io.cursor == l.io.cursor && l'.io.pending == l.io.pending
    && l'.io.finished == l.io.finished && l'.io.writeError == l.io.writeError
    && l'.produced == l.produced && l'.sent == l.sent && l'.inFlight == l.inFlight
    && l'.dropped == l.dropped && l'.fate == l.fate && l'.owner == l.owner
  }

  lemma ReadLeavesWriteSide(l: Link, want: nat)
    ensures SameWriteSide(l, AfterRead(l, want))
    ensures AfterRead(l, want).worker == Running || AfterRead(l, want).worker.Failing?
  {
  }

  lemma AcceptedWriteKeepsWrite(l: Link)
    requires WriteInv(l) && l.worker.Writing? && !l.worker.asleep && l.io.buffer == "" && !l.io.writeError
    ensures WriteInv(WriteAttempt(l, l.worker.data))
  {
    assert l.produced == l.sent;
    assert WriteAttempt(l, l.worker.data).io.buffer[0..] == l.worker.data;
  }

  lemma DroppedWriteKeepsWrite(l: Link)
    requires WriteInv(l) && l.worker.Writing? && !l.worker.asleep && l.io.writeError
    ensures WriteInv(WriteAttempt(l, l.worker.data))
  {
    assert l.dropped;
    assert WriteAttempt(l, l.worker.data).produced == l.produced + l.worker.data;
  }

  lemma BlockedWriteKeepsWrite(l: Link)
    requires WriteInv(l) && l.worker.Writing? && !l.worker.asleep && !WriteReady(l.io)
    ensures WriteInv(WriteAttempt(l, l.worker.data))
  {
  }

  lemma OtherMoveKeepsWrite(l: Link, m: WorkerMove)
    requires Enabled(l, m) && WriteInv(l) && m != TryRead && m != TryWrite
    ensures WriteInv(WorkerMoves(l, m))
  {
    hide WriteAttempt;
    hide ReadAttempt;
  }

  lemma ReadAttemptKeepsWrite(l: Link, want: nat)
    requires WriteInv(l) && l.worker == Reading(want, false)
    ensures WriteInv(ReadAttempt(l, want))
  {
    hide AfterRead;
    ReadLeavesWriteSide(l, want);
  }

  lemma WorkerKeepsWrite(l: Link, m: WorkerMove)
    requires Enabled(l, m) && WriteInv(l)
    ensures WriteInv(WorkerMoves(l, m))
  {
    hide WriteInv;
    if m == TryRead {
      ReadAttemptKeepsWrite(l, l.worker.want);
    } else if m == TryWrite {
      if !WriteReady(l.io) {
        BlockedWriteKeepsWrite(l);
      } else if l.io.writeError {
        DroppedWriteKeepsWrite(l);
      } else {
        AcceptedWriteKeepsWrite(l);
      }
    } else {
      OtherMoveKeepsWrite(l, m);
    }
  }
}

/** What holds in every state of every schedule of the event loop and its workers. */
module BridgeTheorems {
  import opened Common
  import opened ConnectionIo
  import opened Bridge
  import opened BridgeInvariant
  import opened BridgeSteps
  import opened BridgeWork

  // ----- Wake-up -----

  /**
   No lost wake-up.  Whatever a worker has left for the loop on a mapped
   connection, the loop is bound to look at it: the eventfd is readable, or the
   running scan has yet to get there, or the loop is already closing the
   connection, or (for an error) the worker is about to write the eventfd, or (for
   pending data) EPOLLOUT is registered, or the loop is between advanceWrite and
   the check that follows it, where EPOLLOUT is registered or the eventfd readable.
   */
  lemma NoLostWakeup(schedule: seq<Action>, fd: Fd)
    requires Linked(Run(schedule), fd)
    ensures var s := Run(schedule); var io := LinkOf(s, fd).io; var out := s.conns[fd].events.out;
      && (io.writeError ==>
            s.counter > 0 || LinkOf(s, fd).worker == Erring || SeesError(s.loop, fd) || TearingDown(s.loop, fd))
      && (io.pending && !io.writeError ==>
            s.counter > 0 || out || SeesPending(s.loop, fd) || TearingDown(s.loop, fd))
      && (IsFinished(io) && !io.writeError ==>
            || s.counter > 0 || SeesFinished(s.loop, fd) || TearingDown(s.loop, fd)
            || ((s.loop == OutPend(fd) || s.loop == OutFin(fd)) && out))
  {
    RunKeepsInv(schedule);
    var s := Run(schedule);
    AtFd(s, fd);
    assert LocalLinkOk(s, fd);
    ErringHasRaised(LinkOf(s, fd));
  }

  lemma ErringHasRaised(l: Link)
    requires WriteInv(l)
    ensures l.worker == Erring ==> l.io.writeError
  {
  }

  /**
   When the loop waits and the eventfd is silent, no mapped connection is failed or
   drained-and-finished, and each one with data pending is watched for output.
   */
  lemma SilenceMeansServed(schedule: seq<Action>, fd: Fd)
    requires Linked(Run(schedule), fd)
    requires Run(schedule).loop == AtWait && Run(schedule).counter == 0
    requires LinkOf(Run(schedule), fd).worker != Erring
    ensures var io := LinkOf(Run(schedule), fd).io;
      && !io.writeError && !IsFinished(io)
      && (io.buffer != "" ==> Run(schedule).conns[fd].events.out)
  {
    NoLostWakeup(schedule, fd);
    RunKeepsInv(schedule);
    AtFd(Run(schedule), fd);
  }

  /** A worker asleep in writeData under a silent, waiting loop is waiting for EPOLLOUT. */
  lemma BlockedWriterIsWatched(schedule: seq<Action>, fd: Fd)
    requires Linked(Run(schedule), fd)
    requires Run(schedule).loop == AtWait && Run(schedule).counter == 0
    requires LinkOf(Run(schedule), fd).worker.Writing? && LinkOf(Run(schedule), fd).worker.asleep
    ensures Run(schedule).conns[fd].events.out
  {
    SilenceMeansServed(schedule, fd);
    RunKeepsInv(schedule);
  }

  /** No notification is lost on the condition variables: a sleeper's wait predicate is false. */
  lemma SleepersHaveReason(schedule: seq<Action>, i: Id)
    requires i in Run(schedule).links
    ensures var l := Run(schedule).links[i];
      && (l.worker.Reading? && l.worker.asleep ==> !ReadReady(l.io, l.worker.want))
      && (l.worker.Writing? && l.worker.asleep ==> !WriteReady(l.io))
  {
    RunKeepsInv(schedule);
  }

  // ----- Response delivery -----

  /**
   Ordered, exactly-once delivery: what the kernel took is a prefix of all that was
   handed to writeData, and a connection closed in good order was sent all of it.
   */
  lemma DeliveredInOrder(schedule: seq<Action>, i: Id)
    requires i in Run(schedule).links
    ensures var l := Run(schedule).links[i];
      l.sent <= l.produced && (l.fate == Orderly ==> l.sent == l.produced && l.io.finished)
  {
    RunKeepsInv(schedule);
  }

  /** Until an error drops it, every byte is either taken by the kernel or still queued. */
  lemma NothingIsLost(schedule: seq<Action>, fd: Fd)
    requires Linked(Run(schedule), fd)
    requires Run(schedule).loop.Closing? || Run(schedule).loop.OutAdvance? ==> Run(schedule).loop.fd != fd
    ensures var l := LinkOf(Run(schedule), fd);
      l.produced == l.sent + PendingWriteData(l.io)
  {
    RunKeepsInv(schedule);
    AtFd(Run(schedule), fd);
    QueuedOrSent(LinkOf(Run(schedule), fd));
  }

  lemma QueuedOrSent(l: Link)
    requires WriteInv(l) && !l.dropped && l.inFlight == 0
    ensures l.produced == l.sent + PendingWriteData(l.io)
  {
  }

  predicate AllByWorkers(actions: seq<Action>) {
    forall k :: 0 <= k < |actions| ==> actions[k].ByWorker?
  }

  /**
   View stability: between pendingWriteData and the matching advanceWrite, no
   sequence of worker steps changes the buffer or the cursor under the view.
   */
  lemma {:induction false} ViewIsStable(schedule: seq<Action>, byWorkers: seq<Action>, fd: Fd)
    requires AllByWorkers(byWorkers)
    requires Run(schedule).loop.OutSend? || Run(schedule).loop.OutAdvance?
    requires Run(schedule).loop.fd == fd
    ensures Linked(Run(schedule), fd) && Linked(Run(schedule + byWorkers), fd)
    ensures Run(schedule + byWorkers).loop == Run(schedule).loop
    ensures LinkOf(Run(schedule + byWorkers), fd).io.buffer == LinkOf(Run(schedule), fd).io.buffer
    ensures LinkOf(Run(schedule + byWorkers), fd).io.cursor == LinkOf(Run(schedule), fd).io.cursor
    ensures Run(schedule).loop.view == PendingWriteData(LinkOf(Run(schedule + byWorkers), fd).io)
  {
    RunKeepsInv(schedule + byWorkers);
    RunKeepsInv(schedule);
    hide MapInv, OwnerInv, LinksInv, CtxInv, WakeInv, Step;
    if byWorkers == [] {
      assert schedule + byWorkers == schedule;
    } else {
      var n := |byWorkers| - 1;
      var sofar := schedule + byWorkers[..n];
      ViewIsStable(schedule, byWorkers[..n], fd);
      RunKeepsInv(sofar);
      assert (schedule + byWorkers)[..|schedule + byWorkers| - 1] == sofar;
      OneWorkerStep(Run(sofar), byWorkers[n], fd);
    }
  }

  lemma OneWorkerStep(s: State, a: Action, fd: Fd)
    requires Inv(s) && a.ByWorker? && Linked(s, fd) && PendingWriteData(LinkOf(s, fd).io) != ""
    ensures Step(s, a).loop == s.loop && Linked(Step(s, a), fd)
    ensures LinkOf(Step(s, a), fd).io.buffer == LinkOf(s, fd).io.buffer
    ensures LinkOf(Step(s, a), fd).io.cursor == LinkOf(s, fd).io.cursor
  {
    if a.id in s.links && Enabled(s.links[a.id], a.what) {
      assert WriteInv(s.links[a.id]);
      WorkerUndisturbed(s.links[a.id], a.what);
      hide WorkerMoves, Enabled, Inv, WriteInv;
    }
  }

  // ----- Body delivery -----

  /** Conservation: every byte fed was consumed, is still buffered, or went with a failed read. */
  lemma BodyIsConserved(schedule: seq<Action>, i: Id)
    requires i in Run(schedule).links
    ensures var l := Run(schedule).links[i];
      && l.consumed + l.discarded + |l.io.chunk| == l.io.fed <= l.io.contentLength
      && (l.worker.Queued? || l.worker.Running? || l.worker.Reading? || l.worker.Writing? ==> l.discarded == 0)
      && l.io.fed <= |l.body| && l.io.chunk == l.body[l.consumed + l.discarded..l.io.fed]
  {
    RunKeepsInv(schedule);
  }

  /** Without the bytes of failed reads: consumed and buffered are all that was fed. */
  predicate Balanced(l: Link) {
    l.consumed + |l.io.chunk| == l.io.fed
  }

  /** The read takes the last buffered bytes of a body that has ended too soon. */
  predicate DropsBytes(io: Io, want: nat) {
    0 < |io.chunk| <= want && !BodyComplete(io) && (io.readError || io.eof)
  }

  /** The action is such a read by worker i. */
  predicate LosingRead(s: State, a: Action, i: Id) {
    && a == ByWorker(i, TryRead) && i in s.links && Enabled(s.links[i], TryRead)
    && ReadReady(s.links[i].io, s.links[i].worker.want) && DropsBytes(s.links[i].io, s.links[i].worker.want)
  }

  /** Some step of the schedule was such a read. */
  predicate HasLost(schedule: seq<Action>, i: Id) {
    schedule != [] &&
    var before, a := schedule[..|schedule| - 1], schedule[|schedule| - 1];
    HasLost(before, i) || LosingRead(Run(before), a, i)
  }

  lemma ReadDiscards(l: Link, want: nat)
    requires l.discarded == 0 && ReadReady(l.io, want)
    ensures AfterRead(l, want).discarded > 0 <==> DropsBytes(l.io, want)
  {
  }

  lemma WorkerDiscards(l: Link, m: WorkerMove)
    requires Enabled(l, m) && BodyInv(l)
    ensures WorkerMoves(l, m).discarded > 0 <==>
            l.discarded > 0
            || (m.TryRead? && ReadReady(l.io, l.worker.want) && DropsBytes(l.io, l.worker.want))
  {
    hide AfterRead, ReadReady, DropsBytes, CallsOk;
    if m.TryRead? && ReadReady(l.io, l.worker.want) {
      ReadDiscards(l, l.worker.want);
    }
  }

  lemma StepDiscards(s: State, a: Action, i: Id)
    requires Inv(s) && i in Step(s, a).links
    ensures Step(s, a).links[i].discarded > 0 <==>
            (i in s.links && s.links[i].discarded > 0) || LosingRead(s, a, i)
  {
    hide WorkerMoves, LoopMoves, MapInv, OwnerInv, CtxInv, LoopInv, WakeInv, BodyInv, WriteInv, ReadReady, DropsBytes;
    match a
    case ByWorker(j, m) =>
      if j == i && i in s.links && Enabled(s.links[i], m) {
        WorkerDiscards(s.links[i], m);
      }
    case ByLoop(m) => LoopKeepsWork(s, m);
  }

  /** Consumed and buffered bytes are all that was fed exactly if no read has ended so. */
  lemma {:induction false} BalancedIff(schedule: seq<Action>, i: Id)
    requires i in Run(schedule).links
    ensures Balanced(Run(schedule).links[i]) <==> !HasLost(schedule, i)
  {
    LostIff(schedule, i);
    RunKeepsInv(schedule);
    hide Run, HasLost;
    BalancedMeans(Run(schedule), i);
  }

  lemma BalancedMeans(s: State, i: Id)
    requires Inv(s) && i in s.links
    ensures Balanced(s.links[i]) <==> s.links[i].discarded == 0
  {
    assert BodyInv(s.links[i]);
  }

  lemma {:induction false} LostIff(schedule: seq<Action>, i: Id)
    ensures HasLost(schedule, i) <==> i in Run(schedule).links && Run(schedule).links[i].discarded > 0
  {
    if schedule != [] {
      var before, a := schedule[..|schedule| - 1], schedule[|schedule| - 1];
      LostIff(before, i);
      RunKeepsInv(before);
      var s := Run(before);
      assert Run(schedule) == Step(s, a);
      hide Run, Inv, LoopMoves, WorkerMoves, LosingRead;
      StepKeepsLinks(s, a, i);
      if i in Step(s, a).links {
        StepDiscards(s, a, i);
      } else {
        NoLosingRead(s, a, i);
      }
    }
  }

  lemma StepKeepsLinks(s: State, a: Action, i: Id)
    ensures i in s.links ==> i in Step(s, a).links
  {
    hide LoopMoves, WorkerMoves;
    if a.ByLoop? {
      LoopKeepsWork(s, a.move);
    }
  }

  lemma NoLosingRead(s: State, a: Action, i: Id)
    requires i !in s.links
    ensures !LosingRead(s, a, i)
  {
  }

  const HEADER := "\r\n\r\n"
  const READABLE: Action := ByLoop(Event(5, false, true, false))

  /** A request that announces ten bytes of body. */
  const ASKED: seq<Action> := [ByLoop(Accept(5)), READABLE, ByLoop(Recv(Bytes(HEADER), 0, 10))]

  /** Its worker begins to read; three bytes arrive, and the end of the stream; the worker reads. */
  const STARTED: seq<Action> := ASKED + [ByWorker(0, Start), ByWorker(0, PassPrefix), ByWorker(0, BeginRead)]
  const FED: seq<Action> := STARTED + [READABLE, ByLoop(Recv(Bytes("abc"), 1, 0)), ByLoop(Go)]
  const ENDED: seq<Action> := FED + [READABLE, ByLoop(Recv(Eof, 1, 0)), ByLoop(Go)]
  const SHORT_BODY: seq<Action> := ENDED + [ByWorker(0, TryRead)]

  /** The connection of SHORT_BODY with this much of its body received. */
  predicate Short(s: State, worker: Worker, body: string, eof: bool) {
    && s.loop == AtWait && 0 in s.links && 1 !in s.links
    && 5 in s.conns && s.conns[5].io == Some(0) && (!eof ==> !s.conns[5].bodyComplete)
    && var l := s.links[0];
    && l.worker == worker && l.bodyStarted && l.consumed == 0 && l.discarded == 0 && l.body == body
    && l.io.contentLength == 10 && l.io.chunk == body && l.io.fed == |body| && l.io.eof == eof && !l.io.readError
  }

  lemma RunOne(schedule: seq<Action>, a: Action)
    ensures Run(schedule + [a]) == Step(Run(schedule), a)
  {
    assert (schedule + [a])[..|schedule|] == schedule;
    hide Step;
  }

  lemma RunThree(schedule: seq<Action>, a: Action, b: Action, c: Action)
    ensures Run(schedule + [a, b, c]) == Step(Step(Step(Run(schedule), a), b), c)
  {
    hide Step, Run;
    assert schedule + [a, b, c] == schedule + [a] + [b] + [c];
    RunOne(schedule, a);
    RunOne(schedule + [a], b);
    RunOne(schedule + [a] + [b], c);
  }

  lemma HeaderIsDispatched(s: State)
    requires s == Init
    ensures var s' := Step(Step(Step(s, ASKED[0]), ASKED[1]), ASKED[2]);
      && s'.loop == AtWait && s'.links == map[0 := NewLink(HEADER, "", 10, 5)]
      && 5 in s'.conns && s'.conns[5].io == Some(0) && !s'.conns[5].bodyComplete
  {
    assert "" + HEADER == HEADER && HEADER[0..4] == HEADER && HEADER[..4] == HEADER && HEADER[4..] == "";
    assert FindHeaderEnd(HEADER) == Some(4);
    hide FindHeaderEnd;
  }

  lemma BodyIsAsked(s: State)
    requires s.loop == AtWait && s.links == map[0 := NewLink(HEADER, "", 10, 5)]
    requires 5 in s.conns && s.conns[5].io == Some(0) && !s.conns[5].bodyComplete
    ensures Short(Step(Step(Step(s, ByWorker(0, Start)), ByWorker(0, PassPrefix)), ByWorker(0, BeginRead)),
                  Reading(10, false), "", false)
  {
    hide LoopMoves;
  }

  lemma BodyIsFed(s: State)
    requires Short(s, Reading(10, false), "", false)
    ensures Short(Step(Step(Step(s, READABLE), ByLoop(Recv(Bytes("abc"), 1, 0))), ByLoop(Go)),
                  Reading(10, false), "abc", false)
  {
    hide FindHeaderEnd, WorkerMoves, ScanMoves, OutMoves, CloseMoves;
  }

  lemma BodyIsEnded(s: State)
    requires Short(s, Reading(10, false), "abc", false)
    ensures Short(Step(Step(Step(s, READABLE), ByLoop(Recv(Eof, 1, 0))), ByLoop(Go)),
                  Reading(10, false), "abc", true)
  {
    hide FindHeaderEnd, WorkerMoves, ScanMoves, OutMoves, CloseMoves;
    assert "abc" + "" == "abc";
  }

  lemma BytesAreLost(s: State)
    requires Short(s, Reading(10, false), "abc", true)
    ensures var s' := Step(s, ByWorker(0, TryRead));
      0 in s'.links && s'.links[0].io.fed == 3 && s'.links[0].discarded == 3 && !Balanced(s'.links[0])
  {
    hide LoopMoves;
  }

  /** There the equation fails: three bytes were fed, and none is consumed or buffered. */
  lemma ShortBodyIsLost()
    ensures var s := Run(SHORT_BODY);
      0 in s.links && s.links[0].io.fed == 3 && s.links[0].discarded == 3 && !Balanced(s.links[0])
  {
    hide Step, Run, Short, Balanced;
    RunThree([], ASKED[0], ASKED[1], ASKED[2]);
    assert [] + [ASKED[0], ASKED[1], ASKED[2]] == ASKED;
    RunNone();
    HeaderIsDispatched(Run([]));
    RunThree(ASKED, ByWorker(0, Start), ByWorker(0, PassPrefix), ByWorker(0, BeginRead));
    BodyIsAsked(Run(ASKED));
    RunThree(STARTED, READABLE, ByLoop(Recv(Bytes("abc"), 1, 0)), ByLoop(Go));
    BodyIsFed(Run(STARTED));
    RunThree(FED, READABLE, ByLoop(Recv(Eof, 1, 0)), ByLoop(Go));
    BodyIsEnded(Run(FED));
    RunOne(ENDED, ByWorker(0, TryRead));
    BytesAreLost(Run(ENDED));
  }

  lemma RunNone()
    ensures Run([]) == Init
  {
  }

  /**
   The onRequestBody calls carry consecutive slices of the received body from its
   first byte; every call after the prefix has exactly min(remaining,
   BODY_CHUNK_SIZE) bytes; end-of-stream is true on the call that completes
   Content-Length bytes and on no other.
   */
  lemma BodyCallsAreExact(schedule: seq<Action>, i: Id)
    requires i in Run(schedule).links && Run(schedule).links[i].bodyStarted
    ensures var l := Run(schedule).links[i];
      && l.consumed <= |l.body| && CallsOk(l)
  {
    RunKeepsInv(schedule);
  }

  /** The body loop ends with the first Content-Length bytes passed on, the last call marked. */
  lemma BodyEndsComplete(schedule: seq<Action>, i: Id)
    requires i in Run(schedule).links
    requires var l := Run(schedule).links[i];
      l.bodyStarted && l.io.contentLength > 0 && l.consumed == l.io.contentLength
    ensures var l := Run(schedule).links[i];
      && |l.body| >= l.io.contentLength
      && Delivered(l.calls) == l.body[..l.io.contentLength]
      && |l.calls| > 0 && l.calls[|l.calls| - 1].endOfStream
  {
    RunKeepsInv(schedule);
  }

  /** The branch "no data before completion" is never taken. */
  lemma NoEmptyRead(schedule: seq<Action>, i: Id)
    requires i in Run(schedule).links
    ensures Run(schedule).links[i].worker != Failing(NoData)
  {
    RunKeepsInv(schedule);
  }

  /** A blank line ends at position k. */
  predicate BlankLine(s: string, k: nat) {
    4 <= k <= |s| && s[k - 4..k] == "\r\n\r\n"
  }

  predicate FirstBlankLine(s: string, k: nat) {
    BlankLine(s, k) && forall j :: 0 <= j < k ==> !BlankLine(s, j)
  }

  predicate NoBlankLine(s: string) {
    forall j :: 0 <= j <= |s| ==> !BlankLine(s, j)
  }

  lemma {:induction false} FindIsFirst(s: string, from: nat)
    ensures var r := FindHeaderEnd(s, from);
      && (r.Some? ==> BlankLine(s, r.value) && forall j :: from + 4 <= j < r.value ==> !BlankLine(s, j))
      && (r.None? ==> forall j :: from + 4 <= j <= |s| ==> !BlankLine(s, j))
    decreases |s| - from
  {
    if from + 4 <= |s| && s[from..from + 4] != "\r\n\r\n" {
      FindIsFirst(s, from + 1);
    }
  }

  /** However the stream was fragmented, it is cut at its first blank line. */
  lemma SplitAtFirstBlankLine(schedule: seq<Action>, fd: Fd)
    requires Linked(Run(schedule), fd)
    ensures var s := Run(schedule); var l := LinkOf(s, fd);
      && s.conns[fd].stream == l.header + l.body
      && FirstBlankLine(s.conns[fd].stream, |l.header|)
  {
    RunKeepsInv(schedule);
    AtFd(Run(schedule), fd);
    FindIsFirst(Run(schedule).conns[fd].stream, 0);
  }

  // ----- Shutdown -----

  /** Every dispatched connection is in the map or has both error flags set. */
  lemma MappedOrReleased(schedule: seq<Action>, i: Id)
    requires i in Run(schedule).links
    ensures var s := Run(schedule);
      || (exists fd :: Linked(s, fd) && s.conns[fd].io == Some(i))
      || (s.links[i].io.readError && s.links[i].io.writeError)
  {
    RunKeepsInv(schedule);
    var s := Run(schedule);
    if s.links[i].owner.Some? {
      assert Linked(s, s.links[i].owner.value);
    }
  }

  /** Once the loop has stopped, no worker sleeps and every wait predicate is true. */
  lemma StoppedReleasesAll(schedule: seq<Action>, i: Id)
    requires i in Run(schedule).links && Run(schedule).loop == Stopped
    ensures var l := Run(schedule).links[i];
      && WriteReady(l.io) && (forall want :: ReadReady(l.io, want))
      && !(l.worker.Reading? && l.worker.asleep) && !(l.worker.Writing? && l.worker.asleep)
  {
    RunKeepsInv(schedule);
    SleepersHaveReason(schedule, i);
    hide Run, Inv;
    StoppedOwnsNothing(Run(schedule), i);
  }

  lemma StoppedOwnsNothing(s: State, i: Id)
    requires Inv(s) && i in s.links && s.loop == Stopped
    ensures Released(s.links[i])
  {
    hide LinksInv, CtxInv, WakeInv;
  }
}

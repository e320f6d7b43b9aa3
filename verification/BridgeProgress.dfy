/**
 What the loop and the workers get done: moves that bring a reachable state forward, so that
 what BridgeTheorems promises of every state is not promised of a server that stands still.
 */
module BridgeProgress {
  import opened Common
  import opened ConnectionIo
  import opened Bridge
  import opened BridgeInvariant
  import opened BridgeSteps
  import opened BridgeTheorems

  // ----- Running on -----

  function Loops(moves: seq<LoopMove>): (actions: seq<Action>)
    ensures |actions| == |moves|
  {
    seq(|moves|, k requires 0 <= k < |moves| => ByLoop(moves[k]))
  }

  function After(s: State, moves: seq<LoopMove>): State {
    if moves == [] then s else LoopMoves(After(s, moves[..|moves| - 1]), moves[|moves| - 1])
  }

  lemma LoopsLast(moves: seq<LoopMove>)
    requires moves != []
    ensures Loops(moves) == Loops(moves[..|moves| - 1]) + [ByLoop(moves[|moves| - 1])]
  {
  }

  lemma {:induction false} RunOn(schedule: seq<Action>, moves: seq<LoopMove>)
    ensures Run(schedule + Loops(moves)) == After(Run(schedule), moves)
  {
    hide LoopMoves;
    if moves == [] {
      assert schedule + Loops(moves) == schedule;
    } else {
      var n := |moves| - 1;
      RunOn(schedule, moves[..n]);
      LoopsLast(moves);
      hide Loops;
      assert schedule + Loops(moves) == schedule + Loops(moves[..n]) + [ByLoop(moves[n])];
      RunOne(schedule + Loops(moves[..n]), ByLoop(moves[n]));
      hide Run;
    }
  }

  lemma {:induction false} AfterBoth(s: State, x: seq<LoopMove>, y: seq<LoopMove>)
    ensures After(s, x + y) == After(After(s, x), y)
  {
    hide LoopMoves;
    if y == [] {
      assert x + y == x;
    } else {
      var n := |y| - 1;
      AfterBoth(s, x, y[..n]);
      assert (x + y)[..|x| + n] == x + y[..n];
    }
  }

  lemma AfterOne(s: State, a: LoopMove)
    ensures After(s, [a]) == LoopMoves(s, a)
  {
    hide LoopMoves;
    assert [a][..0] == [];
    assert After(s, []) == s;
  }

  lemma AfterTwo(s: State, a: LoopMove, b: LoopMove)
    ensures After(s, [a, b]) == LoopMoves(LoopMoves(s, a), b)
  {
    hide LoopMoves;
    assert [a, b][..1] == [a] && [a][..0] == [];
    assert After(s, [a]) == LoopMoves(After(s, []), a);
  }

  // ----- Output -----

  /** EPOLLOUT is reported for fd; the kernel takes n bytes. */
  function Sends(fd: Fd, n: nat): seq<LoopMove> {
    [Event(fd, false, false, true), Go] + [Sent(n), Go]
  }

  /** The loop looks at what is left behind that. */
  const CHECKS: seq<LoopMove> := [Go, Go]
  const CLOSES: seq<LoopMove> := [Go, Go] + [Go, Go]

  lemma ViewOf(s: State, fd: Fd)
    requires s.loop == AtWait && Linked(s, fd) && PendingWriteData(LinkOf(s, fd).io) != ""
    ensures After(s, [Event(fd, false, false, true), Go])
            == At(s, OutSend(fd, PendingWriteData(LinkOf(s, fd).io)))
  {
    AfterTwo(s, Event(fd, false, false, true), Go);
    hide After, ScanMoves, InMoves, CloseMoves;
  }

  lemma SetTwice(s: State, fd: Fd, l: Link, l': Link)
    requires Linked(s, fd)
    ensures var s' := SetLink(s, fd, l);
      Linked(s', fd) && LinkOf(s', fd) == l && SetLink(s', fd, l') == SetLink(s, fd, l')
  {
  }

  lemma SentOf(s: State, fd: Fd, view: string, n: nat)
    requires s.loop == OutSend(fd, view) && Linked(s, fd) && n <= |view|
    ensures var l := LinkOf(s, fd);
      After(s, [Sent(n), Go])
      == At(SetLink(s, fd, LinkAdvanced(l.(sent := l.sent + view[..n], inFlight := n), n)), OutPend(fd))
  {
    AfterTwo(s, Sent(n), Go);
    hide After, ScanMoves, InMoves, CloseMoves, WaitMoves, LinkAdvanced;
    var l := LinkOf(s, fd);
    var l1 := l.(sent := l.sent + view[..n], inFlight := n);
    SetTwice(s, fd, l1, LinkAdvanced(l1, n));
    var s1 := SetLink(s, fd, l1);
    assert LoopMoves(s, Sent(n)) == At(s1, OutAdvance(fd, view, n));
    hide SetLink;
    AdvancedOf(s1, fd, view, n);
  }

  lemma AdvancedOf(s: State, fd: Fd, view: string, n: nat)
    requires Linked(s, fd)
    ensures LoopMoves(At(s, OutAdvance(fd, view, n)), Go)
            == At(SetLink(s, fd, LinkAdvanced(LinkOf(s, fd), n)), OutPend(fd))
  {
    hide ScanMoves, InMoves, CloseMoves, WaitMoves, LinkAdvanced;
  }

  /**
   What EPOLLOUT is for: of any connection with unsent bytes, an event sends the next n of
   them, as many as the kernel takes, and forgets nothing behind them.
   */
  lemma OutputIsSent(schedule: seq<Action>, fd: Fd, n: nat)
    requires Run(schedule).loop == AtWait && Linked(Run(schedule), fd)
    requires var l := LinkOf(Run(schedule), fd); |l.sent| < |l.produced| && |l.sent| + n <= |l.produced|
    ensures var l := LinkOf(Run(schedule), fd); var s' := Run(schedule + Loops(Sends(fd, n)));
      && Linked(s', fd) && s'.conns == Run(schedule).conns && s'.loop == OutPend(fd)
      && LinkOf(s', fd).sent == l.produced[..|l.sent| + n] && LinkOf(s', fd).produced == l.produced
  {
    var s := Run(schedule);
    var l := LinkOf(s, fd);
    NothingIsLost(schedule, fd);
    RunOn(schedule, Sends(fd, n));
    hide Run;
    var view := PendingWriteData(l.io);
    assert l.produced[..|l.sent| + n] == l.sent + view[..n];
    AfterBoth(s, [Event(fd, false, false, true), Go], [Sent(n), Go]);
    hide After, PendingWriteData;
    ViewOf(s, fd);
    SentOf(At(s, OutSend(fd, view)), fd, view, n);
  }

  /** While something is left, the loop goes back to waiting. */
  lemma OutputGoesOn(schedule: seq<Action>, fd: Fd, n: nat)
    requires Run(schedule).loop == AtWait && Linked(Run(schedule), fd)
    requires var l := LinkOf(Run(schedule), fd); |l.sent| + n < |l.produced|
    ensures var l := LinkOf(Run(schedule), fd); var s' := Run(schedule + Loops(Round(fd, n)));
      && s'.loop == AtWait && s'.conns == Run(schedule).conns && Linked(s', fd)
      && LinkOf(s', fd).sent == l.produced[..|l.sent| + n] && LinkOf(s', fd).produced == l.produced
  {
    var sent := schedule + Loops(Sends(fd, n));
    OutputIsSent(schedule, fd, n);
    StillPending(sent, fd);
    LoopsBoth(Sends(fd, n), [Go]);
    assert schedule + Loops(Round(fd, n)) == sent + Loops([Go]);
    RunOn(sent, [Go]);
    AfterOne(Run(sent), Go);
    hide Run, After, Sends, Loops;
    PendingWaits(Run(sent), fd);
  }

  lemma StillPending(schedule: seq<Action>, fd: Fd)
    requires Run(schedule).loop == OutPend(fd) && Linked(Run(schedule), fd)
    requires LinkOf(Run(schedule), fd).sent != LinkOf(Run(schedule), fd).produced
    ensures LinkOf(Run(schedule), fd).io.pending
  {
    RunKeepsInv(schedule);
    AtFd(Run(schedule), fd);
    hide Run, Inv, CtxOk, BodyInv;
    UnsentIsPending(LinkOf(Run(schedule), fd));
  }

  lemma UnsentIsPending(l: Link)
    requires WriteInv(l) && !l.dropped && l.sent != l.produced
    ensures l.io.pending
  {
  }

  lemma PendingWaits(s: State, fd: Fd)
    requires s.loop == OutPend(fd) && Linked(s, fd) && LinkOf(s, fd).io.pending
    ensures LoopMoves(s, Go) == At(s, AtWait)
  {
    hide ScanMoves, InMoves, CloseMoves, WaitMoves;
  }

  function Round(fd: Fd, n: nat): seq<LoopMove> {
    Sends(fd, n) + [Go]
  }

  function Rounds(fd: Fd, sizes: seq<nat>): seq<LoopMove> {
    if sizes == [] then [] else Rounds(fd, sizes[..|sizes| - 1]) + Round(fd, sizes[|sizes| - 1])
  }

  function Sum(sizes: seq<nat>): nat {
    if sizes == [] then 0 else Sum(sizes[..|sizes| - 1]) + sizes[|sizes| - 1]
  }

  /** However short the sends are, one event after the other brings the output forward. */
  lemma {:induction false} RoundsAreSent(schedule: seq<Action>, fd: Fd, sizes: seq<nat>)
    requires Run(schedule).loop == AtWait && Linked(Run(schedule), fd)
    requires var l := LinkOf(Run(schedule), fd); |l.sent| + Sum(sizes) < |l.produced| && l.sent <= l.produced
    ensures var l := LinkOf(Run(schedule), fd); var s' := Run(schedule + Loops(Rounds(fd, sizes)));
      && s'.loop == AtWait && s'.conns == Run(schedule).conns && Linked(s', fd)
      && LinkOf(s', fd).sent == l.produced[..|l.sent| + Sum(sizes)] && LinkOf(s', fd).produced == l.produced
  {
    hide Run;
    if sizes == [] {
      assert schedule + Loops([]) == schedule;
    } else {
      var k := |sizes| - 1;
      var before := schedule + Loops(Rounds(fd, sizes[..k]));
      RoundsAreSent(schedule, fd, sizes[..k]);
      OutputGoesOn(before, fd, sizes[k]);
      hide Round;
      LoopsBoth(Rounds(fd, sizes[..k]), Round(fd, sizes[k]));
      assert schedule + Loops(Rounds(fd, sizes)) == before + Loops(Round(fd, sizes[k]));
    }
  }

  lemma LoopsBoth(x: seq<LoopMove>, y: seq<LoopMove>)
    ensures Loops(x + y) == Loops(x) + Loops(y)
  {
  }

  // ----- Closing -----

  /** The fate of a mapped connection is open until the loop is closing it. */
  predicate Undecided(s: State) {
    forall fd :: fd in s.conns && Linked(s, fd) && LinkOf(s, fd).fate != Open ==> TearingDown(s.loop, fd)
  }

  lemma WaitKeepsUndecided(s: State, m: LoopMove)
    requires Undecided(s) && MapInv(s) && s.loop == AtWait
    ensures Undecided(WaitMoves(s, m))
  {
  }

  lemma ScanKeepsUndecided(s: State, m: LoopMove)
    requires Undecided(s) && MapInv(s)
    ensures Undecided(ScanMoves(s, m))
  {
  }

  lemma CloseKeepsUndecided(s: State, fd: Fd, stage: nat, next: Then)
    requires Undecided(s) && MapInv(s) && s.loop == Closing(fd, stage, next)
    ensures Undecided(CloseMoves(s, fd, stage, next))
  {
  }

  lemma BytesKeepUndecided(s: State, fd: Fd, out: bool, data: string, id: Id, contentLength: nat)
    requires Undecided(s) && MapInv(s) && fd in s.conns && id !in s.links && s.loop.InRecv?
    ensures Undecided(ReceiveBytes(s, fd, out, data, id, contentLength))
  {
    hide FindHeaderEnd, FeedBody;
  }

  lemma FeedKeepsUndecided(s: State, fd: Fd, data: string, received: nat, out: bool)
    requires Undecided(s) && MapInv(s) && Linked(s, fd) && s.loop.InFeed?
    ensures Undecided(Feed(s, fd, data, received, out))
  {
    hide FeedBody;
  }

  lemma InKeepsUndecided(s: State, m: LoopMove)
    requires Undecided(s) && MapInv(s) && (s.loop.InRecv? || s.loop.InFeed? || s.loop.InEof?)
    ensures Undecided(InMoves(s, m))
  {
    hide ReceiveBytes, Feed, FeedBody;
    match s.loop
    case InRecv(fd, out) =>
      if m.Recv? && fd in s.conns && m.what.Bytes? && 0 < |m.what.data| <= BUFFER_SIZE && m.id !in s.links {
        BytesKeepUndecided(s, fd, out, m.what.data, m.id, m.contentLength);
      }
    case InFeed(fd, data, received, out) =>
      if Linked(s, fd) { FeedKeepsUndecided(s, fd, data, received, out); }
    case InEof(_, _) =>
  }

  lemma OutKeepsUndecided(s: State, m: LoopMove)
    requires Undecided(s) && MapInv(s)
    ensures Undecided(OutMoves(s, m))
  {
    hide PendingWriteData, AdvanceWrite, WriteFailed, MapInv, IsFinished;
    match s.loop
    case OutEmpty(fd) => OutCloseKeepsUndecided(s, m);
    case OutFail(fd) => OutCloseKeepsUndecided(s, m);
    case OutFin(fd) => OutCloseKeepsUndecided(s, m);
    case _ => OutSendKeepsUndecided(s, m);
  }

  lemma OutCloseKeepsUndecided(s: State, m: LoopMove)
    requires Undecided(s) && MapInv(s) && (s.loop.OutEmpty? || s.loop.OutFail? || s.loop.OutFin?)
    ensures Undecided(OutMoves(s, m))
  {
    hide WriteFailed, IsFinished;
  }

  lemma OutSendKeepsUndecided(s: State, m: LoopMove)
    requires Undecided(s) && MapInv(s) && !(s.loop.OutEmpty? || s.loop.OutFail? || s.loop.OutFin?)
    ensures Undecided(OutMoves(s, m))
  {
    hide PendingWriteData, AdvanceWrite;
  }

  lemma LoopKeepsUndecided(s: State, m: LoopMove)
    requires Undecided(s) && MapInv(s)
    ensures Undecided(LoopMoves(s, m))
  {
    hide WaitMoves, ScanMoves, CloseMoves, InMoves, OutMoves, MapInv;
    match s.loop
    case AtWait => WaitKeepsUndecided(s, m);
    case ScanClose(_) =>
    case Stopping(_) => PickKeepsUndecided(s, m);
    case Stopped =>
    case Closing(fd, stage, next) => CloseKeepsUndecided(s, fd, stage, next);
    case InRecv(_, _) => InKeepsUndecided(s, m);
    case InFeed(_, _, _, _) => InKeepsUndecided(s, m);
    case InEof(_, _) => InKeepsUndecided(s, m);
    case _ =>
      ScanKeepsUndecided(s, m);
      OutKeepsUndecided(s, m);
  }

  lemma PickKeepsUndecided(s: State, m: LoopMove)
    requires Undecided(s) && MapInv(s) && s.loop.Stopping?
    ensures Undecided(LoopMoves(s, m))
  {
    hide WaitMoves, ScanMoves, CloseMoves, InMoves, OutMoves;
  }

  lemma WorkerKeepsUndecided(s: State, a: Action)
    requires Undecided(s) && a.ByWorker?
    ensures Undecided(Step(s, a))
  {
  }

  lemma {:induction false} RunKeepsUndecided(schedule: seq<Action>)
    ensures Undecided(Run(schedule))
  {
    if schedule != [] {
      var n := |schedule| - 1;
      RunKeepsUndecided(schedule[..n]);
      RunKeepsInv(schedule[..n]);
      assert MapInv(Run(schedule[..n]));
      hide Undecided, Inv, MapInv, LoopMoves, WorkerMoves, Enabled;
      match schedule[n]
      case ByLoop(m) => LoopKeepsUndecided(Run(schedule[..n]), m);
      case ByWorker(_, _) => WorkerKeepsUndecided(Run(schedule[..n]), schedule[n]);
    }
  }

  /** The loop has closed fd; its object i is released with these histories. */
  predicate Closed(s: State, fd: Fd, i: Id, sent: string, produced: string, fate: Fate) {
    && fd !in s.conns && i in s.links && Released(s.links[i]) && s.links[i].owner == None
    && s.links[i].sent == sent && s.links[i].produced == produced && s.links[i].fate == fate
  }

  /** The loop is about to close fd, with this fate. */
  predicate ToClose(s: State, fd: Fd, l: Link, fate: Fate, next: Then) {
    && s.loop == Closing(fd, 0, next) && Linked(s, fd) && LinkOf(s, fd).fate == fate
    && LinkOf(s, fd).sent == l.sent && LinkOf(s, fd).produced == l.produced
  }

  lemma CloseOf(s: State, fd: Fd, l: Link, fate: Fate, next: Then)
    requires ToClose(s, fd, l, fate, next)
    ensures var s' := After(s, CLOSES);
      && s'.loop == Resume(next) && s'.conns == s.conns - {fd}
      && Closed(s', fd, s.conns[fd].io.value, l.sent, l.produced, fate)
  {
    AfterBoth(s, CHECKS, CHECKS);
    AfterTwo(s, Go, Go);
    AfterTwo(After(s, CHECKS), Go, Go);
    hide After, ScanMoves, InMoves, OutMoves, WaitMoves;
    var s' := LoopMoves(LoopMoves(s, Go), Go);
    assert Linked(s', fd) && s'.loop == Closing(fd, 2, next) && s'.conns - {fd} == s.conns - {fd};
  }

  /** What holds of a mapped connection while the loop waits. */
  predicate AtRest(s: State, fd: Fd) {
    s.loop == AtWait && Linked(s, fd) &&
    var l := LinkOf(s, fd);
    && l.fate == Open && WriteInv(l) && !l.dropped && l.inFlight == 0
    && l.produced == l.sent + PendingWriteData(l.io)
  }

  lemma WaitingIsAtRest(schedule: seq<Action>, fd: Fd)
    requires Run(schedule).loop == AtWait && Linked(Run(schedule), fd)
    ensures AtRest(Run(schedule), fd)
  {
    NothingIsLost(schedule, fd);
    RunKeepsUndecided(schedule);
    RunKeepsInv(schedule);
    AtFd(Run(schedule), fd);
    hide Run, Inv, CtxOk, BodyInv, WriteInv;
  }

  /** A hang-up or an error on the socket closes the connection and releases its worker. */
  lemma HangupCloses(schedule: seq<Action>, fd: Fd, input: bool, out: bool)
    requires Run(schedule).loop == AtWait && Linked(Run(schedule), fd)
    ensures var l := LinkOf(Run(schedule), fd);
      var s' := Run(schedule + Loops([Event(fd, true, input, out)] + CLOSES));
      s'.loop == AtWait && Closed(s', fd, Run(schedule).conns[fd].io.value, l.sent, l.produced, Aborted)
  {
    var s := Run(schedule);
    WaitingIsAtRest(schedule, fd);
    var l := LinkOf(s, fd);
    RunOn(schedule, [Event(fd, true, input, out)] + CLOSES);
    AfterBoth(s, [Event(fd, true, input, out)], CLOSES);
    AfterOne(s, Event(fd, true, input, out));
    hide Run, After, Closed;
    var s' := LoopMoves(s, Event(fd, true, input, out));
    assert ToClose(s', fd, l, Aborted, ToWait);
    CloseOf(s', fd, l, Aborted, ToWait);
  }

  /** A send that fails for good does so too. */
  lemma FailedSendCloses(schedule: seq<Action>, fd: Fd)
    requires Run(schedule).loop == AtWait && Linked(Run(schedule), fd)
    requires |LinkOf(Run(schedule), fd).sent| < |LinkOf(Run(schedule), fd).produced|
    ensures var l := LinkOf(Run(schedule), fd);
      var s' := Run(schedule + Loops(Fails(fd)));
      s'.loop == AtWait && Closed(s', fd, Run(schedule).conns[fd].io.value, l.sent, l.produced, Aborted)
  {
    WaitingIsAtRest(schedule, fd);
    RunOn(schedule, Fails(fd));
    hide Run, Closed, Fails;
    FailOf(Run(schedule), fd);
  }

  function Fails(fd: Fd): seq<LoopMove> {
    [Event(fd, false, false, true), Go] + ([SendFailed(false), Go] + CLOSES)
  }

  lemma FailOf(s: State, fd: Fd)
    requires AtRest(s, fd) && PendingWriteData(LinkOf(s, fd).io) != ""
    ensures var l := LinkOf(s, fd); var s' := After(s, Fails(fd));
      s'.loop == AtWait && Closed(s', fd, s.conns[fd].io.value, l.sent, l.produced, Aborted)
  {
    var l := LinkOf(s, fd);
    AfterBoth(s, [Event(fd, false, false, true), Go], [SendFailed(false), Go] + CLOSES);
    ViewOf(s, fd);
    assert l.fate == Open;
    hide After, PendingWriteData, WriteInv;
    FailedCloses(At(s, OutSend(fd, PendingWriteData(l.io))), fd, l);
  }

  lemma FailedCloses(s: State, fd: Fd, l: Link)
    requires s.loop.OutSend? && s.loop.fd == fd && Linked(s, fd) && LinkOf(s, fd) == l && l.fate == Open
    ensures var s' := After(s, [SendFailed(false), Go] + CLOSES);
      s'.loop == AtWait && Closed(s', fd, s.conns[fd].io.value, l.sent, l.produced, Aborted)
  {
    AfterBoth(s, [SendFailed(false), Go], CLOSES);
    AfterTwo(s, SendFailed(false), Go);
    hide After, ScanMoves, InMoves, CloseMoves, WaitMoves, Closed;
    var s1 := LoopMoves(LoopMoves(s, SendFailed(false)), Go);
    assert s1.conns == s.conns && ToClose(s1, fd, l, Aborted, ToWait);
    CloseOf(s1, fd, l, Aborted, ToWait);
  }

  // ----- The end of a response -----

  /** The moves that bring a finished response to its end. */
  function Ends(fd: Fd, left: nat): seq<LoopMove> {
    if left == 0 then [Event(fd, false, false, true), Go] + ([Go] + CLOSES)
    else Sends(fd, left) + (CHECKS + CLOSES)
  }

  /** It is closed, in good order and with all of its output sent. */
  predicate Served(s: State, fd: Fd, i: Id, l: Link) {
    s.loop == AtWait && Closed(s, fd, i, l.produced, l.produced, Orderly)
  }

  function Unsent(l: Link): nat {
    if |l.sent| <= |l.produced| then |l.produced| - |l.sent| else 0
  }

  /** Of a connection whose worker has finished, all is sent, and it is closed in good order. */
  lemma FinishedIsServed(schedule: seq<Action>, fd: Fd)
    requires Run(schedule).loop == AtWait && Linked(Run(schedule), fd) && LinkOf(Run(schedule), fd).io.finished
    ensures var l := LinkOf(Run(schedule), fd);
      Served(Run(schedule + Loops(Ends(fd, Unsent(l)))), fd, Run(schedule).conns[fd].io.value, l)
  {
    WaitingIsAtRest(schedule, fd);
    hide Run, Served, Ends, Loops, AtRest;
    RunOn(schedule, Ends(fd, Unsent(LinkOf(Run(schedule), fd))));
    EndsServe(Run(schedule), fd);
  }

  lemma EndsServe(s: State, fd: Fd)
    requires AtRest(s, fd) && LinkOf(s, fd).io.finished
    ensures Served(After(s, Ends(fd, Unsent(LinkOf(s, fd)))), fd, s.conns[fd].io.value, LinkOf(s, fd))
  {
    hide After, Ends, WriteInv, PendingWriteData, Closed;
    if PendingWriteData(LinkOf(s, fd).io) == "" {
      DrainedEnds(s, fd);
    } else {
      PendingEnds(s, fd);
    }
  }

  lemma DrainedEnds(s: State, fd: Fd)
    requires AtRest(s, fd) && LinkOf(s, fd).io.finished && PendingWriteData(LinkOf(s, fd).io) == ""
    ensures Served(After(s, Ends(fd, 0)), fd, s.conns[fd].io.value, LinkOf(s, fd))
  {
    var l := LinkOf(s, fd);
    assert l.sent == l.produced && IsFinished(l.io);
    AfterBoth(s, [Event(fd, false, false, true), Go], [Go] + CLOSES);
    NothingToView(s, fd);
    assert l.fate == Open;
    hide After, PendingWriteData, WriteInv, IsFinished;
    EmptyCloses(At(s, OutEmpty(fd)), fd, l);
  }

  lemma NothingToView(s: State, fd: Fd)
    requires s.loop == AtWait && Linked(s, fd) && PendingWriteData(LinkOf(s, fd).io) == ""
    ensures After(s, [Event(fd, false, false, true), Go]) == At(s, OutEmpty(fd))
  {
    AfterTwo(s, Event(fd, false, false, true), Go);
    hide After, ScanMoves, InMoves, CloseMoves, PendingWriteData;
  }

  lemma EmptyCloses(s: State, fd: Fd, l: Link)
    requires s.loop == OutEmpty(fd) && Linked(s, fd) && LinkOf(s, fd) == l && l.fate == Open && IsFinished(l.io)
    ensures var s' := After(s, [Go] + CLOSES);
      s'.loop == AtWait && Closed(s', fd, s.conns[fd].io.value, l.sent, l.produced, Orderly)
  {
    AfterBoth(s, [Go], CLOSES);
    AfterOne(s, Go);
    hide After, ScanMoves, InMoves, CloseMoves, WaitMoves, IsFinished, Closed;
    assert ToClose(LoopMoves(s, Go), fd, l, Orderly, ToWait);
    CloseOf(LoopMoves(s, Go), fd, l, Orderly, ToWait);
  }

  lemma PendingEnds(s: State, fd: Fd)
    requires AtRest(s, fd) && LinkOf(s, fd).io.finished && PendingWriteData(LinkOf(s, fd).io) != ""
    ensures Served(After(s, Ends(fd, |PendingWriteData(LinkOf(s, fd).io)|)), fd, s.conns[fd].io.value, LinkOf(s, fd))
  {
    var l := LinkOf(s, fd);
    var view := PendingWriteData(l.io);
    AfterBoth(s, Sends(fd, |view|), CHECKS + CLOSES);
    hide After, LinkAdvanced, Closed;
    AllIsSent(s, fd);
    var l1 := LinkAdvanced(l.(sent := l.produced, inFlight := |view|), |view|);
    AdvancedIsDrained(l);
    hide WriteInv, PendingWriteData;
    DrainedCloses(At(SetLink(s, fd, l1), OutPend(fd)), fd, l1);
  }

  lemma AdvancedIsDrained(l: Link)
    requires WriteInv(l) && !l.dropped && l.inFlight == 0 && l.io.finished && PendingWriteData(l.io) != ""
    ensures var n := |PendingWriteData(l.io)|; var l' := LinkAdvanced(l.(sent := l.produced, inFlight := n), n);
      !l'.io.pending && IsFinished(l'.io) && l'.fate == l.fate && l'.sent == l'.produced == l.produced
  {
  }

  lemma AllIsSent(s: State, fd: Fd)
    requires AtRest(s, fd) && PendingWriteData(LinkOf(s, fd).io) != ""
    ensures var l := LinkOf(s, fd); var n := |PendingWriteData(l.io)|;
      After(s, Sends(fd, n))
      == At(SetLink(s, fd, LinkAdvanced(l.(sent := l.produced, inFlight := n), n)), OutPend(fd))
  {
    hide After, LinkAdvanced, WriteInv, PendingWriteData;
    var view := PendingWriteData(LinkOf(s, fd).io);
    AfterBoth(s, [Event(fd, false, false, true), Go], [Sent(|view|), Go]);
    ViewOf(s, fd);
    SentOf(At(s, OutSend(fd, view)), fd, view, |view|);
    assert view[..|view|] == view;
  }

  lemma DrainedCloses(s: State, fd: Fd, l: Link)
    requires s.loop == OutPend(fd) && Linked(s, fd) && LinkOf(s, fd) == l
    requires !l.io.pending && IsFinished(l.io) && l.fate == Open
    ensures var s' := After(s, CHECKS + CLOSES);
      s'.loop == AtWait && Closed(s', fd, s.conns[fd].io.value, l.sent, l.produced, Orderly)
  {
    AfterBoth(s, CHECKS, CLOSES);
    AfterTwo(s, Go, Go);
    hide After, ScanMoves, InMoves, CloseMoves, WaitMoves, IsFinished, Closed;
    var s1 := LoopMoves(LoopMoves(s, Go), Go);
    assert ToClose(s1, fd, l, Orderly, ToWait);
    CloseOf(s1, fd, l, Orderly, ToWait);
  }

  /** All output has been sent, fd is no longer watched for output, and its writer is awake and need not wait. */
  predicate Unwatched(s: State, s': State, fd: Fd) {
    && Linked(s, fd) && Linked(s', fd) && s'.loop == AtWait
    && s'.conns == s.conns[fd := s.conns[fd].(events := Interest(!s.conns[fd].bodyComplete, false))]
    && var l, l' := LinkOf(s, fd), LinkOf(s', fd);
    && l'.sent == l.produced == l'.produced && l'.worker == WakeWriter(l.worker) && WriteReady(l'.io)
  }

  /** When all is sent and the worker goes on, the loop stops watching for output. */
  lemma DrainedIsUnwatched(schedule: seq<Action>, fd: Fd)
    requires Run(schedule).loop == AtWait && Linked(Run(schedule), fd) && !LinkOf(Run(schedule), fd).io.finished
    requires var l := LinkOf(Run(schedule), fd); |l.sent| < |l.produced|
    ensures var s := Run(schedule);
      Unwatched(s, Run(schedule + Loops(Sends(fd, Unsent(LinkOf(s, fd))) + (CHECKS + [Go]))), fd)
  {
    WaitingIsAtRest(schedule, fd);
    hide Run, Loops, Sends, WriteInv, Unwatched;
    RunOn(schedule, Sends(fd, Unsent(LinkOf(Run(schedule), fd))) + (CHECKS + [Go]));
    hide PendingWriteData;
    DrainedGoesIdle(Run(schedule), fd);
  }

  lemma DrainedGoesIdle(s: State, fd: Fd)
    requires AtRest(s, fd) && !LinkOf(s, fd).io.finished && PendingWriteData(LinkOf(s, fd).io) != ""
    ensures Unwatched(s, After(s, Sends(fd, |PendingWriteData(LinkOf(s, fd).io)|) + (CHECKS + [Go])), fd)
  {
    hide After, LinkAdvanced, WriteReady;
    var l := LinkOf(s, fd);
    var n := |PendingWriteData(l.io)|;
    AfterBoth(s, Sends(fd, n), CHECKS + [Go]);
    AllIsSent(s, fd);
    var l1 := LinkAdvanced(l.(sent := l.produced, inFlight := n), n);
    AdvancedIsIdle(l);
    hide WriteInv, PendingWriteData;
    var s1 := At(SetLink(s, fd, l1), OutPend(fd));
    assert Linked(s1, fd) && LinkOf(s1, fd) == l1 && l1.sent == l.produced == l1.produced;
    GoesIdle(s1, fd);
  }

  lemma AdvancedIsIdle(l: Link)
    requires WriteInv(l) && !l.dropped && l.inFlight == 0 && !l.io.finished && PendingWriteData(l.io) != ""
    ensures var n := |PendingWriteData(l.io)|; var l' := LinkAdvanced(l.(sent := l.produced, inFlight := n), n);
      && !l'.io.pending && !IsFinished(l'.io) && WriteReady(l'.io) && l'.worker == WakeWriter(l.worker)
      && l'.sent == l.produced == l'.produced
  {
  }

  lemma GoesIdle(s: State, fd: Fd)
    requires s.loop == OutPend(fd) && Linked(s, fd) && !LinkOf(s, fd).io.pending && !IsFinished(LinkOf(s, fd).io)
    ensures After(s, CHECKS + [Go])
            == At(SetCtx(s, fd, s.conns[fd].(events := Interest(!s.conns[fd].bodyComplete, false))), AtWait)
  {
    AfterBoth(s, CHECKS, [Go]);
    ChecksIdle(s, fd);
    AfterOne(At(s, OutIdle(fd)), Go);
    hide After, ScanMoves, InMoves, CloseMoves, WaitMoves;
  }

  lemma ChecksIdle(s: State, fd: Fd)
    requires s.loop == OutPend(fd) && Linked(s, fd) && !LinkOf(s, fd).io.pending && !IsFinished(LinkOf(s, fd).io)
    ensures After(s, CHECKS) == At(s, OutIdle(fd))
  {
    AfterTwo(s, Go, Go);
    hide After, ScanMoves, InMoves, CloseMoves, WaitMoves, IsFinished;
  }

  // ----- The eventfd -----

  /** The eventfd is reported, and the scan comes to fd. */
  function Scans(fd: Fd): seq<LoopMove> {
    [Notified, Pick(fd)] + [Go, Go]
  }

  lemma ScanOf(s: State, fd: Fd)
    requires s.loop == AtWait && Linked(s, fd) && !LinkOf(s, fd).io.writeError
    ensures var rest := s.conns.Keys - {fd};
      After(s, Scans(fd)) == s.(counter := 0, loop := if IsFinished(LinkOf(s, fd).io) then ScanFinPend(fd, rest, {})
                                                      else ScanPend(fd, rest, {}))
  {
    AfterBoth(s, [Notified, Pick(fd)], [Go, Go]);
    AfterTwo(s, Notified, Pick(fd));
    AfterTwo(After(s, [Notified, Pick(fd)]), Go, Go);
    hide After, OutMoves, InMoves, CloseMoves, IsFinished;
  }

  /** A worker's signal makes the loop watch for output what is not failed and has data pending. */
  lemma SignalArmsOutput(schedule: seq<Action>, fd: Fd)
    requires Run(schedule).loop == AtWait && Linked(Run(schedule), fd)
    requires var l := LinkOf(Run(schedule), fd); |l.sent| < |l.produced| && !l.io.writeError
    ensures var s := Run(schedule); var watched := s.conns[fd].(events := Interest(!s.conns[fd].bodyComplete, true));
      Run(schedule + Loops(Scans(fd) + CHECKS))
      == SetCtx(s, fd, watched).(counter := 0, loop := Scan(s.conns.Keys - {fd}, {}))
  {
    WaitingIsAtRest(schedule, fd);
    RunOn(schedule, Scans(fd) + CHECKS);
    hide Run;
    PendingIsArmed(Run(schedule), fd);
  }

  lemma PendingIsArmed(s: State, fd: Fd)
    requires AtRest(s, fd) && PendingWriteData(LinkOf(s, fd).io) != "" && !LinkOf(s, fd).io.writeError
    ensures var watched := s.conns[fd].(events := Interest(!s.conns[fd].bodyComplete, true));
      After(s, Scans(fd) + CHECKS) == SetCtx(s, fd, watched).(counter := 0, loop := Scan(s.conns.Keys - {fd}, {}))
  {
    assert LinkOf(s, fd).io.pending && !IsFinished(LinkOf(s, fd).io);
    AfterBoth(s, Scans(fd), CHECKS);
    AfterTwo(After(s, Scans(fd)), Go, Go);
    hide After, OutMoves, InMoves, CloseMoves, WaitMoves, WriteInv, IsFinished, PendingWriteData;
    ScanOf(s, fd);
  }

  /** And it makes the loop doom what is finished and drained, or failed. */
  lemma SignalDooms(schedule: seq<Action>, fd: Fd)
    requires Run(schedule).loop == AtWait && Linked(Run(schedule), fd)
    requires var l := LinkOf(Run(schedule), fd); (l.io.finished && l.sent == l.produced) || l.io.writeError
    ensures var s := Run(schedule); var l := LinkOf(s, fd);
      var looks := if l.io.writeError then [Notified, Pick(fd)] + [Go] else Scans(fd) + [Go];
      Run(schedule + Loops(looks))
      == SetLink(s, fd, l.(fate := if l.io.writeError then Aborted else Orderly))
         .(counter := 0, loop := Scan(s.conns.Keys - {fd}, {fd}))
  {
    var s := Run(schedule);
    var l := LinkOf(s, fd);
    WaitingIsAtRest(schedule, fd);
    var looks := if l.io.writeError then [Notified, Pick(fd)] + [Go] else Scans(fd) + [Go];
    RunOn(schedule, looks);
    hide Run, After;
    if l.io.writeError {
      FailedIsDoomed(s, fd);
    } else {
      DrainedIsDoomed(s, fd);
    }
  }

  lemma FailedIsDoomed(s: State, fd: Fd)
    requires AtRest(s, fd) && LinkOf(s, fd).io.writeError
    ensures After(s, [Notified, Pick(fd)] + [Go]) == SetLink(s, fd, LinkOf(s, fd).(fate := Aborted))
              .(counter := 0, loop := Scan(s.conns.Keys - {fd}, {fd}))
  {
    AfterBoth(s, [Notified, Pick(fd)], [Go]);
    AfterTwo(s, Notified, Pick(fd));
    AfterOne(After(s, [Notified, Pick(fd)]), Go);
    hide After, OutMoves, InMoves, CloseMoves, WriteInv, PendingWriteData;
    assert {} + {fd} == {fd};
  }

  lemma DrainedIsDoomed(s: State, fd: Fd)
    requires AtRest(s, fd) && LinkOf(s, fd).io.finished && LinkOf(s, fd).sent == LinkOf(s, fd).produced
    requires !LinkOf(s, fd).io.writeError
    ensures After(s, Scans(fd) + [Go]) == SetLink(s, fd, LinkOf(s, fd).(fate := Orderly))
              .(counter := 0, loop := Scan(s.conns.Keys - {fd}, {fd}))
  {
    assert PendingWriteData(LinkOf(s, fd).io) == "";
    assert IsFinished(LinkOf(s, fd).io) && !LinkOf(s, fd).io.pending;
    AfterBoth(s, Scans(fd), [Go]);
    AfterOne(After(s, Scans(fd)), Go);
    hide After, OutMoves, InMoves, CloseMoves, WaitMoves, WriteInv, PendingWriteData, IsFinished;
    ScanOf(s, fd);
    assert {} + {fd} == {fd};
  }

  /** The scan closes what it has doomed. */
  lemma DoomedIsClosed(s: State, fd: Fd, doomed: set<Fd>)
    requires s.loop == ScanClose(doomed) && fd in doomed && Linked(s, fd)
    ensures var l := LinkOf(s, fd); var s' := After(s, [Pick(fd)] + CLOSES);
      && s'.loop == ScanClose(doomed - {fd}) && s'.conns == s.conns - {fd}
      && Closed(s', fd, s.conns[fd].io.value, l.sent, l.produced, l.fate)
  {
    AfterBoth(s, [Pick(fd)], CLOSES);
    AfterOne(s, Pick(fd));
    hide After, OutMoves, InMoves, CloseMoves, WaitMoves, ScanMoves, Closed;
    CloseOf(LoopMoves(s, Pick(fd)), fd, LinkOf(s, fd), LinkOf(s, fd).fate, ToScanClose(doomed - {fd}));
  }
}

/** The loop is never stuck: from every reachable state it can go back to waiting, and a shutdown can end. */
module BridgeReturns {
  import opened Common
  import opened ConnectionIo
  import opened Bridge
  import opened BridgeInvariant
  import opened BridgeSteps
  import opened BridgeTheorems
  import opened BridgeProgress

  function ThenLeft(next: Then): nat {
    match next
    case ToWait => 0
    case ToScanClose(rest) => 1 + 7 * |rest|
    case ToStopping(left) => 1 + 7 * |left|
  }

  /** A bound on the moves the loop has to make before it waits again, or has stopped. */
  function Left(loop: Loop): nat {
    match loop
    case AtWait => 0
    case Stopped => 0
    case Scan(todo, doomed) => 2 + 20 * |todo| + 7 * |doomed|
    case ScanErr(_, todo, doomed) => 17 + 20 * |todo| + 7 * |doomed|
    case ScanFin(_, todo, doomed) => 16 + 20 * |todo| + 7 * |doomed|
    case ScanFinPend(_, todo, doomed) => 15 + 20 * |todo| + 7 * |doomed|
    case ScanPend(_, todo, doomed) => 14 + 20 * |todo| + 7 * |doomed|
    case ScanArm(_, todo, doomed) => 13 + 20 * |todo| + 7 * |doomed|
    case ScanClose(doomed) => 1 + 7 * |doomed|
    case Stopping(left) => 1 + 7 * |left|
    case Closing(_, stage, next) => (if stage < 4 then 5 - stage else 1) + ThenLeft(next)
    case InRecv(_, _) => 20
    case InFeed(_, _, _, _) => 19
    case InEof(_, _) => 19
    case OutView(_) => 18
    case OutEmpty(_) => 17
    case OutSend(_, _) => 16
    case OutFail(_) => 15
    case OutAdvance(_, _, _) => 14
    case OutPend(_) => 13
    case OutFin(_) => 12
    case OutIdle(_) => 11
  }

  predicate Waiting(loop: Loop) {
    loop == AtWait || loop == Stopped
  }

  lemma OneLess(x: set<Fd>, fd: Fd)
    requires fd in x
    ensures |x - {fd}| + 1 == |x|
  {
  }

  predicate Less(s: State, m: LoopMove) {
    Left(LoopMoves(s, m).loop) < Left(s.loop)
  }

  lemma PickLessens(s: State, fd: Fd)
    requires s.loop.Scan? && fd in s.loop.todo
    ensures Less(s, Pick(fd))
  {
    hide InMoves, OutMoves, CloseMoves, WaitMoves;
    OneLess(s.loop.todo, fd);
  }

  lemma ScanEndLessens(s: State)
    requires s.loop.Scan? && s.loop.todo == {}
    ensures Less(s, Go)
  {
    hide InMoves, OutMoves, CloseMoves, WaitMoves;
  }

  lemma DecideLessens(s: State)
    requires LoopInv(s) && (s.loop.ScanErr? || s.loop.ScanFinPend?)
    ensures Less(s, Go)
  {
    hide InMoves, OutMoves, CloseMoves, WaitMoves, IsFinished;
  }

  lemma LookLessens(s: State)
    requires LoopInv(s) && (s.loop.ScanFin? || s.loop.ScanPend? || s.loop.ScanArm?)
    ensures Less(s, Go)
  {
    hide InMoves, OutMoves, CloseMoves, WaitMoves, IsFinished;
  }

  predicate Scanning(loop: Loop) {
    loop.Scan? || loop.ScanErr? || loop.ScanFin? || loop.ScanFinPend? || loop.ScanPend? || loop.ScanArm?
  }

  lemma ScanLessens(s: State) returns (m: LoopMove)
    requires LoopInv(s) && Scanning(s.loop)
    ensures Less(s, m)
  {
    hide Less, LoopInv;
    m := Go;
    if s.loop.Scan? {
      if fd :| fd in s.loop.todo {
        m := Pick(fd);
        PickLessens(s, fd);
      } else {
        ScanEndLessens(s);
      }
    } else if s.loop.ScanErr? || s.loop.ScanFinPend? {
      DecideLessens(s);
    } else {
      LookLessens(s);
    }
  }

  lemma ResumeLeft(next: Then)
    ensures Left(Resume(next)) == ThenLeft(next)
  {
  }

  lemma CloseGoesOn(s: State, fd: Fd, stage: nat, next: Then)
    requires s.loop == Closing(fd, stage, next) && fd in s.conns
    ensures var loop := CloseMoves(s, fd, stage, next).loop;
      loop == Resume(next) || (stage < 3 && loop == Closing(fd, stage + 1, next))
  {
    hide SetLink, SetCtx, LinkFeedError, LinkWriteError;
  }

  lemma ClosingLessens(s: State)
    requires LoopInv(s) && s.loop.Closing?
    ensures Less(s, Go)
  {
    hide InMoves, OutMoves, ScanMoves, WaitMoves, CloseMoves, Resume;
    CloseGoesOn(s, s.loop.fd, s.loop.stage, s.loop.next);
    ResumeLeft(s.loop.next);
  }

  lemma DoomedLessens(s: State) returns (m: LoopMove)
    requires s.loop.ScanClose?
    ensures Less(s, m)
  {
    hide InMoves, OutMoves, ScanMoves, WaitMoves, CloseMoves;
    m := Go;
    if fd :| fd in s.loop.doomed {
      m := Pick(fd);
      OneLess(s.loop.doomed, fd);
    }
  }

  lemma StoppingLessens(s: State) returns (m: LoopMove)
    requires s.loop.Stopping?
    ensures Less(s, m)
  {
    hide InMoves, OutMoves, ScanMoves, WaitMoves, CloseMoves;
    m := Go;
    if fd :| fd in s.loop.left {
      m := Pick(fd);
      OneLess(s.loop.left, fd);
    }
  }

  predicate Receiving(loop: Loop) {
    loop.InRecv? || loop.InFeed? || loop.InEof?
  }

  lemma InputLessens(s: State) returns (m: LoopMove)
    requires LoopInv(s) && Receiving(s.loop)
    ensures Less(s, m)
  {
    hide CloseMoves, ScanMoves, WaitMoves, OutMoves, FeedBody;
    m := if s.loop.InRecv? then Recv(Again, 0, 0) else Go;
  }

  predicate Sends(loop: Loop) {
    || loop.OutView? || loop.OutEmpty? || loop.OutSend? || loop.OutFail? || loop.OutAdvance? || loop.OutPend?
    || loop.OutFin? || loop.OutIdle?
  }

  lemma OutputLessens(s: State) returns (m: LoopMove)
    requires LoopInv(s) && Sends(s.loop)
    ensures Less(s, m)
  {
    hide CloseMoves, ScanMoves, WaitMoves, InMoves, PendingWriteData, AdvanceWrite, IsFinished, SetLink, SetCtx;
    m := if s.loop.OutSend? then SendFailed(true) else Go;
  }

  /** There is always a move that brings the loop closer to waiting. */
  lemma SomeMoveLessens(s: State) returns (m: LoopMove)
    requires LoopInv(s) && !Waiting(s.loop)
    ensures Less(s, m)
  {
    hide LoopInv, Less;
    if Scanning(s.loop) {
      m := ScanLessens(s);
    } else if s.loop.Closing? {
      m := Go;
      ClosingLessens(s);
    } else if s.loop.ScanClose? {
      m := DoomedLessens(s);
    } else if s.loop.Stopping? {
      m := StoppingLessens(s);
    } else if Receiving(s.loop) {
      m := InputLessens(s);
    } else {
      m := OutputLessens(s);
    }
  }

  /** Whatever has happened, there are moves that bring the loop back to waiting, unless it has stopped. */
  lemma {:induction false} LoopCanReturn(schedule: seq<Action>) returns (moves: seq<LoopMove>)
    ensures Waiting(Run(schedule + Loops(moves)).loop)
    ensures ShuttingDown(Run(schedule).loop) ==> ShuttingDown(Run(schedule + Loops(moves)).loop)
    decreases Left(Run(schedule).loop)
  {
    hide Run, LoopMoves, Left, LoopInv;
    NoneMoves(schedule);
    if Waiting(Run(schedule).loop) {
      moves := [];
    } else {
      LoopIsWhereItIs(schedule);
      var m := SomeMoveLessens(Run(schedule));
      StaysShuttingDown(Run(schedule), m);
      RunOne(schedule, ByLoop(m));
      var rest := LoopCanReturn(schedule + [ByLoop(m)]);
      moves := [m] + rest;
      LoopsBoth([m], rest);
      assert Loops([m]) == [ByLoop(m)];
      assert schedule + Loops(moves) == schedule + [ByLoop(m)] + Loops(rest);
    }
  }

  lemma LoopIsWhereItIs(schedule: seq<Action>)
    ensures LoopInv(Run(schedule))
  {
    RunKeepsInv(schedule);
  }

  lemma NoneMoves(schedule: seq<Action>)
    ensures schedule + Loops([]) == schedule
  {
  }

  predicate ShuttingDown(loop: Loop) {
    loop.Stopping? || loop.Stopped? || (loop.Closing? && loop.next.ToStopping?)
  }

  lemma StaysShuttingDown(s: State, m: LoopMove)
    ensures ShuttingDown(s.loop) ==> ShuttingDown(LoopMoves(s, m).loop)
  {
    hide ScanMoves, InMoves, OutMoves, WaitMoves;
  }

  /**
   Whatever has happened, the server can be stopped: then every connection is closed, no worker
   sleeps, and every wait predicate is true.
   */
  lemma ShutdownCanEnd(schedule: seq<Action>) returns (moves: seq<LoopMove>)
    ensures var s := Run(schedule + Loops(moves)); s.loop == Stopped && s.conns == map[]
  {
    hide LoopMoves, Run;
    var back := LoopCanReturn(schedule);
    var waiting := schedule + Loops(back);
    if Run(waiting).loop == Stopped {
      moves := back;
    } else {
      var asked := waiting + [ByLoop(Shutdown)];
      ShutdownBegins(waiting);
      var rest := LoopCanReturn(asked);
      moves := back + ([Shutdown] + rest);
      LoopsBoth(back, [Shutdown] + rest);
      LoopsBoth([Shutdown], rest);
      assert Loops([Shutdown]) == [ByLoop(Shutdown)];
      assert schedule + Loops(moves) == asked + Loops(rest);
    }
    LoopIsWhereItIs(schedule + Loops(moves));
  }

  lemma ShutdownBegins(schedule: seq<Action>)
    requires Run(schedule).loop == AtWait
    ensures ShuttingDown(Run(schedule + [ByLoop(Shutdown)]).loop)
  {
    RunOne(schedule, ByLoop(Shutdown));
    hide Run, ScanMoves, InMoves, OutMoves, CloseMoves;
  }
}

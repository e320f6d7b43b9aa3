/** Every step of a worker and of the loop keeps the invariant of BridgeInvariant. */
module BridgeSteps {
  import opened Common
  import opened ConnectionIo
  import opened Bridge
  import opened BridgeInvariant

  // ----- Worker steps -----

  /**
   What no worker can disturb: a non-empty pending view (and so the bytes the loop
   is handing to send outside the lock), a finished flag, an error flag, and all
   that the loop alone writes.
   */
  predicate Undisturbed(l: Link, l': Link) {
    && (PendingWriteData(l.io) != "" ==> l'.io.buffer == l.io.buffer && l'.io.cursor == l.io.cursor)
    && (IsFinished(l.io) ==> IsFinished(l'.io))
    && (l.io.writeError ==> l'.io.writeError)
    && (l.io.readError <==> l'.io.readError)
    && l'.inFlight == l.inFlight && l'.dropped == l.dropped && l'.owner == l.owner
    && l'.header == l.header && l'.body == l.body && l'.sent == l.sent
    && l'.io.fed == l.io.fed && l'.io.contentLength == l.io.contentLength
  }

  lemma ReadUndisturbed(l: Link, want: nat)
    ensures Undisturbed(l, AfterRead(l, want))
  {
  }

  lemma WorkerUndisturbed(l: Link, m: WorkerMove)
    requires Enabled(l, m) && (l.io.finished ==> l.worker.Done? || l.worker.Erring?)
    ensures Undisturbed(l, WorkerMoves(l, m))
  {
    hide AfterRead;
    if m == TryRead {
      ReadUndisturbed(l, l.worker.want);
    }
  }

  lemma WorkerKeepsWake(counter: nat, loop: Loop, fd: Fd, out: bool, l: Link, m: WorkerMove)
    requires Enabled(l, m) && WriteInv(l) && WakeOk(counter, loop, fd, out, l)
    ensures WakeOk(if Signals(l, m) then Signalled(counter) else counter, loop, fd, out, WorkerMoves(l, m))
  {
    hide AfterRead;
    hide SeesError;
    hide TearingDown;
    if m == TryRead {
      ReadLeavesWriteSide(l, l.worker.want);
    }
  }

  lemma MoreSignalsKeepWake(counter: nat, counter': nat, loop: Loop, fd: Fd, out: bool, l: Link)
    requires WakeOk(counter, loop, fd, out, l) && (counter > 0 ==> counter' > 0)
    ensures WakeOk(counter', loop, fd, out, l)
  {
  }

  /** An undisturbed link may replace the old one without harm to the rest of the state. */
  lemma UndisturbedKeepsMap(s: State, i: Id, l': Link)
    requires MapInv(s) && OwnerInv(s) && i in s.links && Undisturbed(s.links[i], l')
    ensures MapInv(s.(links := s.links[i := l']))
    ensures OwnerInv(s.(links := s.links[i := l']))
  {
  }

  lemma UndisturbedKeepsLinks(s: State, i: Id, l': Link)
    requires LinksInv(s) && i in s.links && Undisturbed(s.links[i], l') && BodyInv(l') && WriteInv(l')
    ensures LinksInv(s.(links := s.links[i := l']))
  {
    hide BodyInv;
    hide WriteInv;
  }

  lemma UndisturbedKeepsCtx(s: State, i: Id, l': Link)
    requires CtxInv(s) && i in s.links && Undisturbed(s.links[i], l')
    ensures CtxInv(s.(links := s.links[i := l']))
  {
    var s' := s.(links := s.links[i := l']);
    forall fd | fd in s'.conns
      ensures CtxOk(s', fd, s'.conns[fd])
    {
      assert CtxOk(s, fd, s.conns[fd]);
    }
  }

  lemma UndisturbedKeepsLoop(s: State, i: Id, l': Link)
    requires LoopInv(s) && i in s.links && Undisturbed(s.links[i], l')
    ensures LoopInv(s.(links := s.links[i := l']))
  {
  }

  lemma WorkerKeepsWakeInv(s: State, i: Id, m: WorkerMove)
    requires Inv(s) && i in s.links && Enabled(s.links[i], m)
    ensures WakeInv(Step(s, ByWorker(i, m)))
  {
    hide WakeOk;
    hide WorkerMoves;
    hide BodyInv;
    hide WriteInv;
    hide LoopInv;
    hide CtxOk;
    hide Signals;
    hide Enabled;
    var s' := Step(s, ByWorker(i, m));
    forall fd | fd in s'.conns && Linked(s', fd)
      ensures WakeOk(s'.counter, s'.loop, fd, s'.conns[fd].events.out, LinkOf(s', fd))
    {
      if s.conns[fd].io == Some(i) {
        WorkerKeepsWake(s.counter, s.loop, fd, s.conns[fd].events.out, s.links[i], m);
      } else {
        MoreSignalsKeepWake(s.counter, s'.counter, s.loop, fd, s.conns[fd].events.out, LinkOf(s, fd));
      }
    }
  }

  lemma WorkerKeepsInv(s: State, i: Id, m: WorkerMove)
    requires Inv(s) && i in s.links && Enabled(s.links[i], m)
    ensures Inv(Step(s, ByWorker(i, m)))
  {
    var l' := WorkerMoves(s.links[i], m);
    WorkerKeepsBody(s.links[i], m);
    WorkerKeepsWrite(s.links[i], m);
    WorkerUndisturbed(s.links[i], m);
    WorkerKeepsWakeInv(s, i, m);
    hide WorkerMoves;
    hide BodyInv;
    hide WriteInv;
    hide Undisturbed;
    UndisturbedKeepsMap(s, i, l');
    UndisturbedKeepsLinks(s, i, l');
    UndisturbedKeepsCtx(s, i, l');
    UndisturbedKeepsLoop(s, i, l');
    hide OwnerInv;
    hide LinksInv;
    hide CtxOk;
    hide LoopInv;
    hide WakeInv;
    SameButCounter(s.(links := s.links[i := l']), Step(s, ByWorker(i, m)));
  }

  lemma SameButCounter(s: State, s': State)
    requires s'.conns == s.conns && s'.links == s.links && s'.loop == s.loop
    requires MapInv(s) && OwnerInv(s) && LinksInv(s) && CtxInv(s) && LoopInv(s)
    ensures MapInv(s') && OwnerInv(s') && LinksInv(s') && CtxInv(s') && LoopInv(s')
  {
    forall fd | fd in s'.conns
      ensures CtxOk(s', fd, s'.conns[fd])
    {
      assert CtxOk(s, fd, s.conns[fd]);
    }
  }

  // ----- Loop steps: what a step at one connection must show -----

  /** The step changes nothing but fd's entry, fd's link and the program counter. */
  predicate TouchesOnly(s: State, s': State, fd: Fd) {
    && fd in s.conns && fd in s'.conns
    && s'.conns == s.conns[fd := s'.conns[fd]]
    && s'.conns[fd].io == s.conns[fd].io
    && s'.counter == s.counter
    && if Linked(s, fd) then
         Linked(s', fd) && s'.links == s.links[s.conns[fd].io.value := LinkOf(s', fd)]
       else s'.links == s.links
  }

  /** Whatever the loop was going to do for g, it is still going to do. */
  predicate StillServes(loop: Loop, loop': Loop, g: Fd) {
    && (SeesError(loop, g) ==> SeesError(loop', g))
    && (SeesFinished(loop, g) ==> SeesFinished(loop', g))
    && (SeesPending(loop, g) ==> SeesPending(loop', g))
    && (TearingDown(loop, g) ==> TearingDown(loop', g))
    && !((loop.OutPend? || loop.OutFin?) && loop.fd == g)
    && !Sending(loop', g) && !Disarming(loop', g)
  }

  predicate LocalLinkOk(s: State, fd: Fd) {
    Linked(s, fd) ==>
      var l := LinkOf(s, fd);
      && l.owner == Some(fd) && BodyInv(l) && WriteInv(l)
      && (l.inFlight != 0 ==> s.loop.OutAdvance? && s.loop.fd == fd)
      && (l.dropped ==> s.loop.Closing? && s.loop.fd == fd)
      && WakeOk(s.counter, s.loop, fd, s.conns[fd].events.out, l)
  }

  predicate Elsewhere(loop: Loop, fd: Fd) {
    (loop.OutAdvance? || loop.Closing?) ==> loop.fd == fd
  }

  lemma LocalKeepsMap(s: State, s': State, fd: Fd)
    requires MapInv(s) && OwnerInv(s) && TouchesOnly(s, s', fd) && LocalLinkOk(s', fd)
    ensures MapInv(s') && OwnerInv(s')
  {
    hide BodyInv;
    hide WriteInv;
    hide WakeOk;
  }

  lemma LocalKeepsLinks(s: State, s': State, fd: Fd)
    requires MapInv(s) && LinksInv(s) && TouchesOnly(s, s', fd) && LocalLinkOk(s', fd) && Elsewhere(s.loop, fd)
    requires OwnerInv(s)
    ensures LinksInv(s')
  {
    hide BodyInv;
    hide WriteInv;
    hide WakeOk;
  }

  lemma LocalKeepsCtx(s: State, s': State, fd: Fd)
    requires MapInv(s) && CtxInv(s) && TouchesOnly(s, s', fd) && CtxOk(s', fd, s'.conns[fd])
    ensures CtxInv(s')
  {
    forall g | g in s'.conns
      ensures CtxOk(s', g, s'.conns[g])
    {
      if g != fd {
        assert CtxOk(s, g, s.conns[g]);
      }
    }
  }

  lemma ServedKeepsWake(counter: nat, loop: Loop, loop': Loop, g: Fd, out: bool, l: Link)
    requires WakeOk(counter, loop, g, out, l) && StillServes(loop, loop', g)
    ensures WakeOk(counter, loop', g, out, l)
  {
    hide SeesError;
    hide TearingDown;
  }

  lemma LocalKeepsWake(s: State, s': State, fd: Fd)
    requires MapInv(s) && WakeInv(s) && TouchesOnly(s, s', fd) && LocalLinkOk(s', fd)
    requires forall g :: Linked(s, g) && g != fd ==> StillServes(s.loop, s'.loop, g)
    ensures WakeInv(s')
  {
    hide BodyInv;
    hide WriteInv;
    hide WakeOk;
    hide StillServes;
    forall g | g in s'.conns && Linked(s', g)
      ensures WakeOk(s'.counter, s'.loop, g, s'.conns[g].events.out, LinkOf(s', g))
    {
      if g != fd {
        ServedKeepsWake(s.counter, s.loop, s'.loop, g, s.conns[g].events.out, LinkOf(s, g));
      }
    }
  }

  /** A step at fd keeps the invariant if it does so at fd and still serves the others. */
  lemma LocalStep(s: State, s': State, fd: Fd)
    requires Inv(s) && TouchesOnly(s, s', fd) && Elsewhere(s.loop, fd)
    requires LocalLinkOk(s', fd)
    requires CtxOk(s', fd, s'.conns[fd])
    requires LoopInv(s')
    requires forall g :: Linked(s, g) && g != fd ==> StillServes(s.loop, s'.loop, g)
    ensures Inv(s')
  {
    hide TouchesOnly;
    hide LocalLinkOk;
    hide StillServes;
    hide LinksInv;
    hide CtxOk;
    hide MapInv;
    hide OwnerInv;
    LocalKeepsMap(s, s', fd);
    LocalKeepsLinks(s, s', fd);
    LocalKeepsCtx(s, s', fd);
    LocalKeepsWake(s, s', fd);
  }

  /** A step that only moves the program counter between connections. */
  lemma TurnKeepsInv(s: State, loop': Loop)
    requires Inv(s) && !s.loop.OutAdvance? && !s.loop.Closing?
    requires LoopInv(At(s, loop'))
    requires forall g :: Linked(s, g) ==> StillServes(s.loop, loop', g)
    ensures Inv(At(s, loop'))
  {
    hide BodyInv;
    hide WriteInv;
    hide WakeOk;
    hide StillServes;
    hide LoopInv;
    var s' := At(s, loop');
    forall g | g in s'.conns
      ensures CtxOk(s', g, s'.conns[g])
    {
      assert CtxOk(s, g, s.conns[g]);
    }
    forall g | g in s'.conns && Linked(s', g)
      ensures WakeOk(s'.counter, s'.loop, g, s'.conns[g].events.out, LinkOf(s', g))
    {
      ServedKeepsWake(s.counter, s.loop, s'.loop, g, s.conns[g].events.out, LinkOf(s, g));
    }
  }

  /** The loop is busy with fd alone, or with nothing. */
  predicate OnlyAt(loop: Loop, fd: Fd) {
    || loop == AtWait
    || ((loop.InRecv? || loop.InFeed? || loop.InEof? || loop.OutView? || loop.OutEmpty? || loop.OutSend?
         || loop.OutFail? || loop.OutAdvance? || loop.OutPend? || loop.OutFin? || loop.OutIdle?)
        && loop.fd == fd)
    || loop == Closing(fd, 0, ToWait)
  }

  lemma ClientStepServes(loop: Loop, loop': Loop, fd: Fd)
    requires OnlyAt(loop, fd) && OnlyAt(loop', fd)
    ensures forall g :: g != fd ==> StillServes(loop, loop', g)
  {
  }

  lemma AtFd(s: State, fd: Fd)
    requires Inv(s) && fd in s.conns
    ensures LocalLinkOk(s, fd) && CtxOk(s, fd, s.conns[fd])
  {
    hide BodyInv;
    hide WriteInv;
    hide WakeOk;
    assert CtxOk(s, fd, s.conns[fd]);
  }

  // ----- Scan -----

  lemma DecidedLink(l: Link, fate: Fate)
    requires BodyInv(l) && WriteInv(l)
    requires fate == Orderly ==> IsFinished(l.io) && !l.dropped
    ensures BodyInv(l.(fate := fate)) && WriteInv(l.(fate := fate))
  {
    hide CallsOk;
    if l.bodyStarted {
      CallsFrame(l, l.(fate := fate));
    }
  }

  lemma FinishedHasNothingPending(l: Link)
    requires WriteInv(l) && !l.dropped && IsFinished(l.io)
    ensures !l.io.pending && l.sent == l.produced
  {
  }

  lemma ScanTurnKeepsInv(s: State, m: LoopMove)
    requires Inv(s) && s.loop.Scan?
    ensures Inv(ScanMoves(s, m))
  {
    hide BodyInv;
    hide WriteInv;
    hide WakeOk;
    hide CtxOk;
    var s' := ScanMoves(s, m);
    if s' != s {
      TurnKeepsInv(s, s'.loop);
    }
  }

  lemma ScanDecideKeepsInv(s: State, m: LoopMove)
    requires Inv(s) && (s.loop.ScanErr? || s.loop.ScanFinPend?)
    ensures Inv(ScanMoves(s, m))
  {
    hide BodyInv;
    hide WriteInv;
    hide MapInv, OwnerInv, LinksInv, CtxInv, WakeInv;
    var s' := ScanMoves(s, m);
    var fd := s.loop.fd;
    AtFd(s, fd);
    if s.loop.ScanErr? && LinkOf(s, fd).io.writeError {
      DecidedLink(LinkOf(s, fd), Aborted);
    } else if s.loop.ScanFinPend? {
      FinishedHasNothingPending(LinkOf(s, fd));
      DecidedLink(LinkOf(s, fd), Orderly);
    }
    LocalStep(s, s', fd);
  }

  lemma ScanLookKeepsInv(s: State, m: LoopMove)
    requires Inv(s) && (s.loop.ScanFin? || s.loop.ScanPend? || s.loop.ScanArm?)
    ensures Inv(ScanMoves(s, m))
  {
    hide BodyInv;
    hide WriteInv;
    hide MapInv, OwnerInv, LinksInv, CtxInv, WakeInv;
    var s' := ScanMoves(s, m);
    var fd := s.loop.fd;
    AtFd(s, fd);
    LocalStep(s, s', fd);
  }

  // ----- Closing and stopping -----

  lemma FeedErrorLink(l: Link)
    requires BodyInv(l) && WriteInv(l)
    ensures BodyInv(LinkFeedError(l)) && WriteInv(LinkFeedError(l))
  {
    hide CallsOk;
    if l.bodyStarted {
      CallsFrame(l, LinkFeedError(l));
    }
  }

  lemma WriteErrorLink(l: Link)
    requires BodyInv(l) && WriteInv(l) && l.inFlight == 0
    ensures BodyInv(LinkWriteError(l)) && WriteInv(LinkWriteError(l))
  {
    hide CallsOk;
    if l.bodyStarted {
      CallsFrame(l, LinkWriteError(l));
    }
  }

  lemma CloseStageKeepsInv(s: State)
    requires Inv(s) && s.loop.Closing? && s.loop.stage <= 2
    requires s.loop.stage >= 1 ==> Linked(s, s.loop.fd)
    ensures Inv(CloseMoves(s, s.loop.fd, s.loop.stage, s.loop.next))
  {
    hide BodyInv;
    hide WriteInv;
    hide MapInv, OwnerInv, LinksInv, CtxInv, WakeInv;
    var s' := CloseMoves(s, s.loop.fd, s.loop.stage, s.loop.next);
    var fd := s.loop.fd;
    AtFd(s, fd);
    if s.loop.stage == 1 {
      FeedErrorLink(LinkOf(s, fd));
    } else if s.loop.stage == 2 {
      WriteErrorLink(LinkOf(s, fd));
    }
    LocalStep(s, s', fd);
  }

  /** The last stage: fd leaves the map, with both error flags of its link set. */
  predicate Removes(s: State, s': State, fd: Fd) {
    && fd in s.conns && s'.conns == s.conns - {fd} && s'.counter == s.counter
    && if Linked(s, fd) then
         && Released(LinkOf(s, fd))
         && s'.links == s.links[s.conns[fd].io.value := LinkOf(s, fd).(owner := None)]
       else s'.links == s.links
  }

  lemma DisownedLink(l: Link)
    requires BodyInv(l) && WriteInv(l)
    ensures BodyInv(l.(owner := None)) && WriteInv(l.(owner := None))
  {
    hide CallsOk;
    if l.bodyStarted {
      CallsFrame(l, l.(owner := None));
    }
  }

  lemma RemovalKeepsMap(s: State, s': State, fd: Fd)
    requires Inv(s) && Removes(s, s', fd) && s.loop.Closing? && s.loop.fd == fd
    ensures MapInv(s') && OwnerInv(s')
  {
    hide BodyInv;
    hide WriteInv;
    hide WakeOk;
    hide CtxOk;
  }

  lemma RemovalKeepsLinks(s: State, s': State, fd: Fd)
    requires Inv(s) && Removes(s, s', fd) && s.loop.Closing? && s.loop.fd == fd
    ensures LinksInv(s')
  {
    if Linked(s, fd) {
      DisownedLink(LinkOf(s, fd));
    }
    hide BodyInv;
    hide WriteInv;
    hide WakeOk;
    hide CtxOk;
    hide LoopInv;
  }

  /** The other connections are as before. */
  lemma RemovalKeepsOthers(s: State, s': State, fd: Fd, g: Fd)
    requires Inv(s) && Removes(s, s', fd) && s.loop.Closing? && s.loop.fd == fd && g in s'.conns
    ensures g in s.conns && s'.conns[g] == s.conns[g] && (Linked(s', g) <==> Linked(s, g))
    ensures Linked(s, g) ==> LinkOf(s', g) == LinkOf(s, g)
  {
    hide LinksInv, CtxInv, LoopInv, WakeInv, Released;
  }

  lemma RemovalKeepsCtx(s: State, s': State, fd: Fd)
    requires Inv(s) && Removes(s, s', fd) && s.loop.Closing? && s.loop.fd == fd
    ensures CtxInv(s')
  {
    forall g | g in s'.conns
      ensures CtxOk(s', g, s'.conns[g])
    {
      RemovalKeepsOthers(s, s', fd, g);
      assert CtxOk(s, g, s.conns[g]);
    }
  }

  lemma RemovalKeepsWake(s: State, s': State, fd: Fd)
    requires Inv(s) && Removes(s, s', fd) && s.loop.Closing? && s.loop.fd == fd
    requires forall g :: Linked(s, g) && g != fd ==> StillServes(s.loop, s'.loop, g)
    ensures WakeInv(s')
  {
    hide LinksInv, CtxInv, LoopInv, MapInv, OwnerInv, Linked, LinkOf, WakeOk, StillServes;
    forall g | g in s'.conns && Linked(s', g)
      ensures WakeOk(s'.counter, s'.loop, g, s'.conns[g].events.out, LinkOf(s', g))
    {
      RemovalKeepsOthers(s, s', fd, g);
      ServedKeepsWake(s.counter, s.loop, s'.loop, g, s.conns[g].events.out, LinkOf(s, g));
    }
  }

  lemma RemovalKeepsInv(s: State, s': State, fd: Fd)
    requires Inv(s) && Removes(s, s', fd) && s.loop.Closing? && s.loop.fd == fd
    requires LoopInv(s') && forall g :: Linked(s, g) && g != fd ==> StillServes(s.loop, s'.loop, g)
    ensures Inv(s')
  {
    hide MapInv, OwnerInv, LinksInv, CtxInv, LoopInv, WakeInv, Removes, StillServes;
    RemovalKeepsMap(s, s', fd);
    RemovalKeepsLinks(s, s', fd);
    RemovalKeepsCtx(s, s', fd);
    RemovalKeepsWake(s, s', fd);
  }

  lemma CloseEndKeepsInv(s: State)
    requires Inv(s) && s.loop.Closing?
    requires s.loop.stage >= 3 || (s.loop.stage >= 1 && !Linked(s, s.loop.fd))
    ensures Inv(CloseMoves(s, s.loop.fd, s.loop.stage, s.loop.next))
  {
    hide BodyInv;
    hide WriteInv;
    hide WakeOk;
    hide CtxOk;
    RemovalKeepsInv(s, CloseMoves(s, s.loop.fd, s.loop.stage, s.loop.next), s.loop.fd);
  }

  // ----- EPOLLOUT -----

  lemma PendingView(l: Link)
    requires WriteInv(l) && !l.dropped && l.inFlight == 0
    ensures PendingWriteData(l.io) != "" <==> l.io.pending
    ensures l.io.pending ==> !IsFinished(l.io)
    ensures l.worker.Erring? ==> l.io.writeError
  {
  }

  lemma SentLink(l: Link, n: nat)
    requires BodyInv(l) && WriteInv(l) && !l.dropped && l.inFlight == 0
    requires PendingWriteData(l.io) != "" && n <= |PendingWriteData(l.io)|
    ensures var l' := l.(sent := l.sent + PendingWriteData(l.io)[..n], inFlight := n);
      BodyInv(l') && WriteInv(l')
  {
    hide CallsOk;
    var view := PendingWriteData(l.io);
    var l' := l.(sent := l.sent + view[..n], inFlight := n);
    assert view == view[..n] + view[n..];
    assert l.io.buffer[l.io.cursor + n..] == view[n..];
    if l.bodyStarted {
      CallsFrame(l, l');
    }
  }

  lemma AdvancedLink(l: Link)
    requires BodyInv(l) && WriteInv(l) && !l.dropped && PendingWriteData(l.io) != ""
    ensures BodyInv(LinkAdvanced(l, l.inFlight)) && WriteInv(LinkAdvanced(l, l.inFlight))
  {
    hide CallsOk;
    if l.bodyStarted {
      CallsFrame(l, LinkAdvanced(l, l.inFlight));
    }
  }

  lemma OutLookKeepsInv(s: State, m: LoopMove)
    requires Inv(s) && (s.loop.OutView? || s.loop.OutPend? || s.loop.OutIdle?)
    ensures Inv(OutMoves(s, m))
  {
    hide BodyInv;
    hide WriteInv;
    hide MapInv, OwnerInv, LinksInv, CtxInv, WakeInv;
    hide StillServes;
    var s' := OutMoves(s, m);
    var fd := s.loop.fd;
    AtFd(s, fd);
    PendingView(LinkOf(s, fd));
    ClientStepServes(s.loop, s'.loop, fd);
    LocalStep(s, s', fd);
  }

  lemma OutCheckKeepsInv(s: State, m: LoopMove)
    requires Inv(s) && (s.loop.OutEmpty? || s.loop.OutFin?)
    ensures Inv(OutMoves(s, m))
  {
    hide BodyInv;
    hide WriteInv;
    hide MapInv, OwnerInv, LinksInv, CtxInv, WakeInv;
    hide StillServes;
    var s' := OutMoves(s, m);
    var fd := s.loop.fd;
    AtFd(s, fd);
    if IsFinished(LinkOf(s, fd).io) {
      DecidedLink(LinkOf(s, fd), Orderly);
    }
    ClientStepServes(s.loop, s'.loop, fd);
    LocalStep(s, s', fd);
  }

  lemma OutSendKeepsInv(s: State, m: LoopMove)
    requires Inv(s) && s.loop.OutSend?
    ensures Inv(OutMoves(s, m))
  {
    hide BodyInv;
    hide WriteInv;
    hide MapInv, OwnerInv, LinksInv, CtxInv, WakeInv;
    hide StillServes;
    var s' := OutMoves(s, m);
    var fd := s.loop.fd;
    AtFd(s, fd);
    if m.Sent? && m.n <= |s.loop.view| {
      SentLink(LinkOf(s, fd), m.n);
    }
    if s' != s {
      ClientStepServes(s.loop, s'.loop, fd);
      LocalStep(s, s', fd);
    }
  }

  lemma OutAdvanceKeepsInv(s: State, m: LoopMove)
    requires Inv(s) && s.loop.OutAdvance?
    ensures Inv(OutMoves(s, m))
  {
    hide BodyInv;
    hide WriteInv;
    hide MapInv, OwnerInv, LinksInv, CtxInv, WakeInv;
    hide StillServes;
    var s' := OutMoves(s, m);
    var fd := s.loop.fd;
    AtFd(s, fd);
    AdvancedLink(LinkOf(s, fd));
    ClientStepServes(s.loop, s'.loop, fd);
    LocalStep(s, s', fd);
  }

  lemma OutFailKeepsInv(s: State, m: LoopMove)
    requires Inv(s) && s.loop.OutFail?
    ensures Inv(OutMoves(s, m))
  {
    hide BodyInv;
    hide WriteInv;
    hide MapInv, OwnerInv, LinksInv, CtxInv, WakeInv;
    hide StillServes;
    var s' := OutMoves(s, m);
    var fd := s.loop.fd;
    AtFd(s, fd);
    WriteErrorLink(LinkOf(s, fd));
    DecidedLink(LinkWriteError(LinkOf(s, fd)), Aborted);
    ClientStepServes(s.loop, s'.loop, fd);
    LocalStep(s, s', fd);
  }

  // ----- EPOLLIN -----

  /** The first blank line stays the first one however much more arrives. */
  lemma {:induction false} HeaderEndIsStable(s: string, t: string, from: nat)
    requires FindHeaderEnd(s, from).Some?
    ensures FindHeaderEnd(s + t, from) == FindHeaderEnd(s, from)
    decreases |s| - from
  {
    assert (s + t)[from..from + 4] == s[from..from + 4];
    if s[from..from + 4] != "\r\n\r\n" {
      HeaderEndIsStable(s, t, from + 1);
    }
  }

  lemma SameSlice(s: string, t: string, i: nat, j: nat)
    requires i <= j <= |s|
    ensures (s + t)[i..j] == s[i..j] && (s + t)[..j] == s[..j]
  {
  }

  lemma MoreBody(l: Link, data: string)
    requires BodyInv(l) && WriteInv(l)
    ensures BodyInv(l.(body := l.body + data)) && WriteInv(l.(body := l.body + data))
  {
    hide CallsOk, ReadReady, WriteReady, IsFinished;
    SameSlice(l.body, data, 0, |l.io.prefix|);
    SameSlice(l.body, data, l.consumed + l.discarded, l.io.fed);
    if l.bodyStarted {
      CallsFrame(l, l.(body := l.body + data));
    }
  }

  lemma FedLink(l: Link, data: string, n: nat, eof: bool)
    requires BodyInv(l) && WriteInv(l) && l.io.fed == |l.body|
    requires n <= |data| && l.io.fed + n <= l.io.contentLength
    ensures var l' := LinkFed(l, data[..n], eof).(body := l.body + data);
      BodyInv(l') && WriteInv(l')
  {
    hide CallsOk;
    var l' := LinkFed(l, data[..n], eof).(body := l.body + data);
    assert l'.body[l.consumed + l.discarded..l.io.fed] == l.io.chunk;
    assert l'.body[l.io.fed..l.io.fed + n] == data[..n];
    if l.bodyStarted {
      CallsFrame(l, l');
    }
  }

  lemma EofLink(l: Link)
    requires BodyInv(l) && WriteInv(l)
    ensures BodyInv(LinkFed(l, "", true)) && WriteInv(LinkFed(l, "", true))
  {
    hide CallsOk;
    assert l.io.chunk + "" == l.io.chunk;
    if l.bodyStarted {
      CallsFrame(l, LinkFed(l, "", true));
    }
  }

  lemma FeedKeepsInv(s: State, m: LoopMove)
    requires Inv(s) && s.loop.InFeed?
    ensures Inv(InMoves(s, m))
  {
    hide BodyInv;
    hide WriteInv;
    hide StillServes;
    hide MapInv, OwnerInv, LinksInv, CtxInv, WakeInv;
    var s' := InMoves(s, m);
    var fd, data := s.loop.fd, s.loop.data;
    AtFd(s, fd);
    var l := LinkOf(s, fd);
    var (n, eof) := ToFeed(l.io.contentLength, s.loop.received, |data|);
    FedLink(l, data, n, eof);
    HeaderEndIsStable(s.conns[fd].stream, data, 0);
    assert l.header + l.body + data == l.header + (l.body + data);
    ClientStepServes(s.loop, s'.loop, fd);
    LocalStep(s, s', fd);
  }

  lemma EofKeepsInv(s: State, m: LoopMove)
    requires Inv(s) && s.loop.InEof?
    ensures Inv(InMoves(s, m))
  {
    hide BodyInv;
    hide WriteInv;
    hide StillServes;
    hide MapInv, OwnerInv, LinksInv, CtxInv, WakeInv;
    var s' := InMoves(s, m);
    var fd := s.loop.fd;
    AtFd(s, fd);
    EofLink(LinkOf(s, fd));
    ClientStepServes(s.loop, s'.loop, fd);
    LocalStep(s, s', fd);
  }

  lemma NewLinkOk(header: string, body: string, contentLength: nat, fd: Fd)
    ensures BodyInv(NewLink(header, body, contentLength, fd))
    ensures WriteInv(NewLink(header, body, contentLength, fd))
  {
  }

  /** A fresh link is put under fd, which had none. */
  predicate Adds(s: State, s': State, fd: Fd, id: Id) {
    && fd in s.conns && s.conns[fd].io.None? && id !in s.links
    && fd in s'.conns && s'.conns == s.conns[fd := s'.conns[fd]] && s'.conns[fd].io == Some(id)
    && id in s'.links && s'.links == s.links[id := s'.links[id]]
    && s'.links[id].owner == Some(fd)
    && s'.counter == s.counter
  }

  lemma AddedKeepsMap(s: State, s': State, fd: Fd, id: Id)
    requires MapInv(s) && OwnerInv(s) && Adds(s, s', fd, id)
    ensures MapInv(s') && OwnerInv(s')
  {
  }

  lemma AddedKeepsLinks(s: State, s': State, fd: Fd, id: Id)
    requires LinksInv(s) && Adds(s, s', fd, id) && !s.loop.OutAdvance? && !s.loop.Closing?
    requires BodyInv(s'.links[id]) && WriteInv(s'.links[id])
    requires s'.links[id].inFlight == 0 && !s'.links[id].dropped
    ensures LinksInv(s')
  {
    hide BodyInv;
    hide WriteInv;
  }

  lemma AddedKeepsCtx(s: State, s': State, fd: Fd, id: Id)
    requires MapInv(s) && CtxInv(s) && Adds(s, s', fd, id) && CtxOk(s', fd, s'.conns[fd])
    ensures CtxInv(s')
  {
    forall g | g in s'.conns
      ensures CtxOk(s', g, s'.conns[g])
    {
      if g != fd {
        assert CtxOk(s, g, s.conns[g]);
      }
    }
  }

  lemma AddedKeepsWake(s: State, s': State, fd: Fd, id: Id)
    requires MapInv(s) && WakeInv(s) && Adds(s, s', fd, id)
    requires s'.loop == AtWait || s'.loop == OutView(fd)
    requires var io := s'.links[id].io; !io.writeError && !io.pending && !io.finished
    requires forall g :: g != fd ==> StillServes(s.loop, s'.loop, g)
    ensures WakeInv(s')
  {
    hide WakeOk;
    hide StillServes;
    forall g | g in s'.conns && Linked(s', g)
      ensures WakeOk(s'.counter, s'.loop, g, s'.conns[g].events.out, LinkOf(s', g))
    {
      if g != fd {
        ServedKeepsWake(s.counter, s.loop, s'.loop, g, s.conns[g].events.out, LinkOf(s, g));
      } else {
        NewLinkNeedsNothing(s', fd);
      }
    }
  }

  lemma DispatchKeepsInv(s: State, fd: Fd, buf: string, end: nat, id: Id, contentLength: nat, out: bool)
    requires Inv(s) && s.loop == InRecv(fd, out) && s.conns[fd].io.None? && id !in s.links
    requires FindHeaderEnd(buf) == Some(end)
    ensures Inv(Dispatch(s, fd, buf, end, id, contentLength, out))
  {
    hide BodyInv;
    hide WriteInv;
    hide StillServes;
    hide MapInv, OwnerInv, LinksInv, CtxInv, WakeInv;
    var s' := Dispatch(s, fd, buf, end, id, contentLength, out);
    NewLinkOk(buf[..end], buf[end..], contentLength, fd);
    assert buf[..end] + buf[end..] == buf;
    assert CtxOk(s', fd, s'.conns[fd]);
    ClientStepServes(s.loop, s'.loop, fd);
    AddedKeepsMap(s, s', fd, id);
    AddedKeepsLinks(s, s', fd, id);
    AddedKeepsCtx(s, s', fd, id);
    AddedKeepsWake(s, s', fd, id);
  }

  lemma NewLinkNeedsNothing(s: State, fd: Fd)
    requires Linked(s, fd) && (s.loop == AtWait || s.loop == OutView(fd))
    requires var io := LinkOf(s, fd).io; !io.writeError && !io.pending && !io.finished
    ensures WakeOk(s.counter, s.loop, fd, s.conns[fd].events.out, LinkOf(s, fd))
  {
  }

  lemma BytesKeepInv(s: State, data: string, id: Id, contentLength: nat)
    requires Inv(s) && s.loop.InRecv? && id !in s.links
    ensures Inv(ReceiveBytes(s, s.loop.fd, s.loop.out, data, id, contentLength))
  {
    hide BodyInv;
    hide WriteInv;
    hide StillServes;
    hide MapInv, OwnerInv, LinksInv, CtxInv, WakeInv;
    var fd := s.loop.fd;
    var s' := ReceiveBytes(s, fd, s.loop.out, data, id, contentLength);
    var ctx := s.conns[fd];
    AtFd(s, fd);
    if ctx.io.None? {
      var buf := ctx.headerBuf + data;
      var end := FindHeaderEnd(buf);
      if |buf| <= MAX_HEADER_SIZE && end.Some? {
        DispatchKeepsInv(s, fd, buf, end.value, id, contentLength, s.loop.out);
        return;
      }
    } else if ctx.bodyComplete {
      MoreBody(LinkOf(s, fd), data);
      HeaderEndIsStable(ctx.stream, data, 0);
      assert LinkOf(s, fd).header + LinkOf(s, fd).body + data == LinkOf(s, fd).header + (LinkOf(s, fd).body + data);
    }
    ClientStepServes(s.loop, s'.loop, fd);
    LocalStep(s, s', fd);
  }

  lemma RecvKeepsInv(s: State, m: LoopMove)
    requires Inv(s) && s.loop.InRecv?
    ensures Inv(InMoves(s, m))
  {
    hide BodyInv;
    hide WriteInv;
    hide StillServes;
    hide MapInv, OwnerInv, LinksInv, CtxInv, WakeInv;
    hide ReceiveBytes;
    var s' := InMoves(s, m);
    var fd := s.loop.fd;
    AtFd(s, fd);
    if s' == s {
    } else if m.what.Bytes? {
      BytesKeepInv(s, m.what.data, m.id, m.contentLength);
    } else {
      if Linked(s, fd) {
        DecidedLink(LinkOf(s, fd), Aborted);
      }
      ClientStepServes(s.loop, s'.loop, fd);
      LocalStep(s, s', fd);
    }
  }

  // ----- Waiting and stopping -----

  lemma NotifiedKeepsInv(s: State)
    requires Inv(s) && s.loop == AtWait
    ensures Inv(WaitMoves(s, Notified))
  {
    hide BodyInv;
    hide WriteInv;
    var s' := WaitMoves(s, Notified);
    forall g | g in s'.conns
      ensures CtxOk(s', g, s'.conns[g])
    {
      assert CtxOk(s, g, s.conns[g]);
    }
  }

  lemma AcceptKeepsInv(s: State, fd: Fd)
    requires Inv(s) && s.loop == AtWait
    ensures Inv(WaitMoves(s, Accept(fd)))
  {
    hide BodyInv;
    hide WriteInv;
    hide WakeOk;
    var s' := WaitMoves(s, Accept(fd));
    forall g | g in s'.conns
      ensures CtxOk(s', g, s'.conns[g])
    {
      if g in s.conns {
        assert CtxOk(s, g, s.conns[g]);
      }
    }
  }

  lemma EventKeepsInv(s: State, m: LoopMove)
    requires Inv(s) && s.loop == AtWait && m.Event?
    ensures Inv(WaitMoves(s, m))
  {
    hide BodyInv;
    hide WriteInv;
    hide StillServes;
    hide MapInv, OwnerInv, LinksInv, CtxInv, WakeInv;
    var s' := WaitMoves(s, m);
    var fd := m.fd;
    if fd in s.conns {
      AtFd(s, fd);
      if Linked(s, fd) {
        DecidedLink(LinkOf(s, fd), Aborted);
      }
      ClientStepServes(s.loop, s'.loop, fd);
      LocalStep(s, s', fd);
    }
  }

  lemma ShutdownKeepsInv(s: State)
    requires Inv(s) && s.loop == AtWait
    ensures Inv(WaitMoves(s, Shutdown))
  {
    hide BodyInv;
    hide WriteInv;
    hide WakeOk;
    TurnKeepsInv(s, Stopping(s.conns.Keys));
  }

  lemma PickKeepsInv(s: State, m: LoopMove)
    requires Inv(s) && (s.loop.ScanClose? || s.loop.Stopping?)
    ensures Inv(LoopMoves(s, m))
  {
    hide BodyInv;
    hide WriteInv;
    hide MapInv, OwnerInv, LinksInv, CtxInv, WakeInv;
    var s' := LoopMoves(s, m);
    if s.loop.ScanClose? && s.loop.doomed == {} {
      TurnKeepsInv(s, AtWait);
    } else if s.loop.Stopping? && s.loop.left == {} {
      TurnKeepsInv(s, Stopped);
    } else if s' != s {
      AtFd(s, m.fd);
      if Linked(s, m.fd) {
        DecidedLink(LinkOf(s, m.fd), Aborted);
      }
      LocalStep(s, s', m.fd);
    }
  }

  // ----- All steps -----

  lemma LoopKeepsInv(s: State, m: LoopMove)
    requires Inv(s)
    ensures Inv(LoopMoves(s, m))
  {
    hide Inv;
    match s.loop
    case AtWait =>
      match m {
        case Notified => NotifiedKeepsInv(s);
        case Accept(fd) => AcceptKeepsInv(s, fd);
        case Event(_, _, _, _) => EventKeepsInv(s, m);
        case Shutdown => ShutdownKeepsInv(s);
        case _ =>
      }
    case Scan(_, _) => ScanTurnKeepsInv(s, m);
    case ScanErr(_, _, _) => ScanDecideKeepsInv(s, m);
    case ScanFin(_, _, _) => ScanLookKeepsInv(s, m);
    case ScanFinPend(_, _, _) => ScanDecideKeepsInv(s, m);
    case ScanPend(_, _, _) => ScanLookKeepsInv(s, m);
    case ScanArm(_, _, _) => ScanLookKeepsInv(s, m);
    case ScanClose(_) => PickKeepsInv(s, m);
    case Closing(fd, stage, next) =>
      if stage == 0 || (stage <= 2 && Linked(s, fd)) { CloseStageKeepsInv(s); } else { CloseEndKeepsInv(s); }
    case InRecv(_, _) => RecvKeepsInv(s, m);
    case InFeed(_, _, _, _) => FeedKeepsInv(s, m);
    case InEof(_, _) => EofKeepsInv(s, m);
    case OutView(_) => OutLookKeepsInv(s, m);
    case OutEmpty(_) => OutCheckKeepsInv(s, m);
    case OutSend(_, _) => OutSendKeepsInv(s, m);
    case OutFail(_) => OutFailKeepsInv(s, m);
    case OutAdvance(_, _, _) => OutAdvanceKeepsInv(s, m);
    case OutPend(_) => OutLookKeepsInv(s, m);
    case OutFin(_) => OutCheckKeepsInv(s, m);
    case OutIdle(_) => OutLookKeepsInv(s, m);
    case Stopping(_) => PickKeepsInv(s, m);
    case Stopped =>
  }

  lemma {:induction false} RunKeepsInv(schedule: seq<Action>)
    ensures Inv(Run(schedule))
  {
    if schedule != [] {
      var before := Run(schedule[..|schedule| - 1]);
      var a := schedule[|schedule| - 1];
      RunKeepsInv(schedule[..|schedule| - 1]);
      if a.ByLoop? {
        LoopKeepsInv(before, a.move);
      } else if a.id in before.links && Enabled(before.links[a.id], a.what) {
        WorkerKeepsInv(before, a.id, a.what);
      }
    }
  }
}

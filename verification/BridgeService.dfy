/** What the workers get done, and a request from its first byte to the close of its connection. */
module BridgeService {
  import opened Common
  import opened ConnectionIo
  import opened Bridge
  import opened BridgeInvariant
  import opened BridgeSteps
  import opened BridgeTheorems
  import opened BridgeProgress
  import opened BridgeInput

  lemma RunTwo(schedule: seq<Action>, a: Action, b: Action)
    ensures Run(schedule + [a, b]) == Step(Step(Run(schedule), a), b)
  {
    hide Step, Run;
    assert schedule + [a, b] == schedule + [a] + [b];
    RunOne(schedule, a);
    RunOne(schedule + [a], b);
  }

  /** Nothing but worker i and perhaps the eventfd has moved. */
  predicate OnlyWorker(s: State, s': State, i: Id) {
    i in s.links && i in s'.links && s' == s.(links := s.links[i := s'.links[i]], counter := s'.counter)
  }

  function Writes(i: Id, data: string): seq<Action> {
    [ByWorker(i, BeginWrite(data)), ByWorker(i, TryWrite)]
  }

  /** writeData into an empty buffer takes all of the data and signals the loop. */
  lemma WriteIsTaken(schedule: seq<Action>, i: Id, data: string)
    requires i in Run(schedule).links && data != ""
    requires var l := Run(schedule).links[i]; l.worker == Running && l.io.buffer == "" && !l.io.writeError
    ensures var s := Run(schedule); var l := s.links[i]; var s' := Run(schedule + Writes(i, data));
      && OnlyWorker(s, s', i) && s'.counter > 0
      && s'.links[i] == l.(io := l.io.(buffer := data, cursor := 0, pending := true), produced := l.produced + data)
  {
    RunTwo(schedule, ByWorker(i, BeginWrite(data)), ByWorker(i, TryWrite));
    hide Run, LoopMoves;
  }

  /** writeData into a buffer that is not empty puts the worker to sleep, and nothing else happens. */
  lemma WriteBlocks(schedule: seq<Action>, i: Id, data: string)
    requires i in Run(schedule).links && data != ""
    requires var l := Run(schedule).links[i]; l.worker == Running && l.io.buffer != "" && !l.io.writeError
    ensures var s := Run(schedule);
      Run(schedule + Writes(i, data)) == s.(links := s.links[i := s.links[i].(worker := Writing(data, true))])
  {
    RunTwo(schedule, ByWorker(i, BeginWrite(data)), ByWorker(i, TryWrite));
    hide Run, LoopMoves;
  }

  function ReadSize(l: Link): nat {
    if l.consumed < l.io.contentLength then Min(l.io.contentLength - l.consumed, BODY_CHUNK_SIZE) else 0
  }

  /** The link behind one round of the body loop: the next slice goes to the filter, marked if it is the last. */
  predicate PassedOn(l: Link, l': Link) {
    var to := l.consumed + ReadSize(l);
    && to <= |l.body| && l'.consumed == to && l'.worker == Running
    && l'.calls == l.calls + [Call(l.body[l.consumed..to], to == l.io.contentLength)]
  }

  lemma ReadsOn(l: Link)
    requires BodyInv(l) && l.worker == Running && l.consumed < l.io.contentLength
    requires l.bodyStarted && l.io.fed >= l.consumed + ReadSize(l) && !DropsBytes(l.io, ReadSize(l))
    ensures ReadReady(l.io, ReadSize(l)) && PassedOn(l, AfterRead(l, ReadSize(l)))
  {
    hide CallsOk;
    assert l.body[l.consumed..l.io.fed][..ReadSize(l)] == l.body[l.consumed..l.consumed + ReadSize(l)];
  }

  lemma ReadSteps(s: State, i: Id)
    requires i in s.links
    requires var l := s.links[i];
      l.worker == Running && l.bodyStarted && l.consumed < l.io.contentLength && ReadReady(l.io, ReadSize(l))
    ensures Step(Step(s, ByWorker(i, BeginRead)), ByWorker(i, TryRead))
            == s.(links := s.links[i := AfterRead(s.links[i].(worker := Reading(ReadSize(s.links[i]), false)),
                                                  ReadSize(s.links[i]))])
  {
    hide LoopMoves, ReadReady, AfterRead;
  }

  lemma WorkerIsReplaced(l: Link, want: nat)
    ensures AfterRead(l.(worker := Reading(want, false)), want) == AfterRead(l, want)
  {
  }

  /** One round of the body loop, once enough has arrived, and unless it is a read that loses what it takes. */
  lemma BodyIsPassedOn(schedule: seq<Action>, i: Id)
    requires i in Run(schedule).links
    requires var l := Run(schedule).links[i];
      l.worker == Running && l.bodyStarted && l.consumed < l.io.contentLength
    requires var l := Run(schedule).links[i]; l.io.fed >= l.consumed + ReadSize(l) && !DropsBytes(l.io, ReadSize(l))
    ensures var s := Run(schedule); var s' := Run(schedule + [ByWorker(i, BeginRead), ByWorker(i, TryRead)]);
      OnlyWorker(s, s', i) && s'.counter == s.counter && PassedOn(s.links[i], s'.links[i])
  {
    RunTwo(schedule, ByWorker(i, BeginRead), ByWorker(i, TryRead));
    RunKeepsInv(schedule);
    var l := Run(schedule).links[i];
    assert BodyInv(l);
    hide Run, LoopMoves, Inv, Step, BodyInv, ReadReady, AfterRead, DropsBytes;
    ReadsOn(l);
    ReadSteps(Run(schedule), i);
    WorkerIsReplaced(l, ReadSize(l));
  }

  /** Before the first round, the prefix goes to the filter if there is any. */
  lemma PrefixIsPassedOn(schedule: seq<Action>, i: Id)
    requires i in Run(schedule).links
    requires var l := Run(schedule).links[i]; l.worker == Running && !l.bodyStarted && l.io.contentLength > 0
    ensures var s := Run(schedule); var l := s.links[i];
      var prefix := if l.io.prefix == "" then [] else [Call(l.io.prefix, |l.io.prefix| == l.io.contentLength)];
      Run(schedule + [ByWorker(i, PassPrefix)])
      == s.(links := s.links[i := l.(bodyStarted := true, calls := prefix)])
  {
    RunOne(schedule, ByWorker(i, PassPrefix));
    RunKeepsInv(schedule);
    assert BodyInv(Run(schedule).links[i]);
    hide Run, LoopMoves, Inv;
  }

  lemma WorkerStarts(schedule: seq<Action>, i: Id)
    requires i in Run(schedule).links && Run(schedule).links[i].worker == Queued
    ensures var s := Run(schedule);
      Run(schedule + [ByWorker(i, Start)]) == s.(links := s.links[i := s.links[i].(worker := Running)])
  {
    RunOne(schedule, ByWorker(i, Start));
    hide Run, LoopMoves;
  }

  /** finish ends the worker, and signals the loop. */
  lemma FinishIsSeen(schedule: seq<Action>, i: Id)
    requires i in Run(schedule).links && Run(schedule).links[i].worker == Running
    ensures var s := Run(schedule); var s' := Run(schedule + [ByWorker(i, CallFinish)]);
      && OnlyWorker(s, s', i) && s'.counter > 0
      && s'.links[i] == s.links[i].(io := s.links[i].io.(finished := true), worker := Done)
  {
    RunOne(schedule, ByWorker(i, CallFinish));
    hide Run, LoopMoves;
  }

  /** A worker that gives up raises both flags and then signals the loop. */
  lemma FailureIsSeen(schedule: seq<Action>, i: Id)
    requires i in Run(schedule).links && Run(schedule).links[i].worker.Failing?
    ensures var s := Run(schedule); var s' := Run(schedule + [ByWorker(i, RaiseFlags), ByWorker(i, RaiseSignal)]);
      && OnlyWorker(s, s', i) && s'.counter > 0
      && s'.links[i] == s.links[i].(io := s.links[i].io.(writeError := true, finished := true), worker := Done)
  {
    RunTwo(schedule, ByWorker(i, RaiseFlags), ByWorker(i, RaiseSignal));
    hide Run, LoopMoves;
  }

  // ----- A whole request -----

  /** The server is idle, and all its connections are closed. */
  predicate Idle(s: State) {
    s.loop == AtWait && s.conns == map[]
  }

  lemma AcceptedReadsHead(schedule: seq<Action>, fd: Fd)
    requires Idle(Run(schedule))
    ensures var s := Run(schedule); var s' := Run(schedule + [ByLoop(Accept(fd))]);
      ReadingHead(s', fd) && s'.conns[fd].stream == "" && s'.conns.Keys == {fd} && s'.links == s.links
  {
    RunOne(schedule, ByLoop(Accept(fd)));
    hide Run, WorkerMoves, ScanMoves, InMoves, OutMoves, CloseMoves;
  }

  /** The worker of a dispatched request writes this text and finishes. */
  function Answers(id: Id, text: string): seq<Action> {
    [ByWorker(id, Start)] + Writes(id, text) + [ByWorker(id, CallFinish)]
  }

  /** The text is in the buffer, and the worker has called finish. */
  predicate Answered(s: State, fd: Fd, id: Id, text: string) {
    && s.loop == AtWait && s.conns.Keys == {fd} && s.conns[fd].io == Some(id) && id in s.links
    && var l := s.links[id];
    && l.produced == text && l.sent == "" && l.io.finished && !l.io.writeError
  }

  lemma AnswerIsBuffered(schedule: seq<Action>, fd: Fd, id: Id, stream: string, k: nat, contentLength: nat,
                         text: string)
    requires Dispatched(Run(schedule), fd, id, stream, k, contentLength) && Run(schedule).conns.Keys == {fd}
    requires Run(schedule).loop == AtWait && text != ""
    ensures var s' := Run(schedule + Answers(id, text));
      Answered(s', fd, id, text)
  {
    var started := schedule + [ByWorker(id, Start)];
    var written := started + Writes(id, text);
    assert schedule + Answers(id, text) == written + [ByWorker(id, CallFinish)];
    hide Run, Writes;
    WorkerStarts(schedule, id);
    WriteIsTaken(started, id, text);
    FinishIsSeen(written, id);
    assert "" + text == text;
  }

  /** The signal is seen, EPOLLOUT is armed and reported, everything is sent, and the connection is closed. */
  function Serves(fd: Fd, text: string): seq<LoopMove> {
    Scans(fd) + CHECKS + CHECKS + Ends(fd, |text|)
  }

  lemma ScanIsOver(schedule: seq<Action>)
    requires Run(schedule).loop == Scan({}, {})
    ensures Run(schedule + Loops(CHECKS)) == At(Run(schedule), AtWait)
  {
    RunOn(schedule, CHECKS);
    AfterTwo(Run(schedule), Go, Go);
    hide Run, After, InMoves, OutMoves, CloseMoves, WaitMoves;
  }

  lemma AnswerIsServed(schedule: seq<Action>, fd: Fd, id: Id, text: string)
    requires Answered(Run(schedule), fd, id, text) && text != ""
    ensures Closed(Run(schedule + Loops(Serves(fd, text))), fd, id, text, text, Orderly)
  {
    hide Run, Loops, Closed, Ends, Scans;
    SignalArmsOutput(schedule, fd);
    var armed := schedule + Loops(Scans(fd) + CHECKS);
    assert Run(schedule).conns.Keys - {fd} == {};
    ScanIsOver(armed);
    var waiting := armed + Loops(CHECKS);
    FinishedIsServed(waiting, fd);
    LoopsBoth(Scans(fd) + CHECKS, CHECKS);
    LoopsBoth(Scans(fd) + CHECKS + CHECKS, Ends(fd, |text|));
    assert schedule + Loops(Serves(fd, text)) == waiting + Loops(Ends(fd, |text|));
  }

  /** The whole life of a request: accepted, read in any pieces, answered with any text, sent and closed. */
  function Life(fd: Fd, pieces: seq<string>, last: string, id: Id, contentLength: nat, text: string): seq<Action> {
    [ByLoop(Accept(fd))] + Loops(Arrivals(fd, pieces + [last], id, contentLength)) + Answers(id, text)
    + Loops(Serves(fd, text))
  }

  /**
   An idle server answers: whatever the head, however it is cut, and whatever text its worker
   writes, there is a run in which the client is sent exactly this text and then the close.
   */
  lemma RequestIsServed(schedule: seq<Action>, fd: Fd, pieces: seq<string>, last: string, id: Id, contentLength: nat,
                        k: nat, text: string)
    requires Idle(Run(schedule)) && id !in Run(schedule).links && text != ""
    requires Chunks(pieces) && Chunk(last) && NoBlankLine(Concat(pieces))
    requires |Concat(pieces) + last| <= MAX_HEADER_SIZE && FirstBlankLine(Concat(pieces) + last, k)
    ensures Closed(Run(schedule + Life(fd, pieces, last, id, contentLength, text)), fd, id, text, text, Orderly)
  {
    hide Run, Loops, Closed, Arrivals, Answers, Serves, FirstBlankLine, NoBlankLine;
    var accepted := schedule + [ByLoop(Accept(fd))];
    var dispatched := accepted + Loops(Arrivals(fd, pieces + [last], id, contentLength));
    var answered := dispatched + Answers(id, text);
    AcceptedReadsHead(schedule, fd);
    HeadIsDispatched(accepted, fd, pieces, last, id, contentLength, k);
    AnswerIsBuffered(dispatched, fd, id, Concat(pieces) + last, k, contentLength, text);
    AnswerIsServed(answered, fd, id, text);
    assert schedule + Life(fd, pieces, last, id, contentLength, text) == answered + Loops(Serves(fd, text));
  }
}

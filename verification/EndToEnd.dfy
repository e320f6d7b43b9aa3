/** What a client has received when its connection is closed: the bridge below the response driver. */
module EndToEnd {
  import opened Common
  import opened HttpText
  import opened ConnectionIo
  import opened Bridge
  import opened BridgeSteps
  import opened BridgeTheorems
  import opened BridgeWork
  import opened FilterScript
  import Streaming
  import ResponseDriver

  // ----- A worker that makes given calls -----

  /** The arguments of the writeData calls that worker i has begun. */
  function Begun(schedule: seq<Action>, i: Id): seq<string> {
    if schedule == [] then []
    else
      var before, a := schedule[..|schedule| - 1], schedule[|schedule| - 1];
      if Moves(Run(before), a, i) && a.what.BeginWrite? then Begun(before, i) + [a.what.data] else Begun(before, i)
  }

  /** The action is a step of worker i. */
  predicate Moves(s: State, a: Action, i: Id) {
    a.ByWorker? && a.id == i && i in s.links && Enabled(s.links[i], a.what)
  }

  /** A step of a worker that is to make these writeData calls and then to call finish. */
  predicate Allowed(m: WorkerMove, begun: seq<string>, writes: seq<string>) {
    match m
    case BeginWrite(data) => begun + [data] <= writes
    case CallFinish => begun == writes
    case GiveUp => false
    case RaiseFlags => false
    case _ => true
  }

  /** Under this schedule, worker i makes these calls in order, and finish behind them. */
  predicate Obeys(schedule: seq<Action>, i: Id, writes: seq<string>) {
    schedule == [] ||
    var before, a := schedule[..|schedule| - 1], schedule[|schedule| - 1];
    && Obeys(before, i, writes)
    && (Moves(Run(before), a, i) ==> Allowed(a.what, Begun(before, i), writes))
  }

  /** What a link has produced, and what its worker is about to. */
  function Wrote(l: Link): string {
    l.produced + if l.worker.Writing? then l.worker.data else ""
  }

  /** The link of a worker that has begun these of its calls. */
  predicate Served(l: Link, begun: seq<string>, writes: seq<string>) {
    && Wrote(l) == Concat(begun) && begun <= writes
    && !l.worker.Erring? && (l.worker.Done? ==> begun == writes)
  }

  lemma SameWorkServed(l: Link, l': Link, begun: seq<string>, writes: seq<string>)
    requires SameWork(l, l') && Served(l, begun, writes)
    ensures Served(l', begun, writes)
  {
    hide Concat;
  }

  /** A step of the worker itself. */
  lemma MoveServed(l: Link, m: WorkerMove, begun: seq<string>, writes: seq<string>)
    requires Enabled(l, m) && Served(l, begun, writes) && Allowed(m, begun, writes)
    ensures var begun' := if m.BeginWrite? then begun + [m.data] else begun;
      Served(WorkerMoves(l, m), begun', writes)
  {
    hide ReadBodyChunk, ReadReady, SetErrorFlags;
    if m.BeginWrite? {
      assert (begun + [m.data])[..|begun|] == begun;
      assert l.produced + "" == l.produced;
    } else if m.TryWrite? {
      assert l.produced + l.worker.data + "" == l.produced + l.worker.data;
    }
  }

  /** What a worker has produced is the text of the calls it has begun; once done, of all of them. */
  lemma {:induction false} WorkIsProduced(schedule: seq<Action>, i: Id, writes: seq<string>)
    requires Obeys(schedule, i, writes)
    ensures var s := Run(schedule);
      if i in s.links then Served(s.links[i], Begun(schedule, i), writes) else Begun(schedule, i) == []
  {
    if schedule != [] {
      var before, a := schedule[..|schedule| - 1], schedule[|schedule| - 1];
      WorkIsProduced(before, i, writes);
      var s := Run(before);
      hide Served, Enabled, WorkerMoves, LoopMoves, Allowed, Run;
      StepServed(s, a, i, Begun(before, i), writes);
      RunLast(schedule);
    }
  }

  lemma RunLast(schedule: seq<Action>)
    requires schedule != []
    ensures Run(schedule) == Step(Run(schedule[..|schedule| - 1]), schedule[|schedule| - 1])
  {
    hide Step;
  }

  lemma StepServed(s: State, a: Action, i: Id, begun: seq<string>, writes: seq<string>)
    requires if i in s.links then Served(s.links[i], begun, writes) else begun == []
    requires Moves(s, a, i) ==> Allowed(a.what, begun, writes)
    ensures var begun' := if Moves(s, a, i) && a.what.BeginWrite? then begun + [a.what.data] else begun;
      if i in Step(s, a).links then Served(Step(s, a).links[i], begun', writes) else begun' == []
  {
    hide WorkerMoves, Enabled, LoopMoves, Served, Allowed, SameWork;
    match a
    case ByWorker(_, m) =>
      if Moves(s, a, i) {
        MoveServed(s.links[i], m, begun, writes);
      }
    case ByLoop(m) =>
      LoopKeepsWork(s, m);
      var s' := LoopMoves(s, m);
      if i in s'.links {
        if i in s.links {
          SameWorkServed(s.links[i], s'.links[i], begun, writes);
        } else {
          NewServed(s'.links[i], writes);
        }
      }
  }

  lemma NewServed(l: Link, writes: seq<string>)
    requires l.worker == Queued && l.produced == ""
    ensures Served(l, [], writes)
  {
  }

  lemma {:induction false} ConcatPrefix(some: seq<string>, all: seq<string>)
    requires some <= all
    ensures Concat(some) <= Concat(all)
  {
    if some != all {
      assert some <= all[..|all| - 1];
      ConcatPrefix(some, all[..|all| - 1]);
    }
  }

  // ----- The client -----

  /** The client has been sent a prefix of the text, and all of it if the close was orderly. */
  predicate Received(l: Link, text: string) {
    l.sent <= text && (l.fate == Orderly ==> l.sent == text)
  }

  /** Under every interleaving and every pattern of short sends, the calls reach the client in order. */
  lemma CallsReachClient(schedule: seq<Action>, i: Id, writes: seq<string>)
    requires Obeys(schedule, i, writes) && i in Run(schedule).links
    ensures Received(Run(schedule).links[i], Concat(writes))
  {
    WorkIsProduced(schedule, i, writes);
    DeliveredInOrder(schedule, i);
    FinishedIsOver(schedule, i);
    hide Run, Obeys;
    ConcatPrefix(Begun(schedule, i), writes);
    var l := Run(schedule).links[i];
    assert l.sent <= l.produced <= Wrote(l);
    hide Begun;
    assert l.produced + "" == l.produced;
  }

  lemma FinishedIsOver(schedule: seq<Action>, i: Id)
    requires i in Run(schedule).links
    ensures var l := Run(schedule).links[i]; l.io.finished ==> l.worker.Done? || l.worker.Erring?
  {
    RunKeepsInv(schedule);
  }

  /** An orderly close means that the client was sent exactly what the outcome stands for. */
  lemma ClientReadsOneResponse(schedule: seq<Action>, i: Id, writes: seq<string>, request: Request, o: Outcome)
    requires Obeys(schedule, i, writes) && i in Run(schedule).links
    requires !o.Failed? && ResponseDriver.Delivered(o, Concat(writes))
    ensures var l := Run(schedule).links[i];
      && Received(l, Concat(writes))
      && (l.fate == Orderly ==> ResponseDriver.Answers(request, o, l.sent))
  {
    CallsReachClient(schedule, i, writes);
    hide Run, Obeys, Concat, ReadResponse, ResponseDriver.Delivered;
    ResponseDriver.OneResponseIff(request, o, Concat(writes));
  }

  /**
   handle_request over the bridge.  Whatever schedule its worker's calls are interleaved with,
   an orderly close means that the client has been sent exactly the response that script and
   body reads lead to, unless the filter has not kept to what it must; until then it has been
   sent a prefix of the text.
   */
  method Answer(conn: Streaming.Channel, request: Option<Request>, loaded: bool, script: Script,
                contentLength: nat, prefix: string, results: seq<ReadResult>, responseBody: string)
    returns (ghost o: Outcome)
    requires conn.writes == [] && conn.ends == [] && |prefix| <= contentLength
    modifies conn
    ensures o == ResponseDriver.OutcomeOf(request, loaded, script, contentLength, prefix, results, responseBody)
    ensures conn.ends == [ResponseDriver.EndFor(o)] && ResponseDriver.Delivered(o, Concat(conn.writes))
    ensures !o.Failed? ==> ResponseDriver.Answers(request.value, o, Concat(conn.writes))
    ensures !o.Failed? ==>
      forall schedule, i :: i in Run(schedule).links && Obeys(schedule, i, conn.writes) ==>
        && Received(Run(schedule).links[i], Concat(conn.writes))
        && (Run(schedule).links[i].fate == Orderly ==>
              ResponseDriver.Answers(request.value, o, Run(schedule).links[i].sent))
  {
    o := ResponseDriver.HandleRequest(conn, request, loaded, script, contentLength, prefix, results, responseBody);
    hide Run, Obeys, Concat, ResponseDriver.Answers, ResponseDriver.Delivered, Result;
    if !o.Failed? {
      forall schedule, i | i in Run(schedule).links && Obeys(schedule, i, conn.writes)
        ensures Received(Run(schedule).links[i], Concat(conn.writes))
        ensures Run(schedule).links[i].fate == Orderly ==>
                  ResponseDriver.Answers(request.value, o, Run(schedule).links[i].sent)
      {
        ClientReadsOneResponse(schedule, i, conn.writes, request.value, o);
      }
    }
  }
}

/**
 The fixed-size thread pool (src/thread_pool.h): a queue and a stop flag under one
 mutex, a condition variable, and worker threads that sleep on it.
 */
module ThreadPool {

  type Task = nat  // names one submitted std::function

  /** What the mutex protects. */
  datatype Shared = Shared(tasks: seq<Task>, stop: bool)

  /** What a worker finds when it evaluates its wait predicate under the lock. */
  datatype Next = Sleep | Return | Execute(task: Task)

  function Submitted(p: Shared, task: Task): Shared {
    if p.stop then p else p.(tasks := p.tasks + [task])
  }

  function Looked(p: Shared): (Shared, Next) {
    if !p.stop && p.tasks == [] then (p, Sleep)
    else if p.tasks == [] then (p, Return)
    else (p.(tasks := p.tasks[1..]), Execute(p.tasks[0]))
  }

  /** The critical sections of the pool. */
  class Pool {
    var tasks: seq<Task>
    var stop: bool

    ghost function View(): Shared
      reads this
    {
      Shared(tasks, stop)
    }

    constructor ()
      ensures View() == Shared([], false)
    {
      tasks, stop := [], false;
    }

    method Submit(task: Task) returns (notify: bool)
      modifies this
      ensures View() == Submitted(old(View()), task) && notify == !old(stop)
    {
      if stop {
        return false;
      }
      tasks := tasks + [task];
      notify := true;
    }

    method BeginShutdown() returns (notifyAll: bool)
      modifies this
      ensures View() == old(View()).(stop := true) && notifyAll == !old(stop)
    {
      if stop {
        return false;
      }
      stop := true;
      notifyAll := true;
    }

    method Look() returns (next: Next)
      modifies this
      ensures (View(), next) == Looked(old(View()))
    {
      if !stop && tasks == [] {
        return Sleep;
      }
      if stop && tasks == [] {
        return Return;
      }
      next := Execute(tasks[0]);
      tasks := tasks[1..];
    }
  }

  // ----- The pool and its threads as a transition system -----

  datatype Worker = Awake | Asleep | Running(task: Task) | Exited

  datatype State = State(
    pool: Shared,
    workers: seq<Worker>,
    notifies: nat,       // submit() calls between unlocking and notify_one
    notifyAll: bool,     // a shutdown() between unlocking and notify_all
    accepted: seq<Task>, // history: tasks accepted, in order
    taken: seq<Task>,    // history: tasks dequeued, in order
    done: seq<Task>)     // history: tasks whose execution has ended

  datatype Action =
    | Submit(task: Task)
    | NotifyOne(w: nat)  // wakes w if it sleeps; wakes nobody if nobody sleeps
    | StartShutdown
    | NotifyAll
    | Look(w: nat)
    | FinishTask(w: nat)
    | SpuriousWake(w: nat)

  function Init(threads: nat): State {
    State(Shared([], false), seq(threads, _ => Awake), 0, false, [], [], [])
  }

  function Looks(s: State, w: nat): State
    requires w < |s.workers| && s.workers[w] == Awake
  {
    var (pool, next) := Looked(s.pool);
    match next
    case Sleep => s.(workers := s.workers[w := Asleep])
    case Return => s.(workers := s.workers[w := Exited])
    case Execute(task) => s.(pool := pool, workers := s.workers[w := Running(task)], taken := s.taken + [task])
  }

  function WakeAll(workers: seq<Worker>): seq<Worker> {
    seq(|workers|, k requires 0 <= k < |workers| => if workers[k] == Asleep then Awake else workers[k])
  }

  function Step(s: State, a: Action): State {
    match a
    case Submit(task) =>
      if s.pool.stop then s
      else s.(pool := Submitted(s.pool, task), accepted := s.accepted + [task], notifies := s.notifies + 1)
    case NotifyOne(w) =>
      if s.notifies == 0 then s
      else if w < |s.workers| && s.workers[w] == Asleep then
        s.(workers := s.workers[w := Awake], notifies := s.notifies - 1)
      else if Asleep !in s.workers then s.(notifies := s.notifies - 1)
      else s
    case StartShutdown => if s.pool.stop then s else s.(pool := s.pool.(stop := true), notifyAll := true)
    case NotifyAll => if s.notifyAll then s.(workers := WakeAll(s.workers), notifyAll := false) else s
    case Look(w) => if w < |s.workers| && s.workers[w] == Awake then Looks(s, w) else s
    case FinishTask(w) =>
      if w < |s.workers| && s.workers[w].Running? then
        s.(workers := s.workers[w := Awake], done := s.done + [s.workers[w].task])
      else s
    case SpuriousWake(w) =>
      if w < |s.workers| && s.workers[w] == Asleep then s.(workers := s.workers[w := Awake]) else s
  }

  function Run(threads: nat, schedule: seq<Action>): State {
    if schedule == [] then Init(threads)
    else Step(Run(threads, schedule[..|schedule| - 1]), schedule[|schedule| - 1])
  }

  // ----- Invariant -----

  function Count(workers: seq<Worker>, x: Worker): nat {
    multiset(workers)[x]
  }

  function TaskOf(w: Worker): multiset<Task> {
    if w.Running? then multiset{w.task} else multiset{}
  }

  /** The tasks being executed. */
  function Executing(workers: seq<Worker>): multiset<Task> {
    if workers == [] then multiset{}
    else Executing(workers[..|workers| - 1]) + TaskOf(workers[|workers| - 1])
  }

  predicate Conserved(s: State) {
    && s.accepted == s.taken + s.pool.tasks
    && multiset(s.taken) == multiset(s.done) + Executing(s.workers)
  }

  predicate Roused(s: State) {
    && (Asleep in s.workers ==> |s.pool.tasks| <= s.notifies + Count(s.workers, Awake))
    && (Asleep in s.workers && s.pool.stop ==> s.notifyAll)
    && (Exited in s.workers ==> s.pool.stop && s.pool.tasks == [])
  }

  lemma {:induction false} ExecutingUpdate(workers: seq<Worker>, w: nat, x: Worker)
    requires w < |workers|
    ensures Executing(workers[w := x]) + TaskOf(workers[w]) == Executing(workers) + TaskOf(x)
  {
    var n := |workers| - 1;
    var workers' := workers[w := x];
    if w == n {
      assert workers'[..n] == workers[..n];
    } else {
      assert workers'[..n] == workers[..n][w := x];
      ExecutingUpdate(workers[..n], w, x);
      Exchange(Executing(workers'[..n]), TaskOf(workers[w]), Executing(workers[..n]), TaskOf(x), TaskOf(workers[n]));
    }
  }

  lemma Exchange(a: multiset<Task>, b: multiset<Task>, c: multiset<Task>, d: multiset<Task>, e: multiset<Task>)
    requires a + b == c + d
    ensures (a + e) + b == (c + e) + d
  {
    assert (a + e) + b == (a + b) + e;
  }

  lemma CountUpdate(workers: seq<Worker>, w: nat, x: Worker, y: Worker)
    requires w < |workers|
    ensures Count(workers[w := x], y)
            == Count(workers, y) - (if workers[w] == y then 1 else 0) + (if x == y then 1 else 0)
  {
    assert workers == workers[..w] + [workers[w]] + workers[w + 1..];
    assert workers[w := x] == workers[..w] + [x] + workers[w + 1..];
  }

  lemma {:induction false} WakeAllExecuting(workers: seq<Worker>)
    ensures Executing(WakeAll(workers)) == Executing(workers)
  {
    if workers != [] {
      var n := |workers| - 1;
      WakeAllExecuting(workers[..n]);
      assert WakeAll(workers)[..n] == WakeAll(workers[..n]);
      assert TaskOf(WakeAll(workers)[n]) == TaskOf(workers[n]);
      hide WakeAll, TaskOf;
    }
  }

  lemma AwakeExecutesNothing(workers: seq<Worker>, w: nat, x: Worker)
    requires w < |workers| && workers[w] == Awake
    ensures Executing(workers[w := x]) == Executing(workers) + TaskOf(x)
  {
    ExecutingUpdate(workers, w, x);
    hide Executing;
    assert Executing(workers[w := x]) + multiset{} == Executing(workers[w := x]);
  }

  lemma TakingConserves(s: State, w: nat)
    requires Conserved(s) && w < |s.workers| && s.workers[w] == Awake && s.pool.tasks != []
    ensures Conserved(Looks(s, w))
  {
    var task := s.pool.tasks[0];
    var s' := Looks(s, w);
    hide Executing;
    AwakeExecutesNothing(s.workers, w, Running(task));
    assert s'.taken == s.taken + [task] && s'.done == s.done;
    assert s.pool.tasks == [task] + s'.pool.tasks;
    assert s'.taken + s'.pool.tasks == s.taken + s.pool.tasks;
    assert s'.workers == s.workers[w := Running(task)];
    assert multiset(s'.taken) == multiset(s.taken) + multiset{task};
  }

  lemma IdlingConserves(s: State, w: nat, x: Worker)
    requires Conserved(s) && w < |s.workers| && s.workers[w] == Awake && !x.Running?
    ensures Conserved(s.(workers := s.workers[w := x]))
  {
    AwakeExecutesNothing(s.workers, w, x);
    hide Executing;
    assert Executing(s.workers) + multiset{} == Executing(s.workers);
  }

  lemma LookConserves(s: State, w: nat)
    requires Conserved(s) && w < |s.workers| && s.workers[w] == Awake
    ensures Conserved(Looks(s, w))
  {
    hide Conserved;
    if s.pool.tasks != [] {
      TakingConserves(s, w);
    } else {
      IdlingConserves(s, w, if s.pool.stop then Exited else Asleep);
    }
  }

  lemma LookRouses(s: State, w: nat)
    requires Roused(s) && w < |s.workers| && s.workers[w] == Awake
    ensures Roused(Looks(s, w))
  {
    var x := Looks(s, w).workers[w];
    CountUpdate(s.workers, w, x, Awake);
    MembersAfterUpdate(s.workers, w, x);
  }

  lemma MembersAfterUpdate(workers: seq<Worker>, w: nat, x: Worker)
    requires w < |workers|
    ensures forall y :: y in workers[w := x] ==> y == x || y in workers
  {
  }

  /** A worker wakes up, or comes back from its task. */
  predicate Returns(s: State, s': State, w: nat) {
    && w < |s.workers| && (s.workers[w] == Asleep || s.workers[w].Running?)
    && s' == s.(workers := s.workers[w := Awake], done := s'.done, notifies := s'.notifies)
    && s'.done == s.done + (if s.workers[w].Running? then [s.workers[w].task] else [])
    && (s'.notifies == s.notifies || (s.workers[w] == Asleep && s'.notifies == s.notifies - 1))
  }

  lemma ReturnConserves(s: State, s': State, w: nat)
    requires Conserved(s) && Returns(s, s', w)
    ensures Conserved(s')
  {
    ExecutingUpdate(s.workers, w, Awake);
    assert multiset(s'.done) == multiset(s.done) + TaskOf(s.workers[w]);
    assert Executing(s'.workers) + TaskOf(s.workers[w]) == Executing(s.workers);
  }

  lemma ReturnRouses(s: State, s': State, w: nat)
    requires Roused(s) && Returns(s, s', w)
    ensures Roused(s')
  {
    CountUpdate(s.workers, w, Awake, Awake);
    MembersAfterUpdate(s.workers, w, Awake);
  }

  lemma StepConserves(s: State, a: Action)
    requires Conserved(s)
    ensures Conserved(Step(s, a))
  {
    hide Executing, WakeAll, Looks;
    match a
    case Submit(task) =>
    case NotifyOne(w) =>
      if s.notifies > 0 && w < |s.workers| && s.workers[w] == Asleep { ReturnConserves(s, Step(s, a), w); }
    case StartShutdown =>
    case NotifyAll => WakeAllExecuting(s.workers);
    case Look(w) =>
      if w < |s.workers| && s.workers[w] == Awake {
        LookConserves(s, w);
      }
    case FinishTask(w) =>
      if w < |s.workers| && s.workers[w].Running? { ReturnConserves(s, Step(s, a), w); }
    case SpuriousWake(w) =>
      if w < |s.workers| && s.workers[w] == Asleep { ReturnConserves(s, Step(s, a), w); }
  }

  lemma StepRouses(s: State, a: Action)
    requires Roused(s)
    ensures Roused(Step(s, a))
  {
    match a
    case Submit(task) =>
    case NotifyOne(w) =>
      if s.notifies > 0 && w < |s.workers| && s.workers[w] == Asleep { ReturnRouses(s, Step(s, a), w); }
    case StartShutdown =>
    case NotifyAll =>
    case Look(w) =>
      if w < |s.workers| && s.workers[w] == Awake { LookRouses(s, w); }
    case FinishTask(w) =>
      if w < |s.workers| && s.workers[w].Running? { ReturnRouses(s, Step(s, a), w); }
    case SpuriousWake(w) =>
      if w < |s.workers| && s.workers[w] == Asleep { ReturnRouses(s, Step(s, a), w); }
  }

  lemma {:induction false} RunKeepsInv(threads: nat, schedule: seq<Action>)
    ensures Conserved(Run(threads, schedule)) && Roused(Run(threads, schedule))
    ensures |Run(threads, schedule).workers| == threads
  {
    if schedule == [] {
      IdleExecutesNothing(Init(threads).workers);
    } else {
      var before := schedule[..|schedule| - 1];
      RunKeepsInv(threads, before);
      StepConserves(Run(threads, before), schedule[|schedule| - 1]);
      StepRouses(Run(threads, before), schedule[|schedule| - 1]);
      StepKeepsThreads(Run(threads, before), schedule[|schedule| - 1]);
      hide Conserved, Roused, Step;
    }
  }

  lemma StepKeepsThreads(s: State, a: Action)
    ensures |Step(s, a).workers| == |s.workers|
  {
  }

  lemma {:induction false} IdleExecutesNothing(workers: seq<Worker>)
    requires forall w :: w in workers ==> !w.Running?
    ensures Executing(workers) == multiset{}
  {
    if workers != [] {
      IdleExecutesNothing(workers[..|workers| - 1]);
    }
  }

  // ----- Theorems -----

  /** Accepted tasks are the dequeued ones followed by the queued ones; dequeued ones run or have run. */
  lemma TasksAreConserved(threads: nat, schedule: seq<Action>)
    ensures var s := Run(threads, schedule);
      && s.accepted == s.taken + s.pool.tasks
      && multiset(s.taken) == multiset(s.done) + Executing(s.workers)
  {
    RunKeepsInv(threads, schedule);
  }

  /**
   No worker sleeps through work: while one sleeps, every queued task has its own
   notify still to come or its own awake worker.
   */
  lemma SleepersAreNotNeeded(threads: nat, schedule: seq<Action>)
    requires Asleep in Run(threads, schedule).workers
    ensures var s := Run(threads, schedule);
      |s.pool.tasks| <= s.notifies + Count(s.workers, Awake)
  {
    RunKeepsInv(threads, schedule);
  }

  /** A non-empty queue always has an awake worker, or a notify still to come. */
  lemma QueueIsServed(threads: nat, schedule: seq<Action>)
    requires threads > 0 && Run(threads, schedule).pool.tasks != []
    ensures var s := Run(threads, schedule);
      s.notifies > 0 || exists w :: 0 <= w < |s.workers| && (s.workers[w] == Awake || s.workers[w].Running?)
  {
    RunKeepsInv(threads, schedule);
    var s := Run(threads, schedule);
    if Asleep in s.workers {
      if s.notifies == 0 {
        assert multiset(s.workers)[Awake] > 0;
        assert Awake in s.workers;
      }
    } else {
      assert s.workers[0] in s.workers;
    }
  }

  /** After shutdown's notify_all nobody sleeps any more, so every join returns. */
  lemma NobodySleepsAfterShutdown(threads: nat, schedule: seq<Action>)
    requires Run(threads, schedule).pool.stop && !Run(threads, schedule).notifyAll
    ensures Asleep !in Run(threads, schedule).workers
  {
    RunKeepsInv(threads, schedule);
  }

  /** When all workers have exited, each accepted task has run exactly once, dequeued in FIFO order. */
  lemma ShutdownDrains(threads: nat, schedule: seq<Action>)
    requires threads > 0
    requires forall w :: w in Run(threads, schedule).workers ==> w == Exited
    ensures var s := Run(threads, schedule);
      s.pool.tasks == [] && s.taken == s.accepted && multiset(s.done) == multiset(s.accepted)
  {
    RunKeepsInv(threads, schedule);
    var s := Run(threads, schedule);
    assert s.workers[0] in s.workers;
    IdleExecutesNothing(s.workers);
  }

  /** Nothing is accepted once shutdown has begun. */
  lemma {:induction false} StopIsFinal(threads: nat, schedule: seq<Action>, more: seq<Action>)
    requires Run(threads, schedule).pool.stop
    ensures Run(threads, schedule + more).pool.stop
    ensures Run(threads, schedule + more).accepted == Run(threads, schedule).accepted
  {
    if more == [] {
      assert schedule + more == schedule;
    } else {
      var n := |more| - 1;
      StopIsFinal(threads, schedule, more[..n]);
      assert (schedule + more)[..|schedule + more| - 1] == schedule + more[..n];
    }
  }

  // ----- Progress -----

  lemma RunOne(threads: nat, schedule: seq<Action>, a: Action)
    ensures Run(threads, schedule + [a]) == Step(Run(threads, schedule), a)
  {
    assert (schedule + [a])[..|schedule|] == schedule;
    hide Step;
  }

  /** Before shutdown every submitted task is accepted, behind the others. */
  lemma SubmitIsAccepted(threads: nat, schedule: seq<Action>, task: Task)
    requires !Run(threads, schedule).pool.stop
    ensures var s := Run(threads, schedule); var s' := Run(threads, schedule + [Submit(task)]);
      && s'.accepted == s.accepted + [task] && s'.pool.tasks == s.pool.tasks + [task]
      && s'.notifies == s.notifies + 1 && s'.workers == s.workers
  {
    RunOne(threads, schedule, Submit(task));
    hide Run;
  }

  /** A notify that is still to come can wake any sleeper. */
  lemma NotifyWakes(threads: nat, schedule: seq<Action>, w: nat)
    requires var s := Run(threads, schedule); s.notifies > 0 && w < |s.workers| && s.workers[w] == Asleep
    ensures var s := Run(threads, schedule);
      Run(threads, schedule + [NotifyOne(w)]).workers == s.workers[w := Awake]
  {
    RunOne(threads, schedule, NotifyOne(w));
    hide Run;
  }

  /** A worker that is awake runs the oldest task to its end. */
  lemma OldestIsRun(threads: nat, schedule: seq<Action>, w: nat)
    requires var s := Run(threads, schedule); s.pool.tasks != [] && w < |s.workers| && s.workers[w] == Awake
    ensures var s := Run(threads, schedule); var s' := Run(threads, schedule + [Look(w)] + [FinishTask(w)]);
      && s'.done == s.done + [s.pool.tasks[0]] && s'.pool.tasks == s.pool.tasks[1..] && s'.workers == s.workers
  {
    RunOne(threads, schedule, Look(w));
    RunOne(threads, schedule + [Look(w)], FinishTask(w));
    hide Run;
    var workers := Run(threads, schedule).workers;
    assert workers[w := Running(Run(threads, schedule).pool.tasks[0])][w := Awake] == workers;
  }

  /** How much is left to do before all workers have exited. */
  function Load(workers: seq<Worker>): nat {
    if workers == [] then 0
    else Load(workers[..|workers| - 1]) + Share(workers[|workers| - 1])
  }

  function Share(w: Worker): nat {
    if w == Exited then 0 else if w.Running? then 2 else 1
  }

  lemma {:induction false} LoadUpdate(workers: seq<Worker>, w: nat, x: Worker)
    requires w < |workers|
    ensures Load(workers[w := x]) + Share(workers[w]) == Load(workers) + Share(x)
  {
    var n := |workers| - 1;
    if w == n {
      assert workers[w := x][..n] == workers[..n];
    } else {
      assert workers[w := x][..n] == workers[..n][w := x];
      LoadUpdate(workers[..n], w, x);
    }
  }

  function Left(s: State): nat {
    Load(s.workers) + 3 * |s.pool.tasks|
  }

  /** Shutdown has begun, and its notify_all has been made. */
  predicate Closing(s: State) {
    s.pool.stop && !s.notifyAll
  }

  /** The next move of a worker that has not exited. */
  function Onward(s: State, w: nat): Action
    requires w < |s.workers|
  {
    if s.workers[w].Running? then FinishTask(w) else Look(w)
  }

  lemma OnwardLessens(s: State, w: nat)
    requires Closing(s) && w < |s.workers| && s.workers[w] != Exited && s.workers[w] != Asleep
    ensures var s' := Step(s, Onward(s, w));
      && Closing(s') && s'.accepted == s.accepted
      && Left(s') < Left(s)
  {
    var s' := Step(s, Onward(s, w));
    assert s'.workers == s.workers[w := s'.workers[w]];
    LoadUpdate(s.workers, w, s'.workers[w]);
    hide Load;
  }

  lemma {:induction false} ClosingEnds(threads: nat, schedule: seq<Action>) returns (more: seq<Action>)
    requires Closing(Run(threads, schedule))
    ensures var s' := Run(threads, schedule + more);
      s'.accepted == Run(threads, schedule).accepted && forall w :: w in s'.workers ==> w == Exited
    decreases Left(Run(threads, schedule))
  {
    hide Run, Step, Left, Onward;
    var s := Run(threads, schedule);
    NobodySleepsAfterShutdown(threads, schedule);
    if w :| 0 <= w < |s.workers| && s.workers[w] != Exited {
      assert s.workers[w] in s.workers;
      OnwardLessens(s, w);
      hide Closing;
      RunOne(threads, schedule, Onward(s, w));
      var rest := ClosingEnds(threads, schedule + [Onward(s, w)]);
      more := [Onward(s, w)] + rest;
      assert schedule + more == schedule + [Onward(s, w)] + rest;
    } else {
      more := [];
      assert schedule + [] == schedule;
    }
  }

  /** From every state there are moves that end a shutdown: all accepted tasks have run, and all workers have exited. */
  lemma ShutdownCanEnd(threads: nat, schedule: seq<Action>) returns (more: seq<Action>)
    requires threads > 0
    ensures var s' := Run(threads, schedule + more);
      && (forall w :: w in s'.workers ==> w == Exited)
      && s'.accepted == Run(threads, schedule).accepted && multiset(s'.done) == multiset(s'.accepted)
  {
    var stopped := schedule + [StartShutdown];
    var closing := stopped + [NotifyAll];
    RunOne(threads, schedule, StartShutdown);
    RunOne(threads, stopped, NotifyAll);
    assert Closing(Run(threads, closing)) && Run(threads, closing).accepted == Run(threads, schedule).accepted;
    hide Run, Step, Closing;
    var rest := ClosingEnds(threads, closing);
    more := [StartShutdown] + [NotifyAll] + rest;
    assert schedule + more == closing + rest;
    ShutdownDrains(threads, schedule + more);
  }
}

/**
 The fixed-size thread pool (threadpoolsimple.c): a ring of task numbers, one mutex,
 one condition variable per direction, one signal per event.

 The critical sections of `thrRun` and `addtask` are methods of `ThreadPool`, each
 proved equal to a function on the protected fields.  The protocol is a state machine
 whose steps are those sections plus what happens outside the lock: the callback, the
 signal that `addtask` sends after unlocking, and wakeups the system makes up.
 */
module FixedPool {
  import opened RingIndex
  import opened Totals

  const FIRST_TASK := 1000

  // ---------------------------------------------------------------- protected fields

  /** The fields `pool_lock` protects; `max_job_num` is the number of cells. */
  datatype Shared = Shared(cells: seq<int>, jobNum: int, jobPush: int, jobPop: int,
                           beginNum: int, shutdown: bool)

  datatype Worker = Starting | Asleep | Woken | Running(task: int) | Exited

  datatype Producer = Idle | Entering | Waiting | Awake | Signalling

  /** What a worker did in one critical section: the fields it left, which task numbers it
      copied out (none or one), and where it goes next. */
  datatype Section = Section(mem: Shared, copied: seq<int>, next: Worker)

  /** The counters point into the ring. */
  predicate InRange(m: Shared) {
    0 <= m.jobNum <= |m.cells| && 0 <= m.jobPush && 0 <= m.jobPop
  }

  function EmptyPool(cells: seq<int>): Shared {
    Shared(cells, 0, 0, 0, FIRST_TASK, false)
  }

  /** The cell that the i-th push writes and the i-th pop reads. */
  function Cell(cells: seq<int>, i: nat): int
    requires |cells| > 0
  {
    cells[i % |cells|]
  }

  /** `thrRun` from a lock acquisition to the next unlock or wait. */
  function WorkerSection(m: Shared): Section
    requires InRange(m)
  {
    if m.jobNum <= 0 && !m.shutdown then
      Section(m, [], Asleep)
    else if m.jobNum != 0 then
      var task := Cell(m.cells, m.jobPop);
      Section(m.(jobPop := m.jobPop + 1, jobNum := m.jobNum - 1), [task],
              if m.shutdown then Exited else Running(task))
    else
      Section(m, [], Exited)
  }

  predicate IsFull(m: Shared) {
    |m.cells| <= m.jobNum
  }

  /** `addtask` from the point where it sees room to its unlock. */
  function AddTask(m: Shared): Shared
    requires InRange(m) && !IsFull(m)
  {
    m.(cells := m.cells[m.jobPush % |m.cells| := m.beginNum],
       jobPush := m.jobPush + 1, beginNum := m.beginNum + 1, jobNum := m.jobNum + 1)
  }

  /** The pool in memory.  Its two methods are the two critical sections. */
  class ThreadPool {
    const tasks: array<int>
    var jobNum: int
    var jobPush: int
    var jobPop: int
    var beginNum: int
    var shutdown: bool

    ghost function View(): Shared
      reads this, tasks
    {
      Shared(tasks[..], jobNum, jobPush, jobPop, beginNum, shutdown)
    }

    ghost predicate Valid()
      reads this, tasks
    {
      InRange(View())
    }

    constructor (maxTaskNum: nat)
      ensures Valid() && fresh(tasks) && tasks.Length == maxTaskNum
      ensures View() == EmptyPool(tasks[..])
    {
      tasks := new int[maxTaskNum];
      jobNum, jobPush, jobPop, beginNum, shutdown := 0, 0, 0, FIRST_TASK, false;
    }

    method RunWorkerSection() returns (copied: seq<int>, next: Worker)
      requires Valid()
      modifies this
      ensures Valid()
      ensures WorkerSection(old(View())) == Section(View(), copied, next)
    {
      copied := [];
      if jobNum <= 0 && !shutdown {
        return copied, Asleep;
      }
      var task := 0;
      if jobNum != 0 {
        task := tasks[jobPop % tasks.Length];
        jobPop := jobPop + 1;
        copied := [task];
        jobNum := jobNum - 1;
      }
      next := if shutdown then Exited else Running(task);
    }

    /** `added` is false when the caller has to wait on `empty_task`. */
    method RunAddSection() returns (added: bool)
      requires Valid()
      modifies this, tasks
      ensures Valid()
      ensures added == !IsFull(old(View()))
      ensures View() == if added then AddTask(old(View())) else old(View())
    {
      if tasks.Length <= jobNum {
        return false;
      }
      tasks[jobPush % tasks.Length] := beginNum;
      jobPush := jobPush + 1;
      beginNum := beginNum + 1;
      jobNum := jobNum + 1;
      added := true;
    }
  }

  // ---------------------------------------------------------------- the protocol

  /** The shared fields, every thread's position, and the history of the run: task numbers
      in the order they were copied out, finished, or dropped by a worker that saw
      `shutdown` right after copying. */
  datatype State = State(mem: Shared, workers: seq<Worker>, producers: seq<Producer>,
                         copied: seq<int>, finished: multiset<int>, dropped: multiset<int>)

  /** `wakes` is the thread a signal picks; it matters only when some thread is waiting. */
  datatype Step =
    | WorkerLock(w: nat, wakes: nat)
    | Finish(w: nat)
    | Call(p: nat)
    | ProducerLock(p: nat)
    | Signal(p: nat, wakes: nat)
    | SpuriousWorker(w: nat)
    | SpuriousProducer(p: nat)
    | Shutdown

  ghost predicate AnyAsleep(workers: seq<Worker>) {
    exists i :: 0 <= i < |workers| && workers[i] == Asleep
  }

  ghost predicate AnyWaiting(producers: seq<Producer>) {
    exists i :: 0 <= i < |producers| && producers[i] == Waiting
  }

  /** `pthread_cond_signal` wakes one waiter when there is one. */
  function WakeWorker(workers: seq<Worker>, i: nat): seq<Worker> {
    if i < |workers| && workers[i] == Asleep then workers[i := Woken] else workers
  }

  function WakeProducer(producers: seq<Producer>, i: nat): seq<Producer> {
    if i < |producers| && producers[i] == Waiting then producers[i := Awake] else producers
  }

  ghost predicate Enabled(s: State, step: Step) {
    match step
    case WorkerLock(w, wakes) =>
      && w < |s.workers|
      && (s.workers[w] == Starting || s.workers[w] == Woken)
      && (AnyWaiting(s.producers) ==> wakes < |s.producers| && s.producers[wakes] == Waiting)
    case Finish(w) => w < |s.workers| && s.workers[w].Running?
    case Call(p) => p < |s.producers| && s.producers[p] == Idle
    case ProducerLock(p) =>
      p < |s.producers| && (s.producers[p] == Entering || s.producers[p] == Awake)
    case Signal(p, wakes) =>
      && p < |s.producers|
      && s.producers[p] == Signalling
      && (AnyAsleep(s.workers) ==> wakes < |s.workers| && s.workers[wakes] == Asleep)
    case SpuriousWorker(w) => w < |s.workers| && s.workers[w] == Asleep
    case SpuriousProducer(p) => p < |s.producers| && s.producers[p] == Waiting
    case Shutdown => true
  }

  ghost function LockWorker(s: State, w: nat, wakes: nat): State
    requires InRange(s.mem) && w < |s.workers|
  {
    var section := WorkerSection(s.mem);
    s.(mem := section.mem,
       workers := s.workers[w := section.next],
       producers := if section.copied == [] then s.producers else WakeProducer(s.producers, wakes),
       copied := s.copied + section.copied,
       dropped := s.dropped + if section.next == Exited then multiset(section.copied) else multiset{})
  }

  ghost function LockProducer(s: State, p: nat): State
    requires InRange(s.mem) && p < |s.producers|
  {
    if IsFull(s.mem) then
      s.(producers := s.producers[p := Waiting])
    else
      s.(mem := AddTask(s.mem), producers := s.producers[p := Signalling])
  }

  ghost function Apply(s: State, step: Step): State
    requires InRange(s.mem) && Enabled(s, step)
  {
    match step
    case WorkerLock(w, wakes) => LockWorker(s, w, wakes)
    case Finish(w) =>
      s.(workers := s.workers[w := Starting], finished := s.finished + multiset{s.workers[w].task})
    case Call(p) => s.(producers := s.producers[p := Entering])
    case ProducerLock(p) => LockProducer(s, p)
    case Signal(p, wakes) =>
      s.(producers := s.producers[p := Idle], workers := WakeWorker(s.workers, wakes))
    case SpuriousWorker(w) => s.(workers := s.workers[w := Woken])
    case SpuriousProducer(p) => s.(producers := s.producers[p := Awake])
    case Shutdown => s.(mem := s.mem.(shutdown := true))
  }

  /** `t` is reached from `s` by taking `steps`, each enabled where it is taken. */
  ghost predicate Leads(s: State, steps: seq<Step>, t: State)
    decreases |steps|
  {
    if steps == [] then s == t
    else InRange(s.mem) && Enabled(s, steps[0]) && Leads(Apply(s, steps[0]), steps[1..], t)
  }

  ghost predicate Initial(s: State) {
    && s.mem == EmptyPool(s.mem.cells)
    && (forall i | 0 <= i < |s.workers| :: s.workers[i] == Starting)
    && (forall i | 0 <= i < |s.producers| :: s.producers[i] == Idle)
    && s.copied == []
    && s.finished == s.dropped == multiset{}
  }

  // ---------------------------------------------------------------- the invariant

  function OneIfWoken(w: Worker): nat { if w == Woken then 1 else 0 }
  function OneIfSignalling(p: Producer): nat { if p == Signalling then 1 else 0 }
  function OneIfAwake(p: Producer): nat { if p == Awake then 1 else 0 }
  function Task(w: Worker): multiset<int> { if w.Running? then multiset{w.task} else multiset{} }

  function Numbers(count: nat): seq<int> {
    seq(count, k => FIRST_TASK + k)
  }

  /** The counters agree, and cell by cell the ring holds exactly the unread tasks. */
  ghost predicate RingHolds(m: Shared) {
    && InRange(m)
    && m.jobNum == m.jobPush - m.jobPop
    && m.beginNum == FIRST_TASK + m.jobPush
    && (forall i: nat {:trigger Cell(m.cells, i)} |
          m.jobPop <= i < m.jobPush :: Cell(m.cells, i) == FIRST_TASK + i)
  }

  /** A sleeping worker leaves no task without a wakeup on its way, and a sleeping
      producer leaves no room without one. */
  ghost predicate NoLostWakeup(s: State) {
    && (AnyAsleep(s.workers) ==>
          s.mem.jobNum <= Sum(s.workers, OneIfWoken) + Sum(s.producers, OneIfSignalling))
    && (AnyWaiting(s.producers) ==>
          |s.mem.cells| - s.mem.jobNum <= Sum(s.producers, OneIfAwake))
  }

  /** Every copied task is held by one worker, finished once, or dropped at shutdown. */
  ghost predicate TasksConserved(s: State) {
    multiset(s.copied) == s.finished + s.dropped + Bag(s.workers, Task)
  }

  /** Workers leave, and drop what they copied, only once `shutdown` is set. */
  ghost predicate NobodyLeft(s: State) {
    s.mem.shutdown ||
    (s.dropped == multiset{} && forall i | 0 <= i < |s.workers| :: s.workers[i] != Exited)
  }

  ghost predicate Inv(s: State) {
    && RingHolds(s.mem)
    && s.copied == Numbers(s.mem.jobPop)
    && NoLostWakeup(s)
    && TasksConserved(s)
    && NobodyLeft(s)
  }

  lemma InitialInv(s: State)
    requires Initial(s)
    ensures Inv(s)
  {
    BagEmpty(s.workers, Task);
  }

  lemma AddKeepsRing(m: Shared)
    requires RingHolds(m) && !IsFull(m)
    ensures RingHolds(AddTask(m))
  {
    var n := AddTask(m);
    forall i: nat | n.jobPop <= i < n.jobPush
      ensures Cell(n.cells, i) == FIRST_TASK + i
    {
      if i < m.jobPush {
        CellsApart(i, m.jobPush, |m.cells|);
        assert Cell(n.cells, i) == Cell(m.cells, i);
      }
    }
  }

  lemma WorkerKeepsRing(m: Shared)
    requires RingHolds(m)
    ensures var section := WorkerSection(m);
            && RingHolds(section.mem)
            && Numbers(section.mem.jobPop) == Numbers(m.jobPop) + section.copied
  {
  }

  lemma WorkerKeepsWakeups(s: State, w: nat, wakes: nat)
    requires Inv(s) && Enabled(s, WorkerLock(w, wakes))
    ensures NoLostWakeup(LockWorker(s, w, wakes))
  {
    var t := LockWorker(s, w, wakes);
    var section := WorkerSection(s.mem);
    SumUpdate(s.workers, w, section.next, OneIfWoken);
    if section.copied != [] && AnyWaiting(s.producers) {
      SumUpdate(s.producers, wakes, Awake, OneIfAwake);
      SumUpdate(s.producers, wakes, Awake, OneIfSignalling);
    }
    if AnyAsleep(t.workers) && section.next != Asleep {
      var i :| 0 <= i < |t.workers| && t.workers[i] == Asleep;
      assert s.workers[i] == Asleep;
    }
    if AnyWaiting(t.producers) {
      var i :| 0 <= i < |t.producers| && t.producers[i] == Waiting;
      assert s.producers[i] == Waiting;
    }
  }

  lemma ProducerKeepsWakeups(s: State, p: nat)
    requires Inv(s) && Enabled(s, ProducerLock(p))
    ensures NoLostWakeup(LockProducer(s, p))
  {
    var t := LockProducer(s, p);
    var next := if IsFull(s.mem) then Waiting else Signalling;
    SumUpdate(s.producers, p, next, OneIfAwake);
    SumUpdate(s.producers, p, next, OneIfSignalling);
    if next == Signalling && AnyWaiting(t.producers) {
      var i :| 0 <= i < |t.producers| && t.producers[i] == Waiting;
      assert s.producers[i] == Waiting;
    }
  }

  lemma SignalKeepsWakeups(s: State, p: nat, wakes: nat)
    requires Inv(s) && Enabled(s, Signal(p, wakes))
    ensures NoLostWakeup(Apply(s, Signal(p, wakes)))
  {
    var t := Apply(s, Signal(p, wakes));
    SumUpdate(s.producers, p, Idle, OneIfAwake);
    SumUpdate(s.producers, p, Idle, OneIfSignalling);
    if AnyAsleep(s.workers) {
      SumUpdate(s.workers, wakes, Woken, OneIfWoken);
    }
    if AnyAsleep(t.workers) {
      var i :| 0 <= i < |t.workers| && t.workers[i] == Asleep;
      assert s.workers[i] == Asleep;
    }
    if AnyWaiting(t.producers) {
      var i :| 0 <= i < |t.producers| && t.producers[i] == Waiting;
      assert s.producers[i] == Waiting;
    }
  }

  /** A worker that was not woken may go anywhere but to sleep. */
  lemma OneWorkerMoves(s: State, w: nat, next: Worker)
    requires NoLostWakeup(s) && w < |s.workers| && s.workers[w] != Woken && next != Asleep
    ensures NoLostWakeup(s.(workers := s.workers[w := next]))
  {
    SumUpdate(s.workers, w, next, OneIfWoken);
    if AnyAsleep(s.workers[w := next]) {
      var i :| 0 <= i < |s.workers| && s.workers[w := next][i] == Asleep;
      assert s.workers[i] == Asleep;
    }
  }

  /** A producer that carries no wakeup may go anywhere but to sleep. */
  lemma OneProducerMoves(s: State, p: nat, next: Producer)
    requires NoLostWakeup(s) && p < |s.producers|
    requires (s.producers[p] == Idle || s.producers[p] == Waiting) && next != Waiting
    ensures NoLostWakeup(s.(producers := s.producers[p := next]))
  {
    SumUpdate(s.producers, p, next, OneIfAwake);
    SumUpdate(s.producers, p, next, OneIfSignalling);
    if AnyWaiting(s.producers[p := next]) {
      var i :| 0 <= i < |s.producers| && s.producers[p := next][i] == Waiting;
      assert s.producers[i] == Waiting;
    }
  }

  /** The steps that touch one thread and no counter. */
  lemma OtherStepsKeepWakeups(s: State, step: Step)
    requires Inv(s) && Enabled(s, step)
    requires !step.WorkerLock? && !step.ProducerLock? && !step.Signal?
    ensures NoLostWakeup(Apply(s, step))
  {
    match step {
      case Finish(w) => OneWorkerMoves(s, w, Starting);
      case SpuriousWorker(w) => OneWorkerMoves(s, w, Woken);
      case Call(p) => OneProducerMoves(s, p, Entering);
      case SpuriousProducer(p) => OneProducerMoves(s, p, Awake);
      case Shutdown =>
    }
  }

  /** What a worker copied it holds or loses; either way it is accounted for. */
  lemma BagTakes(workers: seq<Worker>, w: nat, next: Worker, copied: seq<int>, taken: seq<int>,
                 finished: multiset<int>, dropped: multiset<int>, lost: multiset<int>)
    requires w < |workers| && Task(workers[w]) == multiset{} && multiset(taken) == Task(next) + lost
    requires multiset(copied) == finished + dropped + Bag(workers, Task)
    ensures multiset(copied + taken) == finished + (dropped + lost) + Bag(workers[w := next], Task)
  {
    BagBalance(workers, w, next, Task, multiset(copied), finished + dropped, multiset(taken), lost);
    assert finished + dropped + lost == finished + (dropped + lost);
  }

  lemma SectionHoldsCopied(m: Shared)
    requires InRange(m)
    ensures var section := WorkerSection(m);
            multiset(section.copied) ==
            Task(section.next) + if section.next == Exited then multiset(section.copied) else multiset{}
  {
  }

  lemma WorkerKeepsTasks(s: State, w: nat, wakes: nat)
    requires InRange(s.mem) && TasksConserved(s) && Enabled(s, WorkerLock(w, wakes))
    ensures TasksConserved(LockWorker(s, w, wakes))
  {
    var section := WorkerSection(s.mem);
    var lost := if section.next == Exited then multiset(section.copied) else multiset{};
    SectionHoldsCopied(s.mem);
    BagTakes(s.workers, w, section.next, s.copied, section.copied, s.finished, s.dropped, lost);
  }

  lemma FinishKeepsTasks(s: State, w: nat)
    requires InRange(s.mem) && TasksConserved(s) && Enabled(s, Finish(w))
    ensures TasksConserved(Apply(s, Finish(w)))
  {
    var t := Apply(s, Finish(w));
    var task := Task(s.workers[w]);
    BagBalance(s.workers, w, Starting, Task, multiset(s.copied), s.finished + s.dropped, multiset{}, task);
    assert s.finished + s.dropped + task == t.finished + t.dropped;
    assert multiset(s.copied) + multiset{} == multiset(t.copied);
  }

  lemma WakeKeepsTasks(workers: seq<Worker>, w: nat)
    ensures Bag(WakeWorker(workers, w), Task) == Bag(workers, Task)
  {
    if w < |workers| && workers[w] == Asleep {
      BagSame(workers, w, Woken, Task);
    }
  }

  lemma StepKeepsTasks(s: State, step: Step)
    requires InRange(s.mem) && TasksConserved(s) && Enabled(s, step)
    ensures TasksConserved(Apply(s, step))
  {
    if step.WorkerLock? {
      WorkerKeepsTasks(s, step.w, step.wakes);
    } else if step.Finish? {
      FinishKeepsTasks(s, step.w);
    } else {
      var t := Apply(s, step);
      if step.SpuriousWorker? {
        WakeKeepsTasks(s.workers, step.w);
      } else if step.Signal? {
        WakeKeepsTasks(s.workers, step.wakes);
      }
      assert Bag(t.workers, Task) == Bag(s.workers, Task);
    }
  }

  lemma StepKeepsWorkers(s: State, step: Step)
    requires InRange(s.mem) && NobodyLeft(s) && Enabled(s, step)
    ensures NobodyLeft(Apply(s, step))
  {
    if step.WorkerLock? {
      WorkerKeepsWorkers(s, step.w, step.wakes);
    }
  }

  lemma WorkerKeepsWorkers(s: State, w: nat, wakes: nat)
    requires InRange(s.mem) && NobodyLeft(s) && w < |s.workers|
    ensures NobodyLeft(LockWorker(s, w, wakes))
  {
    var section := WorkerSection(s.mem);
    assert section.next == Exited ==> s.mem.shutdown;
  }

  lemma StepKeepsInv(s: State, step: Step)
    requires Inv(s) && Enabled(s, step)
    ensures Inv(Apply(s, step))
  {
    StepKeepsTasks(s, step);
    StepKeepsWorkers(s, step);
    match step {
      case WorkerLock(w, wakes) =>
        WorkerKeepsRing(s.mem);
        WorkerKeepsWakeups(s, w, wakes);
      case ProducerLock(p) =>
        if !IsFull(s.mem) { AddKeepsRing(s.mem); }
        ProducerKeepsWakeups(s, p);
      case Signal(p, wakes) => SignalKeepsWakeups(s, p, wakes);
      case _ => OtherStepsKeepWakeups(s, step);
    }
  }

  // ---------------------------------------------------------------- whole runs

  lemma {:induction false} RunKeepsInv(s: State, steps: seq<Step>, t: State)
    requires Inv(s) && Leads(s, steps, t)
    ensures Inv(t)
    decreases |steps|
  {
    if steps != [] {
      StepKeepsInv(s, steps[0]);
      RunKeepsInv(Apply(s, steps[0]), steps[1..], t);
    }
  }

  /** Safety over every interleaving: the counters agree, the k-th dequeue copied task
      1000 + k, no wakeup is lost, and every copied task is running in one worker or finished
      once; only workers that leave at shutdown drop what they copied. */
  lemma EveryRunIsSafe(s: State, steps: seq<Step>, t: State)
    requires Initial(s) && Leads(s, steps, t)
    ensures t.mem.jobNum == t.mem.jobPush - t.mem.jobPop
    ensures 0 <= t.mem.jobNum <= |t.mem.cells|
    ensures |t.copied| == t.mem.jobPop
    ensures forall k | 0 <= k < |t.copied| :: t.copied[k] == 1000 + k
    ensures AnyAsleep(t.workers) ==>
              t.mem.jobNum <= Sum(t.workers, OneIfWoken) + Sum(t.producers, OneIfSignalling)
    ensures AnyWaiting(t.producers) ==>
              |t.mem.cells| - t.mem.jobNum <= Sum(t.producers, OneIfAwake)
    ensures multiset(t.copied) == t.finished + t.dropped + Bag(t.workers, Task)
    ensures !t.mem.shutdown ==> t.dropped == multiset{}
  {
    InitialInv(s);
    RunKeepsInv(s, steps, t);
  }

  // ---------------------------------------------------------------- shutdown

  predicate Locks(step: Step, w: nat) {
    step.WorkerLock? && step.w == w
  }

  lemma StepAfterShutdown(s: State, step: Step, w: nat)
    requires InRange(s.mem) && Enabled(s, step) && s.mem.shutdown && w < |s.workers|
    ensures var t := Apply(s, step);
            && t.mem.shutdown && |t.workers| == |s.workers|
            && (t.workers[w].Running? ==> t.workers[w] == s.workers[w])
            && (Locks(step, w) || s.workers[w] == Exited ==> t.workers[w] == Exited)
  {
  }

  /** After shutdown no job starts running, whatever is still queued or copied: a worker that
      runs one had it before, and a worker that reaches its lock leaves for good. */
  lemma {:induction false} NoJobStartsAfterShutdown(s: State, steps: seq<Step>, t: State, w: nat)
    requires s.mem.shutdown && Leads(s, steps, t) && w < |s.workers|
    ensures t.mem.shutdown && |t.workers| == |s.workers|
    ensures t.workers[w].Running? ==> t.workers[w] == s.workers[w]
    ensures s.workers[w] == Exited || (exists i :: 0 <= i < |steps| && Locks(steps[i], w)) ==>
              t.workers[w] == Exited
    decreases |steps|
  {
    if steps != [] {
      StepAfterShutdown(s, steps[0], w);
      NoJobStartsAfterShutdown(Apply(s, steps[0]), steps[1..], t, w);
      assert forall i | 1 <= i < |steps| :: steps[i] == steps[1..][i - 1];
    }
  }

  // ---------------------------------------------------------------- progress

  /** The steps of threads that are inside the pool's code: no new calls, no wakeups that
      nobody sent, no shutdown. */
  predicate IsProgress(step: Step) {
    step.WorkerLock? || step.Finish? || step.ProducerLock? || step.Signal?
  }

  ghost predicate Stuck(s: State) {
    forall step | IsProgress(step) :: !Enabled(s, step)
  }

  /** When nothing can move, every worker sleeps and every producer waits or is outside. */
  lemma StuckPositions(s: State)
    requires Inv(s) && Stuck(s) && !s.mem.shutdown
    ensures forall i | 0 <= i < |s.workers| :: s.workers[i] == Asleep
    ensures forall i | 0 <= i < |s.producers| :: s.producers[i] == Idle || s.producers[i] == Waiting
  {
    var p := if AnyWaiting(s.producers) then
               var i :| 0 <= i < |s.producers| && s.producers[i] == Waiting; i else 0;
    var a := if AnyAsleep(s.workers) then
               var i :| 0 <= i < |s.workers| && s.workers[i] == Asleep; i else 0;
    forall i | 0 <= i < |s.workers| ensures s.workers[i] == Asleep {
      assert !Enabled(s, WorkerLock(i, p));
      assert !Enabled(s, Finish(i));
    }
    forall i | 0 <= i < |s.producers|
      ensures s.producers[i] == Idle || s.producers[i] == Waiting
    {
      assert !Enabled(s, ProducerLock(i));
      assert !Enabled(s, Signal(i, a));
    }
  }

  /** Nothing queued, nobody inside `addtask`, every task ever added finished exactly once. */
  ghost predicate Done(s: State) {
    && s.mem.jobNum == 0
    && (forall i | 0 <= i < |s.producers| :: s.producers[i] == Idle)
    && s.mem.jobPush >= 0
    && s.finished == multiset(Numbers(s.mem.jobPush))
  }

  /** Deadlock freedom: with a worker and room for a task, a state where nothing can move has
      nothing left to do. */
  lemma StuckMeansDone(s: State)
    requires Inv(s) && Stuck(s)
    requires |s.workers| > 0 && |s.mem.cells| > 0 && !s.mem.shutdown
    ensures Done(s)
  {
    StuckPositions(s);
    SumZero(s.workers, OneIfWoken);
    SumZero(s.producers, OneIfSignalling);
    SumZero(s.producers, OneIfAwake);
    BagEmpty(s.workers, Task);
    assert s.workers[0] == Asleep;
  }

  // ---------------------------------------------------------------- termination

  /** How much work a worker or a producer still stands for; a queued task counts 3. */
  function WorkerWork(w: Worker): nat {
    match w
    case Asleep => 0
    case Exited => 0
    case Starting => 1
    case Woken => 1
    case Running(_) => 2
  }

  function ProducerWork(p: Producer): nat {
    match p
    case Idle => 0
    case Signalling => 2
    case Waiting => 5
    case Entering => 6
    case Awake => 6
  }

  ghost function WorkLeft(s: State): nat
    requires InRange(s.mem)
  {
    3 * s.mem.jobNum + Sum(s.workers, WorkerWork) + Sum(s.producers, ProducerWork)
  }

  lemma WorkerUsesUpWork(s: State, w: nat, wakes: nat)
    requires Inv(s) && Enabled(s, WorkerLock(w, wakes))
    ensures var t := LockWorker(s, w, wakes); InRange(t.mem) && WorkLeft(t) < WorkLeft(s)
  {
    SumUpdate(s.workers, w, WorkerSection(s.mem).next, WorkerWork);
    if wakes < |s.producers| {
      SumUpdate(s.producers, wakes, Awake, ProducerWork);
    }
  }

  lemma ProducerUsesUpWork(s: State, p: nat)
    requires Inv(s) && Enabled(s, ProducerLock(p))
    ensures var t := LockProducer(s, p); InRange(t.mem) && WorkLeft(t) < WorkLeft(s)
  {
    SumUpdate(s.producers, p, if IsFull(s.mem) then Waiting else Signalling, ProducerWork);
  }

  lemma SignalUsesUpWork(s: State, p: nat, wakes: nat)
    requires Inv(s) && Enabled(s, Signal(p, wakes))
    ensures WorkLeft(Apply(s, Signal(p, wakes))) < WorkLeft(s)
  {
    SumUpdate(s.producers, p, Idle, ProducerWork);
    if wakes < |s.workers| {
      SumUpdate(s.workers, wakes, Woken, WorkerWork);
    }
  }

  lemma ProgressUsesUpWork(s: State, step: Step)
    requires Inv(s) && Enabled(s, step) && IsProgress(step)
    ensures InRange(Apply(s, step).mem) && WorkLeft(Apply(s, step)) < WorkLeft(s)
  {
    match step {
      case WorkerLock(w, wakes) => WorkerUsesUpWork(s, w, wakes);
      case Finish(w) => SumUpdate(s.workers, w, Starting, WorkerWork);
      case ProducerLock(p) => ProducerUsesUpWork(s, p);
      case Signal(p, wakes) => SignalUsesUpWork(s, p, wakes);
    }
  }

  lemma ProgressKeepsShape(s: State, step: Step)
    requires InRange(s.mem) && Enabled(s, step) && IsProgress(step)
    ensures var t := Apply(s, step);
            && |t.workers| == |s.workers|
            && |t.mem.cells| == |s.mem.cells|
            && t.mem.shutdown == s.mem.shutdown
  {
    match step {
      case WorkerLock(w, wakes) => assert LockWorker(s, w, wakes).mem == WorkerSection(s.mem).mem;
      case _ =>
    }
  }

  lemma {:induction false} ScheduleUsesUpWork(s: State, steps: seq<Step>, t: State)
    requires Inv(s) && Leads(s, steps, t)
    requires forall i | 0 <= i < |steps| :: IsProgress(steps[i])
    ensures Inv(t) && |steps| + WorkLeft(t) <= WorkLeft(s)
    ensures |t.workers| == |s.workers| && |t.mem.cells| == |s.mem.cells|
    ensures t.mem.shutdown == s.mem.shutdown
    decreases |steps|
  {
    if steps != [] {
      var next := Apply(s, steps[0]);
      ProgressUsesUpWork(s, steps[0]);
      ProgressKeepsShape(s, steps[0]);
      StepKeepsInv(s, steps[0]);
      ScheduleUsesUpWork(next, steps[1..], t);
    }
  }

  /** Liveness without a fairness assumption.  Take any reachable state before shutdown and
      let only the threads already inside the pool run: no schedule is longer than `WorkLeft`,
      and one that cannot be extended has finished every task that was ever added. */
  lemma EveryScheduleDrains(start: State, before: seq<Step>, s: State, steps: seq<Step>, t: State)
    requires Initial(start) && Leads(start, before, s) && Leads(s, steps, t)
    requires forall i | 0 <= i < |steps| :: IsProgress(steps[i])
    requires |s.workers| > 0 && |s.mem.cells| > 0 && !s.mem.shutdown
    ensures InRange(s.mem) && |steps| <= WorkLeft(s)
    ensures Stuck(t) ==> Done(t)
  {
    InitialInv(start);
    RunKeepsInv(start, before, s);
    ScheduleUsesUpWork(s, steps, t);
    if Stuck(t) {
      StuckMeansDone(t);
    }
  }
}

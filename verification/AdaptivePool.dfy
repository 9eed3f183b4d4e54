/**
 The adaptive thread pool (threadpool.c): producers, workers and a manager thread that
 grows and shrinks the set of workers from snapshots it took earlier.

 `lock` protects the ring and the thread counters, `thread_counter` protects
 `busy_thr_num`.  Each critical section is one step.  A thread's table entry is where that
 thread is; an entry is `Free` when its `threads[i]` is zero or its thread is gone.
 */
module AdaptivePool {
  import opened RingIndex
  import opened Totals

  const MIN_WAIT_TASK_NUM := 10
  const DEFAULT_THREAD_VARY := 10

  datatype Task = Task(routine: int, arg: int)

  datatype Shared = Shared(cells: seq<Task>, front: int, rear: int, size: int,
                           minThr: int, maxThr: int, live: int, waitExit: int,
                           busy: int, shutdown: bool)

  datatype Worker =
    | Free
    | Starting
    | Asleep
    | Woken
    | Holding(task: Task)      // dequeued, not yet counted busy
    | Busy(task: Task)         // between the two updates of busy_thr_num
    | Leaving(retired: bool)   // past its last unlock, thread not gone yet

  datatype Producer = Outside | Entering(task: Task) | Waiting(task: Task) | Awakened(task: Task)

  datatype Manager =
    | Testing
    | Napping
    | Counted(queue: int, live: int)
    | Sampled(queue: int, live: int, busy: int)
    | Grown(live: int, busy: int)
    | Waking(left: nat)
    | Stopped

  // ---------------------------------------------------------------- the ring

  predicate RingOk(m: Shared) {
    && 0 <= m.size <= |m.cells|
    && (|m.cells| > 0 ==> 0 <= m.front < |m.cells| && m.rear == (m.front + m.size) % |m.cells|)
  }

  /** The queued tasks, oldest first. */
  function Contents(m: Shared): (tasks: seq<Task>)
    requires RingOk(m)
    ensures |tasks| == m.size
  {
    seq(m.size, i requires 0 <= i < m.size => m.cells[(m.front + i) % |m.cells|])
  }

  predicate IsFull(m: Shared) {
    m.size == |m.cells|
  }

  function PutTask(m: Shared, task: Task): Shared
    requires RingOk(m) && !IsFull(m)
  {
    m.(cells := m.cells[m.rear := task], rear := (m.rear + 1) % |m.cells|, size := m.size + 1)
  }

  function TakeTask(m: Shared): Shared
    requires RingOk(m) && m.size > 0
  {
    m.(front := (m.front + 1) % |m.cells|, size := m.size - 1)
  }

  lemma PutAppends(m: Shared, task: Task)
    requires RingOk(m) && !IsFull(m)
    ensures RingOk(PutTask(m, task))
    ensures Contents(PutTask(m, task)) == Contents(m) + [task]
  {
    var n := |m.cells|;
    WrapOnce(m.front + m.size, n);
    WrapOnce(m.rear + 1, n);
    WrapOnce(m.front + m.size + 1, n);
    forall i | 0 <= i < m.size
      ensures Contents(PutTask(m, task))[i] == Contents(m)[i]
    {
      WrapOnce(m.front + i, n);
    }
  }

  lemma TakeRemovesOldest(m: Shared)
    requires RingOk(m) && m.size > 0
    ensures RingOk(TakeTask(m))
    ensures Contents(m) == [m.cells[m.front]] + Contents(TakeTask(m))
  {
    var n, t := |m.cells|, TakeTask(m);
    WrapOnce(m.front + m.size, n);
    WrapOnce(m.front + 1, n);
    WrapOnce(t.front + t.size, n);
    WrapOnce(m.front, n);
    forall i | 0 <= i < t.size
      ensures Contents(t)[i] == Contents(m)[i + 1]
    {
      WrapOnce(t.front + i, n);
      WrapOnce(m.front + (i + 1), n);
    }
  }

  // ---------------------------------------------------------------- critical sections

  /** What one worker section leaves behind: the fields, a dequeued task (none or one)
      and where the worker goes. */
  datatype Section = Section(mem: Shared, taken: seq<Task>, next: Worker)

  /** One worker section, after a lock acquisition or after a wait. */
  function RunSection(m: Shared, woken: bool): Section
    requires RingOk(m)
  {
    if woken then WokenSection(m) else LoopSection(m)
  }

  /** `threadpool_thread` from its loop test under the lock to the next unlock or wait. */
  function LoopSection(m: Shared): Section
    requires RingOk(m)
  {
    if m.size == 0 && !m.shutdown then
      Section(m, [], Asleep)
    else if m.shutdown then
      Section(m, [], Leaving(false))
    else
      Section(TakeTask(m), [m.cells[m.front]], Holding(m.cells[m.front]))
  }

  /** The same, entered by returning from the wait: a pending exit request is consumed first,
      before `queue_size` is looked at again. */
  function WokenSection(m: Shared): Section
    requires RingOk(m)
  {
    if m.waitExit > 0 then
      var n := m.(waitExit := m.waitExit - 1);
      if m.live > m.minThr then Section(n.(live := m.live - 1), [], Leaving(true))
      else LoopSection(n)
    else
      LoopSection(m)
  }

  /** The manager's growth loop from entry `i` on, with `add` threads started so far: the
      table and the live count it ends with. */
  function Grow(threads: seq<Worker>, live: int, maxThr: int, i: nat, add: nat): (seq<Worker>, int)
    decreases |threads| - i
  {
    if i < |threads| && add < DEFAULT_THREAD_VARY && live < maxThr then
      if threads[i] == Free then Grow(threads[i := Starting], live + 1, maxThr, i + 1, add + 1)
      else Grow(threads, live, maxThr, i + 1, add)
    else
      (threads, live)
  }

  datatype AddResult = MustWait | Refused | Accepted

  /** The pool in memory; `threads` records for each entry where its thread is. */
  class ThreadPool {
    const taskQueue: array<Task>
    const threads: array<Worker>
    var queueFront: int
    var queueRear: int
    var queueSize: int
    const minThrNum: int
    const maxThrNum: int
    var liveThrNum: int
    var waitExitThrNum: int
    var busyThrNum: int
    var shutdown: bool

    ghost function View(): Shared
      reads this, taskQueue
    {
      Shared(taskQueue[..], queueFront, queueRear, queueSize, minThrNum, maxThrNum,
             liveThrNum, waitExitThrNum, busyThrNum, shutdown)
    }

    ghost predicate Valid()
      reads this, taskQueue
    {
      RingOk(View()) && threads.Length == maxThrNum
    }

    constructor (minThr: nat, maxThr: nat, queueMax: nat)
      requires minThr <= maxThr
      ensures Valid() && fresh(taskQueue) && fresh(threads)
      ensures taskQueue.Length == queueMax
      ensures View() == EmptyPool(taskQueue[..], minThr, maxThr)
      ensures threads[..] == StartedThreads(minThr, maxThr)
    {
      taskQueue := new Task[queueMax](_ => Task(0, 0));
      threads := new Worker[maxThr](_ => Free);
      minThrNum, maxThrNum, liveThrNum := minThr, maxThr, minThr;
      busyThrNum, waitExitThrNum, shutdown := 0, 0, false;
      queueFront, queueRear, queueSize := 0, 0, 0;
      new;
      for i := 0 to minThr
        invariant forall k | 0 <= k < maxThr :: threads[k] == if k < i then Starting else Free
        modifies threads
      {
        threads[i] := Starting;
      }
    }

    /** `threadpool_add` from a lock acquisition to the next unlock or wait. */
    method RunAddSection(task: Task) returns (r: AddResult)
      requires Valid()
      modifies this, taskQueue
      ensures Valid()
      ensures r == if old(shutdown) then Refused
                   else if IsFull(old(View())) then MustWait else Accepted
      ensures View() == if r == Accepted then PutTask(old(View()), task) else old(View())
    {
      if queueSize == taskQueue.Length && !shutdown {
        return MustWait;
      }
      if shutdown {
        return Refused;
      }
      PutAppends(View(), task);
      WrapOnce(queueFront + queueSize, taskQueue.Length);
      taskQueue[queueRear] := task;
      queueRear := (queueRear + 1) % taskQueue.Length;
      queueSize := queueSize + 1;
      r := Accepted;
    }

    method RunWorkerSection(woken: bool) returns (taken: seq<Task>, next: Worker)
      requires Valid()
      modifies this
      ensures Valid()
      ensures Section(View(), taken, next) ==
              RunSection(old(View()), woken)
    {
      taken := [];
      if woken && waitExitThrNum > 0 {
        waitExitThrNum := waitExitThrNum - 1;
        if liveThrNum > minThrNum {
          liveThrNum := liveThrNum - 1;
          return taken, Leaving(true);
        }
      }
      if queueSize == 0 && !shutdown {
        return taken, Asleep;
      }
      if shutdown {
        return taken, Leaving(false);
      }
      ghost var before := View();
      TakeRemovesOldest(before);
      var task := taskQueue[queueFront];
      queueFront := (queueFront + 1) % taskQueue.Length;
      queueSize := queueSize - 1;
      taken, next := [task], Holding(task);
      assert View() == TakeTask(before);
    }

    method RunGrowSection()
      requires Valid()
      modifies this`liveThrNum, threads
      ensures Valid()
      ensures (threads[..], liveThrNum) == Grow(old(threads[..]), old(liveThrNum), maxThrNum, 0, 0)
      ensures View() == old(View()).(live := liveThrNum)
    {
      var i, add := 0, 0;
      while i < maxThrNum && add < DEFAULT_THREAD_VARY && liveThrNum < maxThrNum
        invariant 0 <= i <= maxThrNum && 0 <= add
        invariant Grow(threads[..], liveThrNum, maxThrNum, i, add) ==
                  Grow(old(threads[..]), old(liveThrNum), maxThrNum, 0, 0)
        invariant View() == old(View()).(live := liveThrNum)
      {
        if threads[i] == Free {
          ghost var before := threads[..];
          threads[i] := Starting;
          assert threads[..] == before[i := Starting];
          add := add + 1;
          liveThrNum := liveThrNum + 1;
        }
        i := i + 1;
      }
    }
  }

  function EmptyPool(cells: seq<Task>, minThr: int, maxThr: int): Shared {
    Shared(cells, 0, 0, 0, minThr, maxThr, minThr, 0, 0, false)
  }

  function StartedThreads(minThr: nat, maxThr: nat): seq<Worker> {
    seq(maxThr, i => if i < minThr then Starting else Free)
  }

  // ---------------------------------------------------------------- the protocol

  /** The fields, every thread's position and the history of the run: accepted and dequeued
      tasks in order, completed tasks, retired workers, shrink decisions, and retirements
      that consumed a wakeup while tasks were queued. */
  datatype State = State(mem: Shared, threads: seq<Worker>, producers: seq<Producer>, manager: Manager,
                         accepted: seq<Task>, started: seq<Task>, completed: multiset<Task>,
                         retired: nat, shrinks: nat, spent: nat)

  datatype Step =
    | WorkerLock(w: nat)
    | StartTask(w: nat)
    | EndTask(w: nat)
    | Die(w: nat)
    | Call(p: nat, task: Task)
    | ProducerLock(p: nat, wakes: nat)
    | Manage(wakes: nat)
    | DecideGrowth
    | SpuriousWorker(w: nat)
    | SpuriousProducer(p: nat)
    | Shutdown

  ghost predicate AnyAsleep(threads: seq<Worker>) {
    exists i :: 0 <= i < |threads| && threads[i] == Asleep
  }

  ghost predicate AnyWaiting(producers: seq<Producer>) {
    exists i :: 0 <= i < |producers| && producers[i].Waiting?
  }

  /** A signal on `queue_not_empty` picks a sleeping worker when there is one. */
  ghost predicate CanWake(threads: seq<Worker>, i: nat) {
    AnyAsleep(threads) ==> i < |threads| && threads[i] == Asleep
  }

  function WakeOne(threads: seq<Worker>, i: nat): seq<Worker> {
    if i < |threads| && threads[i] == Asleep then threads[i := Woken] else threads
  }

  /** Broadcasts wake every waiter. */
  function WakeAllWorkers(threads: seq<Worker>): seq<Worker> {
    seq(|threads|, i requires 0 <= i < |threads| => if threads[i] == Asleep then Woken else threads[i])
  }

  function WakeAllProducers(producers: seq<Producer>): seq<Producer> {
    seq(|producers|, i requires 0 <= i < |producers| =>
      if producers[i].Waiting? then Awakened(producers[i].task) else producers[i])
  }

  ghost predicate Enabled(s: State, step: Step) {
    match step
    case WorkerLock(w) => w < |s.threads| && (s.threads[w] == Starting || s.threads[w] == Woken)
    case StartTask(w) => w < |s.threads| && s.threads[w].Holding?
    case EndTask(w) => w < |s.threads| && s.threads[w].Busy?
    case Die(w) => w < |s.threads| && s.threads[w].Leaving?
    case Call(p, _) => p < |s.producers| && s.producers[p] == Outside
    case ProducerLock(p, wakes) =>
      && p < |s.producers|
      && (s.producers[p].Entering? || s.producers[p].Awakened?)
      && CanWake(s.threads, wakes)
    case Manage(wakes) =>
      s.manager != Stopped && !s.manager.Sampled? && CanWake(s.threads, wakes)
    case DecideGrowth => s.manager.Sampled?
    case SpuriousWorker(w) => w < |s.threads| && s.threads[w] == Asleep
    case SpuriousProducer(p) => p < |s.producers| && s.producers[p].Waiting?
    case Shutdown => true
  }

  ghost function LockWorker(s: State, w: nat): State
    requires RingOk(s.mem) && w < |s.threads|
  {
    var section := RunSection(s.mem, s.threads[w] == Woken);
    var retires := if section.next == Leaving(true) then 1 else 0;
    s.(mem := section.mem,
       threads := s.threads[w := section.next],
       producers := if section.taken == [] then s.producers else WakeAllProducers(s.producers),
       started := s.started + section.taken,
       retired := s.retired + retires,
       spent := s.spent + if s.mem.size > 0 then retires else 0)
  }

  ghost function LockProducer(s: State, p: nat, wakes: nat): State
    requires RingOk(s.mem) && p < |s.producers| && !s.producers[p].Outside?
  {
    var task := s.producers[p].task;
    if IsFull(s.mem) && !s.mem.shutdown then
      s.(producers := s.producers[p := Waiting(task)])
    else if s.mem.shutdown then
      s.(producers := s.producers[p := Outside], threads := WakeAllWorkers(s.threads))
    else
      s.(mem := PutTask(s.mem, task), producers := s.producers[p := Outside],
         threads := WakeOne(s.threads, wakes), accepted := s.accepted + [task])
  }

  /** The manager's growth decision, made from the snapshots it carries. */
  ghost function DecideGrow(s: State): State
    requires s.manager.Sampled?
  {
    var Sampled(queue, live, busy) := s.manager;
    if queue >= MIN_WAIT_TASK_NUM && live < s.mem.maxThr then
      var (threads, newLive) := Grow(s.threads, s.mem.live, s.mem.maxThr, 0, 0);
      s.(manager := Grown(live, busy), threads := threads, mem := s.mem.(live := newLive))
    else
      s.(manager := Grown(live, busy))
  }

  /** Every other step of `adjust_thread`. */
  ghost function RunManager(s: State, wakes: nat): State
    requires !s.manager.Sampled?
  {
    match s.manager
    case Testing => s.(manager := if s.mem.shutdown then Stopped else Napping)
    case Napping => s.(manager := Counted(s.mem.size, s.mem.live))
    case Counted(queue, live) => s.(manager := Sampled(queue, live, s.mem.busy))
    case Grown(live, busy) =>
      if busy * 2 < live && live > s.mem.minThr then
        s.(manager := Waking(DEFAULT_THREAD_VARY), shrinks := s.shrinks + 1,
           mem := s.mem.(waitExit := DEFAULT_THREAD_VARY))
      else
        s.(manager := Testing)
    case Waking(left) =>
      if left == 0 then s.(manager := Testing)
      else s.(manager := Waking(left - 1), threads := WakeOne(s.threads, wakes))
    case Stopped => s
  }

  ghost function Apply(s: State, step: Step): State
    requires RingOk(s.mem) && Enabled(s, step)
  {
    match step
    case WorkerLock(w) => LockWorker(s, w)
    case StartTask(w) =>
      s.(threads := s.threads[w := Busy(s.threads[w].task)], mem := s.mem.(busy := s.mem.busy + 1))
    case EndTask(w) =>
      s.(threads := s.threads[w := Starting], mem := s.mem.(busy := s.mem.busy - 1),
         completed := s.completed + multiset{s.threads[w].task})
    case Die(w) => s.(threads := s.threads[w := Free])
    case Call(p, task) => s.(producers := s.producers[p := Entering(task)])
    case ProducerLock(p, wakes) => LockProducer(s, p, wakes)
    case Manage(wakes) => RunManager(s, wakes)
    case DecideGrowth => DecideGrow(s)
    case SpuriousWorker(w) => s.(threads := s.threads[w := Woken])
    case SpuriousProducer(p) => s.(producers := s.producers[p := Awakened(s.producers[p].task)])
    case Shutdown => s.(mem := s.mem.(shutdown := true))
  }

  ghost predicate Leads(s: State, steps: seq<Step>, t: State)
    decreases |steps|
  {
    if steps == [] then s == t
    else RingOk(s.mem) && Enabled(s, steps[0]) && Leads(Apply(s, steps[0]), steps[1..], t)
  }

  ghost predicate Initial(s: State) {
    && 0 <= s.mem.minThr <= s.mem.maxThr
    && s.mem == EmptyPool(s.mem.cells, s.mem.minThr, s.mem.maxThr)
    && s.threads == StartedThreads(s.mem.minThr, s.mem.maxThr)
    && (forall i | 0 <= i < |s.producers| :: s.producers[i] == Outside)
    && s.manager == Testing
    && s.accepted == s.started == []
    && s.completed == multiset{}
    && s.retired == s.shrinks == s.spent == 0
  }

  // ---------------------------------------------------------------- counters

  /** Workers that `live_thr_num` is meant to count. */
  function OneIfCounted(w: Worker): nat { if w.Free? || w.Leaving? then 0 else 1 }
  function OneIfBusy(w: Worker): nat { if w.Busy? then 1 else 0 }
  function OneIfFree(w: Worker): nat { if w.Free? then 1 else 0 }
  function OneIfWoken(w: Worker): nat { if w.Woken? then 1 else 0 }
  function HeldTask(w: Worker): multiset<Task> {
    if w.Holding? || w.Busy? then multiset{w.task} else multiset{}
  }

  /** Before shutdown `live_thr_num` is exact; a worker that leaves because of shutdown does
      not lower it, so afterwards it can only be too high. */
  ghost predicate CountersOk(s: State) {
    && |s.threads| == s.mem.maxThr
    && s.mem.minThr <= s.mem.live <= s.mem.maxThr
    && Sum(s.threads, OneIfCounted) <= s.mem.live
    && (!s.mem.shutdown ==> Sum(s.threads, OneIfCounted) == s.mem.live)
    && s.mem.busy == Sum(s.threads, OneIfBusy)
  }

  /** Each shrink decision asks for at most ten exits, however the requests are consumed. */
  ghost predicate ExitsOk(s: State) {
    && 0 <= s.mem.waitExit
    && s.spent <= s.retired
    && s.retired + s.mem.waitExit <= 10 * s.shrinks
  }

  /** The growth loop only turns free entries into starting threads. */
  lemma {:induction false} GrowOnlyStarts(threads: seq<Worker>, live: int, maxThr: int, i: nat, add: nat)
    ensures var grown := Grow(threads, live, maxThr, i, add).0;
            && |grown| == |threads|
            && forall k | 0 <= k < |threads| ::
                 grown[k] == threads[k] || (threads[k] == Free && grown[k] == Starting)
    decreases |threads| - i
  {
    if i < |threads| && add < DEFAULT_THREAD_VARY && live < maxThr {
      if threads[i] == Free {
        GrowOnlyStarts(threads[i := Starting], live + 1, maxThr, i + 1, add + 1);
      } else {
        GrowOnlyStarts(threads, live, maxThr, i + 1, add);
      }
    }
  }

  /** It raises `live_thr_num` by exactly the threads it starts, and stops at the maximum. */
  lemma {:induction false} GrowCounts(threads: seq<Worker>, live: int, maxThr: int, i: nat, add: nat)
    requires live <= maxThr
    ensures var (grown, newLive) := Grow(threads, live, maxThr, i, add);
            && live <= newLive <= maxThr
            && Sum(grown, OneIfCounted) - Sum(threads, OneIfCounted) == newLive - live
    decreases |threads| - i
  {
    if i < |threads| && add < DEFAULT_THREAD_VARY && live < maxThr {
      if threads[i] == Free {
        SumUpdate(threads, i, Starting, OneIfCounted);
        GrowCounts(threads[i := Starting], live + 1, maxThr, i + 1, add + 1);
      } else {
        GrowCounts(threads, live, maxThr, i + 1, add);
      }
    }
  }

  /** Free entries left of `i` after the loop has passed them. */
  ghost predicate Passed(threads: seq<Worker>, i: nat) {
    forall k | 0 <= k < i && k < |threads| :: threads[k] != Free
  }

  /** The scan never runs out of room in the live count before it runs out of free entries. */
  lemma {:induction false} GrowFills(threads: seq<Worker>, live: int, maxThr: int, i: nat, add: nat)
    requires i <= |threads| && add <= DEFAULT_THREAD_VARY && Passed(threads, i)
    requires Sum(threads, OneIfFree) <= maxThr - live
    ensures Grow(threads, live, maxThr, i, add).1 - live ==
            if Sum(threads, OneIfFree) <= DEFAULT_THREAD_VARY - add then Sum(threads, OneIfFree)
            else DEFAULT_THREAD_VARY - add
    decreases |threads| - i
  {
    if i < |threads| && add < DEFAULT_THREAD_VARY && live < maxThr {
      if threads[i] == Free {
        SumUpdate(threads, i, Starting, OneIfFree);
        GrowFills(threads[i := Starting], live + 1, maxThr, i + 1, add + 1);
      } else {
        GrowFills(threads, live, maxThr, i + 1, add);
      }
    } else if i == |threads| {
      SumZero(threads, OneIfFree);
    }
  }

  /** Free entries and counted workers together fit the table. */
  lemma {:induction false} FreeAndCounted(threads: seq<Worker>)
    ensures Sum(threads, OneIfFree) + Sum(threads, OneIfCounted) <= |threads|
  {
    if threads != [] {
      FreeAndCounted(threads[1..]);
    }
  }

  /** One growth decision starts ten threads, or one per free entry when there are fewer:
      entries whose retired thread has not ended yet are the only ones it cannot use. */
  lemma GrowthIsExact(s: State)
    requires CountersOk(s) && !s.mem.shutdown
    ensures Grow(s.threads, s.mem.live, s.mem.maxThr, 0, 0).1 - s.mem.live ==
            if Sum(s.threads, OneIfFree) <= DEFAULT_THREAD_VARY then Sum(s.threads, OneIfFree)
            else DEFAULT_THREAD_VARY
  {
    FreeAndCounted(s.threads);
    GrowFills(s.threads, s.mem.live, s.mem.maxThr, 0, 0);
  }

  lemma WorkerKeepsCounters(s: State, w: nat)
    requires RingOk(s.mem) && CountersOk(s) && Enabled(s, WorkerLock(w))
    ensures CountersOk(LockWorker(s, w))
  {
    var next := LockWorker(s, w).threads[w];
    SumUpdate(s.threads, w, next, OneIfCounted);
    SumUpdate(s.threads, w, next, OneIfBusy);
  }

  lemma WakeKeepsSums(before: seq<Worker>, after: seq<Worker>)
    requires |before| == |after|
    requires forall i | 0 <= i < |before| :: after[i] == before[i] || (before[i] == Asleep && after[i] == Woken)
    ensures Sum(after, OneIfCounted) == Sum(before, OneIfCounted)
    ensures Sum(after, OneIfBusy) == Sum(before, OneIfBusy)
    ensures Bag(after, HeldTask) == Bag(before, HeldTask)
  {
    SumPointwise(before, after, OneIfCounted);
    SumPointwise(before, after, OneIfBusy);
    BagPointwise(before, after, HeldTask);
  }

  lemma GrowKeepsCounters(s: State)
    requires CountersOk(s) && s.manager.Sampled?
    ensures CountersOk(DecideGrow(s))
  {
    GrowOnlyStarts(s.threads, s.mem.live, s.mem.maxThr, 0, 0);
    GrowCounts(s.threads, s.mem.live, s.mem.maxThr, 0, 0);
    SumPointwise(s.threads, DecideGrow(s).threads, OneIfBusy);
  }

  lemma ManagerKeepsCounters(s: State, wakes: nat)
    requires CountersOk(s) && !s.manager.Sampled?
    ensures CountersOk(RunManager(s, wakes))
  {
    if s.manager.Waking? && s.manager.left > 0 {
      WakeKeepsSums(s.threads, WakeOne(s.threads, wakes));
    } else {
      assert RunManager(s, wakes).threads == s.threads;
    }
  }

  /** A thread moves without joining or leaving the pool; `busyNow` follows what it does. */
  lemma OneThreadKeepsCounters(s: State, w: nat, next: Worker, busyNow: int)
    requires CountersOk(s) && w < |s.threads| && OneIfCounted(s.threads[w]) == OneIfCounted(next)
    requires busyNow == s.mem.busy - OneIfBusy(s.threads[w]) + OneIfBusy(next)
    ensures CountersOk(s.(threads := s.threads[w := next], mem := s.mem.(busy := busyNow)))
  {
    SumUpdate(s.threads, w, next, OneIfCounted);
    SumUpdate(s.threads, w, next, OneIfBusy);
  }

  lemma ThreadStepKeepsCounters(s: State, step: Step)
    requires RingOk(s.mem) && CountersOk(s) && Enabled(s, step)
    requires step.StartTask? || step.EndTask? || step.Die? || step.SpuriousWorker?
    ensures CountersOk(Apply(s, step))
  {
    match step {
      case StartTask(w) => OneThreadKeepsCounters(s, w, Busy(s.threads[w].task), s.mem.busy + 1);
      case EndTask(w) => OneThreadKeepsCounters(s, w, Starting, s.mem.busy - 1);
      case Die(w) => OneThreadKeepsCounters(s, w, Free, s.mem.busy);
      case SpuriousWorker(w) => OneThreadKeepsCounters(s, w, Woken, s.mem.busy);
    }
  }

  lemma ProducerKeepsCounters(s: State, p: nat, wakes: nat)
    requires RingOk(s.mem) && CountersOk(s) && Enabled(s, ProducerLock(p, wakes))
    ensures CountersOk(LockProducer(s, p, wakes))
  {
    WakeKeepsSums(s.threads, LockProducer(s, p, wakes).threads);
  }

  lemma StepKeepsCounters(s: State, step: Step)
    requires RingOk(s.mem) && CountersOk(s) && Enabled(s, step)
    ensures CountersOk(Apply(s, step))
  {
    match step {
      case WorkerLock(w) => WorkerKeepsCounters(s, w);
      case ProducerLock(p, wakes) => ProducerKeepsCounters(s, p, wakes);
      case Manage(wakes) => ManagerKeepsCounters(s, wakes);
      case DecideGrowth => GrowKeepsCounters(s);
      case Call(_, _) =>
      case SpuriousProducer(_) =>
      case Shutdown =>
      case _ => ThreadStepKeepsCounters(s, step);
    }
  }

  // ---------------------------------------------------------------- tasks

  /** Nothing is overtaken: the accepted tasks in order are the dequeued ones followed by
      the ring. */
  ghost predicate QueueOk(s: State) {
    RingOk(s.mem) && s.accepted == s.started + Contents(s.mem)
  }

  /** Nothing is lost or duplicated: each dequeued task is held by one worker or completed. */
  ghost predicate TasksOk(s: State) {
    multiset(s.started) == s.completed + Bag(s.threads, HeldTask)
  }

  lemma SectionTakesOldest(m: Shared, woken: bool)
    requires RingOk(m)
    ensures var section := RunSection(m, woken);
            RingOk(section.mem) && Contents(m) == section.taken + Contents(section.mem)
  {
    if m.size > 0 { TakeRemovesOldest(m); }
    assert RunSection(m, woken).taken == [] ==> Contents(RunSection(m, woken).mem) == Contents(m);
  }

  lemma MoveFirst<T>(started: seq<T>, taken: seq<T>, queued: seq<T>)
    ensures started + (taken + queued) == (started + taken) + queued
  {
  }

  lemma WorkerKeepsQueue(s: State, w: nat)
    requires QueueOk(s) && Enabled(s, WorkerLock(w))
    ensures QueueOk(LockWorker(s, w))
  {
    var section := RunSection(s.mem, s.threads[w] == Woken);
    SectionTakesOldest(s.mem, s.threads[w] == Woken);
    MoveFirst(s.started, section.taken, Contents(section.mem));
  }

  lemma StepKeepsQueue(s: State, step: Step)
    requires QueueOk(s) && Enabled(s, step)
    ensures QueueOk(Apply(s, step))
  {
    if step.WorkerLock? {
      WorkerKeepsQueue(s, step.w);
    } else if step.ProducerLock? && !IsFull(s.mem) && !s.mem.shutdown {
      PutAppends(s.mem, s.producers[step.p].task);
    } else {
      assert Contents(Apply(s, step).mem) == Contents(s.mem);
    }
  }

  /** A worker leaves its section with exactly what it dequeued; a retiring one with none. */
  lemma SectionHoldsTaken(m: Shared, woken: bool)
    requires RingOk(m)
    ensures HeldTask(RunSection(m, woken).next) == multiset(RunSection(m, woken).taken)
    ensures RunSection(m, woken).next.Leaving? ==> RunSection(m, woken).taken == []
  {
  }

  lemma BagTakes(threads: seq<Worker>, w: nat, next: Worker, started: seq<Task>, taken: seq<Task>,
                 completed: multiset<Task>)
    requires w < |threads| && HeldTask(threads[w]) == multiset{} && HeldTask(next) == multiset(taken)
    requires multiset(started) == completed + Bag(threads, HeldTask)
    ensures multiset(started + taken) == completed + Bag(threads[w := next], HeldTask)
  {
    BagBalance(threads, w, next, HeldTask, multiset(started), completed, multiset(taken), multiset{});
    assert completed + multiset{} == completed;
  }

  lemma WorkerKeepsTasks(s: State, w: nat)
    requires RingOk(s.mem) && TasksOk(s) && Enabled(s, WorkerLock(w))
    ensures TasksOk(LockWorker(s, w))
  {
    var section := RunSection(s.mem, s.threads[w] == Woken);
    SectionHoldsTaken(s.mem, s.threads[w] == Woken);
    BagTakes(s.threads, w, section.next, s.started, section.taken, s.completed);
  }

  lemma EndKeepsTasks(s: State, w: nat)
    requires RingOk(s.mem) && TasksOk(s) && Enabled(s, EndTask(w))
    ensures TasksOk(Apply(s, EndTask(w)))
  {
    BagBalance(s.threads, w, Starting, HeldTask, multiset(s.started), s.completed,
               multiset{}, multiset{s.threads[w].task});
    assert multiset(s.started) + multiset{} == multiset(s.started);
  }

  lemma OneThreadKeepsHeld(threads: seq<Worker>, w: nat, next: Worker)
    requires w < |threads| && HeldTask(threads[w]) == HeldTask(next)
    ensures Bag(threads[w := next], HeldTask) == Bag(threads, HeldTask)
  {
    BagSame(threads, w, next, HeldTask);
  }

  lemma ProducerKeepsHeld(s: State, p: nat, wakes: nat)
    requires RingOk(s.mem) && Enabled(s, ProducerLock(p, wakes))
    ensures Bag(LockProducer(s, p, wakes).threads, HeldTask) == Bag(s.threads, HeldTask)
  {
    WakeKeepsSums(s.threads, LockProducer(s, p, wakes).threads);
  }

  lemma ManagerKeepsHeld(s: State, wakes: nat)
    requires !s.manager.Sampled?
    ensures Bag(RunManager(s, wakes).threads, HeldTask) == Bag(s.threads, HeldTask)
  {
    if s.manager.Waking? && s.manager.left > 0 {
      WakeKeepsSums(s.threads, WakeOne(s.threads, wakes));
    } else {
      assert RunManager(s, wakes).threads == s.threads;
    }
  }

  lemma GrowKeepsHeld(s: State)
    requires s.manager.Sampled?
    ensures Bag(DecideGrow(s).threads, HeldTask) == Bag(s.threads, HeldTask)
  {
    GrowOnlyStarts(s.threads, s.mem.live, s.mem.maxThr, 0, 0);
    BagPointwise(s.threads, DecideGrow(s).threads, HeldTask);
  }

  /** Every other step leaves each thread with what it held. */
  lemma OtherStepsKeepHeld(s: State, step: Step)
    requires RingOk(s.mem) && Enabled(s, step) && !step.WorkerLock? && !step.EndTask?
    ensures Bag(Apply(s, step).threads, HeldTask) == Bag(s.threads, HeldTask)
  {
    match step {
      case StartTask(w) => OneThreadKeepsHeld(s.threads, w, Busy(s.threads[w].task));
      case Die(w) => OneThreadKeepsHeld(s.threads, w, Free);
      case SpuriousWorker(w) => OneThreadKeepsHeld(s.threads, w, Woken);
      case ProducerLock(p, wakes) => ProducerKeepsHeld(s, p, wakes);
      case Manage(wakes) => ManagerKeepsHeld(s, wakes);
      case DecideGrowth => GrowKeepsHeld(s);
      case _ =>
    }
  }

  lemma OtherStepsKeepLogs(s: State, step: Step)
    requires RingOk(s.mem) && Enabled(s, step) && !step.WorkerLock? && !step.EndTask?
    ensures Apply(s, step).started == s.started && Apply(s, step).completed == s.completed
  {
  }

  lemma StepKeepsTasks(s: State, step: Step)
    requires RingOk(s.mem) && TasksOk(s) && Enabled(s, step)
    ensures TasksOk(Apply(s, step))
  {
    if step.WorkerLock? {
      WorkerKeepsTasks(s, step.w);
    } else if step.EndTask? {
      EndKeepsTasks(s, step.w);
    } else {
      OtherStepsKeepHeld(s, step);
      OtherStepsKeepLogs(s, step);
      assert multiset(Apply(s, step).started) == multiset(s.started);
    }
  }

  // ---------------------------------------------------------------- waiting

  /** A producer sleeps only while the ring is full, and before shutdown a sleeping worker
      leaves no more tasks than there are wakeups on their way, except for wakeups that
      retiring workers consumed. */
  ghost predicate WaitingOk(s: State) {
    && (AnyWaiting(s.producers) ==> IsFull(s.mem))
    && (!s.mem.shutdown && AnyAsleep(s.threads) ==>
          s.mem.size <= Sum(s.threads, OneIfWoken) + s.spent)
  }

  lemma WorkerKeepsWaiting(s: State, w: nat)
    requires RingOk(s.mem) && WaitingOk(s) && Enabled(s, WorkerLock(w))
    ensures WaitingOk(LockWorker(s, w))
  {
    var t := LockWorker(s, w);
    SumUpdate(s.threads, w, t.threads[w], OneIfWoken);
    if AnyAsleep(t.threads) && t.threads[w] != Asleep {
      var i :| 0 <= i < |t.threads| && t.threads[i] == Asleep;
      assert s.threads[i] == Asleep;
    }
  }

  lemma WakeKeepsWaiting(s: State, i: nat)
    requires CanWake(s.threads, i)
    ensures var threads := WakeOne(s.threads, i);
            && (AnyAsleep(threads) ==> AnyAsleep(s.threads))
            && Sum(threads, OneIfWoken) == Sum(s.threads, OneIfWoken) + if AnyAsleep(s.threads) then 1 else 0
  {
    if AnyAsleep(s.threads) {
      SumUpdate(s.threads, i, Woken, OneIfWoken);
    }
  }

  lemma ProducerKeepsWaiting(s: State, p: nat, wakes: nat)
    requires RingOk(s.mem) && WaitingOk(s) && Enabled(s, ProducerLock(p, wakes))
    ensures WaitingOk(LockProducer(s, p, wakes))
  {
    var t := LockProducer(s, p, wakes);
    WakeKeepsWaiting(s, wakes);
    if AnyWaiting(t.producers) && !t.producers[p].Waiting? {
      var i :| 0 <= i < |t.producers| && t.producers[i].Waiting?;
      assert s.producers[i].Waiting?;
    }
  }

  lemma OtherStepsKeepWaiting(s: State, step: Step)
    requires RingOk(s.mem) && WaitingOk(s) && Enabled(s, step)
    requires !step.WorkerLock? && !step.ProducerLock? && !step.Manage? && !step.DecideGrowth?
    ensures WaitingOk(Apply(s, step))
  {
    var t := Apply(s, step);
    if step.StartTask? || step.EndTask? || step.Die? || step.SpuriousWorker? {
      SumUpdate(s.threads, step.w, t.threads[step.w], OneIfWoken);
    }
    if AnyAsleep(t.threads) {
      var i :| 0 <= i < |t.threads| && t.threads[i] == Asleep;
      assert s.threads[i] == Asleep;
    }
    if AnyWaiting(t.producers) {
      var i :| 0 <= i < |t.producers| && t.producers[i].Waiting?;
      assert s.producers[i].Waiting?;
    }
  }

  lemma GrowKeepsWaiting(s: State)
    requires WaitingOk(s) && s.manager.Sampled?
    ensures WaitingOk(DecideGrow(s))
  {
    var t := DecideGrow(s);
    GrowOnlyStarts(s.threads, s.mem.live, s.mem.maxThr, 0, 0);
    SumPointwise(s.threads, t.threads, OneIfWoken);
    if AnyAsleep(t.threads) {
      var i :| 0 <= i < |t.threads| && t.threads[i] == Asleep;
      assert s.threads[i] == Asleep;
    }
  }

  lemma ManagerKeepsWaiting(s: State, wakes: nat)
    requires WaitingOk(s) && Enabled(s, Manage(wakes))
    ensures WaitingOk(RunManager(s, wakes))
  {
    WakeKeepsWaiting(s, wakes);
  }

  lemma StepKeepsWaiting(s: State, step: Step)
    requires RingOk(s.mem) && WaitingOk(s) && Enabled(s, step)
    ensures WaitingOk(Apply(s, step))
  {
    match step {
      case WorkerLock(w) => WorkerKeepsWaiting(s, w);
      case ProducerLock(p, wakes) => ProducerKeepsWaiting(s, p, wakes);
      case Manage(wakes) => ManagerKeepsWaiting(s, wakes);
      case DecideGrowth => GrowKeepsWaiting(s);
      case _ => OtherStepsKeepWaiting(s, step);
    }
  }

  lemma StepKeepsExits(s: State, step: Step)
    requires RingOk(s.mem) && ExitsOk(s) && Enabled(s, step)
    ensures ExitsOk(Apply(s, step))
  {
  }

  // ---------------------------------------------------------------- whole runs

  ghost predicate Inv(s: State) {
    QueueOk(s) && TasksOk(s) && CountersOk(s) && ExitsOk(s) && WaitingOk(s)
  }

  lemma {:induction false} StartedCounts(minThr: nat, maxThr: nat, threads: seq<Worker>)
    requires minThr <= maxThr == |threads|
    requires forall i | 0 <= i < maxThr :: threads[i] == if i < minThr then Starting else Free
    ensures Sum(threads, OneIfCounted) == minThr
  {
    if maxThr > 0 {
      StartedCounts(if minThr > 0 then minThr - 1 else 0, maxThr - 1, threads[1..]);
    }
  }

  lemma InitialInv(s: State)
    requires Initial(s)
    ensures Inv(s)
  {
    StartedCounts(s.mem.minThr, s.mem.maxThr, s.threads);
    SumZero(s.threads, OneIfBusy);
    BagEmpty(s.threads, HeldTask);
  }

  lemma StepKeepsInv(s: State, step: Step)
    requires Inv(s) && Enabled(s, step)
    ensures Inv(Apply(s, step))
  {
    StepKeepsQueue(s, step);
    StepKeepsTasks(s, step);
    StepKeepsCounters(s, step);
    StepKeepsExits(s, step);
    StepKeepsWaiting(s, step);
  }

  lemma {:induction false} RunKeepsInv(s: State, steps: seq<Step>, t: State)
    requires Inv(s) && Leads(s, steps, t)
    ensures Inv(t)
    decreases |steps|
  {
    if steps != [] {
      StepKeepsInv(s, steps[0]);
      RunKeepsInv(Apply(s, steps[0]), steps[1..], t);
    }
  }

  /** The bounds survive every interleaving, although the manager acts on stale snapshots.
      These are the values the two counter getters read. */
  lemma EveryRunKeepsBounds(s: State, steps: seq<Step>, t: State)
    requires Initial(s) && Leads(s, steps, t)
    ensures t.mem.minThr <= t.mem.live <= t.mem.maxThr
    ensures !t.mem.shutdown ==> t.mem.live == Sum(t.threads, OneIfCounted)
    ensures 0 <= t.mem.busy <= t.mem.live
    ensures t.mem.busy == Sum(t.threads, OneIfBusy)
  {
    InitialInv(s);
    RunKeepsInv(s, steps, t);
    SumMonotone(t.threads, OneIfBusy, OneIfCounted);
  }

  /** Conservation and first-in-first-out start over every run, shutdown included: only what
      is still in the ring is ever abandoned. */
  lemma EveryRunConservesTasks(s: State, steps: seq<Step>, t: State)
    requires Initial(s) && Leads(s, steps, t)
    ensures RingOk(t.mem) && t.accepted == t.started + Contents(t.mem)
    ensures multiset(t.started) == t.completed + Bag(t.threads, HeldTask)
  {
    InitialInv(s);
    RunKeepsInv(s, steps, t);
  }

  /** Throttling over every run, and what is left of the no-lost-wakeup property: it can fail
      only by as much as retiring workers consumed wakeups, so never before the first shrink
      decision. */
  lemma EveryRunThrottles(s: State, steps: seq<Step>, t: State)
    requires Initial(s) && Leads(s, steps, t)
    ensures AnyWaiting(t.producers) ==> t.mem.size == |t.mem.cells|
    ensures t.retired + t.mem.waitExit <= 10 * t.shrinks
    ensures !t.mem.shutdown && AnyAsleep(t.threads) ==>
              t.mem.size <= Sum(t.threads, OneIfWoken) + t.spent
    ensures t.spent <= t.retired
    ensures t.shrinks == 0 ==> t.spent == 0
  {
    InitialInv(s);
    RunKeepsInv(s, steps, t);
  }
}

/**
 The worker pool of thread_pool.cpp as a monitor with two condition variables.

 A step is one critical section (mutex_ is held throughout), one unlocked read of running_, or one
 spurious return from a wait.  A thread asleep on a condition variable is woken by a notify, by a
 broadcast or spuriously; once woken it competes for the mutex and tests its condition again.
 notify() wakes one sleeper of the scheduler's choice, if there is any.
 */
module ThreadPool {

  type Task = nat
  type Thread = nat

  /** Where a thread stands with respect to the condition variable it uses. */
  datatype Pc =
    | Outside                  // worker: about to test `while (running_)`; producer: not in run()
    | Entering(task: Task)     // about to lock the mutex in take() or run()
    | Asleep(task: Task)       // waiting, not signalled
    | Woken(task: Task)        // signalled, mutex not yet reacquired
    | Executing(task: Task)    // worker: running a task
    | Exited                   // worker: left runInThread

  const NO_TASK: Task := 0

  datatype State = State(
    maxQueueSize: nat,           // 0: unbounded
    queue: seq<Task>,
    running: bool,
    workers: map<Thread, Pc>,    // wait on notEmpty_
    producers: map<Thread, Pc>,  // wait on notFull_
    submitted: seq<Task>,        // history: tasks pushed, in order
    dequeued: seq<Task>,         // history: tasks taken, in order
    late: map<Thread, nat>)      // history: tasks each worker took after stop()

  datatype Label =
    | Test(w: Thread)                 // while (running_)
    | Take(w: Thread, wake: Thread)   // take(), or its wait() returning; wake is notified on notFull_
    | Finish(w: Thread)               // the task returns
    | Call(p: Thread, t: Task)        // a producer calls run(t)
    | Run(p: Thread, wake: Thread)    // run(), or its wait() returning; wake is notified on notEmpty_
    | SpuriousWorker(w: Thread)
    | SpuriousProducer(p: Thread)
    | Stop

  function AsleepIn(m: map<Thread, Pc>): set<Thread>
  {
    set t | t in m && m[t].Asleep?
  }

  function WokenIn(m: map<Thread, Pc>): set<Thread>
  {
    set t | t in m && m[t].Woken?
  }

  /** The pool after start(numThreads) with at least one worker; with none, run() calls the task itself. */
  predicate Init(s: State)
  {
    && s.workers.Keys != {}
    && s.queue == [] && s.running
    && (forall w :: w in s.workers ==> s.workers[w] == Outside)
    && (forall p :: p in s.producers ==> s.producers[p] == Outside)
    && s.submitted == [] && s.dequeued == []
    && s.late.Keys == s.workers.Keys && forall w :: w in s.late ==> s.late[w] == 0
  }

  predicate IsFull(s: State)
  {
    s.maxQueueSize > 0 && |s.queue| >= s.maxQueueSize
  }

  /** `wake` is a choice that notify() may make among the sleepers of m. */
  predicate MayWake(m: map<Thread, Pc>, wake: Thread)
  {
    AsleepIn(m) != {} ==> wake in AsleepIn(m)
  }

  predicate At(m: map<Thread, Pc>, t: Thread)
  {
    t in m && (m[t].Entering? || m[t].Woken?)
  }

  predicate Enabled(s: State, l: Label)
  {
    match l
    case Test(w) => w in s.workers && s.workers[w].Outside?
    case Take(w, wake) => At(s.workers, w) && w in s.late && MayWake(s.producers, wake)
    case Finish(w) => w in s.workers && s.workers[w].Executing?
    case Call(p, t) => p in s.producers && s.producers[p].Outside?
    case Run(p, wake) => At(s.producers, p) && MayWake(s.workers, wake)
    case SpuriousWorker(w) => w in AsleepIn(s.workers)
    case SpuriousProducer(p) => p in AsleepIn(s.producers)
    case Stop => true
  }

  /** notify() with the choice t, or one spurious wakeup of t. */
  function Wake(m: map<Thread, Pc>, t: Thread): map<Thread, Pc>
  {
    if t in m && m[t].Asleep? then m[t := Woken(m[t].task)] else m
  }

  /** notifyAll() */
  function WakeAll(m: map<Thread, Pc>): map<Thread, Pc>
  {
    map t | t in m :: if m[t].Asleep? then Woken(m[t].task) else m[t]
  }

  function Apply(s: State, l: Label): State
    requires Enabled(s, l)
  {
    match l
    case Test(w) => s.(workers := s.workers[w := if s.running then Entering(NO_TASK) else Exited])
    case Take(w, wake) => TakeOrWait(s, w, wake)
    case Finish(w) => s.(workers := s.workers[w := Outside])
    case Call(p, t) => s.(producers := s.producers[p := Entering(t)])
    case Run(p, wake) => PushOrWait(s, p, s.producers[p].task, wake)
    case SpuriousWorker(w) => s.(workers := Wake(s.workers, w))
    case SpuriousProducer(p) => s.(producers := Wake(s.producers, p))
    case Stop => s.(running := false, workers := WakeAll(s.workers))
  }

  /** One round of take() under the mutex. */
  function TakeOrWait(s: State, w: Thread, wake: Thread): State
    requires w in s.late
  {
    if s.queue == [] then s.(workers := s.workers[w := if s.running then Asleep(NO_TASK) else Outside])
    else
      s.(queue := s.queue[1..], dequeued := s.dequeued + [s.queue[0]],
         workers := s.workers[w := Executing(s.queue[0])],
         producers := if s.maxQueueSize > 0 then Wake(s.producers, wake) else s.producers,
         late := if s.running then s.late else s.late[w := s.late[w] + 1])
  }

  /** One round of run() under the mutex. */
  function PushOrWait(s: State, p: Thread, t: Task, wake: Thread): State
  {
    if IsFull(s) then s.(producers := s.producers[p := Asleep(t)])
    else
      s.(queue := s.queue + [t], submitted := s.submitted + [t],
         producers := s.producers[p := Outside],
         workers := Wake(s.workers, wake))
  }

  // ----- counting sleepers -----

  lemma Moved(m: map<Thread, Pc>, t: Thread, pc: Pc)
    ensures AsleepIn(m[t := pc]) == if pc.Asleep? then AsleepIn(m) + {t} else AsleepIn(m) - {t}
    ensures WokenIn(m[t := pc]) == if pc.Woken? then WokenIn(m) + {t} else WokenIn(m) - {t}
  {
  }

  lemma WokeAll(m: map<Thread, Pc>)
    ensures AsleepIn(WakeAll(m)) == {}
  {
  }

  // ----- invariants -----

  predicate Conserved(s: State)
  {
    && s.dequeued + s.queue == s.submitted
    && (s.maxQueueSize > 0 ==> |s.queue| <= s.maxQueueSize)
  }

  /** While a worker sleeps the pool runs and every queued task has a woken worker. */
  predicate WorkersCovered(s: State)
  {
    AsleepIn(s.workers) != {} ==> s.running && |s.queue| <= |WokenIn(s.workers)|
  }

  /** While a producer sleeps every free slot has a woken producer. */
  predicate ProducersCovered(s: State)
  {
    AsleepIn(s.producers) != {} ==>
      s.maxQueueSize > 0 && s.maxQueueSize - |s.queue| <= |WokenIn(s.producers)|
  }

  /** A worker that took a task after stop() is executing it or has left the loop for good. */
  predicate Draining(s: State)
  {
    && s.late.Keys == s.workers.Keys
    && forall w :: w in s.late && s.late[w] > 0 ==>
         s.late[w] == 1 && !s.running && !s.workers[w].Entering? && !s.workers[w].Asleep? && !s.workers[w].Woken?
  }

  predicate Inv(s: State)
  {
    Conserved(s) && WorkersCovered(s) && ProducersCovered(s) && Draining(s)
  }

  lemma InitInv(s: State)
    requires Init(s)
    ensures Inv(s)
  {
  }

  lemma StepConserves(s: State, l: Label)
    requires Conserved(s) && Enabled(s, l)
    ensures Conserved(Apply(s, l))
  {
    match l
    case Take(w, wake) => assert s.queue != [] ==> s.queue == [s.queue[0]] + s.queue[1..];
    case _ =>
  }

  lemma StepCoversWorkers(s: State, l: Label)
    requires WorkersCovered(s) && Enabled(s, l)
    ensures WorkersCovered(Apply(s, l))
  {
    var s' := Apply(s, l);
    match l
    case Test(w) => Moved(s.workers, w, s'.workers[w]);
    case Take(w, wake) => Moved(s.workers, w, s'.workers[w]);
    case Finish(w) => Moved(s.workers, w, s'.workers[w]);
    case Run(p, wake) => if wake in AsleepIn(s.workers) { Moved(s.workers, wake, Woken(s.workers[wake].task)); }
    case SpuriousWorker(w) => Moved(s.workers, w, s'.workers[w]);
    case Stop => WokeAll(s.workers);
    case _ =>
  }

  lemma StepCoversProducers(s: State, l: Label)
    requires ProducersCovered(s) && Enabled(s, l)
    ensures ProducersCovered(Apply(s, l))
  {
    var s' := Apply(s, l);
    match l
    case Take(w, wake) => if wake in AsleepIn(s.producers) { Moved(s.producers, wake, Woken(s.producers[wake].task)); }
    case Call(p, t) => Moved(s.producers, p, s'.producers[p]);
    case Run(p, wake) => Moved(s.producers, p, s'.producers[p]);
    case SpuriousProducer(p) => Moved(s.producers, p, s'.producers[p]);
    case _ =>
  }

  lemma StepDrains(s: State, l: Label)
    requires Draining(s) && Enabled(s, l)
    ensures Draining(Apply(s, l))
  {
  }

  // ----- runs -----

  predicate StepAt(tr: seq<State>, ls: seq<Label>, i: nat)
    requires i < |ls| && |tr| == |ls| + 1
  {
    Enabled(tr[i], ls[i]) && tr[i + 1] == Apply(tr[i], ls[i])
  }

  /** Any finite interleaving, from any state. */
  predicate IsPath(tr: seq<State>, ls: seq<Label>)
  {
    |tr| == |ls| + 1 && forall i :: 0 <= i < |ls| ==> StepAt(tr, ls, i)
  }

  predicate IsRun(tr: seq<State>, ls: seq<Label>)
  {
    IsPath(tr, ls) && Init(tr[0])
  }

  lemma {:induction false} RunInv(tr: seq<State>, ls: seq<Label>, k: nat)
    requires IsRun(tr, ls) && k < |tr|
    ensures Inv(tr[k])
  {
    if k == 0 {
      InitInv(tr[0]);
    } else {
      RunInv(tr, ls, k - 1);
      assert StepAt(tr, ls, k - 1);
      StepConserves(tr[k - 1], ls[k - 1]);
      StepCoversWorkers(tr[k - 1], ls[k - 1]);
      StepCoversProducers(tr[k - 1], ls[k - 1]);
      StepDrains(tr[k - 1], ls[k - 1]);
    }
  }

  // ----- tasks, read off the labels and the places of the threads -----

  /** The task of the last call of run() by producer p among the first k steps. */
  function LastCall(ls: seq<Label>, k: nat, p: Thread): Task
    requires k <= |ls|
  {
    if k == 0 then NO_TASK
    else if ls[k - 1].Call? && ls[k - 1].p == p then ls[k - 1].t
    else LastCall(ls, k - 1, p)
  }

  /** The producer leaves run() with this step. */
  predicate Leaves(tr: seq<State>, ls: seq<Label>, i: nat)
    requires i < |ls| && |tr| == |ls| + 1
  {
    ls[i].Run? && ls[i].p in tr[i + 1].producers && tr[i + 1].producers[ls[i].p] == Outside
  }

  /** The tasks of the calls of run() that returned, in the order in which they did. */
  function Given(tr: seq<State>, ls: seq<Label>, k: nat): seq<Task>
    requires k <= |ls| && |tr| == |ls| + 1
  {
    if k == 0 then []
    else Given(tr, ls, k - 1) + if Leaves(tr, ls, k - 1) then [LastCall(ls, k - 1, ls[k - 1].p)] else []
  }

  /** The worker starts to execute a task with this step. */
  predicate Starts(tr: seq<State>, ls: seq<Label>, i: nat)
    requires i < |ls| && |tr| == |ls| + 1
  {
    ls[i].Take? && ls[i].w in tr[i + 1].workers && tr[i + 1].workers[ls[i].w].Executing?
  }

  /** The tasks that workers started to execute, in order. */
  function Started(tr: seq<State>, ls: seq<Label>, k: nat): seq<Task>
    requires k <= |ls| && |tr| == |ls| + 1
  {
    if k == 0 then []
    else Started(tr, ls, k - 1) + if Starts(tr, ls, k - 1) then [tr[k].workers[ls[k - 1].w].task] else []
  }

  predicate InRun(m: map<Thread, Pc>, p: Thread)
  {
    p in m && (m[p].Entering? || m[p].Asleep? || m[p].Woken?)
  }

  predicate Carries(s: State, ls: seq<Label>, k: nat, p: Thread)
    requires k <= |ls|
  {
    InRun(s.producers, p) ==> s.producers[p].task == LastCall(ls, k, p)
  }

  /** A producer in run() still has the task that it was called with. */
  lemma {:induction false} CarriesItsTask(tr: seq<State>, ls: seq<Label>, k: nat, p: Thread)
    requires IsRun(tr, ls) && k < |tr|
    ensures Carries(tr[k], ls, k, p)
  {
    if k > 0 {
      CarriesItsTask(tr, ls, k - 1, p);
      assert StepAt(tr, ls, k - 1);
    }
  }

  lemma {:induction false} HistoryIsTrue(tr: seq<State>, ls: seq<Label>, k: nat)
    requires IsRun(tr, ls) && k < |tr|
    ensures tr[k].submitted == Given(tr, ls, k) && tr[k].dequeued == Started(tr, ls, k)
  {
    if k > 0 {
      HistoryIsTrue(tr, ls, k - 1);
      assert StepAt(tr, ls, k - 1);
      if ls[k - 1].Run? { CarriesItsTask(tr, ls, k - 1, ls[k - 1].p); }
    }
  }

  /** In every run: the tasks that workers started, then the queue, are the tasks of the calls of run()
      that returned, in order; and a positive bound on the queue is never exceeded. */
  lemma TasksConserved(tr: seq<State>, ls: seq<Label>, k: nat)
    requires IsRun(tr, ls) && k < |tr|
    ensures Started(tr, ls, k) + tr[k].queue == Given(tr, ls, k)
    ensures tr[k].maxQueueSize > 0 ==> |tr[k].queue| <= tr[k].maxQueueSize
  {
    RunInv(tr, ls, k);
    HistoryIsTrue(tr, ls, k);
  }

  lemma Nobody(s: set<Thread>)
    requires |s| > 0
    ensures exists t :: t in s
  {
    assert s != {};
  }

  /** The worker can go on: it neither waits for a signal nor has left. */
  predicate CanGoOn(m: map<Thread, Pc>, w: Thread)
  {
    w in m && !m[w].Asleep? && !m[w].Exited?
  }

  /** While the pool runs, a queued task always has a worker that can go on, a free slot never finds all
      blocked producers asleep, and blocked producers always have a worker or a producer awake that can
      make room or take it. */
  lemma NeverAllAsleep(tr: seq<State>, ls: seq<Label>, k: nat)
    requires IsRun(tr, ls) && k < |tr| && tr[k].running
    ensures tr[k].queue != [] ==> exists w :: CanGoOn(tr[k].workers, w)
    ensures AsleepIn(tr[k].producers) != {} && !IsFull(tr[k]) ==> WokenIn(tr[k].producers) != {}
    ensures AsleepIn(tr[k].producers) != {} && WokenIn(tr[k].producers) == {} ==>
      IsFull(tr[k]) && exists w :: CanGoOn(tr[k].workers, w)
  {
    var s := tr[k];
    RunInv(tr, ls, k);
    WorkersStay(tr, ls, k);
    if s.queue != [] {
      var w;
      if AsleepIn(s.workers) == {} {
        w :| w in tr[0].workers.Keys;
        assert w !in AsleepIn(s.workers);
      } else {
        Nobody(WokenIn(s.workers));
        w :| w in WokenIn(s.workers);
      }
      assert CanGoOn(s.workers, w);
    }
  }

  lemma {:induction false} WorkersStay(tr: seq<State>, ls: seq<Label>, k: nat)
    requires IsRun(tr, ls) && k < |tr|
    ensures tr[k].workers.Keys == tr[0].workers.Keys && tr[k].maxQueueSize == tr[0].maxQueueSize
    ensures tr[k].running ==> forall w :: w in tr[k].workers ==> !tr[k].workers[w].Exited?
  {
    if k > 0 {
      WorkersStay(tr, ls, k - 1);
      assert StepAt(tr, ls, k - 1);
    }
  }

  /** Without a bound on the queue no producer ever sleeps. */
  lemma UnboundedNeverBlocks(tr: seq<State>, ls: seq<Label>, k: nat)
    requires IsRun(tr, ls) && k < |tr| && tr[0].maxQueueSize == 0
    ensures AsleepIn(tr[k].producers) == {}
  {
    RunInv(tr, ls, k);
    WorkersStay(tr, ls, k);
  }

  // ----- work gets done -----

  /** Taking the steps ls from s is possible and leads to s'. */
  predicate Leads(s: State, ls: seq<Label>, s': State)
    decreases |ls|
  {
    if ls == [] then s' == s else Enabled(s, ls[0]) && Leads(Apply(s, ls[0]), ls[1..], s')
  }

  lemma LeadsOn(s: State, l: Label, ls: seq<Label>, s': State)
    requires Enabled(s, l) && Leads(Apply(s, l), ls, s')
    ensures Leads(s, [l] + ls, s')
  {
    assert ([l] + ls)[1..] == ls;
  }

  predicate OwnSteps(ls: seq<Label>, w: Thread)
  {
    forall i :: 0 <= i < |ls| ==> ls[i] == Test(w) || ls[i] == Finish(w) || (ls[i].Take? && ls[i].w == w)
  }

  /** Steps a worker that can go on is away from the next task. */
  function ToTake(pc: Pc): nat
  {
    match pc
    case Executing(_) => 3
    case Outside => 2
    case _ => 1
  }

  /** While the pool runs and tasks are queued, a worker that can go on comes to execute the first of them
      within three steps of its own, if its current task returns. */
  lemma TaskGetsTaken(s: State, w: Thread, wake: Thread) returns (ls: seq<Label>, s': State)
    requires s.running && s.queue != [] && CanGoOn(s.workers, w) && w in s.late && MayWake(s.producers, wake)
    ensures Leads(s, ls, s') && OwnSteps(ls, w) && |ls| <= ToTake(s.workers[w]) <= 3
    ensures w in s'.workers && s'.workers[w] == Executing(s.queue[0]) && s'.queue == s.queue[1..]
    decreases ToTake(s.workers[w])
  {
    var l := StepOf(s, w, wake);
    var next := Apply(s, l);
    if l.Take? {
      ls, s' := [], next;
    } else {
      ls, s' := TaskGetsTaken(next, w, wake);
    }
    LeadsOn(s, l, ls, s');
    ls := [l] + ls;
  }

  /** A producer awake in run() that finds a free slot queues its task and leaves, and a sleeping worker
      is woken. */
  lemma FreeSlotTakesTask(s: State, p: Thread, wake: Thread) returns (s': State)
    requires p in s.producers && (s.producers[p].Entering? || s.producers[p].Woken?)
    requires (s.maxQueueSize == 0 || |s.queue| < s.maxQueueSize) && MayWake(s.workers, wake)
    ensures Leads(s, [Run(p, wake)], s')
    ensures s'.queue == s.queue + [s.producers[p].task] && p in s'.producers && s'.producers[p] == Outside
    ensures AsleepIn(s.workers) != {} ==> wake in WokenIn(s'.workers)
  {
    s' := Apply(s, Run(p, wake));
    LeadsOn(s, Run(p, wake), [], s');
  }

  /** run(t) as a whole, with a free slot: it queues t. */
  lemma RunQueuesTask(s: State, p: Thread, t: Task, wake: Thread) returns (s': State)
    requires p in s.producers && s.producers[p] == Outside
    requires (s.maxQueueSize == 0 || |s.queue| < s.maxQueueSize) && MayWake(s.workers, wake)
    ensures Leads(s, [Call(p, t), Run(p, wake)], s')
    ensures s'.queue == s.queue + [t] && p in s'.producers && s'.producers[p] == Outside
  {
    var called := Apply(s, Call(p, t));
    s' := FreeSlotTakesTask(called, p, wake);
    LeadsOn(s, Call(p, t), [Run(p, wake)], s');
    assert [Call(p, t), Run(p, wake)] == [Call(p, t)] + [Run(p, wake)];
  }

  // ----- shutdown -----

  /** How many tasks worker w started between two indices of a run. */
  function StartedBy(tr: seq<State>, ls: seq<Label>, from: nat, k: nat, w: Thread): nat
    requires from <= k <= |ls| && |tr| == |ls| + 1
  {
    if k == from then 0
    else StartedBy(tr, ls, from, k - 1, w) + if Starts(tr, ls, k - 1) && ls[k - 1].w == w then 1 else 0
  }

  /** stop() is for good. */
  lemma {:induction false} StoppedForGood(tr: seq<State>, ls: seq<Label>, i: nat, k: nat)
    requires IsRun(tr, ls) && i < k < |tr| && ls[i] == Stop
    ensures !tr[k].running
    decreases k
  {
    assert StepAt(tr, ls, k - 1);
    if i + 1 < k { StoppedForGood(tr, ls, i, k - 1); }
  }

  lemma {:induction false} LateCounts(tr: seq<State>, ls: seq<Label>, i: nat, k: nat, w: Thread)
    requires IsRun(tr, ls) && i < k < |tr| && ls[i] == Stop && w in tr[0].workers
    ensures w in tr[k].late && StartedBy(tr, ls, i + 1, k, w) <= tr[k].late[w]
    decreases k
  {
    RunInv(tr, ls, k);
    WorkersStay(tr, ls, k);
    if i + 1 < k {
      LateCounts(tr, ls, i, k - 1, w);
      StoppedForGood(tr, ls, i, k - 1);
      assert StepAt(tr, ls, k - 1);
    }
  }

  /** After stop() no worker is asleep on notEmpty_, and none starts more than one further task. */
  lemma StopReleasesWorkers(tr: seq<State>, ls: seq<Label>, i: nat, k: nat, w: Thread)
    requires IsRun(tr, ls) && i < k < |tr| && ls[i] == Stop && w in tr[0].workers
    ensures AsleepIn(tr[k].workers) == {}
    ensures StartedBy(tr, ls, i + 1, k, w) <= 1
  {
    RunInv(tr, ls, k);
    StoppedForGood(tr, ls, i, k);
    LateCounts(tr, ls, i, k, w);
  }

  /** Steps a worker is away from leaving runInThread once running_ is false. */
  function ToGo(pc: Pc): nat
  {
    match pc
    case Entering(_) => 3
    case Asleep(_) => 3
    case Woken(_) => 3
    case Executing(_) => 2
    case Outside => 1
    case Exited => 0
  }

  function StepOf(s: State, w: Thread, wake: Thread): Label
    requires w in s.workers
  {
    match s.workers[w]
    case Outside => Test(w)
    case Executing(_) => Finish(w)
    case _ => Take(w, wake)
  }

  lemma {:induction false} StoppedWorkerLeaves(s: State, w: Thread, wake: Thread) returns (ls: seq<Label>, s': State)
    requires !s.running && w in s.workers && !s.workers[w].Asleep? && w in s.late && MayWake(s.producers, wake)
    ensures Leads(s, ls, s') && OwnSteps(ls, w) && |ls| <= ToGo(s.workers[w])
    ensures w in s'.workers && s'.workers[w] == Exited
    decreases ToGo(s.workers[w])
  {
    if s.workers[w] == Exited {
      return [], s;
    }
    var l := StepOf(s, w, wake);
    var next := Apply(s, l);
    ls, s' := StoppedWorkerLeaves(next, w, AnySleeper(next.producers));
    LeadsOn(s, l, ls, s');
    ls := [l] + ls;
  }

  /** After stop() every worker leaves within three steps of its own, so the joins in stop() return if the
      running tasks do. */
  lemma WorkersLeave(tr: seq<State>, ls: seq<Label>, i: nat, k: nat, w: Thread)
    returns (own: seq<Label>, s': State)
    requires IsRun(tr, ls) && i < k < |tr| && ls[i] == Stop && w in tr[0].workers
    ensures Leads(tr[k], own, s') && OwnSteps(own, w) && |own| <= 3
    ensures w in s'.workers && s'.workers[w] == Exited
  {
    RunInv(tr, ls, k);
    WorkersStay(tr, ls, k);
    StoppedForGood(tr, ls, i, k);
    assert w !in AsleepIn(tr[k].workers);
    own, s' := StoppedWorkerLeaves(tr[k], w, AnySleeper(tr[k].producers));
  }

  /** A choice for notify(). */
  ghost function AnySleeper(m: map<Thread, Pc>): (t: Thread)
    ensures MayWake(m, t)
  {
    if AsleepIn(m) == {} then 0 else var t :| t in AsleepIn(m); t
  }

  // ----- producers after stop() -----

  predicate Returns(tr: seq<State>, ls: seq<Label>, s: State, p: Thread)
  {
    IsPath(tr, ls) && tr[0] == s && p in tr[|ls|].producers && tr[|ls|].producers[p] == Outside
  }

  /** Some continuation gets producer p out of run(). */
  ghost predicate CanReturn(s: State, p: Thread)
  {
    exists tr, ls :: Returns(tr, ls, s, p)
  }

  /** The queue is full and every worker is past its last take(). */
  predicate Stuck(s: State)
  {
    !s.running && IsFull(s) && forall w :: w in s.workers ==> !At(s.workers, w) && !s.workers[w].Asleep?
  }

  lemma {:induction false} StuckForGood(tr: seq<State>, ls: seq<Label>, k: nat, p: Thread)
    requires IsPath(tr, ls) && k < |tr| && Stuck(tr[0]) && InRun(tr[0].producers, p)
    ensures Stuck(tr[k]) && InRun(tr[k].producers, p) && tr[k].queue == tr[0].queue
  {
    if k > 0 {
      StuckForGood(tr, ls, k - 1, p);
      assert StepAt(tr, ls, k - 1);
    }
  }

  /** With a free slot the producer needs its wait to return, if it sleeps, and one round under the mutex. */
  lemma FreeSlotLetsReturn(s: State, p: Thread, wake: Thread)
    requires InRun(s.producers, p) && !IsFull(s) && MayWake(s.workers, wake)
    ensures CanReturn(s, p)
  {
    var woken := if s.producers[p].Asleep? then Apply(s, SpuriousProducer(p)) else s;
    var out := Apply(woken, Run(p, wake));
    var tr, ls := if woken == s then [s, out] else [s, woken, out],
                  if woken == s then [Run(p, wake)] else [SpuriousProducer(p), Run(p, wake)];
    forall i | 0 <= i < |ls| ensures StepAt(tr, ls, i) {}
    assert Returns(tr, ls, s, p);
  }

  /** A worker that is still in take() makes room, and the producer follows. */
  lemma LastTakeLetsReturn(s: State, p: Thread, w: Thread, wake: Thread)
    requires Inv(s) && !s.running && InRun(s.producers, p) && IsFull(s)
    requires At(s.workers, w) && MayWake(s.producers, wake)
    ensures CanReturn(s, p)
  {
    var taken := Apply(s, Take(w, wake));
    assert AsleepIn(taken.workers) == {} by {
      assert AsleepIn(s.workers) == {};
      Moved(s.workers, w, taken.workers[w]);
    }
    FreeSlotLetsReturn(taken, p, p);
    var tr, ls :| Returns(tr, ls, taken, p);
    Prepend(tr, ls, s, Take(w, wake), p);
  }

  lemma Prepend(tr: seq<State>, ls: seq<Label>, s: State, l: Label, p: Thread)
    requires Enabled(s, l) && Returns(tr, ls, Apply(s, l), p)
    ensures Returns([s] + tr, [l] + ls, s, p)
  {
    forall i | 0 <= i < |ls| + 1 ensures StepAt([s] + tr, [l] + ls, i) {
      if i > 0 { assert StepAt(tr, ls, i - 1); }
    }
  }

  /** stop() does not wake producers.  After it, a producer in run() can still return exactly if there is
      a free slot or a worker is still in take(); otherwise it stays there, whatever happens. */
  lemma ProducerReturnsAfterStop(tr: seq<State>, ls: seq<Label>, k: nat, p: Thread)
    requires IsRun(tr, ls) && k < |tr| && !tr[k].running && InRun(tr[k].producers, p)
    ensures CanReturn(tr[k], p) <==> !IsFull(tr[k]) || exists w :: At(tr[k].workers, w)
  {
    var s := tr[k];
    RunInv(tr, ls, k);
    if !IsFull(s) {
      FreeSlotLetsReturn(s, p, p);
    } else if w :| At(s.workers, w) {
      var wake := p;
      if AsleepIn(s.producers) != {} {
        wake :| wake in AsleepIn(s.producers);
      }
      LastTakeLetsReturn(s, p, w, wake);
    } else {
      assert Stuck(s) by {
        forall w | w in s.workers ensures !s.workers[w].Asleep? { assert w !in AsleepIn(s.workers); }
      }
      forall tr', ls' | IsPath(tr', ls') && tr'[0] == s ensures !Returns(tr', ls', s, p) {
        StuckForGood(tr', ls', |ls'|, p);
      }
    }
  }

  /** A run that gets there: a producer sleeps on notFull_ with no worker left. */
  lemma ProducerStrandedByStop(start: State, w: Thread, p: Thread, q: Thread)
    returns (tr: seq<State>, ls: seq<Label>)
    requires Init(start) && start.maxQueueSize == 1 && start.workers.Keys == {w}
    requires start.producers.Keys == {p, q} && p != q
    ensures IsRun(tr, ls) && tr[0] == start && |ls| == 6
    ensures p !in AsleepIn(tr[6].producers) && q in AsleepIn(tr[6].producers) && tr[6].workers == map[w := Exited]
  {
    ls := [Call(p, 1), Run(p, w), Call(q, 2), Run(q, w), Stop, Test(w)];
    var s1 := Apply(start, ls[0]);
    var s2 := Apply(s1, ls[1]);
    var s3 := Apply(s2, ls[2]);
    var s4 := Apply(s3, ls[3]);
    var s5 := Apply(s4, ls[4]);
    tr := [start, s1, s2, s3, s4, s5, Apply(s5, ls[5])];
    forall i | 0 <= i < 6 ensures StepAt(tr, ls, i) {}
  }
}

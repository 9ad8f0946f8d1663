/**
 The hand-off of functors to an event loop: EPollPoller::poll, queueInLoop, wakeup, handleRead,
 doPendingFunctors and quit as interleaved steps of the loop thread and of other threads.

 A step is one critical section, one eventfd call or one access to a flag.  `owing` holds the threads
 between a push (or the store to quit_) and their wakeup().  The wakeup channel is enabled, so a
 positive eventfd counter makes epoll_wait return.
 */
module EventLoop {

  type Functor = nat
  type Thread = nat

  /** An eventfd counter holds at most 2^64 - 2; a write that would exceed it fails with EAGAIN. */
  const COUNTER_MAX: nat := 0xffff_ffff_ffff_fffe

  datatype LoopPc =
    | CheckQuit                                 // about to read quit_
    | Waiting                                   // inside epoll_wait
    | Events                                    // running event callbacks, which may be handleRead
    | Swap                                      // entering doPendingFunctors
    | Running(batch: seq<Functor>, next: nat)   // batch[..next] have been called
    | Done

  datatype State = State(
    pending: seq<Functor>,
    counter: nat,
    calling: bool,
    quit: bool,
    pc: LoopPc,
    loopOwes: bool,
    owing: set<Thread>,
    pushed: seq<Functor>,     // history: every queueInLoop push, in order
    executed: seq<Functor>)   // history: every functor called by doPendingFunctors, in order

  datatype Label =
    | Push(t: Thread, f: Functor)  // queueInLoop from another thread, up to its wakeup()
    | SetQuit(t: Thread)           // quit() from another thread, up to its wakeup()
    | Wakeup(t: Thread)
    | LoopPush(f: Functor)         // queueInLoop from the loop thread
    | LoopWakeup
    | LoopQuit                     // quit() from the loop thread
    | Check                        // while (!quit_)
    | Timeout                      // epoll_wait returns 0, or -1 with EINTR
    | Ready                        // epoll_wait returns events
    | HandleRead                   // the wakeup channel's read callback
    | EventsDone
    | SwapBatch
    | CallFunctor
    | BatchDone

  /** The loop thread is inside an event callback or a functor. */
  predicate InCallback(s: State)
  {
    s.pc.Events? || (s.pc.Running? && 0 < s.pc.next)
  }

  /** callingPendingFunctors_ is not set by the constructor, so it starts with any value. */
  predicate Init(s: State)
  {
    && s.pending == [] && s.counter == 0 && !s.quit
    && s.pc == CheckQuit && !s.loopOwes && s.owing == {}
    && s.pushed == [] && s.executed == []
  }

  /** The loop thread takes no other step while it owes a wakeup(). */
  predicate Enabled(s: State, l: Label)
  {
    match l
    case Push(t, f) => t !in s.owing
    case SetQuit(t) => t !in s.owing
    case Wakeup(t) => t in s.owing
    case LoopWakeup => s.loopOwes
    case LoopPush(f) => !s.loopOwes && (InCallback(s) || s.pc.CheckQuit?)
    case LoopQuit => !s.loopOwes && InCallback(s)
    case Check => !s.loopOwes && s.pc.CheckQuit?
    case Timeout => s.pc.Waiting?
    case Ready => s.pc.Waiting?
    case HandleRead => !s.loopOwes && s.pc.Events?
    case EventsDone => !s.loopOwes && s.pc.Events?
    case SwapBatch => s.pc.Swap?
    case CallFunctor => !s.loopOwes && s.pc.Running? && s.pc.next < |s.pc.batch|
    case BatchDone => !s.loopOwes && s.pc.Running? && s.pc.next >= |s.pc.batch|
  }

  /** Loop-thread pushes come from event callbacks and functors only, unless something else is going to
      make epoll_wait return. */
  predicate Disciplined(s: State, l: Label)
  {
    l.LoopPush? ==> InCallback(s) || s.calling || WillWake(s)
  }

  /** write(eventfd, 1) */
  function Bump(counter: nat): nat
  {
    if counter < COUNTER_MAX then counter + 1 else counter
  }

  function Apply(s: State, l: Label): State
    requires Enabled(s, l)
  {
    match l
    case Push(t, f) => s.(pending := s.pending + [f], pushed := s.pushed + [f], owing := s.owing + {t})
    case SetQuit(t) => s.(quit := true, owing := s.owing + {t})
    case Wakeup(t) => s.(counter := Bump(s.counter), owing := s.owing - {t})
    case LoopPush(f) => s.(pending := s.pending + [f], pushed := s.pushed + [f], loopOwes := s.calling)
    case LoopWakeup => s.(counter := Bump(s.counter), loopOwes := false)
    case LoopQuit => s.(quit := true)
    case Check => s.(pc := if s.quit then Done else Waiting)
    case Timeout => s.(pc := CheckQuit)
    case Ready => s.(pc := Events)
    case HandleRead => s.(counter := 0)
    case EventsDone => s.(pc := Swap, calling := true)
    case SwapBatch => s.(pc := Running(s.pending, 0), pending := [])
    case CallFunctor =>
      s.(executed := s.executed + [s.pc.batch[s.pc.next]], pc := Running(s.pc.batch, s.pc.next + 1))
    case BatchDone => s.(pc := CheckQuit, calling := false)
  }

  // ----- invariants -----

  /** The part of the swapped batch that has not been called yet. */
  function Rest(s: State): seq<Functor>
  {
    if s.pc.Running? && s.pc.next <= |s.pc.batch| then s.pc.batch[s.pc.next..] else []
  }

  /** Something will make the next epoll_wait return. */
  predicate WillWake(s: State)
  {
    s.counter > 0 || s.owing != {} || s.loopOwes
  }

  /** No functor is lost, duplicated or reordered. */
  predicate Conserved(s: State)
  {
    && (s.pc.Running? ==> s.pc.next <= |s.pc.batch|)
    && s.executed + Rest(s) + s.pending == s.pushed
  }

  /** Queued functors are covered by a wakeup wherever the loop may go to epoll_wait before it swaps. */
  predicate Covered(s: State)
  {
    && (s.pc.Swap? || s.pc.Running? ==> s.calling)
    && (s.loopOwes ==> InCallback(s) || s.pc.CheckQuit?)
    && (s.pc.CheckQuit? || s.pc.Waiting? || s.pc.Running? ==> s.pending != [] ==> WillWake(s))
    && (s.pc.Waiting? && s.quit ==> WillWake(s))
  }

  lemma PushConserves(executed: seq<Functor>, rest: seq<Functor>, pending: seq<Functor>, f: Functor)
    ensures executed + rest + (pending + [f]) == (executed + rest + pending) + [f]
  {
  }

  lemma CallConserves(executed: seq<Functor>, batch: seq<Functor>, next: nat, pending: seq<Functor>)
    requires next < |batch|
    ensures (executed + [batch[next]]) + batch[next + 1..] + pending == executed + batch[next..] + pending
  {
    assert batch[next..] == [batch[next]] + batch[next + 1..];
  }

  lemma SwapConserves(executed: seq<Functor>, pending: seq<Functor>)
    ensures executed + pending[0..] + [] == executed + [] + pending
  {
  }

  lemma StepConserves(s: State, l: Label)
    requires Conserved(s) && Enabled(s, l)
    ensures Conserved(Apply(s, l))
  {
    match l
    case Push(t, f) => PushConserves(s.executed, Rest(s), s.pending, f);
    case LoopPush(f) => PushConserves(s.executed, Rest(s), s.pending, f);
    case SwapBatch => SwapConserves(s.executed, s.pending);
    case CallFunctor => CallConserves(s.executed, s.pc.batch, s.pc.next, s.pending);
    case _ =>
  }

  lemma StepCovers(s: State, l: Label)
    requires Covered(s) && Enabled(s, l) && Disciplined(s, l)
    ensures Covered(Apply(s, l))
  {
    match l
    case Push(t, f) => assert t in Apply(s, l).owing;
    case SetQuit(t) => assert t in Apply(s, l).owing;
    case _ =>
  }

  // ----- runs -----

  predicate StepAt(tr: seq<State>, ls: seq<Label>, i: nat)
    requires i < |ls| && |tr| == |ls| + 1
  {
    Enabled(tr[i], ls[i]) && tr[i + 1] == Apply(tr[i], ls[i])
  }

  /** Any finite interleaving, from any state. */
  predicate IsPath(tr: seq<State>, ls: seq<Label>)
  {
    |tr| == |ls| + 1 && forall i :: 0 <= i < |ls| ==> StepAt(tr, ls, i)
  }

  predicate IsRun(tr: seq<State>, ls: seq<Label>)
  {
    IsPath(tr, ls) && Init(tr[0])
  }

  predicate DisciplinedRun(tr: seq<State>, ls: seq<Label>)
  {
    |tr| == |ls| + 1 && forall i :: 0 <= i < |ls| ==> Disciplined(tr[i], ls[i])
  }

  /** The functors of the first k steps' queueInLoop calls, in order. */
  function QueuedBy(ls: seq<Label>, k: nat): seq<Functor>
    requires k <= |ls|
  {
    if k == 0 then []
    else QueuedBy(ls, k - 1) + if ls[k - 1].Push? || ls[k - 1].LoopPush? then [ls[k - 1].f] else []
  }

  /** In every run, disciplined or not: what was executed, then the rest of the batch, then the queue,
      is the sequence of all functors queued.  So each runs at most once and in the order of queueing. */
  lemma {:induction false} FunctorsConserved(tr: seq<State>, ls: seq<Label>, k: nat)
    requires IsRun(tr, ls) && k < |tr|
    ensures Conserved(tr[k]) && tr[k].pushed == QueuedBy(ls, k)
    ensures tr[k].executed + Rest(tr[k]) + tr[k].pending == QueuedBy(ls, k)
    ensures tr[k].executed <= QueuedBy(ls, k)
  {
    if k > 0 {
      FunctorsConserved(tr, ls, k - 1);
      assert StepAt(tr, ls, k - 1);
      StepConserves(tr[k - 1], ls[k - 1]);
    }
  }

  /** The wakeup() calls among the first k steps since handleRead() drained the counter last. */
  function WakeupsDue(ls: seq<Label>, k: nat): nat
    requires k <= |ls|
  {
    if k == 0 || ls[k - 1].HandleRead? then 0
    else WakeupsDue(ls, k - 1) + if ls[k - 1].Wakeup? || ls[k - 1].LoopWakeup? then 1 else 0
  }

  /** The eventfd counter holds the wakeup() calls that were not drained yet, up to its maximum. */
  lemma {:induction false} CounterCounts(tr: seq<State>, ls: seq<Label>, k: nat)
    requires IsRun(tr, ls) && k < |tr|
    ensures tr[k].counter == if WakeupsDue(ls, k) <= COUNTER_MAX then WakeupsDue(ls, k) else COUNTER_MAX
  {
    if k > 0 {
      CounterCounts(tr, ls, k - 1);
      assert StepAt(tr, ls, k - 1);
    }
  }

  /** The other threads that have pushed, or stored to quit_, and not yet called wakeup(). */
  function Owing(ls: seq<Label>, k: nat): set<Thread>
    requires k <= |ls|
  {
    if k == 0 then {}
    else if ls[k - 1].Push? || ls[k - 1].SetQuit? then Owing(ls, k - 1) + {ls[k - 1].t}
    else if ls[k - 1].Wakeup? then Owing(ls, k - 1) - {ls[k - 1].t}
    else Owing(ls, k - 1)
  }

  lemma {:induction false} OwingIsTrue(tr: seq<State>, ls: seq<Label>, k: nat)
    requires IsRun(tr, ls) && k < |tr|
    ensures tr[k].owing == Owing(ls, k)
  {
    if k > 0 {
      OwingIsTrue(tr, ls, k - 1);
      assert StepAt(tr, ls, k - 1);
    }
  }

  lemma {:induction false} PathCovered(tr: seq<State>, ls: seq<Label>, k: nat)
    requires IsPath(tr, ls) && DisciplinedRun(tr, ls) && k < |tr| && Covered(tr[0])
    ensures Covered(tr[k])
  {
    if k > 0 {
      PathCovered(tr, ls, k - 1);
      assert StepAt(tr, ls, k - 1);
      StepCovers(tr[k - 1], ls[k - 1]);
    }
  }

  /** The loop waits with functors queued, and nobody is going to wake it for them. */
  predicate Stranded(s: State)
  {
    s.pc.Waiting? && s.pending != [] && !WillWake(s)
  }

  predicate Quits(l: Label)
  {
    l.SetQuit? || l.LoopQuit?
  }

  /** quit() is for good: from then on the loop leaves when it tests quit_. */
  lemma {:induction false} QuitForGood(tr: seq<State>, ls: seq<Label>, i: nat, k: nat)
    requires IsPath(tr, ls) && i < k < |tr| && Quits(ls[i])
    ensures tr[k].quit
    ensures k < |ls| && ls[k] == Check ==> tr[k + 1].pc == Done
    decreases k
  {
    assert StepAt(tr, ls, k - 1);
    if i + 1 < k { QuitForGood(tr, ls, i, k - 1); }
    if k < |ls| { assert StepAt(tr, ls, k); }
  }

  /** Whenever the loop is at epoll_wait with functors queued, or after quit(), the eventfd counter is
      positive or another thread has yet to make its wakeup() call. */
  lemma NoStrandedFunctor(tr: seq<State>, ls: seq<Label>, k: nat)
    requires IsRun(tr, ls) && DisciplinedRun(tr, ls) && k < |tr| && tr[k].pc.Waiting?
    requires tr[k].pending != [] || exists i :: 0 <= i < k && Quits(ls[i])
    ensures tr[k].counter > 0 || tr[k].owing != {}
    ensures WakeupsDue(ls, k) > 0 || Owing(ls, k) != {}
  {
    PathCovered(tr, ls, k);
    CounterCounts(tr, ls, k);
    OwingIsTrue(tr, ls, k);
    if i :| 0 <= i < k && Quits(ls[i]) { QuitForGood(tr, ls, i, k); }
  }

  // ----- the loop gets on -----

  /** Taking the steps ls from s is possible and leads to s'. */
  predicate Leads(s: State, ls: seq<Label>, s': State)
    decreases |ls|
  {
    if ls == [] then s' == s else Enabled(s, ls[0]) && Leads(Apply(s, ls[0]), ls[1..], s')
  }

  lemma LeadsOn(s: State, l: Label, ls: seq<Label>, s': State)
    requires Enabled(s, l) && Leads(Apply(s, l), ls, s')
    ensures Leads(s, [l] + ls, s')
  {
    assert ([l] + ls)[1..] == ls;
  }

  lemma {:induction false} LeadsThrough(s: State, ls: seq<Label>, m: State, ms: seq<Label>, s': State)
    requires Leads(s, ls, m) && Leads(m, ms, s')
    ensures Leads(s, ls + ms, s')
    decreases |ls|
  {
    if ls == [] {
      assert ls + ms == ms;
    } else {
      LeadsThrough(Apply(s, ls[0]), ls[1..], m, ms, s');
      assert (ls + ms)[1..] == ls[1..] + ms;
    }
  }

  /** Any other thread can queue a functor, or quit the loop, in any state, and with its wakeup() the
      counter is positive. */
  lemma OthersAreHeard(s: State, t: Thread, f: Functor) returns (pushed: State, quit: State)
    requires t !in s.owing
    ensures Leads(s, [Push(t, f), Wakeup(t)], pushed) && Leads(s, [SetQuit(t), Wakeup(t)], quit)
    ensures pushed.pending == s.pending + [f] && pushed.counter > 0 && pushed.pc == s.pc
    ensures quit.pending == s.pending && quit.quit && quit.counter > 0 && quit.pc == s.pc
  {
    var p, q := Apply(s, Push(t, f)), Apply(s, SetQuit(t));
    pushed, quit := Apply(p, Wakeup(t)), Apply(q, Wakeup(t));
    LeadsOn(p, Wakeup(t), [], pushed);
    LeadsOn(q, Wakeup(t), [], quit);
    LeadsOn(s, Push(t, f), [Wakeup(t)], pushed);
    LeadsOn(s, SetQuit(t), [Wakeup(t)], quit);
    assert [Push(t, f), Wakeup(t)] == [Push(t, f)] + [Wakeup(t)];
    assert [SetQuit(t), Wakeup(t)] == [SetQuit(t)] + [Wakeup(t)];
  }

  /** What the loop thread does by itself, apart from the pushes and quit() of callbacks and functors. */
  predicate OwnStep(l: Label)
  {
    !l.Push? && !l.SetQuit? && !l.Wakeup? && !l.LoopPush? && !l.LoopQuit?
  }

  predicate OwnSteps(ls: seq<Label>)
  {
    forall i :: 0 <= i < |ls| ==> OwnStep(ls[i])
  }

  /** The batch runs to its end. */
  lemma {:induction false} RunsBatch(s: State) returns (ls: seq<Label>, s': State)
    requires s.pc.Running? && s.pc.next <= |s.pc.batch| && !s.loopOwes
    ensures Leads(s, ls, s') && OwnSteps(ls)
    ensures s' == s.(executed := s.executed + s.pc.batch[s.pc.next..], pc := CheckQuit, calling := false)
    decreases |s.pc.batch| - s.pc.next
  {
    if s.pc.next == |s.pc.batch| {
      s' := Apply(s, BatchDone);
      LeadsOn(s, BatchDone, [], s');
      ls := [BatchDone];
    } else {
      ls, s' := RunsBatch(Apply(s, CallFunctor));
      LeadsOn(s, CallFunctor, ls, s');
      ls := [CallFunctor] + ls;
      assert s.pc.batch[s.pc.next..] == [s.pc.batch[s.pc.next]] + s.pc.batch[s.pc.next + 1..];
    }
  }

  /** From the return of epoll_wait for the wakeup channel, all that is queued is executed in one round,
      and the counter is drained. */
  lemma QueuedFunctorsRun(s: State) returns (ls: seq<Label>, s': State)
    requires s.pc.Waiting? && !s.loopOwes
    ensures Leads(s, [Ready, HandleRead, EventsDone, SwapBatch] + ls, s') && OwnSteps(ls)
    ensures s'.executed == s.executed + s.pending && s'.pending == [] && s'.counter == 0 && s'.pc == CheckQuit
  {
    var a := Apply(s, Ready);
    var b := Apply(a, HandleRead);
    var c := Apply(b, EventsDone);
    var d := Apply(c, SwapBatch);
    ls, s' := RunsBatch(d);
    LeadsOn(c, SwapBatch, ls, s');
    LeadsOn(b, EventsDone, [SwapBatch] + ls, s');
    LeadsOn(a, HandleRead, [EventsDone] + ([SwapBatch] + ls), s');
    LeadsOn(s, Ready, [HandleRead] + ([EventsDone] + ([SwapBatch] + ls)), s');
    assert [Ready, HandleRead, EventsDone, SwapBatch] + ls ==
      [Ready] + ([HandleRead] + ([EventsDone] + ([SwapBatch] + ls)));
  }

  /** The loop without quit_ goes back to epoll_wait. */
  lemma BackToWait(s: State)
    requires s.pc.CheckQuit? && !s.quit && !s.loopOwes
    ensures Leads(s, [Check], s.(pc := Waiting))
  {
    LeadsOn(s, Check, [], s.(pc := Waiting));
  }

  lemma ReachesCheck(s: State) returns (ls: seq<Label>, s': State)
    requires Conserved(s) && !s.pc.Done? && !s.loopOwes
    ensures Leads(s, ls, s') && OwnSteps(ls) && s'.pc.CheckQuit? && !s'.loopOwes && s'.quit == s.quit
  {
    match s.pc
    case CheckQuit =>
      ls, s' := [], s;
    case Waiting =>
      ls, s' := [Timeout], Apply(s, Timeout);
      LeadsOn(s, Timeout, [], s');
    case Events =>
      var swap := Apply(s, EventsDone);
      ls, s' := RunsBatch(Apply(swap, SwapBatch));
      LeadsOn(swap, SwapBatch, ls, s');
      LeadsOn(s, EventsDone, [SwapBatch] + ls, s');
      ls := [EventsDone] + ([SwapBatch] + ls);
    case Swap =>
      ls, s' := RunsBatch(Apply(s, SwapBatch));
      LeadsOn(s, SwapBatch, ls, s');
      ls := [SwapBatch] + ls;
    case Running(batch, next) =>
      ls, s' := RunsBatch(s);
  }

  /** After quit() the loop comes to its end by steps of its own, from wherever it is. */
  lemma QuitEnds(tr: seq<State>, ls: seq<Label>, i: nat, k: nat) returns (own: seq<Label>, s': State)
    requires IsRun(tr, ls) && i < k < |tr| && Quits(ls[i])
    ensures Leads(tr[k], own, s') && OwnSteps(own) && s'.pc == Done
  {
    var s := tr[k];
    FunctorsConserved(tr, ls, k);
    QuitForGood(tr, ls, i, k);
    if s.pc.Done? { return [], s; }
    var free := if s.loopOwes then Apply(s, LoopWakeup) else s;
    var check;
    own, check := ReachesCheck(free);
    s' := Apply(check, Check);
    LeadsOn(check, Check, [], s');
    LeadsThrough(free, own, check, [Check], s');
    own := own + [Check];
    if s.loopOwes {
      LeadsOn(s, LoopWakeup, own, s');
      own := [LoopWakeup] + own;
    }
  }

  /** However other threads and the loop go on, with disciplined pushes from now on, the loop does not
      wait in vain. */
  ghost predicate NeverStrands(s: State)
  {
    forall tr, ls :: IsPath(tr, ls) && DisciplinedRun(tr, ls) && tr[0] == s ==> !Stranded(tr[|ls|])
  }

  /** With quit_ set, the loop does not go back to epoll_wait. */
  lemma {:induction false} QuitBeforeCheck(tr: seq<State>, ls: seq<Label>, k: nat)
    requires IsPath(tr, ls) && k < |tr| && tr[0].quit && tr[0].pc.CheckQuit?
    ensures tr[k].quit && (tr[k].pc.CheckQuit? || tr[k].pc.Done?)
  {
    if k > 0 {
      QuitBeforeCheck(tr, ls, k - 1);
      assert StepAt(tr, ls, k - 1);
    }
  }

  lemma StrandedByCheck(s: State)
    requires s.pc.CheckQuit? && s.pending != [] && !WillWake(s) && !s.quit
    ensures !NeverStrands(s)
  {
    var tr, ls := [s, Apply(s, Check)], [Check];
    assert StepAt(tr, ls, 0);
    assert IsPath(tr, ls) && DisciplinedRun(tr, ls) && Stranded(tr[|ls|]);
  }

  /** The discipline is exact.  A push from the loop thread is safe exactly inside callbacks and functors,
      or with callingPendingFunctors_ set, or with a wakeup on its way anyway, or if the loop is about to
      find quit_ set; otherwise the loop may go on to wait with the functor queued. */
  lemma SafeLoopPush(s: State, f: Functor)
    requires Covered(s) && Enabled(s, LoopPush(f))
    ensures NeverStrands(Apply(s, LoopPush(f))) <==> InCallback(s) || s.calling || WillWake(s) || s.quit
  {
    var pushed := Apply(s, LoopPush(f));
    assert pushed.pending != [];
    if Disciplined(s, LoopPush(f)) {
      StepCovers(s, LoopPush(f));
      forall tr, ls | IsPath(tr, ls) && DisciplinedRun(tr, ls) && tr[0] == pushed ensures !Stranded(tr[|ls|]) {
        PathCovered(tr, ls, |ls|);
      }
    } else if s.quit {
      forall tr, ls | IsPath(tr, ls) && DisciplinedRun(tr, ls) && tr[0] == pushed ensures !Stranded(tr[|ls|]) {
        QuitBeforeCheck(tr, ls, |ls|);
      }
    } else {
      StrandedByCheck(pushed);
    }
  }

  /** Such a run: a functor queued by the loop thread just before poll() is stranded. */
  lemma StrandedBeforePoll(start: State, f: Functor) returns (tr: seq<State>, ls: seq<Label>)
    requires Init(start) && !start.calling
    ensures IsRun(tr, ls) && tr[0] == start && ls == [LoopPush(f), Check]
    ensures tr[2].pc.Waiting? && tr[2].pending == [f] && tr[2].counter == 0 && tr[2].owing == {}
  {
    var queued := Apply(start, LoopPush(f));
    ls := [LoopPush(f), Check];
    tr := [start, queued, Apply(queued, Check)];
    assert StepAt(tr, ls, 0) && StepAt(tr, ls, 1);
  }

  /** One doPendingFunctors call: from its swap at `from`, while the batch runs, the batch is what was
      queued at the swap, its functors run in order, and whatever is pushed meanwhile stays queued. */
  lemma {:induction false} BatchIsFixed(tr: seq<State>, ls: seq<Label>, from: nat, k: nat)
    requires IsRun(tr, ls) && from < k < |tr| && ls[from] == SwapBatch
    requires forall i :: from < i <= k ==> tr[i].pc.Running?
    ensures tr[k].pc.batch == tr[from].pending && tr[k].pc.next <= |tr[k].pc.batch|
    ensures tr[k].executed == tr[from].executed + tr[from].pending[..tr[k].pc.next]
    ensures tr[k].pushed == tr[from].pushed + tr[k].pending
    decreases k
  {
    assert StepAt(tr, ls, k - 1);
    if from + 1 < k {
      BatchIsFixed(tr, ls, from, k - 1);
    }
  }

  /** When the call ends it has executed exactly the batch, each functor once and in order. */
  lemma BatchCompletes(tr: seq<State>, ls: seq<Label>, from: nat, end: nat)
    requires IsRun(tr, ls) && from < end < |ls| && ls[from] == SwapBatch && ls[end] == BatchDone
    requires forall i :: from < i <= end ==> tr[i].pc.Running?
    ensures tr[end + 1].executed == tr[from].executed + tr[from].pending
    ensures tr[end + 1].pushed == tr[from].pushed + tr[end + 1].pending
  {
    BatchIsFixed(tr, ls, from, end);
    assert StepAt(tr, ls, end);
  }
}

/**
 The count-down latch of ydx_countdown_lauch.cpp as a monitor.  A step is one critical section or one
 spurious return from the wait.
 */
module Latch {

  type Thread = nat

  datatype State = State(
    initial: int,
    count: int,
    entering: set<Thread>,   // about to lock the mutex in wait()
    asleep: set<Thread>,     // waiting, not signalled
    woken: set<Thread>,      // signalled, mutex not yet reacquired
    returned: set<Thread>)   // history: wait() has returned

  datatype Label =
    | CountDown
    | Call(t: Thread)        // wait() is called
    | Round(t: Thread)       // one test of the wait loop under the mutex
    | Spurious(t: Thread)

  predicate Init(s: State)
  {
    && s.count == s.initial
    && s.entering == {} && s.asleep == {} && s.woken == {} && s.returned == {}
  }

  predicate Enabled(s: State, l: Label)
  {
    match l
    case CountDown => true
    case Call(t) => t !in s.entering + s.asleep + s.woken + s.returned
    case Round(t) => t in s.entering + s.woken
    case Spurious(t) => t in s.asleep
  }

  function Apply(s: State, l: Label): State
    requires Enabled(s, l)
  {
    match l
    case CountDown =>
      var s' := s.(count := s.count - 1);
      if s'.count == 0 then s'.(asleep := {}, woken := s.woken + s.asleep) else s'
    case Call(t) => s.(entering := s.entering + {t})
    case Round(t) =>
      var s' := s.(entering := s.entering - {t}, woken := s.woken - {t});
      if s.count > 0 then s'.(asleep := s.asleep + {t}) else s'.(returned := s.returned + {t})
    case Spurious(t) => s.(asleep := s.asleep - {t}, woken := s.woken + {t})
  }

  predicate StepAt(tr: seq<State>, ls: seq<Label>, i: nat)
    requires i < |ls| && |tr| == |ls| + 1
  {
    Enabled(tr[i], ls[i]) && tr[i + 1] == Apply(tr[i], ls[i])
  }

  predicate IsRun(tr: seq<State>, ls: seq<Label>)
  {
    && |tr| == |ls| + 1
    && Init(tr[0])
    && forall i :: 0 <= i < |ls| ==> StepAt(tr, ls, i)
  }

  /** The countDown() calls among the first k steps. */
  function Downs(ls: seq<Label>, k: nat): nat
    requires k <= |ls|
  {
    if k == 0 then 0 else Downs(ls, k - 1) + if ls[k - 1].CountDown? then 1 else 0
  }

  /** The threads that called wait() in the first k steps. */
  function Callers(ls: seq<Label>, k: nat): set<Thread>
    requires k <= |ls|
  {
    if k == 0 then {} else Callers(ls, k - 1) + if ls[k - 1].Call? then {ls[k - 1].t} else {}
  }

  /** The latch opens exactly at the initial number of countDown() calls, also when more follow: before
      that no wait() has returned (unless the latch started open), from then on nobody is asleep. */
  lemma {:induction false} LatchOpens(tr: seq<State>, ls: seq<Label>, k: nat)
    requires IsRun(tr, ls) && k < |tr|
    ensures tr[k].initial == tr[0].initial && tr[k].count == tr[0].initial - Downs(ls, k)
    ensures tr[k].returned != {} ==> tr[0].initial <= Downs(ls, k)
    ensures tr[0].initial <= Downs(ls, k) ==> tr[k].asleep == {}
    ensures Callers(ls, k) == tr[k].entering + tr[k].asleep + tr[k].woken + tr[k].returned
    ensures tr[k].returned !! tr[k].entering + tr[k].asleep + tr[k].woken
  {
    if k > 0 {
      LatchOpens(tr, ls, k - 1);
      assert StepAt(tr, ls, k - 1);
    }
  }

  /** A thread that called wait() has returned or stands at a test of the loop, awake or asleep; its next
      test lets it return exactly if the latch is open, and an open latch lets every caller test. */
  lemma CallersReturn(tr: seq<State>, ls: seq<Label>, k: nat, t: Thread)
    requires IsRun(tr, ls) && k < |tr| && t in Callers(ls, k) && t !in tr[k].returned
    ensures tr[0].initial <= Downs(ls, k) ==> Enabled(tr[k], Round(t))
    ensures Enabled(tr[k], Round(t)) ==>
      (t in Apply(tr[k], Round(t)).returned <==> tr[0].initial <= Downs(ls, k))
  {
    LatchOpens(tr, ls, k);
  }
}

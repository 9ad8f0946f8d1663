/**
 The choice of an IO loop in epoller_thread_pool.cpp.  The loops are those of the threads that start()
 created; the threads themselves are not part of this model.
 */
module Placement {

  import opened Epoll

  class EPollerThreadPool {
    const base: EPollPoller
    const epolls: seq<EPollPoller>
    var next: nat
    ghost var calls: nat   // calls of getNextLoop so far

    ghost predicate Valid()
      reads this
    {
      epolls != [] ==> next == calls % |epolls|
    }

    /** The pool after start(). */
    constructor (base: EPollPoller, epolls: seq<EPollPoller>)
      ensures Valid() && this.base == base && this.epolls == epolls && calls == 0
    {
      this.base, this.epolls := base, epolls;
      next, calls := 0, 0;
    }

    /** Call number k, from 0, gets loop k modulo their number. */
    method GetNextLoop() returns (loop: EPollPoller)
      requires Valid()
      modifies this
      ensures Valid() && calls == old(calls) + 1
      ensures loop == if epolls == [] then base else epolls[old(calls) % |epolls|]
    {
      loop := base;
      if |epolls| != 0 {
        loop := epolls[next];
        next := next + 1;
        DivModStep(calls, |epolls|);
        if next >= |epolls| {
          next := 0;
        }
      }
      calls := calls + 1;
    }

    method GetLoopForHash(hashCode: nat) returns (loop: EPollPoller)
      ensures loop == if epolls == [] then base else epolls[hashCode % |epolls|]
    {
      loop := base;
      if |epolls| != 0 {
        loop := epolls[hashCode % |epolls|];
      }
    }

    method GetAllLoops() returns (loops: seq<EPollPoller>)
      ensures loops != [] && (epolls != [] ==> loops == epolls) && (epolls == [] ==> loops == [base])
    {
      if |epolls| == 0 {
        loops := [base];
      } else {
        loops := epolls;
      }
    }
  }

  lemma DivModStep(k: nat, n: nat)
    requires n >= 1
    ensures (k + 1) % n == if k % n + 1 == n then 0 else k % n + 1
    ensures (k + 1) / n == if k % n + 1 == n then k / n + 1 else k / n
  {
    var q, r := k / n, k % n;
    assert k == q * n + r;
    if r + 1 == n {
      assert k + 1 == (q + 1) * n;
      DivModUnique(k + 1, n, q + 1, 0);
    } else {
      DivModUnique(k + 1, n, q, r + 1);
    }
  }

  lemma DivModUnique(a: nat, n: nat, q: nat, r: nat)
    requires n >= 1 && r < n && a == q * n + r
    ensures a / n == q && a % n == r
  {
    var q', r' := a / n, a % n;
    assert a == q' * n + r';
    if q' < q { MulMonotone(q' + 1, q, n); }
    if q < q' { MulMonotone(q + 1, q', n); }
  }

  lemma MulMonotone(a: nat, b: nat, n: nat)
    requires a <= b
    ensures a * n <= b * n
  {
    assert b * n == a * n + (b - a) * n;
  }

  /** How many of the first k calls got loop j of n. */
  function Chosen(k: nat, n: nat, j: nat): nat
    requires n >= 1
  {
    if k == 0 then 0 else Chosen(k - 1, n, j) + if (k - 1) % n == j then 1 else 0
  }

  /** After k calls each of n loops was chosen k / n times, or once more if it is among the first k % n. */
  lemma {:induction false} FairPlacement(k: nat, n: nat, j: nat)
    requires j < n
    ensures Chosen(k, n, j) == k / n + if j < k % n then 1 else 0
  {
    if k == 0 {
      DivModUnique(0, n, 0, 0);
    } else {
      FairPlacement(k - 1, n, j);
      DivModStep(k - 1, n);
    }
  }
}

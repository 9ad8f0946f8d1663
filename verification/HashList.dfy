/**
 The hash lists of linux_list.h.  Each node keeps the address of the slot that points to it, so it can be
 unlinked without its head: the head is a ghost parameter here.  The slot is a value: `&h->first`,
 `&n->next` or NULL.
 */
module HashList {

  import opened SeqOps

  datatype Slot = NoSlot | FirstOf(head: HlistHead) | NextOf(node: HlistNode)

  class HlistHead {
    var first: HlistNode?

    /** INIT_HLIST_HEAD */
    constructor ()
      ensures HList(this, [])
    {
      first := null;
    }
  }

  class HlistNode {
    var next: HlistNode?
    var pprev: Slot

    /** INIT_HLIST_NODE */
    constructor ()
      ensures next == null && pprev == NoSlot
    {
      next, pprev := null, NoSlot;
    }
  }

  function Owner(s: Slot): set<object>
  {
    match s
    case NoSlot => {}
    case FirstOf(h) => {h}
    case NextOf(n) => {n}
  }

  /** `*s` */
  function Load(s: Slot): HlistNode?
    reads Owner(s)
  {
    match s
    case NoSlot => null
    case FirstOf(h) => h.first
    case NextOf(n) => n.next
  }

  /** `*s = v` */
  method Store(s: Slot, v: HlistNode?)
    requires s != NoSlot
    modifies match s { case NoSlot => {} case FirstOf(h) => {h} case NextOf(n) => {n} }
    ensures Load(s) == v
    ensures s.NextOf? ==> s.node.pprev == old(s.node.pprev)
  {
    match s
    case FirstOf(h) => h.first := v;
    case NextOf(n) => n.next := v;
  }

  function NodeAt(ns: seq<HlistNode>, i: nat): HlistNode?
  {
    if i < |ns| then ns[i] else null
  }

  /** The slot that leads to position i. */
  function SlotAt(h: HlistHead, ns: seq<HlistNode>, i: nat): Slot
    requires i <= |ns|
  {
    if i == 0 then FirstOf(h) else NextOf(ns[i - 1])
  }

  /** The nodes of ns, in this order, hang from h, and each knows the slot that points to it. */
  ghost predicate HList(h: HlistHead, ns: seq<HlistNode>)
    reads h, ns
  {
    && (forall i, j :: 0 <= i < j < |ns| ==> ns[i] != ns[j])
    && h.first == NodeAt(ns, 0)
    && (forall i {:trigger ns[i].next} :: 0 <= i < |ns| ==> ns[i].next == NodeAt(ns, i + 1))
    && (forall i {:trigger ns[i].pprev} :: 0 <= i < |ns| ==> ns[i].pprev == SlotAt(h, ns, i))
  }

  /** `*n->pprev == n` for every linked node. */
  lemma SlotPointsBack(h: HlistHead, ns: seq<HlistNode>, i: nat)
    requires HList(h, ns) && i < |ns|
    ensures ns[i].pprev != NoSlot && Load(ns[i].pprev) == ns[i]
  {
    if i > 0 { assert ns[i - 1].next == ns[i]; }
  }

  /** The links determine the list. */
  lemma {:induction false} HListIsUnique(h: HlistHead, ns: seq<HlistNode>, ms: seq<HlistNode>, n: nat)
    requires HList(h, ns) && HList(h, ms) && n <= |ns| && n <= |ms|
    ensures ns[..n] == ms[..n]
    ensures n == |ns| || n == |ms| ==> ns == ms
  {
    if n > 0 {
      HListIsUnique(h, ns, ms, n - 1);
      assert ns[n - 1] == ms[n - 1] by {
        if n > 1 {
          assert ns[n - 2] == ns[..n - 1][n - 2] == ms[..n - 1][n - 2] == ms[n - 2];
          assert ns[n - 2].next == ns[n - 1] && ms[n - 2].next == ms[n - 1];
        }
      }
      assert ns[..n] == ns[..n - 1] + [ns[n - 1]];
      assert ms[..n] == ms[..n - 1] + [ms[n - 1]];
      assert ns[n - 1].next == NodeAt(ns, n) && ms[n - 1].next == NodeAt(ms, n);
    }
  }

  // ----- insertion -----

  /** x is linked in at position k. */
  lemma LinkedIn(h: HlistHead, ns: seq<HlistNode>, k: nat, x: HlistNode)
    requires k <= |ns| && x !in ns && forall i, j :: 0 <= i < j < |ns| ==> ns[i] != ns[j]
    requires h.first == if k == 0 then x else NodeAt(ns, 0)
    requires x.next == NodeAt(ns, k) && x.pprev == SlotAt(h, ns, k)
    requires forall i {:trigger ns[i].next} :: 0 <= i < |ns| ==>
      ns[i].next == if i + 1 == k then x else NodeAt(ns, i + 1)
    requires forall i {:trigger ns[i].pprev} :: 0 <= i < |ns| ==>
      ns[i].pprev == if i == k then NextOf(x) else SlotAt(h, ns, i)
    ensures HList(h, Insert(ns, k, x))
  {
  }

  method HlistAddHead(n: HlistNode, h: HlistHead, ghost ns: seq<HlistNode>)
    requires HList(h, ns) && n !in ns
    modifies n, h, (if h.first == null then {} else {h.first})`pprev
    ensures HList(h, Insert(ns, 0, n))
  {
    var first := h.first;
    n.next := first;
    if first != null {
      first.pprev := NextOf(n);
    }
    h.first := n;
    n.pprev := FirstOf(h);
  }

  /** `next` is ns[i]; n goes right before it, whatever its slot is. */
  method HlistAddBefore(n: HlistNode, next: HlistNode, ghost h: HlistHead, ghost ns: seq<HlistNode>, ghost i: nat)
    requires HList(h, ns) && i < |ns| && next == ns[i] && n !in ns
    modifies n, next`pprev, Owner(next.pprev)
    ensures HList(h, Insert(ns, i, n))
  {
    n.pprev := next.pprev;
    n.next := next;
    next.pprev := NextOf(n);
    Store(n.pprev, n);
  }

  /** n is ns[i]; `next` goes right after it. */
  method HlistAddAfter(n: HlistNode, next: HlistNode, ghost h: HlistHead, ghost ns: seq<HlistNode>, ghost i: nat)
    requires HList(h, ns) && i < |ns| && n == ns[i] && next !in ns
    modifies n`next, next, (if n.next == null then {} else {n.next})`pprev
    ensures HList(h, Insert(ns, i + 1, next))
  {
    next.next := n.next;
    n.next := next;
    next.pprev := NextOf(n);
    if next.next != null {
      next.next.pprev := NextOf(next);
    }
    LinkedIn(h, ns, i + 1, next);
  }

  // ----- removal -----

  /** __hlist_del */
  method Unhash(n: HlistNode, ghost h: HlistHead, ghost ns: seq<HlistNode>, ghost k: nat)
    requires HList(h, ns) && k < |ns| && n == ns[k]
    modifies Owner(n.pprev), (if n.next == null then {} else {n.next})`pprev
    ensures HList(h, Remove(ns, k))
    ensures n.next == old(n.next) && n.pprev == old(n.pprev)
  {
    SlotPointsBack(h, ns, k);
    var next := n.next;
    var pprev := n.pprev;
    Store(pprev, next);
    if next != null {
      next.pprev := pprev;
    }
    assert forall i {:trigger ns[i].next} :: 0 <= i < |ns| ==>
      ns[i].next == NodeAt(ns, if i + 1 == k then k + 1 else i + 1);
    assert forall i {:trigger ns[i].pprev} :: 0 <= i < |ns| ==>
      ns[i].pprev == SlotAt(h, ns, if i == k + 1 then k else i);
    JoinAround(h, ns, k);
  }

  lemma JoinAround(h: HlistHead, ns: seq<HlistNode>, k: nat)
    requires k < |ns| && forall i, j :: 0 <= i < j < |ns| ==> ns[i] != ns[j]
    requires h.first == NodeAt(ns, if k == 0 then 1 else 0)
    requires forall i {:trigger ns[i].next} :: 0 <= i < |ns| ==>
      ns[i].next == NodeAt(ns, if i + 1 == k then k + 1 else i + 1)
    requires forall i {:trigger ns[i].pprev} :: 0 <= i < |ns| ==>
      ns[i].pprev == SlotAt(h, ns, if i == k + 1 then k else i)
    ensures HList(h, Remove(ns, k))
  {
  }

  /** A linked node leaves its list; on a node that is in no list nothing changes, so a second call does
      nothing. */
  method HlistDelInit(n: HlistNode, ghost h: HlistHead, ghost ns: seq<HlistNode>, ghost k: nat)
    requires n.pprev != NoSlot ==> HList(h, ns) && k < |ns| && n == ns[k]
    modifies n, Owner(n.pprev), (if n.next == null then {} else {n.next})`pprev
    ensures old(n.pprev) == NoSlot ==> unchanged(n) && (n.next == null || unchanged(n.next))
    ensures old(n.pprev) != NoSlot ==> HList(h, Remove(ns, k)) && n.next == null && n.pprev == NoSlot
  {
    if n.pprev != NoSlot {
      Unhash(n, h, ns, k);
      n.next := null;
      n.pprev := NoSlot;
    }
  }
}

/**
 The circular doubly linked lists of linux_list.h.  A list is a ring of nodes, one of which serves as its
 head; the ghost sequence passed to an operation is the ring it works on.  What an operation may write is
 its `modifies` clause, so every other ring keeps its links.
 */
module RingList {

  import opened SeqOps

  class ListHead {
    var next: ListHead
    var prev: ListHead

    /** INIT_LIST_HEAD */
    constructor ()
      ensures Ring([this])
    {
      next, prev := this, this;
    }
  }

  ghost predicate Distinct(r: seq<ListHead>)
  {
    forall i, j :: 0 <= i < j < |r| ==> r[i] != r[j]
  }

  ghost predicate Disjoint(r: seq<ListHead>, s: seq<ListHead>)
  {
    forall i, j :: 0 <= i < |r| && 0 <= j < |s| ==> r[i] != s[j]
  }

  function After(r: seq<ListHead>, i: nat): ListHead
    requires i < |r|
  {
    if i + 1 < |r| then r[i + 1] else r[0]
  }

  function Before(r: seq<ListHead>, i: nat): ListHead
    requires i < |r|
  {
    if i > 0 then r[i - 1] else r[|r| - 1]
  }

  /** The nodes of r, in this order, form a ring: next and prev are each other's inverse on it. */
  ghost predicate Ring(r: seq<ListHead>)
    reads r
  {
    && |r| >= 1 && Distinct(r)
    && (forall i {:trigger r[i].next} :: 0 <= i < |r| ==> r[i].next == After(r, i))
    && (forall i {:trigger r[i].prev} :: 0 <= i < |r| ==> r[i].prev == Before(r, i))
  }

  /** The links determine the ring: no other sequence with the same first node is one. */
  lemma RingIsUnique(r: seq<ListHead>, s: seq<ListHead>)
    requires Ring(r) && Ring(s) && r[0] == s[0]
    ensures r == s
  {
    var n := if |r| <= |s| then |r| else |s|;
    SamePrefix(r, s, n);
    assert r[n - 1] == r[..n][n - 1] == s[..n][n - 1] == s[n - 1];
    assert r[n - 1].next == After(r, n - 1) && s[n - 1].next == After(s, n - 1);
  }

  lemma {:induction false} SamePrefix(r: seq<ListHead>, s: seq<ListHead>, n: nat)
    requires Ring(r) && Ring(s) && r[0] == s[0] && n <= |r| && n <= |s|
    ensures r[..n] == s[..n]
  {
    if n > 1 {
      SamePrefix(r, s, n - 1);
      assert r[n - 2] == r[..n - 1][n - 2] == s[..n - 1][n - 2] == s[n - 2];
      assert r[n - 2].next == r[n - 1] && s[n - 2].next == s[n - 1];
      assert r[..n] == r[..n - 1] + [r[n - 1]];
      assert s[..n] == s[..n - 1] + [s[n - 1]];
    }
  }

  // ----- insertion -----

  /** __list_add: `node` goes between the neighbours r[i] and its successor. */
  method Link(node: ListHead, prev: ListHead, next: ListHead, ghost r: seq<ListHead>, ghost i: nat)
    requires Ring(r) && i < |r| && prev == r[i] && next == After(r, i) && node !in r
    modifies node, prev, next
    ensures Ring(Insert(r, i + 1, node))
  {
    next.prev := node;
    node.next := next;
    node.prev := prev;
    prev.next := node;
  }

  /** list_add: right after `at`; after the head, this is the front of the list. */
  method ListAdd(node: ListHead, at: ListHead, ghost r: seq<ListHead>, ghost i: nat)
    requires Ring(r) && i < |r| && at == r[i] && node !in r
    modifies node, at, at.next
    ensures Ring(Insert(r, i + 1, node))
  {
    Link(node, at, at.next, r, i);
  }

  /** list_add_tail: right before `at`; before the head, this is the end of the list. */
  method ListAddTail(node: ListHead, at: ListHead, ghost r: seq<ListHead>, ghost i: nat)
    requires Ring(r) && i < |r| && at == r[i] && node !in r
    modifies node, at, at.prev
    ensures Ring(if i == 0 then r + [node] else Insert(r, i, node))
  {
    assert Insert(r, |r|, node) == r + [node];
    Link(node, at.prev, at, r, if i == 0 then |r| - 1 else i - 1);
  }

  // ----- removal -----

  /** __list_del on the neighbours of r[k]. */
  method Unlink(prev: ListHead, next: ListHead, ghost r: seq<ListHead>, ghost k: nat)
    requires Ring(r) && k < |r| && prev == Before(r, k) && next == After(r, k)
    modifies prev`next, next`prev
    ensures |r| > 1 ==> Ring(Remove(r, k))
    ensures |r| == 1 ==> Ring(r)
    ensures prev.next == next && next.prev == prev
  {
    next.prev := prev;
    prev.next := next;
  }

  /** list_del_init: the entry becomes a ring of its own; on a lone entry nothing changes. */
  method ListDelInit(entry: ListHead, ghost r: seq<ListHead>, ghost k: nat)
    requires Ring(r) && k < |r| && entry == r[k]
    modifies entry, entry.prev, entry.next
    ensures |r| > 1 ==> Ring(Remove(r, k))
    ensures Ring([entry])
  {
    Unlink(entry.prev, entry.next, r, k);
    entry.next := entry;
    entry.prev := entry;
    if |r| > 1 {
      assert entry !in Remove(r, k);
    }
  }

  /** Where s[j] stands once r[k] is out of its ring: the ring it is in, and its place there. */
  function Destination(r: seq<ListHead>, k: nat, s: seq<ListHead>, j: nat): (d: (seq<ListHead>, nat))
    requires k < |r| && j < |s| && (r == s ==> j != k)
    ensures d.1 < |d.0| && d.0[d.1] == s[j]
  {
    if r != s then (s, j) else if j < k then (Remove(r, k), j) else (Remove(r, k), j - 1)
  }

  ghost predicate MayMove(entry: ListHead, at: ListHead, r: seq<ListHead>, k: nat, s: seq<ListHead>, j: nat)
    reads r, s
  {
    && Ring(r) && k < |r| && entry == r[k]
    && Ring(s) && j < |s| && at == s[j]
    && if r == s then j != k else Disjoint(r, s)
  }

  /** The __list_del that starts list_move and list_move_tail. */
  method Detach(
    entry: ListHead, at: ListHead, ghost r: seq<ListHead>, ghost k: nat, ghost s: seq<ListHead>, ghost j: nat)
    requires MayMove(entry, at, r, k, s, j)
    modifies entry.prev`next, entry.next`prev
    ensures var (t, i) := Destination(r, k, s, j); Ring(t) && entry !in t
    ensures r != s && |r| > 1 ==> Ring(Remove(r, k))
    ensures at.next == old(at.next) || at.next == old(entry.next)
    ensures at.prev == old(at.prev) || at.prev == old(entry.prev)
  {
    assert entry.prev == Before(r, k) && entry.next == After(r, k);
    Unlink(entry.prev, entry.next, r, k);
    assert r != s ==> Ring(s);
  }

  /** list_move: out of ring r, in right after s[j], where s is r or a ring disjoint from it. */
  method ListMove(
    entry: ListHead, at: ListHead, ghost r: seq<ListHead>, ghost k: nat, ghost s: seq<ListHead>, ghost j: nat)
    requires MayMove(entry, at, r, k, s, j)
    modifies entry, entry.prev, entry.next, at, at.next
    ensures var (t, i) := Destination(r, k, s, j); Ring(Insert(t, i + 1, entry))
    ensures r != s && |r| > 1 ==> Ring(Remove(r, k))
  {
    Detach(entry, at, r, k, s, j);
    ghost var (t, i) := Destination(r, k, s, j);
    assert at.next == After(t, i);
    ListAdd(entry, at, t, i);
  }

  /** list_move_tail: out of ring r, in right before s[j]. */
  method ListMoveTail(
    entry: ListHead, at: ListHead, ghost r: seq<ListHead>, ghost k: nat, ghost s: seq<ListHead>, ghost j: nat)
    requires MayMove(entry, at, r, k, s, j)
    modifies entry, entry.prev, entry.next, at, at.prev
    ensures var (t, i) := Destination(r, k, s, j); Ring(if i == 0 then t + [entry] else Insert(t, i, entry))
    ensures r != s && |r| > 1 ==> Ring(Remove(r, k))
  {
    Detach(entry, at, r, k, s, j);
    ghost var (t, i) := Destination(r, k, s, j);
    assert at.prev == Before(t, i);
    ListAddTail(entry, at, t, i);
  }

  // ----- splicing -----

  method ListEmpty(head: ListHead, ghost r: seq<ListHead>) returns (b: bool)
    requires Ring(r) && r[0] == head
    ensures b <==> r == [head]
  {
    b := head.next == head;
  }

  /** All of r but its head, after s[j]. */
  function Spliced(r: seq<ListHead>, s: seq<ListHead>, j: nat): (q: seq<ListHead>)
    requires |r| >= 1 && j < |s|
    ensures |q| == |s| + |r| - 1
    ensures forall i :: 0 <= i < |q| ==>
      q[i] == if i <= j then s[i] else if i < j + |r| then r[i - j] else s[i + 1 - |r|]
  {
    s[..j + 1] + r[1..] + s[j + 1..]
  }

  lemma SplicedDistinct(r: seq<ListHead>, s: seq<ListHead>, j: nat)
    requires |r| >= 1 && j < |s| && Distinct(r) && Distinct(s) && Disjoint(r, s)
    ensures Distinct(Spliced(r, s, j))
  {
  }

  lemma JoinNext(r: seq<ListHead>, s: seq<ListHead>, j: nat)
    requires |r| > 1 && j < |s|
    requires forall i {:trigger s[i].next} :: 0 <= i < |s| ==> s[i].next == if i == j then r[1] else After(s, i)
    requires forall i {:trigger r[i].next} :: 1 <= i < |r| ==>
      r[i].next == if i + 1 < |r| then r[i + 1] else After(s, j)
    ensures var q := Spliced(r, s, j); forall i {:trigger q[i].next} :: 0 <= i < |q| ==> q[i].next == After(q, i)
  {
  }

  lemma JoinPrev(r: seq<ListHead>, s: seq<ListHead>, j: nat)
    requires |r| > 1 && j < |s|
    requires forall i {:trigger s[i].prev} :: 0 <= i < |s| ==>
      s[i].prev == if s[i] == After(s, j) then r[|r| - 1] else Before(s, i)
    requires forall i {:trigger r[i].prev} :: 1 <= i < |r| ==> r[i].prev == if i > 1 then r[i - 1] else s[j]
    requires Distinct(s)
    ensures var q := Spliced(r, s, j); forall i {:trigger q[i].prev} :: 0 <= i < |q| ==> q[i].prev == Before(q, i)
  {
    var q := Spliced(r, s, j);
    forall i | 0 <= i < |q| ensures q[i].prev == Before(q, i) {
      if i <= j { assert s[i] == After(s, j) <==> i == 0 && j + 1 == |s|; }
      else if i >= j + |r| { assert s[i + 1 - |r|] == After(s, j) <==> i == j + |r|; }
    }
  }

  /** __list_splice: everything but the head of ring r moves right after s[j]. */
  method Splice(list: ListHead, at: ListHead, ghost r: seq<ListHead>, ghost s: seq<ListHead>, ghost j: nat)
    requires Ring(r) && r[0] == list && |r| > 1
    requires Ring(s) && j < |s| && at == s[j] && Disjoint(r, s)
    modifies list.next, list.prev, at, at.next
    ensures Ring(Spliced(r, s, j))
  {
    var first, last, after := list.next, list.prev, at.next;
    first.prev := at;
    at.next := first;
    last.next := after;
    after.prev := last;
    SplicedDistinct(r, s, j);
    JoinNext(r, s, j);
    JoinPrev(r, s, j);
  }

  method ListSpliceInit(list: ListHead, at: ListHead, ghost r: seq<ListHead>, ghost s: seq<ListHead>, ghost j: nat)
    requires Ring(r) && r[0] == list
    requires Ring(s) && j < |s| && at == s[j] && Disjoint(r, s)
    modifies list, list.next, list.prev, at, at.next
    ensures Ring(Spliced(r, s, j))
    ensures Ring([list])
  {
    var empty := ListEmpty(list, r);
    if !empty {
      Splice(list, at, r, s, j);
      assert list !in Spliced(r, s, j);
      list.next := list;
      list.prev := list;
    } else {
      assert Spliced(r, s, j) == s;
    }
  }

  // ----- traversal -----

  function Keep(s: seq<ListHead>, doomed: set<ListHead>): seq<ListHead>
  {
    if s == [] then [] else Keep(s[..|s| - 1], doomed) + if s[|s| - 1] in doomed then [] else [s[|s| - 1]]
  }

  lemma {:induction false} Kept(s: seq<ListHead>, doomed: set<ListHead>)
    ensures forall e :: e in Keep(s, doomed) ==> e in s && e !in doomed
  {
    if s != [] { Kept(s[..|s| - 1], doomed); }
  }

  /** The ring when the loop has come to r[i]. */
  function Left(r: seq<ListHead>, i: nat, doomed: set<ListHead>): seq<ListHead>
    requires 1 <= i <= |r|
  {
    [r[0]] + Keep(r[1..i], doomed) + r[i..]
  }

  lemma LeftEnds(r: seq<ListHead>, doomed: set<ListHead>)
    requires r != []
    ensures Left(r, 1, doomed) == r
    ensures Left(r, |r|, doomed) == [r[0]] + Keep(r[1..], doomed)
  {
    assert r[1..1] == [] && r[1..|r|] == r[1..];
  }

  lemma Cut(front: seq<ListHead>, x: ListHead, back: seq<ListHead>)
    requires front != []
    ensures var ring := front + [x] + back;
      && ring[|front|] == x && Remove(ring, |front|) == front + back
      && Before(ring, |front|) == front[|front| - 1]
      && After(ring, |front|) == if back == [] then front[0] else back[0]
  {
  }

  lemma LeftStep(r: seq<ListHead>, i: nat, doomed: set<ListHead>)
    requires 1 <= i < |r|
    ensures var front := [r[0]] + Keep(r[1..i], doomed);
      && Left(r, i, doomed) == front + [r[i]] + r[i + 1..]
      && Left(r, i + 1, doomed) == if r[i] in doomed then front + r[i + 1..] else Left(r, i, doomed)
  {
    assert r[1..i + 1][..i - 1] == r[1..i];
    assert r[i..] == [r[i]] + r[i + 1..];
  }

  /** The neighbours of the current entry are entries that are still in the ring. */
  lemma Neighbours(r: seq<ListHead>, i: nat, doomed: set<ListHead>)
    requires 1 <= i < |r| && Ring(Left(r, i, doomed))
    ensures r[i].next == After(r, i)
    ensures r[i].prev in r && (r[i].prev == r[0] || r[i].prev !in doomed)
  {
    var kept := Keep(r[1..i], doomed);
    var front := [r[0]] + kept;
    LeftStep(r, i, doomed);
    Cut(front, r[i], r[i + 1..]);
    Kept(r[1..i], doomed);
    assert Left(r, i, doomed)[|front|].prev == front[|front| - 1];
    assert Left(r, i, doomed)[|front|].next == After(r, i);
    assert kept != [] ==> kept[|kept| - 1] in kept;
  }

  /** The entries before r[i] that were to be deleted are initialised. */
  ghost predicate Cleared(r: seq<ListHead>, i: nat, doomed: set<ListHead>)
    reads r
    requires 1 <= i <= |r|
  {
    forall j :: 1 <= j < i && r[j] in doomed ==> r[j].next == r[j] && r[j].prev == r[j]
  }

  /** The loop body: the entry may be deleted. */
  method Visit(pos: ListHead, doomed: set<ListHead>, ghost r: seq<ListHead>, ghost i: nat)
    requires 1 <= i < |r| && Ring(Left(r, i, doomed)) && pos == r[i]
    requires Distinct(r) && Cleared(r, i, doomed)
    modifies pos, pos.prev, pos.next
    ensures Ring(Left(r, i + 1, doomed)) && Cleared(r, i + 1, doomed)
  {
    Neighbours(r, i, doomed);
    LeftStep(r, i, doomed);
    ghost var front := [r[0]] + Keep(r[1..i], doomed);
    Cut(front, r[i], r[i + 1..]);
    if pos in doomed {
      ListDelInit(pos, Left(r, i, doomed), |front|);
      assert [pos][0].next == pos && [pos][0].prev == pos;
    }
  }

  /** What the loop looks at next: the entry r[i], or the head after the last one. */
  function EntryOrHead(r: seq<ListHead>, i: nat): ListHead
    requires 1 <= i <= |r|
  {
    if i < |r| then r[i] else r[0]
  }

  /** The body, then `pos = n, n = pos->next`. */
  method LoopStep(pos: ListHead, n: ListHead, doomed: set<ListHead>, ghost r: seq<ListHead>, ghost i: nat)
    returns (pos': ListHead, n': ListHead)
    requires 1 <= i < |r| && Distinct(r) && pos == r[i] && n == pos.next
    requires Ring(Left(r, i, doomed)) && Cleared(r, i, doomed)
    modifies r
    ensures Ring(Left(r, i + 1, doomed)) && Cleared(r, i + 1, doomed)
    ensures pos' == EntryOrHead(r, i + 1) && n' == pos'.next
  {
    Neighbours(r, i, doomed);
    assert n in r;
    Visit(pos, doomed, r, i);
    pos' := n;
    n' := pos'.next;
  }

  /** A list_for_each_safe loop whose body may delete the current entry: it visits every entry of the
      original list once and in order, and what it did not delete is left in order. */
  method ForEachSafe(head: ListHead, doomed: set<ListHead>, ghost r: seq<ListHead>) returns (visited: seq<ListHead>)
    requires Ring(r) && r[0] == head
    modifies r
    ensures visited == r[1..]
    ensures Ring([head] + Keep(r[1..], doomed))
    ensures forall i :: 1 <= i < |r| && r[i] in doomed ==> r[i].next == r[i] && r[i].prev == r[i]
  {
    var pos := head.next;
    var n := pos.next;
    visited := [];
    ghost var i := 1;
    LeftEnds(r, doomed);
    assert pos == After(r, 0);
    while pos != head
      invariant 1 <= i <= |r| && pos == EntryOrHead(r, i) && n == pos.next
      invariant Ring(Left(r, i, doomed)) && Cleared(r, i, doomed)
      invariant visited == r[1..i]
      decreases |r| - i
    {
      visited := visited + [pos];
      pos, n := LoopStep(pos, n, doomed, r, i);
      i := i + 1;
    }
    assert i == |r|;
  }
}

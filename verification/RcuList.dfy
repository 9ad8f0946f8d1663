/**
 The RCU list forms of linux_list.h as a concurrent protocol: one writer at a time, a reader
 interleaved between the writer's single stores (sequentially consistent, smp_wmb() is a no-op).

 Both flavours share the forward structure.  In the Ring flavour a traversal ends at the list head;
 in the Hash flavour it ends at NULL.  Either end mark is written HEAD, and `next[HEAD]` stands for
 `head->next` or `h->first`.  A hash back link `pprev` is the address of a slot; the slot is named by
 the node (or the head) it lies in, so `At(p)` reads `p` (Ring) or `&p->next` / `&h->first` (Hash).

 `linked` and `rank` are history.  `linked` holds HEAD and the nodes that are in the list; `rank`
 orders every node that ever was.  A rank never changes, so a removed node keeps its place.
 */
module RcuList {

  type Node = nat

  const HEAD: Node := 0

  datatype Flavour = Ring | Hash

  datatype Back = At(n: Node) | Poison2

  datatype Writer =
    | Idle
    | Adding(n: Node, p: Node, q: Node, stores: nat)    // n goes between p and q
    | Deleting(e: Node, p: Node, q: Node, stores: nat)  // e lies between p and q

  datatype Reader = NotStarted | Reading(cursor: Node) | Finished

  datatype State = State(
    flavour: Flavour,
    next: map<Node, Node>,
    back: map<Node, Back>,
    writer: Writer,
    reader: Reader,
    visited: seq<Node>,
    linked: set<Node>,
    rank: map<Node, real>)

  datatype Label =
    | AddAfter(n: Node, at: Node)    // list_add_rcu(n, at); hlist_add_head_rcu(n) with at == HEAD
    | AddBefore(n: Node, at: Node)   // list_add_tail_rcu(n, at)
    | Delete(e: Node)                // list_del_rcu(e); hlist_del_rcu(e)
    | Store                          // the writer's next single store
    | Begin                          // the reader loads head->next
    | Advance                        // the reader loads cursor->next

  // ----- ranks of nodes -----

  ghost function Later(rank: map<Node, real>, c: Node): set<Node>
    requires c in rank
  {
    set m | m in rank && rank[c] < rank[m]
  }

  ghost function Lowest(rank: map<Node, real>, ms: set<Node>): (low: Node)
    requires ms != {} && ms <= rank.Keys
    ensures low in ms && forall m :: m in ms ==> rank[low] <= rank[m]
    decreases |ms|
  {
    var m :| m in ms;
    if ms == {m} then m
    else
      assert ms - {m} != {};
      var l := Lowest(rank, ms - {m});
      if rank[m] <= rank[l] then m else l
  }

  /** A rank just after p: above p and below everything that is above p, so that a new node lands
      before the removed nodes that follow its predecessor. */
  ghost function RankAfter(rank: map<Node, real>, p: Node): (x: real)
    requires p in rank
    ensures rank[p] < x && forall m :: m in rank && rank[p] < rank[m] ==> x < rank[m]
  {
    assert forall m :: m in rank && rank[p] < rank[m] ==> m in Later(rank, p);
    if Later(rank, p) == {} then rank[p] + 1.0
    else (rank[p] + rank[Lowest(rank, Later(rank, p))]) / 2.0
  }

  // ----- the protocol -----

  /** `c->next`. */
  function Nx(next: map<Node, Node>, c: Node): Node
  {
    if c in next then next[c] else HEAD
  }

  predicate Init(s: State)
  {
    && s.next == map[HEAD := HEAD]
    && s.back == map[HEAD := At(HEAD)]
    && s.writer == Idle
    && s.reader == NotStarted
    && s.visited == []
    && s.linked == {HEAD}
    && s.rank == map[HEAD := 0.0]
  }

  /** What linux_list.h asks of callers: writers are serialised, a new node is fresh, and the node
      acted on is linked. */
  predicate Allowed(s: State, l: Label)
  {
    match l
    case AddAfter(n, at) =>
      s.writer == Idle && n != HEAD && n !in s.next && at in s.linked && (s.flavour == Hash ==> at == HEAD)
    case AddBefore(n, at) =>
      s.writer == Idle && n != HEAD && n !in s.next && at in s.linked && s.flavour == Ring
    case Delete(e) => s.writer == Idle && e in s.linked && e != HEAD
    case Store => s.writer != Idle
    case Begin => s.reader == NotStarted
    case Advance => s.reader.Reading?
  }

  predicate BeginsOperation(l: Label)
  {
    l.AddAfter? || l.AddBefore? || l.Delete?
  }

  /** The pointers that the step dereferences are valid. */
  predicate Sound(s: State, l: Label)
    requires Allowed(s, l)
  {
    match l
    case AddAfter(n, at) => at in s.next
    case AddBefore(n, at) => at in s.back && s.back[at].At?
    case Delete(e) => e in s.next && e in s.back && s.back[e].At?
    case Store => Publishes(s) ==> s.writer.p in s.rank
    case Begin => HEAD in s.next
    case Advance => s.reader.cursor in s.next
  }

  /** The pending store makes the new node reachable. */
  predicate Publishes(s: State)
  {
    s.writer.Adding? && s.writer.stores >= 3
  }

  /** The pending store takes the node out of the forward chain. */
  predicate Unlinks(s: State)
  {
    s.writer.Deleting? && s.writer.stores == (if s.flavour == Ring then 1 else 0)
  }

  predicate Enabled(s: State, l: Label)
  {
    Allowed(s, l) && Sound(s, l)
  }

  ghost function Apply(s: State, l: Label): State
    requires Enabled(s, l)
  {
    match l
    case AddAfter(n, at) => s.(writer := Adding(n, at, Nx(s.next, at), 0))
    case AddBefore(n, at) => s.(writer := Adding(n, s.back[at].n, at, 0))
    case Delete(e) => s.(writer := Deleting(e, s.back[e].n, Nx(s.next, e), 0))
    case Store => DoStore(s)
    case Begin => Land(s, HEAD)
    case Advance => Land(s, s.reader.cursor)
  }

  /** The reader loads `c->next`: it stops at the end mark, otherwise it visits the node found. */
  function Land(s: State, c: Node): State
  {
    var found := Nx(s.next, c);
    if found == HEAD then s.(reader := Finished)
    else s.(reader := Reading(found), visited := s.visited + [found])
  }

  ghost function DoStore(s: State): State
    requires Enabled(s, Store)
  {
    match s.writer
    case Adding(n, p, q, k) =>
      if k == 0 then s.(next := s.next[n := q], writer := Adding(n, p, q, 1))
      else if k == 1 then s.(back := s.back[n := At(p)], writer := Adding(n, p, q, 2))
      else if k == 2 then s.(back := SetBack(s, q, n), writer := Adding(n, p, q, 3))
      else s.(next := s.next[p := n], writer := Idle,
              linked := s.linked + {n}, rank := s.rank[n := RankAfter(s.rank, p)])
    case Deleting(e, p, q, k) =>
      if k >= 2 then s.(back := s.back[e := Poison2], writer := Idle)
      else if Unlinks(s) then
        s.(next := s.next[p := q], writer := Deleting(e, p, q, k + 1), linked := s.linked - {e})
      else s.(back := SetBack(s, q, p), writer := Deleting(e, p, q, k + 1))
  }

  /** `q->prev = b`, or `q->pprev = &b->next` guarded by `if (q)`. */
  function SetBack(s: State, q: Node, b: Node): map<Node, Back>
  {
    if s.flavour == Hash && q == HEAD then s.back else s.back[q := At(b)]
  }

  // ----- the invariant -----

  predicate SameRank(rank: map<Node, real>, m: Node, n: Node)
  {
    m in rank && n in rank && rank[m] == rank[n]
  }

  ghost predicate Ordered(rank: map<Node, real>, linked: set<Node>)
  {
    && HEAD in linked && linked <= rank.Keys
    && rank[HEAD] == 0.0
    && (forall m {:trigger rank[m]} :: m in rank && m != HEAD ==> 0.0 < rank[m])
    && (forall m, n :: SameRank(rank, m, n) ==> m == n)
  }

  /** If m comes after c, then `c->next` is m or lies between them. */
  predicate UpTo(next: map<Node, Node>, rank: map<Node, real>, c: Node, m: Node)
    requires c in rank && m in rank
  {
    rank[c] < rank[m] ==> Nx(next, c) != HEAD && Nx(next, c) in rank && rank[Nx(next, c)] <= rank[m]
  }

  /** Every forward link, also that of a removed node, leads strictly later and not over a linked node. */
  ghost predicate NoSkip(next: map<Node, Node>, rank: map<Node, real>, linked: set<Node>)
    requires linked <= rank.Keys
  {
    && rank.Keys <= next.Keys
    && (forall c {:trigger Nx(next, c)} :: c in rank && Nx(next, c) != HEAD ==>
          Nx(next, c) in rank && rank[c] < rank[Nx(next, c)])
    && (forall c, m :: c in rank && m in linked ==> UpTo(next, rank, c, m))
    && (forall c {:trigger Nx(next, c)} :: c in linked ==> Nx(next, c) in linked)
  }

  /** The linked node whose `next` is m.  Between two stores one back link may name another node. */
  function Pred(flavour: Flavour, w: Writer, back: map<Node, Back>, m: Node): Node
  {
    if w.Adding? && w.stores == 3 && m == w.q then w.p
    else if w.Deleting? && w.stores == 1 && m == w.q then if flavour == Ring then w.e else w.p
    else if m in back && back[m].At? then back[m].n
    else m
  }

  predicate HasBack(flavour: Flavour, m: Node)
  {
    flavour == Ring || m != HEAD
  }

  ghost predicate BackLinked(
    flavour: Flavour, w: Writer, next: map<Node, Node>, back: map<Node, Back>, linked: set<Node>)
  {
    forall m {:trigger Pred(flavour, w, back, m)} :: m in linked && HasBack(flavour, m) ==>
      && m in back && back[m].At?
      && Pred(flavour, w, back, m) in linked
      && Nx(next, Pred(flavour, w, back, m)) == m
  }

  ghost predicate Poisoned(w: Writer, back: map<Node, Back>, removed: set<Node>)
  {
    forall m {:trigger m in removed} :: m in removed && !(w.Deleting? && m == w.e) ==> m in back && back[m] == Poison2
  }

  ghost predicate WriterOk(s: State)
  {
    match s.writer
    case Idle => true
    case Adding(n, p, q, k) =>
      && n !in s.rank && n != HEAD && p in s.linked && q == Nx(s.next, p) && k <= 3
      && (k >= 1 ==> n in s.next && Nx(s.next, n) == q)
      && (k >= 2 ==> n in s.back && s.back[n] == At(p))
      && (k == 3 && HasBack(s.flavour, q) ==> q in s.back && s.back[q] == At(n))
    case Deleting(e, p, q, k) =>
      && e in s.rank && e != HEAD && p in s.linked && q in s.linked
      && q == Nx(s.next, e) && q != e && p != e && k <= 2
      && (if Unlinked(s) then e !in s.linked && Nx(s.next, p) == q else e in s.linked && Nx(s.next, p) == e)
      && (k == 1 && s.flavour == Ring ==> q in s.back && s.back[q] == At(p))
  }

  predicate Unlinked(s: State)
  {
    s.writer.Deleting? && s.writer.stores > (if s.flavour == Ring then 1 else 0)
  }

  ghost predicate Inv(s: State)
  {
    && Ordered(s.rank, s.linked)
    && NoSkip(s.next, s.rank, s.linked)
    && BackLinked(s.flavour, s.writer, s.next, s.back, s.linked)
    && Poisoned(s.writer, s.back, s.rank.Keys - s.linked)
    && WriterOk(s)
  }

  // ----- every step keeps the invariant -----

  lemma InitInv(s: State)
    requires Init(s)
    ensures Inv(s)
  {
  }

  /** No step of an allowed caller dereferences a poisoned or dangling pointer. */
  lemma NeverFaults(s: State, l: Label)
    requires Inv(s) && Allowed(s, l)
    requires s.reader.Reading? ==> s.reader.cursor in s.rank
    ensures Sound(s, l)
  {
    match l
    case AddBefore(n, at) => var _ := Pred(s.flavour, s.writer, s.back, at);
    case Delete(e) => var _ := Pred(s.flavour, s.writer, s.back, e);
    case _ =>
  }

  lemma BackLinkedSame(
    flavour: Flavour, w: Writer, w': Writer, next: map<Node, Node>, back: map<Node, Back>, linked: set<Node>)
    requires BackLinked(flavour, w, next, back, linked)
    requires w.Idle? && (w'.Adding? || w'.Deleting?) && w'.stores == 0
    ensures BackLinked(flavour, w', next, back, linked)
  {
    forall m | m in linked && HasBack(flavour, m)
      ensures Pred(flavour, w', back, m) == Pred(flavour, w, back, m)
    {}
  }

  lemma BeginOpInv(s: State, l: Label)
    requires Inv(s) && Enabled(s, l) && BeginsOperation(l)
    ensures Inv(Apply(s, l))
  {
    var s' := Apply(s, l);
    BackLinkedSame(s.flavour, s.writer, s'.writer, s.next, s.back, s.linked);
    match l
    case AddAfter(n, at) =>
    case AddBefore(n, at) => assert Pred(s.flavour, s.writer, s.back, at) == s'.writer.p;
    case Delete(e) => assert Pred(s.flavour, s.writer, s.back, e) == s'.writer.p;
  }

  /** Only the link of a node without rank changes. */
  lemma NoSkipFrame(next: map<Node, Node>, rank: map<Node, real>, linked: set<Node>, at: Node, x: Node)
    requires linked <= rank.Keys && NoSkip(next, rank, linked) && at !in rank
    ensures NoSkip(next[at := x], rank, linked)
  {
    forall c ensures c in rank ==> Nx(next[at := x], c) == Nx(next, c) {}
    forall c, m | c in rank && m in linked ensures UpTo(next[at := x], rank, c, m) {
      assert UpTo(next, rank, c, m);
    }
  }

  lemma PrivateStoreInv(s: State)
    requires Inv(s) && Enabled(s, Store) && s.writer.Adding? && s.writer.stores <= 1
    ensures Inv(Apply(s, Store))
  {
    var s' := Apply(s, Store);
    var w := s.writer;
    NoSkipFrame(s.next, s.rank, s.linked, w.n, w.q);
    forall m | m in s.linked && HasBack(s.flavour, m)
      ensures Pred(s.flavour, s'.writer, s'.back, m) == Pred(s.flavour, w, s.back, m)
      ensures Nx(s'.next, Pred(s.flavour, w, s.back, m)) == Nx(s.next, Pred(s.flavour, w, s.back, m))
    {}
  }

  /** Two linked nodes never share a successor. */
  lemma OneBefore(next: map<Node, Node>, rank: map<Node, real>, linked: set<Node>, c: Node, d: Node)
    requires Ordered(rank, linked) && NoSkip(next, rank, linked)
    requires c in linked && d in linked && Nx(next, c) == Nx(next, d)
    ensures c == d
  {
    assert UpTo(next, rank, c, d) && UpTo(next, rank, d, c);
    assert SameRank(rank, c, d);
  }

  lemma BackStoreInv(s: State)
    requires Inv(s) && Enabled(s, Store) && !Publishes(s) && !Unlinks(s)
    requires s.writer.Adding? ==> s.writer.stores == 2
    ensures Inv(Apply(s, Store))
  {
    var s' := Apply(s, Store);
    var w := s.writer;
    forall m | m in s.linked && HasBack(s.flavour, m)
      ensures Pred(s.flavour, s'.writer, s'.back, m) == Pred(s.flavour, w, s.back, m)
    {
      if m == w.q {
        var before := if w.Adding? || Unlinked(s) then w.p else w.e;
        OneBefore(s.next, s.rank, s.linked, Pred(s.flavour, w, s.back, m), before);
      }
    }
  }

  lemma PublishNoSkip(next: map<Node, Node>, rank: map<Node, real>, linked: set<Node>, p: Node, n: Node)
    requires Ordered(rank, linked) && NoSkip(next, rank, linked)
    requires p in linked && n !in rank && n != HEAD && n in next && Nx(next, n) == Nx(next, p)
    ensures var rank' := rank[n := RankAfter(rank, p)];
      Ordered(rank', linked + {n}) && NoSkip(next[p := n], rank', linked + {n})
  {
    var x := RankAfter(rank, p);
    var rank' := rank[n := x];
    var next' := next[p := n];
    forall c ensures Nx(next', c) == if c == p then n else Nx(next, c) {}
    forall c, m | c in rank' && m in linked + {n} ensures UpTo(next', rank', c, m) {
      var c0, m0 := if c == n then p else c, if m == n then p else m;
      assert UpTo(next, rank, c0, m0);
      if c == p && m != n && rank[p] < rank[m] { assert x < rank[m]; }
      if m == n && c != n && c != p && rank[c] < x { assert !SameRank(rank, c, p); }
    }
    forall c, d | SameRank(rank', c, d) ensures c == d {
      assert SameRank(rank, c, d) || c == n || d == n;
    }
  }

  lemma PublishInv(s: State)
    requires Inv(s) && Enabled(s, Store) && Publishes(s)
    ensures Inv(Apply(s, Store))
  {
    var s' := Apply(s, Store);
    var w := s.writer;
    PublishNoSkip(s.next, s.rank, s.linked, w.p, w.n);
    PublishBack(s);
    assert s'.rank.Keys - s'.linked == s.rank.Keys - s.linked;
  }

  lemma PublishBack(s: State)
    requires Inv(s) && Enabled(s, Store) && Publishes(s)
    ensures var s' := Apply(s, Store); BackLinked(s.flavour, s'.writer, s'.next, s'.back, s'.linked)
  {
    var s' := Apply(s, Store);
    var w := s.writer;
    forall c ensures Nx(s'.next, c) == if c == w.p then w.n else Nx(s.next, c) {}
    forall m | m in s'.linked && HasBack(s.flavour, m)
      ensures Pred(s.flavour, s'.writer, s'.back, m) == if m == w.q then w.n else if m == w.n then w.p
                else Pred(s.flavour, w, s.back, m)
    {}
  }

  lemma UnlinkNoSkip(next: map<Node, Node>, rank: map<Node, real>, linked: set<Node>, p: Node, e: Node)
    requires Ordered(rank, linked) && NoSkip(next, rank, linked)
    requires p in linked && e in linked && e != HEAD && Nx(next, p) == e
    ensures NoSkip(next[p := Nx(next, e)], rank, linked - {e})
  {
    var next' := next[p := Nx(next, e)];
    forall c ensures Nx(next', c) == if c == p then Nx(next, e) else Nx(next, c) {}
    forall c, m | c in rank && m in linked - {e} ensures UpTo(next', rank, c, m) {
      assert UpTo(next, rank, c, m) && UpTo(next, rank, e, m);
      if c == p && rank[c] < rank[m] { assert !SameRank(rank, e, m); }
    }
    forall c | c in linked - {e} ensures Nx(next', c) in linked - {e} {
      if Nx(next, c) == e { OneBefore(next, rank, linked, c, p); }
      assert Nx(next, e) != HEAD ==> rank[e] < rank[Nx(next, e)];
    }
  }

  lemma UnlinkInv(s: State)
    requires Inv(s) && Enabled(s, Store) && Unlinks(s)
    ensures Inv(Apply(s, Store))
  {
    var s' := Apply(s, Store);
    var w := s.writer;
    UnlinkNoSkip(s.next, s.rank, s.linked, w.p, w.e);
    UnlinkBack(s);
    forall m | m in s'.rank.Keys - s'.linked && m != w.e ensures m in s.rank.Keys - s.linked {}
  }

  lemma UnlinkBack(s: State)
    requires Inv(s) && Enabled(s, Store) && Unlinks(s)
    ensures var s' := Apply(s, Store); BackLinked(s.flavour, s'.writer, s'.next, s'.back, s'.linked)
  {
    var s' := Apply(s, Store);
    var w := s.writer;
    forall c ensures Nx(s'.next, c) == if c == w.p then w.q else Nx(s.next, c) {}
    forall m | m in s'.linked && HasBack(s.flavour, m)
      ensures m in s'.back && s'.back[m].At?
      ensures Pred(s.flavour, s'.writer, s'.back, m) in s'.linked
      ensures Nx(s'.next, Pred(s.flavour, s'.writer, s'.back, m)) == m
    {
      var c := Pred(s.flavour, w, s.back, m);
      assert Pred(s.flavour, s'.writer, s'.back, m) == if m == w.q then w.p else c;
      if m != w.q { assert Nx(s.next, c) == m; }
    }
  }

  lemma StepInv(s: State, l: Label)
    requires Inv(s) && Enabled(s, l)
    ensures Inv(Apply(s, l))
  {
    match l
    case Store =>
      if Publishes(s) { PublishInv(s); }
      else if Unlinks(s) { UnlinkInv(s); }
      else if s.writer.Adding? && s.writer.stores <= 1 { PrivateStoreInv(s); }
      else { BackStoreInv(s); }
    case Begin =>
    case Advance =>
    case _ => BeginOpInv(s, l);
  }

  // ----- forward chains -----

  lemma LaterShrinks(rank: map<Node, real>, c: Node, d: Node)
    requires c in rank && d in rank && rank[c] < rank[d]
    ensures |Later(rank, d)| < |Later(rank, c)|
  {
    assert Later(rank, d) < Later(rank, c) by { assert d in Later(rank, c); }
    SmallerSet(Later(rank, d), Later(rank, c));
  }

  lemma {:induction false} SmallerSet(a: set<Node>, b: set<Node>)
    requires a < b
    ensures |a| < |b|
  {
    assert b == a + (b - a);
  }

  /** The nodes a traversal finds from c if no writer interferes. */
  ghost function Chain(next: map<Node, Node>, rank: map<Node, real>, linked: set<Node>, c: Node): seq<Node>
    requires Ordered(rank, linked) && NoSkip(next, rank, linked) && c in rank
    decreases |Later(rank, c)|
  {
    var d := Nx(next, c);
    if d == HEAD then [] else
      LaterShrinks(rank, c, d);
      [d] + Chain(next, rank, linked, d)
  }

  /** `path` is what following `next` from c visits before the end mark; it depends on the heap only. */
  ghost predicate Walk(next: map<Node, Node>, c: Node, path: seq<Node>)
    decreases |path|
  {
    if path == [] then Nx(next, c) == HEAD
    else path[0] != HEAD && Nx(next, c) == path[0] && Walk(next, path[0], path[1..])
  }

  predicate Sorted(rank: map<Node, real>, path: seq<Node>)
  {
    && (forall i :: 0 <= i < |path| ==> path[i] in rank)
    && (forall i, j :: 0 <= i < j < |path| ==> rank[path[i]] < rank[path[j]])
  }

  lemma {:induction false} ChainWalks(next: map<Node, Node>, rank: map<Node, real>, linked: set<Node>, c: Node)
    requires Ordered(rank, linked) && NoSkip(next, rank, linked) && c in rank
    ensures Walk(next, c, Chain(next, rank, linked, c))
    decreases |Later(rank, c)|
  {
    var d := Nx(next, c);
    if d != HEAD {
      LaterShrinks(rank, c, d);
      ChainWalks(next, rank, linked, d);
      assert Chain(next, rank, linked, c)[1..] == Chain(next, rank, linked, d);
    }
  }

  lemma {:induction false} ChainSorted(next: map<Node, Node>, rank: map<Node, real>, linked: set<Node>, c: Node)
    requires Ordered(rank, linked) && NoSkip(next, rank, linked) && c in rank
    ensures Sorted(rank, [c] + Chain(next, rank, linked, c))
    decreases |Later(rank, c)|
  {
    var d := Nx(next, c);
    if d != HEAD {
      LaterShrinks(rank, c, d);
      ChainSorted(next, rank, linked, d);
      SortedCons(rank, c, [d] + Chain(next, rank, linked, d));
    }
  }

  lemma SortedCons(rank: map<Node, real>, c: Node, path: seq<Node>)
    requires Sorted(rank, path) && path != [] && c in rank && rank[c] < rank[path[0]]
    ensures Sorted(rank, [c] + path)
  {
    var all := [c] + path;
    forall i, j | 0 <= i < j < |all| ensures rank[all[i]] < rank[all[j]] {
      assert all[j] == path[j - 1];
      if i > 0 { assert all[i] == path[i - 1]; }
    }
  }

  lemma {:induction false} ChainMeets(next: map<Node, Node>, rank: map<Node, real>, linked: set<Node>, c: Node, m: Node)
    requires Ordered(rank, linked) && NoSkip(next, rank, linked) && c in rank
    requires m in linked && rank[c] < rank[m]
    ensures m in Chain(next, rank, linked, c)
    decreases |Later(rank, c)|
  {
    var d := Nx(next, c);
    assert UpTo(next, rank, c, m);
    LaterShrinks(rank, c, d);
    if rank[d] == rank[m] { assert SameRank(rank, d, m); }
    else { ChainMeets(next, rank, linked, d, m); }
  }

  lemma {:induction false} ChainLinked(next: map<Node, Node>, rank: map<Node, real>, linked: set<Node>, c: Node)
    requires Ordered(rank, linked) && NoSkip(next, rank, linked) && c in linked
    ensures forall m :: m in Chain(next, rank, linked, c) ==> m in linked
    decreases |Later(rank, c)|
  {
    var d := Nx(next, c);
    if d != HEAD {
      LaterShrinks(rank, c, d);
      ChainLinked(next, rank, linked, d);
    }
  }

  /** From any node, also a removed one, the forward chain is finite and ends at the end mark, it is
      the only walk, it visits nodes in list order, and it meets every linked node that lies ahead. */
  lemma ChainFromAnywhere(s: State, c: Node, path: seq<Node>)
    requires Inv(s) && c in s.rank
    ensures Walk(s.next, c, path) <==> path == Chain(s.next, s.rank, s.linked, c)
    ensures Sorted(s.rank, [c] + Chain(s.next, s.rank, s.linked, c))
    ensures forall m :: m in s.linked && s.rank[c] < s.rank[m] ==> m in Chain(s.next, s.rank, s.linked, c)
    ensures c in s.linked ==> forall m :: m in Chain(s.next, s.rank, s.linked, c) ==> m in s.linked
  {
    var chain := Chain(s.next, s.rank, s.linked, c);
    ChainWalks(s.next, s.rank, s.linked, c);
    ChainSorted(s.next, s.rank, s.linked, c);
    if Walk(s.next, c, path) { OneWalk(s.next, c, path, chain); }
    forall m | m in s.linked && s.rank[c] < s.rank[m] ensures m in chain {
      ChainMeets(s.next, s.rank, s.linked, c, m);
    }
    if c in s.linked { ChainLinked(s.next, s.rank, s.linked, c); }
  }

  lemma {:induction false} OneWalk(next: map<Node, Node>, c: Node, a: seq<Node>, b: seq<Node>)
    requires Walk(next, c, a) && Walk(next, c, b)
    ensures a == b
    decreases |a|
  {
    if a != [] && b != [] { OneWalk(next, a[0], a[1..], b[1..]); }
  }

  /** The list as the heap has it: HEAD, then what a traversal from HEAD finds. */
  ghost function ListOf(s: State): seq<Node>
    requires Inv(s)
  {
    [HEAD] + Chain(s.next, s.rank, s.linked, HEAD)
  }

  // ----- store atomicity -----

  function InsertAfter(s: seq<Node>, p: Node, n: Node): seq<Node>
  {
    if s == [] then [] else if s[0] == p then [p, n] + s[1..] else [s[0]] + InsertAfter(s[1..], p, n)
  }

  /** n before `at`, or at the end if `at` is the end mark, as it is not among the nodes of s. */
  function InsertBefore(s: seq<Node>, at: Node, n: Node): seq<Node>
  {
    if s == [] then [n] else if s[0] == at then [n] + s else [s[0]] + InsertBefore(s[1..], at, n)
  }

  function Without(s: seq<Node>, e: Node): seq<Node>
  {
    if s == [] then [] else if s[0] == e then s[1..] else [s[0]] + Without(s[1..], e)
  }

  lemma {:induction false} WalkFrame(next: map<Node, Node>, next': map<Node, Node>, c: Node, path: seq<Node>)
    requires Walk(next, c, path)
    requires Nx(next', c) == Nx(next, c) && forall m :: m in path ==> Nx(next', m) == Nx(next, m)
    ensures Walk(next', c, path)
    decreases |path|
  {
    if path != [] { WalkFrame(next, next', path[0], path[1..]); }
  }

  lemma {:induction false} WalkInsert(next: map<Node, Node>, p: Node, n: Node, c: Node, path: seq<Node>)
    requires Walk(next, c, path) && p in [c] + path && n != HEAD
    requires forall i, j :: 0 <= i < j < |path| + 1 ==> ([c] + path)[i] != ([c] + path)[j]
    requires n !in [c] + path && Nx(next, n) == Nx(next, p)
    ensures InsertAfter([c] + path, p, n)[0] == c
    ensures Walk(next[p := n], c, InsertAfter([c] + path, p, n)[1..])
    decreases |path|
  {
    var next' := next[p := n];
    if c == p {
      assert p !in path by {
        forall j | 0 <= j < |path| ensures path[j] != p {
          assert ([c] + path)[0] == c && ([c] + path)[j + 1] == path[j];
        }
      }
      assert InsertAfter([c] + path, p, n)[1..] == [n] + path;
      assert ([n] + path)[1..] == path;
      WalkFrame(next, next', n, path) by {
        assert Walk(next, n, path);
      }
    } else {
      forall i, j | 0 <= i < j < |path| ensures path[i] != path[j] {
        assert ([c] + path)[i + 1] == path[i] && ([c] + path)[j + 1] == path[j];
      }
      assert [path[0]] + path[1..] == path;
      WalkInsert(next, p, n, path[0], path[1..]);
      assert ([c] + path)[1..] == path;
      var ins := InsertAfter(path, p, n);
      assert InsertAfter([c] + path, p, n) == [c] + ins;
      assert InsertAfter([c] + path, p, n)[1..] == ins;
    }
  }

  lemma {:induction false} WalkRemove(next: map<Node, Node>, p: Node, e: Node, c: Node, path: seq<Node>)
    requires Walk(next, c, path) && p in [c] + path && Nx(next, p) == e && e != HEAD && e != c
    requires forall i, j :: 0 <= i < j < |path| + 1 ==> ([c] + path)[i] != ([c] + path)[j]
    requires forall x :: x in [c] + path && Nx(next, x) == e ==> x == p
    ensures Without([c] + path, e)[0] == c
    ensures Walk(next[p := Nx(next, e)], c, Without([c] + path, e)[1..])
    decreases |path|
  {
    var next' := next[p := Nx(next, e)];
    assert ([c] + path)[1..] == path;
    assert Without([c] + path, e) == [c] + Without(path, e);
    assert Without([c] + path, e)[1..] == Without(path, e);
    if c == p {
      assert path[0] == e;
      var rest := path[1..];
      assert p !in rest by {
        forall j | 0 <= j < |rest| ensures rest[j] != p {
          assert ([c] + path)[j + 2] == rest[j];
        }
      }
      assert Walk(next, e, rest);
      assert Walk(next, e, rest) ==> if rest == [] then Nx(next', c) == HEAD else Nx(next', c) == rest[0];
      if rest != [] { WalkFrame(next, next', rest[0], rest[1..]); }
    } else {
      forall i, j | 0 <= i < j < |path| ensures path[i] != path[j] {
        assert ([c] + path)[i + 1] == path[i] && ([c] + path)[j + 1] == path[j];
      }
      assert [path[0]] + path[1..] == path;
      assert path[0] != e;
      WalkRemove(next, p, e, path[0], path[1..]);
    }
  }

  /** Insertion after the predecessor of `at` is insertion before `at`. */
  lemma {:induction false} InsertAfterPrev(next: map<Node, Node>, c: Node, path: seq<Node>, p: Node, at: Node, n: Node)
    requires Walk(next, c, path) && p in [c] + path && Nx(next, p) == at
    requires forall x :: x in [c] + path && Nx(next, x) == at ==> x == p
    ensures InsertAfter([c] + path, p, n) == [c] + InsertBefore(path, at, n)
    decreases |path|
  {
    assert ([c] + path)[1..] == path;
    if c != p {
      assert path == [path[0]] + path[1..];
      assert c in [c] + path && path[0] != at;
      InsertAfterPrev(next, path[0], path[1..], p, at, n);
    }
  }

  lemma ListDistinct(s: State)
    requires Inv(s)
    ensures forall i, j :: 0 <= i < j < |ListOf(s)| ==> ListOf(s)[i] != ListOf(s)[j]
    ensures forall m :: m in ListOf(s) ==> m in s.linked
  {
    ChainSorted(s.next, s.rank, s.linked, HEAD);
    ChainLinked(s.next, s.rank, s.linked, HEAD);
  }

  lemma ChainIs(s: State, path: seq<Node>)
    requires Inv(s) && Walk(s.next, HEAD, path)
    ensures ListOf(s) == [HEAD] + path
  {
    ChainWalks(s.next, s.rank, s.linked, HEAD);
    OneWalk(s.next, HEAD, path, Chain(s.next, s.rank, s.linked, HEAD));
  }

  lemma PublishWalk(s: State, path: seq<Node>)
    requires Inv(s) && Enabled(s, Store) && Publishes(s) && ListOf(s) == [HEAD] + path
    ensures var after := InsertAfter([HEAD] + path, s.writer.p, s.writer.n);
      after != [] && after[0] == HEAD && Walk(s.next[s.writer.p := s.writer.n], HEAD, after[1..])
  {
    assert path == ListOf(s)[1..] == Chain(s.next, s.rank, s.linked, HEAD);
    ChainWalks(s.next, s.rank, s.linked, HEAD);
    InList(s, s.writer.p);
    ListDistinct(s);
    WalkInsert(s.next, s.writer.p, s.writer.n, HEAD, path);
  }

  lemma PublishInserts(s: State)
    requires Inv(s) && Enabled(s, Store) && Publishes(s) && Inv(Apply(s, Store))
    ensures ListOf(Apply(s, Store)) == InsertAfter(ListOf(s), s.writer.p, s.writer.n)
  {
    var path := Chain(s.next, s.rank, s.linked, HEAD);
    PublishWalk(s, path);
    ChainIs(Apply(s, Store), InsertAfter([HEAD] + path, s.writer.p, s.writer.n)[1..]);
  }

  lemma UnlinkWalk(s: State, path: seq<Node>)
    requires Inv(s) && Enabled(s, Store) && Unlinks(s) && ListOf(s) == [HEAD] + path
    ensures var after := Without([HEAD] + path, s.writer.e);
      after != [] && after[0] == HEAD && Walk(s.next[s.writer.p := s.writer.q], HEAD, after[1..])
  {
    assert path == ListOf(s)[1..] == Chain(s.next, s.rank, s.linked, HEAD);
    ChainWalks(s.next, s.rank, s.linked, HEAD);
    InList(s, s.writer.p);
    ListDistinct(s);
    forall x | x in [HEAD] + path && Nx(s.next, x) == s.writer.e ensures x == s.writer.p {
      OneBefore(s.next, s.rank, s.linked, x, s.writer.p);
    }
    WalkRemove(s.next, s.writer.p, s.writer.e, HEAD, path);
  }

  lemma UnlinkRemoves(s: State)
    requires Inv(s) && Enabled(s, Store) && Unlinks(s) && Inv(Apply(s, Store))
    ensures ListOf(Apply(s, Store)) == Without(ListOf(s), s.writer.e)
  {
    var path := Chain(s.next, s.rank, s.linked, HEAD);
    UnlinkWalk(s, path);
    ChainIs(Apply(s, Store), Without([HEAD] + path, s.writer.e)[1..]);
  }

  lemma OtherStoreInvisible(s: State)
    requires Inv(s) && Enabled(s, Store) && !Publishes(s) && !Unlinks(s) && Inv(Apply(s, Store))
    ensures ListOf(Apply(s, Store)) == ListOf(s)
  {
    var s' := Apply(s, Store);
    var path := Chain(s.next, s.rank, s.linked, HEAD);
    ChainFromAnywhere(s, HEAD, path);
    forall m | m == HEAD || m in path ensures Nx(s'.next, m) == Nx(s.next, m) {}
    WalkFrame(s.next, s'.next, HEAD, path);
    ChainFromAnywhere(s', HEAD, path);
  }

  /** One store changes the list as a traversal sees it in at most one way, all at once: the publishing
      store inserts the new node after its predecessor, the unlinking store removes the node, and every
      other store leaves the list alone. */
  lemma StoreIsAtomic(s: State)
    requires Inv(s) && Enabled(s, Store)
    ensures Inv(Apply(s, Store))
    ensures ListOf(Apply(s, Store)) ==
      if Publishes(s) then InsertAfter(ListOf(s), s.writer.p, s.writer.n)
      else if Unlinks(s) then Without(ListOf(s), s.writer.e)
      else ListOf(s)
  {
    StepInv(s, Store);
    if Publishes(s) { PublishInserts(s); }
    else if Unlinks(s) { UnlinkRemoves(s); }
    else { OtherStoreInvisible(s); }
  }

  lemma InList(s: State, m: Node)
    requires Inv(s) && m in s.linked
    ensures m in ListOf(s)
  {
    if m != HEAD { ChainMeets(s.next, s.rank, s.linked, HEAD, m); }
  }

  // ----- whole operations -----

  /** The list that the operation under way is to leave, from the list it found. */
  function Target(w: Writer, before: seq<Node>): seq<Node>
  {
    match w
    case Idle => before
    case Adding(n, p, q, k) => InsertAfter(before, p, n)
    case Deleting(e, p, q, k) => Without(before, e)
  }

  /** While an operation that found `before` is under way, a traversal sees exactly the old or exactly
      the new list; once it is over, the new one. */
  ghost predicate OldOrNew(s: State, before: seq<Node>, after: seq<Node>)
    requires Inv(s)
  {
    if s.writer == Idle then ListOf(s) == after
    else after == Target(s.writer, before) && ListOf(s) == if Unlinked(s) then after else before
  }

  lemma OperationBegins(s: State, l: Label)
    requires Inv(s) && Enabled(s, l) && BeginsOperation(l)
    ensures Inv(Apply(s, l)) && var s' := Apply(s, l); OldOrNew(s', ListOf(s), Target(s'.writer, ListOf(s)))
    ensures l.AddAfter? ==> Apply(s, l).writer.p == l.at
    ensures l.AddBefore? ==> Apply(s, l).writer.p in s.linked && Nx(s.next, Apply(s, l).writer.p) == l.at
    ensures l.Delete? ==> Apply(s, l).writer.e == l.e
  {
    StepInv(s, l);
    if l.AddBefore? { assert Pred(s.flavour, s.writer, s.back, l.at) == s.back[l.at].n; }
  }

  lemma AddsBefore(s: State, l: Label)
    requires Inv(s) && Enabled(s, l) && l.AddBefore?
    ensures InsertAfter(ListOf(s), Apply(s, l).writer.p, l.n) == [HEAD] + InsertBefore(ListOf(s)[1..], l.at, l.n)
  {
    OperationBegins(s, l);
    var p, path := Apply(s, l).writer.p, Chain(s.next, s.rank, s.linked, HEAD);
    ChainWalks(s.next, s.rank, s.linked, HEAD);
    InList(s, p);
    ListDistinct(s);
    forall x | x in [HEAD] + path && Nx(s.next, x) == l.at ensures x == p {
      OneBefore(s.next, s.rank, s.linked, x, p);
    }
    InsertAfterPrev(s.next, HEAD, path, p, l.at, l.n);
  }

  lemma OperationGoesOn(s: State, l: Label, before: seq<Node>, after: seq<Node>)
    requires Inv(s) && Enabled(s, l) && s.writer != Idle && OldOrNew(s, before, after)
    ensures Inv(Apply(s, l)) && OldOrNew(Apply(s, l), before, after)
  {
    StepInv(s, l);
    if l.Store? { StoreIsAtomic(s); }
  }

  /** Between operations next and back are inverse on the linked nodes, and removed nodes are poisoned. */
  lemma RestoredWhenIdle(s: State, m: Node)
    requires Inv(s) && s.writer == Idle && m in s.rank
    ensures m in s.linked && HasBack(s.flavour, m) ==>
      m in s.back && s.back[m].At? && s.back[m].n in s.linked && Nx(s.next, s.back[m].n) == m
    ensures m in s.linked && HasBack(s.flavour, Nx(s.next, m)) ==>
      Nx(s.next, m) in s.back && s.back[Nx(s.next, m)] == At(m)
    ensures m !in s.linked ==> m in s.back && s.back[m] == Poison2
  {
    if m in s.linked {
      var c := Pred(s.flavour, s.writer, s.back, m);
      assert HasBack(s.flavour, m) ==> Nx(s.next, c) == m;
      var d := Nx(s.next, m);
      if HasBack(s.flavour, d) {
        OneBefore(s.next, s.rank, s.linked, m, Pred(s.flavour, s.writer, s.back, d));
      }
    } else {
      assert m in s.rank.Keys - s.linked;
    }
  }

  // ----- runs -----

  ghost predicate StepAt(tr: seq<State>, ls: seq<Label>, i: nat)
    requires i < |ls| && |tr| == |ls| + 1
  {
    Enabled(tr[i], ls[i]) && tr[i + 1] == Apply(tr[i], ls[i])
  }

  /** Any finite interleaving, from any state. */
  ghost predicate IsPath(tr: seq<State>, ls: seq<Label>)
  {
    |tr| == |ls| + 1 && forall i :: 0 <= i < |ls| ==> StepAt(tr, ls, i)
  }

  ghost predicate IsRun(tr: seq<State>, ls: seq<Label>)
  {
    IsPath(tr, ls) && Init(tr[0])
  }

  /** Taking the steps ls from s is possible and leads to s'. */
  ghost predicate Leads(s: State, ls: seq<Label>, s': State)
    decreases |ls|
  {
    if ls == [] then s' == s else Enabled(s, ls[0]) && Leads(Apply(s, ls[0]), ls[1..], s')
  }

  lemma LeadsOn(s: State, l: Label, ls: seq<Label>, s': State)
    requires Enabled(s, l) && Leads(Apply(s, l), ls, s')
    ensures Leads(s, [l] + ls, s')
  {
    assert ([l] + ls)[1..] == ls;
  }

  /** The same step n times. */
  function Times(l: Label, n: nat): (ls: seq<Label>)
    ensures |ls| == n && (n > 0 ==> ls[0] == l && ls[1..] == Times(l, n - 1))
  {
    if n == 0 then [] else [l] + Times(l, n - 1)
  }

  lemma {:induction false} RunInv(tr: seq<State>, ls: seq<Label>, k: nat)
    requires IsRun(tr, ls) && k < |tr|
    ensures Inv(tr[k])
  {
    if k > 0 {
      RunInv(tr, ls, k - 1);
      assert StepAt(tr, ls, k - 1);
      StepInv(tr[k - 1], ls[k - 1]);
    }
  }

  lemma StepTaken(tr: seq<State>, ls: seq<Label>, k: nat)
    requires IsPath(tr, ls) && k < |ls|
    ensures Enabled(tr[k], ls[k]) && tr[k + 1] == Apply(tr[k], ls[k])
  {
    assert StepAt(tr, ls, k);
  }

  lemma RunStep(tr: seq<State>, ls: seq<Label>, k: nat)
    requires IsRun(tr, ls) && k < |ls|
    ensures Inv(tr[k]) && Enabled(tr[k], ls[k]) && tr[k + 1] == Apply(tr[k], ls[k])
  {
    RunInv(tr, ls, k);
    assert StepAt(tr, ls, k);
  }

  /** The list as a traversal from HEAD sees it, at any index of a run. */
  ghost function ListAt(tr: seq<State>, ls: seq<Label>, k: nat): seq<Node>
    requires IsRun(tr, ls) && k < |tr|
  {
    RunInv(tr, ls, k);
    ListOf(tr[k])
  }

  lemma {:induction false} OperationUnderWay(
    tr: seq<State>, ls: seq<Label>, from: nat, k: nat, before: seq<Node>, after: seq<Node>)
    requires IsRun(tr, ls) && from <= k < |tr|
    requires Inv(tr[from]) && OldOrNew(tr[from], before, after)
    requires forall i :: from <= i < k ==> tr[i].writer != Idle
    ensures Inv(tr[k]) && OldOrNew(tr[k], before, after)
    decreases k
  {
    if from < k {
      OperationUnderWay(tr, ls, from, k - 1, before, after);
      StepTaken(tr, ls, k - 1);
      OperationGoesOn(tr[k - 1], ls[k - 1], before, after);
    }
  }

  /** A whole operation in a run, with readers in between: it begins at `from` and is under way up to k.
      At every such index a traversal sees exactly the old or exactly the new list, and when the operation
      is over, the new one. */
  lemma OperationInRun(tr: seq<State>, ls: seq<Label>, from: nat, k: nat)
    requires IsRun(tr, ls) && from < k < |tr| && BeginsOperation(ls[from])
    requires forall i :: from < i < k ==> tr[i].writer != Idle
    ensures Inv(tr[k])
    ensures OldOrNew(tr[k], ListAt(tr, ls, from), Target(tr[from + 1].writer, ListAt(tr, ls, from)))
  {
    RunStep(tr, ls, from);
    var before := ListAt(tr, ls, from);
    OperationBegins(tr[from], ls[from]);
    OperationUnderWay(tr, ls, from + 1, k, before, Target(tr[from + 1].writer, before));
  }

  /** So each operation, from its begin to the store that ends it, is one insertion or one removal. */
  lemma WholeOperation(tr: seq<State>, ls: seq<Label>, from: nat, k: nat)
    requires IsRun(tr, ls) && from < k < |tr| && BeginsOperation(ls[from]) && tr[k].writer == Idle
    requires forall i :: from < i < k ==> tr[i].writer != Idle
    ensures ListAt(tr, ls, k) ==
      match ls[from]
      case AddAfter(n, at) => InsertAfter(ListAt(tr, ls, from), at, n)
      case AddBefore(n, at) => [HEAD] + InsertBefore(ListAt(tr, ls, from)[1..], at, n)
      case Delete(e) => Without(ListAt(tr, ls, from), e)
      case _ => ListAt(tr, ls, from)
  {
    RunStep(tr, ls, from);
    OperationInRun(tr, ls, from, k);
    if ls[from].AddBefore? {
      AddsBefore(tr[from], ls[from]);
    }
  }

  // ----- operations and traversals come to an end -----

  function StoresLeft(w: Writer): int
  {
    match w
    case Idle => 0
    case Adding(_, _, _, k) => 4 - k
    case Deleting(_, _, _, k) => 3 - k
  }

  lemma StoreCounts(s: State)
    requires Inv(s) && s.writer != Idle
    ensures Enabled(s, Store) && StoresLeft(Apply(s, Store).writer) == StoresLeft(s.writer) - 1
    ensures StoresLeft(s.writer) > 0 && (Apply(s, Store).writer == Idle <==> StoresLeft(s.writer) == 1)
  {
  }

  lemma {:induction false} StoresComplete(s: State, before: seq<Node>, after: seq<Node>) returns (s': State)
    requires Inv(s) && s.writer != Idle && OldOrNew(s, before, after)
    ensures StoresLeft(s.writer) > 0 && Leads(s, Times(Store, StoresLeft(s.writer)), s')
    ensures s'.writer == Idle && Inv(s') && ListOf(s') == after
    decreases StoresLeft(s.writer)
  {
    StoreCounts(s);
    OperationGoesOn(s, Store, before, after);
    s' := Apply(s, Store);
    if s'.writer != Idle {
      s' := StoresComplete(s', before, after);
    }
  }

  /** An operation can always begin when no other one is under way, and the writer's own stores finish it:
      four for an insertion, three for a removal. */
  lemma OperationCompletes(s: State, l: Label) returns (s': State)
    requires Inv(s) && s.writer == Idle
    requires match l
      case AddAfter(n, at) => n != HEAD && n !in s.next && at in s.linked && (s.flavour == Ring || at == HEAD)
      case AddBefore(n, at) => n != HEAD && n !in s.next && at in s.linked && s.flavour == Ring
      case Delete(e) => e in s.linked && e != HEAD
      case _ => false
    ensures Leads(s, [l] + Times(Store, if l.Delete? then 3 else 4), s')
    ensures s'.writer == Idle && Inv(s')
    ensures ListOf(s') ==
      match l
      case AddAfter(n, at) => InsertAfter(ListOf(s), at, n)
      case AddBefore(n, at) => [HEAD] + InsertBefore(ListOf(s)[1..], at, n)
      case Delete(e) => Without(ListOf(s), e)
      case _ => ListOf(s)
  {
    OperationSound(s, l);
    OperationBegins(s, l);
    var begun := Apply(s, l);
    if l.AddBefore? { AddsBefore(s, l); }
    s' := StoresComplete(begun, ListOf(s), Target(begun.writer, ListOf(s)));
    assert ([l] + Times(Store, StoresLeft(begun.writer)))[1..] == Times(Store, StoresLeft(begun.writer));
  }

  lemma OperationSound(s: State, l: Label)
    requires Inv(s) && Allowed(s, l) && BeginsOperation(l)
    ensures Sound(s, l)
  {
    match l
    case AddBefore(n, at) => var _ := Pred(s.flavour, s.writer, s.back, at);
    case Delete(e) => var _ := Pred(s.flavour, s.writer, s.back, e);
    case _ =>
  }

  /** From the step l, which loads `c->next`. */
  lemma {:induction false} FollowsWalk(s: State, l: Label, c: Node, path: seq<Node>)
    requires if l == Begin then s.reader == NotStarted && c == HEAD else l == Advance && s.reader == Reading(c)
    requires Walk(s.next, c, path) && c in s.next && forall m :: m in path ==> m in s.next
    ensures Leads(s, [l] + Times(Advance, |path|), s.(reader := Finished, visited := s.visited + path))
    decreases |path|
  {
    if path == [] {
      assert s.visited + path == s.visited;
      LeadsOn(s, l, [], s.(reader := Finished));
    } else {
      var s' := s.(reader := Reading(path[0]), visited := s.visited + [path[0]]);
      var end := s.(reader := Finished, visited := s.visited + path);
      FollowsWalk(s', Advance, path[0], path[1..]);
      assert s'.visited + path[1..] == end.visited by { assert path == [path[0]] + path[1..]; }
      LeadsOn(s, l, Times(Advance, |path|), end);
    }
  }

  lemma WalkIsMapped(s: State, c: Node, path: seq<Node>)
    requires Inv(s) && c in s.rank && Walk(s.next, c, path)
    ensures c in s.next && forall m :: m in path ==> m in s.next
  {
    ChainFromAnywhere(s, c, path);
    forall m | m in path ensures m in s.rank {
      var i :| 0 <= i < |path| && path[i] == m;
      assert ([c] + path)[i + 1] == m;
    }
  }

  /** A reader at any node, also at a removed one, that is left alone visits what lies ahead, one node in
      each step, and then leaves the loop. */
  lemma TraversalEnds(s: State, c: Node, path: seq<Node>)
    requires Inv(s) && s.reader == Reading(c) && c in s.rank && Walk(s.next, c, path)
    ensures Leads(s, Times(Advance, |path| + 1), s.(reader := Finished, visited := s.visited + path))
  {
    WalkIsMapped(s, c, path);
    FollowsWalk(s, Advance, c, path);
  }

  /** A traversal that no writer disturbs visits exactly the list. */
  lemma UndisturbedTraversal(s: State)
    requires Inv(s) && s.reader == NotStarted && s.visited == []
    ensures Leads(s, [Begin] + Times(Advance, |ListOf(s)| - 1), s.(reader := Finished, visited := ListOf(s)[1..]))
  {
    var path := ListOf(s)[1..];
    ChainWalks(s.next, s.rank, s.linked, HEAD);
    WalkIsMapped(s, HEAD, path);
    FollowsWalk(s, Begin, HEAD, path);
    assert s.visited + path == path;
  }

  // ----- reader completeness -----

  /** The reader has visited, in list order and once each, what it should of the nodes in `stay`. */
  ghost predicate ReaderInv(s: State, stay: set<Node>)
  {
    && Sorted(s.rank, s.visited) && HEAD !in s.visited
    && match s.reader
       case NotStarted => s.visited == []
       case Reading(c) =>
         && c in s.rank && c in s.visited
         && (forall m :: m in s.visited ==> s.rank[m] <= s.rank[c])
         && (forall m :: m in stay && m in s.rank && s.rank[m] <= s.rank[c] ==> m in s.visited)
       case Finished => stay <= set m | m in s.visited
  }

  lemma LandKeepsReader(s: State, c: Node, stay: set<Node>)
    requires Inv(s) && stay <= s.linked - {HEAD} && c in s.rank
    requires Sorted(s.rank, s.visited) && HEAD !in s.visited
    requires forall m :: m in s.visited ==> s.rank[m] <= s.rank[c]
    requires forall m :: m in stay && s.rank[m] <= s.rank[c] ==> m in s.visited
    ensures ReaderInv(Land(s, c), stay)
  {
    var d := Nx(s.next, c);
    forall m | m in stay && s.rank[c] < s.rank[m]
      ensures d != HEAD && d in s.rank && (s.rank[m] <= s.rank[d] ==> m == d)
    {
      assert UpTo(s.next, s.rank, c, m);
      if s.rank[m] == s.rank[d] { assert SameRank(s.rank, m, d); }
    }
  }

  lemma StepKeepsReader(s: State, l: Label, stay: set<Node>)
    requires Inv(s) && Enabled(s, l) && ReaderInv(s, stay)
    requires stay <= s.linked - {HEAD} && stay <= Apply(s, l).linked
    ensures ReaderInv(Apply(s, l), stay)
  {
    match l
    case Begin => LandKeepsReader(s, HEAD, stay);
    case Advance => LandKeepsReader(s, s.reader.cursor, stay);
    case Store => assert forall m :: m in s.rank ==> m in Apply(s, l).rank && Apply(s, l).rank[m] == s.rank[m];
    case _ =>
  }

  function Filter(s: seq<Node>, keep: set<Node>): seq<Node>
  {
    if s == [] then [] else (if s[0] in keep then [s[0]] else []) + Filter(s[1..], keep)
  }

  lemma SortedTail(rank: map<Node, real>, a: seq<Node>)
    requires Sorted(rank, a) && a != []
    ensures Sorted(rank, a[1..]) && a[0] !in a[1..]
    ensures forall m :: m in a[1..] ==> rank[a[0]] < rank[m]
  {
    assert forall i :: 0 <= i < |a| - 1 ==> a[1..][i] == a[i + 1];
  }

  lemma HeadIsLowest(rank: map<Node, real>, a: seq<Node>, x: Node)
    requires Sorted(rank, a) && x in a
    ensures rank[a[0]] <= rank[x]
  {
    var i :| 0 <= i < |a| && a[i] == x;
    if i > 0 { assert rank[a[0]] < rank[a[i]]; }
  }

  lemma {:induction false} SameFilter(rank: map<Node, real>, a: seq<Node>, b: seq<Node>, keep: set<Node>)
    requires Sorted(rank, a) && Sorted(rank, b)
    requires forall m, n :: SameRank(rank, m, n) ==> m == n
    requires forall m :: m in keep ==> (m in a <==> m in b)
    ensures Filter(a, keep) == Filter(b, keep)
    decreases |a| + |b|
  {
    if a != [] { SortedTail(rank, a); assert a == [a[0]] + a[1..]; }
    if b != [] { SortedTail(rank, b); assert b == [b[0]] + b[1..]; }
    if a != [] && a[0] !in keep {
      SameFilter(rank, a[1..], b, keep);
    } else if b != [] && b[0] !in keep {
      SameFilter(rank, a, b[1..], keep);
    } else if a != [] && b != [] {
      HeadIsLowest(rank, a, b[0]);
      HeadIsLowest(rank, b, a[0]);
      assert SameRank(rank, a[0], b[0]);
      SameFilter(rank, a[1..], b[1..], keep);
    }
  }

  lemma {:induction false} ReaderRun(tr: seq<State>, ls: seq<Label>, from: nat, k: nat, stay: set<Node>)
    requires IsRun(tr, ls) && from <= k < |tr| && tr[from].reader == NotStarted
    requires forall i :: from <= i <= k ==> stay <= tr[i].linked - {HEAD}
    ensures ReaderInv(tr[k], stay)
  {
    if k == from {
      NotStartedVisitsNothing(tr, ls, k);
    } else {
      ReaderRun(tr, ls, from, k - 1, stay);
      RunStep(tr, ls, k - 1);
      var s, l, s' := tr[k - 1], ls[k - 1], tr[k];
      assert stay <= s.linked - {HEAD} && stay <= s'.linked - {HEAD};
      StepKeepsReader(s, l, stay);
    }
  }

  lemma {:induction false} NotStartedVisitsNothing(tr: seq<State>, ls: seq<Label>, k: nat)
    requires IsRun(tr, ls) && k < |tr| && tr[k].reader == NotStarted
    ensures tr[k].visited == []
  {
    if k > 0 { assert StepAt(tr, ls, k - 1); NotStartedVisitsNothing(tr, ls, k - 1); }
  }

  /** Over any interleaving with the writers, a finished traversal has visited the nodes that stayed
      linked throughout exactly once each and in list order: dropping all other nodes, the sequence of
      visits and the list itself are the same. */
  lemma ReaderComplete(tr: seq<State>, ls: seq<Label>, from: nat, stay: set<Node>)
    requires IsRun(tr, ls) && from < |tr|
    requires tr[from].reader == NotStarted && tr[|ls|].reader == Finished
    requires forall i, m :: from <= i < |tr| && m in stay ==> m != HEAD && m in ListAt(tr, ls, i)
    ensures Inv(tr[|ls|]) && Filter(tr[|ls|].visited, stay) == Filter(ListOf(tr[|ls|]), stay)
  {
    var s := tr[|ls|];
    RunInv(tr, ls, |ls|);
    forall i, m | from <= i < |tr| && m in stay ensures m in tr[i].linked - {HEAD} {
      RunInv(tr, ls, i);
      ListDistinct(tr[i]);
      assert m in ListAt(tr, ls, i);
    }
    ReaderRun(tr, ls, from, |ls|, stay);
    ChainSorted(s.next, s.rank, s.linked, HEAD);
    forall m | m in stay ensures m in s.visited && m in ListOf(s) {
      assert m in set v | v in s.visited;
      InList(s, m);
    }
    SameFilter(s.rank, s.visited, ListOf(s), stay);
  }

  /** In every reachable state, every step an allowed caller may take is free of bad dereferences. */
  lemma RunNeverFaults(tr: seq<State>, ls: seq<Label>, k: nat, l: Label)
    requires IsRun(tr, ls) && k < |tr| && Allowed(tr[k], l)
    ensures Sound(tr[k], l)
  {
    RunInv(tr, ls, k);
    ReaderRun(tr, ls, 0, k, {});
    NeverFaults(tr[k], l);
  }

  /** In a hash list HEAD stands for NULL as a successor, and no store goes through it. */
  lemma {:induction false} NullIsNeverWritten(tr: seq<State>, ls: seq<Label>, k: nat)
    requires IsRun(tr, ls) && k < |tr| && tr[0].flavour == Hash
    ensures tr[k].flavour == Hash && HEAD in tr[k].back && tr[k].back[HEAD] == At(HEAD)
  {
    if k > 0 {
      NullIsNeverWritten(tr, ls, k - 1);
      RunStep(tr, ls, k - 1);
    }
  }
}

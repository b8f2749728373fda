/** Depth-first post-order with an explicit stack: references before referrers. */
module TopoOrder {
  import opened Graph

  /** A stack entry: a node to visit, or a visited one due out once its references are. */
  datatype Frame<T> = Frame(node: T, emit: bool)

  /** The visited nodes on the stack. */
  function Open<T>(stack: seq<Frame<T>>): set<T> { set f | f in stack && f.emit :: f.node }

  function Waiting<T>(stack: seq<Frame<T>>): set<T> { set f | f in stack && !f.emit :: f.node }

  function Edges<T>(adj: map<T, seq<T>>): map<T, set<T>> { map k | k in adj :: Elems(adj[k]) }

  function RefsOf<T>(adj: map<T, seq<T>>, k: T): seq<T> { if k in adj then adj[k] else [] }

  lemma RefsAre<T>(adj: map<T, seq<T>>, k: T)
    ensures Refs(Edges(adj), k) == Elems(RefsOf(adj, k)) - {k}
  {}

  // ---- what holds between steps ---------------------------------------------------------

  /** Each visited node is out or open, once. */
  predicate Once<T>(stack: seq<Frame<T>>, seen: set<T>, order: seq<T>)
  {
    && Distinct(order) && Elems(order) !! Open(stack) && seen == Elems(order) + Open(stack)
    && forall i, j | 0 <= i < j < |stack| && stack[i].emit && stack[j].emit :: stack[i].node != stack[j].node
  }

  /** References of a visited node are visited or waiting. */
  predicate Covered<T>(g: map<T, set<T>>, stack: seq<Frame<T>>, seen: set<T>)
  {
    forall k <- seen :: Refs(g, k) <= seen + Waiting(stack)
  }

  /** Everything met is reachable from a root. */
  ghost predicate Rooted<T(!new)>(g: map<T, set<T>>, roots: set<T>, k: T) { exists r :: r in roots && Reaches(g, r, k) }

  ghost predicate AllRooted<T(!new)>(g: map<T, set<T>>, roots: set<T>, stack: seq<Frame<T>>, seen: set<T>)
  {
    (forall f <- stack :: Rooted(g, roots, f.node)) && (forall k <- seen :: Rooted(g, roots, k))
  }

  /** An open node reaches everything above it. */
  ghost predicate Chained<T(!new)>(g: map<T, set<T>>, stack: seq<Frame<T>>)
  {
    forall i, j | 0 <= i < j < |stack| && stack[i].emit :: Reaches(g, stack[i].node, stack[j].node)
  }

  ghost predicate Above<T>(stack: seq<Frame<T>>, i: int, r: T)
  {
    exists j :: i < j < |stack| && 0 <= j && stack[j].node == r
  }

  ghost predicate Out<T>(g: map<T, set<T>>, stack: seq<Frame<T>>, order: seq<T>, i: nat)
    requires i < |stack|
  {
    forall r <- Refs(g, stack[i].node) :: r in order || Above(stack, i, r)
  }

  /** References of an open node that reaches no cycle are out or above it. */
  ghost predicate Awaits<T(!new)>(g: map<T, set<T>>, stack: seq<Frame<T>>, order: seq<T>)
  {
    forall i | 0 <= i < |stack| && stack[i].emit && !ReachesCycle(g, stack[i].node) :: Out(g, stack, order, i)
  }

  /** A node that reaches no cycle comes after all its references. */
  ghost predicate Sorted<T(!new)>(g: map<T, set<T>>, order: seq<T>)
  {
    forall i | 0 <= i < |order| && !ReachesCycle(g, order[i]) :: Refs(g, order[i]) <= Elems(order[..i])
  }

  ghost predicate Inv<T(!new)>(g: map<T, set<T>>, roots: set<T>, stack: seq<Frame<T>>, seen: set<T>, order: seq<T>)
  {
    && Once(stack, seen, order) && Covered(g, stack, seen) && AllRooted(g, roots, stack, seen) && Chained(g, stack)
    && Awaits(g, stack, order) && Sorted(g, order)
  }

  // ---- reaching -------------------------------------------------------------------------

  lemma ReachesSelf<T(!new)>(g: map<T, set<T>>, a: T)
    ensures Reaches(g, a, a)
  {
    assert Walk(g, [a]);
  }

  lemma ReachesOn<T(!new)>(g: map<T, set<T>>, a: T, b: T, c: T)
    requires Reaches(g, a, b) && c in Refs(g, b)
    ensures Reaches(g, a, c)
  {
    var w: seq<T> :| Walk(g, w) && w[0] == a && w[|w| - 1] == b;
    WalkOn(g, w, c);
    assert (w + [c])[0] == a;
  }

  lemma NoWayBack<T(!new)>(g: map<T, set<T>>, a: T, b: T)
    requires Reaches(g, a, b) && !ReachesCycle(g, b)
    ensures a !in Refs(g, b)
  {
    if a in Refs(g, b) {
      var w: seq<T> :| Walk(g, w) && w[0] == a && w[|w| - 1] == b;
      var v := [b] + w;
      forall i | 1 < i < |v|
        ensures v[i] in Refs(g, v[i - 1])
      {
        assert v[i] == w[i - 1] && v[i - 1] == w[i - 2];
      }
      assert Cycle(g, v);
      ReachesSelf(g, b);
    }
  }

  // ---- popping ----------------------------------------------------------------------------

  lemma OpenTop<T>(stack: seq<Frame<T>>, f: Frame<T>)
    ensures Open(stack + [f]) == Open(stack) + if f.emit then {f.node} else {}
    ensures Waiting(stack + [f]) == Waiting(stack) + if f.emit then {} else {f.node}
  {
    var more := stack + [f];
    assert f in more && forall x <- stack :: x in more;
  }

  lemma AboveTop<T>(stack: seq<Frame<T>>, f: Frame<T>, i: int, r: T)
    requires Above(stack + [f], i, r)
    ensures Above(stack, i, r) || (r == f.node && i < |stack|)
  {}

  lemma SkippedAwaits<T(!new)>(g: map<T, set<T>>, stack: seq<Frame<T>>, k: T, seen: set<T>, order: seq<T>, i: nat, r: T)
    requires k in seen && Once(stack + [Frame(k, false)], seen, order) && Chained(g, stack + [Frame(k, false)])
    requires Awaits(g, stack + [Frame(k, false)], order) && i < |stack| && stack[i].emit && r in Refs(g, stack[i].node)
    requires !ReachesCycle(g, stack[i].node)
    ensures r in order || Above(stack, i, r)
  {
    var was := stack + [Frame(k, false)];
    assert was[i] == stack[i] && Out(g, was, order, i);
    if r !in order && !Above(stack, i, r) {
      AboveTop(stack, Frame(k, false), i, r);
      var f :| f in was && f.emit && f.node == k;
      var m :| 0 <= m < |stack| && stack[m] == f;
      assert was[m] == f;
      if m < i {
        assert Reaches(g, was[m].node, was[i].node);
        NoWayBack(g, k, stack[i].node);
      }
    }
  }

  /** A node popped again after it was visited. */
  lemma Skipped<T(!new)>(g: map<T, set<T>>, roots: set<T>, stack: seq<Frame<T>>, k: T, seen: set<T>, order: seq<T>)
    requires Inv(g, roots, stack + [Frame(k, false)], seen, order) && k in seen
    ensures Inv(g, roots, stack, seen, order)
  {
    hide Sorted, Reaches, Above, ReachesCycle;
    var was := stack + [Frame(k, false)];
    OpenTop(stack, Frame(k, false));
    assert forall f <- stack :: f in was;
    assert forall i | 0 <= i < |stack| :: was[i] == stack[i];
    forall i, r | 0 <= i < |stack| && stack[i].emit && !ReachesCycle(g, stack[i].node) && r in Refs(g, stack[i].node)
      ensures r in order || Above(stack, i, r)
    {
      SkippedAwaits(g, stack, k, seen, order, i, r);
    }
  }

  lemma EmittedAwaits<T(!new)>(g: map<T, set<T>>, stack: seq<Frame<T>>, k: T, order: seq<T>)
    requires Awaits(g, stack + [Frame(k, true)], order)
    ensures Awaits(g, stack, order + [k])
  {
    hide ReachesCycle;
    var was := stack + [Frame(k, true)];
    forall i, r | 0 <= i < |stack| && stack[i].emit && !ReachesCycle(g, stack[i].node) && r in Refs(g, stack[i].node)
      ensures r in order + [k] || Above(stack, i, r)
    {
      assert was[i] == stack[i] && Out(g, was, order, i);
      if r !in order && r != k { AboveTop(stack, Frame(k, true), i, r); }
    }
  }

  lemma EmittedSorted<T(!new)>(g: map<T, set<T>>, stack: seq<Frame<T>>, k: T, order: seq<T>)
    requires Awaits(g, stack + [Frame(k, true)], order) && Sorted(g, order)
    ensures Sorted(g, order + [k])
  {
    hide ReachesCycle;
    var was := stack + [Frame(k, true)];
    assert was[|stack|] == Frame(k, true);
    assert (order + [k])[..|order|] == order;
    if !ReachesCycle(g, k) {
      assert Out(g, was, order, |stack|);
      assert forall r <- Refs(g, k) :: !Above(was, |stack|, r);
    }
    forall i | 0 <= i < |order| && !ReachesCycle(g, order[i])
      ensures Refs(g, (order + [k])[i]) <= Elems((order + [k])[..i])
    {
      assert (order + [k])[..i] == order[..i];
    }
  }

  /** An open node all of whose references are out. */
  lemma Emitted<T(!new)>(g: map<T, set<T>>, roots: set<T>, stack: seq<Frame<T>>, k: T, seen: set<T>, order: seq<T>)
    requires Inv(g, roots, stack + [Frame(k, true)], seen, order)
    ensures Inv(g, roots, stack, seen, order + [k])
  {
    var was := stack + [Frame(k, true)];
    OpenTop(stack, Frame(k, true));
    assert was[|stack|] == Frame(k, true);
    assert forall f <- stack :: f in was;
    assert forall i | 0 <= i < |stack| :: was[i] == stack[i];
    assert k !in order;
    assert Elems(order + [k]) == Elems(order) + {k};
    assert k !in Open(stack);
    EmittedAwaits(g, stack, k, order);
    EmittedSorted(g, stack, k, order);
  }

  // ---- visiting ---------------------------------------------------------------------------

  /** The references to visit, in the order they are pushed. */
  function Fresh<T>(refs: seq<T>, seen: set<T>): seq<Frame<T>>
  {
    if refs == [] then [] else
      Fresh(refs[..|refs| - 1], seen) + if refs[|refs| - 1] in seen then [] else [Frame(refs[|refs| - 1], false)]
  }

  lemma {:induction false} FreshAre<T>(refs: seq<T>, seen: set<T>)
    ensures forall f <- Fresh(refs, seen) :: !f.emit && f.node in refs && f.node !in seen
    ensures forall r <- refs :: r in seen || Frame(r, false) in Fresh(refs, seen)
  {
    if refs != [] {
      FreshAre(refs[..|refs| - 1], seen);
      var last := refs[|refs| - 1];
      assert refs == refs[..|refs| - 1] + [last];
      if last !in seen { assert Fresh(refs, seen)[|Fresh(refs, seen)| - 1] == Frame(last, false); }
    }
  }

  /** The stack once `k` is visited: `k` is open and the pushed frames are on top of it. */
  predicate Visits<T>(g: map<T, set<T>>, stack: seq<Frame<T>>, k: T, pushed: seq<Frame<T>>, seen: set<T>)
  {
    && (forall f <- pushed :: !f.emit && f.node in Refs(g, k) && f.node !in seen + {k})
    && (forall r <- Refs(g, k) :: r in seen + {k} || Frame(r, false) in pushed)
  }

  lemma {:induction false} OpenOnTop<T>(stack: seq<Frame<T>>, pushed: seq<Frame<T>>)
    requires forall f <- pushed :: !f.emit
    ensures Open(stack + pushed) == Open(stack) && Waiting(stack + pushed) == Waiting(stack) + Waiting(pushed)
  {
    var all := stack + pushed;
    assert forall f <- stack :: f in all;
    assert forall f <- pushed :: f in all;
  }

  lemma VisitOnce<T(!new)>(g: map<T, set<T>>, stack: seq<Frame<T>>, k: T, pushed: seq<Frame<T>>, seen: set<T>,
        order: seq<T>)
    requires Once(stack + [Frame(k, false)], seen, order) && k !in seen && Visits(g, stack, k, pushed, seen)
    ensures Once(stack + [Frame(k, true)] + pushed, seen + {k}, order)
  {
    OpenTop(stack, Frame(k, false));
    OpenTop(stack, Frame(k, true));
    OpenOnTop(stack + [Frame(k, true)], pushed);
    var was, now := stack + [Frame(k, false)], stack + [Frame(k, true)] + pushed;
    assert forall m | |stack| < m < |now| :: now[m] in pushed;
    forall i, j | 0 <= i < j < |now| && now[i].emit && now[j].emit
      ensures now[i].node != now[j].node
    {
      assert i < |stack| && now[i] == was[i] && was[i] in stack;
      if j < |stack| { assert now[j] == was[j]; }
    }
  }

  lemma VisitCovered<T(!new)>(g: map<T, set<T>>, stack: seq<Frame<T>>, k: T, pushed: seq<Frame<T>>, seen: set<T>)
    requires Covered(g, stack + [Frame(k, false)], seen) && Visits(g, stack, k, pushed, seen)
    ensures Covered(g, stack + [Frame(k, true)] + pushed, seen + {k})
  {
    OpenTop(stack, Frame(k, false));
    OpenTop(stack, Frame(k, true));
    OpenOnTop(stack + [Frame(k, true)], pushed);
    forall r | r in Refs(g, k)
      ensures r in seen + {k} + Waiting(pushed)
    {
      if r !in seen + {k} { assert Frame(r, false) in pushed; }
    }
  }

  lemma VisitRooted<T(!new)>(g: map<T, set<T>>, roots: set<T>, stack: seq<Frame<T>>, k: T, pushed: seq<Frame<T>>,
        seen: set<T>)
    requires AllRooted(g, roots, stack + [Frame(k, false)], seen) && Visits(g, stack, k, pushed, seen)
    ensures AllRooted(g, roots, stack + [Frame(k, true)] + pushed, seen + {k})
  {
    var was := stack + [Frame(k, false)];
    assert was[|stack|].node == k && Rooted(g, roots, k) && forall f <- stack :: f in was;
    var root :| root in roots && Reaches(g, root, k);
    forall f | f in pushed
      ensures Rooted(g, roots, f.node)
    {
      ReachesOn(g, root, k, f.node);
    }
  }

  lemma VisitChained<T(!new)>(g: map<T, set<T>>, stack: seq<Frame<T>>, k: T, pushed: seq<Frame<T>>, seen: set<T>)
    requires Chained(g, stack + [Frame(k, false)]) && Visits(g, stack, k, pushed, seen)
    ensures Chained(g, stack + [Frame(k, true)] + pushed)
  {
    var was, now := stack + [Frame(k, false)], stack + [Frame(k, true)] + pushed;
    assert forall m | |stack| < m < |now| :: now[m] in pushed;
    forall i, j | 0 <= i < j < |now| && now[i].emit
      ensures Reaches(g, now[i].node, now[j].node)
    {
      if i < |stack| {
        assert was[i] == now[i] && Reaches(g, was[i].node, was[|stack|].node);
        if j < |stack| {
          assert was[j] == now[j];
        } else if j > |stack| {
          assert now[j] in pushed;
          ReachesOn(g, now[i].node, k, now[j].node);
        }
      } else {
        assert now[j] in pushed;
        ReachesSelf(g, k);
        ReachesOn(g, k, k, now[j].node);
      }
    }
  }

  lemma AboveGrows<T>(stack: seq<Frame<T>>, k: T, pushed: seq<Frame<T>>, i: int, r: T)
    requires Above(stack + [Frame(k, false)], i, r)
    ensures Above(stack + [Frame(k, true)] + pushed, i, r)
  {
    var was, now := stack + [Frame(k, false)], stack + [Frame(k, true)] + pushed;
    var j :| i < j < |was| && 0 <= j && was[j].node == r;
    assert now[j].node == r;
  }

  lemma VisitAwaits<T(!new)>(g: map<T, set<T>>, stack: seq<Frame<T>>, k: T, pushed: seq<Frame<T>>, seen: set<T>,
        order: seq<T>)
    requires Awaits(g, stack + [Frame(k, false)], order) && Chained(g, stack + [Frame(k, false)])
    requires Once(stack + [Frame(k, false)], seen, order) && k !in seen && Visits(g, stack, k, pushed, seen)
    ensures Awaits(g, stack + [Frame(k, true)] + pushed, order)
  {
    hide ReachesCycle;
    var was, now := stack + [Frame(k, false)], stack + [Frame(k, true)] + pushed;
    assert forall m | |stack| < m < |now| :: now[m] in pushed;
    forall i, r | 0 <= i < |now| && now[i].emit && !ReachesCycle(g, now[i].node) && r in Refs(g, now[i].node)
      ensures r in order || Above(now, i, r)
    {
      if i < |stack| {
        assert was[i] == now[i] && Out(g, was, order, i);
        if r !in order { AboveGrows(stack, k, pushed, i, r); }
      } else if r !in seen {
        var m :| 0 <= m < |pushed| && pushed[m] == Frame(r, false);
        assert now[|stack| + 1 + m].node == r;
      } else if r !in order {
        var f :| f in was && f.emit && f.node == r;
        var m :| 0 <= m < |stack| && was[m] == f;
        assert Reaches(g, was[m].node, was[|stack|].node);
        NoWayBack(g, r, k);
      }
    }
  }

  lemma Visited<T(!new)>(g: map<T, set<T>>, roots: set<T>, stack: seq<Frame<T>>, k: T, pushed: seq<Frame<T>>,
        seen: set<T>, order: seq<T>)
    requires Inv(g, roots, stack + [Frame(k, false)], seen, order) && k !in seen && Visits(g, stack, k, pushed, seen)
    ensures Inv(g, roots, stack + [Frame(k, true)] + pushed, seen + {k}, order)
  {
    hide Once, Covered, AllRooted, Chained, Awaits, Sorted, Visits;
    VisitOnce(g, stack, k, pushed, seen, order);
    VisitCovered(g, stack, k, pushed, seen);
    VisitRooted(g, roots, stack, k, pushed, seen);
    VisitChained(g, stack, k, pushed, seen);
    VisitAwaits(g, stack, k, pushed, seen, order);
  }

  lemma FreshVisits<T(!new)>(adj: map<T, seq<T>>, stack: seq<Frame<T>>, k: T, seen: set<T>)
    ensures Visits(Edges(adj), stack, k, Fresh(RefsOf(adj, k), seen + {k}), seen)
  {
    FreshAre(RefsOf(adj, k), seen + {k});
    RefsAre(adj, k);
  }

  // ---- the loop ---------------------------------------------------------------------------

  /** Visited nodes, their references and the roots: all that is ever met. */
  ghost predicate Within<T(!new)>(adj: map<T, seq<T>>, all: set<T>, stack: seq<Frame<T>>, seen: set<T>)
  {
    && adj.Keys <= all && (forall k <- adj :: Elems(adj[k]) <= all)
    && seen <= all && forall f <- stack :: f.node in all
  }

  lemma WithinVisit<T(!new)>(adj: map<T, seq<T>>, all: set<T>, stack: seq<Frame<T>>, k: T, seen: set<T>)
    requires Within(adj, all, stack + [Frame(k, false)], seen)
    ensures Within(adj, all, stack + [Frame(k, true)] + Fresh(RefsOf(adj, k), seen + {k}), seen + {k})
  {
    FreshAre(RefsOf(adj, k), seen + {k});
    var was := stack + [Frame(k, false)];
    assert was[|stack|] == Frame(k, false) && forall f <- stack :: f in was;
  }

  lemma Shrinks<T>(all: set<T>, seen: set<T>, k: T)
    requires k in all && k !in seen
    ensures |all - (seen + {k})| < |all - seen|
  {
    assert all - seen == (all - (seen + {k})) + {k};
  }

  method PushRefs<T(==)>(base: seq<Frame<T>>, refs: seq<T>, seen: set<T>) returns (stack: seq<Frame<T>>)
    ensures stack == base + Fresh(refs, seen)
  {
    stack := base;
    for i := 0 to |refs|
      invariant stack == base + Fresh(refs[..i], seen)
    {
      assert refs[..i + 1][..i] == refs[..i];
      if refs[i] !in seen {
        stack := stack + [Frame(refs[i], false)];
      }
    }
    assert refs[..|refs|] == refs;
  }

  lemma WithinPop<T(!new)>(adj: map<T, seq<T>>, all: set<T>, stack: seq<Frame<T>>, f: Frame<T>, seen: set<T>)
    requires Within(adj, all, stack + [f], seen)
    ensures Within(adj, all, stack, seen) && f.node in all
  {
    assert (stack + [f])[|stack|] == f && forall x <- stack :: x in stack + [f];
  }

  /** Everything reachable from one more root, each node once, references first. */
  method Search<T(!new, ==)>(adj: map<T, seq<T>>, root: T, ghost roots: set<T>, ghost all: set<T>, seen0: set<T>,
        order0: seq<T>) returns (seen: set<T>, order: seq<T>)
    requires root in roots && root in all && Within(adj, all, [], seen0) && Inv(Edges(adj), roots, [], seen0, order0)
    ensures Within(adj, all, [], seen) && Inv(Edges(adj), roots, [], seen, order) && root in seen && seen0 <= seen
  {
    hide Inv, Fresh, Edges, RefsOf, Visits;
    seen, order := seen0, order0;
    var stack := [Frame(root, false)];
    Started(Edges(adj), roots, root, seen, order);
    hide Within;
    while stack != []
      invariant Within(adj, all, stack, seen) && Inv(Edges(adj), roots, stack, seen, order)
      invariant seen0 <= seen && (root in seen || stack == [Frame(root, false)])
      decreases |all - seen|, |stack|
    {
      var top, below := stack[|stack| - 1], stack[..|stack| - 1];
      var k := top.node;
      assert stack == below + [top];
      WithinPop(adj, all, below, top, seen);
      if top.emit {
        Emitted(Edges(adj), roots, below, k, seen, order);
        stack, order := below, order + [k];
      } else if k in seen {
        Skipped(Edges(adj), roots, below, k, seen, order);
        stack := below;
      } else {
        Shrinks(all, seen, k);
        FreshVisits(adj, below, k, seen);
        Visited(Edges(adj), roots, below, k, Fresh(RefsOf(adj, k), seen + {k}), seen, order);
        WithinVisit(adj, all, below, k, seen);
        seen := seen + {k};
        stack := PushRefs(below + [Frame(k, true)], RefsOf(adj, k), seen);
      }
    }
  }

  lemma Started<T(!new)>(g: map<T, set<T>>, roots: set<T>, root: T, seen: set<T>, order: seq<T>)
    requires Inv(g, roots, [], seen, order) && root in roots
    ensures Inv(g, roots, [Frame(root, false)], seen, order)
  {
    var stack := [Frame(root, false)];
    assert Open(stack) == {} && Open<T>([]) == {} && Waiting<T>([]) == {};
    ReachesSelf(g, root);
    assert Rooted(g, roots, root);
  }

  /** Nothing on the stack: the visited nodes are closed under references. */
  lemma {:induction false} ClosedReach<T(!new)>(g: map<T, set<T>>, seen: set<T>, w: seq<T>)
    requires Covered(g, [], seen) && Walk(g, w) && w[0] in seen
    ensures w[|w| - 1] in seen
  {
    if |w| > 1 {
      assert Walk(g, w[..|w| - 1]);
      ClosedReach(g, seen, w[..|w| - 1]);
      assert Waiting<T>([]) == {};
      assert w[|w| - 1] in Refs(g, w[|w| - 2]);
    }
  }

  /** All nodes reachable from the roots, each once. A node that reaches no cycle comes after its references. */
  method Order<T(!new, ==)>(roots: seq<T>, adj: map<T, seq<T>>) returns (order: seq<T>)
    ensures Distinct(order)
    ensures forall k :: k in order <==> Rooted(Edges(adj), Elems(roots), k)
    ensures Sorted(Edges(adj), order)
  {
    ghost var g := Edges(adj);
    ghost var all := Elems(roots) + adj.Keys + (set k, r | k in adj && r in adj[k] :: r);
    order := [];
    var seen := {};
    assert Open<T>([]) == {};
    for i := 0 to |roots|
      invariant Within(adj, all, [], seen) && Inv(g, Elems(roots), [], seen, order)
      invariant forall r <- roots[..i] :: r in seen
    {
      seen, order := Search(adj, roots[i], Elems(roots), all, seen, order);
    }
    forall k
      ensures k in order <==> Rooted(g, Elems(roots), k)
    {
      assert Open<T>([]) == {} && (k in order <==> k in seen);
      if Rooted(g, Elems(roots), k) {
        var r :| r in Elems(roots) && Reaches(g, r, k);
        assert r in roots[..|roots|];
        var w: seq<T> :| Walk(g, w) && w[0] == r && w[|w| - 1] == k;
        ClosedReach(g, seen, w);
      }
    }
  }
}

/**
 The order inputs are staged in: references before referrers, the largest archive first
 among those that can go, members of cycles and what refers to them last.
 */
module Ordering {
  import opened StorePath
  import opened Graph
  import opened TopoOrder

  /** A store path as the daemon describes it. References may repeat and may name itself. */
  datatype Info = Info(path: Path, refs: seq<Path>, size: nat)

  type Nodes = map<Path, Info>

  // ---- an order on paths ----------------------------------------------------------------

  predicate StrLe(a: string, b: string)
  {
    a == [] || (b != [] && (a[0] < b[0] || (a[0] == b[0] && StrLe(a[1..], b[1..]))))
  }

  lemma {:induction false} StrTotal(a: string, b: string)
    ensures StrLe(a, b) || StrLe(b, a)
  {
    if a != [] && b != [] { StrTotal(a[1..], b[1..]); }
  }

  lemma {:induction false} StrTrans(a: string, b: string, c: string)
    requires StrLe(a, b) && StrLe(b, c)
    ensures StrLe(a, c)
  {
    if a != [] && b != [] && c != [] && a[0] == b[0] == c[0] { StrTrans(a[1..], b[1..], c[1..]); }
  }

  lemma {:induction false} StrSame(a: string, b: string)
    requires StrLe(a, b) && StrLe(b, a)
    ensures a == b
  {
    if a != [] && b != [] {
      StrSame(a[1..], b[1..]);
      assert a == [a[0]] + a[1..] && b == [b[0]] + b[1..];
    }
  }

  /** Not larger, and by name among equals. */
  predicate AtMost(nodes: Nodes, a: Path, b: Path)
    requires a in nodes && b in nodes
  {
    nodes[a].size < nodes[b].size || (nodes[a].size == nodes[b].size && StrLe(a, b))
  }

  // ---- what is still open ---------------------------------------------------------------

  /** The reference counts: another path of the set. */
  predicate Counts(nodes: Nodes, p: Path, r: Path) { r != p && r in nodes }

  /** How many of these references of `p` are not done. */
  function Pending(nodes: Nodes, p: Path, refs: seq<Path>, done: set<Path>): nat
  {
    if refs == [] then 0 else
      var r := refs[|refs| - 1];
      Pending(nodes, p, refs[..|refs| - 1], done) + if Counts(nodes, p, r) && r !in done then 1 else 0
  }

  function Times(nodes: Nodes, p: Path, refs: seq<Path>, r: Path): nat
  {
    if Counts(nodes, p, r) then multiset(refs)[r] else 0
  }

  lemma {:induction false} PendingDone(nodes: Nodes, p: Path, refs: seq<Path>, done: set<Path>, x: Path)
    requires x !in done
    ensures Pending(nodes, p, refs, done) == Pending(nodes, p, refs, done + {x}) + Times(nodes, p, refs, x)
  {
    if refs != [] {
      var rest, r := refs[..|refs| - 1], refs[|refs| - 1];
      assert refs == rest + [r];
      PendingDone(nodes, p, rest, done, x);
    }
  }

  lemma {:induction false} PendingNone(nodes: Nodes, p: Path, refs: seq<Path>, done: set<Path>)
    ensures Pending(nodes, p, refs, done) == 0 <==> forall r <- refs :: Counts(nodes, p, r) ==> r in done
  {
    if refs != [] {
      var rest, r := refs[..|refs| - 1], refs[|refs| - 1];
      assert refs == rest + [r];
      PendingNone(nodes, p, rest, done);
    }
  }

  /** All references of `p` are done and `p` is not. */
  predicate Ready(nodes: Nodes, done: set<Path>, p: Path)
  {
    p in nodes && p !in done && Pending(nodes, p, nodes[p].refs, done) == 0
  }

  /** The reference graph of the set. */
  function Within(nodes: Nodes): map<Path, set<Path>>
  {
    map p | p in nodes :: set r | r in nodes[p].refs && r in nodes
  }

  lemma ReadyRefs(nodes: Nodes, done: set<Path>, p: Path)
    requires p in nodes && p !in done
    ensures Ready(nodes, done, p) <==> Refs(Within(nodes), p) <= done
  {
    PendingNone(nodes, p, nodes[p].refs, done);
    forall r
      ensures r in Refs(Within(nodes), p) <==> r in nodes[p].refs && Counts(nodes, p, r)
    {}
  }

  // ---- what the order promises ------------------------------------------------------------

  /** The `i`th path could go, and none that could go was larger. */
  predicate Picked(nodes: Nodes, order: seq<Path>, i: nat)
    requires i < |order|
  {
    && Ready(nodes, Elems(order[..i]), order[i])
    && forall q <- nodes :: Ready(nodes, Elems(order[..i]), q) ==> AtMost(nodes, q, order[i])
  }

  predicate Rising(ps: seq<Path>) { forall i, j | 0 <= i < j < |ps| :: StrLe(ps[i], ps[j]) }

  /** Picks first, then, by name, the paths that reach a cycle. */
  ghost predicate OrderedAt(nodes: Nodes, order: seq<Path>, k: nat)
  {
    && Distinct(order) && Elems(order) == nodes.Keys && k <= |order|
    && (forall i | 0 <= i < k :: Picked(nodes, order, i))
    && (forall i | k <= i < |order| :: ReachesCycle(Within(nodes), order[i]))
    && Rising(order[k..])
  }

  // ---- the picks are the paths that reach no cycle ------------------------------------------

  /** References of a pick are picks before it. */
  lemma PickRefs(nodes: Nodes, order: seq<Path>, k: nat, i: nat, r: Path)
    requires OrderedAt(nodes, order, k) && i < k && r in Refs(Within(nodes), order[i])
    ensures exists j :: 0 <= j < i && order[j] == r
  {
    assert Picked(nodes, order, i);
    ReadyRefs(nodes, Elems(order[..i]), order[i]);
  }

  /** A walk from a pick only goes to earlier picks. */
  lemma {:induction false} WalkBack(nodes: Nodes, order: seq<Path>, k: nat, i: nat, w: seq<Path>) returns (j: nat)
    requires OrderedAt(nodes, order, k) && i < k && Walk(Within(nodes), w) && w[0] == order[i]
    ensures j <= i && order[j] == w[|w| - 1] && (|w| > 1 ==> j < i)
    decreases |w|
  {
    if |w| == 1 {
      j := i;
    } else {
      assert w[1] in Refs(Within(nodes), w[0]);
      PickRefs(nodes, order, k, i, w[1]);
      var m :| 0 <= m < i && order[m] == w[1];
      assert Walk(Within(nodes), w[1..]) by {
        forall x | 0 < x < |w[1..]|
          ensures w[1..][x] in Refs(Within(nodes), w[1..][x - 1])
        {
          assert w[x + 1] in Refs(Within(nodes), w[x]);
        }
      }
      j := WalkBack(nodes, order, k, m, w[1..]);
    }
  }

  lemma PickNoCycle(nodes: Nodes, order: seq<Path>, k: nat, i: nat)
    requires OrderedAt(nodes, order, k) && i < k
    ensures !ReachesCycle(Within(nodes), order[i])
  {
    var g := Within(nodes);
    if ReachesCycle(g, order[i]) {
      var q :| Reaches(g, order[i], q) && OnCycle(g, q);
      var w: seq<Path> :| Walk(g, w) && w[0] == order[i] && w[|w| - 1] == q;
      var j := WalkBack(nodes, order, k, i, w);
      var v: seq<Path> :| Cycle(g, v) && v[0] == q;
      var m := WalkBack(nodes, order, k, j, v);
    }
  }

  /** A path that reaches no cycle comes after all its references. */
  lemma ReferencesFirst(nodes: Nodes, order: seq<Path>, k: nat, i: nat)
    requires OrderedAt(nodes, order, k) && i < |order| && !ReachesCycle(Within(nodes), order[i])
    ensures i < k && Refs(Within(nodes), order[i]) <= Elems(order[..i])
  {
    assert i < k;
    forall r | r in Refs(Within(nodes), order[i])
      ensures r in Elems(order[..i])
    {
      PickRefs(nodes, order, k, i, r);
    }
  }

  // ---- the order is the only one --------------------------------------------------------------

  lemma {:induction false} ElemsFit<T>(s: seq<T>)
    ensures |Elems(s)| <= |s|
  {
    if s != [] {
      ElemsFit(s[..|s| - 1]);
      assert Elems(s) == Elems(s[..|s| - 1]) + {s[|s| - 1]} by { assert s == s[..|s| - 1] + [s[|s| - 1]]; }
    }
  }

  lemma PicksAre(nodes: Nodes, order: seq<Path>, k: nat, p: Path)
    requires OrderedAt(nodes, order, k)
    ensures p in order[..k] <==> p in nodes && !ReachesCycle(Within(nodes), p)
    ensures p in order[k..] <==> p in nodes && ReachesCycle(Within(nodes), p)
  {
    if p in order[..k] {
      var i :| 0 <= i < k && order[i] == p;
      PickNoCycle(nodes, order, k, i);
      assert p in Elems(order);
    }
    if p in order[k..] { assert p in Elems(order); }
    if p in nodes {
      assert p in Elems(order);
      var i :| 0 <= i < |order| && order[i] == p;
      if i < k { assert order[..k][i] == p; } else { assert order[k..][i - k] == p; }
    }
  }

  lemma SamePicks(nodes: Nodes, a: seq<Path>, j: nat, b: seq<Path>, k: nat)
    requires OrderedAt(nodes, a, j) && OrderedAt(nodes, b, k)
    ensures j <= k
  {
    forall p | p in a[..j]
      ensures p in Elems(b[..k])
    {
      PicksAre(nodes, a, j, p);
      PicksAre(nodes, b, k, p);
    }
    DistinctFits(a[..j], Elems(b[..k]));
    ElemsFit(b[..k]);
  }

  lemma {:induction false} PrefixSame(nodes: Nodes, a: seq<Path>, b: seq<Path>, k: nat, n: nat)
    requires OrderedAt(nodes, a, k) && OrderedAt(nodes, b, k) && n <= k
    ensures a[..n] == b[..n]
  {
    if n > 0 {
      PrefixSame(nodes, a, b, k, n - 1);
      assert Picked(nodes, a, n - 1) && Picked(nodes, b, n - 1);
      StrSame(a[n - 1], b[n - 1]);
      assert a[..n] == a[..n - 1] + [a[n - 1]] && b[..n] == b[..n - 1] + [b[n - 1]];
    }
  }

  lemma Inhabited<T>(s: seq<T>)
    ensures s != [] ==> Elems(s) != {}
  {
    if s != [] { assert s[0] in Elems(s); }
  }

  lemma {:induction false} RisingSame(a: seq<Path>, b: seq<Path>)
    requires Rising(a) && Rising(b) && Distinct(a) && Distinct(b) && Elems(a) == Elems(b)
    ensures a == b
  {
    Inhabited(b);
    if a != [] {
      assert a[0] in Elems(b);
      assert b != [];
      assert b[0] in Elems(a);
      var i :| 0 <= i < |a| && a[i] == b[0];
      var j :| 0 <= j < |b| && b[j] == a[0];
      StrTotal(a[0], a[0]);
      StrSame(a[0], b[0]);
      forall x
        ensures x in a[1..] <==> x in a && x != a[0]
        ensures x in b[1..] <==> x in b && x != b[0]
      {
        assert a == [a[0]] + a[1..] && b == [b[0]] + b[1..];
      }
      assert Elems(a[1..]) == Elems(a) - {a[0]} && Elems(b[1..]) == Elems(b) - {b[0]};
      RisingSame(a[1..], b[1..]);
    }
  }

  /** However the hash maps were walked, there is one such order. */
  lemma OrderUnique(nodes: Nodes, a: seq<Path>, j: nat, b: seq<Path>, k: nat)
    requires OrderedAt(nodes, a, j) && OrderedAt(nodes, b, k)
    ensures a == b && j == k
  {
    SamePicks(nodes, a, j, b, k);
    SamePicks(nodes, b, k, a, j);
    PrefixSame(nodes, a, b, k, k);
    forall p
      ensures p in a[k..] <==> p in b[k..]
    {
      PicksAre(nodes, a, k, p);
      PicksAre(nodes, b, k, p);
    }
    assert Elems(a[k..]) == Elems(b[k..]);
    RisingSame(a[k..], b[k..]);
    assert a == a[..k] + a[k..] && b == b[..k] + b[k..];
  }

  // ---- counting references --------------------------------------------------------------------

  function Listed(referrers: map<Path, seq<Path>>, r: Path): seq<Path> { if r in referrers then referrers[r] else [] }

  /** Every referrer is listed as often as it refers. */
  ghost predicate ListsAll(nodes: Nodes, referrers: map<Path, seq<Path>>, done: set<Path>)
  {
    forall r, q: Path :: r in nodes && r !in done ==>
      multiset(Listed(referrers, r))[q] == if q in nodes then Times(nodes, q, nodes[q].refs, r) else 0
  }

  /** What `indegree` counts: references not done, and decrements still owed. */
  ghost predicate CountsAll(nodes: Nodes, indegree: map<Path, nat>, done: set<Path>, owed: multiset<Path>)
  {
    && indegree.Keys == nodes.Keys
    && forall q <- nodes :: indegree[q] == Pending(nodes, q, nodes[q].refs, done) + owed[q]
  }

  /** How often `q` is listed under `r`, when `p` is counted up to `refs`. */
  predicate Line(nodes: Nodes, referrers: map<Path, seq<Path>>, built: set<Path>, p: Path, refs: seq<Path>, r: Path,
        q: Path)
  {
    multiset(Listed(referrers, r))[q] ==
      if q in built && q in nodes then Times(nodes, q, nodes[q].refs, r)
        else if q == p then Times(nodes, p, refs, r) else 0
  }

  ghost predicate Lines(nodes: Nodes, referrers: map<Path, seq<Path>>, built: set<Path>, p: Path, refs: seq<Path>)
  {
    forall r, q: Path :: r in nodes ==> Line(nodes, referrers, built, p, refs, r, q)
  }

  /** One referrer's references are counted up to some place. */
  ghost predicate Building(nodes: Nodes, indegree: map<Path, nat>, referrers: map<Path, seq<Path>>, built: set<Path>,
        p: Path, refs: seq<Path>)
  {
    && indegree.Keys == built + {p} && p in nodes && p !in built && built <= nodes.Keys
    && (forall q <- built :: indegree[q] == Pending(nodes, q, nodes[q].refs, {}))
    && indegree[p] == Pending(nodes, p, refs, {})
    && Lines(nodes, referrers, built, p, refs)
  }

  lemma LineOne(nodes: Nodes, referrers: map<Path, seq<Path>>, built: set<Path>, p: Path, refs: seq<Path>, r: Path,
        x: Path, q: Path)
    requires p !in built && Line(nodes, referrers, built, p, refs, x, q)
    ensures Counts(nodes, p, r) ==> Line(nodes, referrers[r := Listed(referrers, r) + [p]], built, p, refs + [r], x, q)
    ensures !Counts(nodes, p, r) ==> Line(nodes, referrers, built, p, refs + [r], x, q)
  {
    assert multiset(refs + [r]) == multiset(refs) + multiset{r};
    if Counts(nodes, p, r) && x == r {
      var more := referrers[r := Listed(referrers, r) + [p]];
      assert multiset(Listed(more, x)) == multiset(Listed(referrers, x)) + multiset{p};
    }
  }

  lemma LinesOne(nodes: Nodes, referrers: map<Path, seq<Path>>, built: set<Path>, p: Path, refs: seq<Path>, r: Path)
    requires p !in built && Lines(nodes, referrers, built, p, refs)
    ensures Counts(nodes, p, r) ==> Lines(nodes, referrers[r := Listed(referrers, r) + [p]], built, p, refs + [r])
    ensures !Counts(nodes, p, r) ==> Lines(nodes, referrers, built, p, refs + [r])
  {
    hide Line;
    var more := if Counts(nodes, p, r) then referrers[r := Listed(referrers, r) + [p]] else referrers;
    forall x, q: Path | x in nodes
      ensures Line(nodes, more, built, p, refs + [r], x, q)
    {
      LineOne(nodes, referrers, built, p, refs, r, x, q);
    }
  }

  lemma BuildOne(nodes: Nodes, indegree: map<Path, nat>, referrers: map<Path, seq<Path>>, built: set<Path>, p: Path,
        refs: seq<Path>, r: Path)
    requires Building(nodes, indegree, referrers, built, p, refs)
    ensures Counts(nodes, p, r) ==>
      Building(nodes, indegree[p := indegree[p] + 1], referrers[r := Listed(referrers, r) + [p]], built, p, refs + [r])
    ensures !Counts(nodes, p, r) ==> Building(nodes, indegree, referrers, built, p, refs + [r])
  {
    hide Lines;
    assert (refs + [r])[..|refs|] == refs;
    LinesOne(nodes, referrers, built, p, refs, r);
  }

  ghost predicate Built(nodes: Nodes, indegree: map<Path, nat>, referrers: map<Path, seq<Path>>, built: set<Path>)
  {
    && indegree.Keys == built && built <= nodes.Keys
    && (forall q <- built :: indegree[q] == Pending(nodes, q, nodes[q].refs, {}))
    && forall p: Path :: Lines(nodes, referrers, built, p, [])
  }

  lemma BuildStart(nodes: Nodes, indegree: map<Path, nat>, referrers: map<Path, seq<Path>>, built: set<Path>, p: Path)
    requires Built(nodes, indegree, referrers, built) && p in nodes && p !in built
    ensures Building(nodes, indegree[p := 0], referrers, built, p, [])
  {
    hide Lines;
  }

  lemma BuildEnd(nodes: Nodes, indegree: map<Path, nat>, referrers: map<Path, seq<Path>>, built: set<Path>, p: Path)
    requires p in nodes && Building(nodes, indegree, referrers, built, p, nodes[p].refs)
    ensures Built(nodes, indegree, referrers, built + {p})
  {
    forall n: Path
      ensures Lines(nodes, referrers, built + {p}, n, [])
    {
      LinesEnd(nodes, referrers, built, p, n);
    }
  }

  lemma LinesEnd(nodes: Nodes, referrers: map<Path, seq<Path>>, built: set<Path>, p: Path, n: Path)
    requires p in nodes && p !in built && Lines(nodes, referrers, built, p, nodes[p].refs)
    ensures Lines(nodes, referrers, built + {p}, n, [])
  {
    forall r, q: Path | r in nodes
      ensures Line(nodes, referrers, built + {p}, n, [], r, q)
    {
      assert Line(nodes, referrers, built, p, nodes[p].refs, r, q);
    }
  }

  method CountRefs(nodes: Nodes) returns (indegree: map<Path, nat>, referrers: map<Path, seq<Path>>)
    ensures CountsAll(nodes, indegree, {}, multiset{}) && ListsAll(nodes, referrers, {})
  {
    hide Building, Built, Pending, Times;
    indegree, referrers := map[], map[];
    var todo := nodes.Keys;
    NothingBuilt(nodes);
    while todo != {}
      invariant todo <= nodes.Keys && Built(nodes, indegree, referrers, nodes.Keys - todo)
      decreases todo
    {
      var p :| p in todo;
      ghost var built := nodes.Keys - todo;
      BuildStart(nodes, indegree, referrers, built, p);
      indegree := indegree[p := 0];
      var refs := nodes[p].refs;
      for i := 0 to |refs|
        invariant p in indegree && Building(nodes, indegree, referrers, built, p, refs[..i])
      {
        var r := refs[i];
        assert refs[..i] + [r] == refs[..i + 1];
        BuildOne(nodes, indegree, referrers, built, p, refs[..i], r);
        if r != p && r in nodes {
          indegree := indegree[p := indegree[p] + 1];
          referrers := referrers[r := Listed(referrers, r) + [p]];
        }
      }
      assert refs[..|refs|] == refs;
      BuildEnd(nodes, indegree, referrers, built, p);
      todo := todo - {p};
      assert nodes.Keys - todo == built + {p};
    }
    assert nodes.Keys - todo == nodes.Keys;
    AllBuilt(nodes, indegree, referrers);
  }

  lemma NothingBuilt(nodes: Nodes)
    ensures Built(nodes, map[], map[], nodes.Keys - nodes.Keys)
  {
    forall p, r, q: Path | r in nodes
      ensures Line(nodes, map[], nodes.Keys - nodes.Keys, p, [], r, q)
    {}
  }

  lemma AllBuilt(nodes: Nodes, indegree: map<Path, nat>, referrers: map<Path, seq<Path>>)
    requires Built(nodes, indegree, referrers, nodes.Keys)
    ensures CountsAll(nodes, indegree, {}, multiset{}) && ListsAll(nodes, referrers, {})
  {
    hide Pending, Listed;
    assert Lines(nodes, referrers, nodes.Keys, "", []);
    forall r, q: Path | r in nodes
      ensures multiset(Listed(referrers, r))[q] == if q in nodes then Times(nodes, q, nodes[q].refs, r) else 0
    {
      assert Line(nodes, referrers, nodes.Keys, "", [], r, q);
    }
  }

  // ---- picking ----------------------------------------------------------------------------------

  /** The paths queued are those whose count is zero. */
  ghost predicate Queued(nodes: Nodes, indegree: map<Path, nat>, done: set<Path>, ready: seq<Path>)
  {
    && Distinct(ready) && (forall q <- ready :: q in nodes) && done <= nodes.Keys
    && (forall q <- nodes :: q in indegree)
    && (forall q <- nodes :: q in ready <==> q !in done && indegree[q] == 0)
    && (forall q <- done :: q in indegree && indegree[q] == 0)
  }

  /** Pop of the max-heap of (size, path). */
  method PopMax(nodes: Nodes, ready: seq<Path>) returns (p: Path, rest: seq<Path>)
    requires ready != [] && Distinct(ready) && forall q <- ready :: q in nodes
    ensures p in ready && p !in rest && Distinct(rest) && Elems(rest) == Elems(ready) - {p}
    ensures forall q <- ready :: AtMost(nodes, q, p)
  {
    var best := 0;
    MostSelf(nodes, ready[0]);
    for i := 1 to |ready|
      invariant best < i && forall k | 0 <= k < i :: AtMost(nodes, ready[k], ready[best])
    {
      MostTotal(nodes, ready[i], ready[best]);
      MostSelf(nodes, ready[i]);
      if !AtMost(nodes, ready[i], ready[best]) {
        forall k | 0 <= k < i
          ensures AtMost(nodes, ready[k], ready[i])
        {
          MostTrans(nodes, ready[k], ready[best], ready[i]);
        }
        best := i;
      }
    }
    p := ready[best];
    rest := ready[..best] + ready[best + 1..];
    Without(ready, best);
  }

  lemma Without<T>(s: seq<T>, k: nat)
    requires k < |s| && Distinct(s)
    ensures var rest := s[..k] + s[k + 1..]; Distinct(rest) && s[k] !in rest && Elems(rest) == Elems(s) - {s[k]}
  {
    var rest := s[..k] + s[k + 1..];
    assert forall i | 0 <= i < |rest| :: rest[i] == s[if i < k then i else i + 1];
    forall x | x in Elems(s) - {s[k]}
      ensures x in rest
    {
      var i :| 0 <= i < |s| && s[i] == x;
      assert rest[if i < k then i else i - 1] == x;
    }
  }

  lemma MostSelf(nodes: Nodes, a: Path)
    requires a in nodes
    ensures AtMost(nodes, a, a)
  {
    StrTotal(a, a);
  }

  lemma MostTotal(nodes: Nodes, a: Path, b: Path)
    requires a in nodes && b in nodes
    ensures AtMost(nodes, a, b) || AtMost(nodes, b, a)
  {
    StrTotal(a, b);
  }

  lemma MostTrans(nodes: Nodes, a: Path, b: Path, c: Path)
    requires a in nodes && b in nodes && c in nodes && AtMost(nodes, a, b) && AtMost(nodes, b, c)
    ensures AtMost(nodes, a, c)
  {
    if StrLe(a, b) && StrLe(b, c) { StrTrans(a, b, c); }
  }

  /** Popping makes the path's referrers owe a decrement for each mention. */
  lemma Owes(nodes: Nodes, indegree: map<Path, nat>, referrers: map<Path, seq<Path>>, done: set<Path>, p: Path)
    requires CountsAll(nodes, indegree, done, multiset{}) && ListsAll(nodes, referrers, done) && p in nodes
    requires p !in done
    ensures CountsAll(nodes, indegree, done + {p}, multiset(Listed(referrers, p)))
    ensures forall q <- Listed(referrers, p) :: q in nodes
  {
    hide Pending;
    forall q | q in nodes
      ensures indegree[q] == Pending(nodes, q, nodes[q].refs, done + {p}) + multiset(Listed(referrers, p))[q]
    {
      PendingDone(nodes, q, nodes[q].refs, done, p);
    }
    forall q | q in Listed(referrers, p)
      ensures q in nodes
    {
      assert multiset(Listed(referrers, p))[q] > 0;
    }
  }

  lemma ListsFewer(nodes: Nodes, referrers: map<Path, seq<Path>>, done: set<Path>, p: Path)
    requires ListsAll(nodes, referrers, done)
    ensures ListsAll(nodes, referrers - {p}, done + {p})
  {
    forall r, q: Path | r in nodes && r !in done + {p}
      ensures multiset(Listed(referrers - {p}, r))[q] == if q in nodes then Times(nodes, q, nodes[q].refs, r) else 0
    {
      assert Listed(referrers - {p}, r) == Listed(referrers, r);
    }
  }

  lemma PaidCounts(nodes: Nodes, indegree: map<Path, nat>, done: set<Path>, list: seq<Path>, k: nat)
    requires k < |list| && list[k] in nodes && CountsAll(nodes, indegree, done, multiset(list[k..]))
    ensures indegree[list[k]] > 0
    ensures CountsAll(nodes, indegree[list[k] := indegree[list[k]] - 1], done, multiset(list[k + 1..]))
  {
    hide Pending;
    assert list[k..] == [list[k]] + list[k + 1..];
    assert multiset(list[k..]) == multiset{list[k]} + multiset(list[k + 1..]);
  }

  lemma PaidQueued(nodes: Nodes, indegree: map<Path, nat>, done: set<Path>, q: Path, ready: seq<Path>)
    requires q in nodes && Queued(nodes, indegree, done, ready) && indegree[q] > 0
    ensures var less := indegree[q := indegree[q] - 1];
      Queued(nodes, less, done, if less[q] == 0 then ready + [q] else ready)
  {}

  /** One decrement paid. */
  lemma Paid(nodes: Nodes, indegree: map<Path, nat>, done: set<Path>, list: seq<Path>, k: nat, ready: seq<Path>)
    requires k < |list| && list[k] in nodes
    requires CountsAll(nodes, indegree, done, multiset(list[k..])) && Queued(nodes, indegree, done, ready)
    ensures indegree[list[k]] > 0
    ensures var less := indegree[list[k] := indegree[list[k]] - 1];
      && CountsAll(nodes, less, done, multiset(list[k + 1..]))
      && Queued(nodes, less, done, if less[list[k]] == 0 then ready + [list[k]] else ready)
  {
    hide Queued, Pending;
    PaidCounts(nodes, indegree, done, list, k);
    PaidQueued(nodes, indegree, done, list[k], ready);
  }

  /** Pay what is owed to the referrers of a picked path. */
  method Settle(nodes: Nodes, indegree0: map<Path, nat>, ghost done: set<Path>, list: seq<Path>,
        ready0: seq<Path>) returns (indegree: map<Path, nat>, ready: seq<Path>)
    requires CountsAll(nodes, indegree0, done, multiset(list)) && Queued(nodes, indegree0, done, ready0)
    requires forall q <- list :: q in nodes
    ensures CountsAll(nodes, indegree, done, multiset{}) && Queued(nodes, indegree, done, ready)
  {
    hide Queued, Pending;
    indegree, ready := indegree0, ready0;
    assert list[0..] == list;
    for k := 0 to |list|
      invariant CountsAll(nodes, indegree, done, multiset(list[k..])) && Queued(nodes, indegree, done, ready)
    {
      var r := list[k];
      Paid(nodes, indegree, done, list, k, ready);
      indegree := indegree[r := indegree[r] - 1];
      if indegree[r] == 0 {
        ready := ready + [r];
      }
    }
    assert list[|list|..] == [];
  }

  method FirstReady(nodes: Nodes, indegree: map<Path, nat>) returns (ready: seq<Path>)
    requires indegree.Keys == nodes.Keys
    ensures Queued(nodes, indegree, {}, ready)
  {
    ready := [];
    var todo := indegree.Keys;
    while todo != {}
      invariant todo <= nodes.Keys && Distinct(ready)
      invariant forall q :: q in ready <==> q in nodes && q !in todo && indegree[q] == 0
      decreases todo
    {
      var q :| q in todo;
      if indegree[q] == 0 {
        ready := ready + [q];
      }
      todo := todo - {q};
    }
  }

  lemma PopQueued(nodes: Nodes, indegree: map<Path, nat>, done: set<Path>, ready: seq<Path>, p: Path, rest: seq<Path>)
    requires Queued(nodes, indegree, done, ready) && p in ready
    requires p !in rest && Distinct(rest) && Elems(rest) == Elems(ready) - {p}
    ensures Queued(nodes, indegree, done + {p}, rest)
  {
    forall q
      ensures q in rest <==> q in ready && q != p
    {
      assert q in rest <==> q in Elems(rest);
      assert q in ready <==> q in Elems(ready);
    }
  }

  /** Every path picked so far was a largest one that could go. */
  ghost predicate Picking(nodes: Nodes, order: seq<Path>)
  {
    Distinct(order) && Elems(order) <= nodes.Keys && forall i | 0 <= i < |order| :: Picked(nodes, order, i)
  }

  lemma PickOne(nodes: Nodes, indegree: map<Path, nat>, order: seq<Path>, ready: seq<Path>, p: Path)
    requires Picking(nodes, order) && CountsAll(nodes, indegree, Elems(order), multiset{})
    requires Queued(nodes, indegree, Elems(order), ready)
    requires p in ready && forall q <- ready :: AtMost(nodes, q, p)
    ensures Picking(nodes, order + [p]) && Elems(order + [p]) == Elems(order) + {p}
  {
    var more := order + [p];
    assert more[..|order|] == order;
    hide Pending;
    forall i | 0 <= i < |more|
      ensures Picked(nodes, more, i)
    {
      if i < |order| {
        assert more[..i] == order[..i] && Picked(nodes, order, i);
      }
    }
  }

  /** Nothing can go: every path left refers to another one left, so it reaches a cycle. */
  lemma LeftCycles(nodes: Nodes, indegree: map<Path, nat>, done: set<Path>, p: Path)
    requires CountsAll(nodes, indegree, done, multiset{}) && Queued(nodes, indegree, done, []) && p in nodes
    requires p !in done
    ensures ReachesCycle(Within(nodes), p)
  {
    var g, left := Within(nodes), nodes.Keys - done;
    forall x | x in left
      ensures GoesOn(g, left, x)
    {
      ReadyRefs(nodes, done, x);
      var r :| r in Refs(g, x) && r !in done;
      assert r in Refs(g, x) * left;
    }
    LoopReachesCycle(g, left, p);
  }

  lemma {:induction false} LeastExists(todo: set<Path>) returns (m: Path)
    requires todo != {}
    ensures m in todo && forall x <- todo :: StrLe(m, x)
  {
    var p :| p in todo;
    StrTotal(p, p);
    if todo == {p} {
      m := p;
    } else {
      var n := LeastExists(todo - {p});
      StrTotal(p, n);
      m := if StrLe(p, n) then p else n;
      forall x | x in todo
        ensures StrLe(m, x)
      {
        if x != p && m == p { StrTrans(p, n, x); }
      }
    }
  }

  /** The rest by name. */
  method SortPaths(paths: set<Path>) returns (sorted: seq<Path>)
    ensures Distinct(sorted) && Elems(sorted) == paths && Rising(sorted)
  {
    sorted := [];
    var todo := paths;
    while todo != {}
      invariant todo <= paths && Elems(sorted) == paths - todo && Distinct(sorted) && Rising(sorted)
      invariant forall a <- sorted, b <- todo :: StrLe(a, b)
      decreases todo
    {
      ghost var least := LeastExists(todo);
      var m :| m in todo && forall x <- todo :: StrLe(m, x);
      assert m !in Elems(sorted);
      assert Elems(sorted + [m]) == Elems(sorted) + {m};
      sorted := sorted + [m];
      todo := todo - {m};
    }
  }

  lemma OrderDone(nodes: Nodes, picks: seq<Path>, rest: seq<Path>)
    requires Picking(nodes, picks) && Distinct(rest) && Elems(rest) == nodes.Keys - Elems(picks) && Rising(rest)
    requires forall q <- rest :: ReachesCycle(Within(nodes), q)
    ensures OrderedAt(nodes, picks + rest, |picks|)
  {
    var order := picks + rest;
    assert order[|picks|..] == rest;
    forall i | 0 <= i < |picks|
      ensures Picked(nodes, order, i)
    {
      assert order[..i] == picks[..i] && Picked(nodes, picks, i);
    }
    assert Elems(order) == Elems(picks) + Elems(rest);
    forall i, j | 0 <= i < j < |order|
      ensures order[i] != order[j]
    {
      if i < |picks| <= j {
        assert order[i] in Elems(picks) && order[j] in Elems(rest);
      }
    }
  }

  method OrderPaths(nodes: Nodes) returns (order: seq<Path>)
    ensures exists k :: OrderedAt(nodes, order, k)
  {
    hide Pending, Picking, OrderedAt, Queued, CountsAll, ListsAll;
    var indegree, referrers := CountRefs(nodes);
    CountKeys(nodes, indegree);
    var ready := FirstReady(nodes, indegree);
    order := [];
    NothingPicked(nodes);
    while ready != []
      invariant Picking(nodes, order) && CountsAll(nodes, indegree, Elems(order), multiset{})
      invariant ListsAll(nodes, referrers, Elems(order)) && Queued(nodes, indegree, Elems(order), ready)
      decreases |nodes.Keys - Elems(order)|
    {
      QueuedAre(nodes, indegree, Elems(order), ready);
      var p, rest := PopMax(nodes, ready);
      PickOne(nodes, indegree, order, ready, p);
      Owes(nodes, indegree, referrers, Elems(order), p);
      PopQueued(nodes, indegree, Elems(order), ready, p, rest);
      ListsFewer(nodes, referrers, Elems(order), p);
      Shrinks(nodes.Keys, Elems(order), p);
      var list := Listed(referrers, p);
      referrers := referrers - {p};
      order := order + [p];
      indegree, ready := Settle(nodes, indegree, Elems(order), list, rest);
    }
    var left := nodes.Keys - (set q | q in order);
    forall q | q in left
      ensures ReachesCycle(Within(nodes), q)
    {
      LeftCycles(nodes, indegree, Elems(order), q);
    }
    var rest := SortPaths(left);
    assert forall q <- rest :: q in Elems(rest);
    OrderDone(nodes, order, rest);
    order := order + rest;
  }

  lemma CountKeys(nodes: Nodes, indegree: map<Path, nat>)
    requires CountsAll(nodes, indegree, {}, multiset{})
    ensures indegree.Keys == nodes.Keys
  {}

  lemma NothingPicked(nodes: Nodes)
    ensures Picking(nodes, []) && Elems<Path>([]) == {}
  {}

  lemma QueuedAre(nodes: Nodes, indegree: map<Path, nat>, done: set<Path>, ready: seq<Path>)
    requires Queued(nodes, indegree, done, ready)
    ensures Distinct(ready) && forall q <- ready :: q in nodes && q !in done
  {}

  /** Later descriptions of a path replace earlier ones. */
  function Index(infos: seq<Info>): Nodes
  {
    if infos == [] then map[] else
      var i := infos[|infos| - 1];
      Index(infos[..|infos| - 1])[i.path := i]
  }

  lemma {:induction false} IndexNames(infos: seq<Info>, p: Path)
    requires p in Index(infos)
    ensures Index(infos)[p].path == p
  {
    if infos[|infos| - 1].path != p { IndexNames(infos[..|infos| - 1], p); }
  }

  function PathsOf(infos: seq<Info>): seq<Path> { seq(|infos|, i requires 0 <= i < |infos| => infos[i].path) }

  /** Each description once. No lookup fails, whatever the references are. */
  method OrderByReferences(infos: seq<Info>) returns (out: seq<Info>)
    ensures exists k :: OrderedAt(Index(infos), PathsOf(out), k)
    ensures forall i <- out :: i.path in Index(infos) && i == Index(infos)[i.path]
  {
    var nodes := Index(infos);
    var order := OrderPaths(nodes);
    out := [];
    ghost var k :| OrderedAt(nodes, order, k);
    for i := 0 to |order|
      invariant |out| == i
      invariant forall j | 0 <= j < i :: order[j] in nodes && out[j] == nodes[order[j]] && out[j].path == order[j]
    {
      assert order[i] in Elems(order);
      IndexNames(infos, order[i]);
      out := out + [nodes[order[i]]];
    }
    assert PathsOf(out) == order;
  }
}

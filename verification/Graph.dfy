/** Reference graphs: walks, cycles, and what a finite graph without cycles offers. */
module Graph {

  /** The references of `p`, its self-reference aside. */
  function Refs<T>(g: map<T, set<T>>, p: T): set<T>
  {
    if p in g then g[p] - {p} else {}
  }

  predicate Walk<T>(g: map<T, set<T>>, w: seq<T>)
  {
    |w| > 0 && forall i :: 0 < i < |w| ==> w[i] in Refs(g, w[i - 1])
  }

  predicate Cycle<T>(g: map<T, set<T>>, w: seq<T>)
  {
    Walk(g, w) && |w| > 1 && w[0] == w[|w| - 1]
  }

  /** No cycles apart from self-references. */
  ghost predicate Acyclic<T(!new)>(g: map<T, set<T>>)
  {
    forall w: seq<T> :: !Cycle(g, w)
  }

  ghost predicate Reaches<T(!new)>(g: map<T, set<T>>, p: T, q: T)
  {
    exists w: seq<T> :: Walk(g, w) && w[0] == p && w[|w| - 1] == q
  }

  ghost predicate OnCycle<T(!new)>(g: map<T, set<T>>, q: T)
  {
    exists w: seq<T> :: Cycle(g, w) && w[0] == q
  }

  ghost predicate ReachesCycle<T(!new)>(g: map<T, set<T>>, p: T)
  {
    exists q :: Reaches(g, p, q) && OnCycle(g, q)
  }

  function Elems<T>(s: seq<T>): set<T> { set x | x in s }

  predicate Distinct<T(==)>(s: seq<T>)
  {
    forall i, j :: 0 <= i < j < |s| ==> s[i] != s[j]
  }

  lemma {:induction false} DistinctFits<T>(s: seq<T>, all: set<T>)
    requires Distinct(s) && forall x <- s :: x in all
    ensures |s| <= |all|
  {
    if s != [] {
      var x := s[|s| - 1];
      DistinctFits(s[..|s| - 1], all - {x});
    }
  }

  /** `x` refers to another member of `all`. */
  predicate GoesOn<T>(g: map<T, set<T>>, all: set<T>, x: T) { Refs(g, x) * all != {} }

  lemma WalkOn<T(!new)>(g: map<T, set<T>>, w: seq<T>, next: T)
    requires Walk(g, w) && next in Refs(g, w[|w| - 1])
    ensures Walk(g, w + [next])
    ensures Distinct(w) && next !in w ==> Distinct(w + [next])
  {}

  /** A walk inside `all`, all of whose members go on inside it, has a next step there. */
  lemma StaysInside<T(!new)>(g: map<T, set<T>>, all: set<T>, w: seq<T>) returns (next: T)
    requires Walk(g, w) && Distinct(w) && forall x <- w :: x in all
    requires forall x <- all :: GoesOn(g, all, x)
    ensures Walk(g, w + [next]) && (next !in w ==> Distinct(w + [next])) && forall x <- w + [next] :: x in all
  {
    var last := w[|w| - 1];
    assert last in w && GoesOn(g, all, last);
    next :| next in Refs(g, last) * all;
    WalkOn(g, w, next);
  }

  /** Every member of `all` refers to another member, so a walk inside it must come back. */
  lemma {:induction false} WalkAround<T(!new)>(g: map<T, set<T>>, all: set<T>, w: seq<T>) returns (v: seq<T>, i: nat)
    requires Walk(g, w) && Distinct(w) && forall x <- w :: x in all
    requires forall x <- all :: GoesOn(g, all, x)
    ensures Walk(g, v) && v[0] == w[0]
    ensures i < |v| - 1 && v[i] == v[|v| - 1]
    decreases |all| - |w|
  {
    var next := StaysInside(g, all, w);
    hide Refs, GoesOn;
    v := w + [next];
    if next in w {
      i :| 0 <= i < |w| && w[i] == next;
    } else {
      DistinctFits(v, all);
      assert v[0] == w[0];
      v, i := WalkAround(g, all, v);
    }
  }

  lemma LoopReachesCycle<T(!new)>(g: map<T, set<T>>, all: set<T>, p: T)
    requires p in all && forall x <- all :: GoesOn(g, all, x)
    ensures ReachesCycle(g, p)
  {
    var v, i := WalkAround(g, all, [p]);
    assert Walk(g, v[..i + 1]) && v[..i + 1][0] == p && v[..i + 1][i] == v[i];
    assert Cycle(g, v[i..]);
    assert Reaches(g, p, v[i]) && OnCycle(g, v[i]);
  }

  /** Without cycles, some member of a non-empty set refers to no other member. */
  lemma Minimal<T(!new)>(g: map<T, set<T>>, all: set<T>) returns (p: T)
    requires Acyclic(g) && all != {}
    ensures p in all && Refs(g, p) !! all
  {
    if forall x <- all :: GoesOn(g, all, x) {
      var x :| x in all;
      LoopReachesCycle(g, all, x);
      p := x;
    } else {
      p :| p in all && !GoesOn(g, all, p);
    }
  }
}

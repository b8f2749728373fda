/**
 Keeping inputs from the garbage collector. A temp root on a valid path protects all it
 refers to, so only paths no other offered path refers to get one of their own. The plan
 comes from a database snapshot that a collection may overtake at any moment.
 */
module Pins {
  import opened StorePath
  import opened Graph
  import opened TopoOrder

  /** What each store path refers to. A path's references never change. */
  type Store = map<Path, set<Path>>

  // ---- the collector ----------------------------------------------------------------------

  /** Valid paths refer to valid paths. */
  predicate Closed(g: Store, valid: set<Path>) { forall p <- valid :: Refs(g, p) <= valid }

  /** A valid temp root reaches the path. */
  ghost predicate Held(g: Store, valid: set<Path>, roots: set<Path>, p: Path)
  {
    exists r :: r in roots && r in valid && Reaches(g, r, p)
  }

  /** Paths come and go, but nothing held goes. */
  ghost predicate Collects(g: Store, valid: set<Path>, roots: set<Path>, after: set<Path>)
  {
    Closed(g, after) && forall p :: Held(g, valid, roots, p) ==> p in after
  }

  lemma {:induction false} ClosedWalk(g: Store, valid: set<Path>, w: seq<Path>)
    requires Closed(g, valid) && Walk(g, w) && w[0] in valid
    ensures w[|w| - 1] in valid
  {
    if |w| > 1 {
      assert Walk(g, w[..|w| - 1]);
      ClosedWalk(g, valid, w[..|w| - 1]);
      assert w[|w| - 1] in Refs(g, w[|w| - 2]);
    }
  }

  lemma HeldValid(g: Store, valid: set<Path>, roots: set<Path>, p: Path)
    requires Closed(g, valid) && Held(g, valid, roots, p)
    ensures p in valid
  {
    var r :| r in roots && r in valid && Reaches(g, r, p);
    var w: seq<Path> :| Walk(g, w) && w[0] == r && w[|w| - 1] == p;
    ClosedWalk(g, valid, w);
  }

  /** What is held stays held: its root is held too. */
  lemma HeldStays(g: Store, valid: set<Path>, roots: set<Path>, after: set<Path>, more: set<Path>, p: Path)
    requires Held(g, valid, roots, p) && Collects(g, valid, roots, after) && roots <= more
    ensures Held(g, after, more, p) && p in after
  {
    var r :| r in roots && r in valid && Reaches(g, r, p);
    ReachesSelf(g, r);
    assert Held(g, valid, roots, r);
  }

  /** Any number of collections, with roots only added. */
  ghost predicate Collected(g: Store, valids: seq<set<Path>>, roots: set<Path>)
  {
    forall i | 0 < i < |valids| :: Collects(g, valids[i - 1], roots, valids[i])
  }

  /** An input held once stays valid as long as the connection, and with it the roots, lives. */
  lemma {:induction false} HeldForever(g: Store, valids: seq<set<Path>>, roots: set<Path>, p: Path, i: nat)
    requires i < |valids| && Collected(g, valids, roots) && Held(g, valids[0], roots, p) && Closed(g, valids[0])
    ensures Held(g, valids[i], roots, p) && p in valids[i]
  {
    if i == 0 {
      HeldValid(g, valids[0], roots, p);
    } else {
      HeldForever(g, valids, roots, p, i - 1);
      HeldStays(g, valids[i - 1], roots, valids[i], roots, p);
    }
  }

  // ---- the plan ----------------------------------------------------------------------------

  /** Some other snapshot path refers to it. */
  predicate Referenced(g: Store, snapshot: set<Path>, p: Path)
  {
    p in snapshot && exists q :: q in snapshot && p in Refs(g, q)
  }

  /** Climbing from referrer to referrer ends at a path without one. */
  lemma {:induction false} Climb(g: Store, snapshot: set<Path>, w: seq<Path>) returns (top: Path)
    requires Acyclic(g) && Walk(g, w) && forall x <- w :: x in snapshot
    ensures top in snapshot && !Referenced(g, snapshot, top) && Reaches(g, top, w[|w| - 1])
    decreases |snapshot| - |w|
  {
    AcyclicDistinct(g, w);
    DistinctFits(w, snapshot);
    assert w[0] in w;
    if !Referenced(g, snapshot, w[0]) {
      top := w[0];
    } else {
      var q :| q in snapshot && w[0] in Refs(g, q);
      var longer := [q] + w;
      assert Walk(g, longer) by {
        forall i | 0 < i < |longer|
          ensures longer[i] in Refs(g, longer[i - 1])
        {
          if i > 1 { assert w[i - 1] in Refs(g, w[i - 2]); }
        }
      }
      AcyclicDistinct(g, longer);
      DistinctFits(longer, snapshot);
      top := Climb(g, snapshot, longer);
    }
  }

  lemma AcyclicDistinct(g: Store, w: seq<Path>)
    requires Acyclic(g) && Walk(g, w)
    ensures Distinct(w)
  {
    forall i, j | 0 <= i < j < |w|
      ensures w[i] != w[j]
    {
      var v := w[i..j + 1];
      forall k | 0 < k < |v|
        ensures v[k] in Refs(g, v[k - 1])
      {
        assert w[i + k] in Refs(g, w[i + k - 1]);
      }
      assert !Cycle(g, v);
    }
  }

  /** Roots on the unreferenced paths of a snapshot cover all of it. */
  lemma PlanCovers(g: Store, snapshot: set<Path>, p: Path) returns (top: Path)
    requires Acyclic(g) && p in snapshot
    ensures top in snapshot && !Referenced(g, snapshot, top) && Reaches(g, top, p)
  {
    assert Walk(g, [p]);
    top := Climb(g, snapshot, [p]);
  }

  /** Of a cycle within the snapshot the plan roots no member. */
  lemma CycleUnrooted(g: Store, snapshot: set<Path>, w: seq<Path>, p: Path)
    requires Cycle(g, w) && (forall q <- w :: q in snapshot) && p in w
    ensures Referenced(g, snapshot, p)
  {
    var i :| 0 <= i < |w| && w[i] == p;
    var j := if i > 0 then i else |w| - 1;
    assert w[j] == p && w[j] in Refs(g, w[j - 1]) && w[j - 1] in w;
  }

  /** The store database: row ids of valid paths, and reference rows between ids. */
  datatype Db = Db(ids: map<Path, RowId>, refs: set<(RowId, RowId)>)

  datatype RowId = RowId(id: int)

  /** The snapshot shows these valid paths and their references. */
  predicate Shows(db: Db, g: Store, valid: set<Path>)
  {
    && db.ids.Keys == valid
    && (forall p, q | p in valid && q in valid && db.ids[p] == db.ids[q] :: p == q)
    && (forall p, q | p in valid && q in valid :: (db.ids[p], db.ids[q]) in db.refs && p != q <==> q in Refs(g, p))
  }

  /** plan_pins: what to root, and what the database called valid. */
  method PlanPins(db: Db, offered: seq<Path>, ghost g: Store, ghost valid: set<Path>) returns (pins: set<Path>,
        dbValid: set<Path>)
    requires Shows(db, g, valid)
    ensures dbValid == Elems(offered) * valid
    ensures forall p :: p in pins <==> p in offered && !Referenced(g, dbValid, p)
  {
    var idToPath;
    idToPath, dbValid := FindValid(db, offered, g, valid);
    var referenced := FindReferenced(db, g, valid, dbValid, idToPath);
    pins := set p | p in offered && p !in referenced;
  }

  /** The offered paths the database knows, by row. */
  predicate Rows(db: Db, dbValid: set<Path>, idToPath: map<RowId, Path>)
  {
    && (forall p <- dbValid :: p in db.ids && db.ids[p] in idToPath && idToPath[db.ids[p]] == p)
    && (forall id <- idToPath :: idToPath[id] in dbValid && idToPath[id] in db.ids && db.ids[idToPath[id]] == id)
  }

  method FindValid(db: Db, offered: seq<Path>, ghost g: Store,
        ghost valid: set<Path>) returns (idToPath: map<RowId, Path>, dbValid: set<Path>)
    requires Shows(db, g, valid)
    ensures dbValid == Elems(offered) * valid && Rows(db, dbValid, idToPath)
  {
    idToPath, dbValid := map[], {};
    for i := 0 to |offered|
      invariant dbValid == Elems(offered[..i]) * valid && Rows(db, dbValid, idToPath)
    {
      var p := offered[i];
      assert offered[..i + 1] == offered[..i] + [p];
      if p in db.ids {
        dbValid := dbValid + {p};
        idToPath := idToPath[db.ids[p] := p];
      }
    }
    assert offered[..|offered|] == offered;
  }

  method FindReferenced(db: Db, ghost g: Store, ghost valid: set<Path>, ghost dbValid: set<Path>,
        idToPath: map<RowId, Path>) returns (referenced: set<Path>)
    requires Shows(db, g, valid) && dbValid <= valid && Rows(db, dbValid, idToPath)
    ensures forall p :: p in referenced <==> Referenced(g, dbValid, p)
  {
    hide Shows;
    referenced := {};
    var todo := idToPath.Keys;
    ghost var done: set<Path> := {};
    while todo != {}
      invariant todo <= idToPath.Keys && done <= dbValid && (forall q <- dbValid :: q in done <==> db.ids[q] !in todo)
      invariant forall p :: p in referenced <==> p in dbValid && exists q :: q in done && p in Refs(g, q)
      decreases todo
    {
      var id :| id in todo;
      var rows := set r | r in db.refs && r.0 == id && r.1 != id :: r.1;
      RowsShow(db, g, valid, dbValid, idToPath, id);
      referenced := referenced + set r | r in rows && r in idToPath :: idToPath[r];
      todo, done := todo - {id}, done + {idToPath[id]};
    }
    assert done == dbValid;
  }

  lemma RowsShow(db: Db, g: Store, valid: set<Path>, dbValid: set<Path>, idToPath: map<RowId, Path>, id: RowId)
    requires Shows(db, g, valid) && dbValid <= valid && id in idToPath && Rows(db, dbValid, idToPath)
    ensures var rows := set r | r in db.refs && r.0 == id && r.1 != id :: r.1;
      (set r | r in rows && r in idToPath :: idToPath[r]) == Refs(g, idToPath[id]) * dbValid
  {
    var rows := set r | r in db.refs && r.0 == id && r.1 != id :: r.1;
    var from := idToPath[id];
    forall p
      ensures p in (set r | r in rows && r in idToPath :: idToPath[r]) <==> p in Refs(g, from) * dbValid
    {
      if p in Refs(g, from) * dbValid {
        var r := db.ids[p];
        assert (id, r) in db.refs && r in rows && idToPath[r] == p;
      }
      if r :| r in rows && r in idToPath && idToPath[r] == p {
        assert (id, r) in db.refs;
      }
    }
  }

  // ---- the check ------------------------------------------------------------------------------

  /** A daemon connection. Its temp roots live as long as it does. */
  class Daemon {
    ghost const g: Store
    var valid: set<Path>
    var roots: set<Path>

    ghost predicate Valid()
      reads this
    {
      Closed(g, valid)
    }

    constructor (ghost g: Store, valid: set<Path>)
      requires Closed(g, valid)
      ensures this.g == g && Valid() && this.valid == valid && roots == {}
    {
      this.g, this.valid, roots := g, valid, {};
    }

    /** A collection, and whatever else happens to the store meanwhile. */
    method Meanwhile(after: set<Path>)
      requires Valid() && Collects(g, valid, roots, after)
      modifies this`valid
      ensures Valid() && valid == after
    {
      valid := after;
    }

    /** A root on a path protects it from the next collection on, if it is still valid. */
    method AddTempRoot(p: Path)
      requires Valid()
      modifies this`roots
      ensures roots == old(roots) + {p}
    {
      roots := roots + {p};
    }

    method QueryValid(paths: set<Path>) returns (r: set<Path>)
      ensures r == paths * valid
    {
      r := paths * valid;
    }
  }

  /** What others do to the store, given its state. */
  ghost predicate Collector(g: Store, gc: (nat, set<Path>, set<Path>) -> set<Path>)
  {
    forall n: nat, valid: set<Path>, roots: set<Path> ::
      Closed(g, valid) ==> Collects(g, valid, roots, gc(n, valid, roots))
  }

  /** Root those of the paths that are in `which`, with a collection before each. */
  method RootAll(daemon: Daemon, gc: (nat, set<Path>, set<Path>) -> set<Path>, clock0: nat, offered: seq<Path>,
        which: set<Path>) returns (clock: nat)
    requires daemon.Valid() && Collector(daemon.g, gc)
    modifies daemon
    ensures daemon.Valid() && daemon.roots == old(daemon.roots) + Elems(offered) * which
  {
    clock := clock0;
    for i := 0 to |offered|
      invariant daemon.Valid() && daemon.roots == old(daemon.roots) + Elems(offered[..i]) * which
    {
      daemon.Meanwhile(gc(clock, daemon.valid, daemon.roots));
      clock := clock + 1;
      assert offered[..i + 1] == offered[..i] + [offered[i]];
      if offered[i] in which {
        daemon.AddTempRoot(offered[i]);
      }
    }
    assert offered[..|offered|] == offered;
    daemon.Meanwhile(gc(clock, daemon.valid, daemon.roots));
    clock := clock + 1;
  }

  /** The database could be read, or not. */
  datatype Plan = NoPlan | Plan(pins: set<Path>, dbValid: set<Path>)

  /**
   The inputs a build may use, collections running at any point in between. Each is held by
   a temp root when this returns, so it outlives every later collection.
   */
  method CheckInputs(daemon: Daemon, gc: (nat, set<Path>, set<Path>) -> set<Path>, offered: seq<Path>, db: Db,
        readable: bool) returns (inputs: set<Path>)
    requires daemon.Valid() && Collector(daemon.g, gc) && Acyclic(daemon.g) && Shows(db, daemon.g, daemon.valid)
    modifies daemon
    ensures daemon.Valid() && inputs == Elems(offered) * daemon.valid
    ensures forall p <- inputs :: Held(daemon.g, daemon.valid, daemon.roots, p)
  {
    hide Held, Acyclic, Collector;
    ghost var g, was := daemon.g, daemon.valid;
    var plan := NoPlan;
    if readable {
      var pins, dbValid := PlanPins(db, offered, g, daemon.valid);
      plan := Plan(pins, dbValid);
    }
    var all := set p | p in offered;
    var clock := RootAll(daemon, gc, 0, offered, if plan.Plan? then plan.pins else all);
    inputs := daemon.QueryValid(all);
    if plan.Plan? && exists p :: p in plan.dbValid && p !in inputs {
      clock := RootAll(daemon, gc, clock, offered, all);
      inputs := daemon.QueryValid(all);
    }
    forall p | p in inputs
      ensures Held(g, daemon.valid, daemon.roots, p)
    {
      if p in daemon.roots {
        Rooted1(g, daemon.valid, daemon.roots, p);
      } else {
        Covers(g, Elems(offered) * was, daemon.valid, daemon.roots, p);
      }
    }
  }

  lemma Rooted1(g: Store, valid: set<Path>, roots: set<Path>, p: Path)
    requires p in roots && p in valid
    ensures Held(g, valid, roots, p)
  {
    ReachesSelf(g, p);
  }

  /** No snapshot path was collected: those without a referrer are rooted and reach the rest. */
  lemma Covers(g: Store, snapshot: set<Path>, valid: set<Path>, roots: set<Path>, p: Path)
    requires Acyclic(g) && snapshot <= valid && p in snapshot
    requires forall q <- snapshot :: !Referenced(g, snapshot, q) ==> q in roots
    ensures Held(g, valid, roots, p)
  {
    var top := PlanCovers(g, snapshot, p);
  }
}

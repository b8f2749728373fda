/**
 Parked imports. The daemon refuses a path whose references are not valid, so a complete path
 waits until they are staged, and is tried again whenever something was staged.
 */
module Parking {
  import opened StorePath
  import opened Graph
  import opened Claims
  import opened ClaimsSafety
  import opened Tickets

  /** What keeps a complete path from being imported. */
  datatype Block = Free | On(path: Path) | Outside(path: Path)

  /** The complete paths whose references are all staged. */
  function Startable(refs: map<Path, set<Path>>, x: Build): set<Path>
  {
    set p | p in x.pending && p in x.complete && Refs(refs, p) <= x.Staged()
  }

  function Handed(x: Build, ps: set<Path>): Build { x.(pending := x.pending - ps, running := x.running + ps) }

  /** These paths of a build are with the import pool. */
  function Dispatched(s: State, b: nat, ps: set<Path>): State
    requires b < |s.builds|
  {
    s.(builds := s.builds[b := Handed(s.builds[b], ps)])
  }

  /** Every path of the build that can start is with the import pool. */
  function Started(refs: map<Path, set<Path>>, s: State, b: nat): State
    requires b < |s.builds|
  {
    Dispatched(s, b, Startable(refs, s.builds[b]))
  }

  lemma NothingDispatched(s: State, b: nat)
    requires b < |s.builds|
    ensures Dispatched(s, b, {}) == s
  {
    assert Handed(s.builds[b], {}) == s.builds[b];
  }

  lemma DispatchedOn(c: Config, s: State, b: nat, ps: set<Path>, p: Path)
    requires b < |s.builds| && Enabled(c, Dispatched(s, b, ps), Dispatch(b, p))
    ensures Next(c, Dispatched(s, b, ps), Dispatch(b, p)) == Dispatched(s, b, ps + {p})
  {
    var x := s.builds[b];
    assert x.pending - ps - {p} == x.pending - (ps + {p}) && x.running + ps + {p} == x.running + (ps + {p});
  }

  // ---- the lists while they are worked through -----------------------------------------------------

  /** Each complete path is parked, still to be looked at now, or later. A parked one lacks a reference. */
  predicate Listed(refs: map<Path, set<Path>>, x: Build, parked: set<Path>, queue: set<Path>, later: set<Path>)
  {
    && x.pending * x.complete == parked + queue + later && parked !! queue && parked + queue !! later
    && forall p <- parked :: !(Refs(refs, p) <= x.Staged())
  }

  lemma ListedPark(refs: map<Path, set<Path>>, x: Build, parked: set<Path>, queue: set<Path>, later: set<Path>, p: Path)
    requires Listed(refs, x, parked, queue, later) && p in queue && !(Refs(refs, p) <= x.Staged())
    ensures Listed(refs, x, parked + {p}, queue - {p}, later)
  {}

  /** A path starts, and all parked ones are looked at again. */
  lemma ListedStart(refs: map<Path, set<Path>>, x: Build, parked: set<Path>, queue: set<Path>, later: set<Path>,
        p: Path)
    requires Listed(refs, x, parked, queue, later) && p in queue
    ensures Listed(refs, Handed(x, {p}), {}, queue - {p} + parked, later)
  {}

  /** Once nothing is left to look at, exactly what could start was started, and nothing more can. */
  lemma AllStarted(refs: map<Path, set<Path>>, x: Build, ps: set<Path>, parked: set<Path>)
    requires ps <= Startable(refs, x) && Listed(refs, Handed(x, ps), parked, {}, {})
    ensures ps == Startable(refs, x) && Startable(refs, Handed(x, ps)) == {}
  {
    forall p | p in Startable(refs, x)
      ensures p in ps
    {
      assert p in ps || p in Handed(x, ps).pending * Handed(x, ps).complete;
    }
  }

  lemma DispatchLeaves(refs: map<Path, set<Path>>, s: State, b: nat, p: Path, k: Book, f: Fields)
    requires Leaves(refs, s, b, k, f) && s.builds[b].phase == Staging && p in Startable(refs, s.builds[b])
    ensures Enabled(Eager(refs), s, Dispatch(b, p))
    ensures Leaves(refs, Next(Eager(refs), s, Dispatch(b, p)), b, k,
      f.(pending := f.pending - {p}, imports := f.imports + {p}))
  {
    var c := Eager(refs);
    InvStep(c, s, Dispatch(b, p));
    DispatchAgrees(c, s, b, p, k);
    hide Inv, TicketsOk, Agrees, Acyclic;
  }

  lemma DeliverLeaves(refs: map<Path, set<Path>>, s: State, b: nat, p: Path, k: Book, f: Fields)
    requires Leaves(refs, s, b, k, f) && s.builds[b].phase == Staging && p in f.pending && p !in s.builds[b].complete
    ensures Enabled(Eager(refs), s, Deliver(b, p))
    ensures Leaves(refs, Next(Eager(refs), s, Deliver(b, p)), b, k, f)
  {
    var c := Eager(refs);
    InvStep(c, s, Deliver(b, p));
    DeliverAgrees(c, s, b, p, k);
    hide Inv, TicketsOk, Agrees, Acyclic;
  }

  lemma DeliverAgrees(c: Config, s: State, b: nat, p: Path, k: Book)
    requires Enabled(c, s, Deliver(b, p)) && Agrees(s, k)
    ensures Agrees(Next(c, s, Deliver(b, p)), k)
  {
    forall n: nat | n < |k.tickets|
      ensures TicketOk(Next(c, s, Deliver(b, p)), k.tickets[n], k.holders[n])
    {
      assert TicketOk(s, k.tickets[n], k.holders[n]);
    }
  }

  /** A reference of a path in the input closure is staged, or this build has or awaits it. */
  lemma RefKnown(c: Config, s: State, b: nat, p: Path, r: Path)
    requires Inv(c, s) && b < |s.builds| && s.builds[b].phase == Staging && p in s.builds[b].pending
      && r in Refs(c.refs, p)
    ensures var x := s.builds[b]; r in x.Staged() || r in x.pending || r in x.running || r in x.waits
  {
    InvBuild(c, s, b);
    hide Inv;
    assert p in s.builds[b].closure;
  }

  /** The events lead from one state to the other. */
  predicate Run(c: Config, s: State, es: seq<Event>, t: State)
    decreases |es|
  {
    if es == [] then s == t else Enabled(c, s, es[0]) && Run(c, Next(c, s, es[0]), es[1..], t)
  }

  /** What can start is started by steps of the staging model, in any order. */
  lemma {:induction false} StartedByOne(c: Config, s: State, b: nat, ps: set<Path>) returns (es: seq<Event>)
    requires b < |s.builds| && s.builds[b].phase == Staging && ps <= Startable(c.refs, s.builds[b])
    ensures Run(c, s, es, Dispatched(s, b, ps)) && forall e <- es :: e.Dispatch? && e.b == b
    decreases ps
  {
    NothingDispatched(s, b);
    es := [];
    if ps != {} {
      var p :| p in ps;
      assert Enabled(c, s, Dispatch(b, p));
      DispatchedOn(c, s, b, {}, p);
      assert {} + {p} == {p};
      var t := Dispatched(s, b, {p});
      assert t.builds[b].Staged() == s.builds[b].Staged();
      var rest := StartedByOne(c, t, b, ps - {p});
      DispatchedJoin(s, b, p, ps);
      es := [Dispatch(b, p)] + rest;
      assert es[1..] == rest;
    }
  }

  lemma DispatchedJoin(s: State, b: nat, p: Path, ps: set<Path>)
    requires b < |s.builds| && p in ps
    ensures Dispatched(Dispatched(s, b, {p}), b, ps - {p}) == Dispatched(s, b, ps)
  {
    var x := s.builds[b];
    assert x.pending - {p} - (ps - {p}) == x.pending - ps && x.running + {p} + (ps - {p}) == x.running + ps;
  }

  // ---- what other steps do to complete paths ---------------------------------------------------------

  /** Settled waits and ended imports leave the complete paths the build still has to start as they were. */
  lemma CompleteKept(c: Config, s: State, e: Event)
    requires Inv(c, s) && Enabled(c, s, e) && (e.Resolve? || e.Import? || e.Restage?)
    ensures var x, y := s.builds[e.b], Next(c, s, e).builds[e.b];
      y.phase == Staging && y.pending * y.complete == x.pending * x.complete
    ensures e.Resolve? && ClaimOf(s, s.builds[e.b].waits[e.p], e.p) != Done ==>
      Next(c, s, e).builds[e.b].Staged() == s.builds[e.b].Staged()
  {
    InvBuild(c, s, e.b);
    if e.Import? { ImportAccepted(c, s, e.b, e.p); }
    hide Inv;
  }

  /** Nothing can start, so starting everything changes nothing. */
  lemma RestStays(refs: map<Path, set<Path>>, s: State, b: nat, parked: set<Path>)
    requires b < |s.builds| && Listed(refs, s.builds[b], parked, {}, {})
    ensures Started(refs, s, b) == s
  {
    assert Startable(refs, s.builds[b]) == {};
    NothingDispatched(s, b);
  }

  lemma ListedSame(refs: map<Path, set<Path>>, x: Build, y: Build, parked: set<Path>)
    requires Listed(refs, x, parked, {}, {}) && y.pending * y.complete == x.pending * x.complete
      && y.Staged() == x.Staged()
    ensures Listed(refs, y, parked, {}, {})
  {}

  /** A path that is complete now joins what is to be looked at. */
  lemma ListedDeliver(refs: map<Path, set<Path>>, x: Build, parked: set<Path>, p: Path)
    requires Listed(refs, x, parked, {}, {}) && p in x.pending && p !in x.complete
    ensures Listed(refs, x.(complete := x.complete + {p}), parked, {p}, {})
  {}

  lemma ListedAll(refs: map<Path, set<Path>>, x: Build, parked: set<Path>)
    requires parked == x.pending * x.complete
    ensures Listed(refs, x, {}, {}, parked)
  {}

  lemma ListedNext(refs: map<Path, set<Path>>, x: Build, parked: set<Path>, later: set<Path>, p: Path)
    requires Listed(refs, x, parked, {}, later) && p in later
    ensures Listed(refs, x, parked, {p}, later - {p})
  {}

  /** Before the offer is taken and after the build is left nothing is complete and pending. */
  lemma ListedNone(refs: map<Path, set<Path>>, x: Build)
    requires x.pending * x.complete == {}
    ensures Listed(refs, x, {}, {}, {})
  {}

  lemma NothingComplete(c: Config, s: State, b: nat, seen: set<Path>)
    requires Inv(c, s) && Enabled(c, s, Negotiate(b, seen))
    ensures Next(c, s, Negotiate(b, seen)).builds[b].complete == {}
  {
    InvBuild(c, s, b);
  }

  lemma CancelPending(c: Config, s: State, b: nat)
    requires Enabled(c, s, Cancel(b))
    ensures Next(c, s, Cancel(b)).builds[b].pending == {}
  {}

  lemma RestagedStaged(x: Build, y: Build)
    requires y.inputs == x.inputs && y.done == x.done
    ensures y.Staged() == x.Staged()
  {}

  lemma ListedComplete(refs: map<Path, set<Path>>, x: Build, parked: set<Path>)
    requires Listed(refs, x, parked, {}, {})
    ensures parked == x.pending * x.complete
  {}

  lemma LeavesPending(refs: map<Path, set<Path>>, s: State, b: nat, k: Book, f: Fields)
    requires Leaves(refs, s, b, k, f)
    ensures f.pending == s.builds[b].pending && f.inputs == s.builds[b].Staged()
  {}

  lemma SoundInv(refs: map<Path, set<Path>>, s: State, k: Book)
    requires Sound(refs, s, k)
    ensures Inv(Eager(refs), s)
  {}

  /** The ticket watched has settled, so the wait can be resolved. */
  lemma WaitSettled(refs: map<Path, set<Path>>, s: State, b: nat, p: Path, k: Book, f: Fields)
    requires Leaves(refs, s, b, k, f) && s.builds[b].phase == Staging
    requires p in f.waits && f.waits[p] < |k.tickets| && k.tickets[f.waits[p]] != Running
    ensures Inv(Eager(refs), s) && Enabled(Eager(refs), s, Resolve(b, p))
    ensures ClaimOf(s, s.builds[b].waits[p], p) == k.tickets[f.waits[p]]
  {
    WaitEnabled(refs, s, b, p, k, f);
  }

  /** A path about to be looked at is pending and complete, and none of its references is unknown. */
  lemma Looked(refs: map<Path, set<Path>>, s: State, b: nat, k: Book, f: Fields,
      parked: set<Path>, queue: set<Path>, later: set<Path>, p: Path)
    requires Leaves(refs, s, b, k, f) && s.builds[b].phase == Staging
    requires Listed(refs, s.builds[b], parked, queue, later) && p in queue
    ensures p in f.pending && p in s.builds[b].complete && f.inputs == s.builds[b].Staged()
      && f.pending == s.builds[b].pending
    ensures p in Startable(refs, s.builds[b]) <==> Refs(refs, p) <= f.inputs
    ensures Refs(refs, p) <= f.inputs + f.pending + f.imports + f.waits.Keys
  {
    assert p in s.builds[b].pending * s.builds[b].complete;
    forall r | r in Refs(refs, p)
      ensures r in f.inputs + f.pending + f.imports + f.waits.Keys
    {
      RefKnown(Eager(refs), s, b, p, r);
    }
  }

  /** What can start now could start at first. */
  lemma StartableOn(refs: map<Path, set<Path>>, s: State, b: nat, ps: set<Path>, p: Path)
    requires b < |s.builds| && p in Startable(refs, Dispatched(s, b, ps).builds[b])
    ensures p in Startable(refs, s.builds[b])
  {}

  lemma StartableEnabled(refs: map<Path, set<Path>>, s: State, b: nat, p: Path)
    requires b < |s.builds| && s.builds[b].phase == Staging && p in Startable(refs, s.builds[b])
    ensures Enabled(Eager(refs), s, Dispatch(b, p))
  {}

  lemma DispatchedOne(s: State, b: nat, ps: set<Path>, p: Path)
    requires b < |s.builds|
    ensures Dispatched(s, b, ps + {p}).builds[b] == Handed(Dispatched(s, b, ps).builds[b], {p})
  {
    var x := s.builds[b];
    assert x.pending - ps - {p} == x.pending - (ps + {p}) && x.running + ps + {p} == x.running + (ps + {p});
  }

  lemma SmallerBy(a: set<Path>, p: Path)
    requires p in a
    ensures |a - {p}| < |a|
  {
    assert a == a - {p} + {p};
  }
}

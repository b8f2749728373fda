/** Staging with claims is safe, never wedges and always ends. */
module ClaimsSafety {
  import opened StorePath
  import opened Graph
  import opened Claims

  // ---- the invariant is kept --------------------------------------------------

  /** A step rewrites one build. The others only notice whether it still owns what they wait on. */
  lemma OneBuildChanged(c: Config, s: State, t: State, b: nat, y: Build)
    requires Inv(c, s) && b < |s.builds| && t.builds == s.builds[b := y]
    requires s.valid <= t.valid && Closed(c.refs, t.valid) && ClaimShape(t)
    requires BuildShape(c, t.valid, y) && WaitShape(t, b)
    requires y.phase != Init
    requires y.phase == Staging && s.builds[b].phase != Init ==>
      s.builds[b].phase == Staging && s.builds[b].Owned() <= y.Owned()
    ensures Inv(c, t)
  {
    forall i: nat
      ensures BuildOk(c, t, i)
    {
      if i != b && i < |t.builds| {
        assert BuildOk(c, s, i);
      }
    }
  }

  lemma NegotiateClaims(c: Config, s: State, b: nat, seen: set<Path>)
    requires ClaimShape(s) && b < |s.builds|
    requires s.builds[b] == Build(s.builds[b].closure, Init, {}, {}, {}, {}, {}, map[], 0)
    ensures ClaimShape(NegotiateStep(s, b, seen))
  {
    var t := NegotiateStep(s, b, seen);
    var mine := t.builds[b].pending;
    assert t.claim.Keys == s.claim.Keys + mine && mine !! s.claim.Keys;
    assert forall p <- s.claim :: s.claim[p] != b && t.claim[p] == s.claim[p];
    assert forall p <- mine :: t.claim[p] == b;
    forall i, p | 0 <= i < |t.builds| && p in t.builds[i].pending + t.builds[i].running
      ensures p in t.claim && t.claim[p] == i
    {
      if i != b { assert t.builds[i] == s.builds[i]; }
    }
  }

  lemma NegotiateInv(c: Config, s: State, b: nat, seen: set<Path>)
    requires Inv(c, s) && Enabled(c, s, Negotiate(b, seen))
    ensures Inv(c, NegotiateStep(s, b, seen))
  {
    var t := NegotiateStep(s, b, seen);
    var y := t.builds[b];
    assert BuildOk(c, s, b);
    NegotiateClaims(c, s, b, seen);
    assert BuildShape(c, t.valid, y);
    OneBuildChanged(c, s, t, b, y);
  }

  /** A build that keeps its paths keeps everyone's claims in order. */
  lemma ClaimsKept(s: State, t: State, b: nat, y: Build)
    requires ClaimShape(s) && b < |s.builds| && s.builds[b].phase == Staging
    requires t.builds == s.builds[b := y] && t.claim == s.claim && y.phase == Staging
    requires s.builds[b].Owned() <= y.Owned() && y.pending + y.running <= s.builds[b].pending + s.builds[b].running
    ensures ClaimShape(t)
  {}

  lemma ClaimsReleased(s: State, t: State, b: nat, y: Build)
    requires ClaimShape(s) && b < |s.builds|
    requires t.builds == s.builds[b := y] && t.claim == Release(s.claim, b)
    requires y.pending == {} && y.running == {}
    ensures ClaimShape(t)
  {}

  lemma DeliverInv(c: Config, s: State, b: nat, p: Path)
    requires Inv(c, s) && Enabled(c, s, Deliver(b, p))
    ensures Inv(c, Next(c, s, Deliver(b, p)))
  {
    var t := Next(c, s, Deliver(b, p));
    assert BuildOk(c, s, b);
    ClaimsKept(s, t, b, t.builds[b]);
    OneBuildChanged(c, s, t, b, t.builds[b]);
  }

  lemma DispatchShape(c: Config, valid: set<Path>, x: Build, p: Path)
    requires BuildShape(c, valid, x) && x.phase == Staging
    requires p in x.pending && p in x.complete && Refs(c.refs, p) <= x.Staged()
    ensures BuildShape(c, valid, x.(pending := x.pending - {p}, running := x.running + {p}))
    ensures x.(pending := x.pending - {p}, running := x.running + {p}).Owned() == x.Owned()
  {}

  lemma DispatchInv(c: Config, s: State, b: nat, p: Path)
    requires Inv(c, s) && Enabled(c, s, Dispatch(b, p))
    ensures Inv(c, Next(c, s, Dispatch(b, p)))
  {
    var t := Next(c, s, Dispatch(b, p));
    assert BuildOk(c, s, b);
    DispatchShape(c, s.valid, s.builds[b], p);
    ClaimsKept(s, t, b, t.builds[b]);
    OneBuildChanged(c, s, t, b, t.builds[b]);
  }

  lemma RestageShape(c: Config, valid: set<Path>, x: Build, p: Path)
    requires BuildShape(c, valid, x) && x.phase == Staging && p in x.running && x.retries < c.maxRetries
    ensures var y := x.(running := x.running - {p}, pending := x.pending + {p},
      complete := x.complete - {p}, retries := x.retries + 1);
      BuildShape(c, valid, y) && y.Owned() == x.Owned()
  {}

  lemma RestageInv(c: Config, s: State, b: nat, p: Path)
    requires Inv(c, s) && Enabled(c, s, Restage(b, p))
    ensures Inv(c, Next(c, s, Restage(b, p)))
  {
    var t := Next(c, s, Restage(b, p));
    assert BuildOk(c, s, b);
    RestageShape(c, s.valid, s.builds[b], p);
    ClaimsKept(s, t, b, t.builds[b]);
    OneBuildChanged(c, s, t, b, t.builds[b]);
  }

  /** An import handed to the pool has its references valid, so the daemon takes it. */
  lemma ImportAccepted(c: Config, s: State, b: nat, p: Path)
    requires Inv(c, s) && Enabled(c, s, Import(b, p))
    ensures Refs(c.refs, p) <= s.valid
  {
    assert BuildOk(c, s, b);
  }

  lemma ImportInv(c: Config, s: State, b: nat, p: Path)
    requires Inv(c, s) && Enabled(c, s, Import(b, p))
    ensures Inv(c, ImportStep(c, s, b, p))
  {
    var t := ImportStep(c, s, b, p);
    var y := t.builds[b];
    ImportAccepted(c, s, b, p);
    assert BuildOk(c, s, b);
    assert y.Owned() == s.builds[b].Owned();
    assert BuildShape(c, t.valid, y);
    ImportClaims(c, s, b, p);
    OneBuildChanged(c, s, t, b, y);
  }

  lemma ImportClaims(c: Config, s: State, b: nat, p: Path)
    requires Inv(c, s) && Enabled(c, s, Import(b, p)) && Refs(c.refs, p) <= s.valid
    ensures ClaimShape(ImportStep(c, s, b, p))
  {
    var t := ImportStep(c, s, b, p);
    assert BuildOk(c, s, b);
    assert s.claim[p] == b;
    if !c.eager { ClaimsKept(s, t, b, t.builds[b]); }
  }

  /** The owner finished the import, so the waiter has an input. */
  lemma ResolveDone(c: Config, s: State, b: nat, p: Path)
    requires Inv(c, s) && Enabled(c, s, Resolve(b, p)) && ClaimOf(s, s.builds[b].waits[p], p) == Done
    ensures Inv(c, ResolveStep(s, b, p))
  {
    var t := ResolveStep(s, b, p);
    var x, y := s.builds[b], t.builds[b];
    assert BuildOk(c, s, b);
    assert BuildOk(c, s, x.waits[p]);
    ClaimsKept(s, t, b, y);
    OneBuildChanged(c, s, t, b, y);
  }

  lemma FollowShape(c: Config, valid: set<Path>, x: Build, p: Path, o: nat)
    requires BuildShape(c, valid, x) && x.phase == Staging && p in x.waits
    ensures BuildShape(c, valid, x.(waits := x.waits[p := o]))
  {
    assert x.waits[p := o].Keys == x.waits.Keys;
  }

  lemma FollowWaits(s: State, b: nat, p: Path)
    requires ClaimShape(s) && b < |s.builds| && WaitShape(s, b)
    requires p in s.claim && p !in s.builds[b].Owned()
    ensures WaitShape(s.(builds := s.builds[b := s.builds[b].(waits := s.builds[b].waits[p := s.claim[p]])]), b)
  {
    assert s.claim[p] != b;
  }

  lemma TakeoverShape(c: Config, valid: set<Path>, x: Build, p: Path)
    requires BuildShape(c, valid, x) && x.phase == Staging && p in x.waits
    ensures BuildShape(c, valid, x.(pending := x.pending + {p}, waits := x.waits - {p}))
  {
    assert (x.waits - {p}).Keys == x.waits.Keys - {p};
  }

  /** Another build claimed the path again, so the waiter follows that claim. */
  lemma ResolveFollow(c: Config, s: State, b: nat, p: Path)
    requires Inv(c, s) && Enabled(c, s, Resolve(b, p)) && ClaimOf(s, s.builds[b].waits[p], p) == Failed && p in s.claim
    ensures Inv(c, ResolveStep(s, b, p))
  {
    var x := s.builds[b];
    var y := x.(waits := x.waits[p := s.claim[p]]);
    var t := s.(builds := s.builds[b := y]);
    assert BuildOk(c, s, b);
    FollowShape(c, s.valid, x, p, s.claim[p]);
    FollowWaits(s, b, p);
    ClaimsKept(s, t, b, y);
    OneBuildChanged(c, s, t, b, y);
  }

  lemma TakeoverClaims(s: State, b: nat, p: Path)
    requires ClaimShape(s) && b < |s.builds| && s.builds[b].phase == Staging && p !in s.claim
    ensures ClaimShape(s.(builds := s.builds[b := s.builds[b].(pending := s.builds[b].pending + {p},
                                                               waits := s.builds[b].waits - {p})],
                          claim := s.claim[p := b]))
  {}

  /** Nobody has the path any more, so the waiter takes it over. */
  lemma ResolveTakeover(c: Config, s: State, b: nat, p: Path)
    requires Inv(c, s) && Enabled(c, s, Resolve(b, p)) && ClaimOf(s, s.builds[b].waits[p], p) == Failed && p !in s.claim
    ensures Inv(c, ResolveStep(s, b, p))
  {
    var t := ResolveStep(s, b, p);
    var x, y := s.builds[b], t.builds[b];
    assert BuildOk(c, s, b);
    TakeoverClaims(s, b, p);
    TakeoverShape(c, s.valid, x, p);
    assert WaitShape(t, b);
    OneBuildChanged(c, s, t, b, y);
  }

  lemma LeaveInv(c: Config, s: State, e: Event)
    requires Inv(c, s) && Enabled(c, s, e) && (e.Finish? || e.Cancel?)
    ensures Inv(c, Next(c, s, e))
  {
    var t := Next(c, s, e);
    var y := t.builds[e.b];
    assert BuildOk(c, s, e.b);
    ClaimsReleased(s, t, e.b, y);
    OneBuildChanged(c, s, t, e.b, y);
  }

  lemma InvStep(c: Config, s: State, e: Event)
    requires Inv(c, s) && Enabled(c, s, e)
    ensures Inv(c, Next(c, s, e))
  {
    match e {
      case Negotiate(b, seen) => NegotiateInv(c, s, b, seen);
      case Restage(b, p) => RestageInv(c, s, b, p);
      case Import(b, p) => ImportInv(c, s, b, p);
      case Resolve(b, p) =>
        if ClaimOf(s, s.builds[b].waits[p], p) == Done { ResolveDone(c, s, b, p); }
        else if p in s.claim { ResolveFollow(c, s, b, p); }
        else { ResolveTakeover(c, s, b, p); }
      case Finish(_) => LeaveInv(c, s, e);
      case Cancel(_) => LeaveInv(c, s, e);
      case Deliver(b, p) => DeliverInv(c, s, b, p);
      case Dispatch(b, p) => DispatchInv(c, s, b, p);
    }
  }

  lemma StartInv(c: Config, s: State)
    requires Start(c, s)
    ensures Inv(c, s)
  {
    forall b: nat
      ensures BuildOk(c, s, b)
    {
      if b < |s.builds| { assert s.builds[b] in s.builds; }
    }
  }

  lemma InvStepTo(c: Config, s: State, t: State)
    requires Inv(c, s) && Step(c, s, t)
    ensures Inv(c, t)
  {
    var e :| Enabled(c, s, e) && t == Next(c, s, e);
    InvStep(c, s, e);
  }

  lemma {:induction false} InvRun(c: Config, run: seq<State>, i: nat)
    requires IsRun(c, run) && i < |run|
    ensures Inv(c, run[i])
  {
    if i == 0 {
      StartInv(c, run[0]);
    } else {
      InvRun(c, run, i - 1);
      InvStepTo(c, run[i - 1], run[i]);
    }
  }

  // ---- staging never wedges -----------------------------------------------------

  /** Some staging build can take a step other than being cancelled or staging again. */
  ghost predicate CanStage(c: Config, s: State)
  {
    exists e: Event :: !e.Negotiate? && !e.Restage? && !e.Cancel? && Enabled(c, s, e)
  }

  lemma PendingMoves(c: Config, s: State, b: nat, p: Path)
    requires Inv(c, s) && b < |s.builds| && p in s.builds[b].pending
    requires forall r <- Refs(c.refs, p) :: r !in s.builds[b].pending && r !in s.builds[b].waits
    ensures CanStage(c, s)
  {
    var x := s.builds[b];
    assert BuildOk(c, s, b);
    if p !in x.complete {
      assert Enabled(c, s, Deliver(b, p));
    } else if r :| r in Refs(c.refs, p) && r in x.running {
      assert Enabled(c, s, Import(b, r));
    } else {
      assert p in x.closure;
      assert Enabled(c, s, Dispatch(b, p));
    }
  }

  lemma WaitMoves(c: Config, s: State, b: nat, p: Path)
    requires Inv(c, s) && b < |s.builds| && p in s.builds[b].waits
    requires forall i, r ::
      0 <= i < |s.builds| && r in Refs(c.refs, p) ==> r !in s.builds[i].pending && r !in s.builds[i].waits
    ensures CanStage(c, s)
  {
    var x := s.builds[b];
    assert BuildOk(c, s, b);
    var o := x.waits[p];
    if ClaimOf(s, o, p) != Running {
      assert Enabled(c, s, Resolve(b, p));
    } else if p in s.builds[o].running {
      assert Enabled(c, s, Import(o, p));
    } else {
      PendingMoves(c, s, o, p);
    }
  }

  lemma IdleMoves(c: Config, s: State, b: nat)
    requires b < |s.builds| && s.builds[b].phase == Staging
    requires s.builds[b].pending + s.builds[b].waits.Keys == {}
    ensures CanStage(c, s)
  {
    var x := s.builds[b];
    if r :| r in x.running {
      assert Enabled(c, s, Import(b, r));
    } else {
      assert forall p :: p !in x.pending && p !in x.waits.Keys;
      assert x.waits == map[];
      assert Enabled(c, s, Finish(b));
    }
  }

  lemma NoWedge(c: Config, s: State, b: nat)
    requires c.Valid() && Inv(c, s) && b < |s.builds| && s.builds[b].phase == Staging
    ensures CanStage(c, s)
  {
    var open := set i, p | 0 <= i < |s.builds| && p in s.builds[i].pending + s.builds[i].waits.Keys :: p;
    if open == {} {
      assert forall p <- s.builds[b].pending + s.builds[b].waits.Keys :: p in open;
      IdleMoves(c, s, b);
    } else {
      var p := Minimal(c.refs, open);
      var i :| 0 <= i < |s.builds| && p in s.builds[i].pending + s.builds[i].waits.Keys;
      assert forall j, r :: 0 <= j < |s.builds| && r in s.builds[j].pending + s.builds[j].waits.Keys ==> r in open;
      assert BuildOk(c, s, i);
      if p in s.builds[i].pending { PendingMoves(c, s, i, p); } else { WaitMoves(c, s, i, p); }
    }
  }

  // ---- main result --------------------------------------------------------------

  /** Nobody fetches a path another build is fetching. */
  predicate Exclusive(s: State)
  {
    forall a, b, p :: 0 <= a < b < |s.builds| && p in s.builds[a].pending + s.builds[a].running ==>
      p !in s.builds[b].pending + s.builds[b].running
  }

  predicate NoneRejected(s: State) { forall x <- s.builds :: x.phase != Rejected }

  predicate ReadyMeansValid(s: State) { forall x <- s.builds :: x.phase == Ready ==> x.closure <= s.valid }

  lemma SafeState(c: Config, s: State)
    requires Inv(c, s)
    ensures NoneRejected(s) && ReadyMeansValid(s) && Exclusive(s)
  {
    forall x | x in s.builds
      ensures x.phase != Rejected && (x.phase == Ready ==> x.closure <= s.valid)
    {
      var b :| 0 <= b < |s.builds| && s.builds[b] == x;
      assert BuildOk(c, s, b);
    }
    forall a, b, p | 0 <= a < b < |s.builds| && p in s.builds[a].pending + s.builds[a].running
      ensures p !in s.builds[b].pending + s.builds[b].running
    {
      assert s.claim[p] == a;
    }
  }

  /** In every state of every run, for any number of builds and any acyclic references. */
  lemma Safety(c: Config, run: seq<State>, i: nat)
    requires c.Valid() && IsRun(c, run) && i < |run|
    ensures Closed(c.refs, run[i].valid)
    ensures NoneRejected(run[i]) && ReadyMeansValid(run[i]) && Exclusive(run[i])
    ensures (exists x <- run[i].builds :: x.phase == Staging) ==> CanStage(c, run[i])
  {
    var s := run[i];
    InvRun(c, run, i);
    SafeState(c, s);
    if x :| x in s.builds && x.phase == Staging {
      var b :| 0 <= b < |s.builds| && s.builds[b] == x;
      NoWedge(c, s, b);
    }
  }
}

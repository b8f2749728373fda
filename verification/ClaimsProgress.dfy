/** Every run of staging with claims ends, with every build ready or cancelled. */
module ClaimsProgress {
  import opened StorePath
  import opened Claims
  import opened ClaimsSafety

  // ---- the measure ------------------------------------------------------------

  /** Phases to go, and failed imports that may still be staged again. */
  function PhaseRank(c: Config, x: Build): nat
  {
    match x.phase
    case Init => c.maxRetries + 2
    case Staging => 1 + if x.retries <= c.maxRetries then c.maxRetries - x.retries else 0
    case _ => 0
  }

  function FailedWaits(s: State, x: Build): set<Path>
  {
    set p | p in x.waits && ClaimOf(s, x.waits[p], p) == Failed
  }

  /** How far each path of the build still is from being an input. */
  function Stage(s: State, x: Build): nat
  {
    |FailedWaits(s, x)| + 4 * |x.waits.Keys| + 3 * |x.pending - x.complete| + 2 * |x.pending * x.complete| + |x.running|
  }

  function Sum(a: seq<nat>): nat { if a == [] then 0 else a[0] + Sum(a[1..]) }

  function Phases(c: Config, s: State): seq<nat>
  {
    seq(|s.builds|, i requires 0 <= i < |s.builds| => PhaseRank(c, s.builds[i]))
  }

  function Stages(s: State): seq<nat> { seq(|s.builds|, i requires 0 <= i < |s.builds| => Stage(s, s.builds[i])) }

  predicate Below(c: Config, s: State, t: State)
  {
    || Sum(Phases(c, t)) < Sum(Phases(c, s))
    || (Sum(Phases(c, t)) == Sum(Phases(c, s)) && Sum(Stages(t)) < Sum(Stages(s)))
  }

  lemma {:induction false} SumUpdate(a: seq<nat>, i: nat, x: nat)
    requires i < |a|
    ensures Sum(a[i := x]) == Sum(a) - a[i] + x
  {
    if i == 0 {
      assert a[i := x][1..] == a[1..];
    } else {
      SumUpdate(a[1..], i - 1, x);
      assert a[i := x][1..] == a[1..][i - 1 := x];
    }
  }

  // ---- every step lowers it -------------------------------------------------------

  lemma PhaseFalls(c: Config, s: State, t: State, b: nat, y: Build)
    requires b < |s.builds| && t.builds == s.builds[b := y] && PhaseRank(c, y) < PhaseRank(c, s.builds[b])
    ensures Below(c, s, t)
  {
    assert Phases(c, t) == Phases(c, s)[b := PhaseRank(c, y)];
    SumUpdate(Phases(c, s), b, PhaseRank(c, y));
  }

  /** A wait fails only when its owner leaves staging. */
  lemma WaitsUnmoved(c: Config, s: State, t: State, b: nat, y: Build, i: nat)
    requires Inv(c, s) && b < |s.builds| && t.builds == s.builds[b := y]
    requires s.builds[b].phase == Staging && y.phase == Staging && s.builds[b].Owned() <= y.Owned()
    requires i < |s.builds| && i != b
    ensures Stage(t, t.builds[i]) == Stage(s, s.builds[i])
  {
    assert BuildOk(c, s, i);
    var x := s.builds[i];
    forall p | p in x.waits
      ensures ClaimOf(t, x.waits[p], p) == Failed <==> ClaimOf(s, x.waits[p], p) == Failed
    {}
    assert FailedWaits(t, x) == FailedWaits(s, x);
  }

  lemma OthersUnmoved(c: Config, s: State, t: State, b: nat, y: Build)
    requires Inv(c, s) && b < |s.builds| && t.builds == s.builds[b := y]
    requires s.builds[b].phase == Staging && y.phase == Staging && s.builds[b].Owned() <= y.Owned()
    ensures Stages(t) == Stages(s)[b := Stage(t, y)]
  {
    var v := Stages(s)[b := Stage(t, y)];
    forall i | 0 <= i < |v|
      ensures Stages(t)[i] == v[i]
    {
      if i != b { WaitsUnmoved(c, s, t, b, y, i); }
    }
  }

  lemma StageFalls(c: Config, s: State, t: State, b: nat, y: Build)
    requires Inv(c, s) && b < |s.builds| && t.builds == s.builds[b := y]
    requires s.builds[b].phase == Staging && y.phase == Staging && s.builds[b].Owned() <= y.Owned()
    requires y.retries == s.builds[b].retries
    requires Stage(t, y) < Stage(s, s.builds[b])
    ensures Below(c, s, t)
  {
    assert Phases(c, t) == Phases(c, s);
    OthersUnmoved(c, s, t, b, y);
    SumUpdate(Stages(s), b, Stage(t, y));
  }

  lemma Grow<T>(a: set<T>, x: T)
    requires x !in a
    ensures |a + {x}| == |a| + 1
  {}

  lemma Shrink<T>(a: set<T>, x: T)
    requires x in a
    ensures |a| == |a - {x}| + 1
  {
    assert a == (a - {x}) + {x};
  }

  /** The build's own waits are judged by other builds, which the step leaves alone. */
  lemma OwnWaits(c: Config, s: State, t: State, b: nat, y: Build)
    requires Inv(c, s) && b < |s.builds| && t.builds == s.builds[b := y]
    requires forall p <- y.waits :: y.waits[p] != b
    ensures FailedWaits(t, y) == FailedWaits(s, y)
  {}

  lemma StageDeliver(s: State, x: Build, p: Path)
    requires p in x.pending && p !in x.complete
    ensures Stage(s, x.(complete := x.complete + {p})) < Stage(s, x)
  {
    var y := x.(complete := x.complete + {p});
    Shrink(x.pending - x.complete, p);
    Grow(x.pending * x.complete, p);
    assert y.pending - y.complete == x.pending - x.complete - {p};
    assert y.pending * y.complete == x.pending * x.complete + {p};
    assert FailedWaits(s, y) == FailedWaits(s, x);
  }

  lemma StageDispatch(s: State, x: Build, p: Path)
    requires p in x.pending && p in x.complete && p !in x.running
    ensures Stage(s, x.(pending := x.pending - {p}, running := x.running + {p})) < Stage(s, x)
  {
    var y := x.(pending := x.pending - {p}, running := x.running + {p});
    Shrink(x.pending * x.complete, p);
    Grow(x.running, p);
    assert y.pending - y.complete == x.pending - x.complete;
    assert y.pending * y.complete == x.pending * x.complete - {p};
    assert FailedWaits(s, y) == FailedWaits(s, x);
  }

  lemma StageImport(s: State, x: Build, p: Path)
    requires p in x.running
    ensures Stage(s, x.(running := x.running - {p}, done := x.done + {p})) < Stage(s, x)
  {
    var y := x.(running := x.running - {p}, done := x.done + {p});
    Shrink(x.running, p);
    assert FailedWaits(s, y) == FailedWaits(s, x);
  }

  lemma StageDone(s: State, x: Build, p: Path)
    requires p in x.waits && ClaimOf(s, x.waits[p], p) == Done
    ensures Stage(s, x.(inputs := x.inputs + {p}, waits := x.waits - {p})) < Stage(s, x)
  {
    var y := x.(inputs := x.inputs + {p}, waits := x.waits - {p});
    Shrink(x.waits.Keys, p);
    assert y.waits.Keys == x.waits.Keys - {p};
    assert FailedWaits(s, y) == FailedWaits(s, x);
  }

  lemma StageFollow(s: State, x: Build, p: Path, o: nat)
    requires p in x.waits && ClaimOf(s, x.waits[p], p) == Failed && ClaimOf(s, o, p) != Failed
    ensures Stage(s, x.(waits := x.waits[p := o])) < Stage(s, x)
  {
    var y := x.(waits := x.waits[p := o]);
    Shrink(FailedWaits(s, x), p);
    assert FailedWaits(s, y) == FailedWaits(s, x) - {p};
    assert y.waits.Keys == x.waits.Keys;
  }

  lemma TakeoverWaits(s: State, x: Build, y: Build, p: Path)
    requires p in x.waits && ClaimOf(s, x.waits[p], p) == Failed && y.waits == x.waits - {p}
    ensures |y.waits.Keys| == |x.waits.Keys| - 1 && |FailedWaits(s, y)| == |FailedWaits(s, x)| - 1
  {
    Shrink(FailedWaits(s, x), p);
    Shrink(x.waits.Keys, p);
    assert FailedWaits(s, y) == FailedWaits(s, x) - {p};
    assert y.waits.Keys == x.waits.Keys - {p};
  }

  lemma StageTakeover(s: State, x: Build, p: Path)
    requires p in x.waits && ClaimOf(s, x.waits[p], p) == Failed && p !in x.pending && p !in x.complete
    ensures Stage(s, x.(pending := x.pending + {p}, waits := x.waits - {p})) < Stage(s, x)
  {
    var y := x.(pending := x.pending + {p}, waits := x.waits - {p});
    TakeoverWaits(s, x, y, p);
    Grow(x.pending - x.complete, p);
    assert y.pending - y.complete == x.pending - x.complete + {p};
    assert y.pending * y.complete == x.pending * x.complete;
  }

  lemma OwnFalls(c: Config, s: State, t: State, b: nat, y: Build)
    requires Inv(c, s) && b < |s.builds| && t.builds == s.builds[b := y]
    requires s.builds[b].phase == Staging && y.phase == Staging && s.builds[b].Owned() <= y.Owned()
    requires y.retries == s.builds[b].retries
    requires forall p <- y.waits :: y.waits[p] != b
    requires Stage(s, y) < Stage(s, s.builds[b])
    ensures Below(c, s, t)
  {
    OwnWaits(c, s, t, b, y);
    StageFalls(c, s, t, b, y);
  }

  lemma StagingFalls(c: Config, s: State, e: Event)
    requires Inv(c, s) && Enabled(c, s, e) && (e.Deliver? || e.Dispatch? || e.Import?)
    ensures Below(c, s, Next(c, s, e))
  {
    var t := Next(c, s, e);
    assert BuildOk(c, s, e.b);
    match e {
      case Deliver(b, p) => StageDeliver(s, s.builds[b], p);
      case Dispatch(b, p) => StageDispatch(s, s.builds[b], p);
      case Import(b, p) =>
        ImportAccepted(c, s, b, p);
        StageImport(s, s.builds[b], p);
    }
    OwnFalls(c, s, t, e.b, t.builds[e.b]);
  }

  lemma LiveClaim(s: State, b: nat, p: Path)
    requires ClaimShape(s) && b < |s.builds| && p in s.claim && p !in s.builds[b].Owned()
    ensures s.claim[p] != b && ClaimOf(s, s.claim[p], p) != Failed
  {}

  lemma FollowsOthers(x: Build, y: Build, p: Path, o: nat, b: nat)
    requires y.waits == x.waits[p := o] && o != b && forall q <- x.waits :: x.waits[q] != b
    ensures forall q <- y.waits :: y.waits[q] != b
  {}

  lemma FollowFalls(c: Config, s: State, t: State, b: nat, y: Build, p: Path, o: nat)
    requires Inv(c, s) && b < |s.builds| && s.builds[b].phase == Staging && t.builds == s.builds[b := y]
    requires y == s.builds[b].(waits := s.builds[b].waits[p := o])
    requires p in s.builds[b].waits && ClaimOf(s, s.builds[b].waits[p], p) == Failed && ClaimOf(s, o, p) != Failed
    requires o != b && forall q <- s.builds[b].waits :: s.builds[b].waits[q] != b
    ensures Below(c, s, t)
  {
    FollowsOthers(s.builds[b], y, p, o, b);
    StageFollow(s, s.builds[b], p, o);
    OwnFalls(c, s, t, b, y);
  }

  lemma ResolveFalls(c: Config, s: State, b: nat, p: Path)
    requires Inv(c, s) && Enabled(c, s, Resolve(b, p))
    ensures Below(c, s, ResolveStep(s, b, p))
  {
    var t := ResolveStep(s, b, p);
    var x, y := s.builds[b], t.builds[b];
    assert BuildOk(c, s, b);
    if ClaimOf(s, x.waits[p], p) == Done {
      StageDone(s, x, p);
      OwnFalls(c, s, t, b, y);
    } else if p in s.claim {
      LiveClaim(s, b, p);
      FollowFalls(c, s, t, b, y, p, s.claim[p]);
    } else {
      StageTakeover(s, x, p);
      OwnFalls(c, s, t, b, y);
    }
  }

  lemma InvBuildOk(c: Config, s: State, b: nat)
    requires Inv(c, s)
    ensures BuildOk(c, s, b)
  {}

  lemma StepFalls(c: Config, s: State, e: Event)
    requires Inv(c, s) && Enabled(c, s, e)
    ensures Below(c, s, Next(c, s, e))
  {
    var t := Next(c, s, e);
    match e {
      case Deliver(_, _) => StagingFalls(c, s, e);
      case Dispatch(_, _) => StagingFalls(c, s, e);
      case Import(_, _) => StagingFalls(c, s, e);
      case Resolve(b, p) => ResolveFalls(c, s, b, p);
      case _ =>
        InvBuildOk(c, s, e.b);
        PhaseFalls(c, s, t, e.b, t.builds[e.b]);
    }
  }

  // ---- runs end -------------------------------------------------------------------

  predicate Settled(s: State) { forall x <- s.builds :: x.phase == Ready || x.phase == Cancelled }

  lemma StepDown(c: Config, s: State, t: State)
    requires Inv(c, s) && Step(c, s, t)
    ensures Inv(c, t) && Below(c, s, t)
  {
    var e :| Enabled(c, s, e) && t == Next(c, s, e);
    InvStep(c, s, e);
    StepFalls(c, s, e);
  }

  lemma {:induction false} Descend(c: Config, f: nat -> State, stop: State -> bool, i: nat, phases: nat, stages: nat)
    returns (k: nat)
    requires Inv(c, f(i)) && phases == Sum(Phases(c, f(i))) && stages == Sum(Stages(f(i)))
    requires forall j: nat :: !stop(f(j)) ==> Step(c, f(j), f(j + 1))
    ensures stop(f(k))
    decreases phases, stages
  {
    hide Inv, Step, Phases, Stages, Sum;
    k := i;
    if !stop(f(i)) {
      StepDown(c, f(i), f(i + 1));
      k := Descend(c, f, stop, i + 1, Sum(Phases(c, f(i + 1))), Sum(Stages(f(i + 1))));
    }
  }

  /** No schedule, with cancels at any point, goes on forever. */
  lemma RunsEnd(c: Config, f: nat -> State)
    requires Start(c, f(0))
    ensures exists k: nat :: !Step(c, f(k), f(k + 1))
  {
    StartInv(c, f(0));
    if forall k: nat :: Step(c, f(k), f(k + 1)) {
      var k := Descend(c, f, _ => false, 0, Sum(Phases(c, f(0))), Sum(Stages(f(0))));
    }
  }

  /** Whatever the schedule, stepping until every build has settled gets there. */
  lemma EventuallySettled(c: Config, f: nat -> State)
    requires Start(c, f(0))
    requires forall k: nat :: !Settled(f(k)) ==> Step(c, f(k), f(k + 1))
    ensures exists k: nat :: Settled(f(k))
  {
    StartInv(c, f(0));
    var k := Descend(c, f, s => Settled(s), 0, Sum(Phases(c, f(0))), Sum(Stages(f(0))));
  }

  lemma StuckMeansSettled(c: Config, s: State, b: nat)
    requires c.Valid() && Inv(c, s) && b < |s.builds|
    requires forall e :: Enabled(c, s, e) ==> e.Cancel?
    ensures s.builds[b].phase == Ready || s.builds[b].phase == Cancelled
  {
    assert BuildOk(c, s, b);
    assert !Enabled(c, s, Negotiate(b, {}));
    if s.builds[b].phase == Staging { NoWedge(c, s, b); }
  }

  /** A run nothing but a cancel could prolong has every build ready or cancelled. */
  lemma MaximalRunSettles(c: Config, run: seq<State>)
    requires c.Valid() && IsRun(c, run)
    requires forall e :: Enabled(c, run[|run| - 1], e) ==> e.Cancel?
    ensures Settled(run[|run| - 1])
  {
    var s := run[|run| - 1];
    InvRun(c, run, |run| - 1);
    forall x | x in s.builds
      ensures x.phase == Ready || x.phase == Cancelled
    {
      var b :| 0 <= b < |s.builds| && s.builds[b] == x;
      StuckMeansSettled(c, s, b);
    }
  }
}

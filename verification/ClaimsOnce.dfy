/**
 Fetching twice. Builds wait on each other's claims so that a path is fetched once. It is,
 as long as answers are current and no build is cancelled. A build that takes over a failed
 claim does not look whether the path became valid meanwhile.
 */
module ClaimsOnce {
  import opened StorePath
  import opened Graph
  import opened Claims
  import opened ClaimsSafety

  /** The run these events make. */
  ghost predicate Traced(c: Config, run: seq<State>, es: seq<Event>)
  {
    && |run| == |es| + 1 && Start(c, run[0])
    && forall i | 0 <= i < |es| :: Enabled(c, run[i], es[i]) && run[i + 1] == Next(c, run[i], es[i])
  }

  lemma {:induction false} TracedInv(c: Config, run: seq<State>, es: seq<Event>, i: nat)
    requires c.Valid() && Traced(c, run, es) && i < |run|
    ensures Inv(c, run[i])
  {
    hide Inv, Enabled, Next, Start;
    if i == 0 {
      StartInv(c, run[0]);
    } else {
      TracedInv(c, run, es, i - 1);
      InvStep(c, run[i - 1], es[i - 1]);
    }
  }

  predicate Fetching(s: State, b: nat, p: Path) { b < |s.builds| && p in s.builds[b].pending + s.builds[b].running }

  // ---- one step -----------------------------------------------------------------------------

  /** While a build fetches a path nobody else imports it. */
  lemma FetchKeeps(c: Config, s: State, e: Event, b: nat, p: Path)
    requires Inv(c, s) && Enabled(c, s, e) && Fetching(s, b, p) && Fetching(Next(c, s, e), b, p)
    ensures p in s.valid <==> p in Next(c, s, e).valid
  {
    if e.Import? && e.p == p {
      assert p in s.builds[e.b].pending + s.builds[e.b].running;
      assert s.claim[p] == e.b && s.claim[p] == b;
      assert BuildOk(c, s, b);
    }
  }

  /** A build starts to fetch a path by claiming it: because it was not told it is valid, or to take over. */
  predicate Takes(s: State, e: Event, b: nat, p: Path)
  {
    && e.b == b && b < |s.builds| && p !in s.claim
    && ((e.Negotiate? && p in s.builds[b].closure && p !in e.seen)
        || (e == Resolve(b, p) && p in s.builds[b].waits && ClaimOf(s, s.builds[b].waits[p], p) == Failed))
  }

  lemma StartsFetch(c: Config, s: State, e: Event, b: nat, p: Path)
    requires Enabled(c, s, e) && !Fetching(s, b, p) && Fetching(Next(c, s, e), b, p)
    ensures Takes(s, e, b, p) && Next(c, s, e).valid == s.valid
  {}

  // ---- runs ---------------------------------------------------------------------------------

  /** The claim under which a path is being fetched, and whether it was valid then. */
  lemma {:induction false} ClaimedAt(c: Config, run: seq<State>, es: seq<Event>, i: nat, b: nat, p: Path)
    returns (j: nat)
    requires c.Valid() && Traced(c, run, es) && i < |run| && Fetching(run[i], b, p)
    ensures j < i && Takes(run[j], es[j], b, p) && (p in run[i].valid <==> p in run[j].valid)
  {
    hide Inv, Enabled, Next, Start, Fetching, Takes;
    if i == 0 {
      NothingFetched(c, run[0], b, p);
    } else {
      var s, e := run[i - 1], es[i - 1];
      assert run[i] == Next(c, s, e);
      TracedInv(c, run, es, i - 1);
      if Fetching(s, b, p) {
        j := ClaimedAt(c, run, es, i - 1, b, p);
        FetchKeeps(c, s, e, b, p);
      } else {
        j := i - 1;
        StartsFetch(c, s, e, b, p);
      }
    }
  }

  lemma NothingFetched(c: Config, s: State, b: nat, p: Path)
    requires Start(c, s)
    ensures !Fetching(s, b, p)
  {}

  /** An import finds its path valid already exactly if the path was valid when it was claimed. */
  lemma ImportsAgainIff(c: Config, run: seq<State>, es: seq<Event>, i: nat) returns (j: nat)
    requires c.Valid() && Traced(c, run, es) && i < |es| && es[i].Import?
    ensures j < i && Takes(run[j], es[j], es[i].b, es[i].p) && (es[i].p in run[i].valid <==> es[i].p in run[j].valid)
  {
    assert Enabled(c, run[i], es[i]);
    assert Fetching(run[i], es[i].b, es[i].p);
    hide Traced, Takes, Fetching;
    j := ClaimedAt(c, run, es, i, es[i].b, es[i].p);
  }

  // ---- once -----------------------------------------------------------------------------------

  /** The answer a build negotiates with is that of the store as it is. */
  predicate Current(s: State, e: Event)
  {
    e.Negotiate? && e.b < |s.builds| ==> e.seen == s.builds[e.b].closure * s.valid
  }

  ghost predicate Smooth(run: seq<State>, es: seq<Event>)
  {
    |run| == |es| + 1 && forall i | 0 <= i < |es| :: !es[i].Cancel? && Current(run[i], es[i])
  }

  /** No wait is on a claim that failed. */
  predicate Hopeful(s: State)
  {
    forall b, p | 0 <= b < |s.builds| && p in s.builds[b].waits :: ClaimOf(s, s.builds[b].waits[p], p) != Failed
  }

  /** A wait is an old one or on the claim that stands. */
  lemma WaitFrom(c: Config, s: State, e: Event, b: nat, p: Path)
    requires Enabled(c, s, e) && b < |s.builds|
    ensures |Next(c, s, e).builds| == |s.builds|
    ensures var w := Next(c, s, e).builds[b].waits;
      p in w ==> (p in s.builds[b].waits && w[p] == s.builds[b].waits[p]) || (p in s.claim && w[p] == s.claim[p])
  {}

  lemma ClaimLives(s: State, p: Path)
    requires ClaimShape(s) && p in s.claim
    ensures ClaimOf(s, s.claim[p], p) != Failed
  {}

  /** What a staging build has imported stays, and it lets go of nothing else before it is done. */
  lemma KeepsOwn(c: Config, s: State, e: Event)
    requires Enabled(c, s, e) && !e.Cancel? && !e.Negotiate? && (e.Import? ==> Refs(c.refs, e.p) <= s.valid)
    ensures var x, y := s.builds[e.b], Next(c, s, e).builds[e.b];
      x.done <= y.done && (if y.phase == Staging then x.Owned() <= y.Owned() else x.Owned() <= y.done)
  {}

  lemma OthersSame(c: Config, s: State, e: Event, o: nat)
    requires Enabled(c, s, e) && o < |s.builds| && o != e.b
    ensures |Next(c, s, e).builds| == |s.builds| && Next(c, s, e).builds[o] == s.builds[o]
  {}

  /** A claim that has not failed fails with a cancel only. */
  lemma OwnerGoesOn(c: Config, s: State, e: Event, o: nat, p: Path)
    requires Inv(c, s) && Enabled(c, s, e) && !e.Cancel? && ClaimOf(s, o, p) != Failed
    ensures ClaimOf(Next(c, s, e), o, p) != Failed
  {
    assert BuildOk(c, s, o);
    if o != e.b {
      OthersSame(c, s, e, o);
    } else if !e.Negotiate? {
      if e.Import? { ImportAccepted(c, s, e.b, e.p); }
      hide Inv;
      KeepsOwn(c, s, e);
      SameBuilds(c, s, e);
      hide Next;
    }
  }

  lemma SameBuilds(c: Config, s: State, e: Event)
    requires Enabled(c, s, e)
    ensures |Next(c, s, e).builds| == |s.builds|
  {}

  lemma HopefulStep(c: Config, s: State, e: Event)
    requires Inv(c, s) && Hopeful(s) && Enabled(c, s, e) && !e.Cancel?
    ensures Hopeful(Next(c, s, e))
  {
    hide Next, Enabled, ClaimOf, ClaimShape;
    SameBuilds(c, s, e);
    var t := Next(c, s, e);
    forall b, p | 0 <= b < |t.builds| && p in t.builds[b].waits
      ensures ClaimOf(t, t.builds[b].waits[p], p) != Failed
    {
      WaitFrom(c, s, e, b, p);
      if p in s.claim { ClaimLives(s, p); }
      OwnerGoesOn(c, s, e, t.builds[b].waits[p], p);
    }
  }

  lemma {:induction false} AllHopeful(c: Config, run: seq<State>, es: seq<Event>, i: nat)
    requires c.Valid() && Traced(c, run, es) && Smooth(run, es) && i < |run|
    ensures Hopeful(run[i])
  {
    hide Inv, Enabled, Next, Start, Hopeful;
    if i == 0 {
      StartHopeful(c, run[0]);
    } else {
      AllHopeful(c, run, es, i - 1);
      TracedInv(c, run, es, i - 1);
      HopefulStep(c, run[i - 1], es[i - 1]);
    }
  }

  lemma StartHopeful(c: Config, s: State)
    requires Start(c, s)
    ensures Hopeful(s)
  {
    assert forall b | 0 <= b < |s.builds| :: s.builds[b] in s.builds;
  }

  /** With current answers and no cancels only paths that are not valid are imported. */
  lemma ImportsMissing(c: Config, run: seq<State>, es: seq<Event>, i: nat)
    requires c.Valid() && Traced(c, run, es) && Smooth(run, es) && i < |es| && es[i].Import?
    ensures es[i].p !in run[i].valid
  {
    hide Traced;
    var j := ImportsAgainIff(c, run, es, i);
    AllHopeful(c, run, es, j);
    assert Current(run[j], es[j]);
  }

  lemma {:induction false} ValidStays(c: Config, run: seq<State>, es: seq<Event>, i: nat, k: nat)
    requires c.Valid() && Traced(c, run, es) && i <= k < |run|
    ensures run[i].valid <= run[k].valid
  {
    if i < k {
      ValidStays(c, run, es, i, k - 1);
      StepValid(c, run[k - 1], es[k - 1]);
    }
  }

  lemma StepValid(c: Config, s: State, e: Event)
    requires Enabled(c, s, e)
    ensures s.valid <= Next(c, s, e).valid
  {}

  /** And so no path is imported twice. */
  lemma ImportedOnce(c: Config, run: seq<State>, es: seq<Event>, i: nat, k: nat)
    requires c.Valid() && Traced(c, run, es) && Smooth(run, es) && i < k < |es| && es[i].Import? && es[k].Import?
    ensures es[i].p != es[k].p
  {
    ImportsMissing(c, run, es, k);
    TracedInv(c, run, es, i);
    ImportAccepted(c, run[i], es[i].b, es[i].p);
    assert run[i + 1] == Next(c, run[i], es[i]);
    hide Traced, Smooth;
    ValidStays(c, run, es, i + 1, k);
  }

  // ---- what a build was told is valid is never fetched by it -----------------------------------------

  predicate HasIt(s: State, b: nat, p: Path)
  {
    b < |s.builds| && s.builds[b].phase != Init && p in s.builds[b].inputs && p !in s.builds[b].Owned()
  }

  lemma HasItStep(c: Config, s: State, e: Event, b: nat, p: Path)
    requires Inv(c, s) && Enabled(c, s, e) && HasIt(s, b, p)
    ensures HasIt(Next(c, s, e), b, p)
  {
    assert BuildOk(c, s, b);
    if e.b != b {
      OthersSame(c, s, e, b);
    } else {
      SameBuilds(c, s, e);
    }
  }

  lemma SeenFirst(c: Config, s: State, e: Event, p: Path)
    requires Inv(c, s) && Enabled(c, s, e) && e.Negotiate? && p in e.seen
    ensures HasIt(Next(c, s, e), e.b, p)
  {
    assert BuildOk(c, s, e.b);
  }

  /** A path a build was told is valid is an input of it for good, and it never fetches it. */
  lemma {:induction false} SeenNeverFetched(c: Config, run: seq<State>, es: seq<Event>, i: nat, k: nat, p: Path)
    requires c.Valid() && Traced(c, run, es) && i < k < |run| && es[i].Negotiate? && p in es[i].seen
    ensures HasIt(run[k], es[i].b, p)
  {
    hide Inv, Next, Enabled, HasIt, Start;
    TracedInv(c, run, es, k - 1);
    assert Enabled(c, run[k - 1], es[k - 1]) && run[k] == Next(c, run[k - 1], es[k - 1]);
    if k == i + 1 {
      SeenFirst(c, run[i], es[i], p);
    } else {
      SeenNeverFetched(c, run, es, i, k - 1, p);
      HasItStep(c, run[k - 1], es[k - 1], es[i].b, p);
    }
  }

  // ---- twice --------------------------------------------------------------------------------------

  function Waiting(p: Path): Build { Build({p}, Staging, {}, {}, {}, {}, {}, map[p := 0], 0) }

  function Unborn(p: Path): Build { Build({p}, Init, {}, {}, {}, {}, {}, map[], 0) }

  /** How far a build that claimed the path got: asked for, arrived, with the daemon, imported. */
  function Fetched(p: Path, stage: nat): Build
  {
    Build({p}, Staging, {}, if stage < 2 then {p} else {}, if stage > 0 then {p} else {},
          if stage == 2 then {p} else {}, if stage == 3 then {p} else {}, map[], 0)
  }

  lemma FetchSteps(c: Config, s: State, b: nat, p: Path)
    requires c == Config(map[], true, 0) && b < |s.builds| && s.builds[b] == Fetched(p, 0)
    ensures Enabled(c, s, Deliver(b, p))
    ensures var s1 := s.(builds := s.builds[b := Fetched(p, 1)]);
      && Next(c, s, Deliver(b, p)) == s1 && Enabled(c, s1, Dispatch(b, p))
      && var s2 := s.(builds := s.builds[b := Fetched(p, 2)]);
         && Next(c, s1, Dispatch(b, p)) == s2 && Enabled(c, s2, Import(b, p))
         && Next(c, s2, Import(b, p))
            == State(s.valid + {p}, s.claim - {p}, s.builds[b := Fetched(p, 3)])
  {
    var none: set<Path> := {};
    assert none + {p} == {p} && {p} - {p} == none;
    var s1 := s.(builds := s.builds[b := Fetched(p, 1)]);
    var s2 := s.(builds := s.builds[b := Fetched(p, 2)]);
    assert Next(c, s, Deliver(b, p)).builds[b] == Fetched(p, 1);
    assert Next(c, s1, Dispatch(b, p)).builds[b] == Fetched(p, 2);
    assert Next(c, s2, Import(b, p)).builds[b] == Fetched(p, 3);
  }

  function Gone(p: Path): Build { Build({p}, Cancelled, {}, {}, {}, {}, {}, map[], 0) }

  lemma Asks(c: Config, s: State, b: nat, p: Path)
    requires b < |s.builds| && s.builds[b] == Unborn(p) && p !in s.claim
    ensures Enabled(c, s, Negotiate(b, {}))
    ensures Next(c, s, Negotiate(b, {})) == s.(builds := s.builds[b := Fetched(p, 0)], claim := s.claim[p := b])
  {
    var t := NegotiateStep(s, b, {});
    assert (set q | q in {p} && q in s.claim) == {};
    assert {p} - {} - {} == {p};
    assert t.claim == s.claim[p := b];
    assert t.builds[b] == Fetched(p, 0);
  }

  lemma Follows(c: Config, s: State, b: nat, p: Path)
    requires b < |s.builds| && s.builds[b] == Unborn(p) && p in s.claim && s.claim[p] == 0
    ensures Enabled(c, s, Negotiate(b, {}))
    ensures Next(c, s, Negotiate(b, {})) == s.(builds := s.builds[b := Waiting(p)])
  {
    var t := NegotiateStep(s, b, {});
    assert (set q | q in {p} - {} && q in s.claim) == {p};
    assert {p} - {} - {p} == {};
    assert t.claim == s.claim;
    assert t.builds[b] == Waiting(p);
  }

  lemma GivesUp(c: Config, s: State, p: Path)
    requires |s.builds| > 0 && s.builds[0] == Fetched(p, 0) && s.claim == map[p := 0]
    ensures Enabled(c, s, Cancel(0))
    ensures Next(c, s, Cancel(0)) == s.(builds := s.builds[0 := Gone(p)], claim := map[])
  {
    assert Release(s.claim, 0) == map[];
  }

  lemma Starts(c: Config, p: Path)
    requires c.refs == map[]
    ensures Start(c, State({}, map[], [Unborn(p), Unborn(p), Unborn(p)]))
  {}

  lemma TakesOver(c: Config, s: State, b: nat, p: Path)
    requires b < |s.builds| && s.builds[b] == Waiting(p) && p !in s.claim && s.builds[0] == Gone(p)
    ensures Enabled(c, s, Resolve(b, p))
    ensures Next(c, s, Resolve(b, p)) == s.(builds := s.builds[b := Fetched(p, 0)], claim := s.claim[p := b])
  {
    assert ClaimOf(s, 0, p) == Failed;
    assert (map[p := 0] - {p}) == map[];
    assert Next(c, s, Resolve(b, p)).builds[b] == Fetched(p, 0);
  }

  function EventAt(p: Path, k: nat): Event
    requires k < 12
  {
    [Negotiate(0, {}), Negotiate(1, {}), Negotiate(2, {}), Cancel(0),
     Resolve(1, p), Deliver(1, p), Dispatch(1, p), Import(1, p),
     Resolve(2, p), Deliver(2, p), Dispatch(2, p), Import(2, p)][k]
  }

  function StateAt(p: Path, k: nat): State
    requires k < 13
  {
    if k == 0 then State({}, map[], [Unborn(p), Unborn(p), Unborn(p)])
    else if k == 1 then State({}, map[p := 0], [Fetched(p, 0), Unborn(p), Unborn(p)])
    else if k == 2 then State({}, map[p := 0], [Fetched(p, 0), Waiting(p), Unborn(p)])
    else if k == 3 then State({}, map[p := 0], [Fetched(p, 0), Waiting(p), Waiting(p)])
    else if k == 4 then State({}, map[], [Gone(p), Waiting(p), Waiting(p)])
    else if k < 8 then State({}, map[p := 1], [Gone(p), Fetched(p, k - 5), Waiting(p)])
    else if k == 8 then State({p}, map[], [Gone(p), Fetched(p, 3), Waiting(p)])
    else if k < 12 then State({p}, map[p := 2], [Gone(p), Fetched(p, 3), Fetched(p, k - 9)])
    else State({p}, map[], [Gone(p), Fetched(p, 3), Fetched(p, 3)])
  }

  lemma NegotiateAt(c: Config, p: Path, k: nat)
    requires c == Config(map[], true, 0) && k < 4
    ensures Enabled(c, StateAt(p, k), EventAt(p, k)) && Next(c, StateAt(p, k), EventAt(p, k)) == StateAt(p, k + 1)
  {
    hide Enabled, Next, Fetched, Waiting, Unborn, Gone;
    var s, t := StateAt(p, k), StateAt(p, k + 1);
    if k == 0 {
      Asks(c, s, 0, p);
      assert s.builds[0 := Fetched(p, 0)] == t.builds;
    } else if k == 1 {
      Follows(c, s, 1, p);
      assert s.builds[1 := Waiting(p)] == t.builds;
    } else if k == 2 {
      Follows(c, s, 2, p);
      assert s.builds[2 := Waiting(p)] == t.builds;
    } else {
      GivesUp(c, s, p);
      assert s.builds[0 := Gone(p)] == t.builds;
    }
  }

  /** Build `b` takes over in state `at` and imports. */
  lemma FetchAt(c: Config, p: Path, b: nat, at: nat, k: nat)
    requires c == Config(map[], true, 0) && ((b == 1 && at == 4) || (b == 2 && at == 8)) && at <= k < at + 4
    ensures Enabled(c, StateAt(p, k), EventAt(p, k)) && Next(c, StateAt(p, k), EventAt(p, k)) == StateAt(p, k + 1)
  {
    hide Enabled, Next, Fetched, Waiting, Unborn, Gone;
    var s, t := StateAt(p, k), StateAt(p, k + 1);
    if k == at {
      TakesOver(c, s, b, p);
      assert s.builds[b := Fetched(p, 0)] == t.builds;
    } else {
      var start := StateAt(p, at + 1);
      FetchSteps(c, start, b, p);
      assert start.builds[b := Fetched(p, k - at - 1)] == s.builds && start.builds[b := Fetched(p, k - at)] == t.builds;
      assert k == at + 3 ==> start.valid + {p} == t.valid && start.claim - {p} == t.claim;
    }
  }

  /**
   Three builds need one path. The first is cancelled, the second takes over and imports it,
   and the third, woken by the first one's failure, takes over again and imports it again.
   */
  lemma TakeoverFetchesAgain(p: Path) returns (c: Config, run: seq<State>, es: seq<Event>)
    ensures c.Valid() && Traced(c, run, es) && |es| == 12
    ensures es[7] == Import(1, p) && es[11] == Import(2, p) && p in run[11].valid
    ensures forall i | 0 <= i < |es| :: Current(run[i], es[i])
  {
    c := Config(map[], true, 0);
    NoCycles();
    Starts(c, p);
    run := seq(13, k requires 0 <= k < 13 => StateAt(p, k));
    es := seq(12, k requires 0 <= k < 12 => EventAt(p, k));
    hide Next, Enabled, StateAt, EventAt, Start, Current;
    forall k | 0 <= k < 12
      ensures Enabled(c, run[k], es[k]) && run[k + 1] == Next(c, run[k], es[k]) && Current(run[k], es[k])
    {
      StepAt(c, p, k);
    }
    Ends(p);
  }

  lemma StepAt(c: Config, p: Path, k: nat)
    requires c == Config(map[], true, 0) && k < 12
    ensures Enabled(c, StateAt(p, k), EventAt(p, k)) && Next(c, StateAt(p, k), EventAt(p, k)) == StateAt(p, k + 1)
    ensures Current(StateAt(p, k), EventAt(p, k))
  {
    hide Next, Enabled;
    if k < 4 {
      NegotiateAt(c, p, k);
    } else {
      hide Current;
      if k < 8 { FetchAt(c, p, 1, 4, k); } else { FetchAt(c, p, 2, 8, k); }
      AnyCurrent(p, k);
    }
  }

  lemma AnyCurrent(p: Path, k: nat)
    requires 4 <= k < 12
    ensures Current(StateAt(p, k), EventAt(p, k))
  {}

  lemma Ends(p: Path)
    ensures EventAt(p, 7) == Import(1, p) && EventAt(p, 11) == Import(2, p) && p in StateAt(p, 11).valid
    ensures StateAt(p, 0) == State({}, map[], [Unborn(p), Unborn(p), Unborn(p)])
  {}

  lemma NoCycles()
    ensures Acyclic<Path>(map[])
  {
    forall w: seq<Path>
      ensures !Cycle(map[], w)
    {
      assert Cycle(map[], w) ==> w[1] in Refs(map[], w[0]);
    }
  }
}

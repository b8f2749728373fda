/**
 Input staging on one worker: any number of builds share the daemon's store and a
 registry of claims. The first build to miss a path claims it and imports it,
 later builds wait on that claim, and a waiter whose claim failed takes over.
 */
module Claims {
  import opened StorePath
  import opened Graph

  datatype Phase = Init | Staging | Ready | Rejected | Cancelled

  /**
   `eager`: the registry drops a claim once its import finished, not with the build.
   `maxRetries`: how often a build stages failed imports again.
   */
  datatype Config = Config(refs: map<Path, set<Path>>, eager: bool, maxRetries: nat) {
    ghost predicate Valid() { Acyclic(refs) }
  }

  datatype Build = Build(
    closure: set<Path>,
    phase: Phase,
    inputs: set<Path>,        // staged: valid in the store
    pending: set<Path>,       // claimed, requested from the hub
    complete: set<Path>,      // manifest and all chunks arrived
    running: set<Path>,       // handed to the import pool
    done: set<Path>,          // imported by this build
    waits: map<Path, nat>,    // path -> build whose claim this one waits on
    retries: nat)             // failed imports staged again
  {
    function Owned(): set<Path> { pending + running + done }

    function Staged(): set<Path> { inputs + done }
  }

  datatype State = State(valid: set<Path>, claim: map<Path, nat>, builds: seq<Build>)

  predicate Closed(g: map<Path, set<Path>>, ps: set<Path>)
  {
    forall p <- ps :: Refs(g, p) <= ps
  }

  // ---- claims -----------------------------------------------------------------

  datatype ClaimState = Running | Done | Failed

  function ClaimOf(s: State, owner: nat, p: Path): ClaimState
  {
    if owner >= |s.builds| then Failed
    else if p in s.builds[owner].done then Done
    else if s.builds[owner].phase == Staging && p in s.builds[owner].Owned() then Running
    else Failed
  }

  function Release(claim: map<Path, nat>, b: nat): map<Path, nat>
  {
    map p | p in claim && claim[p] != b :: claim[p]
  }

  // ---- steps ------------------------------------------------------------------

  datatype Event =
    | Negotiate(b: nat, seen: set<Path>)
    | Deliver(b: nat, p: Path)
    | Dispatch(b: nat, p: Path)
    | Import(b: nat, p: Path)
    | Restage(b: nat, p: Path)
    | Resolve(b: nat, p: Path)
    | Finish(b: nat)
    | Cancel(b: nat)

  predicate Enabled(c: Config, s: State, e: Event)
  {
    && e.b < |s.builds|
    && s.builds[e.b].phase == (if e.Negotiate? then Init else Staging)
    && Allows(c, s, s.builds[e.b], e)
  }

  predicate Allows(c: Config, s: State, x: Build, e: Event)
  {
    match e
    case Negotiate(_, seen) => seen <= x.closure * s.valid
    case Deliver(_, p) => p in x.pending && p !in x.complete
    case Dispatch(_, p) => p in x.pending && p in x.complete && Refs(c.refs, p) <= x.Staged()
    case Import(_, p) => p in x.running
    case Restage(_, p) => p in x.running && x.retries < c.maxRetries
    case Resolve(_, p) => p in x.waits && ClaimOf(s, x.waits[p], p) != Running
    case Finish(_) => x.pending == {} && x.running == {} && x.waits == map[]
    case _ => true
  }

  /**
   Paths seen valid are inputs, claimed ones are waited for, the rest is claimed. The
   answer may be older than the claims, so what became valid since is fetched again.
   */
  function NegotiateStep(s: State, b: nat, seen: set<Path>): State
    requires b < |s.builds|
  {
    var x := s.builds[b];
    var missing := x.closure - seen;
    var theirs := set p | p in missing && p in s.claim;
    var mine := missing - theirs;
    s.(builds := s.builds[b := x.(phase := Staging,
                                  inputs := seen,
                                  pending := mine,
                                  waits := map p | p in theirs :: s.claim[p])],
       claim := s.claim + map p | p in mine :: b)
  }

  /** AddToStoreNar: the daemon refuses a path whose references are not valid. */
  function ImportStep(c: Config, s: State, b: nat, p: Path): State
    requires b < |s.builds|
  {
    var x := s.builds[b];
    if Refs(c.refs, p) <= s.valid then
      s.(valid := s.valid + {p},
         builds := s.builds[b := x.(running := x.running - {p}, done := x.done + {p})],
         claim := if c.eager then s.claim - {p} else s.claim)
    else
      s.(builds := s.builds[b := x.(phase := Rejected, running := {}, pending := {}, waits := map[])],
         claim := Release(s.claim, b))
  }

  /** The claim waited on settled: an input if done, else follow or take over. */
  function ResolveStep(s: State, b: nat, p: Path): State
    requires b < |s.builds| && p in s.builds[b].waits
  {
    var x := s.builds[b];
    if ClaimOf(s, x.waits[p], p) == Done then
      s.(builds := s.builds[b := x.(inputs := x.inputs + {p}, waits := x.waits - {p})])
    else if p in s.claim then
      s.(builds := s.builds[b := x.(waits := x.waits[p := s.claim[p]])])
    else
      s.(builds := s.builds[b := x.(pending := x.pending + {p}, waits := x.waits - {p})],
         claim := s.claim[p := b])
  }

  function Next(c: Config, s: State, e: Event): State
    requires Enabled(c, s, e)
  {
    var x := s.builds[e.b];
    match e
    case Negotiate(b, seen) => NegotiateStep(s, b, seen)
    case Deliver(b, p) => s.(builds := s.builds[b := x.(complete := x.complete + {p})])
    case Dispatch(b, p) =>
      s.(builds := s.builds[b := x.(pending := x.pending - {p}, running := x.running + {p})])
    case Import(b, p) => ImportStep(c, s, b, p)
    case Restage(b, p) =>
      // corrupt or vanished chunks: they are fetched again under the same claim
      s.(builds := s.builds[b := x.(running := x.running - {p}, pending := x.pending + {p},
                                    complete := x.complete - {p}, retries := x.retries + 1)])
    case Resolve(b, p) => ResolveStep(s, b, p)
    case Finish(b) =>
      s.(builds := s.builds[b := x.(phase := Ready, inputs := x.Staged())], claim := Release(s.claim, b))
    case Cancel(b) =>
      s.(builds := s.builds[b := x.(phase := Cancelled, running := {}, pending := {}, waits := map[])],
         claim := Release(s.claim, b))
  }

  /** Any store closed under references, any builds with closed input closures. */
  predicate Start(c: Config, s: State)
  {
    && Closed(c.refs, s.valid) && s.claim == map[]
    && forall x <- s.builds ::
         x == Build(x.closure, Init, {}, {}, {}, {}, {}, map[], 0) && Closed(c.refs, x.closure)
  }

  ghost predicate Step(c: Config, s: State, t: State)
  {
    exists e :: Enabled(c, s, e) && t == Next(c, s, e)
  }

  ghost predicate IsRun(c: Config, run: seq<State>)
  {
    && |run| > 0 && Start(c, run[0])
    && forall i :: 0 < i < |run| ==> Step(c, run[i - 1], run[i])
  }

  // ---- what every reachable state satisfies --------------------------------------

  /** What one build's own fields satisfy, given the daemon's store. */
  predicate BuildShape(c: Config, valid: set<Path>, x: Build)
  {
    && Closed(c.refs, x.closure)
    && x.Owned() + x.inputs + x.complete + x.waits.Keys <= x.closure
    && x.Staged() <= valid
    && x.pending !! x.running && x.pending !! x.done && x.running !! x.done
    && x.waits.Keys !! x.Owned() + x.inputs
    && x.phase != Rejected && x.retries <= c.maxRetries
    && (x.phase == Init ==> x == Build(x.closure, Init, {}, {}, {}, {}, {}, map[], 0))
    && (x.phase == Staging ==>
          && x.closure <= x.inputs + x.Owned() + x.waits.Keys
          && x.running + x.done <= x.complete <= x.Owned()
          // why the daemon never rejects
          && forall p <- x.running :: Refs(c.refs, p) <= x.Staged())
    && (x.phase != Staging ==> x.pending == {} && x.running == {} && x.waits == map[])
    && (x.phase == Ready ==> x.closure <= valid)
  }

  /** A wait points at another build, which owns the path as long as it is staging. */
  predicate WaitShape(s: State, b: nat)
    requires b < |s.builds|
  {
    forall p <- s.builds[b].waits ::
      var o := s.builds[b].waits[p];
      && o < |s.builds| && o != b && s.builds[o].phase != Init
      && (s.builds[o].phase == Staging ==> p in s.builds[o].Owned())
  }

  /** A live claim points at a staging build that owns the path, and only it fetches it. */
  predicate ClaimShape(s: State)
  {
    && (forall p <- s.claim ::
          s.claim[p] < |s.builds| && s.builds[s.claim[p]].phase == Staging && p in s.builds[s.claim[p]].Owned())
    && (forall b, p :: 0 <= b < |s.builds| && p in s.builds[b].pending + s.builds[b].running ==>
          p in s.claim && s.claim[p] == b)
  }

  predicate BuildOk(c: Config, s: State, b: nat)
  {
    b < |s.builds| ==> BuildShape(c, s.valid, s.builds[b]) && WaitShape(s, b)
  }

  ghost predicate Inv(c: Config, s: State)
  {
    && Closed(c.refs, s.valid)
    && ClaimShape(s)
    && forall b: nat :: BuildOk(c, s, b)
  }
}

/**
 The transfer of one build's inputs between hub and worker, for any path set,
 recipe, channel capacities and resend bound.

 The assignment offers the input closure, some of it with manifests inline. The
 worker answers with one Need naming the paths it lacks and the chunks it lacks
 for the inline manifests. The hub sends a Manifest per missing path and, per
 Need carrying hashes, those chunks followed by one Eof. Both channels are
 bounded FIFOs. The worker's chunk store may lose any chunk at any time, and
 other builds share both the store and the channel toward the worker.
 */
module Relay {
  import opened StorePath

  type Chunk = int

  /** `capW` bounds the channel toward the worker, `capH` the one toward the hub. */
  datatype Config = Config(recipe: map<Path, set<Chunk>>, capW: nat, capH: nat, maxRounds: nat) {
    predicate Valid() { capW >= 2 && capH >= 1 }

    function Paths(): set<Path> { recipe.Keys }

    function Recipe(p: Path): set<Chunk> { if p in recipe then recipe[p] else {} }

    function ChunksOf(ps: set<Path>): set<Chunk> { set p, x | p in ps && x in Recipe(p) :: x }
  }

  datatype Message = Man(path: Path) | Chunks(chunks: set<Chunk>) | Eof | Other

  datatype Need = Need(paths: set<Path>, hashes: set<Chunk>)

  datatype Phase = Init | Staging | Ready | GaveUp | ProtoErr

  /** (chunk, path): the path awaits the chunk. */
  type Waits = set<(Chunk, Path)>

  datatype State = State(
    // hub -> worker, after the assignment
    w: seq<Message>,
    // worker -> hub
    h: seq<Need>,
    // hub: manifests in the assignment, on the wire, being computed, computed
    // but unsent; hashes of Needs read and not yet answered
    inline: set<Path>, sent: set<Path>, computing: set<Path>, outbox: set<Path>,
    q: seq<set<Chunk>>, hubErr: bool,
    // worker
    have: set<Path>, phase: Phase, pending: set<Path>, recipes: set<Path>, store: set<Chunk>,
    awaiting: Waits, outstanding: int, rounds: nat, imported: set<Path>)

  function Missing(c: Config, s: State): set<Path> { c.Paths() - s.have }

  // ---- worker ---------------------------------------------------------------

  predicate WaitsOn(aw: Waits, p: Path) { exists w <- aw :: w.1 == p }

  predicate Awaited(aw: Waits, x: Chunk) { exists w <- aw :: w.0 == x }

  /** The chunks of `ps` absent from `st`, each with the path lacking it. */
  function Lacking(c: Config, ps: set<Path>, st: set<Chunk>): Waits
  {
    set p, x | p in ps && x in c.Recipe(p) && x !in st :: (x, p)
  }

  /** Chunks in `l` nobody awaited yet get requested. */
  function Fresh(aw: Waits, l: Waits): set<Chunk>
  {
    set w | w in l && !Awaited(aw, w.0) :: w.0
  }

  /** What handling one message does to the worker, before candidates are settled. */
  datatype Handling = Handling(
    cand: set<Path>, pend: set<Path>, rec: set<Path>, st: set<Chunk>, aw: Waits,
    needPaths: set<Path>, needHashes: set<Chunk>, answered: nat, countRound: bool, err: bool)

  /** Candidates that wait on nothing: imported if complete, else they await again. */
  function Settling(hd: Handling): set<Path>
  {
    set p | p in hd.cand && p in hd.pend && !WaitsOn(hd.aw, p)
  }

  function Complete(c: Config, hd: Handling): set<Path>
  {
    set p | p in Settling(hd) && c.Recipe(p) <= hd.st
  }

  function Retry(c: Config, hd: Handling): Waits
  {
    Lacking(c, Settling(hd) - Complete(c, hd), hd.st)
  }

  function Hashes(c: Config, hd: Handling): set<Chunk>
  {
    hd.needHashes + Fresh(hd.aw, Retry(c, hd))
  }

  predicate Sends(c: Config, hd: Handling) { hd.needPaths != {} || Hashes(c, hd) != {} }

  predicate Bumps(c: Config, hd: Handling) { hd.countRound && Hashes(c, hd) != {} }

  function Settle(c: Config, s: State, hd: Handling): State
  {
    var ok := Complete(c, hd);
    var pend := hd.pend - ok;
    s.(pending := pend,
       recipes := hd.rec,
       store := hd.st,
       awaiting := hd.aw + Retry(c, hd),
       imported := s.imported + ok,
       h := if Sends(c, hd) then s.h + [Need(hd.needPaths, Hashes(c, hd))] else s.h,
       outstanding := s.outstanding - hd.answered + (if Hashes(c, hd) != {} then 1 else 0),
       rounds := if Bumps(c, hd) then s.rounds + 1 else s.rounds,
       phase := if hd.err then ProtoErr
                else if Bumps(c, hd) && s.rounds + 1 > c.maxRounds then GaveUp
                else if pend == {} then Ready
                else Staging)
  }

  function OnAssignment(c: Config, s: State): Handling
  {
    var missing := Missing(c, s);
    var rec := s.inline * missing;
    var l := Lacking(c, rec, s.store);
    Handling(rec, missing, rec, s.store, s.awaiting + l, missing, Fresh(s.awaiting, l), 0, false, false)
  }

  function Ignore(s: State, answered: nat, err: bool): Handling
  {
    Handling({}, s.pending, s.recipes, s.store, s.awaiting, {}, {}, answered, false, err)
  }

  function OnManifest(c: Config, s: State, p: Path): Handling
  {
    if p in s.pending && p !in s.recipes then
      var l := Lacking(c, {p}, s.store);
      Handling({p}, s.pending, s.recipes + {p}, s.store, s.awaiting + l, {}, Fresh(s.awaiting, l), 0, false, false)
    else
      Ignore(s, 0, !(p in s.have || p in s.imported))
  }

  function OnChunks(s: State, cs: set<Chunk>): Handling
  {
    var woken := set w | w in s.awaiting && w.0 in cs :: w.1;
    var aw := set w | w in s.awaiting && w.0 !in cs;
    Handling(woken, s.pending, s.recipes, s.store + cs, aw, {}, {}, 0, true, false)
  }

  /** Every Need is answered. Paths that still wait ask again for what is gone. */
  function OnLastEof(c: Config, s: State): Handling
  {
    var stuck := set p | p in s.pending && WaitsOn(s.awaiting, p);
    var l := Lacking(c, stuck, s.store);
    Handling(stuck, s.pending, s.recipes, s.store, l, {}, Fresh({}, l), 1, true, false)
  }

  function OnMessage(c: Config, s: State, m: Message): Handling
  {
    match m
    case Man(p) => OnManifest(c, s, p)
    case Chunks(cs) => OnChunks(s, cs)
    case Eof =>
      if s.outstanding == 1 then OnLastEof(c, s)
      else if s.outstanding > 1 then Ignore(s, 1, false)
      else Ignore(s, 0, true)
    case Other => Ignore(s, 0, false)
  }

  // ---- steps ----------------------------------------------------------------

  datatype Event =
    | Negotiate
    | WorkerRecv
    | HubRecv
    | HubServe
    | HubTake(path: Path)
    | HubFlush(path: Path)
    | Evict(chunk: Chunk)
    // other builds of the same worker
    | OtherTraffic
    | OtherStore(chunk: Chunk)

  predicate Foreign(e: Event) { e.OtherTraffic? || e.OtherStore? }

  predicate Enabled(c: Config, s: State, e: Event)
  {
    match e
    case Negotiate => s.phase == Init && (Sends(c, OnAssignment(c, s)) ==> |s.h| < c.capH)
    case WorkerRecv =>
      && |s.w| > 0 && (s.phase == Staging || s.phase == Ready)
      && (Sends(c, OnMessage(c, s, s.w[0])) ==> |s.h| < c.capH)
    case HubRecv => |s.h| > 0 && !s.hubErr
    case HubServe => |s.q| > 0 && !s.hubErr && |s.w| + 2 <= c.capW
    case HubTake(p) => p in s.computing && !s.hubErr
    case HubFlush(p) => p in s.outbox && !s.hubErr && |s.w| < c.capW
    case Evict(x) => x in s.store
    case OtherTraffic => s.phase != Init && |s.w| < c.capW
    case OtherStore(x) => x !in s.store
  }

  /** A Need outside the offer, or for chunks of no manifest sent. */
  predicate Bogus(c: Config, s: State, n: Need)
  {
    !(n.paths <= c.Paths()) || !(n.hashes <= c.ChunksOf(s.sent))
  }

  function Next(c: Config, s: State, e: Event): State
    requires Enabled(c, s, e)
  {
    match e
    case Negotiate => Settle(c, s, OnAssignment(c, s))
    case WorkerRecv => Settle(c, s.(w := s.w[1..]), OnMessage(c, s, s.w[0]))
    case HubRecv =>
      var n := s.h[0];
      s.(h := s.h[1..],
         hubErr := Bogus(c, s, n),
         computing := s.computing + (n.paths - s.sent - s.outbox),
         q := if Bogus(c, s, n) || n.hashes == {} then s.q else s.q + [n.hashes])
    case HubServe => s.(w := s.w + [Chunks(s.q[0]), Eof], q := s.q[1..])
    case HubTake(p) => s.(computing := s.computing - {p}, outbox := s.outbox + {p})
    case HubFlush(p) => s.(outbox := s.outbox - {p}, sent := s.sent + {p}, w := s.w + [Man(p)])
    case Evict(x) => s.(store := s.store - {x})
    case OtherTraffic => s.(w := s.w + [Other])
    case OtherStore(x) => s.(store := s.store + {x})
  }

  /** Nothing exchanged yet. Which paths are held, inline or cached is arbitrary. */
  predicate Start(c: Config, s: State)
  {
    && s.w == [] && s.h == [] && s.q == [] && !s.hubErr
    && s.inline <= c.Paths() && s.sent == s.inline && s.computing == {} && s.outbox == {}
    && s.have <= c.Paths() && s.phase == Init
    && s.pending == {} && s.recipes == {} && s.awaiting == {} && s.imported == {}
    && s.outstanding == 0 && s.rounds == 0
  }

  ghost predicate Step(c: Config, s: State, t: State)
  {
    exists e :: Enabled(c, s, e) && t == Next(c, s, e)
  }

  ghost predicate IsRun(c: Config, run: seq<State>)
  {
    && |run| > 0 && Start(c, run[0])
    && forall i :: 0 < i < |run| ==> Step(c, run[i - 1], run[i])
  }

  // ---- what every reachable state satisfies -----------------------------------

  function Eofs(w: seq<Message>): nat
  {
    if w == [] then 0 else (if w[0].Eof? then 1 else 0) + Eofs(w[1..])
  }

  function HashNeeds(h: seq<Need>): nat
  {
    if h == [] then 0 else (if h[0].hashes != {} then 1 else 0) + HashNeeds(h[1..])
  }

  /** Each outstanding Need is en route, queued, or its Eof is en route. */
  predicate EofAccounting(s: State)
  {
    s.outstanding == HashNeeds(s.h) + |s.q| + Eofs(s.w)
  }

  predicate NoProtocolError(s: State) { s.phase != ProtoErr && !s.hubErr }

  predicate ReadyMeansStaged(c: Config, s: State)
  {
    s.phase == Ready ==> c.Paths() <= s.have + s.imported
  }

  /** The hub's queue of unanswered Needs is unbounded in the code, yet stays small. */
  predicate BoundedBacklog(s: State)
  {
    |s.h| + |s.q| + Eofs(s.w) <= 1 + |s.recipes - s.inline| + s.rounds
  }

  predicate InitShape(c: Config, s: State)
  {
    s.phase == Init ==> Start(c, s)
  }

  predicate PathShape(c: Config, s: State)
  {
    && s.pending !! s.imported
    && s.pending + s.imported == Missing(c, s)
    && s.imported <= s.recipes <= Missing(c, s)
    && s.recipes <= s.sent
  }

  predicate PhaseShape(c: Config, s: State)
  {
    && s.phase != ProtoErr
    && (s.phase == Ready ==> s.pending == {})
    && (s.phase == Staging ==> s.pending != {})
    && (s.phase == Staging || s.phase == Ready ==> s.rounds <= c.maxRounds)
    && s.rounds <= c.maxRounds + 1
  }

  predicate WaitShape(c: Config, s: State)
  {
    && (forall w <- s.awaiting :: w.1 in s.pending && w.1 in s.recipes && w.0 in c.Recipe(w.1))
    && (forall p <- s.pending :: p in s.recipes ==> WaitsOn(s.awaiting, p))
    && (s.awaiting != {} ==> s.outstanding > 0)
  }

  predicate HubShape(c: Config, s: State)
  {
    && s.computing !! s.sent && s.outbox !! s.sent && s.outbox !! s.computing
    && s.computing <= Missing(c, s) && s.outbox <= Missing(c, s)
    && s.inline <= s.sent <= s.inline + Missing(c, s)
    && !s.hubErr
    && forall hs <- s.q :: hs <= c.ChunksOf(s.sent)
  }

  /** Where the manifest of a path is: nothing is lost on the way. */
  predicate ManifestShape(c: Config, s: State)
  {
    && (forall p <- s.pending ::
          p in s.recipes || p in s.computing || p in s.outbox || Man(p) in s.w || PathNeed(s.h, p))
    && (forall p <- s.sent :: p in Missing(c, s) ==> p in s.recipes || Man(p) in s.w)
  }

  predicate PathNeed(h: seq<Need>, p: Path) { exists n <- h :: p in n.paths }

  predicate WireShape(c: Config, s: State)
  {
    && (forall m <- s.w :: m.Man? ==>
          m.path in s.sent && m.path !in s.inline && m.path in s.pending && m.path !in s.recipes)
    && (forall i, j :: 0 <= i < j < |s.w| && s.w[i].Man? ==> s.w[j] != s.w[i])
    && (forall n <- s.h :: n.paths <= Missing(c, s) && n.hashes <= c.ChunksOf(s.recipes))
  }

  predicate Inv(c: Config, s: State)
  {
    && s.have <= c.Paths() && s.inline <= c.Paths()
    && InitShape(c, s)
    && (s.phase != Init ==>
          && PathShape(c, s) && PhaseShape(c, s) && WaitShape(c, s)
          && HubShape(c, s) && ManifestShape(c, s) && WireShape(c, s)
          && EofAccounting(s) && BoundedBacklog(s))
  }
}

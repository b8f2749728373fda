/** Every reachable state of the transfer protocol is safe and can move on. */
module RelaySafety {
  import opened StorePath
  import opened Relay

  // ---- counting in channels ---------------------------------------------------

  lemma {:induction false} EofsAppend(a: seq<Message>, b: seq<Message>)
    ensures Eofs(a + b) == Eofs(a) + Eofs(b)
  {
    if a == [] {
      assert a + b == b;
    } else {
      EofsAppend(a[1..], b);
      assert (a + b)[1..] == a[1..] + b;
    }
  }

  lemma {:induction false} HashNeedsAppend(a: seq<Need>, n: Need)
    ensures HashNeeds(a + [n]) == HashNeeds(a) + (if n.hashes != {} then 1 else 0)
  {
    if a == [] {
      assert a + [n] == [n];
    } else {
      HashNeedsAppend(a[1..], n);
      assert (a + [n])[1..] == a[1..] + [n];
    }
  }

  // ---- settling a message -----------------------------------------------------

  /** What a handler must hand over for `Settle` to keep the invariant. */
  predicate PathsGood(c: Config, s: State, hd: Handling)
  {
    && !hd.err
    && hd.pend !! s.imported && hd.pend + s.imported == Missing(c, s)
    && s.recipes <= hd.rec <= Missing(c, s) && hd.rec <= s.sent
    && s.imported <= s.recipes
    && (forall p <- hd.cand :: p in hd.pend ==> p in hd.rec)
  }

  predicate WaitsGood(c: Config, s: State, hd: Handling)
  {
    && (forall w <- hd.aw :: w.1 in hd.pend && w.1 in hd.rec && w.0 in c.Recipe(w.1))
    && (forall p <- hd.pend :: p in hd.rec ==> WaitsOn(hd.aw, p) || p in hd.cand)
    && s.outstanding >= hd.answered
    && (hd.aw != {} ==> s.outstanding - hd.answered > 0 || hd.needHashes != {})
  }

  predicate NeedGood(c: Config, s: State, hd: Handling)
  {
    && hd.needPaths <= Missing(c, s) && hd.needHashes <= c.ChunksOf(hd.rec)
    && (forall p <- hd.pend ::
          p in hd.rec || p in hd.needPaths || p in s.computing || p in s.outbox || Man(p) in s.w || PathNeed(s.h, p))
    && (forall p <- s.sent :: p in Missing(c, s) ==> p in hd.rec || Man(p) in s.w)
    && (forall m <- s.w :: m.Man? ==>
          m.path in s.sent && m.path !in s.inline && m.path in hd.pend && m.path !in hd.rec)
  }

  predicate CountsGood(c: Config, s: State, hd: Handling)
  {
    && s.outstanding == HashNeeds(s.h) + |s.q| + Eofs(s.w) + hd.answered
    && |s.h| + |s.q| + Eofs(s.w) + (if Sends(c, hd) then 1 else 0)
       <= 1 + |hd.rec - s.inline| + s.rounds + (if Bumps(c, hd) then 1 else 0)
    && s.rounds <= c.maxRounds
  }

  /** The part of the invariant no worker step touches. */
  predicate Frame(c: Config, s: State)
  {
    && s.have <= c.Paths() && s.inline <= c.Paths()
    && HubShape(c, s)
    && (forall i, j :: 0 <= i < j < |s.w| && s.w[i].Man? ==> s.w[j] != s.w[i])
    && (forall n <- s.h :: n.paths <= Missing(c, s) && n.hashes <= c.ChunksOf(s.recipes))
  }

  predicate Good(c: Config, s: State, hd: Handling)
  {
    Frame(c, s) && PathsGood(c, s, hd) && WaitsGood(c, s, hd) && NeedGood(c, s, hd) && CountsGood(c, s, hd)
  }

  lemma CompleteNamed(c: Config, s: State, hd: Handling)
    requires PathsGood(c, s, hd)
    ensures Complete(c, hd) <= hd.pend && Complete(c, hd) <= hd.rec
  {}

  lemma SettlePaths(c: Config, s: State, hd: Handling)
    requires PathsGood(c, s, hd)
    ensures PathShape(c, Settle(c, s, hd))
  {
    CompleteNamed(c, s, hd);
    var ok := Complete(c, hd);
    assert (hd.pend - ok) + (s.imported + ok) == hd.pend + s.imported;
  }

  lemma SettlePhase(c: Config, s: State, hd: Handling)
    requires !hd.err && s.rounds <= c.maxRounds
    ensures PhaseShape(c, Settle(c, s, hd))
  {}

  lemma LacksOrHolds(c: Config, ps: set<Path>, st: set<Chunk>, p: Path)
    requires p in ps
    ensures WaitsOn(Lacking(c, ps, st), p) || c.Recipe(p) <= st
  {
    if !WaitsOn(Lacking(c, ps, st), p) {
      forall x | x in c.Recipe(p)
        ensures x in st
      {
        assert x !in st ==> (x, p) in Lacking(c, ps, st);
      }
    }
  }

  lemma RetryNames(c: Config, hd: Handling)
    ensures forall w <- Retry(c, hd) ::
              w.1 in Settling(hd) && w.1 !in Complete(c, hd) && w.0 in c.Recipe(w.1) && w.0 !in hd.st
    ensures forall p <- Settling(hd) :: p !in Complete(c, hd) ==> WaitsOn(Retry(c, hd), p)
  {
    forall p | p in Settling(hd) && p !in Complete(c, hd)
      ensures WaitsOn(Retry(c, hd), p)
    {
      LacksOrHolds(c, Settling(hd) - Complete(c, hd), hd.st, p);
    }
  }

  lemma SettleWaits(c: Config, s: State, hd: Handling)
    requires Good(c, s, hd)
    ensures WaitShape(c, Settle(c, s, hd))
  {
    var t := Settle(c, s, hd);
    RetryNames(c, hd);
    forall w | w in t.awaiting
      ensures w.1 in t.pending && w.1 in t.recipes && w.0 in c.Recipe(w.1)
    {
      if w in hd.aw {
        assert WaitsOn(hd.aw, w.1);
      }
    }
    forall p | p in t.pending && p in t.recipes
      ensures WaitsOn(t.awaiting, p)
    {
      if WaitsOn(hd.aw, p) {
        var w :| w in hd.aw && w.1 == p;
        assert w in t.awaiting;
      } else {
        assert WaitsOn(Retry(c, hd), p);
        var w :| w in Retry(c, hd) && w.1 == p;
        assert w in t.awaiting;
      }
    }
    if t.awaiting != {} && hd.aw == {} {
      var w :| w in Retry(c, hd);
      assert w.0 in Fresh(hd.aw, Retry(c, hd));
    }
  }

  lemma HashesNamed(c: Config, hd: Handling)
    requires hd.needHashes <= c.ChunksOf(hd.rec)
    requires forall p <- hd.cand :: p in hd.pend ==> p in hd.rec
    ensures Hashes(c, hd) <= c.ChunksOf(hd.rec)
  {
    RetryNames(c, hd);
    forall x | x in Fresh(hd.aw, Retry(c, hd))
      ensures x in c.ChunksOf(hd.rec)
    {
      var w :| w in Retry(c, hd) && w.0 == x;
      assert w.1 in hd.rec && x in c.Recipe(w.1);
    }
  }

  lemma ChunksOfGrows(c: Config, a: set<Path>, b: set<Path>)
    requires a <= b
    ensures c.ChunksOf(a) <= c.ChunksOf(b)
  {}

  lemma SettleWire(c: Config, s: State, hd: Handling)
    requires Good(c, s, hd)
    ensures WireShape(c, Settle(c, s, hd))
  {
    var t := Settle(c, s, hd);
    HashesNamed(c, hd);
    ChunksOfGrows(c, s.recipes, hd.rec);
    forall m | m in t.w && m.Man?
      ensures m.path in t.pending
    {
      assert m in s.w;
      assert Complete(c, hd) <= hd.rec;
    }
    forall n | n in t.h
      ensures n.paths <= Missing(c, t) && n.hashes <= c.ChunksOf(t.recipes)
    {
      assert n in s.h || n == Need(hd.needPaths, Hashes(c, hd));
    }
  }

  lemma PathNeedKept(h: seq<Need>, n: Need, p: Path)
    ensures PathNeed(h, p) ==> PathNeed(h + [n], p)
    ensures p in n.paths ==> PathNeed(h + [n], p)
  {
    if PathNeed(h, p) {
      var m :| m in h && p in m.paths;
      assert m in h + [n];
    }
    assert n in h + [n];
  }

  lemma SettleManifests(c: Config, s: State, hd: Handling)
    requires Good(c, s, hd)
    ensures ManifestShape(c, Settle(c, s, hd))
  {
    var t := Settle(c, s, hd);
    forall p | p in t.pending
      ensures p in t.recipes || p in t.computing || p in t.outbox || Man(p) in t.w || PathNeed(t.h, p)
    {
      PathNeedKept(s.h, Need(hd.needPaths, Hashes(c, hd)), p);
    }
  }

  lemma SettleCounts(c: Config, s: State, hd: Handling)
    requires Good(c, s, hd)
    ensures EofAccounting(Settle(c, s, hd)) && BoundedBacklog(Settle(c, s, hd))
  {
    HashNeedsAppend(s.h, Need(hd.needPaths, Hashes(c, hd)));
  }

  lemma SettleInv(c: Config, s: State, hd: Handling)
    requires Good(c, s, hd)
    ensures Inv(c, Settle(c, s, hd))
  {
    SettlePaths(c, s, hd);
    SettlePhase(c, s, hd);
    SettleWaits(c, s, hd);
    SettleWire(c, s, hd);
    SettleManifests(c, s, hd);
    SettleCounts(c, s, hd);
  }

  // ---- each handler is good -----------------------------------------------------

  lemma {:induction false} AssignmentGood(c: Config, s: State)
    requires Start(c, s)
    ensures Good(c, s, OnAssignment(c, s))
  {
    var hd := OnAssignment(c, s);
    forall p | p in hd.pend && p in hd.rec
      ensures WaitsOn(hd.aw, p) || p in hd.cand
    {}
    FreshNamed(c, hd.rec, s.store, s.awaiting);
    if hd.aw != {} {
      var w :| w in hd.aw;
      assert w.0 in hd.needHashes;
    }
    assert hd.rec - s.inline == {};
  }

  /** Fresh chunks come from the recipes of the paths that lack them. */
  lemma FreshNamed(c: Config, ps: set<Path>, st: set<Chunk>, aw: Waits)
    ensures Fresh(aw, Lacking(c, ps, st)) <= c.ChunksOf(ps)
  {
    forall x | x in Fresh(aw, Lacking(c, ps, st))
      ensures x in c.ChunksOf(ps)
    {
      var w :| w in Lacking(c, ps, st) && w.0 == x;
      assert w.1 in ps && x in c.Recipe(w.1);
    }
  }

  function Popped(s: State): State
    requires |s.w| > 0
  {
    s.(w := s.w[1..])
  }

  lemma PopFrame(c: Config, s: State)
    requires Inv(c, s) && s.phase != Init && |s.w| > 0
    ensures Frame(c, Popped(s))
    ensures forall m <- s.w :: m in Popped(s).w || m == s.w[0]
    ensures forall m <- Popped(s).w :: m in s.w && (m.Man? ==> m != s.w[0])
    ensures Eofs(s.w) == Eofs(Popped(s).w) + (if s.w[0].Eof? then 1 else 0)
  {
    var w := s.w[1..];
    assert forall i :: 0 <= i < |w| ==> w[i] == s.w[i + 1];
    assert s.w == [s.w[0]] + w;
  }

  lemma IgnoreGood(c: Config, s: State, answered: nat)
    requires Inv(c, s) && (s.phase == Staging || s.phase == Ready) && |s.w| > 0
    requires !s.w[0].Man?
    requires answered == if s.w[0].Eof? then 1 else 0
    requires answered > 0 ==> s.outstanding > 1
    ensures Good(c, Popped(s), Ignore(s, answered, false))
  {
    var hd := Ignore(s, answered, false);
    PopFrame(c, s);
    assert Settling(hd) == {};
    assert Retry(c, hd) == {};
    assert Hashes(c, hd) == {};
  }

  lemma ManifestNeed(c: Config, s: State, p: Path)
    requires Inv(c, s) && s.phase != Init && |s.w| > 0 && s.w[0] == Man(p)
    requires p in s.pending && p !in s.recipes && p in s.sent && p !in s.inline
    ensures NeedGood(c, Popped(s), OnManifest(c, s, p)) && PathsGood(c, Popped(s), OnManifest(c, s, p))
  {
    var hd := OnManifest(c, s, p);
    PopFrame(c, s);
    FreshNamed(c, {p}, s.store, s.awaiting);
    ChunksOfGrows(c, {p}, hd.rec);
  }

  lemma ManifestGood(c: Config, s: State)
    requires Inv(c, s) && (s.phase == Staging || s.phase == Ready) && |s.w| > 0
    requires s.w[0].Man?
    ensures Good(c, Popped(s), OnManifest(c, s, s.w[0].path))
  {
    var p := s.w[0].path;
    PopFrame(c, s);
    assert s.w[0] in s.w;
    ManifestNeed(c, s, p);
    ManifestWaits(c, s, p);
    assert s.recipes + {p} - s.inline == (s.recipes - s.inline) + {p};
  }

  lemma ManifestWaits(c: Config, s: State, p: Path)
    requires PathShape(c, s) && WaitShape(c, s) && p in s.pending && p !in s.recipes && s.outstanding >= 0
    ensures WaitsGood(c, s, OnManifest(c, s, p))
  {
    var hd := OnManifest(c, s, p);
    forall q | q in hd.pend && q in hd.rec
      ensures WaitsOn(hd.aw, q) || q in hd.cand
    {
      if q != p {
        var w :| w in s.awaiting && w.1 == q;
        assert w in hd.aw;
      }
    }
    if hd.aw != {} && s.awaiting == {} {
      var w :| w in hd.aw;
      assert w.0 in hd.needHashes;
    }
  }

  lemma ChunksGood(c: Config, s: State)
    requires Inv(c, s) && (s.phase == Staging || s.phase == Ready) && |s.w| > 0
    requires s.w[0].Chunks?
    ensures Good(c, Popped(s), OnChunks(s, s.w[0].chunks))
  {
    hide Frame, PathsGood, WaitsGood, NeedGood, CountsGood, Inv;
    PopFrame(c, s);
    ChunksPaths(c, s);
    ChunksWaits(c, s);
    ChunksCounts(c, s);
  }

  lemma ChunksPaths(c: Config, s: State)
    requires Inv(c, s) && (s.phase == Staging || s.phase == Ready) && |s.w| > 0 && s.w[0].Chunks?
    ensures var hd := OnChunks(s, s.w[0].chunks); PathsGood(c, Popped(s), hd) && NeedGood(c, Popped(s), hd)
  {
    PopFrame(c, s);
  }

  lemma ChunksWaits(c: Config, s: State)
    requires Inv(c, s) && (s.phase == Staging || s.phase == Ready) && |s.w| > 0 && s.w[0].Chunks?
    ensures WaitsGood(c, Popped(s), OnChunks(s, s.w[0].chunks))
  {
    hide HubShape, ManifestShape, WireShape, Eofs, HashNeeds;
    var cs := s.w[0].chunks;
    forall q | q in s.pending && q in s.recipes
      ensures WaitsOn(OnChunks(s, cs).aw, q) || q in OnChunks(s, cs).cand
    {
      ChunksWake(s, cs, q);
    }
  }

  lemma ChunksCounts(c: Config, s: State)
    requires Inv(c, s) && (s.phase == Staging || s.phase == Ready) && |s.w| > 0 && s.w[0].Chunks?
    ensures CountsGood(c, Popped(s), OnChunks(s, s.w[0].chunks))
  {
    PopFrame(c, s);
    hide HubShape, ManifestShape, WireShape, WaitShape, PathShape, Frame;
  }

  /** A waiting path waits on another chunk or is woken. */
  lemma ChunksWake(s: State, cs: set<Chunk>, q: Path)
    requires WaitsOn(s.awaiting, q)
    ensures WaitsOn(OnChunks(s, cs).aw, q) || q in OnChunks(s, cs).cand
  {
    var hd := OnChunks(s, cs);
    var w :| w in s.awaiting && w.1 == q;
    if w.0 in cs {
      assert q in hd.cand;
    } else {
      assert w in hd.aw;
    }
  }

  lemma LastEofGood(c: Config, s: State)
    requires Inv(c, s) && (s.phase == Staging || s.phase == Ready) && |s.w| > 0
    requires s.w[0].Eof? && s.outstanding == 1
    ensures Good(c, Popped(s), OnLastEof(c, s))
  {
    var hd := OnLastEof(c, s);
    PopFrame(c, s);
    FreshNamed(c, hd.cand, s.store, {});
    forall p | p in hd.cand
      ensures p in s.recipes
    {
      var w :| w in s.awaiting && w.1 == p;
    }
    ChunksOfGrows(c, hd.cand, hd.rec);
    if hd.aw != {} {
      var w :| w in hd.aw;
      assert w.0 in hd.needHashes;
    }
  }

  lemma WorkerRecvInv(c: Config, s: State)
    requires Inv(c, s) && Enabled(c, s, WorkerRecv)
    ensures Inv(c, Next(c, s, WorkerRecv))
  {
    var m := s.w[0];
    PopFrame(c, s);
    match m {
      case Man(p) => ManifestGood(c, s);
      case Chunks(cs) => ChunksGood(c, s);
      case Eof => if s.outstanding == 1 { LastEofGood(c, s); } else { IgnoreGood(c, s, 1); }
      case Other => IgnoreGood(c, s, 0);
    }
    SettleInv(c, Popped(s), OnMessage(c, s, m));
  }

  // ---- hub and environment steps ----------------------------------------------

  lemma HubRecvNeeds(c: Config, s: State)
    requires Inv(c, s) && Enabled(c, s, HubRecv)
    ensures !Bogus(c, s, s.h[0])
    ensures forall p <- s.pending :: PathNeed(s.h, p) ==> PathNeed(s.h[1..], p) || p in s.h[0].paths
    ensures forall n <- s.h[1..] :: n in s.h
  {
    var n := s.h[0];
    assert n in s.h && s.h == [n] + s.h[1..];
    ChunksOfGrows(c, s.recipes, s.sent);
    forall p | p in s.pending && PathNeed(s.h, p)
      ensures PathNeed(s.h[1..], p) || p in n.paths
    {
      var m :| m in s.h && p in m.paths;
      if m != n { assert m in s.h[1..]; }
    }
  }

  lemma HubRecvHub(c: Config, s: State)
    requires HubShape(c, s) && |s.h| > 0 && !s.hubErr && !Bogus(c, s, s.h[0]) && s.h[0].paths <= Missing(c, s)
    ensures HubShape(c, Next(c, s, HubRecv))
  {
    var t := Next(c, s, HubRecv);
    assert forall hs <- t.q :: hs in s.q || hs == s.h[0].hashes;
  }

  lemma HubRecvInv(c: Config, s: State)
    requires Inv(c, s) && Enabled(c, s, HubRecv)
    ensures Inv(c, Next(c, s, HubRecv))
  {
    var t := Next(c, s, HubRecv);
    HubRecvNeeds(c, s);
    assert s.h[0] in s.h && s.h == [s.h[0]] + t.h;
    assert HubShape(c, t) by { HubRecvHub(c, s); }
    assert ManifestShape(c, t);
  }

  /** Messages other than manifests say nothing about where manifests are. */
  lemma PlainMessage(c: Config, s: State, m: Message)
    requires ManifestShape(c, s) && WireShape(c, s) && !m.Man?
    ensures ManifestShape(c, s.(w := s.w + [m])) && WireShape(c, s.(w := s.w + [m]))
    ensures Eofs(s.w + [m]) == Eofs(s.w) + (if m.Eof? then 1 else 0)
  {
    var t := s.(w := s.w + [m]);
    EofsAppend(s.w, [m]);
    assert forall x <- t.w :: x in s.w || x == m;
    assert forall x <- s.w :: x in t.w;
  }

  lemma HubServeInv(c: Config, s: State)
    requires Inv(c, s) && Enabled(c, s, HubServe)
    ensures Inv(c, Next(c, s, HubServe))
  {
    var t := Next(c, s, HubServe);
    var a := Chunks(s.q[0]);
    var r := s.(w := s.w + [a]);
    PlainMessage(c, s, a);
    PlainMessage(c, r, Eof);
    assert t.w == r.w + [Eof] && t.q == s.q[1..];
    assert HubShape(c, t);
    assert ManifestShape(c, r.(w := r.w + [Eof])) && WireShape(c, r.(w := r.w + [Eof]));
  }

  lemma HubFlushInv(c: Config, s: State, p: Path)
    requires Inv(c, s) && Enabled(c, s, HubFlush(p))
    ensures Inv(c, Next(c, s, HubFlush(p)))
  {
    var t := Next(c, s, HubFlush(p));
    EofsAppend(s.w, [Man(p)]);
    ChunksOfGrows(c, s.sent, t.sent);
    assert forall m <- t.w :: m in s.w || m == Man(p);
    assert forall m <- s.w :: m in t.w;
    assert Man(p) in t.w;
    assert Man(p) !in s.w;
  }

  lemma OtherTrafficInv(c: Config, s: State)
    requires Inv(c, s) && Enabled(c, s, OtherTraffic)
    ensures Inv(c, Next(c, s, OtherTraffic))
  {
    PlainMessage(c, s, Other);
  }

  lemma InvStep(c: Config, s: State, e: Event)
    requires Inv(c, s) && Enabled(c, s, e)
    ensures Inv(c, Next(c, s, e))
  {
    match e {
      case Negotiate =>
        AssignmentGood(c, s);
        SettleInv(c, s, OnAssignment(c, s));
      case WorkerRecv => WorkerRecvInv(c, s);
      case HubRecv => HubRecvInv(c, s);
      case HubServe => HubServeInv(c, s);
      case HubTake(p) =>
      case HubFlush(p) => HubFlushInv(c, s, p);
      case Evict(x) =>
      case OtherTraffic => OtherTrafficInv(c, s);
      case OtherStore(x) =>
    }
  }

  lemma InvStepTo(c: Config, s: State, t: State)
    requires Inv(c, s) && Step(c, s, t)
    ensures Inv(c, t)
  {
    hide Inv, Enabled, Next;
    var e :| Enabled(c, s, e) && t == Next(c, s, e);
    InvStep(c, s, e);
  }

  lemma StartInv(c: Config, s: State)
    requires Start(c, s)
    ensures Inv(c, s)
  {}

  lemma {:induction false} InvRunAt(c: Config, run: seq<State>, i: nat)
    requires IsRun(c, run) && i < |run|
    ensures Inv(c, run[i])
  {
    hide Inv, Step, Start;
    if i == 0 {
      StartInv(c, run[0]);
    } else {
      InvRunAt(c, run, i - 1);
      InvStepTo(c, run[i - 1], run[i]);
    }
  }

  lemma InvRun(c: Config, run: seq<State>)
    requires IsRun(c, run)
    ensures forall s <- run :: Inv(c, s)
  {
    hide Inv, IsRun;
    forall i | 0 <= i < |run|
      ensures Inv(c, run[i])
    {
      InvRunAt(c, run, i);
    }
  }

  // ---- main results -------------------------------------------------------------

  predicate Decided(s: State) { s.phase == Ready || s.phase == GaveUp }

  /** Some handler of this build, eviction aside, can run. */
  ghost predicate CanMove(c: Config, s: State)
  {
    exists e :: !Foreign(e) && !e.Evict? && Enabled(c, s, e)
  }

  lemma NoDeadlock(c: Config, s: State)
    requires c.Valid() && Inv(c, s) && !Decided(s)
    ensures CanMove(c, s)
  {
    if s.phase == Init {
      assert Enabled(c, s, Negotiate);
    } else if |s.h| > 0 {
      assert Enabled(c, s, HubRecv);
    } else if |s.w| > 0 {
      assert Enabled(c, s, WorkerRecv);
    } else if |s.q| > 0 {
      assert Enabled(c, s, HubServe);
    } else if s.computing != {} {
      var p :| p in s.computing;
      assert Enabled(c, s, HubTake(p));
    } else if s.outbox != {} {
      var p :| p in s.outbox;
      assert Enabled(c, s, HubFlush(p));
    } else {
      // A pending path would wait on a chunk of an outstanding Need, and there is none.
      assert false;
    }
  }

  /** In every state of every run, whatever the interleaving with other builds. */
  lemma Safety(c: Config, run: seq<State>, s: State)
    requires c.Valid() && IsRun(c, run) && s in run
    ensures NoProtocolError(s)
    ensures ReadyMeansStaged(c, s)
    ensures s.phase != Init ==> EofAccounting(s)
    ensures |s.q| <= 2 + |c.Paths()| + c.maxRounds
    ensures !Decided(s) ==> CanMove(c, s)
  {
    InvRun(c, run);
    if !Decided(s) { NoDeadlock(c, s); }
    if s.phase != Init { SubsetSize(s.recipes - s.inline, c.Paths()); }
  }

  lemma {:induction false} SubsetSize<T>(a: set<T>, b: set<T>)
    requires a <= b
    ensures |a| <= |b|
  {
    if a != {} {
      var x :| x in a;
      SubsetSize(a - {x}, b - {x});
    }
  }
}

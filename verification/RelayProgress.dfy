/** Without foreign traffic every run of the transfer protocol ends, with the worker decided. */
module RelayProgress {
  import opened Relay
  import opened RelaySafety

  // ---- the measure ------------------------------------------------------------

  function NeedWeight(h: seq<Need>): nat
  {
    if h == [] then 0 else 4 + 3 * |h[0].paths| + NeedWeight(h[1..])
  }

  /** Messages, queued answers and manifests on their way, each above what it turns into. */
  function Work(s: State): nat
  {
    |s.w| + 3 * |s.q| + 2 * |s.outbox| + 3 * |s.computing| + NeedWeight(s.h)
  }

  /** Negotiated at all, manifests not taken, resend rounds left, work left, stored chunks. */
  datatype Rank = Rank(start: nat, untaken: nat, rounds: nat, work: nat, stored: nat)

  function RankOf(c: Config, s: State): Rank
  {
    Rank(if s.phase == Init then 1 else 0,
         |Missing(c, s) - s.recipes|,
         if s.rounds <= c.maxRounds + 1 then c.maxRounds + 1 - s.rounds else 0,
         Work(s),
         |s.store|)
  }

  predicate Below(a: Rank, b: Rank)
  {
    if a.start != b.start then a.start < b.start
    else if a.untaken != b.untaken then a.untaken < b.untaken
    else if a.rounds != b.rounds then a.rounds < b.rounds
    else if a.work != b.work then a.work < b.work
    else a.stored < b.stored
  }

  // ---- every own step lowers it -------------------------------------------------

  lemma {:induction false} UnionSize<T>(a: set<T>, b: set<T>)
    ensures |a + b| <= |a| + |b|
  {
    assert a + b == a + (b - a);
    SubsetSize(b - a, b);
  }

  lemma LessWork(c: Config, s: State, t: State)
    requires s.phase != Init && t.phase != Init
    requires t.have == s.have && t.recipes == s.recipes && t.rounds == s.rounds && Work(t) < Work(s)
    ensures Below(RankOf(c, t), RankOf(c, s))
  {}

  /** Apart from a manifest, a message makes the worker ask again only by spending a round. */
  lemma PlainHandling(c: Config, s: State, m: Message)
    requires !m.Man?
    ensures OnMessage(c, s, m).rec == s.recipes
    ensures Sends(c, OnMessage(c, s, m)) ==> Bumps(c, OnMessage(c, s, m))
  {
    var hd := OnMessage(c, s, m);
    if !hd.countRound {
      assert Settling(hd) == {};
      assert Retry(c, hd) == {};
    }
  }

  lemma PlainRecvFalls(c: Config, s: State)
    requires Inv(c, s) && Enabled(c, s, WorkerRecv) && !s.w[0].Man?
    ensures Below(RankOf(c, Next(c, s, WorkerRecv)), RankOf(c, s))
  {
    var t := Next(c, s, WorkerRecv);
    PlainHandling(c, s, s.w[0]);
    if !Bumps(c, OnMessage(c, s, s.w[0])) {
      LessWork(c, s, t);
    }
  }

  lemma ManifestRecvFalls(c: Config, s: State)
    requires Inv(c, s) && Enabled(c, s, WorkerRecv) && s.w[0].Man?
    ensures Below(RankOf(c, Next(c, s, WorkerRecv)), RankOf(c, s))
  {
    var p := s.w[0].path;
    assert s.w[0] in s.w;
    assert p in s.pending && p !in s.recipes && p in Missing(c, s);
    RemoveSize(Missing(c, s) - s.recipes, p);
    assert Missing(c, s) - (s.recipes + {p}) == Missing(c, s) - s.recipes - {p};
  }

  lemma RemoveSize<T>(a: set<T>, x: T)
    requires x in a
    ensures |a| == |a - {x}| + 1
  {
    assert a == (a - {x}) + {x};
  }

  lemma HubRecvFalls(c: Config, s: State)
    requires Inv(c, s) && Enabled(c, s, HubRecv)
    ensures Below(RankOf(c, Next(c, s, HubRecv)), RankOf(c, s))
  {
    var n := s.h[0];
    UnionSize(s.computing, n.paths - s.sent - s.outbox);
    SubsetSize(n.paths - s.sent - s.outbox, n.paths);
    LessWork(c, s, Next(c, s, HubRecv));
  }

  lemma HubSendFalls(c: Config, s: State, e: Event)
    requires Inv(c, s) && Enabled(c, s, e) && (e.HubServe? || e.HubTake? || e.HubFlush?)
    ensures Below(RankOf(c, Next(c, s, e)), RankOf(c, s))
  {
    match e {
      case HubServe =>
      case HubTake(p) =>
        RemoveSize(s.computing, p);
        UnionSize(s.outbox, {p});
      case HubFlush(p) => RemoveSize(s.outbox, p);
    }
    LessWork(c, s, Next(c, s, e));
  }

  lemma OwnStepFalls(c: Config, s: State, e: Event)
    requires Inv(c, s) && Enabled(c, s, e) && !Foreign(e)
    ensures Below(RankOf(c, Next(c, s, e)), RankOf(c, s))
  {
    match e {
      case Negotiate =>
      case WorkerRecv => if s.w[0].Man? { ManifestRecvFalls(c, s); } else { PlainRecvFalls(c, s); }
      case HubRecv => HubRecvFalls(c, s);
      case Evict(x) => RemoveSize(s.store, x);
      case _ => HubSendFalls(c, s, e);
    }
  }

  // ---- runs end -------------------------------------------------------------------

  ghost predicate OwnStep(c: Config, s: State, t: State)
  {
    exists e :: !Foreign(e) && Enabled(c, s, e) && t == Next(c, s, e)
  }

  lemma OwnStepDown(c: Config, s: State, t: State)
    requires Inv(c, s) && OwnStep(c, s, t)
    ensures Inv(c, t) && Below(RankOf(c, t), RankOf(c, s))
  {
    var e :| !Foreign(e) && Enabled(c, s, e) && t == Next(c, s, e);
    InvStep(c, s, e);
    OwnStepFalls(c, s, e);
  }

  lemma {:induction false} Descend(c: Config, f: nat -> State, stop: State -> bool, i: nat, r: Rank) returns (k: nat)
    requires Inv(c, f(i)) && r == RankOf(c, f(i))
    requires forall j: nat :: !stop(f(j)) ==> OwnStep(c, f(j), f(j + 1))
    ensures stop(f(k))
    decreases r.start, r.untaken, r.rounds, r.work, r.stored
  {
    hide Inv, OwnStep, RankOf;
    k := i;
    if !stop(f(i)) {
      OwnStepDown(c, f(i), f(i + 1));
      k := Descend(c, f, stop, i + 1, RankOf(c, f(i + 1)));
    }
  }

  /** No schedule of the build's own steps, evictions included, goes on forever. */
  lemma RunsEnd(c: Config, f: nat -> State)
    requires c.Valid() && Start(c, f(0))
    ensures exists k: nat :: !OwnStep(c, f(k), f(k + 1))
  {
    if forall k: nat :: OwnStep(c, f(k), f(k + 1)) {
      var k := Descend(c, f, _ => false, 0, RankOf(c, f(0)));
    }
  }

  /** Whatever the schedule, taking own steps until the worker has decided gets there. */
  lemma EventuallyDecided(c: Config, f: nat -> State)
    requires c.Valid() && Start(c, f(0))
    requires forall k: nat :: !Decided(f(k)) ==> OwnStep(c, f(k), f(k + 1))
    ensures exists k: nat :: Decided(f(k))
  {
    var k := Descend(c, f, s => Decided(s), 0, RankOf(c, f(0)));
  }

  /** A run that can go no further without foreign traffic has the worker decided. */
  lemma MaximalRunDecides(c: Config, run: seq<State>)
    requires c.Valid() && IsRun(c, run)
    requires forall e :: Enabled(c, run[|run| - 1], e) ==> Foreign(e)
    ensures Decided(run[|run| - 1])
  {
    var s := run[|run| - 1];
    InvRun(c, run);
    if !Decided(s) { NoDeadlock(c, s); }
  }
}

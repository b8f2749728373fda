/** Transfers with the hub as the relay runs it end, and end decided. */
module HubProgress {
  import opened Relay
  import opened RelaySafety
  import opened RelayProgress
  import opened HubStaging
  import opened RelayAnswers
  import opened StorePath

  /** A move that is not other builds' traffic. */
  predicate AtHome(m: Move) { m.Outside? ==> !Foreign(m.event) }

  ghost predicate MovesHome(c: Config, x: System, y: System) { exists m: Move :: AtHome(m) && MovesTo(c, x, m, y) }

  lemma HomeFalls(c: Config, x: System, y: System, inline: seq<Path>)
    requires c.Valid() && HubStaging.Good(c, x, inline) && MovesHome(c, x, y)
    ensures HubStaging.Good(c, y, inline) && Below(RankOf(c, Seen(y)), RankOf(c, Seen(x)))
  {
    hide Inv, Sound, OnWire, FirstOnly, Next, Enabled, Possible, Moved, RankOf, Seen;
    var m: Move :| AtHome(m) && MovesTo(c, x, m, y);
    FlushHas(c, x, m);
    MoveRefines(c, x, m, inline);
    assert OwnStep(c, Seen(x), Seen(y)) by { assert !Foreign(EventOf(x, m)); }
    OwnStepDown(c, Seen(x), Seen(y));
  }

  lemma FlushHas(c: Config, x: System, m: Move)
    requires Possible(c, x, m)
    ensures m.Flush? ==> x.u.unsent != []
  {}

  lemma {:induction false} DescendHome(
      c: Config, f: nat -> System, stop: System -> bool, i: nat, r: Rank, inline: seq<Path>) returns (k: nat)
    requires c.Valid() && HubStaging.Good(c, f(i), inline) && r == RankOf(c, Seen(f(i)))
    requires forall j: nat :: !stop(f(j)) ==> MovesHome(c, f(j), f(j + 1))
    ensures stop(f(k))
    decreases r.start, r.untaken, r.rounds, r.work, r.stored
  {
    hide HubStaging.Good, MovesHome, RankOf, Seen;
    k := i;
    if !stop(f(i)) {
      HomeFalls(c, f(i), f(i + 1), inline);
      k := DescendHome(c, f, stop, i + 1, RankOf(c, Seen(f(i + 1))), inline);
    }
  }

  /** No schedule of this hub and the worker, evictions included, goes on forever. */
  lemma HubRunsEnd(c: Config, f: nat -> System)
    requires c.Valid() && Begins(c, f(0))
    ensures exists k: nat :: !MovesHome(c, f(k), f(k + 1))
  {
    hide HubStaging.Good, MovesHome, RankOf, Seen, Begins;
    BeginsGood(c, f(0));
    if forall k: nat :: MovesHome(c, f(k), f(k + 1)) {
      var k := DescendHome(c, f, _ => false, 0, RankOf(c, Seen(f(0))), f(0).u.sent);
    }
  }

  /** Whatever the schedule, moving until the worker has decided gets there. */
  lemma HubEventuallyDecides(c: Config, f: nat -> System)
    requires c.Valid() && Begins(c, f(0))
    requires forall k: nat :: !Decided(Seen(f(k))) ==> MovesHome(c, f(k), f(k + 1))
    ensures exists k: nat :: Decided(Seen(f(k)))
  {
    hide HubStaging.Good, MovesHome, RankOf, Seen, Begins;
    BeginsGood(c, f(0));
    var k := DescendHome(c, f, x => Decided(Seen(x)), 0, RankOf(c, Seen(f(0))), f(0).u.sent);
  }

  /** A run with this hub that only evictions and other builds could prolong has the worker decided. */
  lemma HubMaximalRunDecides(c: Config, run: seq<System>)
    requires c.Valid() && SystemRun(c, run) && !GoesOn(c, run[|run| - 1])
    ensures Decided(Seen(run[|run| - 1]))
  {
    StagingSafe(c, run, |run| - 1);
  }

  // ---- what this hub hands over ----------------------------------------------------------------

  /** The run these moves make. */
  ghost predicate Moves(c: Config, run: seq<System>, ms: seq<Move>)
  {
    && |run| == |ms| + 1 && Begins(c, run[0])
    && forall i | 0 <= i < |ms| :: MovesTo(c, run[i], ms[i], run[i + 1])
  }

  function Losses(ms: seq<Move>): nat
  {
    if ms == [] then 0 else
      var m := ms[|ms| - 1];
      Losses(ms[..|ms| - 1]) + if m.Outside? && m.event.Evict? then 1 else 0
  }

  lemma MovesRun(c: Config, run: seq<System>, ms: seq<Move>)
    requires Moves(c, run, ms)
    ensures SystemRun(c, run)
  {
    hide MovesTo;
    forall i | 0 < i < |run|
      ensures Leads(c, run[i - 1], run[i])
    {
      assert MovesTo(c, run[i - 1], ms[i - 1], run[i]);
    }
  }

  /** The protocol's events for the moves. */
  lemma {:induction false} MovesTraced(c: Config, run: seq<System>, ms: seq<Move>) returns (es: seq<Event>)
    requires c.Valid() && Moves(c, run, ms)
    ensures Traced(c, SeenAll(run), es) && Evictions(es) == Losses(ms)
  {
    hide HubStaging.Good, Begins, Possible, Moved, Seen, Enabled, Next;
    es := [];
    if ms == [] {
      BeginsGood(c, run[0]);
      assert Start(c, Seen(run[0])) by { BeginsStart(c, run[0]); }
    } else {
      var n := |ms| - 1;
      var rest := MovesTraced(c, run[..n + 1], ms[..n]);
      MovesRun(c, run, ms);
      RunGood(c, run, n);
      var m := ms[n];
      assert MovesTo(c, run[n], m, run[n + 1]);
      FlushHas(c, run[n], m);
      MoveRefines(c, run[n], m, run[0].u.sent);
      var e := EventOf(run[n], m);
      es := rest + [e];
      assert es[..n] == rest;
      assert SeenAll(run) == SeenAll(run[..n + 1]) + [Seen(run[n + 1])];
      TracedOn(c, SeenAll(run[..n + 1]), rest, e, Seen(run[n + 1]));
    }
  }

  lemma TracedOn(c: Config, run: seq<State>, es: seq<Event>, e: Event, t: State)
    requires Traced(c, run, es) && Enabled(c, run[|es|], e) && t == Next(c, run[|es|], e)
    ensures Traced(c, run + [t], es + [e])
  {
    hide Enabled, Next, Start;
  }

  lemma BeginsStart(c: Config, x: System)
    requires Begins(c, x)
    ensures Start(c, Seen(x))
  {}

  /**
   A transfer with this hub that can go no further, and in which the store lost no more
   chunks than there are resend rounds, has every path held or imported whole.
   */
  lemma HubEndsReady(c: Config, run: seq<System>, ms: seq<Move>)
    requires c.Valid() && Moves(c, run, ms) && Losses(ms) <= c.maxRounds && !GoesOn(c, run[|run| - 1])
    ensures run[|run| - 1].s.phase == Ready
    ensures forall p <- c.Paths() :: p in run[0].s.have || exists j | 0 < j < |run| ::
      p in run[j].s.imported && p !in run[j - 1].s.imported && c.Recipe(p) <= run[j].s.store
  {
    hide HubStaging.Good, Begins, Possible, Moved, Enabled, Next, GoesOn, Traced, Evictions, Losses, MovesTo, CanMove;
    var es := MovesTraced(c, run, ms);
    var n := |run| - 1;
    MovesRun(c, run, ms);
    RunGood(c, run, n);
    NoMoreMoves(c, run[n], run[0].u.sent);
    EndsReady(c, SeenAll(run), es);
    forall p | p in c.Paths() && p !in run[0].s.have
      ensures exists j | 0 < j < |run| ::
        p in run[j].s.imported && p !in run[j - 1].s.imported && c.Recipe(p) <= run[j].s.store
    {
      var all := SeenAll(run);
      var j :| 0 < j < |all| && p in all[j].imported && p !in all[j - 1].imported && c.Recipe(p) <= all[j].store;
      assert p in run[j].s.imported && p !in run[j - 1].s.imported;
    }
  }

  lemma NoMoreMoves(c: Config, x: System, inline: seq<Path>)
    requires HubStaging.Good(c, x, inline) && !GoesOn(c, x)
    ensures !CanMove(c, Seen(x))
  {
    hide GoesOn, Inv, Enabled, Seen;
    if CanMove(c, Seen(x)) {
      var e :| !Foreign(e) && !e.Evict? && Enabled(c, Seen(x), e);
      MoveExists(c, x, e);
    }
  }
}

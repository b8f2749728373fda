/**
 What the transfer hands over: imported paths were whole, every chunk a path awaits is on its
 way, and the worker gives up only if the store lost more chunks than there are rounds.
 */
module RelayAnswers {
  import opened StorePath
  import opened Relay
  import opened RelaySafety
  import opened RelayProgress

  // ---- imports are whole ------------------------------------------------------------

  /** Whatever a step imports has its whole recipe in the store at that moment. */
  lemma StepWhole(c: Config, s: State, t: State, p: Path)
    requires Step(c, s, t) && p in t.imported && p !in s.imported
    ensures c.Recipe(p) <= t.store
  {
    hide OnAssignment, OnMessage, Sends, Hashes, Retry, Bumps;
    var e :| Enabled(c, s, e) && t == Next(c, s, e);
    if e.Negotiate? {
      assert p in Complete(c, OnAssignment(c, s));
    } else if e.WorkerRecv? {
      assert p in Complete(c, OnMessage(c, s, s.w[0]));
    }
  }

  /** Each imported path was imported at some step, with its manifest and all its chunks at hand. */
  lemma {:induction false} ImportedWhole(c: Config, run: seq<State>, i: nat, p: Path) returns (j: nat)
    requires IsRun(c, run) && i < |run| && p in run[i].imported
    ensures j < i && p !in run[j].imported && p in run[j + 1].imported
    ensures p in run[j + 1].recipes && c.Recipe(p) <= run[j + 1].store
  {
    hide Inv, Step;
    assert run[0].imported == {} && i > 0;
    if p in run[i - 1].imported {
      j := ImportedWhole(c, run, i - 1, p);
    } else {
      j := i - 1;
      StepWhole(c, run[i - 1], run[i], p);
      InvRunAt(c, run, i);
      RecipeKnown(c, run[i], p);
    }
  }

  lemma RecipeKnown(c: Config, s: State, p: Path)
    requires Inv(c, s) && p in s.imported
    ensures p in s.recipes
  {}

  // ---- what is awaited comes --------------------------------------------------------

  predicate InNeeds(h: seq<Need>, x: Chunk) { exists n <- h :: x in n.hashes }

  predicate InQueue(q: seq<set<Chunk>>, x: Chunk) { exists hs <- q :: x in hs }

  predicate InAnswers(w: seq<Message>, x: Chunk) { exists m <- w :: m.Chunks? && x in m.chunks }

  /** The chunk is asked for, queued at the hub, or in an answer under way. */
  predicate Coming(s: State, x: Chunk) { InNeeds(s.h, x) || InQueue(s.q, x) || InAnswers(s.w, x) }

  predicate AllComing(s: State) { forall w <- s.awaiting :: Coming(s, w.0) }

  /** An answer is followed by its end marker. */
  predicate Paired(w: seq<Message>) { forall i | 0 <= i < |w| && w[i].Chunks? :: i + 1 < |w| && w[i + 1].Eof? }

  /** Chunks a path under way needs, gone from the store and asked for by nobody. */
  function Lost(c: Config, s: State): set<Chunk>
  {
    set p, x | p in s.pending && p in s.recipes && x in c.Recipe(p) && x !in s.store && !Awaited(s.awaiting, x) :: x
  }

  lemma NeedsPop(h: seq<Need>, x: Chunk)
    requires |h| > 0 && InNeeds(h, x)
    ensures x in h[0].hashes || InNeeds(h[1..], x)
  {
    var n :| n in h && x in n.hashes;
    assert n == h[0] || n in h[1..];
  }

  lemma QueuePop(q: seq<set<Chunk>>, x: Chunk)
    requires |q| > 0 && InQueue(q, x)
    ensures x in q[0] || InQueue(q[1..], x)
  {
    var hs :| hs in q && x in hs;
    assert hs == q[0] || hs in q[1..];
  }

  lemma WirePop(w: seq<Message>, x: Chunk)
    requires |w| > 0 && InAnswers(w, x)
    ensures (w[0].Chunks? && x in w[0].chunks) || InAnswers(w[1..], x)
  {
    var m :| m in w && m.Chunks? && x in m.chunks;
    assert m == w[0] || m in w[1..];
  }

  lemma PairedPop(w: seq<Message>)
    requires |w| > 0 && Paired(w)
    ensures Paired(w[1..])
  {
    assert forall i | 0 <= i < |w| - 1 :: w[1..][i] == w[i + 1];
  }

  lemma PairedPush(w: seq<Message>, m: Message)
    requires Paired(w) && !m.Chunks?
    ensures Paired(w + [m])
  {}

  lemma WirePush(w: seq<Message>, out: seq<Message>, x: Chunk)
    ensures InAnswers(w, x) || InAnswers(out, x) ==> InAnswers(w + out, x)
  {
    if InAnswers(w, x) {
      var m :| m in w && m.Chunks? && x in m.chunks;
      assert m in w + out;
    }
    if InAnswers(out, x) {
      var m :| m in out && m.Chunks? && x in m.chunks;
      assert m in w + out;
    }
  }

  // ---- worker steps -------------------------------------------------------------------

  lemma NeedsPush(h: seq<Need>, n: Need, x: Chunk)
    ensures InNeeds(h, x) || x in n.hashes ==> InNeeds(h + [n], x)
  {
    if InNeeds(h, x) {
      var m :| m in h && x in m.hashes;
      assert m in h + [n];
    }
    assert n in h + [n];
  }

  /** What settling adds to the waits is awaited by others already or asked for. */
  lemma SettleComing(c: Config, s: State, hd: Handling)
    requires forall w <- hd.aw :: Coming(s, w.0) || w.0 in hd.needHashes
    ensures AllComing(Settle(c, s, hd))
  {
    hide Complete, Retry, Bumps, Lacking, InNeeds, InQueue, InAnswers;
    var t := Settle(c, s, hd);
    var n := Need(hd.needPaths, Hashes(c, hd));
    forall w | w in t.awaiting
      ensures Coming(t, w.0)
    {
      NeedsPush(s.h, n, w.0);
      if w !in hd.aw {
        if Awaited(hd.aw, w.0) {
          var v :| v in hd.aw && v.0 == w.0;
        } else {
          assert w.0 in Fresh(hd.aw, Retry(c, hd));
        }
      }
    }
  }

  lemma LackingAsked(aw: Waits, l: Waits, w: (Chunk, Path))
    requires w in l
    ensures Awaited(aw, w.0) || w.0 in Fresh(aw, l)
  {}

  lemma ManifestComing(c: Config, s: State, p: Path)
    requires AllComing(s) && |s.w| > 0 && s.w[0] == Man(p)
    ensures AllComing(Settle(c, Popped(s), OnManifest(c, s, p)))
  {
    hide Settle, Coming, Lacking, Fresh;
    var hd := OnManifest(c, s, p);
    forall w | w in hd.aw
      ensures Coming(Popped(s), w.0) || w.0 in hd.needHashes
    {
      StillComing(s, w.0);
      if w !in s.awaiting {
        LackingAsked(s.awaiting, Lacking(c, {p}, s.store), w);
        if Awaited(s.awaiting, w.0) { var v :| v in s.awaiting && v.0 == w.0; }
      }
    }
    SettleComing(c, Popped(s), hd);
  }

  lemma StillComing(s: State, x: Chunk)
    requires |s.w| > 0 && (s.w[0].Chunks? ==> x !in s.w[0].chunks)
    ensures Coming(s, x) ==> Coming(Popped(s), x)
  {
    if InAnswers(s.w, x) { WirePop(s.w, x); }
  }

  lemma PlainComing(c: Config, s: State, hd: Handling)
    requires AllComing(s) && |s.w| > 0 && hd.aw <= s.awaiting
    requires s.w[0].Chunks? ==> forall w <- hd.aw :: w.0 !in s.w[0].chunks
    ensures AllComing(Settle(c, Popped(s), hd))
  {
    hide Settle, Coming;
    forall w | w in hd.aw
      ensures Coming(Popped(s), w.0)
    {
      StillComing(s, w.0);
    }
    SettleComing(c, Popped(s), hd);
  }

  lemma {:induction false} CountsNeed(h: seq<Need>, n: Need)
    requires n in h && n.hashes != {}
    ensures HashNeeds(h) > 0
  {
    if n != h[0] {
      assert n in h[1..];
      CountsNeed(h[1..], n);
    }
  }

  lemma {:induction false} CountsEof(w: seq<Message>)
    requires Eof in w
    ensures Eofs(w) > 0
  {
    if w[0] != Eof {
      assert Eof in w[1..];
      CountsEof(w[1..]);
    }
  }

  /**
   When the last outstanding Need is answered no path waits any more: what an answer brought
   and the store lost since is found out, and asked for again, when its path wakes.
   */
  lemma LastEofIdle(c: Config, s: State)
    requires EofAccounting(s) && AllComing(s) && Paired(s.w)
    requires |s.w| > 0 && s.w[0].Eof? && s.outstanding == 1
    ensures s.awaiting == {}
  {
    assert Eofs(s.w) == 1 + Eofs(s.w[1..]);
    if s.awaiting != {} {
      var w :| w in s.awaiting;
      assert s.q == [];
      if InNeeds(s.h, w.0) {
        var n :| n in s.h && w.0 in n.hashes;
        CountsNeed(s.h, n);
      } else {
        var m :| m in s.w && m.Chunks? && w.0 in m.chunks;
        var i :| 0 <= i < |s.w| && s.w[i] == m;
        assert s.w[1..][i] == s.w[i + 1];
        CountsEof(s.w[1..]);
      }
      assert false;
    }
  }

  // ---- losses ---------------------------------------------------------------------------

  lemma AwaitedStays(a: Waits, b: Waits, x: Chunk)
    requires forall w <- a :: w.0 == x ==> w in b
    ensures Awaited(a, x) ==> Awaited(b, x)
  {}

  lemma ChunksLost(c: Config, s: State, cs: set<Chunk>)
    requires WaitShape(c, s) && |s.w| > 0
    ensures var t := Settle(c, Popped(s), OnChunks(s, cs));
      Lost(c, t) <= Lost(c, s) && t.rounds + |Lost(c, t)| <= s.rounds + |Lost(c, s)|
  {
    hide Complete, Retry;
    var hd := OnChunks(s, cs);
    var t := Settle(c, Popped(s), hd);
    forall x | x in Lost(c, t)
      ensures x in Lost(c, s)
    {
      AwaitedStays(s.awaiting, t.awaiting, x);
    }
    SubsetSize(Lost(c, t), Lost(c, s));
    if Bumps(c, hd) {
      var x := RefetchedLost(c, s, cs);
      SubsetSize(Lost(c, t), Lost(c, s) - {x});
      RemoveSize(Lost(c, s), x);
    }
  }

  /** A chunk asked for again is one the store lost. */
  lemma RefetchedLost(c: Config, s: State, cs: set<Chunk>) returns (x: Chunk)
    requires WaitShape(c, s) && |s.w| > 0 && Bumps(c, OnChunks(s, cs))
    ensures x in Lost(c, s) && x !in Lost(c, Settle(c, Popped(s), OnChunks(s, cs)))
  {
    var hd := OnChunks(s, cs);
    RetryNames(c, hd);
    hide Complete, Retry;
    x :| x in Fresh(hd.aw, Retry(c, hd));
    var w :| w in Retry(c, hd) && w.0 == x;
    assert w in Settle(c, Popped(s), hd).awaiting;
    var p := w.1;
    assert p in s.pending && p in s.recipes;
    AwaitedStays(s.awaiting, hd.aw, x);
  }

  /** Taking up manifests loses nothing: what is not stored is awaited from then on. */
  lemma TakenLost(c: Config, s: State, hd: Handling, ps: set<Path>)
    requires hd.st == s.store && hd.rec <= s.recipes + ps && hd.aw == s.awaiting + Lacking(c, ps, s.store)
    requires hd.pend <= s.pending + ps + (hd.pend - hd.rec)
    ensures Lost(c, Settle(c, s, hd)) <= Lost(c, s)
  {
    hide Complete, Retry;
    var t := Settle(c, s, hd);
    forall x | x in Lost(c, t)
      ensures x in Lost(c, s)
    {
      var p :| p in t.pending && p in t.recipes && x in c.Recipe(p);
      AwaitedStays(s.awaiting, t.awaiting, x);
      assert p in ps ==> (x, p) in t.awaiting;
    }
  }

  // ---- every step -----------------------------------------------------------------------

  /** After `k` evictions. */
  predicate Accounted(c: Config, s: State, k: nat)
  {
    && AllComing(s) && Paired(s.w) && s.rounds + |Lost(c, s)| <= k
    && (s.phase == GaveUp ==> s.rounds == c.maxRounds + 1)
  }

  lemma SettleRounds(c: Config, s: State, hd: Handling)
    requires s.rounds <= c.maxRounds
    ensures var t := Settle(c, s, hd);
      && (t.phase == GaveUp ==> t.rounds == c.maxRounds + 1) && t.w == s.w
      && (!Bumps(c, hd) ==> t.rounds == s.rounds)
  {
    hide Complete, Retry, Hashes, Bumps, Sends;
  }

  lemma NegotiateAccounted(c: Config, s: State, k: nat)
    requires Start(c, s) && Enabled(c, s, Negotiate)
    ensures Accounted(c, Next(c, s, Negotiate), k)
  {
    hide Settle, Lacking, Coming, Fresh;
    var hd := OnAssignment(c, s);
    forall w | w in hd.aw
      ensures w.0 in hd.needHashes
    {
      LackingAsked(s.awaiting, Lacking(c, hd.rec, s.store), w);
    }
    SettleComing(c, s, hd);
    SettleRounds(c, s, hd);
    TakenLost(c, s, hd, hd.rec);
    assert Lost(c, s) == {};
    assert !Bumps(c, hd);
  }

  lemma ManifestAccounted(c: Config, s: State, p: Path, k: nat)
    requires Inv(c, s) && Accounted(c, s, k) && Enabled(c, s, WorkerRecv) && s.w[0] == Man(p)
    ensures Accounted(c, Next(c, s, WorkerRecv), k)
  {
    var hd := OnManifest(c, s, p);
    assert s.w[0] in s.w && p in s.pending && p !in s.recipes;
    hide Settle, Lacking, Coming, Fresh, Inv;
    ManifestComing(c, s, p);
    PairedPop(s.w);
    RoundsLeft(c, s);
    SettleRounds(c, Popped(s), hd);
    TakenLost(c, Popped(s), hd, {p});
    assert Lost(c, Popped(s)) == Lost(c, s);
    SubsetSize(Lost(c, Settle(c, Popped(s), hd)), Lost(c, s));
    assert !Bumps(c, hd);
  }

  lemma RoundsLeft(c: Config, s: State)
    requires Inv(c, s) && (s.phase == Staging || s.phase == Ready)
    ensures s.rounds <= c.maxRounds && WaitShape(c, s) && EofAccounting(s)
  {}

  lemma ChunksAccounted(c: Config, s: State, cs: set<Chunk>, k: nat)
    requires Inv(c, s) && Accounted(c, s, k) && Enabled(c, s, WorkerRecv) && s.w[0] == Chunks(cs)
    ensures Accounted(c, Next(c, s, WorkerRecv), k)
  {
    hide Settle, Coming, Inv, WaitShape, Lost;
    PlainComing(c, s, OnChunks(s, cs));
    PairedPop(s.w);
    RoundsLeft(c, s);
    SettleRounds(c, Popped(s), OnChunks(s, cs));
    ChunksLost(c, s, cs);
  }

  /** A message that leaves stores, waits and paths alone. */
  lemma IgnoreLost(c: Config, s: State, hd: Handling)
    requires hd.cand == {} && hd.pend == s.pending && hd.rec == s.recipes && hd.st == s.store && hd.aw == s.awaiting
    requires hd.needHashes == {}
    ensures Lost(c, Settle(c, s, hd)) == Lost(c, s) && !Bumps(c, hd)
  {
    assert Settling(hd) == {} && Complete(c, hd) == {} && Retry(c, hd) == {};
  }

  lemma IgnoreAccounted(c: Config, s: State, k: nat)
    requires Inv(c, s) && Accounted(c, s, k) && Enabled(c, s, WorkerRecv) && (s.w[0].Eof? || s.w[0].Other?)
    ensures Accounted(c, Next(c, s, WorkerRecv), k)
  {
    var hd := OnMessage(c, s, s.w[0]);
    RoundsLeft(c, s);
    PairedPop(s.w);
    if s.w[0].Eof? && s.outstanding == 1 {
      LastEofIdle(c, s);
      assert hd.cand == {} && hd.aw == {} && hd.needHashes == {};
    }
    hide Settle, Coming, Inv, WaitShape, Lost;
    PlainComing(c, s, hd);
    SettleRounds(c, Popped(s), hd);
    IgnoreLost(c, Popped(s), hd);
    assert Lost(c, Popped(s)) == Lost(c, s) by { PoppedLost(c, s); }
  }

  lemma PoppedLost(c: Config, s: State)
    requires |s.w| > 0
    ensures Lost(c, Popped(s)) == Lost(c, s)
  {}

  lemma HubRecvComing(c: Config, s: State)
    requires AllComing(s) && Enabled(c, s, HubRecv) && !Bogus(c, s, s.h[0])
    ensures AllComing(Next(c, s, HubRecv))
  {
    hide Bogus;
    var t := Next(c, s, HubRecv);
    forall w | w in t.awaiting
      ensures Coming(t, w.0)
    {
      if InNeeds(s.h, w.0) {
        NeedsPop(s.h, w.0);
        if w.0 in s.h[0].hashes { assert s.h[0].hashes in t.q; }
      }
      if InQueue(s.q, w.0) {
        var hs :| hs in s.q && w.0 in hs;
        assert hs in t.q;
      }
    }
  }

  lemma HubServeComing(c: Config, s: State)
    requires AllComing(s) && Paired(s.w) && Enabled(c, s, HubServe)
    ensures AllComing(Next(c, s, HubServe)) && Paired(Next(c, s, HubServe).w)
  {
    var t := Next(c, s, HubServe);
    var out := [Chunks(s.q[0]), Eof];
    assert out[0] in out;
    forall w | w in t.awaiting
      ensures Coming(t, w.0)
    {
      WirePush(s.w, out, w.0);
      if InQueue(s.q, w.0) { QueuePop(s.q, w.0); }
    }
  }

  lemma PushComing(s: State, t: State, m: Message)
    requires AllComing(s) && t.awaiting == s.awaiting && t.h == s.h && t.q == s.q && t.w == s.w + [m]
    ensures AllComing(t)
  {
    forall w | w in t.awaiting
      ensures Coming(t, w.0)
    {
      WirePush(s.w, [m], w.0);
    }
  }

  lemma SameLost(c: Config, s: State, t: State)
    requires t.pending == s.pending && t.recipes == s.recipes && t.store == s.store && t.awaiting == s.awaiting
    ensures Lost(c, t) == Lost(c, s)
  {}

  lemma HubAccounted(c: Config, s: State, e: Event, k: nat)
    requires Inv(c, s) && Accounted(c, s, k) && Enabled(c, s, e)
    requires e.HubRecv? || e.HubServe? || e.HubTake? || e.HubFlush? || e.OtherTraffic?
    ensures Accounted(c, Next(c, s, e), k)
  {
    hide Inv, Lost, Coming, Bogus;
    var t := Next(c, s, e);
    SameLost(c, s, t);
    match e {
      case HubRecv =>
        HubRecvNeeds(c, s);
        HubRecvComing(c, s);
      case HubServe => HubServeComing(c, s);
      case HubTake(p) => assert forall x :: Coming(t, x) == Coming(s, x) by { SameComing(s, t); }
      case HubFlush(p) =>
        PairedPush(s.w, Man(p));
        PushComing(s, t, Man(p));
      case OtherTraffic =>
        PairedPush(s.w, Other);
        PushComing(s, t, Other);
    }
  }

  lemma SameComing(s: State, t: State)
    requires t.h == s.h && t.q == s.q && t.w == s.w
    ensures forall x :: Coming(t, x) == Coming(s, x)
  {}

  lemma StoreAccounted(c: Config, s: State, e: Event, k: nat)
    requires Accounted(c, s, k) && Enabled(c, s, e) && (e.Evict? || e.OtherStore?)
    ensures Accounted(c, Next(c, s, e), if e.Evict? then k + 1 else k)
  {
    var t := Next(c, s, e);
    SameComing(s, t);
    if e.Evict? {
      assert Lost(c, t) <= Lost(c, s) + {e.chunk};
      SubsetSize(Lost(c, t), Lost(c, s) + {e.chunk});
      UnionSize(Lost(c, s), {e.chunk});
    } else {
      assert Lost(c, t) <= Lost(c, s);
      SubsetSize(Lost(c, t), Lost(c, s));
    }
  }

  /** Every step keeps the account, an eviction adding one. */
  lemma StepAccounted(c: Config, s: State, e: Event, k: nat)
    requires Inv(c, s) && Accounted(c, s, k) && Enabled(c, s, e)
    ensures Accounted(c, Next(c, s, e), if e.Evict? then k + 1 else k)
  {
    hide Accounted, Next;
    match e {
      case Negotiate => NegotiateAccounted(c, s, k);
      case WorkerRecv =>
        match s.w[0] {
          case Man(p) => ManifestAccounted(c, s, p, k);
          case Chunks(cs) => ChunksAccounted(c, s, cs, k);
          case _ => IgnoreAccounted(c, s, k);
        }
      case Evict(_) => StoreAccounted(c, s, e, k);
      case OtherStore(_) => StoreAccounted(c, s, e, k);
      case _ => HubAccounted(c, s, e, k);
    }
  }

  // ---- runs -------------------------------------------------------------------------------

  /** The run these events make. */
  ghost predicate Traced(c: Config, run: seq<State>, es: seq<Event>)
  {
    && |run| == |es| + 1 && Start(c, run[0])
    && forall i | 0 <= i < |es| :: Enabled(c, run[i], es[i]) && run[i + 1] == Next(c, run[i], es[i])
  }

  function Evictions(es: seq<Event>): nat
  {
    if es == [] then 0 else Evictions(es[..|es| - 1]) + if es[|es| - 1].Evict? then 1 else 0
  }

  lemma TracedRun(c: Config, run: seq<State>, es: seq<Event>)
    requires Traced(c, run, es)
    ensures IsRun(c, run)
  {
    hide Enabled, Next;
    forall i | 0 < i < |run|
      ensures Step(c, run[i - 1], run[i])
    {
      assert Enabled(c, run[i - 1], es[i - 1]) && run[i] == Next(c, run[i - 1], es[i - 1]);
    }
  }

  /** Every run is made by some events. */
  lemma {:induction false} Events(c: Config, run: seq<State>) returns (es: seq<Event>)
    requires IsRun(c, run)
    ensures Traced(c, run, es)
  {
    hide Enabled, Next;
    if |run| == 1 {
      es := [];
    } else {
      var n := |run| - 1;
      var rest := Events(c, run[..n]);
      assert Step(c, run[n - 1], run[n]);
      var e :| Enabled(c, run[n - 1], e) && run[n] == Next(c, run[n - 1], e);
      es := rest + [e];
      forall i | 0 <= i < |es|
        ensures Enabled(c, run[i], es[i]) && run[i + 1] == Next(c, run[i], es[i])
      {
        if i < n - 1 { assert run[..n][i] == run[i] && run[..n][i + 1] == run[i + 1] && es[i] == rest[i]; }
      }
    }
  }

  lemma StartAccounted(c: Config, s: State)
    requires Start(c, s)
    ensures Accounted(c, s, 0)
  {
    assert Lost(c, s) == {};
  }

  lemma {:induction false} RunAccounted(c: Config, run: seq<State>, es: seq<Event>, i: nat)
    requires Traced(c, run, es) && i < |run|
    ensures Accounted(c, run[i], Evictions(es[..i]))
  {
    hide Accounted, Enabled, Next, Inv;
    if i == 0 {
      StartAccounted(c, run[0]);
    } else {
      RunAccounted(c, run, es, i - 1);
      TracedRun(c, run, es);
      InvRunAt(c, run, i - 1);
      StepAccounted(c, run[i - 1], es[i - 1], Evictions(es[..i - 1]));
      assert es[..i][..i - 1] == es[..i - 1];
    }
  }

  /** In every state of every run: what is awaited is on its way, and each resend round was paid for by an eviction. */
  lemma AnswersCome(c: Config, run: seq<State>, es: seq<Event>, i: nat)
    requires Traced(c, run, es) && i < |run|
    ensures forall w <- run[i].awaiting :: Coming(run[i], w.0)
    ensures run[i].rounds <= Evictions(es[..i])
    ensures run[i].phase == GaveUp ==> run[i].rounds == c.maxRounds + 1
    ensures |run[i].w| > 0 && run[i].w[0].Eof? && run[i].outstanding == 1 ==> run[i].awaiting == {}
  {
    RunAccounted(c, run, es, i);
    TracedRun(c, run, es);
    InvRunAt(c, run, i);
    hide Coming, Enabled, Next, Evictions, Lost;
    if |run[i].w| > 0 && run[i].w[0].Eof? && run[i].outstanding == 1 { LastEofIdle(c, run[i]); }
  }

  /**
   More evictions than rounds can make the worker give up: of two chunks the stored one is
   lost while the other is under way, and no round is left to ask for it.
   */
  lemma OneLossTooMany(p: Path, x: Chunk, y: Chunk) returns (c: Config, run: seq<State>, es: seq<Event>)
    requires x != y
    ensures c.Valid() && c.maxRounds == 0 && Traced(c, run, es) && Evictions(es) == 1
    ensures run[|run| - 1].phase == GaveUp
  {
    c := Config(map[p := {x, y}], 2, 1, 0);
    es := [Negotiate, HubRecv, Evict(x), HubServe, WorkerRecv];
    var s0 := State([], [], {p}, {p}, {}, {}, [], false, {}, Init, {}, {}, {x}, {}, 0, 0, {});
    var s1 := s0.(pending := {p}, recipes := {p}, awaiting := {(y, p)}, h := [Need({p}, {y})], outstanding := 1,
                  phase := Staging);
    var s2, s3 := s1.(h := [], q := [{y}]), s1.(h := [], q := [{y}], store := {});
    var s4 := s3.(w := [Chunks({y}), Eof], q := []);
    AsksForOne(c, s0, p, x, y);
    TakesOne(c, s1, p, x, y);
    LosesOne(c, s2, x, y);
    GivesUp(c, s4, p, x, y);
    EvictedOnce(x);
    hide Enabled, Next, Evictions;
    run := [s0, s1, s2, s3, s4, Next(c, s4, WorkerRecv)];
  }

  lemma AsksForOne(c: Config, s: State, p: Path, x: Chunk, y: Chunk)
    requires c == Config(map[p := {x, y}], 2, 1, 0) && x != y && Start(c, s)
    requires s.inline == {p} && s.have == {} && s.store == {x}
    ensures Enabled(c, s, Negotiate)
    ensures Next(c, s, Negotiate) == s.(pending := {p}, recipes := {p}, awaiting := {(y, p)}, h := [Need({p}, {y})],
                                        outstanding := 1, phase := Staging)
  {
    var waits := {(y, p)};
    assert Lacking(c, {p}, {x}) == waits && Fresh({}, waits) == {y};
    var hd := OnAssignment(c, s);
    assert hd == Handling({p}, {p}, {p}, {x}, waits, {p}, {y}, 0, false, false);
    assert WaitsOn(waits, p) by { assert (y, p) in waits; }
    assert Settling(hd) == {} && Complete(c, hd) == {} && Retry(c, hd) == {};
    assert Hashes(c, hd) == {y} && hd.pend - {} == {p} && hd.aw + {} == waits && s.imported + {} == {};
    assert s.h + [Need({p}, {y})] == [Need({p}, {y})];
    assert !Bumps(c, hd) && Sends(c, hd);
  }

  lemma TakesOne(c: Config, s: State, p: Path, x: Chunk, y: Chunk)
    requires c == Config(map[p := {x, y}], 2, 1, 0) && s.h == [Need({p}, {y})] && s.sent == {p} && !s.hubErr
    requires s.q == [] && s.computing == {}
    ensures Enabled(c, s, HubRecv) && Next(c, s, HubRecv) == s.(h := [], q := [{y}])
  {
    assert y in c.ChunksOf({p}) by { assert y in c.Recipe(p); }
  }

  lemma LosesOne(c: Config, s: State, x: Chunk, y: Chunk)
    requires c.capW >= 2 && s.w == [] && s.q == [{y}] && !s.hubErr && s.store == {x}
    ensures Enabled(c, s, Evict(x)) && Next(c, s, Evict(x)) == s.(store := {})
    ensures var t := s.(store := {});
      Enabled(c, t, HubServe) && Next(c, t, HubServe) == t.(w := [Chunks({y}), Eof], q := [])
  {}

  lemma EvictionsOn(es: seq<Event>, e: Event)
    ensures Evictions(es + [e]) == Evictions(es) + if e.Evict? then 1 else 0
  {
    assert (es + [e])[..|es|] == es;
  }

  lemma EvictedOnce(x: Chunk)
    ensures Evictions([Negotiate, HubRecv, Evict(x), HubServe, WorkerRecv]) == 1
  {
    var none: seq<Event> := [];
    assert Evictions(none) == 0;
    EvictionsOn(none, Negotiate);
    EvictionsOn([Negotiate], HubRecv);
    EvictionsOn([Negotiate, HubRecv], Evict(x));
    EvictionsOn([Negotiate, HubRecv, Evict(x)], HubServe);
    EvictionsOn([Negotiate, HubRecv, Evict(x), HubServe], WorkerRecv);
    hide Evictions;
    assert none + [Negotiate] == [Negotiate] && [Negotiate] + [HubRecv] == [Negotiate, HubRecv];
    assert [Negotiate, HubRecv] + [Evict(x)] == [Negotiate, HubRecv, Evict(x)];
    assert [Negotiate, HubRecv, Evict(x)] + [HubServe] == [Negotiate, HubRecv, Evict(x), HubServe];
    assert [Negotiate, HubRecv, Evict(x), HubServe] + [WorkerRecv]
      == [Negotiate, HubRecv, Evict(x), HubServe, WorkerRecv];
  }

  lemma GivesUp(c: Config, s: State, p: Path, x: Chunk, y: Chunk)
    requires c == Config(map[p := {x, y}], 2, 1, 0) && x != y && s.phase == Staging && s.rounds == 0 && s.h == []
    requires s.w == [Chunks({y}), Eof] && s.pending == {p} && s.store == {} && s.awaiting == {(y, p)}
    ensures Enabled(c, s, WorkerRecv) && Next(c, s, WorkerRecv).phase == GaveUp
  {
    var hd := OnChunks(s, {y});
    assert (y, p) in s.awaiting && p in hd.cand && hd.aw == {} && hd.st == {y};
    assert x in c.Recipe(p) && p in Settling(hd) && p !in Complete(c, hd);
    assert (x, p) in Retry(c, hd);
    assert x in Fresh(hd.aw, Retry(c, hd));
    assert x in Hashes(c, hd);
    assert OnMessage(c, s, s.w[0]) == hd && Bumps(c, hd) && c.maxRounds == 0 && !hd.err;
    hide Hashes, Bumps, Complete, Retry, Sends;
    assert Next(c, s, WorkerRecv) == Settle(c, Popped(s), hd);
    assert Settle(c, Popped(s), hd).phase == GaveUp;
  }

  /**
   A run that can go no further and in which the store lost no more chunks than there are
   resend rounds, none at all in particular, ends Ready with every path held or imported whole.
   */
  lemma EndsReady(c: Config, run: seq<State>, es: seq<Event>)
    requires c.Valid() && Traced(c, run, es) && Evictions(es) <= c.maxRounds && !CanMove(c, run[|run| - 1])
    ensures run[|run| - 1].phase == Ready
    ensures forall p <- c.Paths() :: p in run[0].have || exists j | 0 < j < |run| ::
      p in run[j].imported && p !in run[j - 1].imported && c.Recipe(p) <= run[j].store
  {
    hide Enabled, Next, Inv, Accounted, CanMove, Step;
    var n := |run| - 1;
    TracedRun(c, run, es);
    InvRunAt(c, run, n);
    if !Decided(run[n]) { NoDeadlock(c, run[n]); }
    assert es[..n] == es;
    AnswersCome(c, run, es, n);
    ReadyWhole(c, run, n);
  }

  /** Ready: every path was held from the start or imported with its whole recipe stored. */
  lemma ReadyWhole(c: Config, run: seq<State>, i: nat)
    requires c.Valid() && IsRun(c, run) && i < |run| && run[i].phase == Ready
    ensures forall p <- c.Paths() :: p in run[0].have || exists j | 0 < j <= i ::
      p in run[j].imported && p !in run[j - 1].imported && c.Recipe(p) <= run[j].store
  {
    hide Enabled, Next, Inv, CanMove, Step;
    HaveStays(c, run, i);
    Safety(c, run, run[i]);
    forall p | p in c.Paths() && p !in run[0].have
      ensures exists j | 0 < j <= i ::
        p in run[j].imported && p !in run[j - 1].imported && c.Recipe(p) <= run[j].store
    {
      var j := ImportedWhole(c, run, i, p);
      assert p !in run[j + 1 - 1].imported;
    }
  }

  lemma StepHave(c: Config, s: State, t: State)
    requires Step(c, s, t)
    ensures t.have == s.have
  {
    hide OnMessage, OnAssignment, Complete, Retry, Hashes, Bumps, Sends;
  }

  lemma {:induction false} HaveStays(c: Config, run: seq<State>, i: nat)
    requires IsRun(c, run) && i < |run|
    ensures run[i].have == run[0].have
  {
    hide Step;
    if i > 0 {
      HaveStays(c, run, i - 1);
      StepHave(c, run[i - 1], run[i]);
    }
  }
}

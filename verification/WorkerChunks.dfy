/**
 The worker's chunk bookkeeping: which paths wait on which chunk, and how many chunks each
 path still lacks. The counts are those of the waiters, so it asks for and wakes exactly
 what the protocol's worker does.
 */
module WorkerChunks {
  import opened StorePath
  import opened Graph
  import opened Relay

  function PairsOf(waiters: map<Chunk, seq<Path>>): Waits { set x, p | x in waiters && p in waiters[x] :: (x, p) }

  /** The chunks a path waits on. */
  function Lacks(aw: Waits, p: Path): set<Chunk> { set w | w in aw && w.1 == p :: w.0 }

  lemma LacksWaits(aw: Waits, p: Path)
    ensures WaitsOn(aw, p) <==> Lacks(aw, p) != {}
  {
    if WaitsOn(aw, p) {
      var w :| w in aw && w.1 == p;
      assert w.0 in Lacks(aw, p);
    }
  }

  lemma LacksMore(aw: Waits, x: Chunk, p: Path, q: Path)
    ensures Lacks(aw + {(x, p)}, q) == if q == p then Lacks(aw, q) + {x} else Lacks(aw, q)
  {}

  lemma LacksFewer(aw: Waits, x: Chunk, q: Path)
    ensures Lacks(Without(aw, x), q) == Lacks(aw, q) - {x}
  {}

  /** Nobody waits on the chunk any more. */
  function Without(aw: Waits, x: Chunk): Waits { set w | w in aw && w.0 != x }

  /** Each path with a count waits on that many chunks, and each path that waits has a count. */
  predicate Counts(aw: Waits, remaining: map<Path, nat>)
  {
    && (forall p <- remaining :: remaining[p] > 0 && remaining[p] == |Lacks(aw, p)|)
    && forall w <- aw :: w.1 in remaining
  }

  lemma CountsWaits(aw: Waits, remaining: map<Path, nat>, p: Path)
    requires Counts(aw, remaining)
    ensures p in remaining <==> WaitsOn(aw, p)
  {
    LacksWaits(aw, p);
  }

  predicate Tidy(waiters: map<Chunk, seq<Path>>) { forall x <- waiters :: waiters[x] != [] && Distinct(waiters[x]) }

  function Bumped(remaining: map<Path, nat>, p: Path, n: nat): map<Path, nat>
  {
    if n == 0 then remaining else remaining[p := n + if p in remaining then remaining[p] else 0]
  }

  /** One path lacks more chunks than before. */
  lemma CountsMore(aw: Waits, more: Waits, remaining: map<Path, nat>, p: Path, n: nat)
    requires Counts(aw, remaining) && aw <= more && (forall w <- more :: w in aw || w.1 == p)
    requires |Lacks(more, p)| == |Lacks(aw, p)| + n
    ensures Counts(more, Bumped(remaining, p, n))
  {
    LacksWaits(aw, p);
    LacksWaits(more, p);
    forall q | q in Bumped(remaining, p, n)
      ensures Bumped(remaining, p, n)[q] > 0 && Bumped(remaining, p, n)[q] == |Lacks(more, q)|
    {
      if q != p { assert Lacks(more, q) == Lacks(aw, q); }
      if q == p && p !in remaining { assert Lacks(aw, p) == {} by { CountsWaits(aw, remaining, p); } }
    }
    if n == 0 && Lacks(more, p) != {} {
      assert Lacks(aw, p) != {};
      CountsWaits(aw, remaining, p);
    }
  }

  lemma PairsPush(waiters: map<Chunk, seq<Path>>, x: Chunk, p: Path)
    requires Tidy(waiters)
    ensures var on := if x in waiters then waiters[x] else [];
      && (on == [] <==> !Awaited(PairsOf(waiters), x)) && (p in on <==> (x, p) in PairsOf(waiters))
      && (p !in on ==> Tidy(waiters[x := on + [p]]) && PairsOf(waiters[x := on + [p]]) == PairsOf(waiters) + {(x, p)})
      && (p in on ==> waiters[x := on] == waiters)
  {
    var on := if x in waiters then waiters[x] else [];
    if x in waiters { assert (x, on[0]) in PairsOf(waiters); }
  }

  lemma PairsAt(waiters: map<Chunk, seq<Path>>, x: Chunk)
    ensures forall q :: q in (if x in waiters then waiters[x] else []) <==> (x, q) in PairsOf(waiters)
  {}

  lemma TidyDrop(waiters: map<Chunk, seq<Path>>, x: Chunk)
    requires Tidy(waiters)
    ensures Tidy(waiters - {x}) && Distinct(if x in waiters then waiters[x] else [])
  {}

  lemma NoElems()
    ensures Elems<Path>([]) == {}
  {}

  lemma PairsDrop(waiters: map<Chunk, seq<Path>>, x: Chunk)
    ensures PairsOf(waiters - {x}) == Without(PairsOf(waiters), x)
  {}

  class ChunkStaging {
    ghost const c: Config
    var recipes: map<Path, seq<Chunk>>
    var waiters: map<Chunk, seq<Path>>
    var remaining: map<Path, nat>

    ghost function View(): Waits
      reads this
    {
      PairsOf(waiters)
    }

    ghost predicate Valid()
      reads this
    {
      && Tidy(waiters) && Counts(View(), remaining) && remaining.Keys <= recipes.Keys
      && forall p <- recipes :: p in c.recipe && Elems(recipes[p]) == c.recipe[p]
    }

    constructor (ghost c: Config)
      ensures Valid() && View() == {} && this.c == c && recipes == map[]
    {
      this.c := c;
      recipes, waiters, remaining := map[], map[], map[];
    }

    /** The chunks of the recipe that the store lacks are awaited. Those nobody awaited are returned. */
    method AwaitMissing(p: Path, recipe: seq<Chunk>, store: set<Chunk>) returns (need: seq<Chunk>)
      requires Tidy(waiters) && Counts(View(), remaining) && p in c.recipe && Elems(recipe) == c.recipe[p]
      modifies this`waiters, this`remaining
      ensures Tidy(waiters) && Counts(View(), remaining)
      ensures View() == old(View()) + Lacking(c, {p}, store)
      ensures Distinct(need) && Elems(need) == Fresh(old(View()), Lacking(c, {p}, store))
      ensures remaining.Keys <= old(remaining).Keys + {p}
    {
      hide Awaiting, Asking, Counts, Lacking, Fresh, Awaited, PairsOf, Tidy;
      ghost var aw := View();
      need := [];
      var missing := 0;
      AwaitNone(aw, p, store);
      for i := 0 to |recipe|
        invariant Tidy(waiters) && remaining == old(remaining)
        invariant Awaiting(aw, View(), p, recipe[..i], store, missing) && Asking(aw, need, p, recipe[..i], store)
      {
        var x := recipe[i];
        assert recipe[..i + 1] == recipe[..i] + [x];
        AwaitOne(aw, View(), need, p, recipe[..i], store, missing, x);
        if x !in store {
          PairsPush(waiters, x, p);
          var on := if x in waiters then waiters[x] else [];
          if on == [] {
            need := need + [x];
          }
          if p !in on {
            waiters := waiters[x := on + [p]];
            missing := missing + 1;
          }
        }
      }
      assert recipe[..|recipe|] == recipe;
      AwaitAll(c, aw, View(), need, p, recipe, store, missing);
      CountsMore(aw, View(), remaining, p, missing);
      if missing > 0 {
        remaining := remaining[p := missing + if p in remaining then remaining[p] else 0];
      }
    }

    /** A manifest came: what to request, and whether the path is complete. */
    method AddRecipe(p: Path, recipe: seq<Chunk>, store: set<Chunk>) returns (need: seq<Chunk>, ready: bool)
      requires Valid() && p in c.recipe && Elems(recipe) == c.recipe[p]
      modifies this
      ensures Valid() && recipes == old(recipes)[p := recipe] && View() == old(View()) + Lacking(c, {p}, store)
      ensures Distinct(need) && Elems(need) == Fresh(old(View()), Lacking(c, {p}, store))
      ensures ready <==> !WaitsOn(View(), p)
    {
      need := AwaitMissing(p, recipe, store);
      CountsWaits(View(), remaining, p);
      ready := p !in remaining;
      recipes := recipes[p := recipe];
    }

    method CountDown(p: Path) returns (last: bool)
      requires p in remaining && remaining[p] > 0
      modifies this`remaining
      ensures last == (old(remaining)[p] == 1)
      ensures remaining == if last then old(remaining) - {p} else old(remaining)[p := old(remaining)[p] - 1]
    {
      last := remaining[p] == 1;
      remaining := if last then remaining - {p} else remaining[p := remaining[p] - 1];
    }

    /** One frame is stored. The paths whose last missing chunk it was are returned, and no count is missing. */
    method Ingest(x: Chunk) returns (ready: seq<Path>)
      requires Valid()
      modifies this
      ensures Valid() && recipes == old(recipes) && View() == Without(old(View()), x)
      ensures Elems(ready) == set w | w in old(View()) && w.0 == x && !WaitsOn(View(), w.1) :: w.1
    {
      hide Counting, Completed, Without, Counts, WaitsOn, PairsOf, Tidy, Distinct, Elems;
      ready := [];
      var woken := if x in waiters then waiters[x] else [];
      ghost var aw := View();
      PairsDrop(waiters, x);
      TidyDrop(waiters, x);
      NoElems();
      waiters := waiters - {x};
      PairsAt(old(waiters), x);
      CountingStarts(aw, remaining, x, woken);
      assert woken[..0] == [] && woken[0..] == woken;
      NoneCompleted(aw, x);
      for i := 0 to |woken|
        invariant recipes == old(recipes) && waiters == old(waiters) - {x} && remaining.Keys <= old(remaining).Keys
        invariant Counting(aw, remaining, x, woken[i..]) && Elems(ready) == Completed(aw, x, woken[..i])
      {
        var p := woken[i];
        assert woken[i..] == [p] + woken[i + 1..] && woken[..i + 1] == woken[..i] + [p];
        CountOne(aw, remaining, x, woken, i);
        CompletedOn(aw, x, woken[..i], p);
        ElemsAdd(ready, p);
        var last := CountDown(p);
        if last {
          ready := ready + [p];
        }
      }
      assert woken[|woken|..] == [] && woken[..|woken|] == woken;
      CountingEnds(aw, remaining, x);
      CompletedAre(aw, x, woken);
    }

    /** The frames of an answer one by one: the protocol's worker takes them at once. */
    method IngestAll(xs: seq<Chunk>) returns (ready: set<Path>)
      requires Valid()
      modifies this
      ensures Valid() && recipes == old(recipes)
      ensures forall s: State | s.awaiting == old(View()) ::
        OnChunks(s, Elems(xs)).aw == View() && ready == set p | p in OnChunks(s, Elems(xs)).cand && !WaitsOn(View(), p)
    {
      ghost var aw := View();
      ready := {};
      assert After(aw, []) == aw;
      for i := 0 to |xs|
        invariant Valid() && recipes == old(recipes) && View() == After(aw, xs[..i]) && ready == Woken(aw, xs[..i])
      {
        assert xs[..i + 1] == xs[..i] + [xs[i]];
        var some := Ingest(xs[i]);
        AfterOn(aw, xs[..i], xs[i]);
        ready := ready + set p | p in some;
        assert Elems(some) == set p | p in some;
      }
      assert xs[..|xs|] == xs;
      forall s: State | s.awaiting == aw
        ensures OnChunks(s, Elems(xs)).aw == View()
        ensures ready == set p | p in OnChunks(s, Elems(xs)).cand && !WaitsOn(View(), p)
      {
        AfterAll(s, xs);
      }
    }

    /** Every request is answered and paths still wait: ask again for what the store lacks now. */
    method ReawaitStuck(store: set<Chunk>) returns (need: seq<Chunk>, ready: set<Path>)
      requires Valid()
      modifies this
      ensures Valid() && recipes == old(recipes)
      ensures var stuck := old(remaining).Keys;
        && View() == Lacking(c, stuck, store) && Distinct(need) && Elems(need) == Fresh({}, Lacking(c, stuck, store))
        && ready == (set p | p in stuck && c.Recipe(p) <= store)
      ensures forall p :: p in old(remaining) <==> WaitsOn(old(View()), p)
    {
      hide Counts, Lacking, Fresh, WaitsOn, Distinct, Elems, Tidy;
      forall p
        ensures p in remaining <==> WaitsOn(View(), p)
      {
        CountsWaits(View(), remaining, p);
      }
      ghost var all := remaining.Keys;
      var todo := remaining.Keys;
      waiters, remaining := map[], map[];
      need, ready := [], {};
      NothingAwaited(c, store);
      NothingAsked();
      assert all - todo == {};
      while todo != {}
        invariant todo <= all && Tidy(waiters) && Counts(View(), remaining) && remaining.Keys <= all - todo
        invariant recipes == old(recipes)
        invariant View() == Lacking(c, all - todo, store)
        invariant Distinct(need) && Elems(need) == Fresh({}, Lacking(c, all - todo, store))
        invariant ready == set p | p in all - todo && c.Recipe(p) <= store
        decreases todo
      {
        var p :| p in todo;
        LackingOn(c, all - todo, p, store);
        ghost var aw := View();
        var more := AwaitMissing(p, recipes[p], store);
        FreshApart(aw, Lacking(c, {p}, store));
        ElemsJoin(need, more);
        need := need + more;
        CountsWaits(View(), remaining, p);
        LackingWaits(c, all - todo, p, store);
        if p !in remaining {
          ready := ready + {p};
        }
        assert all - (todo - {p}) == all - todo + {p};
        todo := todo - {p};
      }
      assert all - {} == all;
    }
  }

  // ---- frame by frame ------------------------------------------------------------------------------

  function After(aw: Waits, xs: seq<Chunk>): Waits { set w | w in aw && w.0 !in xs }

  /** The paths whose last missing chunk is among these. */
  function Woken(aw: Waits, xs: seq<Chunk>): set<Path>
  {
    set w | w in aw && w.0 in xs && !WaitsOn(After(aw, xs), w.1) :: w.1
  }

  lemma AfterOn(aw: Waits, xs: seq<Chunk>, x: Chunk)
    ensures After(aw, xs + [x]) == Without(After(aw, xs), x)
    ensures var now := After(aw, xs + [x]);
      Woken(aw, xs + [x]) == Woken(aw, xs) + set w | w in After(aw, xs) && w.0 == x && !WaitsOn(now, w.1) :: w.1
  {
    var before, now := After(aw, xs), After(aw, xs + [x]);
    assert now == Without(before, x);
    var added := set w | w in before && w.0 == x && !WaitsOn(now, w.1) :: w.1;
    forall p | p in Woken(aw, xs + [x])
      ensures p in Woken(aw, xs) + added
    {
      var w :| w in aw && w.0 in xs + [x] && !WaitsOn(now, w.1) && w.1 == p;
      if WaitsOn(before, p) {
        var v :| v in before && v.1 == p;
        assert v in now || v.0 == x;
        assert v.1 in added;
      } else {
        assert w.0 !in xs ==> w in before;
      }
    }
    forall p | p in Woken(aw, xs)
      ensures p in Woken(aw, xs + [x])
    {
      var w :| w in aw && w.0 in xs && !WaitsOn(before, w.1) && w.1 == p;
      assert !WaitsOn(now, p);
    }
  }

  lemma AfterAll(s: State, xs: seq<Chunk>)
    ensures var hd := OnChunks(s, Elems(xs));
      hd.aw == After(s.awaiting, xs) && Woken(s.awaiting, xs) == set p | p in hd.cand && !WaitsOn(hd.aw, p)
  {
    var hd := OnChunks(s, Elems(xs));
    assert forall x :: x in Elems(xs) <==> x in xs;
    assert hd.aw == After(s.awaiting, xs);
  }

  // ---- the loops' bookkeeping --------------------------------------------------------------------

  /** After part of a recipe: its chunks not stored are awaited, `n` of them newly. */
  predicate Awaiting(aw: Waits, now: Waits, p: Path, part: seq<Chunk>, store: set<Chunk>, n: nat)
  {
    now == aw + (set x | x in part && x !in store :: (x, p)) && |Lacks(now, p)| == |Lacks(aw, p)| + n
  }

  predicate Asking(aw: Waits, need: seq<Chunk>, p: Path, part: seq<Chunk>, store: set<Chunk>)
  {
    Distinct(need) && Elems(need) == set x | x in part && x !in store && !Awaited(aw, x)
  }

  lemma AwaitNone(aw: Waits, p: Path, store: set<Chunk>)
    ensures Awaiting(aw, aw, p, [], store, 0) && Asking(aw, [], p, [], store)
  {
    assert aw == aw + (set x | x in [] && x !in store :: (x, p));
  }

  lemma AwaitOne(aw: Waits, now: Waits, need: seq<Chunk>, p: Path, part: seq<Chunk>, store: set<Chunk>, n: nat,
        x: Chunk)
    requires Awaiting(aw, now, p, part, store, n) && Asking(aw, need, p, part, store)
    ensures x in store ==> Awaiting(aw, now, p, part + [x], store, n) && Asking(aw, need, p, part + [x], store)
    ensures x !in store && (x, p) in now ==> Awaiting(aw, now, p, part + [x], store, n)
    ensures x !in store && (x, p) !in now ==> Awaiting(aw, now + {(x, p)}, p, part + [x], store, n + 1)
    ensures x !in store && Awaited(now, x) ==> Asking(aw, need, p, part + [x], store)
    ensures x !in store && !Awaited(now, x) ==> Asking(aw, need + [x], p, part + [x], store)
  {
    AwaitPair(aw, now, p, part, store, n, x);
    AskOne(aw, now, need, p, part, store, x);
  }

  lemma AwaitPair(aw: Waits, now: Waits, p: Path, part: seq<Chunk>, store: set<Chunk>, n: nat, x: Chunk)
    requires Awaiting(aw, now, p, part, store, n)
    ensures x in store || (x, p) in now ==> Awaiting(aw, now, p, part + [x], store, n)
    ensures x !in store && (x, p) !in now ==> Awaiting(aw, now + {(x, p)}, p, part + [x], store, n + 1)
  {
    var a, b := set y | y in part && y !in store :: (y, p), set y | y in part + [x] && y !in store :: (y, p);
    assert b == if x in store then a else a + {(x, p)};
    if (x, p) !in now {
      LacksMore(now, x, p, p);
      assert x !in Lacks(now, p);
    }
  }

  lemma AskOne(aw: Waits, now: Waits, need: seq<Chunk>, p: Path, part: seq<Chunk>, store: set<Chunk>, x: Chunk)
    requires now == aw + (set y | y in part && y !in store :: (y, p)) && Asking(aw, need, p, part, store)
    ensures x in store || Awaited(now, x) ==> Asking(aw, need, p, part + [x], store)
    ensures x !in store && !Awaited(now, x) ==> Asking(aw, need + [x], p, part + [x], store)
  {
    assert Awaited(now, x) <==> Awaited(aw, x) || (x in part && x !in store) by {
      if x in part && x !in store { assert (x, p) in now; }
      if Awaited(aw, x) { var w :| w in aw && w.0 == x; assert w in now; }
    }
    assert x !in store && !Awaited(now, x) ==> x !in need by {
      assert x in need ==> x in Elems(need);
    }
    assert Elems(need + [x]) == Elems(need) + {x};
  }

  lemma AwaitAll(c: Config, aw: Waits, now: Waits, need: seq<Chunk>, p: Path, recipe: seq<Chunk>, store: set<Chunk>,
        n: nat)
    requires p in c.recipe && Elems(recipe) == c.recipe[p]
    requires Awaiting(aw, now, p, recipe, store, n) && Asking(aw, need, p, recipe, store)
    ensures now == aw + Lacking(c, {p}, store) && Elems(need) == Fresh(aw, Lacking(c, {p}, store))
    ensures aw <= now && (forall w <- now :: w in aw || w.1 == p) && |Lacks(now, p)| == |Lacks(aw, p)| + n
    ensures Distinct(need)
  {
    var l := Lacking(c, {p}, store);
    assert forall x :: x in recipe <==> x in c.Recipe(p);
    assert l == set x | x in recipe && x !in store :: (x, p);
    forall x
      ensures x in Fresh(aw, l) <==> x in recipe && x !in store && !Awaited(aw, x)
    {
      if x in recipe && x !in store && !Awaited(aw, x) { assert (x, p) in l; }
    }
  }

  /** Counts are right but for one chunk, which the paths still to be woken count too. */
  predicate Counting(aw: Waits, remaining: map<Path, nat>, x: Chunk, todo: seq<Path>)
  {
    && Distinct(todo) && (forall p <- todo :: (x, p) in aw)
    && (forall p <- remaining :: remaining[p] > 0 && remaining[p] == Left(aw, x, p, p in todo))
    && forall w <- aw :: w.0 != x || w.1 in todo ==> w.1 in remaining
  }

  function Left(aw: Waits, x: Chunk, p: Path, counted: bool): nat
  {
    if counted then |Lacks(aw, p)| else |Lacks(aw, p) - {x}|
  }

  lemma CountingStarts(aw: Waits, remaining: map<Path, nat>, x: Chunk, woken: seq<Path>)
    requires Counts(aw, remaining) && Distinct(woken) && forall q :: q in woken <==> (x, q) in aw
    ensures Counting(aw, remaining, x, woken)
  {
    hide Lacks;
    forall p | p in remaining
      ensures remaining[p] == Left(aw, x, p, p in woken)
    {
      LacksOther(aw, x, p);
    }
  }

  lemma LacksOther(aw: Waits, x: Chunk, p: Path)
    ensures (x, p) !in aw ==> Lacks(aw, p) - {x} == Lacks(aw, p)
  {}

  lemma CountOne(aw: Waits, remaining: map<Path, nat>, x: Chunk, woken: seq<Path>, i: nat)
    requires i < |woken| && Counting(aw, remaining, x, woken[i..])
    ensures var p, rest := woken[i], woken[i + 1..];
      && p in remaining && remaining[p] > 0 && remaining[p] - 1 == |Lacks(aw, p) - {x}|
      && (remaining[p] == 1 ==> Counting(aw, remaining - {p}, x, rest))
      && (remaining[p] > 1 ==> Counting(aw, remaining[p := remaining[p] - 1], x, rest))
      && (remaining[p] == 1 <==> !WaitsOn(Without(aw, x), p))
  {
    hide Lacks, WaitsOn, Without;
    var p, rest := woken[i], woken[i + 1..];
    TailOf(woken, i);
    LacksThis(aw, x, p);
    LacksFewer(aw, x, p);
    LacksWaits(Without(aw, x), p);
    if remaining[p] == 1 {
      CountRest(aw, remaining, remaining - {p}, x, woken[i..], p, rest);
    } else {
      CountRest(aw, remaining, remaining[p := remaining[p] - 1], x, woken[i..], p, rest);
    }
  }

  lemma TailOf(woken: seq<Path>, i: nat)
    requires i < |woken| && Distinct(woken[i..])
    ensures var p, rest := woken[i], woken[i + 1..];
      woken[i..] == [p] + rest && p in woken[i..] && p !in rest && Distinct(rest)
      && forall q :: q in woken[i..] <==> q == p || q in rest
  {
    var p, rest, all := woken[i], woken[i + 1..], woken[i..];
    assert all == [p] + rest;
    forall m | 0 <= m < |rest|
      ensures rest[m] == all[m + 1] && rest[m] != p
    {
      assert all[0] == p;
    }
  }

  lemma LacksThis(aw: Waits, x: Chunk, p: Path)
    ensures (x, p) in aw ==> |Lacks(aw, p)| == |Lacks(aw, p) - {x}| + 1
  {
    if (x, p) in aw { assert x in Lacks(aw, p); }
  }

  lemma LacksOne(aw: Waits, x: Chunk, p: Path)
    ensures forall w <- aw :: w.1 == p && w.0 != x ==> w.0 in Lacks(aw, p) - {x}
  {}

  lemma CountRest(aw: Waits, before: map<Path, nat>, after: map<Path, nat>, x: Chunk, todo: seq<Path>, p: Path,
        rest: seq<Path>)
    requires Counting(aw, before, x, todo) && Distinct(rest) && p in before && p !in rest
    requires (forall q :: q in todo <==> q == p || q in rest)
    requires before[p] - 1 == |Lacks(aw, p) - {x}|
    requires after == if before[p] == 1 then before - {p} else before[p := before[p] - 1]
    ensures Counting(aw, after, x, rest)
  {
    hide Lacks;
    LacksOne(aw, x, p);
    forall w | w in aw && (w.0 != x || w.1 in rest)
      ensures w.1 in after
    {
      if w.1 == p { assert w.0 in Lacks(aw, p) - {x}; }
    }
  }

  lemma CountingEnds(aw: Waits, remaining: map<Path, nat>, x: Chunk)
    requires Counting(aw, remaining, x, [])
    ensures Counts(Without(aw, x), remaining)
  {
    forall p | p in remaining
      ensures remaining[p] == |Lacks(Without(aw, x), p)|
    {
      LacksFewer(aw, x, p);
    }
  }

  /** Of these paths, those that wait on nothing but the chunk. */
  function Completed(aw: Waits, x: Chunk, ps: seq<Path>): set<Path> { set p | p in ps && !WaitsOn(Without(aw, x), p) }

  lemma CompletedOn(aw: Waits, x: Chunk, ps: seq<Path>, p: Path)
    ensures Completed(aw, x, ps + [p]) == Completed(aw, x, ps) + if WaitsOn(Without(aw, x), p) then {} else {p}
  {}

  lemma NoneCompleted(aw: Waits, x: Chunk)
    ensures Completed(aw, x, []) == {}
  {}

  lemma ElemsAdd(ps: seq<Path>, p: Path)
    ensures Elems(ps + [p]) == Elems(ps) + {p}
  {}

  lemma CompletedAre(aw: Waits, x: Chunk, woken: seq<Path>)
    requires forall q :: q in woken <==> (x, q) in aw
    ensures Completed(aw, x, woken) == set w | w in aw && w.0 == x && !WaitsOn(Without(aw, x), w.1) :: w.1
  {
    forall p | p in Completed(aw, x, woken)
      ensures p in set w | w in aw && w.0 == x && !WaitsOn(Without(aw, x), w.1) :: w.1
    {
      assert (x, p) in aw;
    }
  }

  lemma NothingAsked()
    ensures Distinct<Chunk>([]) && Elems<Chunk>([]) == {} && Tidy(map[])
  {}

  lemma NothingAwaited(c: Config, store: set<Chunk>)
    ensures PairsOf(map[]) == {} && Counts({}, map[]) && Lacking(c, {}, store) == {} && Fresh({}, {}) == {}
  {}

  lemma LackingOn(c: Config, ps: set<Path>, p: Path, store: set<Chunk>)
    ensures Lacking(c, ps + {p}, store) == Lacking(c, ps, store) + Lacking(c, {p}, store)
    ensures Fresh({}, Lacking(c, ps + {p}, store)) ==
      Fresh({}, Lacking(c, ps, store)) + Fresh(Lacking(c, ps, store), Lacking(c, {p}, store))
  {
    var a, b := Lacking(c, ps, store), Lacking(c, {p}, store);
    assert Lacking(c, ps + {p}, store) == a + b;
    FreshJoins(a, b);
  }

  lemma FreshJoins(a: Waits, b: Waits)
    ensures Fresh({}, a + b) == Fresh({}, a) + Fresh(a, b)
  {
    forall x | x in Fresh({}, a + b)
      ensures x in Fresh({}, a) + Fresh(a, b)
    {
      var w: (Chunk, Path) :| w in a + b && w.0 == x;
    }
  }

  /** What is asked for anew was not awaited, so it was not asked for before. */
  lemma FreshApart(aw: Waits, l: Waits)
    ensures Fresh({}, aw) !! Fresh(aw, l)
  {}

  lemma ElemsJoin(a: seq<Chunk>, b: seq<Chunk>)
    requires Distinct(a) && Distinct(b) && Elems(a) !! Elems(b)
    ensures Elems(a + b) == Elems(a) + Elems(b) && Distinct(a + b)
  {
    forall i, j | 0 <= i < |a| && 0 <= j < |b|
      ensures a[i] != b[j]
    {
      assert a[i] in Elems(a) && b[j] in Elems(b);
    }
  }

  /** A path that is awaited again waits exactly if the store lacks one of its chunks. */
  lemma LackingWaits(c: Config, ps: set<Path>, p: Path, store: set<Chunk>)
    requires p !in ps
    ensures WaitsOn(Lacking(c, ps, store) + Lacking(c, {p}, store), p) <==> !(c.Recipe(p) <= store)
  {
    var now := Lacking(c, ps, store) + Lacking(c, {p}, store);
    forall x | x in c.Recipe(p) && !WaitsOn(now, p)
      ensures x in store
    {
      assert x !in store ==> (x, p) in now;
    }
  }
}

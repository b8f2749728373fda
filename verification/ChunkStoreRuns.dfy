/** A cache over its life: any calls, in any order. */
module ChunkStoreRuns {
  import opened Bytes
  import opened Pack
  import opened ChunkStore
  import opened ChunkStoreInv
  import opened ChunkStoreEvict
  import opened ChunkStoreBudget
  import opened ChunkStoreEvictLoop
  import opened ChunkStoreOps
  import opened ChunkStoreOpen
  import opened Graph

  datatype Call =
    | Insert(hash: Hash, frame: Bytes) | Locate(hash: Hash) | Forget(hash: Hash)
    | Pin(hashes: seq<Hash>) | Unpin(hashes: seq<Hash>)

  ghost function Called(s: Store, c: Call): Store
    requires Inv(s, None) && s.sealBytes > 0
  {
    match c
    case Insert(h, f) => Inserted(s, h, f)
    case Locate(h) => Bumped(s, h)
    case Forget(h) => s.(entries := s.entries - {h})
    case Pin(hashes) => s.(pins := Pinned(s.pins, hashes))
    case Unpin(hashes) => s.(pins := Unpinned(s.pins, hashes))
  }

  /** What a call other than an insert does to the entries. */
  lemma QuietCall(s: Store, c: Call)
    requires Inv(s, None) && s.sealBytes > 0 && !c.Insert?
    ensures var t := Called(s, c);
      && Inv(t, None) && t.sealBytes == s.sealBytes && t.budget == s.budget && t.disk == s.disk
      && (Filled(s) ==> Filled(t))
      && t.entries.Keys <= s.entries.Keys && (c.Forget? || t.entries.Keys == s.entries.Keys)
      && (c.Forget? ==> s.entries.Keys - {c.hash} <= t.entries.Keys)
      && (forall h <- t.entries :: FrameOf(t, h) == FrameOf(s, h))
  {
    InvLocal(s, Called(s, c), None);
  }

  lemma CallInv(s: Store, c: Call)
    requires Inv(s, None) && s.sealBytes > 0
    ensures var t := Called(s, c);
      Inv(t, None) && t.sealBytes == s.sealBytes && (Filled(s) ==> Filled(t)) && Grows(s.disk, t.disk)
  {
    hide Inv, Filled, Inserted;
    match c
    case Insert(h, f) =>
      InsertAdmits(s, h, f);
      if Filled(s) { InsertBudget(s, h, f); }
    case _ => QuietCall(s, c);
  }

  ghost function After(s: Store, calls: seq<Call>): (t: Store)
    requires Inv(s, None) && s.sealBytes > 0
    ensures Inv(t, None) && t.sealBytes == s.sealBytes && (Filled(s) ==> Filled(t)) && Grows(s.disk, t.disk)
    decreases |calls|
  {
    hide Inv, Filled;
    if calls == [] then assert Grows(s.disk, s.disk); s else
      var u := After(s, calls[..|calls| - 1]);
      CallInv(u, calls[|calls| - 1]);
      GrowsTrans(s.disk, u.disk, Called(u, calls[|calls| - 1]).disk);
      Called(u, calls[|calls| - 1])
  }

  /** Everything in the cache was in it at the start or inserted since, as it is. */
  ghost predicate Genuine(s: Store, calls: seq<Call>, t: Store)
  {
    forall h <- t.entries :: (h in s.entries && FrameOf(t, h) == FrameOf(s, h)) || Insert(h, FrameOf(t, h)) in calls
  }

  lemma GenuineCall(s: Store, calls: seq<Call>, t: Store, c: Call)
    requires Inv(t, None) && t.sealBytes > 0 && Genuine(s, calls, t)
    ensures Genuine(s, calls + [c], Called(t, c))
  {
    var u := Called(t, c);
    if c.Insert? { InsertAdmits(t, c.hash, c.frame); } else { QuietCall(t, c); }
    hide Inv, Called;
    forall h | h in u.entries
      ensures (h in s.entries && FrameOf(u, h) == FrameOf(s, h)) || Insert(h, FrameOf(u, h)) in calls + [c]
    {
      if c.Insert? && h == c.hash && FrameOf(u, h) == c.frame {
        assert (calls + [c])[|calls|] == Insert(h, FrameOf(u, h));
      } else {
        assert h in t.entries && FrameOf(u, h) == FrameOf(t, h);
      }
    }
  }

  lemma GenuineStart(s: Store, t: Store)
    requires t == s
    ensures Genuine(s, [], t)
  {}

  /** A hit is always a frame someone stored under that hash. */
  lemma {:induction false} AllGenuine(s: Store, calls: seq<Call>)
    requires Inv(s, None) && s.sealBytes > 0
    ensures Genuine(s, calls, After(s, calls))
    decreases |calls|
  {
    hide Inv, Filled, Genuine, Called;
    if calls == [] {
      GenuineStart(s, After(s, calls));
    } else {
      var rest := calls[..|calls| - 1];
      AllGenuine(s, rest);
      assert calls == rest + [calls[|calls| - 1]];
      GenuineCall(s, rest, After(s, rest), calls[|calls| - 1]);
    }
  }

  // ---- guards --------------------------------------------------------------------------------

  /** The hashes named by live guards: each pin makes a guard, each unpin drops one. */
  function Guards(held: multiset<Hash>, calls: seq<Call>): multiset<Hash>
  {
    if calls == [] then held else
      var g, c := Guards(held, calls[..|calls| - 1]), calls[|calls| - 1];
      if c.Pin? then g + multiset(c.hashes) else if c.Unpin? then g - multiset(c.hashes) else g
  }

  /** Only live guards are dropped. */
  predicate Guarded(held: multiset<Hash>, calls: seq<Call>)
  {
    forall i | 0 <= i < |calls| && calls[i].Unpin? :: multiset(calls[i].hashes) <= Guards(held, calls[..i])
  }

  lemma GuardedRest(held: multiset<Hash>, calls: seq<Call>)
    requires calls != [] && Guarded(held, calls)
    ensures var rest, c := calls[..|calls| - 1], calls[|calls| - 1];
      Guarded(held, rest) && (c.Unpin? ==> multiset(c.hashes) <= Guards(held, rest))
  {
    var rest := calls[..|calls| - 1];
    forall i | 0 <= i < |rest| && rest[i].Unpin?
      ensures multiset(rest[i].hashes) <= Guards(held, rest[..i])
    {
      assert rest[..i] == calls[..i];
    }
  }

  lemma CallHeld(s: Store, held: multiset<Hash>, c: Call)
    requires Inv(s, None) && s.sealBytes > 0 && Held(s.pins, held) && (c.Unpin? ==> multiset(c.hashes) <= held)
    ensures Held(Called(s, c).pins, if c.Pin? then held + multiset(c.hashes)
      else if c.Unpin? then held - multiset(c.hashes) else held)
  {
    hide Inv, Held, Inserted;
    match c
    case Insert(h, f) => InsertAdmits(s, h, f);
    case Pin(hashes) => PinnedHeld(s.pins, held, hashes);
    case Unpin(hashes) =>
      assert held == held - multiset(hashes) + multiset(hashes);
      UnpinnedHeld(s.pins, held - multiset(hashes), hashes);
    case _ =>
  }

  /** Over any run a chunk is pinned as often as live guards name it. */
  lemma {:induction false} CountsGuards(s: Store, held: multiset<Hash>, calls: seq<Call>)
    requires Inv(s, None) && s.sealBytes > 0 && Held(s.pins, held) && Guarded(held, calls)
    ensures Held(After(s, calls).pins, Guards(held, calls))
    decreases |calls|
  {
    hide Inv, Filled, Called, Held, Guarded;
    if calls != [] {
      var rest, c := calls[..|calls| - 1], calls[|calls| - 1];
      GuardedRest(held, calls);
      CountsGuards(s, held, rest);
      CallHeld(After(s, rest), Guards(held, rest), c);
    }
  }

  predicate PinnedIn(s: Store, h: Hash) { h in s.entries && h in s.pins }

  lemma PinSurvives(s: Store, c: Call, h: Hash)
    requires Inv(s, None) && s.sealBytes > 0 && PinnedIn(s, h) && c != Forget(h)
    ensures h in Called(s, c).entries && FrameOf(Called(s, c), h) == FrameOf(s, h)
  {
    hide Inv, Inserted;
    if c.Insert? {
      InsertAdmits(s, c.hash, c.frame);
      AdmitPins(s, c.hash, c.frame, h);
    } else {
      QuietCall(s, c);
    }
  }

  /** Inserting a chunk that is there changes nothing, so a pinned one keeps its frame. */
  lemma AdmitPins(s: Store, g: Hash, f: Bytes, h: Hash)
    requires Inv(s, None) && s.sealBytes > 0 && PinnedIn(s, h) && Admits(s, Inserted(s, g, f), g, f)
    ensures h in Inserted(s, g, f).entries && FrameOf(Inserted(s, g, f), h) == FrameOf(s, h)
  {
    if g in s.entries {
      assert Inserted(s, g, f) == s;
    }
  }

  /** Some guard names the chunk before each of the calls. */
  predicate AlwaysGuarded(held: multiset<Hash>, calls: seq<Call>, h: Hash)
  {
    forall i | 0 <= i < |calls| :: h in Guards(held, calls[..i])
  }

  lemma AlwaysRest(held: multiset<Hash>, calls: seq<Call>, h: Hash)
    requires calls != [] && AlwaysGuarded(held, calls, h)
    ensures AlwaysGuarded(held, calls[..|calls| - 1], h) && h in Guards(held, calls[..|calls| - 1])
  {
    var rest := calls[..|calls| - 1];
    forall i | 0 <= i < |rest|
      ensures h in Guards(held, rest[..i])
    {
      assert rest[..i] == calls[..i];
    }
  }

  lemma HeldPinned(pins: map<Hash, nat>, held: multiset<Hash>, h: Hash)
    requires Held(pins, held)
    ensures h in pins <==> h in held
  {}

  /**
   A chunk stays, with its frame, as long as some guard names it and it is not forgotten:
   through evictions, and through the dropping of other guards that name it too.
   */
  lemma {:induction false} PinsHold(s: Store, held: multiset<Hash>, calls: seq<Call>, h: Hash)
    requires Inv(s, None) && s.sealBytes > 0 && Held(s.pins, held) && Guarded(held, calls)
    requires h in s.entries && AlwaysGuarded(held, calls, h) && Forget(h) !in calls
    ensures h in After(s, calls).entries && FrameOf(After(s, calls), h) == FrameOf(s, h)
    decreases |calls|
  {
    hide Inv, Filled, Called, FrameOf, Held, Guarded, AlwaysGuarded, Guards;
    if calls != [] {
      var rest, c := calls[..|calls| - 1], calls[|calls| - 1];
      assert c in calls;
      GuardedRest(held, calls);
      AlwaysRest(held, calls, h);
      PinsHold(s, held, rest, h);
      CountsGuards(s, held, rest);
      HeldPinned(After(s, rest).pins, Guards(held, rest), h);
      PinSurvives(After(s, rest), c, h);
    }
  }

  /**
   From an empty directory on, every admission ends within budget or with main holding
   only what was pinned or hot, and the packs in use.
   */
  lemma NeverOver(budget: nat, sealBytes: nat, calls: seq<Call>, h: Hash, f: Bytes)
    requires sealBytes > 0
    ensures Inv(Blank(budget, sealBytes), None)
    ensures var s := After(Blank(budget, sealBytes), calls);
      h !in s.entries && |f| < FRAME_LIMIT ==>
        var a, t := Append(GhostTaken(s, h), Admission(s, h), h, f, 0), Inserted(s, h, f);
        Total(t) <= s.budget || forall id <- Order(t) :: Live(t, id, Kept(a))
  {
    var b := Blank(budget, sealBytes);
    assert Elems<nat>([]) == {};
    assert Inv(b, None) && Filled(b);
    var s := After(b, calls);
    hide Inv, Filled, After;
    InsertBudget(s, h, f);
  }
}

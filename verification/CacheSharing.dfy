/**
 The hub's chunk cache as one delivery sees it: between any two of its own calls others
 make theirs. Its pinned chunks stay, because the cache counts pins per guard.
 */
module CacheSharing {
  import opened Bytes
  import opened Pack
  import opened ChunkStore
  import opened ChunkStoreInv
  import opened ChunkStoreEvict
  import opened ChunkStoreOps
  import opened ChunkStoreRuns
  import opened ChunkCache

  // ---- guards of one user among others' ----------------------------------------------------------

  lemma {:induction false} GuardsPlus(mine: multiset<Hash>, held: multiset<Hash>, calls: seq<Call>)
    requires Guarded(held, calls)
    ensures Guards(mine + held, calls) == mine + Guards(held, calls) && Guarded(mine + held, calls)
    decreases |calls|
  {
    if calls != [] {
      var rest, c := calls[..|calls| - 1], calls[|calls| - 1];
      GuardedRest(held, calls);
      GuardsPlus(mine, held, rest);
      forall i | 0 <= i < |calls| && calls[i].Unpin?
        ensures multiset(calls[i].hashes) <= Guards(mine + held, calls[..i])
      {
        if i < |rest| { assert calls[..i] == rest[..i] && calls[i] == rest[i]; } else { assert calls[..i] == rest; }
      }
    }
  }

  lemma MineAlways(mine: multiset<Hash>, held: multiset<Hash>, calls: seq<Call>, h: Hash)
    requires Guarded(held, calls) && h in mine
    ensures AlwaysGuarded(mine + held, calls, h)
  {
    forall i | 0 <= i < |calls|
      ensures h in Guards(mine + held, calls[..i])
    {
      assert forall k | 0 <= k < i :: calls[..i][..k] == calls[..k];
      GuardsPlus(mine, held, calls[..i]);
    }
  }

  /** The guards others hold by tick `k`. */
  function HeldAt(held: multiset<Hash>, others: nat -> seq<Call>, k: nat): multiset<Hash>
  {
    if k == 0 then held else Guards(HeldAt(held, others, k - 1), others(k - 1))
  }

  /** Others drop their own guards only, and forget nothing: on the hub nobody does. */
  ghost predicate Civil(held: multiset<Hash>, others: nat -> seq<Call>)
  {
    forall k: nat :: Guarded(HeldAt(held, others, k), others(k)) && forall c <- others(k) :: !c.Forget?
  }

  lemma CivilCalls(held: multiset<Hash>, others: nat -> seq<Call>, k: nat)
    requires Civil(held, others)
    ensures Guarded(HeldAt(held, others, k), others(k)) && forall c <- others(k) :: !c.Forget?
    ensures HeldAt(held, others, k + 1) == Guards(HeldAt(held, others, k), others(k))
  {}

  // ---- frames by hash ----------------------------------------------------------------------------

  type Frames = map<Hash, Bytes>

  function FramesOf(s: Store): Frames { map h | h in s.entries :: FrameOf(s, h) }

  /** All the named chunks that were there are there as they were. */
  predicate Keeps(a: Frames, b: Frames, mine: multiset<Hash>) { forall h <- a :: h in mine ==> h in b && b[h] == a[h] }

  ghost predicate Vouched(frames: Frames, good: (Hash, Bytes) -> bool) { forall h <- frames :: good(h, frames[h]) }

  /** All that others put in is good. */
  ghost predicate Clean(others: nat -> seq<Call>, good: (Hash, Bytes) -> bool)
  {
    forall k: nat, c | c in others(k) && c.Insert? :: good(c.hash, c.frame)
  }

  lemma RunKeeps(s: Store, mine: multiset<Hash>, held: multiset<Hash>, calls: seq<Call>)
    requires Inv(s, None) && s.sealBytes > 0 && Held(s.pins, mine + held) && Guarded(held, calls)
    requires forall c <- calls :: !c.Forget?
    ensures var t := After(s, calls); Held(t.pins, mine + Guards(held, calls)) && Keeps(FramesOf(s), FramesOf(t), mine)
  {
    hide Inv, Held, Guarded, Guards, After, FrameOf, Filled, Grows;
    GuardsPlus(mine, held, calls);
    CountsGuards(s, mine + held, calls);
    forall h | h in s.entries && h in mine
      ensures h in After(s, calls).entries && FrameOf(After(s, calls), h) == FrameOf(s, h)
    {
      MineAlways(mine, held, calls, h);
      PinsHold(s, mine + held, calls, h);
    }
  }

  lemma RunVouched(s: Store, calls: seq<Call>, good: (Hash, Bytes) -> bool)
    requires Inv(s, None) && s.sealBytes > 0 && Vouched(FramesOf(s), good)
    requires forall c <- calls | c.Insert? :: good(c.hash, c.frame)
    ensures Vouched(FramesOf(After(s, calls)), good)
  {
    hide Inv, After, FrameOf, Filled, Grows;
    AllGenuine(s, calls);
    var t := After(s, calls);
    forall h | h in t.entries
      ensures good(h, FrameOf(t, h))
    {
      if Insert(h, FrameOf(t, h)) !in calls {
        assert FramesOf(s)[h] == FrameOf(s, h);
      }
    }
  }

  lemma CleanCalls(others: nat -> seq<Call>, good: (Hash, Bytes) -> bool, k: nat)
    requires Clean(others, good)
    ensures forall c <- others(k) | c.Insert? :: good(c.hash, c.frame)
  {}

  lemma InsertKeeps(s: Store, mine: multiset<Hash>, held: multiset<Hash>, h: Hash, f: Bytes)
    requires Inv(s, None) && s.sealBytes > 0 && Held(s.pins, mine + held)
    ensures var t := Inserted(s, h, f);
      && t.pins == s.pins && Keeps(FramesOf(s), FramesOf(t), mine)
      && (forall g <- t.entries :: (g in s.entries && FrameOf(t, g) == FrameOf(s, g)) || (g == h && FrameOf(t, g) == f))
      && (h in mine && (h in s.entries || |f| < FRAME_LIMIT) ==> h in t.entries)
  {
    hide Inv, Inserted, FrameOf, Grows;
    InsertAdmits(s, h, f);
    forall g | g in s.entries && g in mine
      ensures g in Inserted(s, h, f).entries && FrameOf(Inserted(s, h, f), g) == FrameOf(s, g)
    {
      AdmitPins(s, h, f, g);
    }
  }

  // ---- the shared cache ----------------------------------------------------------------------------

  class SharedCache {
    const cache: Cache
    const others: nat -> seq<Call>
    ghost const held: multiset<Hash>
    var clock: nat
    ghost var mine: multiset<Hash>

    ghost predicate Valid()
      reads this, cache
    {
      cache.Valid(None) && Held(cache.pins, mine + HeldAt(held, others, clock)) && Civil(held, others)
    }

    ghost function Frames(): Frames
      reads this, cache
    {
      FramesOf(cache.View())
    }

    constructor (cache: Cache, others: nat -> seq<Call>, ghost held: multiset<Hash>)
      requires cache.Valid(None) && Held(cache.pins, held) && Civil(held, others)
      ensures Valid() && this.cache == cache && this.others == others && mine == multiset{} && clock == 0
    {
      this.cache, this.others, this.held, clock, mine := cache, others, held, 0, multiset{};
    }

    method Perform(c: Call)
      requires cache.Valid(None)
      modifies cache
      ensures cache.Valid(None) && cache.View() == Called(old(cache.View()), c)
    {
      hide Inv, Inserted, Bumped, Pinned, Unpinned;
      match c {
        case Insert(h, f) => var ok := cache.InsertFrame(h, f);
        case Locate(h) => var r := cache.LocateFrame(h);
        case Forget(h) => cache.ForgetChunk(h);
        case Pin(hashes) => cache.PinChunks(hashes);
        case Unpin(hashes) => cache.UnpinChunks(hashes);
      }
    }

    method PerformAll(calls: seq<Call>)
      requires cache.Valid(None)
      modifies cache
      ensures cache.Valid(None) && cache.View() == After(old(cache.View()), calls)
    {
      hide Inv, Called, Filled, Grows;
      ghost var s := cache.View();
      for i := 0 to |calls|
        invariant cache.Valid(None) && cache.View() == After(s, calls[..i])
      {
        assert calls[..i + 1][..i] == calls[..i];
        Perform(calls[i]);
      }
      assert calls[..|calls|] == calls;
    }

    /** Others make their calls. */
    method Yield(ghost good: (Hash, Bytes) -> bool)
      requires Valid()
      modifies this`clock, cache
      ensures Valid() && Keeps(old(Frames()), Frames(), mine) && Grows(old(cache.disk), cache.disk)
      ensures Clean(others, good) && old(Vouched(Frames(), good)) ==> Vouched(Frames(), good)
    {
      hide Inv, Held, Guarded, Guards, After, FrameOf, Filled, Keeps, Vouched, Grows, Clean, FramesOf, Civil, HeldAt;
      ghost var s := cache.View();
      var calls := others(clock);
      CivilCalls(held, others, clock);
      PerformAll(calls);
      RunKeeps(s, mine, HeldAt(held, others, clock), calls);
      if Clean(others, good) && Vouched(FramesOf(s), good) {
        CleanCalls(others, good, clock);
        RunVouched(s, calls, good);
      }
      clock := clock + 1;
    }

    method Pin(hashes: seq<Hash>)
      requires Valid()
      modifies this`mine, cache
      ensures Valid() && mine == old(mine) + multiset(hashes) && Frames() == old(Frames())
    {
      hide Inv, Held, Pinned, FrameOf;
      PinnedHeld(cache.pins, mine + HeldAt(held, others, clock), hashes);
      assert mine + HeldAt(held, others, clock) + multiset(hashes)
        == mine + multiset(hashes) + HeldAt(held, others, clock);
      ghost var s := cache.View();
      cache.PinChunks(hashes);
      SameFrames(s, cache.View());
      mine := mine + multiset(hashes);
    }

    /** The guard is dropped. */
    method Unpin(hashes: seq<Hash>)
      requires Valid() && multiset(hashes) <= mine
      modifies this`mine, cache
      ensures Valid() && mine == old(mine) - multiset(hashes) && Frames() == old(Frames())
    {
      hide Inv, Held, Unpinned, FrameOf;
      assert mine + HeldAt(held, others, clock)
        == mine - multiset(hashes) + HeldAt(held, others, clock) + multiset(hashes);
      UnpinnedHeld(cache.pins, mine - multiset(hashes) + HeldAt(held, others, clock), hashes);
      ghost var s := cache.View();
      cache.UnpinChunks(hashes);
      SameFrames(s, cache.View());
      mine := mine - multiset(hashes);
    }

    method Locate(h: Hash) returns (r: Option<FrameRef>)
      requires Valid()
      modifies cache
      ensures Valid() && Frames() == old(Frames()) && cache.disk == old(cache.disk) && (r.Some? <==> h in Frames())
      ensures r.Some? ==> Reads(cache.disk, r.value, Frames()[h])
    {
      hide Inv, Held, FrameOf;
      ghost var s := cache.View();
      BumpedInv(s, None, h);
      if h in s.entries { LocatedGrows(s, h); }
      r := cache.LocateFrame(h);
      BumpedFrames(s, h);
    }

    /** Read what was located, after others may have used the cache. */
    method Fetch(h: Hash, ghost good: (Hash, Bytes) -> bool) returns (r: Option<Bytes>)
      requires Valid()
      modifies this`clock, cache
      ensures Valid() && Keeps(old(Frames()), Frames(), mine)
      ensures Clean(others, good) && old(Vouched(Frames(), good)) ==> Vouched(Frames(), good)
      ensures (r.Some? <==> h in old(Frames())) && (r.Some? ==> r.value == old(Frames())[h])
    {
      hide Inv, Held, FrameOf, Keeps, Vouched, Grows, FramesOf;
      var ref := Locate(h);
      ghost var frame := if ref.Some? then Frames()[h] else [];
      ghost var disk := cache.disk;
      Yield(good);
      if ref.None? { return None; }
      ReadsLater(disk, cache.disk, ref.value, frame);
      r := Some(FrameAt(cache.disk[ref.value.pack], ref.value.offset, ref.value.len));
    }

    /** Put a frame in, unless the chunk is there or the frame is too long. */
    method Admit(h: Hash, f: Bytes, ghost good: (Hash, Bytes) -> bool) returns (ok: bool)
      requires Valid()
      modifies cache
      ensures Valid() && Keeps(old(Frames()), Frames(), mine)
      ensures ok == (h in old(Frames()) || |f| < FRAME_LIMIT)
      ensures ok && h in mine ==> h in Frames()
      ensures good(h, f) && old(Vouched(Frames(), good)) ==> Vouched(Frames(), good)
    {
      hide Inv, Held, FrameOf, Inserted;
      ghost var s := cache.View();
      InsertKeeps(s, mine, HeldAt(held, others, clock), h, f);
      ok := cache.InsertFrame(h, f);
      ghost var t := cache.View();
      if good(h, f) && Vouched(FramesOf(s), good) {
        forall g | g in t.entries
          ensures good(g, FrameOf(t, g))
        {
          if g in s.entries { assert FramesOf(s)[g] == FrameOf(s, g); }
        }
      }
    }
  }

  /** The place reads the frame, and will as long as packs only grow. */
  predicate Reads(disk: Image, r: FrameRef, frame: Bytes)
  {
    && r.pack in disk && r.offset + r.len <= |EncodeAll(disk[r.pack].records)|
    && FrameAt(disk[r.pack], r.offset, r.len) == frame
  }

  lemma ReadsLater(a: Image, b: Image, r: FrameRef, frame: Bytes)
    requires Reads(a, r, frame) && Grows(a, b)
    ensures Reads(b, r, frame)
  {
    SlotsGrow(a[r.pack].records, b[r.pack].records);
    var x, y := EncodeAll(a[r.pack].records), EncodeAll(b[r.pack].records);
    assert x[r.offset..r.offset + r.len] == y[r.offset..r.offset + r.len];
  }

  lemma LocatedGrows(s: Store, h: Hash)
    requires Inv(s, None) && h in s.entries
    ensures var e := s.entries[h]; Reads(s.disk, FrameRef(e.pack, e.offset, e.len), FrameOf(s, h))
  {
    assert EntryOk(s, h);
    var e := s.entries[h];
    var k := SlotFrame(s.disk[e.pack], h, e.offset, e.len);
  }

  lemma BumpedFrames(s: Store, h: Hash)
    ensures FramesOf(Bumped(s, h)) == FramesOf(s) && Bumped(s, h).disk == s.disk && Bumped(s, h).pins == s.pins
  {}

  lemma SameFrames(s: Store, t: Store)
    requires t.entries == s.entries && t.disk == s.disk
    ensures FramesOf(t) == FramesOf(s)
  {}
}

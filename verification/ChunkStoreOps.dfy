/** Admission, lookups and pins: what the cache promises its callers. */
module ChunkStoreOps {
  import opened Bytes
  import opened Pack
  import opened ChunkStore
  import opened ChunkStoreInv
  import opened ChunkStoreEvict
  import opened ChunkStoreBudget
  import opened ChunkStoreEvictLoop
  import opened ChunkStoreCrash
  import opened Graph

  const GHOST_MIN: nat := 1024

  function GhostCap(s: Store): nat { if |s.entries| >= GHOST_MIN then |s.entries| else GHOST_MIN }

  function GhostTaken(s: Store, h: Hash): Store { s.(ghostSet := s.ghostSet - {GhostKey(h)}) }

  function Admission(s: Store, h: Hash): Queue { if GhostKey(h) in s.ghostSet then Main else Small }

  /** Admit one frame. A chunk already there is left alone, an oversized frame refused. */
  ghost function Inserted(s: Store, h: Hash, f: Bytes): Store
    requires Inv(s, None) && s.sealBytes > 0
  {
    if h in s.entries then s else
      var s1 := Append(GhostTaken(s, h), Admission(s, h), h, f, 0);
      AdmitInv(s, h, f);
      if |f| >= FRAME_LIMIT then s1 else
        var s2 := Evict(s1, 0);
        Trimmed(s2, GhostCap(s2))
  }

  lemma AdmitInv(s: Store, h: Hash, f: Bytes)
    requires Inv(s, None) && h !in s.entries
    ensures var t := Append(GhostTaken(s, h), Admission(s, h), h, f, 0);
      && Inv(t, None) && t.sealBytes == s.sealBytes
      && (|f| < FRAME_LIMIT ==> Gained(GhostTaken(s, h), t, Admission(s, h), h, f, 0))
      && (|f| >= FRAME_LIMIT ==> Silent(GhostTaken(s, h), t))
  {
    var s0 := GhostTaken(s, h);
    InvLocal(s, s0, None);
    OpenedInv(s0, None, Admission(s, h));
    if |f| < FRAME_LIMIT { AppendInv(s0, None, Admission(s, h), h, f, 0); }
  }

  lemma {:induction false} TrimmedOk(s: Store, cap: nat)
    requires s.ghostSet <= Elems(s.ghosts)
    ensures var t := Trimmed(s, cap);
      && t.ghostSet <= Elems(t.ghosts) && |t.ghosts| <= cap && t == s.(ghosts := t.ghosts, ghostSet := t.ghostSet)
      && |t.ghosts| <= |s.ghosts| && t.ghosts == s.ghosts[|s.ghosts| - |t.ghosts|..] && t.ghostSet <= s.ghostSet
    decreases |s.ghosts|
  {
    if |s.ghosts| > cap {
      var u := s.(ghosts := s.ghosts[1..], ghostSet := s.ghostSet - {s.ghosts[0]});
      forall k | k in u.ghostSet
        ensures k in Elems(u.ghosts)
      {
        var i :| 0 <= i < |s.ghosts| && s.ghosts[i] == k;
        assert u.ghosts[i - 1] == k;
      }
      TrimmedOk(u, cap);
    }
  }

  /** What is in the cache after an insert was there before, unchanged, or is the new frame. */
  ghost predicate Admits(s: Store, t: Store, h: Hash, f: Bytes)
  {
    && Inv(t, None) && t.pins == s.pins && t.budget == s.budget && t.sealBytes == s.sealBytes && Grows(s.disk, t.disk)
    && (forall g <- t.entries :: (g in s.entries && FrameOf(t, g) == FrameOf(s, g)) || (g == h && FrameOf(t, g) == f))
    && (forall g <- s.entries :: g in s.pins ==> g in t.entries)
    && (h in s.pins && |f| < FRAME_LIMIT ==> h in t.entries)
  }

  lemma AdmitsSame(s: Store, h: Hash, f: Bytes)
    requires Inv(s, None) && h in s.entries
    ensures Admits(s, s, h, f)
  {}

  lemma AdmitsGained(s: Store, t: Store, u: Store, q: Queue, h: Hash, f: Bytes)
    requires h !in s.entries && Gained(GhostTaken(s, h), t, q, h, f, 0) && Thinned(t, u) && Inv(u, None)
    ensures Admits(s, u, h, f)
  {
    GrowsTrans(s.disk, t.disk, u.disk);
    var s0 := GhostTaken(s, h);
    assert forall g <- s.entries :: FrameOf(s0, g) == FrameOf(s, g);
  }

  lemma AdmitsRefused(s: Store, t: Store, h: Hash, f: Bytes)
    requires Silent(GhostTaken(s, h), t) && Inv(t, None) && |f| >= FRAME_LIMIT
    ensures Admits(s, t, h, f)
  {
    var s0 := GhostTaken(s, h);
    assert forall g <- s.entries :: FrameOf(s0, g) == FrameOf(s, g);
  }

  lemma TrimmedThins(s: Store, cap: nat)
    requires Inv(s, None)
    ensures Inv(Trimmed(s, cap), None) && Thinned(s, Trimmed(s, cap)) && Total(Trimmed(s, cap)) == Total(s)
  {
    TrimmedOk(s, cap);
    InvLocal(s, Trimmed(s, cap), None);
  }

  lemma InsertAdmits(s: Store, h: Hash, f: Bytes)
    requires Inv(s, None) && s.sealBytes > 0
    ensures Admits(s, Inserted(s, h, f), h, f)
  {
    hide Inv, Append, Evict, Trimmed, Admits;
    if h in s.entries {
      AdmitsSame(s, h, f);
    } else {
      AdmitInv(s, h, f);
      var q := Admission(s, h);
      var t := Append(GhostTaken(s, h), q, h, f, 0);
      if |f| >= FRAME_LIMIT {
        AdmitsRefused(s, t, h, f);
      } else {
        EvictKeeps(t, 0);
        var u := Evict(t, 0);
        TrimmedThins(u, GhostCap(u));
        ThinnedTrans(t, u, Trimmed(u, GhostCap(u)));
        AdmitsGained(s, t, Trimmed(u, GhostCap(u)), q, h, f);
      }
    }
  }

  /** A frame located at any time reads the same whatever happens to the cache. */
  lemma LocatedStays(s: Store, out: Retiring, t: Store, h: Hash)
    requires Inv(s, out) && h in s.entries && Grows(s.disk, t.disk)
    ensures var e := s.entries[h]; e.pack in t.disk && FrameAt(t.disk[e.pack], e.offset, e.len) == FrameOf(s, h)
  {
    assert EntryOk(s, h);
    var e := s.entries[h];
    FrameStays(s.disk[e.pack], t.disk[e.pack], h, e.offset, e.len);
  }

  lemma BumpedInv(s: Store, out: Retiring, h: Hash)
    requires Inv(s, out)
    ensures Inv(Bumped(s, h), out) && Bumped(s, h).entries.Keys == s.entries.Keys
    ensures forall g <- s.entries :: FrameOf(Bumped(s, h), g) == FrameOf(s, g)
  {
    InvLocal(s, Bumped(s, h), out);
  }

  // ---- ghosts and frequencies -----------------------------------------------------------

  function Cooled(q: Queue, freq: nat): nat { if q.Small? || freq == 0 then freq else freq - 1 }

  /**
   What became of a chunk of a retired pack. Cold, it is gone, and if it was in small it
   left a ghost, so that it comes back to main. Hot or pinned, it is in main, one cooler
   if it was there before.
   */
  predicate Fate(s: Store, t: Store, id: nat, q: Queue, h: Hash)
    requires h in s.entries
  {
    if Cold(s, h) then h !in t.entries && (q.Small? ==> Admission(t, h) == Main)
    else
      && h in t.entries && t.entries[h].pack in Order(t) && t.entries[h].pack != id
      && t.entries[h].freq == Cooled(q, s.entries[h].freq)
  }

  /** Not visited yet, or its fate is decided. */
  predicate Sorting(s: Store, t: Store, id: nat, q: Queue, h: Hash)
    requires h in s.entries
  {
    Fate(s, t, id, q, h) || (h in t.entries && t.entries[h] == s.entries[h])
  }

  lemma SortCold(s: Store, t: Store, id: nat, q: Queue, h: Hash, g: Hash)
    requires Owns(s, id, h) && t.pins == s.pins && Sorting(s, t, id, q, h) && !Promotes(t, id, g)
    ensures Sorting(s, RetireEntry(t, id, q, g), id, q, h)
  {}

  /** Another entry goes to main. */
  lemma SortKeeps(s: Store, t: Store, u: Store, id: nat, q: Queue, h: Hash, g: Hash)
    requires Owns(s, id, h) && Sorting(s, t, id, q, h) && g != h && Order(t) <= Order(u)
    requires u.entries.Keys == t.entries.Keys && u.ghostSet == t.ghostSet
    requires forall k <- t.entries :: k != g ==> u.entries[k] == t.entries[k]
    ensures Sorting(s, u, id, q, h)
  {}

  lemma SortHot(s: Store, t: Store, id: nat, q: Queue, rs: seq<Record>, h: Hash, g: Hash)
    requires Owns(s, id, h) && Retiring1(t, id, q, rs) && t.pins == s.pins && Sorting(s, t, id, q, h)
    requires Promotes(t, id, g)
    ensures Sorting(s, RetireEntry(t, id, q, g), id, q, h)
  {
    hide Inv, Append, Advances, Gained, Order, FrameOf;
    HotFrame(t, id, q, rs, g);
    var freq := Cooled(q, t.entries[g].freq);
    var t1 := t.(entries := t.entries - {g});
    var u := RetireEntry(t, id, q, g);
    assert u == Append(t1, Main, g, FrameOf(t, g), freq);
    AppendPlaces(t1, Some((id, q)), g, FrameOf(t, g), freq);
    AppendInv(t1, Some((id, q)), Main, g, FrameOf(t, g), freq);
    AppendAdvances(t1, Some((id, q)), g, FrameOf(t, g), freq);
    AdvancesOrder(t, t1, u);
    GainedRest(t, t1, u, g, FrameOf(t, g), freq);
    GainedHere(t1, u, g, FrameOf(t, g), freq);
    if g != h { SortKeeps(s, t, u, id, q, h, g); }
  }

  lemma GainedHere(s: Store, t: Store, g: Hash, f: Bytes, freq: nat)
    requires Gained(s, t, Main, g, f, freq)
    ensures g in t.entries && t.entries[g].freq == freq && t.entries[g].pack !in s.packs && t.ghostSet == s.ghostSet
  {}

  lemma {:induction false} RetireToSorts(s: Store, id: nat, q: Queue, rs: seq<Record>, n: nat, h: Hash)
    requires Retiring1(s, id, q, rs) && n <= |Slots(rs)| && Owns(s, id, h)
    ensures Sorting(s, RetireTo(s, id, q, Slots(rs), n), id, q, h)
  {
    hide Sorting, RetireEntry, Promotes, Inv, PacksKept, Slots, Fate;
    if n == 0 {
      SortNone(s, id, q, h);
    } else {
      var t, g := RetireTo(s, id, q, Slots(rs), n - 1), Slots(rs)[n - 1].hash;
      RetireToSorts(s, id, q, rs, n - 1, h);
      RetireToOk(s, id, q, rs, n - 1);
      if Promotes(t, id, g) { SortHot(s, t, id, q, rs, h, g); } else { SortCold(s, t, id, q, h, g); }
    }
  }

  lemma SortNone(s: Store, id: nat, q: Queue, h: Hash)
    requires Owns(s, id, h)
    ensures Sorting(s, s, id, q, h)
  {}

  lemma SyncedFate(s: Store, t: Store, id: nat, q: Queue, h: Hash)
    requires h in s.entries && Fate(s, t, id, q, h)
    ensures Fate(s, Synced(t), id, q, h)
  {}

  lemma UnlinkedFate(s: Store, t: Store, id: nat, q: Queue, h: Hash)
    requires h in s.entries && Fate(s, t, id, q, h) && id in t.packs
    ensures Fate(s, Unlinked(t, id, q), id, q, h)
  {}

  lemma SortedFate(s: Store, t: Store, id: nat, q: Queue, h: Hash)
    requires Owns(s, id, h) && Sorting(s, t, id, q, h) && Ownerless(t, id)
    ensures Fate(s, t, id, q, h)
  {
    assert !Owns(t, id, h);
  }

  /** Retiring a pack keeps of its chunks exactly the hot and the pinned ones. */
  lemma RetireSorts(s: Store, id: nat, q: Queue, h: Hash)
    requires Inv(s, Some((id, q))) && Owns(s, id, h)
    ensures id in Copied(s, id, q, IndexOf(s, id)).packs && Fate(s, Retire(s, id, q), id, q, h)
  {
    hide Inv, RetireTo, PromotesTo, Synced, Unlinked, Fate, Sorting, Ownerless, Thinned, PacksKept, Slots, Retires;
    RetireOk(s, id, q);
    IndexOk(s, id, q);
    var rs := s.disk[id].records;
    var n := |Slots(rs)|;
    var t := RetireTo(s, id, q, Slots(rs), n);
    RetireToSorts(s, id, q, rs, n, h);
    RetireToOk(s, id, q, rs, n);
    AllHandled(s, t, id, q, rs);
    SortedFate(s, t, id, q, h);
    SyncedFate(s, t, id, q, h);
    UnlinkedFate(s, Copied(s, id, q, IndexOf(s, id)), id, q, h);
  }

  // ---- pins -------------------------------------------------------------------------

  /** A hash is pinned as often as live guards name it. */
  ghost predicate Held(pins: map<Hash, nat>, held: multiset<Hash>)
  {
    && (forall h: Hash :: h in pins <==> h in held)
    && (forall h <- pins :: pins[h] == held[h])
  }

  lemma {:induction false} PinnedHeld(pins: map<Hash, nat>, held: multiset<Hash>, hashes: seq<Hash>)
    requires Held(pins, held)
    ensures Held(Pinned(pins, hashes), held + multiset(hashes))
  {
    if hashes != [] {
      var rest, h := hashes[..|hashes| - 1], hashes[|hashes| - 1];
      assert hashes == rest + [h];
      PinnedHeld(pins, held, rest);
    }
  }

  /** Dropping a guard undoes its pins and no other's. */
  lemma {:induction false} UnpinnedHeld(pins: map<Hash, nat>, held: multiset<Hash>, hashes: seq<Hash>)
    requires Held(pins, held + multiset(hashes))
    ensures Held(Unpinned(pins, hashes), held)
    decreases |hashes|
  {
    if hashes != [] {
      var rest, h := hashes[..|hashes| - 1], hashes[|hashes| - 1];
      assert hashes == rest + [h];
      assert held + multiset(hashes) == held + multiset{h} + multiset(rest);
      UnpinnedHeld(pins, held + multiset{h}, rest);
    }
  }

  // ---- the budget -------------------------------------------------------------------

  /** Main's packs were filled before they were sealed. */
  predicate Filled(s: Store) { Full(s, 0) && Short(s) }

  lemma FilledSame(s: Store, t: Store)
    requires Filled(s) && t.main.packs == s.main.packs && t.sealBytes == s.sealBytes && s.sealBytes > 0
    requires forall id <- s.main.packs :: SizeOf(t.packs, id) == SizeOf(s.packs, id)
    requires t.main.active == s.main.active || (t.main.active.Some? && t.main.active.value.len == 0)
    ensures Filled(t)
  {}

  lemma SmallApart(s: Store, out: Retiring, id: nat)
    requires IdsOk(s, out) && id in s.main.packs
    ensures s.small.active.Some? ==> s.small.active.value.id != id
    ensures id in s.packs && id < s.nextId
  {
    assert id in Elems(Packs(s, out, Main));
    assert s.small.active.Some? ==> s.small.active.value.id in Active(s.small);
  }

  lemma SealFilled(s: Store, out: Retiring)
    requires Inv(s, out) && Filled(s) && s.sealBytes > 0
    ensures Filled(Sealed(s, Small))
  {
    forall id | id in s.main.packs
      ensures SizeOf(Sealed(s, Small).packs, id) == SizeOf(s.packs, id)
    {
      SmallApart(s, out, id);
    }
    FilledSame(s, Sealed(s, Small));
  }

  lemma SmallFilled(s: Store, h: Hash, f: Frame)
    requires Inv(s, None) && Filled(s) && s.sealBytes > 0 && h !in s.entries
    ensures Filled(Append(s, Small, h, f, 0))
  {
    hide Inv, Filled, Silent, Gained, Sealed;
    var s1 := Opened(s, Small);
    OpenedInv(s, None, Small);
    SilentSame(s, s1);
    WriterThere(s1, None, Small);
    FilledSame(s, s1);
    var s2 := Written(s1, Small, h, f, 0);
    FilledSame(s1, s2);
    WrittenInv(s1, None, Small, h, f, 0);
    hide Opened, Written;
    SealFilled(s2, None);
  }

  lemma AdmitFilled(s: Store, h: Hash, f: Bytes)
    requires Inv(s, None) && Filled(s) && s.sealBytes > 0 && h !in s.entries
    ensures Filled(Append(GhostTaken(s, h), Admission(s, h), h, f, 0))
  {
    var s0 := GhostTaken(s, h);
    InvLocal(s, s0, None);
    FilledSame(s, s0);
    if |f| >= FRAME_LIMIT {
      FilledSame(s0, Opened(s0, Admission(s, h)));
    } else if Admission(s, h).Small? {
      SmallFilled(s0, h, f);
    } else {
      AppendAdvances(s0, None, h, f, 0);
    }
  }

  /** A full insert ends within budget, or with nothing in main that could go. */
  lemma InsertBudget(s: Store, h: Hash, f: Bytes)
    requires Inv(s, None) && s.sealBytes > 0 && Filled(s)
    ensures Filled(Inserted(s, h, f))
    ensures h !in s.entries && |f| < FRAME_LIMIT ==>
      var a, t := Append(GhostTaken(s, h), Admission(s, h), h, f, 0), Inserted(s, h, f);
      Total(t) <= s.budget || forall id <- Order(t) :: Live(t, id, Kept(a))
  {
    hide Inv, Append, Evict, Trimmed, Filled, Live;
    if h !in s.entries {
      AdmitInv(s, h, f);
      AdmitFilled(s, h, f);
      var a := Append(GhostTaken(s, h), Admission(s, h), h, f, 0);
      if |f| < FRAME_LIMIT {
        EvictKeeps(a, 0);
        EvictFilled(a);
        var u := Evict(a, 0);
        assert u.budget == s.budget;
        TrimmedLive(u, GhostCap(u), s.budget, Kept(a));
      }
    }
  }

  lemma EvictFilled(s: Store)
    requires Inv(s, None) && s.sealBytes > 0 && Filled(s)
    ensures var t := Evict(s, 0); Filled(t) && (Total(t) <= s.budget || forall id <- Order(t) :: Live(t, id, Kept(s)))
  {
    hide Inv, Evict, Live, Tidy;
    EvictOrLive(s);
    TriviallyTidy(s, Kept(s));
    GivesUpLive(s, 0, |s.main.packs| + 1, Kept(s));
  }

  lemma TrimmedLive(s: Store, cap: nat, budget: nat, keep: set<Hash>)
    requires Inv(s, None) && Filled(s) && (Total(s) <= budget || forall id <- Order(s) :: Live(s, id, keep))
    ensures var t := Trimmed(s, cap); Filled(t) && (Total(t) <= budget || forall id <- Order(t) :: Live(t, id, keep))
  {
    TrimmedOk(s, cap);
    hide Inv, Trimmed;
    var t := Trimmed(s, cap);
    assert Order(t) == Order(s);
    if forall id <- Order(s) :: Live(s, id, keep) {
      forall id | id in Order(t)
        ensures Live(t, id, keep)
      {
        assert Live(s, id, keep);
      }
    }
  }
}

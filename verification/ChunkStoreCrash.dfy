/**
 Eviction never loses a chunk that was on disk and that the map still has, at any of its
 file operations: survivors are synced before the pack they came from is unlinked.
 */
module ChunkStoreCrash {
  import opened Bytes
  import opened Pack
  import opened ChunkStore
  import opened ChunkStoreInv
  import opened ChunkStoreEvict
  import opened ChunkStoreBudget
  import opened ChunkStoreEvictLoop
  import opened Graph

  // ---- directories over time ----------------------------------------------------------

  /** Nothing known to be on disk got lost. */
  predicate Extends(a: Image, b: Image)
  {
    forall id <- a :: id in b && a[id].records <= b[id].records && a[id].synced <= b[id].synced
  }

  /** A record of the chunk is in the synced part of a pack. */
  predicate Holds(f: File, h: Hash, frame: Bytes)
  {
    exists k :: 0 <= k < |f.records| && k < f.synced && f.records[k].hash == h && f.records[k].frame == frame
  }

  predicate Durable(img: Image, h: Hash, frame: Bytes) { exists id :: id in img && Holds(img[id], h, frame) }

  lemma DurableExtends(a: Image, b: Image, h: Hash, frame: Bytes)
    requires Durable(a, h, frame) && Extends(a, b)
    ensures Durable(b, h, frame)
  {
    var id :| id in a && Holds(a[id], h, frame);
    var k :| 0 <= k < |a[id].records| && k < a[id].synced && a[id].records[k].hash == h
      && a[id].records[k].frame == frame;
    assert b[id].records[k] == a[id].records[k];
    assert Holds(b[id], h, frame);
  }

  function Now(s: Store): Image { Listed(s.disk, s.dir) }

  /** Every directory seen since extends the first, and the map never had more than it may. */
  predicate Piles(s: Store, t: Store, may: set<Hash>)
  {
    && s.trace <= t.trace && Extends(Now(s), Now(t))
    && forall i | |s.trace| <= i < |t.trace| :: Extends(Now(s), t.trace[i].files) && t.trace[i].entries.Keys <= may
  }

  lemma ExtendsTrans(a: Image, b: Image, c: Image)
    requires Extends(a, b) && Extends(b, c)
    ensures Extends(a, c)
  {}

  lemma PilesTrans(s: Store, t: Store, u: Store, may: set<Hash>)
    requires Piles(s, t, may) && Piles(t, u, may)
    ensures Piles(s, u, may)
  {
    ExtendsTrans(Now(s), Now(t), Now(u));
    forall i | |s.trace| <= i < |u.trace|
      ensures Extends(Now(s), u.trace[i].files) && u.trace[i].entries.Keys <= may
    {
      if i < |t.trace| {
        assert u.trace[i] == t.trace[i];
      } else {
        ExtendsTrans(Now(s), Now(t), u.trace[i].files);
      }
    }
  }

  /** One file operation that adds. */
  lemma PilesOne(s: Store, t: Store, may: set<Hash>)
    requires t.trace == s.trace + [Moment(Now(t), t.entries)] && s.dir <= t.dir && t.entries.Keys <= may
    requires forall id <- s.dir :: id in s.disk ==>
      id in t.disk && s.disk[id].records <= t.disk[id].records && s.disk[id].synced <= t.disk[id].synced
    ensures Piles(s, t, may)
  {}

  lemma LocalPiles(s: Store, t: Store, may: set<Hash>)
    requires t.trace == s.trace && t.disk == s.disk && t.dir == s.dir
    ensures Piles(s, t, may)
  {}

  lemma OpenedPiles(s: Store, out: Retiring, q: Queue, may: set<Hash>)
    requires Inv(s, out) && s.entries.Keys <= may
    ensures Piles(s, Opened(s, q), may)
  {
    if Get(s, q).active.None? {
      assert s.nextId !in s.disk;
      PilesOne(s, Opened(s, q), may);
    }
  }

  lemma WrittenPiles(s: Store, q: Queue, h: Hash, f: Frame, freq: nat, may: set<Hash>)
    requires Get(s, q).active.Some? && Get(s, q).active.value.id in s.disk && s.entries.Keys + {h} <= may
    ensures Piles(s, Written(s, q, h, f, freq), may)
  {
    PilesOne(s, Written(s, q, h, f, freq), may);
  }

  lemma FlushedPiles(s: Store, q: Queue, may: set<Hash>)
    requires Get(s, q).active.Some? && Get(s, q).active.value.id in s.disk && s.entries.Keys <= may
    requires var f := s.disk[Get(s, q).active.value.id]; f.synced <= |f.records|
    ensures var m := Flushed(s, Get(s, q).active.value.id); Piles(s, m, may) && Piles(m, Sealed(s, q), may)
  {
    hide Piles;
    var m, t := Flushed(s, Get(s, q).active.value.id), Sealed(s, q);
    assert m.dir == s.dir && t.dir == s.dir && m.entries == s.entries && t.entries == s.entries;
    PilesOne(s, m, may);
    PilesOne(m, t, may);
  }

  lemma WriterSynced(s: Store, out: Retiring, q: Queue)
    requires Inv(s, out)
    ensures Get(s, q).active.Some? ==> Get(s, q).active.value.id in s.disk
    ensures Get(s, q).active.Some? ==> var f := s.disk[Get(s, q).active.value.id]; f.synced <= |f.records|
  {
    assert ActiveOk(s, Get(s, q));
  }

  lemma NothingSealed(s: Store, q: Queue, may: set<Hash>)
    requires Get(s, q).active.None?
    ensures Piles(s, Sealed(s, q), may)
  {
    LocalPiles(s, s, may);
  }

  lemma SealedPiles(s: Store, out: Retiring, q: Queue, may: set<Hash>)
    requires Inv(s, out) && s.entries.Keys <= may
    ensures Piles(s, Sealed(s, q), may)
  {
    hide Inv, Piles, Sealed, Flushed;
    WriterSynced(s, out, q);
    if Get(s, q).active.Some? {
      FlushedPiles(s, q, may);
      PilesTrans(s, Flushed(s, Get(s, q).active.value.id), Sealed(s, q), may);
    } else {
      NothingSealed(s, q, may);
    }
  }

  lemma SyncedPiles(s: Store, out: Retiring, may: set<Hash>)
    requires Inv(s, out) && s.entries.Keys <= may
    ensures Piles(s, Synced(s), may)
  {
    if s.main.active.Some? {
      assert ActiveOk(s, s.main);
      PilesOne(s, Synced(s), may);
    }
  }

  lemma AppendPiles(s: Store, out: Retiring, q: Queue, h: Hash, f: Frame, freq: nat, may: set<Hash>)
    requires Inv(s, out) && freq <= FREQ_MAX && h !in s.entries && s.entries.Keys + {h} <= may
    ensures Piles(s, Append(s, q, h, f, freq), may)
  {
    hide Inv, Opened, Written, Sealed, Gained, Piles, Silent;
    var s1 := Opened(s, q);
    OpenedInv(s, out, q);
    SilentSame(s, s1);
    OpenedPiles(s, out, q, may);
    WriterThere(s1, out, q);
    WrittenInv(s1, out, q, h, f, freq);
    var s2 := Written(s1, q, h, f, freq);
    WrittenPiles(s1, q, h, f, freq, may);
    PilesTrans(s, s1, s2, may);
    assert s2.entries.Keys == s1.entries.Keys + {h} by { GainedKeys(s1, s2, q, h, f, freq); }
    SealedPiles(s2, out, q, may);
    PilesTrans(s, s2, Sealed(s2, q), may);
  }

  lemma GainedKeys(s: Store, t: Store, q: Queue, h: Hash, f: Bytes, freq: nat)
    requires Gained(s, t, q, h, f, freq)
    ensures t.entries.Keys == s.entries.Keys + {h}
  {}

  lemma EntryPiles(s: Store, id: nat, q: Queue, rs: seq<Record>, h: Hash, may: set<Hash>)
    requires Retiring1(s, id, q, rs) && s.entries.Keys <= may
    ensures Piles(s, RetireEntry(s, id, q, h), may)
  {
    hide Piles, Inv, Append;
    if Owns(s, id, h) && !Cold(s, h) {
      HotFrame(s, id, q, rs, h);
      var s1 := s.(entries := s.entries - {h});
      LocalPiles(s, s1, may);
      var freq := if q.Small? || s.entries[h].freq == 0 then s.entries[h].freq else s.entries[h].freq - 1;
      AppendPiles(s1, Some((id, q)), Main, h, FrameOf(s, h), freq, may);
      PilesTrans(s, s1, RetireEntry(s, id, q, h), may);
    } else {
      LocalPiles(s, RetireEntry(s, id, q, h), may);
    }
  }

  lemma {:induction false} RetireToPiles(s: Store, id: nat, q: Queue, rs: seq<Record>, n: nat, may: set<Hash>)
    requires Retiring1(s, id, q, rs) && n <= |Slots(rs)| && s.entries.Keys <= may
    ensures Piles(s, RetireTo(s, id, q, Slots(rs), n), may)
  {
    hide Piles, RetireEntry, Inv, PacksKept, Slots;
    if n == 0 {
      LocalPiles(s, s, may);
    } else {
      var t := RetireTo(s, id, q, Slots(rs), n - 1);
      RetireToPiles(s, id, q, rs, n - 1, may);
      RetireToOk(s, id, q, rs, n - 1);
      EntryPiles(t, id, q, rs, Slots(rs)[n - 1].hash, may);
      PilesTrans(s, t, RetireEntry(t, id, q, Slots(rs)[n - 1].hash), may);
    }
  }

  // ---- where a survivor's copy is ------------------------------------------------------

  /** The copy in use is on disk. */
  predicate Saved(s: Store, h: Hash)
  {
    h in s.entries && var e := s.entries[h];
      && e.pack in s.dir && e.pack in s.disk
      && exists k ::
           && 0 <= k < |Slots(s.disk[e.pack].records)| && k < s.disk[e.pack].synced
           && Slots(s.disk[e.pack].records)[k] == Slot(h, e.offset, e.len)
  }

  lemma SavedDurable(s: Store, h: Hash)
    requires Saved(s, h)
    ensures Durable(Now(s), h, FrameOf(s, h))
  {
    var e := s.entries[h];
    var f := s.disk[e.pack];
    SlotsLength(f.records, 0);
    var k :| 0 <= k < |Slots(f.records)| && k < f.synced && Slots(f.records)[k] == Slot(h, e.offset, e.len);
    SlotReads(f.records, k);
    assert Holds(Now(s)[e.pack], h, FrameOf(s, h));
  }

  /** An entry that did not move stays saved. */
  lemma SavedStays(s: Store, t: Store, h: Hash)
    requires Saved(s, h) && h in t.entries && t.entries[h].(freq := 0) == s.entries[h].(freq := 0)
    requires Extends(Now(s), Now(t))
    ensures Saved(t, h)
  {
    var e := s.entries[h];
    var f, g := s.disk[e.pack], t.disk[e.pack];
    assert Now(s)[e.pack] == f && e.pack in Now(t);
    SlotsGrow(f.records, g.records);
    var k :| 0 <= k < |Slots(f.records)| && k < f.synced && Slots(f.records)[k] == Slot(h, e.offset, e.len);
    assert Slots(g.records)[k] == Slots(f.records)[k];
  }

  /** Every entry is where it was, or in one of main's packs if anything was copied at all. */
  predicate Placed(s: Store, t: Store, promoted: bool)
  {
    forall h <- t.entries :: h in s.entries
      && (t.entries[h] == s.entries[h] || (promoted && t.entries[h].pack in Order(t)))
  }

  lemma AppendPlaces(s: Store, out: Retiring, h: Hash, f: Frame, freq: nat)
    requires Inv(s, out) && freq <= FREQ_MAX && h !in s.entries
    ensures var t := Append(s, Main, h, f, freq); h in t.entries && t.entries[h].pack in Order(t)
  {
    hide Inv, Opened, Silent;
    OpenedInv(s, out, Main);
    var s1 := Opened(s, Main);
    WriterThere(s1, out, Main);
    SilentSame(s, s1);
    var s2 := Written(s1, Main, h, f, freq);
    assert s2.entries[h].pack == s2.main.active.value.id && s2.entries[h].pack in Order(s2);
    assert Order(Sealed(s2, Main)) == Order(s2);
  }

  lemma PlacedOn(s: Store, t: Store, u: Store, id: nat, h: Hash, promoted: bool)
    requires Placed(s, t, promoted) && Order(t) <= Order(u) && Owns(t, id, h)
    requires u.entries.Keys == t.entries.Keys && u.entries[h].pack in Order(u)
    requires forall g <- t.entries :: g != h ==> u.entries[g] == t.entries[g]
    ensures Placed(s, u, true)
  {
    forall g | g in u.entries
      ensures g in s.entries && (u.entries[g] == s.entries[g] || u.entries[g].pack in Order(u))
    {
      assert g in t.entries;
    }
  }

  lemma HotPlaced(s: Store, t: Store, id: nat, q: Queue, rs: seq<Record>, h: Hash, promoted: bool)
    requires Retiring1(t, id, q, rs) && Placed(s, t, promoted) && Promotes(t, id, h)
    ensures Placed(s, RetireEntry(t, id, q, h), true)
  {
    hide Inv, Placed, Append, Advances, Gained, Order;
    HotFrame(t, id, q, rs, h);
    var freq := if q.Small? || t.entries[h].freq == 0 then t.entries[h].freq else t.entries[h].freq - 1;
    var t1 := t.(entries := t.entries - {h});
    var u := RetireEntry(t, id, q, h);
    AppendPlaces(t1, Some((id, q)), h, FrameOf(t, h), freq);
    AppendInv(t1, Some((id, q)), Main, h, FrameOf(t, h), freq);
    AppendAdvances(t1, Some((id, q)), h, FrameOf(t, h), freq);
    assert u == Append(t1, Main, h, FrameOf(t, h), freq);
    AdvancesOrder(t, t1, u);
    GainedRest(t, t1, u, h, FrameOf(t, h), freq);
    PlacedOn(s, t, u, id, h, promoted);
  }

  lemma AdvancesOrder(s: Store, s1: Store, t: Store)
    requires Advances(s1, t) && s1.main == s.main
    ensures Order(s) <= Order(t)
  {}

  lemma GainedRest(s: Store, s1: Store, t: Store, h: Hash, f: Bytes, freq: nat)
    requires h in s.entries && s1.entries == s.entries - {h} && Gained(s1, t, Main, h, f, freq)
    ensures t.entries.Keys == s.entries.Keys && forall g <- s.entries :: g != h ==> t.entries[g] == s.entries[g]
  {}

  lemma StillPlaced(s: Store, t: Store, id: nat, q: Queue, h: Hash, promoted: bool)
    requires Placed(s, t, promoted) && !Promotes(t, id, h)
    ensures Placed(s, RetireEntry(t, id, q, h), promoted)
  {}

  lemma EntryPlaced(s: Store, t: Store, id: nat, q: Queue, rs: seq<Record>, h: Hash, promoted: bool)
    requires Retiring1(t, id, q, rs) && Placed(s, t, promoted)
    ensures Placed(s, RetireEntry(t, id, q, h), promoted || Promotes(t, id, h))
  {
    hide Retiring1, Placed, RetireEntry, Promotes;
    if Promotes(t, id, h) {
      HotPlaced(s, t, id, q, rs, h, promoted);
    } else {
      StillPlaced(s, t, id, q, h, promoted);
    }
  }

  lemma PlacedSame(s: Store)
    ensures Placed(s, s, false)
  {}

  lemma {:induction false} RetireToPlaced(s: Store, id: nat, q: Queue, rs: seq<Record>, n: nat)
    requires Retiring1(s, id, q, rs) && n <= |Slots(rs)|
    ensures Placed(s, RetireTo(s, id, q, Slots(rs), n), PromotesTo(s, id, q, Slots(rs), n))
  {
    hide Placed, RetireEntry, Promotes, Inv, Thinned, PacksKept, Slots;
    if n == 0 {
      PlacedSame(s);
    } else {
      RetireToPlaced(s, id, q, rs, n - 1);
      RetireToOk(s, id, q, rs, n - 1);
      EntryPlaced(s, RetireTo(s, id, q, Slots(rs), n - 1), id, q, rs, Slots(rs)[n - 1].hash,
        PromotesTo(s, id, q, Slots(rs), n - 1));
    }
  }

  /** A copy in main is saved once the open pack is synced. */
  lemma OrderSaved(s: Store, out: Retiring, h: Hash)
    requires Inv(s, out) && h in s.entries && s.entries[h].pack in Order(s)
    requires s.main.active.Some? && s.main.active.value.id in s.disk ==>
      s.disk[s.main.active.value.id].synced == |s.disk[s.main.active.value.id].records|
    ensures Saved(s, h)
  {
    assert EntryOk(s, h);
    var e := s.entries[h];
    var f := s.disk[e.pack];
    SlotsLength(f.records, 0);
    assert f.synced == |f.records| by {
      assert SealedOk(s, e.pack);
      if e.pack in s.main.packs {
        assert e.pack in Elems(Packs(s, out, Main));
      } else {
        assert ActiveOk(s, s.main);
      }
    }
    var k :| 0 <= k < |Slots(f.records)| && Slots(f.records)[k] == Slot(h, e.offset, e.len);
  }

  lemma SyncedSaves(s: Store, t: Store, out: Retiring, h: Hash)
    requires Inv(t, out) && Placed(s, t, true) && Extends(Now(s), Now(t)) && Saved(s, h) && h in t.entries
    ensures Saved(Synced(t), h)
  {
    SyncedInv(t, out);
    SyncedPiles(t, out, t.entries.Keys);
    var u := Synced(t);
    if t.entries[h] == s.entries[h] {
      SavedStays(s, t, h);
      SavedStays(t, u, h);
    } else {
      assert Order(u) == Order(t);
      OrderSaved(u, out, h);
    }
  }

  /** If the chunk is there at all, the copy in use is on disk. */
  predicate Covered(s: Store, h: Hash) { h in s.entries ==> Saved(s, h) }

  lemma CopiedSaves(s: Store, id: nat, q: Queue, rs: seq<Record>, h: Hash)
    requires Retiring1(s, id, q, rs) && Covered(s, h)
    ensures var t := Copied(s, id, q, Slots(rs)); Piles(s, t, s.entries.Keys) && Covered(t, h)
  {
    hide Inv, Synced, Saved, PacksKept;
    var t := RetireTo(s, id, q, Slots(rs), |Slots(rs)|);
    RetireToOk(s, id, q, rs, |Slots(rs)|);
    RetireToPiles(s, id, q, rs, |Slots(rs)|, s.entries.Keys);
    RetireToPlaced(s, id, q, rs, |Slots(rs)|);
    SyncedPiles(t, Some((id, q)), s.entries.Keys);
    PilesTrans(s, t, Synced(t), s.entries.Keys);
    SyncedSame(t);
    if h in t.entries {
      if PromotesTo(s, id, q, Slots(rs), |Slots(rs)|) {
        SyncedSaves(s, t, Some((id, q)), h);
      } else {
        SavedStays(s, t, h);
      }
    }
  }

  lemma SyncedSame(s: Store)
    ensures Synced(s).entries == s.entries
  {}

  /** At that moment the chunk was not in the map, or its frame was on disk. */
  predicate SafeAt(m: Moment, h: Hash, frame: Bytes) { h in m.entries.Keys ==> Durable(m.files, h, frame) }

  /** Whenever the map had the chunk since, it had it from the start and a copy was on disk. */
  predicate Safe(s: Store, t: Store, h: Hash)
  {
    && s.trace <= t.trace && Covered(t, h)
    && (h in s.entries ==> forall i | |s.trace| <= i < |t.trace| :: SafeAt(t.trace[i], h, FrameOf(s, h)))
    && (h !in s.entries ==> forall i | |s.trace| <= i < |t.trace| :: h !in t.trace[i].entries.Keys)
  }

  lemma PilesSafe(s: Store, t: Store, h: Hash, may: set<Hash>)
    requires Piles(s, t, may) && Covered(s, h) && Covered(t, h) && (h in may ==> h in s.entries)
    ensures Safe(s, t, h)
  {
    hide Durable, Saved, Extends;
    if h in s.entries {
      SavedDurable(s, h);
      forall i | |s.trace| <= i < |t.trace|
        ensures SafeAt(t.trace[i], h, FrameOf(s, h))
      {
        DurableExtends(Now(s), t.trace[i].files, h, FrameOf(s, h));
      }
    }
  }

  lemma SafeTrans(s: Store, t: Store, u: Store, h: Hash)
    requires Safe(s, t, h) && Safe(t, u, h)
    requires h in t.entries ==> h in s.entries && FrameOf(t, h) == FrameOf(s, h)
    ensures Safe(s, u, h)
  {
    hide Durable, Saved;
    forall i | |s.trace| <= i < |u.trace|
      ensures h in s.entries ==> SafeAt(u.trace[i], h, FrameOf(s, h))
      ensures h !in s.entries ==> h !in u.trace[i].entries.Keys
    {
      if i < |t.trace| { assert u.trace[i] == t.trace[i]; }
    }
  }

  /** The unlink: the pack owned nothing any more. */
  lemma UnlinkedSafe(s: Store, id: nat, q: Queue, h: Hash)
    requires id in s.packs && Ownerless(s, id) && Covered(s, h)
    ensures Safe(s, Unlinked(s, id, q), h)
  {
    var t := Unlinked(s, id, q);
    assert t.trace == s.trace + [Moment(Now(t), s.entries)];
    if h in t.entries {
      assert !Owns(s, id, h);
      assert Saved(t, h) && FrameOf(t, h) == FrameOf(s, h);
      SavedDurable(t, h);
    }
  }

  lemma RetireSafe(s: Store, id: nat, q: Queue, h: Hash)
    requires Inv(s, Some((id, q))) && Covered(s, h)
    ensures id in Copied(s, id, q, IndexOf(s, id)).packs && Safe(s, Retire(s, id, q), h)
  {
    hide Inv, Copied, Unlinked, Covered, Safe, Piles;
    IndexOk(s, id, q);
    var rs := s.disk[id].records;
    var t := Copied(s, id, q, Slots(rs));
    CopiedOk(s, id, q, rs);
    CopiedSaves(s, id, q, rs, h);
    PilesSafe(s, t, h, s.entries.Keys);
    IndexOk(t, id, q);
    UnlinkedInv(t, id, q);
    UnlinkedSafe(t, id, q, h);
    SafeTrans(s, t, Unlinked(t, id, q), h);
  }

  // ---- the loop --------------------------------------------------------------------------

  lemma ReadySafe(s: Store, q: Queue, h: Hash)
    requires Inv(s, None) && Get(s, q).bytes > 0 && Covered(s, h)
    ensures Safe(s, Ready(s, q), h)
  {
    ReadyInv(s, q);
    var t := Ready(s, q);
    var may := s.entries.Keys;
    if Get(s, q).packs == [] { SealedPiles(s, None, q, may); } else { LocalPiles(s, t, may); }
    hide Inv, Sealed, Ready;
    if h in t.entries { SavedStays(s, t, h); }
    PilesSafe(s, t, h, may);
  }

  lemma PoppedSafe(s: Store, q: Queue, h: Hash)
    requires Get(s, q).packs != [] && Covered(s, h)
    ensures Safe(s, Popped(s, q), h)
  {
    assert Covered(Popped(s, q), h);
  }

  lemma RoundSafe(s: Store, q: Queue, h: Hash)
    requires Inv(s, None) && Get(s, q).bytes > 0 && Covered(s, h)
    ensures CanRound(s, q) && Safe(s, Round(s, q), h)
  {
    RoundInv(s, q);
    ReadyInv(s, q);
    ReadySafe(s, q, h);
    hide Inv, Sealed, Copied, Retire, Thinned, Ready, Popped;
    var r := Ready(s, q);
    SilentThins(s, r);
    var p, id := Popped(r, q), Get(r, q).packs[0];
    PoppedInv(r, q);
    PoppedSafe(r, q, h);
    RetireOk(p, id, q);
    RetireSafe(p, id, q, h);
    SafeTrans(r, p, Retire(p, id, q), h);
    ThinnedTrans(r, p, Retire(p, id, q));
    SafeTrans(s, r, Retire(p, id, q), h);
  }

  lemma SafeSame(s: Store, h: Hash)
    requires Covered(s, h)
    ensures Safe(s, s, h)
  {}

  lemma SafeCovers(s: Store, t: Store, h: Hash)
    requires Safe(s, t, h)
    ensures Covered(t, h)
  {}

  /** A chunk on disk is on disk at every moment of an eviction at which the map has it. */
  lemma {:induction false} EvictSafe(s: Store, u: nat, h: Hash)
    requires Inv(s, None) && s.sealBytes > 0 && u <= |s.main.packs| && Covered(s, h)
    ensures Safe(s, Evict(s, u), h)
    decreases SmallCount(s), if Total(s) >= 0 then Total(s) else 0, Total(s) + Zeros(s) - u, 0
  {
    hide Inv, Thinned, Round, CanRound, Safe, Covered;
    BytesPositive(s);
    if Total(s) <= s.budget {
      SafeSame(s, h);
    } else {
      var q := if OverSmall(s) then Small else Main;
      RoundInv(s, q);
      RoundSafe(s, q, h);
      var t := Round(s, q);
      SafeCovers(s, t, h);
      BytesPositive(t);
      if q.Small? {
        DrainStep(s);
        EvictSafeOn(s, t, u, h);
      } else {
        RotateStep(s);
        if Total(t) < Total(s) {
          EvictSafeOn(s, t, 0, h);
        } else if u + 1 <= |t.main.packs| {
          EvictSafeOn(s, t, u + 1, h);
        }
      }
    }
  }

  lemma ThinnedFrame(s: Store, t: Store, h: Hash)
    requires Thinned(s, t) && h in t.entries
    ensures h in s.entries && FrameOf(t, h) == FrameOf(s, h)
  {}

  lemma EvictSafeOn(s: Store, t: Store, u: nat, h: Hash)
    requires Inv(t, None) && t.sealBytes > 0 && u <= |t.main.packs| && Covered(t, h) && Safe(s, t, h) && Thinned(s, t)
    ensures Safe(s, Evict(t, u), h)
    decreases SmallCount(t), if Total(t) >= 0 then Total(t) else 0, Total(t) + Zeros(t) - u, 1
  {
    hide Inv, Thinned, Safe, Covered, Evict;
    EvictSafe(t, u, h);
    if h in t.entries { ThinnedFrame(s, t, h); }
    SafeTrans(s, t, Evict(t, u), h);
  }
}

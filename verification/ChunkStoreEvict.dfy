/** Eviction drops whole cold entries, keeps pinned ones, and never grows the cache. */
module ChunkStoreEvict {
  import opened Bytes
  import opened Pack
  import opened ChunkStore
  import opened ChunkStoreInv
  import opened Graph

  // ---- what eviction may do -------------------------------------------------------

  /** Entries may go, pinned ones stay, and whatever stays reads the same. */
  ghost predicate Thinned(s: Store, t: Store)
  {
    && t.pins == s.pins && t.budget == s.budget && t.sealBytes == s.sealBytes
    && t.entries.Keys <= s.entries.Keys
    && (forall h <- t.entries :: FrameOf(t, h) == FrameOf(s, h))
    && (forall h <- s.entries :: h in s.pins ==> h in t.entries)
    && Grows(s.disk, t.disk)
  }

  lemma GrowsTrans(a: Image, b: Image, c: Image)
    requires Grows(a, b) && Grows(b, c)
    ensures Grows(a, c)
  {}

  lemma ThinnedTrans(s: Store, t: Store, u: Store)
    requires Thinned(s, t) && Thinned(t, u)
    ensures Thinned(s, u)
  {
    GrowsTrans(s.disk, t.disk, u.disk);
  }

  // ---- bytes of the records still owned ---------------------------------------------

  predicate Current(entries: map<Hash, Entry>, id: nat, sl: Slot)
  {
    sl.hash in entries && var e := entries[sl.hash]; e.pack == id && e.offset == sl.offset && e.len == sl.len
  }

  /** The bytes of a pack's records that are still the current copy of their hash. */
  function Claimed(entries: map<Hash, Entry>, id: nat, slots: seq<Slot>): nat
  {
    if slots == [] then 0 else
      (if Current(entries, id, slots[0]) then HEADER + slots[0].len else 0) + Claimed(entries, id, slots[1..])
  }

  lemma {:induction false} ClaimedFits(entries: map<Hash, Entry>, id: nat, rs: seq<Record>, pos: nat)
    ensures Claimed(entries, id, SlotsFrom(rs, pos)) <= Span(rs)
  {
    if rs != [] {
      ClaimedFits(entries, id, rs[1..], pos + rs[0].Size());
      assert SlotsFrom(rs, pos)[1..] == SlotsFrom(rs[1..], pos + rs[0].Size());
    }
  }

  lemma {:induction false} ClaimedSame(a: map<Hash, Entry>, b: map<Hash, Entry>, id: nat, slots: seq<Slot>)
    requires forall sl <- slots :: Current(a, id, sl) == Current(b, id, sl)
    ensures Claimed(a, id, slots) == Claimed(b, id, slots)
  {
    if slots != [] {
      assert slots[0] in slots;
      ClaimedSame(a, b, id, slots[1..]);
    }
  }

  lemma {:induction false} OffsetsAbove(rs: seq<Record>, pos: nat, sl: Slot)
    requires sl in SlotsFrom(rs, pos)
    ensures sl.offset >= pos + HEADER
  {
    if sl != SlotsFrom(rs, pos)[0] {
      assert SlotsFrom(rs, pos)[1..] == SlotsFrom(rs[1..], pos + rs[0].Size());
      OffsetsAbove(rs[1..], pos + rs[0].Size(), sl);
    }
  }

  predicate Spread(slots: seq<Slot>)
  {
    forall i, j | 0 <= i < j < |slots| :: slots[i].offset < slots[j].offset
  }

  lemma {:induction false} SlotsSpread(rs: seq<Record>, pos: nat)
    ensures Spread(SlotsFrom(rs, pos))
  {
    if rs != [] {
      var slots, rest := SlotsFrom(rs, pos), SlotsFrom(rs[1..], pos + rs[0].Size());
      assert slots == [slots[0]] + rest;
      SlotsSpread(rs[1..], pos + rs[0].Size());
      forall j | 0 < j < |slots|
        ensures slots[0].offset < slots[j].offset
      {
        assert rest[j - 1] in rest;
        OffsetsAbove(rs[1..], pos + rs[0].Size(), rest[j - 1]);
      }
    }
  }

  /** Dropping an entry takes exactly its own record off: no two records share an offset. */
  lemma {:induction false} ClaimedWithout(a: map<Hash, Entry>, id: nat, slots: seq<Slot>, h: Hash)
    requires h in a && a[h].pack == id && Slot(h, a[h].offset, a[h].len) in slots && Spread(slots)
    ensures Claimed(a - {h}, id, slots) == Claimed(a, id, slots) - HEADER - a[h].len
  {
    var rest := slots[1..];
    if slots[0] == Slot(h, a[h].offset, a[h].len) {
      ClaimedSame(a, a - {h}, id, rest);
    } else {
      ClaimedWithout(a, id, rest, h);
    }
  }

  // ---- retiring one entry -----------------------------------------------------------

  /** The pack is off its queue, its index loaded. */
  ghost predicate Retiring1(s: Store, id: nat, q: Queue, rs: seq<Record>)
  {
    Inv(s, Some((id, q))) && id in s.disk && s.disk[id].records == rs && id in s.packs
  }

  /** Of the pack's entries, `h` is gone and the others are as they were. */
  ghost predicate Handled(s: Store, t: Store, id: nat, h: Hash)
  {
    forall g: Hash :: Owns(t, id, g) ==> g != h && g in s.entries && t.entries[g] == s.entries[g]
  }

  /** One entry handled: nothing else changes, and no byte is added that was not claimed. */
  ghost predicate Handles(s: Store, t: Store, id: nat, q: Queue, rs: seq<Record>, h: Hash)
  {
    && Retiring1(t, id, q, rs) && Thinned(s, t) && PacksKept(s, t) && Handled(s, t, id, h)
    && Total(t) + Claimed(t.entries, id, Slots(rs)) <= Total(s) + Claimed(s.entries, id, Slots(rs))
  }

  lemma FilesThere(s: Store, out: Retiring, h: Hash)
    requires Inv(s, out)
    ensures EntryOk(s, h) && forall k <- s.packs :: k in s.disk
  {
    assert forall k <- s.packs :: SealedOk(s, k);
  }

  lemma ColdLocal(s: Store, id: nat, q: Queue, rs: seq<Record>, h: Hash)
    requires Retiring1(s, id, q, rs) && Owns(s, id, h) && Cold(s, h)
    ensures var t := RetireEntry(s, id, q, h);
      && t.entries == s.entries - {h} && t == s.(entries := t.entries, ghosts := t.ghosts, ghostSet := t.ghostSet)
      && Inv(t, Some((id, q))) && forall g <- t.entries :: FrameOf(t, g) == FrameOf(s, g)
  {
    InvLocal(s, RetireEntry(s, id, q, h), Some((id, q)));
  }

  lemma RetireCold(s: Store, id: nat, q: Queue, rs: seq<Record>, h: Hash)
    requires Retiring1(s, id, q, rs) && Owns(s, id, h) && Cold(s, h)
    ensures Handles(s, RetireEntry(s, id, q, h), id, q, rs, h)
  {
    var t := RetireEntry(s, id, q, h);
    ColdLocal(s, id, q, rs, h);
    FilesThere(s, Some((id, q)), h);
    SlotsSpread(rs, 0);
    ClaimedWithout(s.entries, id, Slots(rs), h);
  }

  /** Moving an entry takes its record off the pack and puts as many bytes elsewhere. */
  lemma MovedBytes(s: Store, t: Store, id: nat, rs: seq<Record>, h: Hash, f: Bytes, freq: nat)
    requires Owns(s, id, h) && Slot(h, s.entries[h].offset, s.entries[h].len) in Slots(rs) && s.entries[h].len == |f|
    requires id in s.packs && Gained(s.(entries := s.entries - {h}), t, Main, h, f, freq)
    ensures Total(t) + Claimed(t.entries, id, Slots(rs)) == Total(s) + Claimed(s.entries, id, Slots(rs))
  {
    SlotsSpread(rs, 0);
    ClaimedWithout(s.entries, id, Slots(rs), h);
    ClaimedSame(s.entries - {h}, t.entries, id, Slots(rs));
  }

  lemma MovedThins(s: Store, t: Store, id: nat, h: Hash, freq: nat)
    requires Owns(s, id, h) && id in s.packs && Gained(s.(entries := s.entries - {h}), t, Main, h, FrameOf(s, h), freq)
    ensures Thinned(s, t) && Handled(s, t, id, h) && PacksKept(s, t)
  {
    var s1 := s.(entries := s.entries - {h});
    assert forall g <- s1.entries :: FrameOf(s1, g) == FrameOf(s, g);
    assert t.entries.Keys == s.entries.Keys;
  }

  lemma HotFrame(s: Store, id: nat, q: Queue, rs: seq<Record>, h: Hash)
    requires Retiring1(s, id, q, rs) && Owns(s, id, h)
    ensures Slot(h, s.entries[h].offset, s.entries[h].len) in Slots(rs) && s.entries[h].freq <= FREQ_MAX
    ensures |FrameOf(s, h)| == s.entries[h].len < FRAME_LIMIT
    ensures Inv(s.(entries := s.entries - {h}), Some((id, q)))
  {
    assert EntryOk(s, h);
    var k := SlotFrame(s.disk[id], h, s.entries[h].offset, s.entries[h].len);
    InvLocal(s, s.(entries := s.entries - {h}), Some((id, q)));
  }

  lemma HotMoves(s: Store, t: Store, id: nat, q: Queue, rs: seq<Record>, h: Hash, freq: nat)
    requires Retiring1(s, id, q, rs) && Owns(s, id, h)
    requires Inv(t, Some((id, q))) && Gained(s.(entries := s.entries - {h}), t, Main, h, FrameOf(s, h), freq)
    ensures Handles(s, t, id, q, rs, h)
  {
    HotFrame(s, id, q, rs, h);
    MovedBytes(s, t, id, rs, h, FrameOf(s, h), freq);
    MovedThins(s, t, id, h, freq);
  }

  lemma RetireHot(s: Store, id: nat, q: Queue, rs: seq<Record>, h: Hash)
    requires Retiring1(s, id, q, rs) && Owns(s, id, h) && !Cold(s, h)
    ensures Handles(s, RetireEntry(s, id, q, h), id, q, rs, h)
  {
    hide Inv, Gained, Append;
    HotFrame(s, id, q, rs, h);
    var freq := if q.Small? || s.entries[h].freq == 0 then s.entries[h].freq else s.entries[h].freq - 1;
    AppendInv(s.(entries := s.entries - {h}), Some((id, q)), Main, h, FrameOf(s, h), freq);
    HotMoves(s, RetireEntry(s, id, q, h), id, q, rs, h, freq);
  }

  lemma RetireEntryOk(s: Store, id: nat, q: Queue, rs: seq<Record>, h: Hash)
    requires Retiring1(s, id, q, rs)
    ensures Handles(s, RetireEntry(s, id, q, h), id, q, rs, h)
  {
    if Owns(s, id, h) {
      if Cold(s, h) { RetireCold(s, id, q, rs, h); } else { RetireHot(s, id, q, rs, h); }
    } else {
      assert forall k <- s.packs :: SealedOk(s, k);
    }
  }

  // ---- retiring a pack --------------------------------------------------------------

  /** The first `n` index entries are handled. */
  ghost predicate Retires(s: Store, t: Store, id: nat, q: Queue, rs: seq<Record>, n: nat)
  {
    && Retiring1(t, id, q, rs) && Thinned(s, t) && PacksKept(s, t)
    && Total(t) + Claimed(t.entries, id, Slots(rs)) <= Total(s) + Claimed(s.entries, id, Slots(rs))
    && forall g: Hash :: Owns(t, id, g) ==> Untouched(s, t, rs, n, g)
  }

  predicate Untouched(s: Store, t: Store, rs: seq<Record>, n: nat, g: Hash)
  {
    && g in s.entries && g in t.entries && t.entries[g] == s.entries[g]
    && forall k | 0 <= k < n && k < |Slots(rs)| :: Slots(rs)[k].hash != g
  }

  lemma PacksKeptTrans(s: Store, t: Store, u: Store)
    requires PacksKept(s, t) && PacksKept(t, u)
    ensures PacksKept(s, u)
  {}

  lemma RetiresStep(s: Store, t: Store, u: Store, id: nat, q: Queue, rs: seq<Record>, n: nat)
    requires n < |Slots(rs)| && Retires(s, t, id, q, rs, n) && Handles(t, u, id, q, rs, Slots(rs)[n].hash)
    ensures Retires(s, u, id, q, rs, n + 1)
  {
    hide Retiring1;
    ThinnedTrans(s, t, u);
    PacksKeptTrans(s, t, u);
    forall g: Hash | Owns(u, id, g)
      ensures Untouched(s, u, rs, n + 1, g)
    {
      assert Untouched(s, t, rs, n, g);
    }
  }

  lemma RetiresNone(s: Store, id: nat, q: Queue, rs: seq<Record>)
    requires Retiring1(s, id, q, rs)
    ensures Retires(s, s, id, q, rs, 0)
  {
    assert forall k <- s.packs :: SealedOk(s, k);
  }

  lemma RetiresOne(s: Store, t: Store, id: nat, q: Queue, rs: seq<Record>, n: nat)
    requires n < |Slots(rs)| && Retires(s, t, id, q, rs, n)
    ensures Retires(s, RetireEntry(t, id, q, Slots(rs)[n].hash), id, q, rs, n + 1)
  {
    hide Handles, RetireEntry, Thinned, Inv;
    RetireEntryOk(t, id, q, rs, Slots(rs)[n].hash);
    hide Retires;
    RetiresStep(s, t, RetireEntry(t, id, q, Slots(rs)[n].hash), id, q, rs, n);
  }

  lemma {:induction false} RetireToOk(s: Store, id: nat, q: Queue, rs: seq<Record>, n: nat)
    requires Retiring1(s, id, q, rs) && n <= |Slots(rs)|
    ensures Retires(s, RetireTo(s, id, q, Slots(rs), n), id, q, rs, n)
  {
    hide Retires, Retiring1, RetireEntry;
    if n == 0 {
      RetiresNone(s, id, q, rs);
    } else {
      RetireToOk(s, id, q, rs, n - 1);
      RetiresOne(s, RetireTo(s, id, q, Slots(rs), n - 1), id, q, rs, n - 1);
    }
  }

  ghost predicate Ownerless(s: Store, id: nat) { forall g: Hash :: !Owns(s, id, g) }

  lemma AllHandled(s: Store, t: Store, id: nat, q: Queue, rs: seq<Record>)
    requires Retires(s, t, id, q, rs, |Slots(rs)|)
    ensures Ownerless(t, id)
  {
    forall g: Hash
      ensures !Owns(t, id, g)
    {
      assert EntryOk(t, g);
    }
  }

  // ---- syncing and unlinking --------------------------------------------------------

  lemma SyncedShape(s: Store, out: Retiring)
    requires Inv(s, out) && s.main.active.Some?
    ensures var t := Synced(s);
      IdsOk(t, out) && BytesOk(t, out, Small) && BytesOk(t, out, Main) && ActiveOk(t, t.small) && ActiveOk(t, t.main)
    ensures Grows(s.disk, Synced(s).disk) && s.main.active.value.id !in s.packs
  {
    var t := Synced(s);
    assert s.main.active.value.id in Active(s.main);
    assert Packs(t, out, Small) == Packs(s, out, Small) && Packs(t, out, Main) == Packs(s, out, Main);
    assert t.disk.Keys == s.disk.Keys;
  }

  lemma SyncedOpen(s: Store, t: Store, out: Retiring)
    requires Inv(s, out) && IdsOk(t, out) && BytesOk(t, out, Small) && BytesOk(t, out, Main) && ActiveOk(t, t.small)
    requires ActiveOk(t, t.main)
    requires t == s.(disk := t.disk, trace := t.trace) && Grows(s.disk, t.disk)
    requires forall k <- s.packs :: k in s.disk && k in t.disk && t.disk[k] == s.disk[k]
    requires forall k <- t.disk ::
      k in s.disk && t.disk[k].records == s.disk[k].records && t.disk[k].index == s.disk[k].index
    ensures Inv(t, out) && Silent(s, t)
  {
    hide IdsOk, BytesOk, ActiveOk, FrameOf;
    SilentEntries(s, t);
    SealedKept(s, t);
  }

  lemma SyncedInv(s: Store, out: Retiring)
    requires Inv(s, out)
    ensures Inv(Synced(s), out) && Silent(s, Synced(s)) && Synced(s).packs == s.packs && Synced(s).main == s.main
    ensures Synced(s).small == s.small
  {
    hide IdsOk, BytesOk, ActiveOk, EntryOk, SealedOk, Silent, FrameOf;
    if s.main.active.Some? && s.main.active.value.id in s.disk {
      SyncedShape(s, out);
      SyncedPacks(s, out);
      SyncedOpen(s, Synced(s), out);
    } else {
      SilentSelf(s, out);
    }
  }

  lemma SilentSelf(s: Store, out: Retiring)
    requires Inv(s, out)
    ensures Silent(s, s)
  {
    assert forall k <- s.packs :: SealedOk(s, k);
  }

  lemma SyncedPacks(s: Store, out: Retiring)
    requires Inv(s, out) && s.main.active.Some? && s.main.active.value.id in s.disk
    requires s.main.active.value.id !in s.packs
    ensures forall k <- s.packs :: k in s.disk && k in Synced(s).disk && Synced(s).disk[k] == s.disk[k]
  {
    assert forall k <- s.packs :: SealedOk(s, k);
  }

  lemma DistinctTail(id: nat, ids: seq<nat>)
    requires Distinct([id] + ids)
    ensures Distinct(ids) && id !in ids && Elems([id] + ids) == {id} + Elems(ids)
  {
    var all := [id] + ids;
    forall i | 0 <= i < |ids|
      ensures ids[i] != id && forall j | i < j < |ids| :: ids[i] != ids[j]
    {
      assert all[i + 1] == ids[i] && all[0] == id;
      forall j | i < j < |ids|
        ensures ids[i] != ids[j]
      {
        assert all[j + 1] == ids[j];
      }
    }
  }

  lemma ShapeDrops(id: nat, a: seq<nat>, b: seq<nat>, x: set<nat>, y: set<nat>, sealed: set<nat>, dir: set<nat>,
        files: set<nat>, next: nat)
    requires IdsShape([id] + a, b, x, y, sealed, dir, files, next)
    ensures id in sealed && id !in a && id !in b && id !in x && id !in y
    ensures IdsShape(a, b, x, y, sealed - {id}, dir - {id}, files, next)
  {
    DistinctTail(id, a);
    assert id in Elems([id] + a);
    assert Elems(a) !! Elems(b) && (Elems(a) + Elems(b)) !! x && (Elems(a) + Elems(b) + x) !! y;
  }

  lemma UnlinkedIds(s: Store, id: nat, q: Queue)
    requires IdsOk(s, Some((id, q)))
    ensures id in s.packs && IdsOk(Unlinked(s, id, q), None)
    ensures id !in s.small.packs && id !in s.main.packs && id !in Active(s.small) && id !in Active(s.main)
  {
    hide IdsShape;
    var a, b := s.small.packs, s.main.packs;
    var x, y := Active(s.small), Active(s.main);
    if q.Small? {
      ShapeDrops(id, a, b, x, y, s.packs.Keys, s.dir, s.disk.Keys, s.nextId);
    } else {
      ShapeSwaps(a, [id] + b, x, y, s.packs.Keys, s.dir, s.disk.Keys, s.nextId);
      ShapeDrops(id, b, a, y, x, s.packs.Keys, s.dir, s.disk.Keys, s.nextId);
      ShapeSwaps(b, a, y, x, s.packs.Keys - {id}, s.dir - {id}, s.disk.Keys, s.nextId);
    }
    assert (s.packs - {id}).Keys == s.packs.Keys - {id};
  }

  lemma UnlinkedBytes(s: Store, id: nat, q: Queue, r: Queue)
    requires IdsOk(s, Some((id, q))) && id in s.packs && BytesOk(s, Some((id, q)), r)
    ensures BytesOk(Unlinked(s, id, q), None, r)
  {
    UnlinkedIds(s, id, q);
    hide IdsOk;
    var ids := Get(s, r).packs;
    SumFrame(s.packs, s.packs - {id}, ids);
    if q == r {
      assert ([id] + ids)[1..] == ids;
    }
  }

  lemma UnlinkedInv(s: Store, id: nat, q: Queue)
    requires Inv(s, Some((id, q))) && Ownerless(s, id)
    ensures id in s.packs && Inv(Unlinked(s, id, q), None) && Thinned(s, Unlinked(s, id, q))
    ensures Total(Unlinked(s, id, q)) == Total(s) - s.packs[id]
  {
    UnlinkedIds(s, id, q);
    UnlinkedBytes(s, id, q, Small);
    UnlinkedBytes(s, id, q, Main);
    var t := Unlinked(s, id, q);
    forall k: nat
      ensures SealedOk(t, k)
    {
      assert SealedOk(s, k);
    }
    forall h: Hash
      ensures EntryOk(t, h) && FrameOf(t, h) == FrameOf(s, h)
    {
      assert EntryOk(s, h) && !Owns(s, id, h);
    }
    assert ActiveOk(t, t.small) && ActiveOk(t, t.main);
  }

  lemma SilentThins(s: Store, t: Store)
    requires Silent(s, t)
    ensures Thinned(s, t)
  {}

  /** The pack owns nothing any more, for at most as many bytes written as it holds. */
  ghost predicate Emptied(s: Store, t: Store, id: nat, q: Queue, rs: seq<Record>)
  {
    && Retiring1(t, id, q, rs) && Ownerless(t, id) && Thinned(s, t) && Total(t) <= Total(s) + Span(rs)
  }

  lemma EmptiedFirst(s: Store, t: Store, id: nat, q: Queue, rs: seq<Record>)
    requires Retires(s, t, id, q, rs, |Slots(rs)|)
    ensures Emptied(s, t, id, q, rs)
  {
    AllHandled(s, t, id, q, rs);
    ClaimedFits(s.entries, id, rs, 0);
  }

  lemma EmptiedSynced(s: Store, t: Store, id: nat, q: Queue, rs: seq<Record>)
    requires Emptied(s, t, id, q, rs)
    ensures Emptied(s, Synced(t), id, q, rs)
  {
    hide Synced;
    SyncedInv(t, Some((id, q)));
    var u := Synced(t);
    SilentThins(t, u);
    ThinnedTrans(s, t, u);
    forall g: Hash
      ensures !Owns(u, id, g)
    {
      assert !Owns(t, id, g);
    }
  }

  lemma CopiedOk(s: Store, id: nat, q: Queue, rs: seq<Record>)
    requires Retiring1(s, id, q, rs)
    ensures Emptied(s, Copied(s, id, q, Slots(rs)), id, q, rs)
  {
    hide Emptied, Retires, Retiring1, Synced;
    var t := RetireTo(s, id, q, Slots(rs), |Slots(rs)|);
    RetireToOk(s, id, q, rs, |Slots(rs)|);
    EmptiedFirst(s, t, id, q, rs);
    EmptiedSynced(s, t, id, q, rs);
  }

  /** A pack's index is its records' slots, and its size their span. */
  lemma IndexOk(s: Store, id: nat, q: Queue)
    requires Inv(s, Some((id, q)))
    ensures id in s.disk && Retiring1(s, id, q, s.disk[id].records)
    ensures s.disk[id].index.Some? && IndexOf(s, id) == Slots(s.disk[id].records)
    ensures s.packs[id] == Span(s.disk[id].records)
  {
    assert Packs(s, Some((id, q)), q)[0] == id;
    assert id in Elems(Packs(s, Some((id, q)), q));
    assert SealedOk(s, id);
  }

  /** Retiring a pack keeps the invariant, drops only cold entries and never adds bytes. */
  lemma RetireOk(s: Store, id: nat, q: Queue)
    requires Inv(s, Some((id, q)))
    ensures id in Copied(s, id, q, IndexOf(s, id)).packs
    ensures Inv(Retire(s, id, q), None) && Thinned(s, Retire(s, id, q)) && Total(Retire(s, id, q)) <= Total(s)
  {
    hide Copied, Unlinked;
    IndexOk(s, id, q);
    CopiedOk(s, id, q, s.disk[id].records);
    var t := Copied(s, id, q, IndexOf(s, id));
    IndexOk(t, id, q);
    UnlinkedInv(t, id, q);
    hide Inv;
    ThinnedTrans(s, t, Unlinked(t, id, q));
  }
}

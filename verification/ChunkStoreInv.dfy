/** What every operation of the chunk cache keeps. */
module ChunkStoreInv {
  import opened Bytes
  import opened Pack
  import opened ChunkStore
  import opened Graph

  // ---- the invariant ------------------------------------------------------------

  /** A pack popped from its queue and being retired. */
  type Retiring = Option<(nat, Queue)>

  /** The packs of a queue, with the one being retired back at its head. */
  function Packs(s: Store, out: Retiring, q: Queue): seq<nat>
  {
    if out.Some? && out.value.1 == q then [out.value.0] + Get(s, q).packs else Get(s, q).packs
  }

  function Active(x: Side): set<nat> { if x.active.Some? then {x.active.value.id} else {} }

  function ActiveLen(x: Side): nat { if x.active.Some? then x.active.value.len else 0 }

  function SizeOf(packs: map<nat, nat>, id: nat): nat { if id in packs then packs[id] else 0 }

  function SumSizes(packs: map<nat, nat>, ids: seq<nat>): nat
  {
    if ids == [] then 0 else SizeOf(packs, ids[0]) + SumSizes(packs, ids[1..])
  }

  /** Each pack is in exactly one place, and the directory holds nothing else. */
  predicate IdsShape(a: seq<nat>, b: seq<nat>, x: set<nat>, y: set<nat>, sealed: set<nat>, dir: set<nat>,
        files: set<nat>, next: nat)
  {
    && Distinct(a) && Distinct(b)
    && Elems(a) !! Elems(b) !! x !! y
    && sealed == Elems(a) + Elems(b)
    && dir == sealed + x + y
    && dir <= files
    && forall id <- files :: id < next
  }

  predicate IdsOk(s: Store, out: Retiring)
  {
    IdsShape(Packs(s, out, Small), Packs(s, out, Main), Active(s.small), Active(s.main),
             s.packs.Keys, s.dir, s.disk.Keys, s.nextId)
  }

  /** An index is that of the records, and a sealed pack has one and is synced. */
  predicate SealedOk(s: Store, id: nat)
  {
    && (id in s.disk && s.disk[id].index.Some? ==> s.disk[id].index.value == Slots(s.disk[id].records))
    && (id in s.packs ==>
          && id in s.disk && s.disk[id].index.Some?
          && s.disk[id].synced == |s.disk[id].records|
          && s.packs[id] == Span(s.disk[id].records))
  }

  predicate ActiveOk(s: Store, x: Side)
  {
    x.active.Some? ==>
      var w := x.active.value;
      && w.id in s.disk
      && s.disk[w.id].index == None
      && s.disk[w.id].synced <= |s.disk[w.id].records|
      && w.len == Span(s.disk[w.id].records)
      && w.entries == Slots(s.disk[w.id].records)
  }

  /** `small_bytes` and `main_bytes` are the bytes of their packs. */
  predicate BytesOk(s: Store, out: Retiring, q: Queue)
  {
    Get(s, q).bytes == SumSizes(s.packs, Packs(s, out, q)) + ActiveLen(Get(s, q))
  }

  /** An entry points at a record of its hash in a listed pack. */
  predicate EntryOk(s: Store, h: Hash)
  {
    h in s.entries ==>
      var e := s.entries[h];
      && e.pack in s.dir && e.pack in s.disk
      && Slot(h, e.offset, e.len) in Slots(s.disk[e.pack].records)
      && e.freq <= FREQ_MAX
  }

  ghost predicate Inv(s: Store, out: Retiring)
  {
    && IdsOk(s, out)
    && BytesOk(s, out, Small) && BytesOk(s, out, Main)
    && ActiveOk(s, s.small) && ActiveOk(s, s.main)
    && (forall id: nat :: SealedOk(s, id))
    && (forall h: Hash :: EntryOk(s, h))
    && s.ghostSet <= Elems(s.ghosts)
  }

  // ---- sums -----------------------------------------------------------------------

  lemma {:induction false} SumAppend(packs: map<nat, nat>, ids: seq<nat>, id: nat)
    ensures SumSizes(packs, ids + [id]) == SumSizes(packs, ids) + SizeOf(packs, id)
  {
    if ids == [] {
      assert ids + [id] == [id];
    } else {
      SumAppend(packs, ids[1..], id);
      assert (ids + [id])[1..] == ids[1..] + [id];
    }
  }

  lemma {:induction false} SumFrame(a: map<nat, nat>, b: map<nat, nat>, ids: seq<nat>)
    requires forall id <- ids :: SizeOf(a, id) == SizeOf(b, id)
    ensures SumSizes(a, ids) == SumSizes(b, ids)
  {
    if ids != [] {
      assert ids[0] in ids;
      SumFrame(a, b, ids[1..]);
    }
  }

  // ---- frames in growing packs ------------------------------------------------------

  lemma {:induction false} SlotsGrow(a: seq<Record>, b: seq<Record>)
    requires a <= b
    ensures Slots(a) <= Slots(b) && EncodeAll(a) <= EncodeAll(b)
    decreases |b|
  {
    if a != b {
      var c := b[..|b| - 1];
      assert b == c + [b[|b| - 1]];
      PackGrows(c, b[|b| - 1]);
      SlotsGrow(a, c);
    } else {
      assert Slots(a) <= Slots(a);
    }
  }

  /** A slot of the pack names a record that reads back. */
  lemma SlotFrame(f: File, h: Hash, offset: nat, len: nat) returns (k: nat)
    requires Slot(h, offset, len) in Slots(f.records)
    ensures |Slots(f.records)| == |f.records| && k < |f.records| && Slots(f.records)[k] == Slot(h, offset, len)
    ensures FrameAt(f, offset, len) == f.records[k].frame && f.records[k].hash == h
    ensures offset + len <= |EncodeAll(f.records)| && len == |f.records[k].frame|
  {
    SlotsLength(f.records, 0);
    k :| 0 <= k < |Slots(f.records)| && Slots(f.records)[k] == Slot(h, offset, len);
    SlotReads(f.records, k);
  }

  /** Packs only grow at their end, so a located frame keeps reading the same. */
  lemma FrameStays(f: File, g: File, h: Hash, offset: nat, len: nat)
    requires f.records <= g.records && Slot(h, offset, len) in Slots(f.records)
    ensures FrameAt(g, offset, len) == FrameAt(f, offset, len) && Slot(h, offset, len) in Slots(g.records)
  {
    SlotsGrow(f.records, g.records);
    var k := SlotFrame(f, h, offset, len);
    var a, b := EncodeAll(f.records), EncodeAll(g.records);
    assert a[offset..offset + len] == b[offset..offset + len];
  }

  predicate Grows(a: Image, b: Image)
  {
    forall id <- a :: id in b && a[id].records <= b[id].records
  }

  /** The entry did not move, so it reads the same and stays in order. */
  lemma EntryKept(s: Store, t: Store, h: Hash)
    requires EntryOk(s, h) && h in s.entries && h in t.entries
    requires t.entries[h].(freq := 0) == s.entries[h].(freq := 0) && t.entries[h].freq <= FREQ_MAX
    requires Grows(s.disk, t.disk) && s.entries[h].pack in t.dir
    ensures EntryOk(t, h) && FrameOf(t, h) == FrameOf(s, h)
  {
    var e := s.entries[h];
    FrameStays(s.disk[e.pack], t.disk[e.pack], h, e.offset, e.len);
  }

  // ---- opening, writing and sealing a pack ----------------------------------------

  /** Sealed packs stay sealed and untouched. */
  predicate PacksKept(s: Store, t: Store)
  {
    forall id <- s.packs ::
      && id in t.packs && t.packs[id] == s.packs[id]
      && id in s.disk && id in t.disk && t.disk[id] == s.disk[id]
  }

  /** Nothing a reader could notice: same entries, same frames, same bytes. */
  ghost predicate Silent(s: Store, t: Store)
  {
    && t.entries == s.entries && t.pins == s.pins && t.budget == s.budget && t.sealBytes == s.sealBytes
    && t.ghosts == s.ghosts && t.ghostSet == s.ghostSet
    && t.small.bytes == s.small.bytes && t.main.bytes == s.main.bytes
    && Grows(s.disk, t.disk) && PacksKept(s, t)
    && forall h: Hash :: FrameOf(t, h) == FrameOf(s, h)
  }

  lemma SilentEntries(s: Store, t: Store)
    requires forall h: Hash :: EntryOk(s, h)
    requires t.entries == s.entries && Grows(s.disk, t.disk) && s.dir <= t.dir
    ensures forall h: Hash :: EntryOk(t, h) && FrameOf(t, h) == FrameOf(s, h)
  {
    forall h: Hash
      ensures EntryOk(t, h) && FrameOf(t, h) == FrameOf(s, h)
    {
      assert EntryOk(s, h);
      if h in s.entries { EntryKept(s, t, h); }
    }
  }

  lemma OpenedIds(s: Store, out: Retiring, q: Queue)
    requires IdsOk(s, out) && Get(s, q).active.None?
    ensures IdsOk(Opened(s, q), out) && s.nextId !in s.disk
  {
    var t := Opened(s, q);
    assert s.nextId !in s.disk;
    assert Packs(t, out, Small) == Packs(s, out, Small) && Packs(t, out, Main) == Packs(s, out, Main);
    assert t.disk.Keys == s.disk.Keys + {s.nextId};
  }

  /** Sealed packs keep their file when another file changes. */
  lemma SealedKept(s: Store, t: Store)
    requires forall id: nat :: SealedOk(s, id)
    requires t.packs == s.packs && forall id <- s.packs :: id in s.disk ==> id in t.disk && t.disk[id] == s.disk[id]
    requires forall id <- t.disk ::
      t.disk[id].index.Some? ==>
        id in s.disk && t.disk[id].records == s.disk[id].records && t.disk[id].index == s.disk[id].index
    ensures forall id: nat :: SealedOk(t, id)
  {
    forall id: nat
      ensures SealedOk(t, id)
    {
      assert SealedOk(s, id);
    }
  }

  /** Entries may go and frequencies change without touching a file. */
  lemma InvLocal(s: Store, t: Store, out: Retiring)
    requires Inv(s, out) && t.ghostSet <= Elems(t.ghosts)
    requires t.small == s.small && t.main == s.main && t.packs == s.packs
    requires t.dir == s.dir && t.disk == s.disk && t.nextId == s.nextId
    requires forall h <- t.entries :: h in s.entries && t.entries[h].(freq := 0) == s.entries[h].(freq := 0)
    requires forall h <- t.entries ::
      h in s.entries && (t.entries[h].freq == s.entries[h].freq || t.entries[h].freq <= FREQ_MAX)
    ensures Inv(t, out) && forall h <- t.entries :: FrameOf(t, h) == FrameOf(s, h)
  {
    assert Packs(t, out, Small) == Packs(s, out, Small) && Packs(t, out, Main) == Packs(s, out, Main);
    forall h: Hash
      ensures EntryOk(t, h)
    {
      assert EntryOk(s, h);
    }
    SealedKept(s, t);
  }

  lemma NoRecords()
    ensures Slots([]) == [] && Span([]) == 0
  {}

  lemma OpenedFiles(s: Store, out: Retiring, q: Queue)
    requires Inv(s, out) && Get(s, q).active.None?
    ensures var t := Opened(s, q);
      && BytesOk(t, out, Small) && BytesOk(t, out, Main) && ActiveOk(t, t.small) && ActiveOk(t, t.main)
      && (forall id: nat :: SealedOk(t, id)) && Grows(s.disk, t.disk) && PacksKept(s, t)
  {
    hide EntryOk, Slots, Span, SumSizes;
    NoRecords();
    var t := Opened(s, q);
    assert s.nextId !in s.disk;
    assert forall id <- s.packs :: SealedOk(s, id);
    SealedKept(s, t);
    assert Packs(t, out, Small) == Packs(s, out, Small) && Packs(t, out, Main) == Packs(s, out, Main);
  }

  lemma OpenedInv(s: Store, out: Retiring, q: Queue)
    requires Inv(s, out)
    ensures Inv(Opened(s, q), out) && Silent(s, Opened(s, q)) && Get(Opened(s, q), q).active.Some?
  {
    hide IdsOk, BytesOk, ActiveOk, SealedOk, EntryOk, PacksKept, Grows, FrameOf;
    SealedSame(s);
    if Get(s, q).active.None? {
      OpenedIds(s, out, q);
      OpenedFiles(s, out, q);
      SilentEntries(s, Opened(s, q));
    }
  }

  lemma DistinctAppend(a: seq<nat>, id: nat)
    requires Distinct(a) && id !in a
    ensures Distinct(a + [id]) && Elems(a + [id]) == Elems(a) + {id}
  {}

  lemma ShapeSwaps(a: seq<nat>, b: seq<nat>, x: set<nat>, y: set<nat>, sealed: set<nat>, dir: set<nat>,
        files: set<nat>, next: nat)
    requires IdsShape(a, b, x, y, sealed, dir, files, next)
    ensures IdsShape(b, a, y, x, sealed, dir, files, next)
  {
    assert Elems(b) !! Elems(a) && (Elems(b) + Elems(a)) !! y && (Elems(b) + Elems(a) + y) !! x;
  }

  lemma ShapeSeals(id: nat, a: seq<nat>, b: seq<nat>, y: set<nat>, sealed: set<nat>, dir: set<nat>, files: set<nat>,
        next: nat)
    requires IdsShape(a, b, {id}, y, sealed, dir, files, next)
    ensures IdsShape(a + [id], b, {}, y, sealed + {id}, dir, files, next)
  {
    assert id !in Elems(a) && id !in Elems(b) && id !in y;
    DistinctAppend(a, id);
  }

  lemma SealedIds(s: Store, out: Retiring, q: Queue)
    requires IdsOk(s, out) && Get(s, q).active.Some? && Get(s, q).active.value.id in s.disk
    ensures IdsOk(Sealed(s, q), out)
    ensures Packs(Sealed(s, q), out, q) == Packs(s, out, q) + [Get(s, q).active.value.id]
    ensures forall r :: r != q ==> Packs(Sealed(s, q), out, r) == Packs(s, out, r)
  {
    hide IdsShape;
    var t := Sealed(s, q);
    var id := Get(s, q).active.value.id;
    var a, b, x, y := Packs(s, out, Small), Packs(s, out, Main), Active(s.small), Active(s.main);
    assert Packs(t, out, q) == Packs(s, out, q) + [id];
    assert t.packs.Keys == s.packs.Keys + {id} && t.disk.Keys == s.disk.Keys;
    if q.Small? {
      ShapeSeals(id, a, b, y, s.packs.Keys, s.dir, s.disk.Keys, s.nextId);
    } else {
      ShapeSwaps(a, b, x, y, s.packs.Keys, s.dir, s.disk.Keys, s.nextId);
      ShapeSeals(id, b, a, x, s.packs.Keys, s.dir, s.disk.Keys, s.nextId);
      ShapeSwaps(b + [id], a, {}, x, s.packs.Keys + {id}, s.dir, s.disk.Keys, s.nextId);
    }
  }

  lemma SealedBytes(s: Store, out: Retiring, q: Queue, r: Queue)
    requires IdsOk(s, out) && Get(s, q).active.Some? && Get(s, q).active.value.id in s.disk && BytesOk(s, out, r)
    ensures BytesOk(Sealed(s, q), out, r)
  {
    var t := Sealed(s, q);
    var id := Get(s, q).active.value.id;
    var ids := Packs(s, out, r);
    assert id !in Elems(ids);
    SumFrame(s.packs, t.packs, ids);
    SumAppend(t.packs, ids, id);
    SealedIds(s, out, q);
  }

  lemma SealedFiles(s: Store, q: Queue)
    requires (forall id: nat :: SealedOk(s, id)) && Get(s, q).active.Some? && ActiveOk(s, Get(s, q))
    requires Get(s, q).active.value.id !in s.packs
    ensures forall id: nat :: SealedOk(Sealed(s, q), id)
    ensures Grows(s.disk, Sealed(s, q).disk) && PacksKept(s, Sealed(s, q))
  {
    hide Slots, Span;
    assert forall id <- s.packs :: SealedOk(s, id);
    forall id: nat
      ensures SealedOk(Sealed(s, q), id)
    {
      assert SealedOk(s, id);
    }
  }

  lemma SealedActive(s: Store, out: Retiring, q: Queue)
    requires Inv(s, out) && Get(s, q).active.Some?
    ensures Get(s, q).active.value.id in s.disk && Get(s, q).active.value.id !in s.packs
    ensures ActiveOk(Sealed(s, q), Sealed(s, q).small) && ActiveOk(Sealed(s, q), Sealed(s, q).main)
  {
    hide Slots, Span;
    assert Get(s, q).active.value.id in Active(Get(s, q));
  }

  lemma SealedSame(s: Store)
    requires forall id: nat :: SealedOk(s, id)
    ensures Grows(s.disk, s.disk) && PacksKept(s, s)
  {
    assert forall id <- s.packs :: SealedOk(s, id);
  }

  lemma SealedInv(s: Store, out: Retiring, q: Queue)
    requires Inv(s, out)
    ensures Inv(Sealed(s, q), out) && Silent(s, Sealed(s, q)) && Get(Sealed(s, q), q).active.None?
  {
    hide IdsOk, BytesOk, ActiveOk, SealedOk, EntryOk, PacksKept, Grows, FrameOf;
    if Get(s, q).active.Some? {
      SealedActive(s, out, q);
      SealedIds(s, out, q);
      SealedBytes(s, out, q, Small);
      SealedBytes(s, out, q, Main);
      SealedFiles(s, q);
      SilentEntries(s, Sealed(s, q));
    } else {
      SealedSame(s);
    }
  }

  /** What a write does: one more entry, reading the frame written, and its bytes. */
  ghost predicate Gained(s: Store, t: Store, q: Queue, h: Hash, f: Bytes, freq: nat)
  {
    && t.entries.Keys == s.entries.Keys + {h} && t.entries[h].freq == freq
    && t.entries[h].pack !in s.packs
    && FrameOf(t, h) == f
    && (forall g <- s.entries :: g != h ==> t.entries[g] == s.entries[g])
    && (forall g <- s.entries :: g != h ==> FrameOf(t, g) == FrameOf(s, g))
    && t.pins == s.pins && t.budget == s.budget && t.sealBytes == s.sealBytes
    && t.ghosts == s.ghosts && t.ghostSet == s.ghostSet
    && Get(t, q).bytes == Get(s, q).bytes + HEADER + |f|
    && Total(t) == Total(s) + HEADER + |f|
    && Grows(s.disk, t.disk) && PacksKept(s, t)
  }

  lemma WrittenEntry(s: Store, q: Queue, h: Hash, f: Frame, freq: nat)
    requires Get(s, q).active.Some? && ActiveOk(s, Get(s, q)) && Get(s, q).active.value.id in s.dir && freq <= FREQ_MAX
    ensures EntryOk(Written(s, q, h, f, freq), h) && FrameOf(Written(s, q, h, f, freq), h) == f
    ensures ActiveOk(Written(s, q, h, f, freq), Get(Written(s, q, h, f, freq), q))
  {
    var t := Written(s, q, h, f, freq);
    var w := Get(s, q).active.value;
    var rs := s.disk[w.id].records;
    var r := Record(h, f);
    PackGrows(rs, r);
    var slot := Slot(h, w.len + HEADER, |f|);
    assert Slots(rs + [r])[|Slots(rs)|] == slot;
    SlotsLength(rs, 0);
    SlotReads(rs + [r], |rs|);
  }

  lemma WrittenFrames(s: Store, q: Queue, h: Hash, f: Frame, freq: nat)
    requires (forall g: Hash :: EntryOk(s, g)) && h !in s.entries
    requires Get(s, q).active.Some? && ActiveOk(s, Get(s, q)) && Get(s, q).active.value.id in s.dir && freq <= FREQ_MAX
    ensures forall g: Hash :: EntryOk(Written(s, q, h, f, freq), g)
    ensures forall g <- s.entries :: FrameOf(Written(s, q, h, f, freq), g) == FrameOf(s, g)
  {
    var t := Written(s, q, h, f, freq);
    assert Grows(s.disk, t.disk);
    WrittenEntry(s, q, h, f, freq);
    forall g: Hash
      ensures EntryOk(t, g) && (g in s.entries ==> FrameOf(t, g) == FrameOf(s, g))
    {
      assert EntryOk(s, g);
      if g in s.entries { EntryKept(s, t, g); }
    }
  }

  lemma WrittenIds(s: Store, out: Retiring, q: Queue, h: Hash, f: Frame, freq: nat)
    requires IdsOk(s, out) && BytesOk(s, out, Small) && BytesOk(s, out, Main)
    requires Get(s, q).active.Some? && Get(s, q).active.value.id in s.disk
    ensures var t := Written(s, q, h, f, freq); IdsOk(t, out) && BytesOk(t, out, Small) && BytesOk(t, out, Main)
  {
    var t := Written(s, q, h, f, freq);
    assert Packs(t, out, Small) == Packs(s, out, Small) && Packs(t, out, Main) == Packs(s, out, Main);
    assert t.disk.Keys == s.disk.Keys;
  }

  lemma WrittenGain(s: Store, q: Queue, h: Hash, f: Frame, freq: nat)
    requires (forall g: Hash :: EntryOk(s, g)) && (forall id: nat :: SealedOk(s, id)) && h !in s.entries
    requires freq <= FREQ_MAX
    requires Get(s, q).active.Some? && ActiveOk(s, Get(s, q))
    requires Get(s, q).active.value.id in s.dir && Get(s, q).active.value.id !in s.packs
    ensures Gained(s, Written(s, q, h, f, freq), q, h, f, freq)
    ensures forall g: Hash :: EntryOk(Written(s, q, h, f, freq), g)
    ensures forall id: nat :: SealedOk(Written(s, q, h, f, freq), id)
  {
    WrittenEntry(s, q, h, f, freq);
    WrittenFrames(s, q, h, f, freq);
    SealedKept(s, Written(s, q, h, f, freq));
    assert forall id <- s.packs :: SealedOk(s, id);
  }

  lemma WrittenInv(s: Store, out: Retiring, q: Queue, h: Hash, f: Frame, freq: nat)
    requires Inv(s, out) && Get(s, q).active.Some? && freq <= FREQ_MAX && h !in s.entries
    ensures Inv(Written(s, q, h, f, freq), out) && Gained(s, Written(s, q, h, f, freq), q, h, f, freq)
  {
    var t := Written(s, q, h, f, freq);
    assert Get(s, q).active.value.id in Active(Get(s, q));
    WrittenEntry(s, q, h, f, freq);
    WrittenGain(s, q, h, f, freq);
    WrittenIds(s, out, q, h, f, freq);
    assert ActiveOk(t, t.small) && ActiveOk(t, t.main);
  }

  lemma GainedAfter(s: Store, s1: Store, t: Store, q: Queue, h: Hash, f: Bytes, freq: nat)
    requires Silent(s, s1) && Gained(s1, t, q, h, f, freq)
    ensures Gained(s, t, q, h, f, freq)
  {}

  lemma GainedBefore(s: Store, t: Store, u: Store, q: Queue, h: Hash, f: Bytes, freq: nat)
    requires Gained(s, t, q, h, f, freq) && Silent(t, u)
    ensures Gained(s, u, q, h, f, freq)
  {}

  lemma AppendInv(s: Store, out: Retiring, q: Queue, h: Hash, f: Frame, freq: nat)
    requires Inv(s, out) && freq <= FREQ_MAX && h !in s.entries
    ensures Inv(Append(s, q, h, f, freq), out) && Gained(s, Append(s, q, h, f, freq), q, h, f, freq)
  {
    hide Inv, Gained, Silent, Opened, Written, Sealed;
    OpenedInv(s, out, q);
    var s1 := Opened(s, q);
    WriterThere(s1, out, q);
    assert s1.entries == s.entries && s1.sealBytes == s.sealBytes by { SilentSame(s, s1); }
    var s2 := Written(s1, q, h, f, freq);
    WrittenInv(s1, out, q, h, f, freq);
    GainedAfter(s, s1, s2, q, h, f, freq);
    SealedInv(s2, out, q);
    GainedBefore(s, s2, Sealed(s2, q), q, h, f, freq);
  }

  lemma SilentSame(s: Store, t: Store)
    requires Silent(s, t)
    ensures t.entries == s.entries && t.sealBytes == s.sealBytes
  {}

  /** The file being written is there. */
  lemma WriterThere(s: Store, out: Retiring, q: Queue)
    requires Inv(s, out)
    ensures Get(s, q).active.Some? ==> Get(s, q).active.value.id in s.disk
  {
    assert ActiveOk(s, s.small) && ActiveOk(s, s.main);
  }
}

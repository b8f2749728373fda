/**
 Opening a cache directory, after a crash or not: a sealed pack is taken by its index,
 an unsealed one is scanned up to its last intact record. All of it goes to main.
 */
module ChunkStoreOpen {
  import opened Bytes
  import opened Pack
  import opened ChunkStore
  import opened ChunkStoreInv
  import opened ChunkStoreEvict
  import opened ChunkStoreCrash
  import opened ChunkStoreEvictLoop
  import opened ChunkStoreFrames
  import opened Graph

  /**
   What the crash left of a pack. A sealed one is whole. An unsealed one keeps what was
   synced, and after it whatever made it to disk.
   */
  function Left(f: File, tail: Bytes): Bytes
  {
    if f.index.Some? then EncodeAll(f.records)
      else EncodeAll(f.records[..if f.synced <= |f.records| then f.synced else |f.records|]) + tail
  }

  /** The pack as it is once loaded: indexed and synced. */
  function Loaded(ok: (Hash, Bytes) -> bool, f: File, tail: Bytes): File
  {
    var rs := if f.index.Some? then f.records else Intact(ok, Left(f, tail));
    File(rs, |rs|, Some(Slots(rs)))
  }

  /** The index is that of the records and fits its fields, as every index this cache writes. */
  predicate IndexFits(f: File)
  {
    f.index.Some? ==> f.index.value == Slots(f.records) && Span(f.records) < OFFSET_LIMIT
  }

  lemma {:induction false} SlotsFit(rs: seq<Record>, pos: nat)
    requires pos + Span(rs) < OFFSET_LIMIT
    ensures forall sl <- SlotsFrom(rs, pos) :: sl.offset < OFFSET_LIMIT && sl.len < FRAME_LIMIT
  {
    if rs != [] {
      SlotsFit(rs[1..], pos + rs[0].Size());
    }
  }

  /** What `load` reads of a pack file: its index, or what a scan recovers. */
  method ReadEntries(ok: (Hash, Bytes) -> bool, f: File, tail: Bytes) returns (entries: seq<Slot>)
    requires IndexFits(f)
    ensures entries == Slots(Loaded(ok, f, tail).records)
  {
    if f.index.Some? {
      SlotsFit(f.records, 0);
      IndexRoundTrip(f.index.value);
      entries := DecodeIndex(EncodeIndex(f.index.value));
    } else {
      var kept;
      entries, kept := Recover(ok, Left(f, tail));
    }
  }

  /** Later entries replace earlier ones. */
  function Merged(entries: map<Hash, Entry>, id: nat, slots: seq<Slot>): map<Hash, Entry>
  {
    if slots == [] then entries else
      var sl := slots[|slots| - 1];
      Merged(entries, id, slots[..|slots| - 1])[sl.hash := Entry(id, sl.offset, sl.len, 0)]
  }

  /** The pack joins main. */
  function LoadPack(s: Store, id: nat, f: File, size: nat): Store
  {
    s.(packs := s.packs[id := size], main := s.main.(packs := s.main.packs + [id], bytes := s.main.bytes + size),
       nextId := if s.nextId <= id then id + 1 else s.nextId, disk := s.disk[id := f], dir := s.dir + {id})
  }

  function LoadOne(s: Store, id: nat, f: File): Store
  {
    LoadPack(s.(entries := Merged(s.entries, id, Slots(f.records))), id, f, Span(f.records))
  }

  /** When a pack is full: a sixteenth of the budget, between 4 MiB and 256 MiB. */
  function SealBytes(budget: nat): nat
  {
    var n := budget / 16;
    if n < 0x40_0000 then 0x40_0000 else if n > 0x1000_0000 then 0x1000_0000 else n
  }

  function Blank(budget: nat, sealBytes: nat): Store
  {
    Store(budget, sealBytes, map[], map[], Side([], None, 0), Side([], None, 0), [], {}, map[], 0, map[], {}, [])
  }

  function Open(ok: (Hash, Bytes) -> bool, img: Image, tail: nat -> Bytes, budget: nat, sealBytes: nat,
        ids: seq<nat>): Store
  {
    if ids == [] then Blank(budget, sealBytes) else
      var id := ids[|ids| - 1];
      var s := Open(ok, img, tail, budget, sealBytes, ids[..|ids| - 1]);
      if id in img then LoadOne(s, id, Loaded(ok, img[id], tail(id))) else s
  }

  lemma OpenNone(ok: (Hash, Bytes) -> bool, img: Image, tail: nat -> Bytes, budget: nat, sealBytes: nat)
    ensures Open(ok, img, tail, budget, sealBytes, []) == Blank(budget, sealBytes)
  {}

  lemma OpenNext(ok: (Hash, Bytes) -> bool, img: Image, tail: nat -> Bytes, budget: nat, sealBytes: nat,
        ids: seq<nat>, i: nat)
    requires i < |ids| && ids[i] in img
    ensures Open(ok, img, tail, budget, sealBytes, ids[..i + 1])
      == LoadOne(Open(ok, img, tail, budget, sealBytes, ids[..i]), ids[i], Loaded(ok, img[ids[i]], tail(ids[i])))
  {
    hide Loaded, LoadOne;
    assert ids[..i + 1][..i] == ids[..i];
  }

  // ---- the opened cache is in order -------------------------------------------------------

  lemma {:induction false} MergedOk(entries: map<Hash, Entry>, id: nat, slots: seq<Slot>, h: Hash)
    ensures h in Merged(entries, id, slots) <==> h in entries || exists sl :: sl in slots && sl.hash == h
    ensures h in Merged(entries, id, slots) ==>
      var e := Merged(entries, id, slots)[h];
      (h in entries && e == entries[h] && (forall sl <- slots :: sl.hash != h))
        || (e.pack == id && e.freq == 0 && Slot(h, e.offset, e.len) in slots)
  {
    if slots != [] {
      var sl := slots[|slots| - 1];
      var rest := slots[..|slots| - 1];
      assert slots == rest + [sl];
      MergedOk(entries, id, rest, h);
    }
  }

  lemma LoadIds(s: Store, id: nat, f: File)
    requires IdsOk(s, None) && s.small.active.None? && s.main.active.None? && id !in s.disk && id !in s.dir
    ensures IdsOk(LoadOne(s, id, f), None)
  {
    var t := LoadOne(s, id, f);
    DistinctAppend(s.main.packs, id);
    assert t.packs.Keys == s.packs.Keys + {id} && t.disk.Keys == s.disk.Keys + {id};
  }

  lemma LoadBytes(s: Store, id: nat, f: File)
    requires IdsOk(s, None) && BytesOk(s, None, Small) && BytesOk(s, None, Main) && id !in s.packs
    ensures BytesOk(LoadOne(s, id, f), None, Small) && BytesOk(LoadOne(s, id, f), None, Main)
  {
    var t := LoadOne(s, id, f);
    SumFrame(s.packs, t.packs, s.small.packs);
    SumFrame(s.packs, t.packs, s.main.packs);
    SumAppend(t.packs, s.main.packs, id);
  }

  lemma LoadEntries(s: Store, id: nat, f: File)
    requires (forall h: Hash :: EntryOk(s, h)) && id !in s.disk
    ensures forall h: Hash :: EntryOk(LoadOne(s, id, f), h)
  {
    forall h: Hash
      ensures EntryOk(LoadOne(s, id, f), h)
    {
      assert EntryOk(s, h);
      MergedOk(s.entries, id, Slots(f.records), h);
    }
  }

  lemma LoadOneInv(s: Store, id: nat, f: File)
    requires Inv(s, None) && s.small.active.None? && s.main.active.None? && id !in s.disk
    requires f.index == Some(Slots(f.records)) && f.synced == |f.records|
    ensures Inv(LoadOne(s, id, f), None)
  {
    LoadIds(s, id, f);
    LoadBytes(s, id, f);
    LoadEntries(s, id, f);
    hide IdsOk, BytesOk;
    var t := LoadOne(s, id, f);
    forall k: nat
      ensures SealedOk(t, k)
    {
      assert SealedOk(s, k);
    }
  }

  predicate Ascending(ids: seq<nat>) { forall i, j | 0 <= i < j < |ids| :: ids[i] < ids[j] }

  /** Everything `load` promises about the store it leaves. */
  ghost predicate Fresh(s: Store, img: Image, ids: seq<nat>)
  {
    && Inv(s, None) && s.small == Side([], None, 0) && s.main.active.None? && s.pins == map[]
    && s.disk.Keys == Elems(ids) && s.dir == s.disk.Keys
    && (forall h <- s.entries :: s.entries[h].freq == 0)
  }

  lemma MergedCold(entries: map<Hash, Entry>, id: nat, slots: seq<Slot>)
    requires forall h <- entries :: entries[h].freq == 0
    ensures forall h <- Merged(entries, id, slots) :: Merged(entries, id, slots)[h].freq == 0
  {
    forall h | h in Merged(entries, id, slots)
      ensures Merged(entries, id, slots)[h].freq == 0
    {
      MergedOk(entries, id, slots, h);
    }
  }

  lemma LoadFresh(s: Store, img: Image, ids: seq<nat>, id: nat, f: File)
    requires Fresh(s, img, ids) && id !in ids && f.index == Some(Slots(f.records)) && f.synced == |f.records|
    ensures Fresh(LoadOne(s, id, f), img, ids + [id])
  {
    LoadOneInv(s, id, f);
    hide Inv, Merged, Slots, Span;
    MergedCold(s.entries, id, Slots(f.records));
    assert LoadOne(s, id, f).disk.Keys == s.disk.Keys + {id};
    assert Elems(ids + [id]) == Elems(ids) + {id};
  }

  lemma {:induction false} OpenInv(ok: (Hash, Bytes) -> bool, img: Image, tail: nat -> Bytes, budget: nat,
        sealBytes: nat, ids: seq<nat>)
    requires Ascending(ids) && forall id <- ids :: id in img
    ensures Fresh(Open(ok, img, tail, budget, sealBytes, ids), img, ids)
  {
    if ids == [] {
      BlankFresh(img, budget, sealBytes);
    } else {
      var id := ids[|ids| - 1];
      var rest := ids[..|ids| - 1];
      assert ids == rest + [id];
      hide Fresh, Intact, LoadOne, Left;
      OpenInv(ok, img, tail, budget, sealBytes, rest);
      assert id !in rest;
      LoadFresh(Open(ok, img, tail, budget, sealBytes, rest), img, rest, id, Loaded(ok, img[id], tail(id)));
    }
  }

  lemma BlankFresh(img: Image, budget: nat, sealBytes: nat)
    ensures Fresh(Blank(budget, sealBytes), img, [])
  {
    assert Elems<nat>([]) == {};
  }

  // ---- what the opened cache holds ----------------------------------------------------------

  predicate Names(f: File, h: Hash) { exists k :: 0 <= k < |f.records| && f.records[k].hash == h }

  lemma NamesSlots(f: File, h: Hash)
    ensures Names(f, h) <==> exists sl :: sl in Slots(f.records) && sl.hash == h
  {
    SlotsLength(f.records, 0);
    forall k | 0 <= k < |f.records|
      ensures Slots(f.records)[k].hash == f.records[k].hash && Slots(f.records)[k] in Slots(f.records)
    {
      SlotReads(f.records, k);
    }
  }

  predicate Somewhere(ok: (Hash, Bytes) -> bool, img: Image, tail: nat -> Bytes, ids: seq<nat>, h: Hash)
  {
    exists id :: id in ids && id in img && Names(Loaded(ok, img[id], tail(id)), h)
  }

  /** The cache knows exactly the chunks found in some pack, and reads their packs as loaded. */
  lemma {:induction false} OpenHolds(ok: (Hash, Bytes) -> bool, img: Image, tail: nat -> Bytes, budget: nat,
        sealBytes: nat, ids: seq<nat>, h: Hash)
    requires Ascending(ids) && forall id <- ids :: id in img
    ensures var s := Open(ok, img, tail, budget, sealBytes, ids);
      && (h in s.entries <==> Somewhere(ok, img, tail, ids, h))
      && (forall id <- ids :: id in s.disk && s.disk[id] == Loaded(ok, img[id], tail(id)))
  {
    if ids != [] {
      var id := ids[|ids| - 1];
      var rest := ids[..|ids| - 1];
      assert ids == rest + [id];
      OpenHolds(ok, img, tail, budget, sealBytes, rest, h);
      var s := Open(ok, img, tail, budget, sealBytes, rest);
      var f := Loaded(ok, img[id], tail(id));
      hide Loaded;
      MergedOk(s.entries, id, Slots(f.records), h);
      NamesSlots(f, h);
      SomewhereOn(ok, img, tail, rest, id, h);
      assert id !in rest;
    }
  }

  lemma SomewhereOn(ok: (Hash, Bytes) -> bool, img: Image, tail: nat -> Bytes, ids: seq<nat>, id: nat, h: Hash)
    requires id in img
    ensures Somewhere(ok, img, tail, ids + [id], h) <==>
      Somewhere(ok, img, tail, ids, h) || Names(Loaded(ok, img[id], tail(id)), h)
  {
    hide Loaded;
    assert id in ids + [id];
    if Somewhere(ok, img, tail, ids, h) {
      var k :| k in ids && k in img && Names(Loaded(ok, img[k], tail(k)), h);
      assert k in ids + [id];
    }
  }

  /**
   The record comes back whatever bytes follow the synced part: its pack has an index, or
   it is synced and every record up to it verifies.
   */
  predicate Recoverable(ok: (Hash, Bytes) -> bool, f: File, k: nat)
  {
    && k < |f.records|
    && (f.index.Some? || (k < f.synced && forall j | 0 <= j <= k :: ok(f.records[j].hash, f.records[j].frame)))
  }

  function SyncedPart(f: File): seq<Record> { f.records[..if f.synced <= |f.records| then f.synced else |f.records|] }

  lemma LoadedKeeps(ok: (Hash, Bytes) -> bool, f: File, tail: Bytes, k: nat)
    requires Recoverable(ok, f, k)
    ensures k < |Loaded(ok, f, tail).records| && Loaded(ok, f, tail).records[k] == f.records[k]
  {
    if f.index.None? {
      var rs := SyncedPart(f);
      VerifiedCounts(ok, rs, k);
      IntactKeeps(ok, rs, tail);
      assert rs[..Verified(ok, rs)][k] == f.records[k];
    }
  }

  /** With nothing behind the synced part, nothing else comes back. */
  lemma LoadedOnly(ok: (Hash, Bytes) -> bool, f: File, k: nat)
    requires k < |Loaded(ok, f, []).records|
    ensures Recoverable(ok, f, k) && Loaded(ok, f, []).records[k] == f.records[k]
  {
    if f.index.None? {
      var rs := SyncedPart(f);
      IntactAll(ok, rs);
      VerifiedCounts(ok, rs, k);
      assert forall j | 0 <= j < |rs| :: rs[j] == f.records[j];
    }
  }

  /** The chunk comes back whatever the crash left behind the synced parts. */
  ghost predicate Assured(ok: (Hash, Bytes) -> bool, img: Image, h: Hash)
  {
    exists id, k: nat :: id in img && Recoverable(ok, img[id], k) && img[id].records[k].hash == h
  }

  lemma AssuredNamed(ok: (Hash, Bytes) -> bool, img: Image, tail: nat -> Bytes, ids: seq<nat>, h: Hash)
    requires Assured(ok, img, h) && Elems(ids) == img.Keys
    ensures Somewhere(ok, img, tail, ids, h)
  {
    var id, k: nat :| id in img && Recoverable(ok, img[id], k) && img[id].records[k].hash == h;
    assert id in Elems(ids);
    LoadedKeeps(ok, img[id], tail(id), k);
    assert Names(Loaded(ok, img[id], tail(id)), h);
  }

  lemma NamedAssured(ok: (Hash, Bytes) -> bool, img: Image, none: nat -> Bytes, ids: seq<nat>, h: Hash)
    requires Somewhere(ok, img, none, ids, h) && forall id <- ids :: none(id) == []
    ensures Assured(ok, img, h)
  {
    var id :| id in ids && id in img && Names(Loaded(ok, img[id], none(id)), h);
    var k: nat :| k < |Loaded(ok, img[id], []).records| && Loaded(ok, img[id], []).records[k].hash == h;
    LoadedOnly(ok, img[id], k);
  }

  /** The chunk is in the opened cache, however the unsynced bytes ended up. */
  ghost predicate AlwaysFound(ok: (Hash, Bytes) -> bool, img: Image, budget: nat, sealBytes: nat, ids: seq<nat>,
        h: Hash)
  {
    forall tail: nat -> Bytes :: h in Open(ok, img, tail, budget, sealBytes, ids).entries
  }

  /** A crash never loses the chunk exactly if one of its records is recoverable. */
  lemma ReopenFindsIff(ok: (Hash, Bytes) -> bool, img: Image, budget: nat, sealBytes: nat, ids: seq<nat>, h: Hash)
    requires Ascending(ids) && Elems(ids) == img.Keys
    ensures AlwaysFound(ok, img, budget, sealBytes, ids, h) <==> Assured(ok, img, h)
  {
    hide Open, Loaded, Recoverable, Names;
    assert forall k <- ids :: k in img by { assert forall k <- ids :: k in Elems(ids); }
    if Assured(ok, img, h) {
      forall tail: nat -> Bytes
        ensures h in Open(ok, img, tail, budget, sealBytes, ids).entries
      {
        AssuredNamed(ok, img, tail, ids, h);
        OpenHolds(ok, img, tail, budget, sealBytes, ids, h);
      }
    }
    if AlwaysFound(ok, img, budget, sealBytes, ids, h) {
      var none := (id: nat) => [];
      assert h in Open(ok, img, none, budget, sealBytes, ids).entries;
      OpenHolds(ok, img, none, budget, sealBytes, ids, h);
      NamedAssured(ok, img, none, ids, h);
    }
  }

  // ---- which record an opened cache reads -----------------------------------------------------

  /** The last record of the chunk, in the pack with the highest id that has one. */
  predicate Newest(disk: Image, h: Hash, id: nat, k: nat)
  {
    && id in disk && k < |disk[id].records| && disk[id].records[k].hash == h
    && (forall j | k < j < |disk[id].records| :: disk[id].records[j].hash != h)
    && forall later <- disk :: later > id ==> !Names(disk[later], h)
  }

  lemma {:induction false} MergedLast(entries: map<Hash, Entry>, id: nat, slots: seq<Slot>, h: Hash, k: nat)
    requires k < |slots| && slots[k].hash == h && forall j | k < j < |slots| :: slots[j].hash != h
    ensures h in Merged(entries, id, slots)
    ensures Merged(entries, id, slots)[h] == Entry(id, slots[k].offset, slots[k].len, 0)
  {
    if k < |slots| - 1 {
      MergedLast(entries, id, slots[..|slots| - 1], h, k);
    }
  }

  lemma {:induction false} LastNamed(rs: seq<Record>, h: Hash) returns (k: nat)
    requires exists i :: 0 <= i < |rs| && rs[i].hash == h
    ensures k < |rs| && rs[k].hash == h && forall j | k < j < |rs| :: rs[j].hash != h
  {
    if rs[|rs| - 1].hash == h {
      k := |rs| - 1;
    } else {
      k := LastNamed(rs[..|rs| - 1], h);
    }
  }

  lemma LoadNewest(s: Store, id: nat, f: File, h: Hash) returns (k: nat)
    requires Names(f, h) && forall other <- s.disk :: other < id
    ensures var t := LoadOne(s, id, f);
      && Newest(t.disk, h, id, k) && h in t.entries && k < |Slots(f.records)|
      && t.entries[h] == Entry(id, Slots(f.records)[k].offset, Slots(f.records)[k].len, 0)
  {
    k := LastNamed(f.records, h);
    forall j | 0 <= j < |f.records|
      ensures |Slots(f.records)| == |f.records| && Slots(f.records)[j].hash == f.records[j].hash
    {
      SlotReads(f.records, j);
    }
    MergedLast(s.entries, id, Slots(f.records), h, k);
  }

  lemma LoadOlder(s: Store, id: nat, f: File, h: Hash, older: nat, k: nat)
    requires !Names(f, h) && Newest(s.disk, h, older, k) && h in s.entries && id !in s.disk
    ensures var t := LoadOne(s, id, f); Newest(t.disk, h, older, k) && h in t.entries && t.entries[h] == s.entries[h]
  {
    NamesSlots(f, h);
    MergedOk(s.entries, id, Slots(f.records), h);
  }

  /** The entry of a chunk in an opened cache is its newest record. */
  lemma {:induction false} OpenNewest(
      ok: (Hash, Bytes) -> bool, img: Image, tail: nat -> Bytes, budget: nat, sealBytes: nat, ids: seq<nat>, h: Hash)
      returns (id: nat, k: nat)
    requires Ascending(ids) && (forall id <- ids :: id in img)
    requires h in Open(ok, img, tail, budget, sealBytes, ids).entries
    ensures var t := Open(ok, img, tail, budget, sealBytes, ids);
      && Newest(t.disk, h, id, k) && k < |Slots(t.disk[id].records)|
      && t.entries[h] == Entry(id, Slots(t.disk[id].records)[k].offset, Slots(t.disk[id].records)[k].len, 0)
  {
    hide Loaded, Inv, Newest, LoadOne, Names, Slots;
    var last, rest := ids[|ids| - 1], ids[..|ids| - 1];
    assert ids == rest + [last];
    var s := Open(ok, img, tail, budget, sealBytes, rest);
    var f := Loaded(ok, img[last], tail(last));
    OpenInv(ok, img, tail, budget, sealBytes, rest);
    assert forall other <- s.disk :: other < last by { assert forall other <- s.disk :: other in Elems(rest); }
    LoadDisk(s, last, f);
    if Names(f, h) {
      id := last;
      k := LoadNewest(s, last, f, h);
    } else {
      NotLoaded(s, last, f, h);
      id, k := OpenNewest(ok, img, tail, budget, sealBytes, rest, h);
      NewestThere(s.disk, h, id, k);
      LoadOlder(s, last, f, h, id, k);
    }
  }

  lemma LoadDisk(s: Store, id: nat, f: File)
    ensures LoadOne(s, id, f).disk == s.disk[id := f]
  {}

  lemma NewestThere(disk: Image, h: Hash, id: nat, k: nat)
    requires Newest(disk, h, id, k)
    ensures id in disk
  {}

  lemma NotLoaded(s: Store, id: nat, f: File, h: Hash)
    requires !Names(f, h) && h in LoadOne(s, id, f).entries
    ensures h in s.entries
  {
    NamesSlots(f, h);
    MergedOk(s.entries, id, Slots(f.records), h);
  }

  lemma NewestOnce(disk: Image, h: Hash, id: nat, k: nat, id': nat, k': nat)
    requires Newest(disk, h, id, k) && Newest(disk, h, id', k')
    ensures id == id' && k == k'
  {
    assert Names(disk[id], h) && Names(disk[id'], h);
  }

  /**
   What an opened cache reads for a chunk is one record exactly if no other record of it
   follows: none later in the same pack and none in a pack with a higher id.
   */
  lemma ReopenReadsIff(ok: (Hash, Bytes) -> bool, img: Image, tail: nat -> Bytes, budget: nat, sealBytes: nat,
        ids: seq<nat>, h: Hash, id: nat, k: nat)
    requires Ascending(ids) && (forall id <- ids :: id in img) && id in ids
    requires var f := Loaded(ok, img[id], tail(id)); k < |f.records| && f.records[k].hash == h
    ensures var t, f := Open(ok, img, tail, budget, sealBytes, ids), Loaded(ok, img[id], tail(id));
      && |Slots(f.records)| == |f.records| && h in t.entries
      && (t.entries[h] == Entry(id, Slots(f.records)[k].offset, Slots(f.records)[k].len, 0) <==>
        Newest(t.disk, h, id, k))
      && (Newest(t.disk, h, id, k) ==> FrameOf(t, h) == f.records[k].frame)
  {
    var t, f := Open(ok, img, tail, budget, sealBytes, ids), Loaded(ok, img[id], tail(id));
    hide Loaded, Open, FrameOf;
    OpenHolds(ok, img, tail, budget, sealBytes, ids, h);
    assert Names(f, h);
    var newest, last := OpenNewest(ok, img, tail, budget, sealBytes, ids, h);
    SlotReads(f.records, k);
    SlotsSpread(f.records, 0);
    if Newest(t.disk, h, id, k) {
      NewestOnce(t.disk, h, id, k, newest, last);
      SlotFrameOf(t, h, id, k);
    }
  }

  lemma SlotFrameOf(s: Store, h: Hash, id: nat, k: nat)
    requires h in s.entries && id in s.disk && k < |s.disk[id].records|
    requires |Slots(s.disk[id].records)| == |s.disk[id].records|
    requires s.entries[h] == Entry(id, Slots(s.disk[id].records)[k].offset, Slots(s.disk[id].records)[k].len, 0)
    ensures FrameOf(s, h) == s.disk[id].records[k].frame
  {
    SlotReads(s.disk[id].records, k);
  }

  /** A scanned pack yields only frames that verify. A sealed one is taken as it is. */
  lemma LoadedVerifiesIff(ok: (Hash, Bytes) -> bool, f: File, tail: Bytes)
    ensures (forall r <- Loaded(ok, f, tail).records :: ok(r.hash, r.frame)) <==>
      f.index.None? || forall r <- f.records :: ok(r.hash, r.frame)
  {
    IntactSound(ok, Left(f, tail));
  }

  /** A stored record is what an entry reads. */
  lemma ReadsRecord(s: Store, h: Hash) returns (r: Record)
    requires Inv(s, None) && h in s.entries
    ensures s.entries[h].pack in s.disk && r in s.disk[s.entries[h].pack].records && r.hash == h
    ensures r.frame == FrameOf(s, h)
  {
    assert EntryOk(s, h);
    var e := s.entries[h];
    var k := SlotFrame(s.disk[e.pack], h, e.offset, e.len);
    r := s.disk[e.pack].records[k];
  }

  /**
   What a reopened cache reads for a chunk fails to verify exactly if its newest record is
   in a sealed pack, whose frames are not looked at again, and is bad.
   */
  lemma ReopenVerifiesIff(ok: (Hash, Bytes) -> bool, img: Image, tail: nat -> Bytes, budget: nat, sealBytes: nat,
      ids: seq<nat>, h: Hash) returns (id: nat, k: nat)
    requires Ascending(ids) && (forall id <- ids :: id in img)
    requires h in Open(ok, img, tail, budget, sealBytes, ids).entries
    ensures id in img && Newest(Open(ok, img, tail, budget, sealBytes, ids).disk, h, id, k)
    ensures img[id].index.Some? ==> k < |img[id].records|
    ensures !ok(h, FrameOf(Open(ok, img, tail, budget, sealBytes, ids), h)) <==>
      img[id].index.Some? && !ok(h, img[id].records[k].frame)
  {
    hide Open, Loaded, FrameOf, Slots, Inv;
    id, k := OpenNewest(ok, img, tail, budget, sealBytes, ids, h);
    OpenInv(ok, img, tail, budget, sealBytes, ids);
    OpenHolds(ok, img, tail, budget, sealBytes, ids, h);
    var t := Open(ok, img, tail, budget, sealBytes, ids);
    assert id in Elems(ids);
    var f := Loaded(ok, img[id], tail(id));
    ReopenReadsIff(ok, img, tail, budget, sealBytes, ids, h, id, k);
    assert f.records[k] in f.records;
    LoadedSealed(ok, img[id], tail(id));
    LoadedVerifiesIff(ok, img[id], tail(id));
  }

  lemma LoadedSealed(ok: (Hash, Bytes) -> bool, f: File, tail: Bytes)
    ensures f.index.Some? ==> Loaded(ok, f, tail).records == f.records
  {}

  /** A directory of one sealed pack with a frame that does not verify. The cache opened on it reads that frame. */
  lemma SealedBad(ok: (Hash, Bytes) -> bool, h: Hash, bad: Frame, tail: nat -> Bytes, budget: nat)
    requires !ok(h, bad)
    ensures var img := map[0 := File([Record(h, bad)], 1, Some(Slots([Record(h, bad)])))];
      var t := Open(ok, img, tail, budget, SealBytes(budget), [0]);
      h in t.entries && FrameOf(t, h) == bad && !ok(h, FrameOf(t, h))
  {
    hide Slots, FrameOf;
    var rs := [Record(h, bad)];
    var img := map[0 := File(rs, 1, Some(Slots(rs)))];
    var t := Open(ok, img, tail, budget, SealBytes(budget), [0]);
    LoadedSealed(ok, img[0], tail(0));
    assert rs[0].hash == h;
    OpenHolds(ok, img, tail, budget, SealBytes(budget), [0], h);
    hide Open, Loaded;
    OpenInv(ok, img, tail, budget, SealBytes(budget), [0]);
    assert Elems<nat>([0]) == {0};
    ReopenReadsIff(ok, img, tail, budget, SealBytes(budget), [0], h, 0, 0);
  }
}

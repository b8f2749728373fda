/** The chunk cache as the object hub and worker share. */
module ChunkCache {
  import opened Bytes
  import opened Pack
  import opened ChunkStore
  import opened ChunkStoreInv
  import opened ChunkStoreEvict
  import opened ChunkStoreBudget
  import opened ChunkStoreEvictLoop
  import opened ChunkStoreOpen
  import opened ChunkStoreOps
  import opened ChunkStoreRoom
  import opened Graph

  /** A located frame. It is read without the cache. */
  datatype FrameRef = FrameRef(pack: nat, offset: nat, len: nat)

  function PlaceOf(e: Entry): FrameRef { FrameRef(e.pack, e.offset, e.len) }

  class Cache {
    const budget: nat
    const sealBytes: nat
    var entries: map<Hash, Entry>
    var packs: map<nat, nat>
    var smallPacks: seq<nat>
    var mainPacks: seq<nat>
    var activeSmall: Option<Writer>
    var activeMain: Option<Writer>
    var smallBytes: int
    var mainBytes: int
    var ghosts: seq<nat>
    var ghostSet: set<nat>
    var pins: map<Hash, nat>
    var nextId: nat
    var disk: Image
    var dir: set<nat>
    ghost var trace: seq<Moment>

    ghost function View(): Store
      reads this
    {
      Store(budget, sealBytes, entries, packs, Side(smallPacks, activeSmall, smallBytes),
        Side(mainPacks, activeMain, mainBytes),
            ghosts, ghostSet, pins, nextId, disk, dir, trace)
    }

    ghost predicate Valid(out: Retiring)
      reads this
    {
      Inv(View(), out) && sealBytes > 0
    }

    /** The directory after a file operation. */
    ghost method Note()
      modifies this`trace
      ensures trace == old(trace) + [Moment(Listed(disk, dir), entries)]
    {
      trace := trace + [Moment(Listed(disk, dir), entries)];
    }

    method Create(q: Queue)
      modifies this`disk, this`dir, this`nextId, this`activeSmall, this`activeMain, this`trace
      ensures View() == Opened(old(View()), q)
    {
      var open := if q.Small? then activeSmall.Some? else activeMain.Some?;
      if !open {
        var w := Some(Writer(nextId, 0, []));
        AddFile(nextId, File([], 0, None));
        if q.Small? { activeSmall := w; } else { activeMain := w; }
        Note();
      }
    }

    method Flush(id: nat)
      requires id in disk
      modifies this`disk, this`trace
      ensures View() == Flushed(old(View()), id)
    {
      disk := disk[id := disk[id].(synced := |disk[id].records|)];
      Note();
    }

    method WriteIndex(id: nat, slots: seq<Slot>)
      requires id in disk
      modifies this`disk, this`trace
      ensures View() == OnDisk(old(View()), disk, dir) && disk == old(disk)[id := old(disk)[id].(index := Some(slots))]
    {
      disk := disk[id := disk[id].(index := Some(slots))];
      Note();
    }

    method Seal(q: Queue)
      requires Get(View(), q).active.Some? ==> Get(View(), q).active.value.id in disk
      modifies this
      ensures View() == Sealed(old(View()), q)
    {
      var active := if q.Small? then activeSmall else activeMain;
      if active.Some? {
        var w := active.value;
        Flush(w.id);
        packs := packs[w.id := w.len];
        if q.Small? {
          activeSmall, smallPacks := None, smallPacks + [w.id];
        } else {
          activeMain, mainPacks := None, mainPacks + [w.id];
        }
        WriteIndex(w.id, w.entries);
      }
    }

    method AddRecord(id: nat, r: Record)
      requires id in disk
      modifies this`disk
      ensures disk == old(disk)[id := old(disk)[id].(records := old(disk)[id].records + [r])]
    {
      disk := disk[id := disk[id].(records := disk[id].records + [r])];
    }

    method Grow(q: Queue, w: Writer, grown: nat)
      modifies this`activeSmall, this`activeMain, this`smallBytes, this`mainBytes
      ensures View() == Put(old(View()), q,
        Get(old(View()), q).(active := Some(w), bytes := Get(old(View()), q).bytes + grown))
    {
      if q.Small? {
        activeSmall, smallBytes := Some(w), smallBytes + grown;
      } else {
        activeMain, mainBytes := Some(w), mainBytes + grown;
      }
    }

    method Write(q: Queue, h: Hash, f: Frame, freq: nat) returns (full: bool)
      requires Get(View(), q).active.Some? && Get(View(), q).active.value.id in disk
      modifies this`disk, this`entries, this`activeSmall, this`activeMain, this`smallBytes, this`mainBytes, this`trace
      ensures View() == Written(old(View()), q, h, f, freq)
      ensures full == (Get(View(), q).active.value.len >= sealBytes)
    {
      var w := if q.Small? then activeSmall.value else activeMain.value;
      var grown := HEADER + |f|;
      var w' := Writer(w.id, w.len + grown, w.entries + [Slot(h, w.len + HEADER, |f|)]);
      AddRecord(w.id, Record(h, f));
      entries := entries[h := Entry(w.id, w.len + HEADER, |f|, freq)];
      Grow(q, w', grown);
      Note();
      full := w'.len >= sealBytes;
    }

    /** A frame too long for its length field is refused. */
    method AppendFrame(q: Queue, h: Hash, f: Bytes, freq: nat, ghost out: Retiring) returns (ok: bool)
      requires Valid(out) && freq <= FREQ_MAX && h !in entries
      modifies this
      ensures Valid(out) && View() == Append(old(View()), q, h, f, freq)
      ensures ok == (|f| < FRAME_LIMIT)
    {
      ghost var s := View();
      OpenedInv(s, out, q);
      Create(q);
      ghost var s1 := View();
      assert ActiveOk(s1, s1.small) && ActiveOk(s1, s1.main);
      ok := |f| < FRAME_LIMIT;
      if ok {
        WrittenInv(s1, out, q, h, f, freq);
        var full := Write(q, h, f, freq);
        ghost var s2 := View();
        if full {
          assert ActiveOk(s2, s2.small) && ActiveOk(s2, s2.main);
          SealedInv(s2, out, q);
          Seal(q);
        }
      }
    }

    method GhostPush(h: Hash)
      modifies this
      ensures View() == GhostPushed(old(View()), h)
    {
      var key := GhostKey(h);
      if key !in ghostSet {
        ghostSet, ghosts := ghostSet + {key}, ghosts + [key];
      }
    }

    /** One index entry of a pack being retired. */
    method RetireHash(id: nat, q: Queue, h: Hash, ghost rs: seq<Record>) returns (promoted: bool)
      requires Valid(Some((id, q))) && Retiring1(View(), id, q, rs)
      modifies this
      ensures Valid(Some((id, q))) && View() == RetireEntry(old(View()), id, q, h)
      ensures promoted == Promotes(old(View()), id, h)
    {
      hide Inv, Append;
      ghost var s := View();
      RetireEntryOk(s, id, q, rs, h);
      promoted := false;
      if h in entries && entries[h].pack == id {
        var e := entries[h];
        if e.freq == 0 && h !in pins {
          entries := entries - {h};
          if q.Small? { GhostPush(h); }
        } else {
          HotFrame(s, id, q, rs, h);
          FilesThere(s, Some((id, q)), h);
          var freq := if q.Small? || e.freq == 0 then e.freq else e.freq - 1;
          var frame := FrameAt(disk[id], e.offset, e.len);
          entries := entries - {h};
          var ok := AppendFrame(Main, h, frame, freq, Some((id, q)));
          promoted := true;
        }
      }
    }

    method SyncMain()
      modifies this
      ensures View() == Synced(old(View()))
    {
      if activeMain.Some? && activeMain.value.id in disk {
        Flush(activeMain.value.id);
      }
    }

    method RetirePack(id: nat, q: Queue)
      requires Valid(Some((id, q)))
      modifies this
      ensures Valid(None)
      ensures var s := old(View()); id in Copied(s, id, q, IndexOf(s, id)).packs && View() == Retire(s, id, q)
    {
      hide Inv, RetireEntry, Synced, Unlinked;
      ghost var s := View();
      IndexOk(s, id, q);
      RetireOk(s, id, q);
      ghost var rs := s.disk[id].records;
      var index := disk[id].index.value;
      var promoted := false;
      for n := 0 to |index|
        invariant Valid(Some((id, q))) && Retiring1(View(), id, q, rs)
        invariant View() == RetireTo(s, id, q, index, n) && promoted == PromotesTo(s, id, q, index, n)
      {
        RetireToOk(s, id, q, rs, n + 1);
        var p := RetireHash(id, q, index[n].hash, rs);
        promoted := promoted || p;
      }
      if promoted {
        SyncMain();
      }
      assert View() == Copied(s, id, q, index);
      Unlink(id, q);
    }

    method Unlink(id: nat, q: Queue)
      requires id in packs
      modifies this
      ensures View() == Unlinked(old(View()), id, q)
    {
      var size := packs[id];
      packs := packs - {id};
      if q.Small? { smallBytes := smallBytes - size; } else { mainBytes := mainBytes - size; }
      dir := dir - {id};
      Note();
    }

    method MakeReady(q: Queue)
      requires Get(View(), q).active.Some? ==> Get(View(), q).active.value.id in disk
      modifies this
      ensures View() == Ready(old(View()), q)
    {
      var none := if q.Small? then smallPacks == [] else mainPacks == [];
      if none {
        Seal(q);
      }
    }

    method Pop(q: Queue) returns (id: nat)
      requires Get(View(), q).packs != []
      modifies this
      ensures View() == Popped(old(View()), q) && id == Get(old(View()), q).packs[0]
    {
      if q.Small? {
        id, smallPacks := smallPacks[0], smallPacks[1..];
      } else {
        id, mainPacks := mainPacks[0], mainPacks[1..];
      }
    }

    /** Retire the oldest pack of a queue, sealing the open one if there is no other. */
    method RetireOldest(q: Queue)
      requires Valid(None) && Get(View(), q).bytes > 0
      modifies this
      ensures Valid(None) && CanRound(old(View()), q) && View() == Round(old(View()), q)
    {
      ghost var s := View();
      ReadyInv(s, q);
      RoundInv(s, q);
      WriterThere(s, None, q);
      hide Inv, Ready, Popped, Retire, Copied, Thinned, Silent;
      MakeReady(q);
      PoppedInv(View(), q);
      var id := Pop(q);
      RetirePack(id, q);
    }

    /** The exit for want of packs is not needed: over budget, one of the queues has one. */
    method EvictPacks()
      requires Valid(None)
      modifies this
      ensures Valid(None) && View() == Evict(old(View()), 0)
      ensures old(smallBytes + mainBytes) <= budget ==> View() == old(View())
    {
      hide Inv, Round, CanRound, Thinned;
      ghost var s := View();
      var unfreed := 0;
      BytesPositive(View());
      while smallBytes + mainBytes > budget
        invariant Valid(None) && unfreed <= |mainPacks| && Evict(View(), unfreed) == Evict(s, 0)
        decreases SmallCount(View()), if Total(View()) >= 0 then Total(View()) else 0,
          Total(View()) + Zeros(View()) - unfreed
      {
        ghost var now := View();
        BytesPositive(now);
        if smallBytes > budget / SMALL_FRACTION {
          DrainStep(now);
          RetireOldest(Small);
        } else {
          RotateStep(now);
          var before := smallBytes + mainBytes;
          RetireOldest(Main);
          RoundInv(now, Main);
          BytesPositive(View());
          if smallBytes + mainBytes < before {
            unfreed := 0;
          } else {
            unfreed := unfreed + 1;
            if unfreed > |mainPacks| { break; }
          }
        }
      }
    }

    method GhostRemove(h: Hash) returns (was: bool)
      modifies this
      ensures View() == GhostTaken(old(View()), h) && was == (GhostKey(h) in old(ghostSet))
    {
      was := GhostKey(h) in ghostSet;
      ghostSet := ghostSet - {GhostKey(h)};
    }

    method TrimGhosts()
      modifies this
      ensures View() == Trimmed(old(View()), GhostCap(old(View())))
    {
      var cap := if |entries| >= GHOST_MIN then |entries| else GHOST_MIN;
      ghost var s := View();
      while |ghosts| > cap
        invariant Trimmed(View(), cap) == Trimmed(s, cap)
        decreases |ghosts|
      {
        ghostSet, ghosts := ghostSet - {ghosts[0]}, ghosts[1..];
      }
    }

    method InsertFrame(h: Hash, f: Bytes) returns (ok: bool)
      requires Valid(None)
      modifies this
      ensures Valid(None) && View() == Inserted(old(View()), h, f)
      ensures ok == (h in old(entries) || |f| < FRAME_LIMIT)
      ensures TakesIn(old(View()), View(), h, f)
    {
      ghost var s := View();
      hide Inv, Append, Evict, Trimmed, Admits, TakesIn;
      TakenIn(s, h, f);
      InsertAdmits(s, h, f);
      AdmitsKeeps(s, Inserted(s, h, f), h, f);
      if h in entries {
        return true;
      }
      AdmitInv(s, h, f);
      var hit := GhostRemove(h);
      TakenInv(s, h);
      ok := AppendFrame(if hit then Main else Small, h, f, 0, None);
      if ok {
        EvictPacks();
        TrimGhosts();
      }
    }

    method PeekFrame(h: Hash) returns (r: Option<FrameRef>)
      requires Valid(None)
      ensures r == if h in entries then Some(PlaceOf(entries[h])) else None
      ensures r.Some? ==>
        r.value.pack in disk && FrameAt(disk[r.value.pack], r.value.offset, r.value.len) == FrameOf(View(), h)
    {
      hide Slots;
      assert EntryOk(View(), h);
      if h !in entries { return None; }
      r := Some(PlaceOf(entries[h]));
    }

    method Bump(h: Hash)
      modifies this`entries
      ensures View() == Bumped(old(View()), h)
    {
      if h in entries {
        var e := entries[h];
        entries := entries[h := e.(freq := if e.freq + 1 <= FREQ_MAX then e.freq + 1 else FREQ_MAX)];
      }
    }

    method LocateFrame(h: Hash) returns (r: Option<FrameRef>)
      requires Valid(None)
      modifies this
      ensures Valid(None) && View() == Bumped(old(View()), h)
      ensures h in old(entries) ==> var e := old(entries)[h];
        entries == old(entries)[h := e.(freq := if e.freq < 3 then e.freq + 1 else 3)]
      ensures r == if h in old(entries) then Some(PlaceOf(old(entries)[h])) else None
      ensures r.Some? ==>
        r.value.pack in disk && FrameAt(disk[r.value.pack], r.value.offset, r.value.len) == FrameOf(old(View()), h)
    {
      hide Inv, FrameAt, FrameOf;
      BumpedInv(View(), None, h);
      Bump(h);
      r := PeekFrame(h);
    }

    method ForgetChunk(h: Hash)
      requires Valid(None)
      modifies this
      ensures Valid(None) && View() == old(View()).(entries := old(entries) - {h})
    {
      InvLocal(View(), View().(entries := entries - {h}), None);
      entries := entries - {h};
    }

    method PinChunks(hashes: seq<Hash>)
      requires Valid(None)
      modifies this`pins
      ensures Valid(None) && pins == Pinned(old(pins), hashes)
    {
      ghost var s := View();
      InvLocal(s, s.(pins := Pinned(s.pins, hashes)), None);
      hide Inv;
      for i := 0 to |hashes|
        invariant pins == Pinned(s.pins, hashes[..i])
      {
        var h := hashes[i];
        assert hashes[..i + 1][..i] == hashes[..i];
        pins := pins[h := if h in pins then pins[h] + 1 else 1];
      }
      assert hashes[..|hashes|] == hashes;
    }

    /** The guard that pinned them is dropped. */
    method UnpinChunks(hashes: seq<Hash>)
      requires Valid(None)
      modifies this`pins
      ensures Valid(None) && pins == Unpinned(old(pins), hashes)
    {
      ghost var s := View();
      InvLocal(s, s.(pins := Unpinned(s.pins, hashes)), None);
      hide Inv;
      for i := 0 to |hashes|
        invariant pins == Unpinned(s.pins, hashes[..i])
      {
        var h := hashes[i];
        assert hashes[..i + 1][..i] == hashes[..i];
        if h in pins {
          if pins[h] <= 1 { pins := pins - {h}; } else { pins := pins[h := pins[h] - 1]; }
        }
      }
      assert hashes[..|hashes|] == hashes;
    }

    /** Open the directory a crash, or a clean stop, left. */
    constructor (ok: (Hash, Bytes) -> bool, img: Image, tail: nat -> Bytes, budget: nat, sealBytes: nat, ids: seq<nat>)
      requires Ascending(ids) && (forall id <- ids :: id in img && IndexFits(img[id])) && sealBytes > 0
      ensures Valid(None) && View() == Open(ok, img, tail, budget, sealBytes, ids)
    {
      this.budget, this.sealBytes := budget, sealBytes;
      entries, packs, smallPacks, mainPacks := map[], map[], [], [];
      activeSmall, activeMain, smallBytes, mainBytes := None, None, 0, 0;
      ghosts, ghostSet, pins, nextId, disk, dir, trace := [], {}, map[], 0, map[], {}, [];
      new;
      OpenInv(ok, img, tail, budget, sealBytes, ids);
      OpenNone(ok, img, tail, budget, sealBytes);
      hide Inv, Intact, Loaded, Open, LoadOne, Slots, Ascending, IndexFits;
      assert ids[..0] == [];
      for i := 0 to |ids|
        invariant View() == Open(ok, img, tail, budget, sealBytes, ids[..i])
      {
        OpenNext(ok, img, tail, budget, sealBytes, ids, i);
        var entries := ReadEntries(ok, img[ids[i]], tail(ids[i]));
        Load(ids[i], entries, Loaded(ok, img[ids[i]], tail(ids[i])));
      }
      assert ids[..|ids|] == ids;
    }

    method LoadIndex(id: nat, index: seq<Slot>)
      modifies this`entries
      ensures entries == Merged(old(entries), id, index)
    {
      for i := 0 to |index|
        invariant entries == Merged(old(entries), id, index[..i])
      {
        assert index[..i + 1][..i] == index[..i];
        entries := entries[index[i].hash := Entry(id, index[i].offset, index[i].len, 0)];
      }
      assert index[..|index|] == index;
    }

    method AddFile(id: nat, f: File)
      modifies this`disk, this`dir, this`nextId
      ensures disk == old(disk)[id := f] && dir == old(dir) + {id}
      ensures nextId == if old(nextId) <= id then id + 1 else old(nextId)
    {
      nextId := if nextId <= id then id + 1 else nextId;
      disk, dir := disk[id := f], dir + {id};
    }

    method AddPack(id: nat, f: File, size: nat)
      modifies this`packs, this`mainPacks, this`mainBytes, this`disk, this`dir, this`nextId
      ensures View() == LoadPack(old(View()), id, f, size)
    {
      AddFile(id, f);
      packs := packs[id := size];
      mainPacks, mainBytes := mainPacks + [id], mainBytes + size;
    }

    method Load(id: nat, index: seq<Slot>, f: File)
      requires index == Slots(f.records)
      modifies this
      ensures View() == LoadOne(old(View()), id, f)
    {
      hide LoadPack, Span, Slots, Merged;
      LoadIndex(id, index);
      AddPack(id, f, Span(f.records));
    }
  }

  lemma AdmitsKeeps(s: Store, t: Store, h: Hash, f: Bytes)
    requires Admits(s, t, h, f)
    ensures Inv(t, None) && t.sealBytes == s.sealBytes
  {}

  lemma TakenInv(s: Store, h: Hash)
    requires Inv(s, None)
    ensures Inv(GhostTaken(s, h), None)
  {
    InvLocal(s, GhostTaken(s, h), None);
  }
}

/**
 A cache over many lives: any calls, a crash at any file operation of any of them, and a
 restart from what the crash left.
 */
module ChunkStoreRestarts {
  import opened Bytes
  import opened Pack
  import opened ChunkStore
  import opened ChunkStoreInv
  import opened ChunkStoreEvict
  import opened ChunkStoreEvictLoop
  import opened ChunkStoreCrash
  import opened ChunkStoreFrames
  import opened ChunkStoreOpen
  import opened ChunkStoreOps
  import opened ChunkStoreRuns
  import opened Graph

  // ---- chunks on disk, through any calls ------------------------------------------------------

  lemma LocalSafe(s: Store, t: Store, h: Hash)
    requires Covered(s, h) && t.trace == s.trace && t.disk == s.disk && t.dir == s.dir
    requires h in t.entries ==> h in s.entries && t.entries[h].(freq := 0) == s.entries[h].(freq := 0)
    ensures Safe(s, t, h)
  {
    if h in t.entries { SavedStays(s, t, h); }
  }

  lemma AdmitPiles(s: Store, g: Hash, f: Bytes)
    requires Inv(s, None) && g !in s.entries
    ensures Piles(s, Append(GhostTaken(s, g), Admission(s, g), g, f, 0), s.entries.Keys + {g})
  {
    var s0, may := GhostTaken(s, g), s.entries.Keys + {g};
    var t := Append(s0, Admission(s, g), g, f, 0);
    InvLocal(s, s0, None);
    hide Inv, Piles, Append;
    LocalPiles(s, s0, may);
    if |f| >= FRAME_LIMIT {
      OpenedPiles(s0, None, Admission(s, g), may);
      Oversized(s0, Admission(s, g), g, f);
    } else {
      AppendPiles(s0, None, Admission(s, g), g, f, 0, may);
    }
    PilesTrans(s, s0, t, may);
  }

  lemma Oversized(s: Store, q: Queue, g: Hash, f: Bytes)
    requires |f| >= FRAME_LIMIT
    ensures Append(s, q, g, f, 0) == Opened(s, q)
  {}

  lemma AdmitKeeps(s: Store, g: Hash, f: Bytes, h: Hash)
    requires Inv(s, None) && g !in s.entries && h in s.entries
    ensures var t := Append(GhostTaken(s, g), Admission(s, g), g, f, 0);
      h in t.entries && t.entries[h] == s.entries[h] && FrameOf(t, h) == FrameOf(s, h)
  {
    hide Inv, Append;
    AdmitInv(s, g, f);
    assert FrameOf(GhostTaken(s, g), h) == FrameOf(s, h);
  }

  lemma AdmitSafe(s: Store, g: Hash, f: Bytes, h: Hash)
    requires Inv(s, None) && g !in s.entries && Saved(s, h)
    ensures Safe(s, Append(GhostTaken(s, g), Admission(s, g), g, f, 0), h)
  {
    hide Inv, Append, Saved, Safe, Extends;
    var t := Append(GhostTaken(s, g), Admission(s, g), g, f, 0);
    assert h in s.entries by { SavedThere(s, h); }
    AdmitPiles(s, g, f);
    AdmitKeeps(s, g, f, h);
    SavedStays(s, t, h);
    PilesSafe(s, t, h, s.entries.Keys + {g});
  }

  lemma SavedThere(s: Store, h: Hash)
    requires Saved(s, h)
    ensures h in s.entries
  {}

  lemma TrimmedSafe(s: Store, h: Hash)
    requires Inv(s, None) && Covered(s, h)
    ensures Safe(s, Trimmed(s, GhostCap(s)), h) && Trimmed(s, GhostCap(s)).entries == s.entries
  {
    TrimmedOk(s, GhostCap(s));
    LocalSafe(s, Trimmed(s, GhostCap(s)), h);
  }

  lemma InsertSafe(s: Store, g: Hash, f: Bytes, h: Hash)
    requires Inv(s, None) && s.sealBytes > 0 && Saved(s, h)
    ensures Safe(s, Inserted(s, g, f), h)
  {
    hide Inv, Append, Evict, Trimmed, Safe, Saved, Thinned;
    SavedThere(s, h);
    if g in s.entries {
      SafeSame(s, h);
    } else {
      var t := Append(GhostTaken(s, g), Admission(s, g), g, f, 0);
      AdmitInv(s, g, f);
      AdmitSafe(s, g, f, h);
      if |f| < FRAME_LIMIT {
        AdmitKeeps(s, g, f, h);
        SafeCovers(s, t, h);
        EvictKeeps(t, 0);
        EvictSafe(t, 0, h);
        var u := Evict(t, 0);
        SafeTrans(s, t, u, h);
        SafeCovers(s, u, h);
        TrimmedSafe(u, h);
        if h in u.entries { ThinnedFrame(t, u, h); }
        SafeTrans(s, u, Trimmed(u, GhostCap(u)), h);
      }
    }
  }

  lemma CallSafe(s: Store, c: Call, h: Hash)
    requires Inv(s, None) && s.sealBytes > 0 && Saved(s, h) && c != Forget(h)
    ensures Safe(s, Called(s, c), h)
    ensures h in Called(s, c).entries ==> FrameOf(Called(s, c), h) == FrameOf(s, h)
  {
    hide Inv, Inserted, Safe;
    if c.Insert? {
      InsertSafe(s, c.hash, c.frame, h);
      InsertAdmits(s, c.hash, c.frame);
      InsertSame(s, c.hash, c.frame);
    } else {
      QuietCall(s, c);
      LocalSafe(s, Called(s, c), h);
    }
  }

  lemma InsertSame(s: Store, g: Hash, f: Bytes)
    requires Inv(s, None) && s.sealBytes > 0
    ensures g in s.entries ==> Inserted(s, g, f) == s
  {}

  /** The cache has the chunk before each of the calls. */
  ghost predicate AlwaysThere(s: Store, calls: seq<Call>, h: Hash)
    requires Inv(s, None) && s.sealBytes > 0
  {
    forall k | 0 <= k < |calls| :: h in After(s, calls[..k]).entries
  }

  lemma ThereRest(s: Store, calls: seq<Call>, h: Hash)
    requires Inv(s, None) && s.sealBytes > 0 && calls != [] && AlwaysThere(s, calls, h)
    ensures AlwaysThere(s, calls[..|calls| - 1], h) && h in After(s, calls[..|calls| - 1]).entries
  {
    hide Inv, After;
    var rest := calls[..|calls| - 1];
    forall k | 0 <= k < |rest|
      ensures h in After(s, rest[..k]).entries
    {
      assert rest[..k] == calls[..k];
    }
  }

  /**
   Through any calls: as long as the cache has a chunk that was on disk, it is on disk at
   every moment, in a synced record of a listed pack.
   */
  lemma {:induction false} RunSafe(s: Store, calls: seq<Call>, h: Hash)
    requires Inv(s, None) && s.sealBytes > 0 && Saved(s, h) && Forget(h) !in calls && AlwaysThere(s, calls, h)
    ensures Safe(s, After(s, calls), h)
    ensures h in After(s, calls).entries ==> FrameOf(After(s, calls), h) == FrameOf(s, h)
    decreases |calls|
  {
    hide Inv, Filled, Called, Safe, Saved, AlwaysThere, FrameOf, Covered;
    if calls == [] {
      SavedCovers(s, h);
      SafeSame(s, h);
    } else {
      var rest, c := calls[..|calls| - 1], calls[|calls| - 1];
      assert c in calls;
      ThereRest(s, calls, h);
      RunSafe(s, rest, h);
      var t := After(s, rest);
      SafeSaves(s, t, h);
      CallSafe(t, c, h);
      SavedThere(s, h);
      SafeTrans(s, t, Called(t, c), h);
    }
  }

  lemma SavedCovers(s: Store, h: Hash)
    requires Saved(s, h)
    ensures Covered(s, h)
  {}

  lemma SafeSaves(s: Store, t: Store, h: Hash)
    requires Safe(s, t, h) && h in t.entries
    ensures Saved(t, h)
  {}

  // ---- a crash anywhere -----------------------------------------------------------------------

  /** No synced record of the chunk sits behind one that a scan would reject. */
  ghost predicate Unhidden(ok: (Hash, Bytes) -> bool, img: Image, h: Hash)
  {
    forall id <- img :: forall k: nat | k < |img[id].records| && k < img[id].synced && img[id].records[k].hash == h ::
      Recoverable(ok, img[id], k)
  }

  lemma DurableAssured(ok: (Hash, Bytes) -> bool, img: Image, h: Hash, frame: Bytes)
    requires Durable(img, h, frame) && Unhidden(ok, img, h)
    ensures Assured(ok, img, h)
  {
    var id :| id in img && Holds(img[id], h, frame);
    var k: nat :| k < |img[id].records| && k < img[id].synced && img[id].records[k].hash == h
      && img[id].records[k].frame == frame;
    assert Recoverable(ok, img[id], k);
  }

  lemma SafeDurable(s: Store, t: Store, h: Hash, i: nat)
    requires Safe(s, t, h) && |s.trace| <= i < |t.trace| && h in t.trace[i].entries.Keys
    ensures Durable(t.trace[i].files, h, FrameOf(s, h))
  {}

  /**
   Crash after any file operation of any run of calls and reopen. A chunk that was on disk
   and that the cache still had at that moment is on disk, and is found again, however the
   unsynced bytes ended up, unless a frame that does not verify hides it from the scan.
   */
  lemma CrashAnywhere(ok: (Hash, Bytes) -> bool, s: Store, calls: seq<Call>, h: Hash, i: nat, budget: nat,
        sealBytes: nat, ids: seq<nat>)
    requires Inv(s, None) && s.sealBytes > 0 && Saved(s, h) && Forget(h) !in calls && AlwaysThere(s, calls, h)
    requires |s.trace| <= i < |After(s, calls).trace| && h in After(s, calls).trace[i].entries.Keys
    requires Ascending(ids) && Elems(ids) == After(s, calls).trace[i].files.Keys
    ensures var img := After(s, calls).trace[i].files;
      Durable(img, h, FrameOf(s, h)) && (Unhidden(ok, img, h) ==> AlwaysFound(ok, img, budget, sealBytes, ids, h))
  {
    hide Inv, Filled, Saved, Safe, Durable, Unhidden, Assured, AlwaysFound, FrameOf, AlwaysThere, After;
    RunSafe(s, calls, h);
    var t := After(s, calls);
    SafeDurable(s, t, h, i);
    var img := t.trace[i].files;
    if Unhidden(ok, img, h) {
      DurableAssured(ok, img, h, FrameOf(s, h));
      ReopenFindsIff(ok, img, budget, sealBytes, ids, h);
    }
  }

  /** All an opened cache has is on disk, so the same holds of its life. */
  lemma OpenedSaves(ok: (Hash, Bytes) -> bool, img: Image, tail: nat -> Bytes, budget: nat, sealBytes: nat,
        ids: seq<nat>, h: Hash)
    requires Ascending(ids) && Elems(ids) == img.Keys && h in Open(ok, img, tail, budget, sealBytes, ids).entries
    ensures Saved(Open(ok, img, tail, budget, sealBytes, ids), h)
  {
    hide Open, Loaded, Slots;
    assert forall k <- ids :: k in img by { assert forall k <- ids :: k in Elems(ids); }
    OpenInv(ok, img, tail, budget, sealBytes, ids);
    OpenHolds(ok, img, tail, budget, sealBytes, ids, h);
    var t := Open(ok, img, tail, budget, sealBytes, ids);
    assert EntryOk(t, h);
    var e := t.entries[h];
    assert e.pack in Elems(ids);
    LoadedSynced(ok, img[e.pack], tail(e.pack));
    var k := SlotFrame(t.disk[e.pack], h, e.offset, e.len);
  }

  lemma LoadedSynced(ok: (Hash, Bytes) -> bool, f: File, tail: Bytes)
    ensures Loaded(ok, f, tail).synced == |Loaded(ok, f, tail).records|
  {}

  // ---- where records come from ------------------------------------------------------------------

  lemma AdmitGood(s: Store, h: Hash, f: Bytes, good: Record -> bool)
    requires Inv(s, None) && AllGood(s.disk, good) && (|f| < FRAME_LIMIT ==> good(Record(h, f))) && h !in s.entries
    ensures Vouches(s, Append(GhostTaken(s, h), Admission(s, h), h, f, 0), good)
  {
    var s0 := GhostTaken(s, h);
    InvLocal(s, s0, None);
    hide Inv, Append, Vouches, AllGood;
    VouchesOne(s, s0, good);
    if |f| < FRAME_LIMIT {
      AppendGood(s0, None, Admission(s, h), h, f, 0, good);
    } else {
      OpenedGood(s0, Admission(s, h), good);
      Oversized(s0, Admission(s, h), h, f);
    }
    VouchesTrans(s, s0, Append(s0, Admission(s, h), h, f, 0), good);
  }

  lemma TrimmedGood(s: Store, good: Record -> bool)
    requires Inv(s, None) && AllGood(s.disk, good)
    ensures Vouches(s, Trimmed(s, GhostCap(s)), good)
  {
    TrimmedOk(s, GhostCap(s));
    VouchesOne(s, Trimmed(s, GhostCap(s)), good);
  }

  lemma InsertGood(s: Store, h: Hash, f: Bytes, good: Record -> bool)
    requires Inv(s, None) && s.sealBytes > 0 && AllGood(s.disk, good) && (|f| < FRAME_LIMIT ==> good(Record(h, f)))
    ensures Vouches(s, Inserted(s, h, f), good)
  {
    hide Inv, Append, Evict, Trimmed, Vouches, AllGood;
    if h in s.entries {
      VouchesOne(s, s, good);
    } else {
      var t := Append(GhostTaken(s, h), Admission(s, h), h, f, 0);
      AdmitInv(s, h, f);
      AdmitGood(s, h, f, good);
      if |f| < FRAME_LIMIT {
        VouchesGood(s, t, good);
        EvictKeeps(t, 0);
        EvictGood(t, 0, good);
        var u := Evict(t, 0);
        VouchesGood(t, u, good);
        TrimmedGood(u, good);
        VouchesTrans(s, t, u, good);
        VouchesTrans(s, u, Trimmed(u, GhostCap(u)), good);
      }
    }
  }

  /** The record a call adds, if it adds one. */
  predicate Adds(c: Call, r: Record) { c.Insert? && c.hash == r.hash && c.frame == r.frame }

  lemma CallGood(s: Store, c: Call, good: Record -> bool)
    requires Inv(s, None) && s.sealBytes > 0 && AllGood(s.disk, good) && forall r: Record :: Adds(c, r) ==> good(r)
    ensures Vouches(s, Called(s, c), good)
  {
    if c.Insert? {
      assert |c.frame| < FRAME_LIMIT ==> Adds(c, Record(c.hash, c.frame));
      InsertGood(s, c.hash, c.frame, good);
    } else {
      VouchesOne(s, Called(s, c), good);
    }
  }

  /** What holds of all stored and all inserted records holds of all records in all directories. */
  lemma {:induction false} RunGood(s: Store, calls: seq<Call>, good: Record -> bool)
    requires Inv(s, None) && s.sealBytes > 0 && AllGood(s.disk, good)
    requires forall c <- calls, r: Record :: Adds(c, r) ==> good(r)
    ensures Vouches(s, After(s, calls), good)
    decreases |calls|
  {
    hide Inv, Filled, Called, Vouches, AllGood, Adds;
    if calls == [] {
      VouchesOne(s, s, good);
    } else {
      var rest, c := calls[..|calls| - 1], calls[|calls| - 1];
      assert c in calls;
      RunGood(s, rest, good);
      var t := After(s, rest);
      VouchesGood(s, t, good);
      CallGood(t, c, good);
      VouchesTrans(s, t, Called(t, c), good);
    }
  }

  lemma GoodUnhidden(ok: (Hash, Bytes) -> bool, img: Image, h: Hash)
    requires AllGood(img, (r: Record) => ok(r.hash, r.frame))
    ensures Unhidden(ok, img, h)
  {
    hide Slots;
    forall id, k: nat | id in img && k < |img[id].records| && k < img[id].synced && img[id].records[k].hash == h
      ensures Recoverable(ok, img[id], k)
    {
      assert forall j | 0 <= j <= k :: img[id].records[j] in img[id].records;
    }
  }

  lemma OpenReadsGood(
      ok: (Hash, Bytes) -> bool, img: Image, tail: nat -> Bytes, budget: nat, sealBytes: nat, ids: seq<nat>,
      good: Record -> bool)
    requires Ascending(ids) && Elems(ids) == img.Keys && AllGood(img, good)
    requires forall r: Record :: ok(r.hash, r.frame) ==> good(r)
    ensures AllGood(Open(ok, img, tail, budget, sealBytes, ids).disk, good)
  {
    hide Open, Loaded, Inv;
    assert forall k <- ids :: k in img by { assert forall k <- ids :: k in Elems(ids); }
    OpenHolds(ok, img, tail, budget, sealBytes, ids, seq(32, _ => 0));
    OpenInv(ok, img, tail, budget, sealBytes, ids);
    var t := Open(ok, img, tail, budget, sealBytes, ids);
    forall id | id in t.disk
      ensures FileGood(t.disk[id], good)
    {
      assert id in Elems(ids);
      LoadedFrom(ok, img[id], tail(id), good);
    }
  }

  lemma LoadedFrom(ok: (Hash, Bytes) -> bool, f: File, tail: Bytes, good: Record -> bool)
    requires (forall r <- f.records :: good(r)) && forall r: Record :: ok(r.hash, r.frame) ==> good(r)
    ensures FileGood(Loaded(ok, f, tail), good)
  {
    IntactSound(ok, Left(f, tail));
  }

  lemma ReadsGood(s: Store, h: Hash, good: Record -> bool)
    requires Inv(s, None) && h in s.entries && AllGood(s.disk, good)
    ensures |FrameOf(s, h)| < FRAME_LIMIT && good(Record(h, FrameOf(s, h)))
  {
    hide FrameOf, Inv;
    var r := ReadsRecord(s, h);
    assert r == Record(h, FrameOf(s, h));
  }

  /** A cache that takes only frames that verify finds its chunks after a crash, and reads what verifies. */
  lemma VerifiedCrash(
      ok: (Hash, Bytes) -> bool, s: Store, calls: seq<Call>, h: Hash, i: nat,
      tail: nat -> Bytes, budget: nat, sealBytes: nat, ids: seq<nat>)
    requires Inv(s, None) && s.sealBytes > 0 && Saved(s, h) && Forget(h) !in calls && AlwaysThere(s, calls, h)
    requires |s.trace| <= i < |After(s, calls).trace| && h in After(s, calls).trace[i].entries.Keys
    requires Ascending(ids) && Elems(ids) == After(s, calls).trace[i].files.Keys
    requires AllGood(s.disk, (r: Record) => ok(r.hash, r.frame))
    requires forall c <- calls, r: Record :: Adds(c, r) ==> ok(r.hash, r.frame)
    ensures var t := Open(ok, After(s, calls).trace[i].files, tail, budget, sealBytes, ids);
      h in t.entries && ok(h, FrameOf(t, h))
  {
    hide Inv, Filled, Saved, Durable, Unhidden, FrameOf, AlwaysThere, After, Open, AllGood, Adds, Fresh;
    var good := (r: Record) => ok(r.hash, r.frame);
    CrashAnywhere(ok, s, calls, h, i, budget, sealBytes, ids);
    RunGood(s, calls, good);
    var img := After(s, calls).trace[i].files;
    GoodUnhidden(ok, img, h);
    OpenReadsGood(ok, img, tail, budget, sealBytes, ids, good);
    OpenedOrder(ok, img, tail, budget, sealBytes, ids);
    ReadsGood(Open(ok, img, tail, budget, sealBytes, ids), h, good);
  }

  lemma OpenedOrder(ok: (Hash, Bytes) -> bool, img: Image, tail: nat -> Bytes, budget: nat, sealBytes: nat,
        ids: seq<nat>)
    requires Ascending(ids) && Elems(ids) == img.Keys
    ensures var t := Open(ok, img, tail, budget, sealBytes, ids);
      Inv(t, None) && t.sealBytes == sealBytes && t.dir == img.Keys && forall id <- ids :: id in img
  {
    hide Inv, Open;
    assert forall k <- ids :: k in img by { assert forall k <- ids :: k in Elems(ids); }
    OpenInv(ok, img, tail, budget, sealBytes, ids);
    OpenLimits(ok, img, tail, budget, sealBytes, ids);
  }

  lemma {:induction false} OpenLimits(ok: (Hash, Bytes) -> bool, img: Image, tail: nat -> Bytes, budget: nat,
        sealBytes: nat, ids: seq<nat>)
    ensures Open(ok, img, tail, budget, sealBytes, ids).sealBytes == sealBytes
  {
    hide Loaded;
    if ids != [] { OpenLimits(ok, img, tail, budget, sealBytes, ids[..|ids| - 1]); }
  }

  // ---- lives ------------------------------------------------------------------------------------

  /** A call returns, or the process dies `at` file operations into it and is started again. */
  datatype Event = Did(call: Call) | Died(call: Call, at: nat, tail: nat -> Bytes, budget: nat, ids: seq<nat>)

  /** The directory `at` file operations into a call. */
  ghost function DirectoryAt(s: Store, c: Call, at: nat): Image
    requires Inv(s, None) && s.sealBytes > 0
  {
    var t := Called(s, c);
    if 0 < at && |s.trace| + at <= |t.trace| then t.trace[|s.trace| + at - 1].files else Now(s)
  }

  ghost predicate Listing(s: Store, e: Event)
    requires Inv(s, None) && s.sealBytes > 0 && e.Died?
  {
    Ascending(e.ids) && Elems(e.ids) == DirectoryAt(s, e.call, e.at).Keys
  }

  /** An event whose directory listing is not the one found does not happen. */
  ghost function Happened(ok: (Hash, Bytes) -> bool, s: Store, e: Event): Store
    requires Inv(s, None) && s.sealBytes > 0
  {
    if e.Did? then Called(s, e.call)
    else if Listing(s, e) then Open(ok, DirectoryAt(s, e.call, e.at), e.tail, e.budget, SealBytes(e.budget), e.ids)
    else s
  }

  lemma HappenedInv(ok: (Hash, Bytes) -> bool, s: Store, e: Event)
    requires Inv(s, None) && s.sealBytes > 0
    ensures Inv(Happened(ok, s, e), None) && Happened(ok, s, e).sealBytes > 0
  {
    hide Inv, Open, DirectoryAt, Called;
    if e.Did? {
      CallInv(s, e.call);
    } else if Listing(s, e) {
      OpenedOrder(ok, DirectoryAt(s, e.call, e.at), e.tail, e.budget, SealBytes(e.budget), e.ids);
    }
  }

  ghost function Lived(ok: (Hash, Bytes) -> bool, s: Store, events: seq<Event>): (t: Store)
    requires Inv(s, None) && s.sealBytes > 0
    ensures Inv(t, None) && t.sealBytes > 0
    decreases |events|
  {
    hide Inv, Happened;
    if events == [] then s else
      var u := Lived(ok, s, events[..|events| - 1]);
      HappenedInv(ok, u, events[|events| - 1]);
      Happened(ok, u, events[|events| - 1])
  }

  lemma NowGood(s: Store, good: Record -> bool)
    requires AllGood(s.disk, good)
    ensures AllGood(Now(s), good)
  {}

  lemma DirectoryGood(s: Store, c: Call, at: nat, good: Record -> bool)
    requires Inv(s, None) && s.sealBytes > 0 && AllGood(s.disk, good) && forall r: Record :: Adds(c, r) ==> good(r)
    ensures AllGood(DirectoryAt(s, c, at), good)
  {
    hide Inv, Called, AllGood, Adds, Now;
    CallGood(s, c, good);
    NowGood(s, good);
  }

  lemma EventGood(ok: (Hash, Bytes) -> bool, s: Store, e: Event, good: Record -> bool)
    requires Inv(s, None) && s.sealBytes > 0 && AllGood(s.disk, good)
    requires (forall r: Record :: Adds(e.call, r) ==> good(r)) && forall r: Record :: ok(r.hash, r.frame) ==> good(r)
    ensures AllGood(Happened(ok, s, e).disk, good)
  {
    hide Inv, Called, AllGood, Adds, Open, DirectoryAt, Vouches;
    if e.Did? {
      CallGood(s, e.call, good);
      VouchesGood(s, Called(s, e.call), good);
    } else if Listing(s, e) {
      var img := DirectoryAt(s, e.call, e.at);
      DirectoryGood(s, e.call, e.at, good);
      OpenReadsGood(ok, img, e.tail, e.budget, SealBytes(e.budget), e.ids, good);
    }
  }

  lemma {:induction false} LivesGood(ok: (Hash, Bytes) -> bool, s: Store, events: seq<Event>, good: Record -> bool)
    requires Inv(s, None) && s.sealBytes > 0 && AllGood(s.disk, good)
    requires (forall e <- events, r: Record :: Adds(e.call, r) ==> good(r))
    requires forall r: Record :: ok(r.hash, r.frame) ==> good(r)
    ensures AllGood(Lived(ok, s, events).disk, good)
    decreases |events|
  {
    hide Inv, AllGood, Adds, Happened;
    if events != [] {
      var rest, e := events[..|events| - 1], events[|events| - 1];
      assert e in events;
      LivesGood(ok, s, rest, good);
      EventGood(ok, Lived(ok, s, rest), e, good);
    }
  }

  /** A record was there at the start, or a call added it, or it verifies. */
  ghost predicate Stored(ok: (Hash, Bytes) -> bool, s: Store, events: seq<Event>, r: Record)
  {
    || (exists id :: id in s.disk && r in s.disk[id].records)
    || (exists e :: e in events && Adds(e.call, r))
    || ok(r.hash, r.frame)
  }

  lemma StartGood(s: Store, good: Record -> bool)
    requires Inv(s, None) && forall id <- s.disk, r <- s.disk[id].records :: good(r)
    ensures AllGood(s.disk, good)
  {
    assert forall id <- s.disk :: SealedOk(s, id);
  }

  /** Through any number of crashes and restarts, a hit is a frame someone stored under that hash. */
  lemma LivesGenuine(ok: (Hash, Bytes) -> bool, s: Store, events: seq<Event>, h: Hash)
    requires Inv(s, None) && s.sealBytes > 0 && h in Lived(ok, s, events).entries
    ensures var f := FrameOf(Lived(ok, s, events), h); |f| < FRAME_LIMIT && Stored(ok, s, events, Record(h, f))
  {
    hide Inv, Lived, Adds, FrameOf;
    var good := (r: Record) => Stored(ok, s, events, r);
    StartGood(s, good);
    LivesGood(ok, s, events, good);
    ReadsGood(Lived(ok, s, events), h, good);
  }

  // ---- what a restart brings back -----------------------------------------------------------------

  /** Nothing is lost: every listed pack is loaded as it was written. */
  predicate Whole(ok: (Hash, Bytes) -> bool, img: Image, tail: nat -> Bytes)
  {
    forall id <- img :: Loaded(ok, img[id], tail(id)).records == img[id].records
  }

  /**
   After a restart that lost nothing the entry of a chunk is the one before exactly if no
   other record of it is later in the same pack or in a listed pack with a higher id.
   */
  lemma RestartCurrentIff(ok: (Hash, Bytes) -> bool, s: Store, tail: nat -> Bytes, budget: nat, sealBytes: nat,
        ids: seq<nat>, h: Hash)
      returns (k: nat)
    requires Inv(s, None) && h in s.entries && Ascending(ids) && Elems(ids) == Now(s).Keys && Whole(ok, Now(s), tail)
    ensures s.entries[h].pack in Now(s) && k < |Now(s)[s.entries[h].pack].records|
    ensures var e, t := s.entries[h], Open(ok, Now(s), tail, budget, sealBytes, ids);
      && Now(s)[e.pack].records[k].hash == h && Now(s)[e.pack].records[k].frame == FrameOf(s, h) && h in t.entries
      && (t.entries[h] == e.(freq := 0) <==> Newest(Now(s), h, e.pack, k))
      && (Newest(Now(s), h, e.pack, k) ==> FrameOf(t, h) == FrameOf(s, h))
  {
    hide Inv, Loaded, Open, FrameOf, Slots;
    var img, e := Now(s), s.entries[h];
    k := CurrentRecord(s, h);
    assert e.pack in Elems(ids);
    assert forall j <- ids :: j in img by { assert forall j <- ids :: j in Elems(ids); }
    ReopenReadsIff(ok, img, tail, budget, sealBytes, ids, h, e.pack, k);
    OpenHolds(ok, img, tail, budget, sealBytes, ids, h);
    OpenInv(ok, img, tail, budget, sealBytes, ids);
    NewestSame(Open(ok, img, tail, budget, sealBytes, ids).disk, img, ids, h, e.pack, k);
  }

  lemma CurrentRecord(s: Store, h: Hash) returns (k: nat)
    requires Inv(s, None) && h in s.entries
    ensures var e := s.entries[h];
      && e.pack in Now(s) && k < |Now(s)[e.pack].records|
      && Now(s)[e.pack].records[k].hash == h && Now(s)[e.pack].records[k].frame == FrameOf(s, h)
      && |Slots(Now(s)[e.pack].records)| == |Now(s)[e.pack].records|
      && Slots(Now(s)[e.pack].records)[k] == Slot(h, e.offset, e.len)
  {
    assert EntryOk(s, h);
    var e := s.entries[h];
    k := SlotFrame(s.disk[e.pack], h, e.offset, e.len);
  }

  lemma NewestSame(a: Image, b: Image, ids: seq<nat>, h: Hash, id: nat, k: nat)
    requires a.Keys == Elems(ids) && b.Keys == Elems(ids)
    requires forall j <- ids :: j in a && j in b && a[j].records == b[j].records
    ensures Newest(a, h, id, k) <==> Newest(b, h, id, k)
  {
    assert forall j <- a :: j in Elems(ids) && j in ids;
    assert forall j <- a :: Names(a[j], h) <==> Names(b[j], h);
  }

  /** A chunk forgotten while its record is in a sealed pack is back after any restart. */
  lemma ForgottenReturns(ok: (Hash, Bytes) -> bool, s: Store, h: Hash, budget: nat, sealBytes: nat, ids: seq<nat>)
    requires Inv(s, None) && s.sealBytes > 0 && h in s.entries && s.entries[h].pack in s.packs
    requires Ascending(ids) && Elems(ids) == Now(Called(s, Forget(h))).Keys
    ensures AlwaysFound(ok, Now(Called(s, Forget(h))), budget, sealBytes, ids, h)
  {
    var t := Called(s, Forget(h));
    var k := CurrentRecord(s, h);
    assert SealedOk(s, s.entries[h].pack);
    assert Now(t) == Now(s);
    assert Recoverable(ok, Now(t)[s.entries[h].pack], k);
    ReopenFindsIff(ok, Now(t), budget, sealBytes, ids, h);
  }
}

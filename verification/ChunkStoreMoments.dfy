/**
 Chunks that reach the disk in the middle of a call. From the moment at which the copy in
 use is synced, it stays on disk as long as the map has it.
 */
module ChunkStoreMoments {
  import opened Bytes
  import opened Pack
  import opened ChunkStore
  import opened ChunkStoreInv
  import opened ChunkStoreEvict
  import opened ChunkStoreBudget
  import opened ChunkStoreEvictLoop
  import opened ChunkStoreCrash
  import opened ChunkStoreOps
  import opened ChunkStoreRuns
  import opened ChunkStoreRestarts
  import opened ChunkStoreOpen
  import opened Graph

  // ---- moments ------------------------------------------------------------------------------------

  /** What the map's entry for the chunk reads at that moment. */
  function FrameThen(m: Moment, h: Hash): Bytes
  {
    if h in m.entries && m.entries[h].pack in m.files then
      FrameAt(m.files[m.entries[h].pack], m.entries[h].offset, m.entries[h].len)
    else []
  }

  /** At that moment the copy in use is in the synced part of its pack. */
  predicate SavedThen(m: Moment, h: Hash)
  {
    h in m.entries && var e := m.entries[h];
      && e.pack in m.files
      && exists k ::
           && 0 <= k < |Slots(m.files[e.pack].records)| && k < m.files[e.pack].synced
           && Slots(m.files[e.pack].records)[k] == Slot(h, e.offset, e.len)
  }

  function MomentOf(s: Store): Moment { Moment(Now(s), s.entries) }

  lemma SavedNow(s: Store, h: Hash)
    ensures SavedThen(MomentOf(s), h) <==> Saved(s, h)
    ensures h in s.entries && s.entries[h].pack in s.dir ==> FrameThen(MomentOf(s), h) == FrameOf(s, h)
  {}

  /** From moment `i` on the chunk is on disk whenever the map has it, and is now. */
  predicate SafeFrom(t: Store, h: Hash, i: nat, frame: Bytes)
  {
    && (h in t.entries ==> Saved(t, h) && FrameOf(t, h) == frame)
    && forall j | i <= j < |t.trace| :: SafeAt(t.trace[j], h, frame)
  }

  /** So it is from each moment since `s` at which the copy in use is synced. */
  predicate Mid(s: Store, t: Store, h: Hash)
  {
    && s.trace <= t.trace
    && forall i | |s.trace| <= i < |t.trace| && SavedThen(t.trace[i], h) :: SafeFrom(t, h, i, FrameThen(t.trace[i], h))
  }

  lemma MidLocal(s: Store, t: Store, h: Hash)
    requires t.trace == s.trace
    ensures Mid(s, t, h)
  {}

  /** One file operation. */
  lemma MidOne(s: Store, t: Store, h: Hash)
    requires t.trace == s.trace + [MomentOf(t)]
    ensures Mid(s, t, h)
  {
    hide SavedThen, Saved, Durable, FrameThen;
    SavedNow(t, h);
    if SavedThen(MomentOf(t), h) {
      SavedThere(t, h);
      SavedListed(t, h);
      SavedDurable(t, h);
    }
  }

  lemma SavedListed(s: Store, h: Hash)
    requires Saved(s, h)
    ensures s.entries[h].pack in s.dir
  {}

  /** Until now the map did not have the chunk. */
  lemma MidSkip(s: Store, t: Store, u: Store, h: Hash)
    requires s.trace <= t.trace && Mid(t, u, h) && forall i | |s.trace| <= i < |t.trace| :: h !in t.trace[i].entries
    ensures Mid(s, u, h)
  {
    hide SafeFrom;
    assert forall k | 0 <= k < |t.trace| :: u.trace[k] == t.trace[k];
  }

  /** If the second part keeps a chunk on disk, both together do. */
  predicate Carries(t: Store, u: Store, h: Hash)
  {
    && t.trace <= u.trace && (Covered(t, h) ==> Safe(t, u, h))
    && (h in u.entries ==> h in t.entries && FrameOf(u, h) == FrameOf(t, h))
  }

  lemma MidTrans(s: Store, t: Store, u: Store, h: Hash)
    requires Mid(s, t, h) && Mid(t, u, h) && Carries(t, u, h)
    ensures Mid(s, u, h)
  {
    hide SavedThen, Saved, Durable, FrameThen, FrameOf;
    forall i | |s.trace| <= i < |u.trace| && SavedThen(u.trace[i], h)
      ensures SafeFrom(u, h, i, FrameThen(u.trace[i], h))
    {
      if i < |t.trace| {
        assert u.trace[i] == t.trace[i];
        SafeOn(t, u, h, i, FrameThen(t.trace[i], h));
      }
    }
  }

  lemma SafeOn(t: Store, u: Store, h: Hash, i: nat, frame: Bytes)
    requires SafeFrom(t, h, i, frame) && i < |t.trace| && Carries(t, u, h)
    ensures SafeFrom(u, h, i, frame)
  {
    hide Saved, Durable, FrameOf;
    forall j | i <= j < |u.trace|
      ensures SafeAt(u.trace[j], h, frame)
    {
      if j < |t.trace| { assert u.trace[j] == t.trace[j]; }
    }
  }

  lemma CarriesTrans(s: Store, t: Store, u: Store, h: Hash)
    requires Carries(s, t, h) && Carries(t, u, h)
    ensures Carries(s, u, h)
  {
    if Covered(s, h) {
      hide Saved, SafeAt, FrameOf;
      SafeTrans(s, t, u, h);
    }
  }

  lemma CarriesSame(s: Store, h: Hash)
    ensures Carries(s, s, h)
  {}

  // ---- appending ------------------------------------------------------------------------------------

  /** Files only grew, and the chunk's entry is where it was. */
  lemma PilesCarry(s: Store, t: Store, h: Hash, may: set<Hash>)
    requires Piles(s, t, may) && (h in may ==> h in s.entries)
    requires h in t.entries ==>
      && h in s.entries && t.entries[h].(freq := 0) == s.entries[h].(freq := 0)
      && FrameOf(t, h) == FrameOf(s, h)
    ensures Carries(s, t, h)
  {
    hide Saved, Extends, FrameOf, Durable;
    if Covered(s, h) {
      if h in t.entries { SavedStays(s, t, h); }
      PilesSafe(s, t, h, may);
    }
  }

  lemma OpenedMid(s: Store, out: Retiring, q: Queue, h: Hash)
    requires Inv(s, out)
    ensures Mid(s, Opened(s, q), h) && Carries(s, Opened(s, q), h)
  {
    OpenedInv(s, out, q);
    OpenedPiles(s, out, q, s.entries.Keys);
    var t := Opened(s, q);
    if Get(s, q).active.None? { MidOne(s, t, h); } else { MidLocal(s, t, h); }
    hide Inv, Opened, Piles;
    PilesCarry(s, t, h, s.entries.Keys);
  }

  lemma SealedMid(s: Store, out: Retiring, q: Queue, h: Hash)
    requires Inv(s, out)
    ensures Mid(s, Sealed(s, q), h) && Carries(s, Sealed(s, q), h)
  {
    hide Inv, Sealed, Piles, Mid, Carries, Silent, FrameOf;
    SealedInv(s, out, q);
    SilentFrames(s, Sealed(s, q), h);
    SealedPiles(s, out, q, s.entries.Keys);
    PilesCarry(s, Sealed(s, q), h, s.entries.Keys);
    if Get(s, q).active.Some? {
      WriterThere(s, out, q);
      EntryThere(s, out, h);
      SealedSteps(s, q, h);
    } else {
      SealedNothing(s, q);
      MidLocal(s, Sealed(s, q), h);
    }
  }

  lemma SilentFrames(s: Store, t: Store, h: Hash)
    requires Silent(s, t)
    ensures t.entries == s.entries && FrameOf(t, h) == FrameOf(s, h)
  {}

  lemma EntryThere(s: Store, out: Retiring, h: Hash)
    requires Inv(s, out)
    ensures h in s.entries ==> s.entries[h].pack in s.disk && s.entries[h].pack in s.dir
  {
    assert EntryOk(s, h);
  }

  lemma SealedNothing(s: Store, q: Queue)
    requires Get(s, q).active.None?
    ensures Sealed(s, q) == s
  {}

  lemma SealedSteps(s: Store, q: Queue, h: Hash)
    requires Get(s, q).active.Some? && Get(s, q).active.value.id in s.disk
      && (h in s.entries ==> s.entries[h].pack in s.disk)
    ensures Mid(s, Sealed(s, q), h)
  {
    var m, t := Flushed(s, Get(s, q).active.value.id), Sealed(s, q);
    assert t.trace == m.trace + [MomentOf(t)] && m.trace == s.trace + [MomentOf(m)];
    hide Mid, Carries, MomentOf, FrameOf;
    FlushedCarries(s, m, t, h);
    MidOne(s, m, h);
    MidOne(m, t, h);
    MidTrans(s, m, t, h);
  }

  /** Between the sync and the index nothing moves. */
  lemma FlushedCarries(s: Store, m: Store, t: Store, h: Hash)
    requires m.entries == s.entries && t.entries == s.entries && m.dir == t.dir && t.trace == m.trace + [MomentOf(t)]
    requires forall id <- m.disk ::
      id in t.disk && t.disk[id].records == m.disk[id].records && t.disk[id].synced == m.disk[id].synced
    requires h in s.entries ==> s.entries[h].pack in m.disk
    ensures Carries(m, t, h)
  {
    assert FrameOf(t, h) == FrameOf(m, h);
    PilesOne(m, t, m.entries.Keys);
    hide Saved, FrameOf, Durable, Extends;
    PilesCarry(m, t, h, m.entries.Keys);
  }

  lemma WrittenMid(s: Store, q: Queue, g: Hash, f: Frame, freq: nat, h: Hash)
    requires Get(s, q).active.Some? && Get(s, q).active.value.id in s.disk
    ensures Mid(s, Written(s, q, g, f, freq), h)
  {
    MidOne(s, Written(s, q, g, f, freq), h);
  }

  /** A write of another chunk. */
  lemma WrittenCarries(s: Store, out: Retiring, q: Queue, g: Hash, f: Frame, freq: nat, h: Hash)
    requires Inv(s, out) && Get(s, q).active.Some? && freq <= FREQ_MAX && g !in s.entries && h != g
    ensures Carries(s, Written(s, q, g, f, freq), h)
  {
    hide Inv, Written, Piles, Carries, FrameOf, Gained;
    WriterThere(s, out, q);
    WrittenInv(s, out, q, g, f, freq);
    WrittenPiles(s, q, g, f, freq, s.entries.Keys + {g});
    GainedOther(s, Written(s, q, g, f, freq), q, g, f, freq, h);
    PilesCarry(s, Written(s, q, g, f, freq), h, s.entries.Keys + {g});
  }

  lemma GainedOther(s: Store, t: Store, q: Queue, g: Hash, f: Bytes, freq: nat, h: Hash)
    requires Gained(s, t, q, g, f, freq) && h != g
    ensures (h in t.entries <==> h in s.entries)
      && (h in s.entries ==> t.entries[h] == s.entries[h] && FrameOf(t, h) == FrameOf(s, h))
  {}

  /** Appending a chunk, seen by that chunk and by others. */
  lemma AppendMid(s: Store, out: Retiring, q: Queue, g: Hash, f: Frame, freq: nat, h: Hash)
    requires Inv(s, out) && freq <= FREQ_MAX && g !in s.entries
    ensures Mid(s, Append(s, q, g, f, freq), h) && (h != g ==> Carries(s, Append(s, q, g, f, freq), h))
  {
    hide Inv, Opened, Written, Sealed, Mid, Carries, Silent, Gained;
    var s1 := Opened(s, q);
    OpenedInv(s, out, q);
    SilentSame(s, s1);
    WriterThere(s1, out, q);
    OpenedMid(s, out, q, h);
    var s2 := Written(s1, q, g, f, freq);
    WrittenInv(s1, out, q, g, f, freq);
    WrittenMid(s1, q, g, f, freq, h);
    if h == g {
      OpenedUnknown(s, q, h);
      MidSkip(s, s1, s2, h);
    } else {
      WrittenCarries(s1, out, q, g, f, freq, h);
      MidTrans(s, s1, s2, h);
      CarriesTrans(s, s1, s2, h);
    }
    SealedMid(s2, out, q, h);
    MidTrans(s, s2, Sealed(s2, q), h);
    if h != g { CarriesTrans(s, s2, Sealed(s2, q), h); }
  }

  lemma OpenedUnknown(s: Store, q: Queue, h: Hash)
    requires h !in s.entries
    ensures s.trace <= Opened(s, q).trace
    ensures forall i | |s.trace| <= i < |Opened(s, q).trace| :: h !in Opened(s, q).trace[i].entries
  {}

  // ---- retiring a pack --------------------------------------------------------------------------------

  lemma LocalCarries(s: Store, t: Store, h: Hash)
    requires t.trace == s.trace && t.disk == s.disk && t.dir == s.dir
    requires h in t.entries ==> h in s.entries && t.entries[h] == s.entries[h]
    ensures Carries(s, t, h)
  {
    if h in t.entries && Covered(s, h) { SavedStays(s, t, h); }
  }

  /** An index entry, seen by a chunk that the pack being retired does not own. */
  lemma EntryMid(s: Store, id: nat, q: Queue, rs: seq<Record>, g: Hash, h: Hash)
    requires Retiring1(s, id, q, rs) && !Owns(s, id, h)
    ensures var t := RetireEntry(s, id, q, g); Mid(s, t, h) && Carries(s, t, h) && !Owns(t, id, h)
  {
    hide Inv, Append, Mid, Carries;
    if Promotes(s, id, g) {
      HotFrame(s, id, q, rs, g);
      var s1 := s.(entries := s.entries - {g});
      var freq := if q.Small? || s.entries[g].freq == 0 then s.entries[g].freq else s.entries[g].freq - 1;
      MidLocal(s, s1, h);
      LocalCarries(s, s1, h);
      AppendMid(s1, Some((id, q)), Main, g, FrameOf(s, g), freq, h);
      MidTrans(s, s1, RetireEntry(s, id, q, g), h);
      CarriesTrans(s, s1, RetireEntry(s, id, q, g), h);
      AppendInv(s1, Some((id, q)), Main, g, FrameOf(s, g), freq);
      GainedOther(s1, RetireEntry(s, id, q, g), Main, g, FrameOf(s, g), freq, h);
    } else {
      var t := RetireEntry(s, id, q, g);
      MidLocal(s, t, h);
      LocalCarries(s, t, h);
    }
  }

  lemma {:induction false} RetireToMid(s: Store, id: nat, q: Queue, rs: seq<Record>, n: nat, h: Hash)
    requires Retiring1(s, id, q, rs) && n <= |Slots(rs)| && !Owns(s, id, h)
    ensures var t := RetireTo(s, id, q, Slots(rs), n); Mid(s, t, h) && Carries(s, t, h) && !Owns(t, id, h)
  {
    hide Mid, Carries, RetireEntry, Inv, PacksKept, Slots, Thinned, Owns;
    if n == 0 {
      MidLocal(s, s, h);
      CarriesSame(s, h);
    } else {
      var t, g := RetireTo(s, id, q, Slots(rs), n - 1), Slots(rs)[n - 1].hash;
      RetireToMid(s, id, q, rs, n - 1, h);
      RetireToOk(s, id, q, rs, n - 1);
      EntryMid(t, id, q, rs, g, h);
      MidTrans(s, t, RetireEntry(t, id, q, g), h);
      CarriesTrans(s, t, RetireEntry(t, id, q, g), h);
    }
  }

  lemma SyncedMid(s: Store, out: Retiring, h: Hash)
    requires Inv(s, out)
    ensures Mid(s, Synced(s), h) && Carries(s, Synced(s), h)
  {
    if s.main.active.Some? && s.main.active.value.id in s.disk {
      MidOne(s, Synced(s), h);
    } else {
      MidLocal(s, Synced(s), h);
    }
    hide Inv, Synced, Mid, Carries, Silent, Piles, FrameOf;
    SyncedInv(s, out);
    SilentFrames(s, Synced(s), h);
    SyncedPiles(s, out, s.entries.Keys);
    PilesCarry(s, Synced(s), h, s.entries.Keys);
  }

  lemma UnlinkedMid(s: Store, id: nat, q: Queue, h: Hash)
    requires Inv(s, Some((id, q))) && Ownerless(s, id)
    ensures id in s.packs && Mid(s, Unlinked(s, id, q), h) && Carries(s, Unlinked(s, id, q), h)
  {
    UnlinkedInv(s, id, q);
    MidOne(s, Unlinked(s, id, q), h);
    hide Inv, Mid;
    if Covered(s, h) { UnlinkedSafe(s, id, q, h); }
  }

  lemma CopiedMid(s: Store, id: nat, q: Queue, rs: seq<Record>, h: Hash)
    requires Retiring1(s, id, q, rs) && !Owns(s, id, h)
    ensures var t := Copied(s, id, q, Slots(rs)); Mid(s, t, h) && Carries(s, t, h)
  {
    hide Mid, Carries, Inv, PacksKept, Slots, Thinned, Synced, RetireTo, PromotesTo;
    var t := RetireTo(s, id, q, Slots(rs), |Slots(rs)|);
    RetireToMid(s, id, q, rs, |Slots(rs)|, h);
    RetireToOk(s, id, q, rs, |Slots(rs)|);
    SyncedMid(t, Some((id, q)), h);
    MidTrans(s, t, Synced(t), h);
    CarriesTrans(s, t, Synced(t), h);
  }

  // ---- a chunk that is itself copied --------------------------------------------------------------------

  /** Whenever the map had the chunk since, it read this frame. */
  predicate Tells(s: Store, t: Store, h: Hash, frame: Bytes)
  {
    && s.trace <= t.trace
    && forall i | |s.trace| <= i < |t.trace| && h in t.trace[i].entries :: FrameThen(t.trace[i], h) == frame
  }

  predicate ReadsNow(s: Store, h: Hash, frame: Bytes) { h in s.entries ==> FrameOf(s, h) == frame }

  lemma TellsTrans(s: Store, t: Store, u: Store, h: Hash, frame: Bytes)
    requires Tells(s, t, h, frame) && Tells(t, u, h, frame)
    ensures Tells(s, u, h, frame)
  {
    hide FrameThen;
    assert forall k | 0 <= k < |t.trace| :: u.trace[k] == t.trace[k];
  }

  lemma TellsLocal(s: Store, t: Store, h: Hash, frame: Bytes)
    requires t.trace == s.trace
    ensures Tells(s, t, h, frame)
  {}

  lemma TellsOne(s: Store, t: Store, out: Retiring, h: Hash, frame: Bytes)
    requires t.trace == s.trace + [MomentOf(t)] && Inv(t, out) && ReadsNow(t, h, frame)
    ensures Tells(s, t, h, frame)
  {
    EntryThere(t, out, h);
    SavedNow(t, h);
  }

  lemma OpenedTells(s: Store, out: Retiring, q: Queue, h: Hash, frame: Bytes)
    requires Inv(s, out) && ReadsNow(s, h, frame)
    ensures Tells(s, Opened(s, q), h, frame) && ReadsNow(Opened(s, q), h, frame)
  {
    OpenedInv(s, out, q);
    SilentFrames(s, Opened(s, q), h);
    hide Inv, FrameOf;
    if Get(s, q).active.None? { TellsOne(s, Opened(s, q), out, h, frame); } else { TellsLocal(s, s, h, frame); }
  }

  lemma WrittenTells(s: Store, out: Retiring, q: Queue, g: Hash, f: Frame, freq: nat, h: Hash, frame: Bytes)
    requires Inv(s, out) && Get(s, q).active.Some? && freq <= FREQ_MAX && g !in s.entries
    requires ReadsNow(s, h, frame) && (h == g ==> f == frame)
    ensures Get(s, q).active.value.id in s.disk
    ensures Tells(s, Written(s, q, g, f, freq), h, frame) && ReadsNow(Written(s, q, g, f, freq), h, frame)
  {
    WriterThere(s, out, q);
    WrittenInv(s, out, q, g, f, freq);
    var t := Written(s, q, g, f, freq);
    if h != g { GainedOther(s, t, q, g, f, freq, h); }
    hide Inv, FrameOf;
    TellsOne(s, t, out, h, frame);
  }

  lemma SealedTells(s: Store, out: Retiring, q: Queue, h: Hash, frame: Bytes)
    requires Inv(s, out) && ReadsNow(s, h, frame)
    ensures Tells(s, Sealed(s, q), h, frame) && ReadsNow(Sealed(s, q), h, frame)
  {
    SealedInv(s, out, q);
    SilentFrames(s, Sealed(s, q), h);
    hide Inv, FrameOf, Sealed;
    if Get(s, q).active.Some? {
      WriterThere(s, out, q);
      EntryThere(s, out, h);
      FlushedTells(s, q, h, frame);
    } else {
      SealedNothing(s, q);
      TellsLocal(s, s, h, frame);
    }
  }

  lemma FlushedTells(s: Store, q: Queue, h: Hash, frame: Bytes)
    requires Get(s, q).active.Some? && Get(s, q).active.value.id in s.disk && ReadsNow(s, h, frame)
    requires h in s.entries ==> s.entries[h].pack in s.disk && s.entries[h].pack in s.dir
    ensures Tells(s, Sealed(s, q), h, frame)
  {
    var m, t := Flushed(s, Get(s, q).active.value.id), Sealed(s, q);
    assert m.trace == s.trace + [MomentOf(m)] && t.trace == m.trace + [MomentOf(t)];
    assert FrameOf(m, h) == FrameOf(s, h) && FrameOf(t, h) == FrameOf(s, h);
    SavedNow(m, h);
    SavedNow(t, h);
  }

  lemma AppendTells(s: Store, out: Retiring, q: Queue, g: Hash, f: Frame, freq: nat, h: Hash, frame: Bytes)
    requires Inv(s, out) && freq <= FREQ_MAX && g !in s.entries && ReadsNow(s, h, frame) && (h == g ==> f == frame)
    ensures Tells(s, Append(s, q, g, f, freq), h, frame)
  {
    hide Inv, Opened, Written, Sealed, Tells, ReadsNow, Silent, Gained;
    var s1 := Opened(s, q);
    OpenedInv(s, out, q);
    SilentSame(s, s1);
    OpenedTells(s, out, q, h, frame);
    WrittenTells(s1, out, q, g, f, freq, h, frame);
    WrittenInv(s1, out, q, g, f, freq);
    var s2 := Written(s1, q, g, f, freq);
    TellsTrans(s, s1, s2, h, frame);
    SealedTells(s2, out, q, h, frame);
    TellsTrans(s, s2, Sealed(s2, q), h, frame);
  }

  lemma EntryTells(s: Store, id: nat, q: Queue, rs: seq<Record>, g: Hash, h: Hash, frame: Bytes)
    requires Retiring1(s, id, q, rs) && ReadsNow(s, h, frame)
    ensures Tells(s, RetireEntry(s, id, q, g), h, frame)
  {
    hide Inv, Append, Tells;
    if Promotes(s, id, g) {
      HotFrame(s, id, q, rs, g);
      var s1 := s.(entries := s.entries - {g});
      var freq := if q.Small? || s.entries[g].freq == 0 then s.entries[g].freq else s.entries[g].freq - 1;
      assert ReadsNow(s1, h, frame);
      AppendTells(s1, Some((id, q)), Main, g, FrameOf(s, g), freq, h, frame);
      TellsLocal(s, s1, h, frame);
      TellsTrans(s, s1, RetireEntry(s, id, q, g), h, frame);
    } else {
      TellsLocal(s, RetireEntry(s, id, q, g), h, frame);
    }
  }

  lemma ThinnedReads(s: Store, t: Store, h: Hash, frame: Bytes)
    requires Thinned(s, t) && ReadsNow(s, h, frame)
    ensures ReadsNow(t, h, frame)
  {}

  lemma {:induction false} RetireToTells(s: Store, id: nat, q: Queue, rs: seq<Record>, n: nat, h: Hash, frame: Bytes)
    requires Retiring1(s, id, q, rs) && n <= |Slots(rs)| && ReadsNow(s, h, frame)
    ensures Tells(s, RetireTo(s, id, q, Slots(rs), n), h, frame)
  {
    hide Tells, RetireEntry, Inv, PacksKept, Slots, Thinned, ReadsNow;
    if n == 0 {
      TellsLocal(s, s, h, frame);
    } else {
      var t, g := RetireTo(s, id, q, Slots(rs), n - 1), Slots(rs)[n - 1].hash;
      RetireToTells(s, id, q, rs, n - 1, h, frame);
      RetireToOk(s, id, q, rs, n - 1);
      ThinnedReads(s, t, h, frame);
      EntryTells(t, id, q, rs, g, h, frame);
      TellsTrans(s, t, RetireEntry(t, id, q, g), h, frame);
    }
  }

  lemma SyncedTells(s: Store, out: Retiring, h: Hash, frame: Bytes)
    requires Inv(s, out) && ReadsNow(s, h, frame)
    ensures Tells(s, Synced(s), h, frame) && ReadsNow(Synced(s), h, frame)
  {
    SyncedInv(s, out);
    SilentFrames(s, Synced(s), h);
    hide Inv, FrameOf;
    if s.main.active.Some? && s.main.active.value.id in s.disk {
      TellsOne(s, Synced(s), out, h, frame);
    } else {
      TellsLocal(s, s, h, frame);
    }
  }

  lemma RetireTells(s: Store, id: nat, q: Queue, h: Hash)
    requires Inv(s, Some((id, q))) && h in s.entries
    ensures id in Copied(s, id, q, IndexOf(s, id)).packs && Tells(s, Retire(s, id, q), h, FrameOf(s, h))
  {
    hide Inv, Tells, ReadsNow, Thinned, PacksKept, Slots, Synced, Unlinked, RetireTo, PromotesTo, FrameOf;
    RetireOk(s, id, q);
    IndexOk(s, id, q);
    var rs, frame := s.disk[id].records, FrameOf(s, h);
    var t := RetireTo(s, id, q, Slots(rs), |Slots(rs)|);
    assert ReadsNow(s, h, frame) by { ReadsItself(s, h); }
    RetireToTells(s, id, q, rs, |Slots(rs)|, h, frame);
    RetireToOk(s, id, q, rs, |Slots(rs)|);
    ThinnedReads(s, t, h, frame);
    SyncedTells(t, Some((id, q)), h, frame);
    TellsTrans(s, t, Synced(t), h, frame);
    CopiedOk(s, id, q, rs);
    var c := Copied(s, id, q, Slots(rs));
    assert ReadsNow(c, h, frame);
    UnlinkedTells(c, id, q, h, frame);
    TellsTrans(s, c, Unlinked(c, id, q), h, frame);
  }

  lemma ReadsItself(s: Store, h: Hash)
    ensures ReadsNow(s, h, FrameOf(s, h))
  {}

  lemma UnlinkedTells(s: Store, id: nat, q: Queue, h: Hash, frame: Bytes)
    requires Inv(s, Some((id, q))) && Ownerless(s, id) && ReadsNow(s, h, frame)
    ensures id in s.packs && Tells(s, Unlinked(s, id, q), h, frame)
  {
    UnlinkedInv(s, id, q);
    ThinnedReads(s, Unlinked(s, id, q), h, frame);
    hide Inv, FrameOf, Thinned;
    TellsOne(s, Unlinked(s, id, q), None, h, frame);
  }

  /** A chunk of a sealed pack is on disk. */
  lemma OwnedSaved(s: Store, id: nat, q: Queue, h: Hash)
    requires Inv(s, Some((id, q))) && Owns(s, id, h)
    ensures Saved(s, h)
  {
    IndexOk(s, id, q);
    assert EntryOk(s, h) && SealedOk(s, id);
    var k := SlotFrame(s.disk[id], h, s.entries[h].offset, s.entries[h].len);
  }

  lemma MidOfSafe(s: Store, t: Store, h: Hash, frame: Bytes)
    requires Safe(s, t, h) && h in s.entries && FrameOf(s, h) == frame && Tells(s, t, h, frame) && ReadsNow(t, h, frame)
    ensures Mid(s, t, h)
  {
    hide FrameThen, FrameOf, Durable, Saved;
    forall i | |s.trace| <= i < |t.trace| && SavedThen(t.trace[i], h)
      ensures SafeFrom(t, h, i, FrameThen(t.trace[i], h))
    {
      assert h in t.trace[i].entries;
    }
  }

  lemma RetireMid(s: Store, id: nat, q: Queue, h: Hash)
    requires Inv(s, Some((id, q)))
    ensures id in Copied(s, id, q, IndexOf(s, id)).packs && Mid(s, Retire(s, id, q), h)
  {
    hide Inv, Mid, Carries, Copied, Unlinked, Thinned, Tells, ReadsNow, Safe, FrameOf, Slots;
    RetireOk(s, id, q);
    IndexOk(s, id, q);
    if Owns(s, id, h) {
      OwnedSaved(s, id, q, h);
      RetireSafe(s, id, q, h);
      RetireTells(s, id, q, h);
      ReadsItself(s, h);
      ThinnedReads(s, Retire(s, id, q), h, FrameOf(s, h));
      MidOfSafe(s, Retire(s, id, q), h, FrameOf(s, h));
    } else {
      var rs := s.disk[id].records;
      var c := Copied(s, id, q, Slots(rs));
      CopiedMid(s, id, q, rs, h);
      CopiedOk(s, id, q, rs);
      UnlinkedMid(c, id, q, h);
      MidTrans(s, c, Unlinked(c, id, q), h);
    }
  }

  // ---- eviction, inserts and runs ------------------------------------------------------------------------

  lemma ReadyMid(s: Store, q: Queue, h: Hash)
    requires Inv(s, None) && Get(s, q).bytes > 0
    ensures Mid(s, Ready(s, q), h)
  {
    hide Inv, Mid, Sealed;
    SealedMid(s, None, q, h);
    MidLocal(s, s, h);
  }

  /** What keeps a chunk on disk and drops entries only, carries. */
  lemma SafeCarries(s: Store, t: Store, h: Hash)
    requires s.trace <= t.trace && (Covered(s, h) ==> Safe(s, t, h)) && Thinned(s, t)
    ensures Carries(s, t, h)
  {}

  lemma MoreTrace(s: Store, t: Store, h: Hash)
    requires Mid(s, t, h)
    ensures s.trace <= t.trace
  {}

  lemma RoundMid(s: Store, q: Queue, h: Hash)
    requires Inv(s, None) && Get(s, q).bytes > 0
    ensures CanRound(s, q) && Mid(s, Round(s, q), h)
  {
    hide Inv, Mid, Carries, Ready, Popped, Retire, Copied, Thinned, Safe, Covered;
    RoundInv(s, q);
    ReadyInv(s, q);
    ReadyMid(s, q, h);
    var r := Ready(s, q);
    PoppedInv(r, q);
    var p, id := Popped(r, q), Get(r, q).packs[0];
    PoppedMid(r, q, h);
    RetireOk(p, id, q);
    RetireMid(p, id, q, h);
    if Covered(p, h) { RetireSafe(p, id, q, h); }
    MoreTrace(p, Retire(p, id, q), h);
    SafeCarries(p, Retire(p, id, q), h);
    MidTrans(r, p, Retire(p, id, q), h);
    if Covered(r, h) { PoppedSafe(r, q, h); }
    CarriesTrans(r, p, Retire(p, id, q), h);
    MidTrans(s, r, Retire(p, id, q), h);
  }

  lemma PoppedMid(s: Store, q: Queue, h: Hash)
    requires Get(s, q).packs != []
    ensures Mid(s, Popped(s, q), h) && Carries(s, Popped(s, q), h)
  {
    MidLocal(s, Popped(s, q), h);
    LocalCarries(s, Popped(s, q), h);
  }

  lemma {:induction false} EvictMid(s: Store, u: nat, h: Hash)
    requires Inv(s, None) && s.sealBytes > 0 && u <= |s.main.packs|
    ensures Mid(s, Evict(s, u), h)
    decreases SmallCount(s), if Total(s) >= 0 then Total(s) else 0, Total(s) + Zeros(s) - u, 0
  {
    hide Inv, Thinned, Round, CanRound, Mid;
    BytesPositive(s);
    if Total(s) <= s.budget {
      MidLocal(s, s, h);
    } else {
      var q := if OverSmall(s) then Small else Main;
      RoundInv(s, q);
      RoundMid(s, q, h);
      var t := Round(s, q);
      BytesPositive(t);
      if q.Small? {
        DrainStep(s);
        EvictMidOn(s, t, u, h);
      } else {
        RotateStep(s);
        if Total(t) < Total(s) {
          EvictMidOn(s, t, 0, h);
        } else if u + 1 <= |t.main.packs| {
          EvictMidOn(s, t, u + 1, h);
        }
      }
    }
  }

  lemma EvictMidOn(s: Store, t: Store, u: nat, h: Hash)
    requires Inv(t, None) && t.sealBytes > 0 && u <= |t.main.packs| && Mid(s, t, h)
    ensures Mid(s, Evict(t, u), h)
    decreases SmallCount(t), if Total(t) >= 0 then Total(t) else 0, Total(t) + Zeros(t) - u, 1
  {
    hide Inv, Thinned, Mid, Evict, Carries, Safe, Covered;
    EvictMid(t, u, h);
    EvictCarries(t, u, h);
    MidTrans(s, t, Evict(t, u), h);
  }

  lemma EvictCarries(t: Store, u: nat, h: Hash)
    requires Inv(t, None) && t.sealBytes > 0 && u <= |t.main.packs| && Mid(t, Evict(t, u), h)
    ensures Carries(t, Evict(t, u), h)
  {
    hide Inv, Thinned, Mid, Evict, Carries, Safe, Covered;
    MoreTrace(t, Evict(t, u), h);
    EvictKeeps(t, u);
    if Covered(t, h) { EvictSafe(t, u, h); }
    SafeCarries(t, Evict(t, u), h);
  }

  lemma AdmitMid(s: Store, g: Hash, f: Bytes, h: Hash)
    requires Inv(s, None) && g !in s.entries
    ensures Mid(s, Append(GhostTaken(s, g), Admission(s, g), g, f, 0), h)
  {
    var s0 := GhostTaken(s, g);
    InvLocal(s, s0, None);
    hide Inv, Append, Mid, Carries;
    MidLocal(s, s0, h);
    LocalCarries(s, s0, h);
    if |f| >= FRAME_LIMIT {
      OpenedMid(s0, None, Admission(s, g), h);
      Oversized(s0, Admission(s, g), g, f);
      MidTrans(s, s0, Opened(s0, Admission(s, g)), h);
    } else {
      AppendMid(s0, None, Admission(s, g), g, f, 0, h);
      MidFrom(s, s0, Append(s0, Admission(s, g), g, f, 0), h);
    }
  }

  lemma MidFrom(s: Store, t: Store, u: Store, h: Hash)
    requires t.trace == s.trace && Mid(t, u, h)
    ensures Mid(s, u, h)
  {}

  lemma InsertMid(s: Store, g: Hash, f: Bytes, h: Hash)
    requires Inv(s, None) && s.sealBytes > 0
    ensures Mid(s, Inserted(s, g, f), h)
  {
    hide Inv, Append, Evict, Trimmed, Mid, Carries, Thinned;
    if g in s.entries {
      MidLocal(s, s, h);
    } else {
      var a := Append(GhostTaken(s, g), Admission(s, g), g, f, 0);
      AdmitInv(s, g, f);
      AdmitMid(s, g, f, h);
      if |f| < FRAME_LIMIT {
        EvictKeeps(a, 0);
        EvictMidOn(s, a, 0, h);
        var u := Evict(a, 0);
        TrimmedMid(u, GhostCap(u), h);
        MidTrans(s, u, Trimmed(u, GhostCap(u)), h);
      }
    }
  }

  lemma TrimmedMid(s: Store, cap: nat, h: Hash)
    requires Inv(s, None)
    ensures Mid(s, Trimmed(s, cap), h) && Carries(s, Trimmed(s, cap), h)
  {
    TrimmedOk(s, cap);
    hide Inv, Trimmed;
    MidLocal(s, Trimmed(s, cap), h);
    LocalCarries(s, Trimmed(s, cap), h);
  }

  lemma CallMid(s: Store, c: Call, h: Hash)
    requires Inv(s, None) && s.sealBytes > 0
    ensures Mid(s, Called(s, c), h)
  {
    hide Inv, Inserted, Mid;
    if c.Insert? { InsertMid(s, c.hash, c.frame, h); } else { MidLocal(s, Called(s, c), h); }
  }

  lemma {:induction false} AfterSplit(s: Store, a: seq<Call>, b: seq<Call>)
    requires Inv(s, None) && s.sealBytes > 0
    ensures After(s, a + b) == After(After(s, a), b)
    decreases |b|
  {
    hide Inv, Filled, Called, Grows;
    if b == [] {
      assert a + b == a;
    } else {
      var rest := b[..|b| - 1];
      assert (a + b)[..|a + b| - 1] == a + rest;
      AfterSplit(s, a, rest);
    }
  }

  lemma SinceThen(s: Store, t: Store, h: Hash, i: nat)
    requires Mid(s, t, h) && |s.trace| <= i < |t.trace| && SavedThen(t.trace[i], h)
    ensures SafeFrom(t, h, i, FrameThen(t.trace[i], h))
  {}

  lemma ThereFirst(s: Store, calls: seq<Call>, h: Hash)
    requires Inv(s, None) && s.sealBytes > 0 && AlwaysThere(s, calls, h) && calls != []
    ensures h in s.entries
  {
    assert calls[..0] == [];
    assert h in After(s, calls[..0]).entries;
  }

  lemma SinceOn(t: Store, u: Store, h: Hash, i: nat, j: nat, frame: Bytes)
    requires SafeFrom(t, h, i, frame) && h in t.entries && Safe(t, u, h) && i < |t.trace| && i <= j < |u.trace|
    ensures u.trace[i] == t.trace[i] && SafeAt(u.trace[j], h, frame)
  {
    hide Saved, Durable, FrameOf;
    assert j < |t.trace| ==> u.trace[j] == t.trace[j];
  }

  lemma SafeFromAt(t: Store, h: Hash, i: nat, j: nat, frame: Bytes)
    requires SafeFrom(t, h, i, frame) && i <= j < |t.trace|
    ensures SafeAt(t.trace[j], h, frame)
  {}

  lemma SafeFromSaved(t: Store, h: Hash, i: nat, frame: Bytes)
    requires SafeFrom(t, h, i, frame) && h in t.entries
    ensures Saved(t, h)
  {}

  /** Once a call has synced the copy in use, and as long as it is kept. */
  lemma CallThenRun(s: Store, t: Store, after: seq<Call>, h: Hash, i: nat, j: nat)
    requires Inv(t, None) && t.sealBytes > 0 && Mid(s, t, h)
    requires Forget(h) !in after && AlwaysThere(t, after, h)
    requires |s.trace| <= i < |t.trace| && SavedThen(t.trace[i], h) && i <= j < |After(t, after).trace|
    ensures After(t, after).trace[i] == t.trace[i]
    ensures SafeAt(After(t, after).trace[j], h, FrameThen(t.trace[i], h))
  {
    hide Inv, Filled, Grows, Called, Mid, SavedThen, FrameThen, SafeAt, SafeFrom, AlwaysThere, FrameOf, Saved, Safe;
    var frame := FrameThen(t.trace[i], h);
    SinceThen(s, t, h, i);
    if after == [] {
      SafeFromAt(t, h, i, j, frame);
    } else {
      ThereFirst(t, after, h);
      SafeFromSaved(t, h, i, frame);
      RunSafe(t, after, h);
      SinceOn(t, After(t, after), h, i, j, frame);
    }
  }

  lemma AfterCall(s: Store, before: seq<Call>, c: Call)
    requires Inv(s, None) && s.sealBytes > 0
    ensures After(s, before + [c]) == Called(After(s, before), c)
  {
    hide Inv, Called, Filled, Grows;
    assert (before + [c])[..|before|] == before;
  }

  /**
   From the moment, in the middle of a call or not, at which the copy of a chunk in use is
   synced: as long as the cache keeps the chunk it is on disk, after every file operation.
   */
  lemma SafeSinceSync(s: Store, before: seq<Call>, c: Call, after: seq<Call>, h: Hash, i: nat, j: nat)
    requires Inv(s, None) && s.sealBytes > 0
    requires Forget(h) !in after && AlwaysThere(After(s, before + [c]), after, h)
    requires |After(s, before).trace| <= i < |After(s, before + [c]).trace|
    requires SavedThen(After(s, before + [c]).trace[i], h) && i <= j < |After(s, before + [c] + after).trace|
    ensures var trace := After(s, before + [c] + after).trace; SafeAt(trace[j], h, FrameThen(trace[i], h))
  {
    hide Inv, After, Filled, Grows, Called, Mid, SavedThen, FrameThen, SafeAt, AlwaysThere;
    AfterCall(s, before, c);
    CallMid(After(s, before), c, h);
    AfterSplit(s, before + [c], after);
    CallThenRun(After(s, before), After(s, before + [c]), after, h, i, j);
  }

  lemma SafeAtDurable(m: Moment, h: Hash, frame: Bytes)
    requires SafeAt(m, h, frame) && h in m.entries
    ensures Durable(m.files, h, frame)
  {}

  /** Crash at any moment from then on, and reopen: what `CrashAnywhere` says of chunks saved between calls. */
  lemma CrashSinceSync(ok: (Hash, Bytes) -> bool, s: Store, before: seq<Call>, c: Call, after: seq<Call>, h: Hash,
        i: nat, j: nat, budget: nat, sealBytes: nat, ids: seq<nat>)
    requires Inv(s, None) && s.sealBytes > 0
    requires Forget(h) !in after && AlwaysThere(After(s, before + [c]), after, h)
    requires |After(s, before).trace| <= i < |After(s, before + [c]).trace|
    requires SavedThen(After(s, before + [c]).trace[i], h) && i <= j < |After(s, before + [c] + after).trace|
    requires h in After(s, before + [c] + after).trace[j].entries
    requires Ascending(ids) && Elems(ids) == After(s, before + [c] + after).trace[j].files.Keys
    ensures var trace := After(s, before + [c] + after).trace;
      && Durable(trace[j].files, h, FrameThen(trace[i], h))
      && (Unhidden(ok, trace[j].files, h) ==> AlwaysFound(ok, trace[j].files, budget, sealBytes, ids, h))
  {
    hide Inv, After, Filled, Grows, Called, SavedThen, FrameThen, SafeAt, AlwaysThere;
    hide Durable, Unhidden, Assured, AlwaysFound;
    SafeSinceSync(s, before, c, after, h, i, j);
    var trace := After(s, before + [c] + after).trace;
    var img := trace[j].files;
    SafeAtDurable(trace[j], h, FrameThen(trace[i], h));
    if Unhidden(ok, img, h) {
      DurableAssured(ok, img, h, FrameThen(trace[i], h));
      ReopenFindsIff(ok, img, budget, sealBytes, ids, h);
    }
  }
}

/**
 Why eviction ends, and what it means that it gives up over budget: no byte of the
 main queue is dead, provided its packs were filled before they were sealed.
 */
module ChunkStoreBudget {
  import opened Bytes
  import opened Pack
  import opened ChunkStore
  import opened ChunkStoreInv
  import opened ChunkStoreEvict
  import opened Graph

  /** Main's packs in the order they will be retired, the one being written last. */
  function Order(s: Store): seq<nat>
  {
    s.main.packs + if s.main.active.Some? then [s.main.active.value.id] else []
  }

  /** Every record of the pack is the current copy of its hash, and worth keeping. */
  predicate Live(s: Store, id: nat, keep: set<Hash>)
  {
    && id in s.disk && Claimed(s.entries, id, Slots(s.disk[id].records)) == Span(s.disk[id].records)
    && forall r <- s.disk[id].records :: r.hash in keep
  }

  predicate Clean(s: Store, j: nat, keep: set<Hash>) { forall i | j <= i < |Order(s)| :: Live(s, Order(s)[i], keep) }

  /** What eviction may not drop. */
  function Kept(s: Store): set<Hash> { set h | h in s.entries && !Cold(s, h) }

  /** Main's sealed packs were filled before they were sealed. */
  predicate Full(s: Store, from: nat)
  {
    forall i | from <= i < |s.main.packs| :: SizeOf(s.packs, s.main.packs[i]) >= s.sealBytes
  }

  /** The pack being written is not full yet. */
  predicate Short(s: Store) { s.main.active.Some? ==> s.main.active.value.len < s.sealBytes }

  function CountZero(packs: map<nat, nat>, ids: seq<nat>): nat
  {
    if ids == [] then 0 else (if SizeOf(packs, ids[0]) == 0 then 1 else 0) + CountZero(packs, ids[1..])
  }

  /** Main's empty packs. */
  function Zeros(s: Store): nat
  {
    CountZero(s.packs, s.main.packs) + if s.main.active.Some? && s.main.active.value.len == 0 then 1 else 0
  }

  lemma {:induction false} ZeroAppend(packs: map<nat, nat>, ids: seq<nat>, id: nat)
    ensures CountZero(packs, ids + [id]) == CountZero(packs, ids) + if SizeOf(packs, id) == 0 then 1 else 0
  {
    if ids == [] {
      assert ids + [id] == [id];
    } else {
      ZeroAppend(packs, ids[1..], id);
      assert (ids + [id])[1..] == ids[1..] + [id];
    }
  }

  lemma {:induction false} ZeroFrame(a: map<nat, nat>, b: map<nat, nat>, ids: seq<nat>)
    requires forall id <- ids :: SizeOf(a, id) == SizeOf(b, id)
    ensures CountZero(a, ids) == CountZero(b, ids)
  {
    if ids != [] {
      assert ids[0] in ids;
      ZeroFrame(a, b, ids[1..]);
    }
  }

  /** A queue has no more packs than bytes, but for the empty ones. */
  lemma {:induction false} PacksFit(packs: map<nat, nat>, ids: seq<nat>)
    ensures |ids| <= SumSizes(packs, ids) + CountZero(packs, ids)
  {
    if ids != [] {
      PacksFit(packs, ids[1..]);
    }
  }

  // ---- what copying into main does to main ------------------------------------------

  /** Main only gets longer, and if no pack was sealed the new bytes are in the open one. */
  predicate Advances(s: Store, t: Store)
  {
    && t.small == s.small && t.sealBytes == s.sealBytes
    && Order(s) <= Order(t) && s.main.packs <= t.main.packs
    && (|t.main.packs| == |s.main.packs| ==> ActiveLen(t.main) - ActiveLen(s.main) == Total(t) - Total(s))
    && Zeros(t) <= Zeros(s)
    && (Full(s, 0) ==> Full(t, 0)) && (Short(s) ==> Short(t))
  }

  lemma AdvancesTrans(s: Store, t: Store, u: Store)
    requires Advances(s, t) && Advances(t, u)
    ensures Advances(s, u)
  {}

  /** A record of `n` bytes went to the open pack and nothing was sealed. */
  predicate Wrote(s: Store, t: Store, n: nat)
  {
    && t.small == s.small && t.sealBytes == s.sealBytes && t.packs == s.packs && t.main.packs == s.main.packs
    && t.main.active.Some? && ActiveLen(t.main) == ActiveLen(s.main) + n && Total(t) == Total(s) + n
    && Order(s) <= Order(t)
  }

  lemma WriteAdvances(s: Store, out: Retiring, h: Hash, f: Frame, freq: nat)
    requires Inv(s, out)
    ensures var s1 := Opened(s, Main); s1.main.active.Some? && s1.main.active.value.id in s1.disk
    ensures Wrote(s, Written(Opened(s, Main), Main, h, f, freq), HEADER + |f|)
  {
    hide Inv, Silent;
    OpenedInv(s, out, Main);
    WriterThere(Opened(s, Main), out, Main);
  }

  /** The open pack joined the queue. */
  predicate Closes(s: Store, t: Store)
  {
    && t.small == s.small && t.sealBytes == s.sealBytes && Total(t) == Total(s) && Order(t) == Order(s)
    && Zeros(t) == Zeros(s)
    && s.main.active.Some? && t.main.packs == s.main.packs + [s.main.active.value.id]
    && (forall i | 0 <= i < |s.main.packs| :: SizeOf(t.packs, s.main.packs[i]) == SizeOf(s.packs, s.main.packs[i]))
    && SizeOf(t.packs, s.main.active.value.id) == ActiveLen(s.main)
    && t.main.active.None?
  }

  lemma SealCloses(s: Store, out: Retiring)
    requires Inv(s, out) && s.main.active.Some?
    ensures Closes(s, Sealed(s, Main))
  {
    var id := s.main.active.value.id;
    assert id in Active(s.main) && id !in Elems(Packs(s, out, Main));
    assert id !in s.main.packs;
    ZeroFrame(s.packs, s.packs[id := s.main.active.value.len], s.main.packs);
    ZeroAppend(s.packs[id := s.main.active.value.len], s.main.packs, id);
  }

  lemma WroteAdvances(s: Store, t: Store, n: nat)
    requires Wrote(s, t, n) && n > 0 && ActiveLen(t.main) < s.sealBytes
    ensures Advances(s, t)
  {}

  lemma WroteClosesAdvances(s: Store, t: Store, u: Store, n: nat)
    requires Wrote(s, t, n) && n > 0 && ActiveLen(t.main) >= s.sealBytes && Closes(t, u)
    ensures Advances(s, u)
  {}

  lemma AppendAdvances(s: Store, out: Retiring, h: Hash, f: Frame, freq: nat)
    requires Inv(s, out) && freq <= FREQ_MAX && h !in s.entries
    ensures Advances(s, Append(s, Main, h, f, freq))
  {
    hide Inv, Opened, Written, Advances, Wrote, Closes, Sealed, Gained, Silent;
    var s1 := Opened(s, Main);
    OpenedInv(s, out, Main);
    SilentSame(s, s1);
    WriteAdvances(s, out, h, f, freq);
    WrittenInv(s1, out, Main, h, f, freq);
    var s2 := Written(s1, Main, h, f, freq);
    Finish(s, s2, out, HEADER + |f|);
  }

  lemma Finish(s: Store, t: Store, out: Retiring, n: nat)
    requires Wrote(s, t, n) && n > 0 && Inv(t, out)
    ensures Advances(s, if t.main.active.value.len >= s.sealBytes then Sealed(t, Main) else t)
  {
    hide Inv, Advances, Sealed;
    if t.main.active.value.len >= s.sealBytes {
      SealCloses(t, out);
      WroteClosesAdvances(s, t, Sealed(t, Main), n);
    } else {
      WroteAdvances(s, t, n);
    }
  }

  // ---- no dead byte -----------------------------------------------------------------

  lemma {:induction false} ClaimedAppend(entries: map<Hash, Entry>, id: nat, slots: seq<Slot>, sl: Slot)
    ensures Claimed(entries, id, slots + [sl])
      == Claimed(entries, id, slots) + if Current(entries, id, sl) then HEADER + sl.len else 0
  {
    if slots == [] {
      assert slots + [sl] == [sl];
    } else {
      ClaimedAppend(entries, id, slots[1..], sl);
      assert (slots + [sl])[1..] == slots[1..] + [sl];
    }
  }

  lemma {:induction false} OffsetsBelow(rs: seq<Record>, pos: nat, sl: Slot)
    requires sl in SlotsFrom(rs, pos)
    ensures sl.offset < pos + Span(rs) + HEADER
  {
    if sl != SlotsFrom(rs, pos)[0] {
      assert SlotsFrom(rs, pos)[1..] == SlotsFrom(rs[1..], pos + rs[0].Size());
      OffsetsBelow(rs[1..], pos + rs[0].Size(), sl);
    }
  }

  /** A pack none of whose entries moved is as live as before. */
  lemma LiveKept(s: Store, t: Store, id: nat, keep: set<Hash>)
    requires Live(s, id, keep) && id in t.disk && t.disk[id].records == s.disk[id].records
    requires forall h: Hash ::
      Owns(s, id, h) || Owns(t, id, h) ==> h in s.entries && h in t.entries && t.entries[h] == s.entries[h]
    ensures Live(t, id, keep)
  {
    var slots := Slots(s.disk[id].records);
    forall sl | sl in slots
      ensures Current(s.entries, id, sl) == Current(t.entries, id, sl)
    {
      assert Owns(s, id, sl.hash) == (sl.hash in s.entries && s.entries[sl.hash].pack == id);
      assert Owns(t, id, sl.hash) == (sl.hash in t.entries && t.entries[sl.hash].pack == id);
    }
    ClaimedSame(s.entries, t.entries, id, slots);
  }

  /** A record of a new hash written to a live pack leaves it live. */
  lemma LiveGrows(s: Store, t: Store, id: nat, h: Hash, f: Frame, keep: set<Hash>)
    requires Live(s, id, keep) && h in keep && h !in s.entries && h in t.entries
    requires t.entries == s.entries[h := t.entries[h]]
    requires id in t.disk && t.disk[id].records == s.disk[id].records + [Record(h, f)]
    requires t.entries[h].pack == id && t.entries[h].offset == Span(s.disk[id].records) + HEADER
    requires t.entries[h].len == |f|
    ensures Live(t, id, keep)
  {
    var rs := s.disk[id].records;
    PackGrows(rs, Record(h, f));
    var sl := Slot(h, Span(rs) + HEADER, |f|);
    forall x | x in Slots(rs)
      ensures Current(s.entries, id, x) == Current(t.entries, id, x)
    {
      OffsetsBelow(rs, 0, x);
    }
    ClaimedSame(s.entries, t.entries, id, Slots(rs));
    ClaimedAppend(t.entries, id, Slots(rs), sl);
  }

  lemma OpenedClean(s: Store, out: Retiring, j: nat, keep: set<Hash>)
    requires Inv(s, out) && Clean(s, j, keep)
    ensures Clean(Opened(s, Main), j, keep)
  {
    var t := Opened(s, Main);
    if s.main.active.None? {
      assert s.nextId !in s.disk;
      forall i | j <= i < |Order(t)|
        ensures Live(t, Order(t)[i], keep)
      {
        if i < |Order(s)| {
          assert Live(s, Order(s)[i], keep);
          LiveKept(s, t, Order(s)[i], keep);
        }
      }
    }
  }

  lemma WrittenClean(s: Store, out: Retiring, h: Hash, f: Frame, freq: nat, j: nat, keep: set<Hash>)
    requires Inv(s, out) && s.main.active.Some? && s.main.active.value.id in s.disk && h !in s.entries && h in keep
    requires Clean(s, j, keep)
    ensures Clean(Written(s, Main, h, f, freq), j, keep)
  {
    var t := Written(s, Main, h, f, freq);
    var w := s.main.active.value;
    assert Order(t) == Order(s);
    forall i | j <= i < |Order(t)|
      ensures Live(t, Order(t)[i], keep)
    {
      assert Live(s, Order(s)[i], keep);
      if Order(s)[i] == w.id {
        assert w.len == Span(s.disk[w.id].records);
        LiveGrows(s, t, w.id, h, f, keep);
      } else {
        LiveKept(s, t, Order(s)[i], keep);
      }
    }
  }

  lemma SealedClean(s: Store, j: nat, keep: set<Hash>)
    requires Clean(s, j, keep)
    ensures Clean(Sealed(s, Main), j, keep)
  {
    var t := Sealed(s, Main);
    assert Order(t) == Order(s);
    forall i | j <= i < |Order(t)|
      ensures Live(t, Order(t)[i], keep)
    {
      LiveKept(s, t, Order(s)[i], keep);
    }
  }

  lemma AppendClean(s: Store, out: Retiring, h: Hash, f: Frame, freq: nat, j: nat, keep: set<Hash>)
    requires Inv(s, out) && freq <= FREQ_MAX && h !in s.entries && h in keep && Clean(s, j, keep)
    ensures Clean(Append(s, Main, h, f, freq), j, keep)
  {
    hide Inv, Opened, Written, Wrote, Sealed, Gained, Silent, Clean;
    WriteAdvances(s, out, h, f, freq);
    var s1 := Opened(s, Main);
    OpenedInv(s, out, Main);
    OpenedClean(s, out, j, keep);
    assert s1.entries == s.entries by { SilentSame(s, s1); }
    WrittenClean(s1, out, h, f, freq, j, keep);
    SealedClean(Written(s1, Main, h, f, freq), j, keep);
  }

  /** Dropping an entry of a pack that is not main's any more. */
  lemma DropClean(s: Store, t: Store, id: nat, h: Hash, j: nat, keep: set<Hash>)
    requires Clean(s, j, keep) && Owns(s, id, h) && id !in Order(s)
    requires t.entries == s.entries - {h} && t.main == s.main && t.disk == s.disk
    ensures Clean(t, j, keep)
  {
    forall i | j <= i < |Order(t)|
      ensures Live(t, Order(t)[i], keep)
    {
      assert Live(s, Order(s)[i], keep) && Order(s)[i] in Order(s);
      LiveKept(s, t, Order(s)[i], keep);
    }
  }

  // ---- retiring a pack --------------------------------------------------------------

  lemma OutOfOrder(s: Store, id: nat, q: Queue)
    requires Inv(s, Some((id, q)))
    ensures id !in Order(s) && id !in s.main.packs
  {
    UnlinkedIds(s, id, q);
    assert s.main.active.Some? ==> s.main.active.value.id in Active(s.main);
  }

  lemma DropAdvances(s: Store, t: Store)
    requires t.small == s.small && t.main == s.main && t.packs == s.packs && t.sealBytes == s.sealBytes
    ensures Advances(s, t)
  {}

  lemma KeptDrops(s: Store, t: Store, h: Hash)
    requires t.entries == s.entries - {h} && t.pins == s.pins
    ensures Kept(t) <= Kept(s)
  {}

  lemma KeptIf(s: Store, h: Hash)
    requires h in s.entries && !Cold(s, h)
    ensures h in Kept(s)
  {}

  /** A copy is never hotter than what it was copied from. */
  lemma KeptMoves(s: Store, t: Store, h: Hash, freq: nat, keep: set<Hash>)
    requires h in s.entries && freq <= s.entries[h].freq && Kept(s) <= keep
    requires Gained(s.(entries := s.entries - {h}), t, Main, h, FrameOf(s, h), freq)
    ensures Kept(t) <= keep
  {
    forall g | g in Kept(t)
      ensures g in Kept(s)
    {}
  }

  lemma ColdBudget(s: Store, id: nat, q: Queue, rs: seq<Record>, h: Hash, j: nat, keep: set<Hash>)
    requires Retiring1(s, id, q, rs) && Clean(s, j, keep) && Owns(s, id, h) && Cold(s, h) && Kept(s) <= keep
    ensures Advances(s, RetireEntry(s, id, q, h)) && Clean(RetireEntry(s, id, q, h), j, keep)
    ensures Kept(RetireEntry(s, id, q, h)) <= keep
  {
    OutOfOrder(s, id, q);
    KeptDrops(s, RetireEntry(s, id, q, h), h);
    hide Inv, Clean, Advances, Kept;
    DropAdvances(s, RetireEntry(s, id, q, h));
    DropClean(s, RetireEntry(s, id, q, h), id, h, j, keep);
  }

  lemma HotBudget(s: Store, id: nat, q: Queue, rs: seq<Record>, h: Hash, j: nat, keep: set<Hash>)
    requires Retiring1(s, id, q, rs) && Clean(s, j, keep) && Owns(s, id, h) && !Cold(s, h) && Kept(s) <= keep
    ensures Advances(s, RetireEntry(s, id, q, h)) && Clean(RetireEntry(s, id, q, h), j, keep)
    ensures Kept(RetireEntry(s, id, q, h)) <= keep
  {
    hide Inv, Clean, Advances, Append, Gained, Kept;
    OutOfOrder(s, id, q);
    HotFrame(s, id, q, rs, h);
    var freq := if q.Small? || s.entries[h].freq == 0 then s.entries[h].freq else s.entries[h].freq - 1;
    var s1 := s.(entries := s.entries - {h});
    DropAdvances(s, s1);
    assert h in keep by { KeptIf(s, h); }
    DropClean(s, s1, id, h, j, keep);
    AppendAdvances(s1, Some((id, q)), h, FrameOf(s, h), freq);
    AppendClean(s1, Some((id, q)), h, FrameOf(s, h), freq, j, keep);
    AdvancesTrans(s, s1, RetireEntry(s, id, q, h));
    AppendInv(s1, Some((id, q)), Main, h, FrameOf(s, h), freq);
    KeptMoves(s, RetireEntry(s, id, q, h), h, freq, keep);
  }

  lemma EntryBudget(s: Store, id: nat, q: Queue, rs: seq<Record>, h: Hash, j: nat, keep: set<Hash>)
    requires Retiring1(s, id, q, rs) && Clean(s, j, keep) && Kept(s) <= keep
    ensures Advances(s, RetireEntry(s, id, q, h)) && Clean(RetireEntry(s, id, q, h), j, keep)
    ensures Kept(RetireEntry(s, id, q, h)) <= keep
  {
    hide Retiring1, Clean, Append, Kept;
    if Owns(s, id, h) {
      if Cold(s, h) { ColdBudget(s, id, q, rs, h, j, keep); } else { HotBudget(s, id, q, rs, h, j, keep); }
    }
  }

  lemma {:induction false} RetireToBudget(s: Store, id: nat, q: Queue, rs: seq<Record>, n: nat, j: nat, keep: set<Hash>)
    requires Retiring1(s, id, q, rs) && Clean(s, j, keep) && n <= |Slots(rs)| && Kept(s) <= keep
    ensures Advances(s, RetireTo(s, id, q, Slots(rs), n)) && Clean(RetireTo(s, id, q, Slots(rs), n), j, keep)
    ensures Kept(RetireTo(s, id, q, Slots(rs), n)) <= keep
  {
    hide Clean, Advances, RetireEntry, Inv, Thinned, PacksKept, Kept, Slots;
    if n == 0 {
      DropAdvances(s, s);
    } else {
      var t := RetireTo(s, id, q, Slots(rs), n - 1);
      RetireToBudget(s, id, q, rs, n - 1, j, keep);
      RetireToOk(s, id, q, rs, n - 1);
      EntryBudget(t, id, q, rs, Slots(rs)[n - 1].hash, j, keep);
      AdvancesTrans(s, t, RetireEntry(t, id, q, Slots(rs)[n - 1].hash));
    }
  }

  lemma SyncedBudget(s: Store, j: nat, keep: set<Hash>)
    requires Clean(s, j, keep)
    ensures Advances(s, Synced(s)) && Clean(Synced(s), j, keep) && Kept(Synced(s)) == Kept(s)
  {
    var t := Synced(s);
    DropAdvances(s, t);
    forall i | j <= i < |Order(t)|
      ensures Live(t, Order(t)[i], keep)
    {
      LiveKept(s, t, Order(s)[i], keep);
    }
  }

  lemma CopiedBudget(s: Store, id: nat, q: Queue, rs: seq<Record>, j: nat, keep: set<Hash>)
    requires Retiring1(s, id, q, rs) && Clean(s, j, keep) && Kept(s) <= keep
    ensures Advances(s, Copied(s, id, q, Slots(rs))) && Clean(Copied(s, id, q, Slots(rs)), j, keep)
    ensures Kept(Copied(s, id, q, Slots(rs))) <= keep
  {
    hide Clean, Advances, Synced, Retiring1;
    var t := RetireTo(s, id, q, Slots(rs), |Slots(rs)|);
    RetireToBudget(s, id, q, rs, |Slots(rs)|, j, keep);
    SyncedBudget(t, j, keep);
    AdvancesTrans(s, t, Synced(t));
  }

  /** What is left of the queues once a pack of `size` bytes is gone. */
  predicate Retired(s: Store, t: Store, q: Queue, size: nat)
  {
    && t.sealBytes == s.sealBytes && t.small.packs == s.small.packs && t.small.active == s.small.active
    && (q.Main? ==> t.small == s.small)
    && s.main.packs <= t.main.packs && Zeros(t) <= Zeros(s) && (Full(s, 0) ==> Full(t, 0)) && (Short(s) ==> Short(t))
    && (|t.main.packs| == |s.main.packs| ==> ActiveLen(t.main) - ActiveLen(s.main) == Total(t) - Total(s) + size)
  }

  lemma UnlinkedBudget(s: Store, t: Store, id: nat, q: Queue, j: nat, keep: set<Hash>)
    requires Inv(t, Some((id, q))) && id in t.packs && Advances(s, t) && Clean(t, j, keep)
    ensures Retired(s, Unlinked(t, id, q), q, t.packs[id]) && Clean(Unlinked(t, id, q), j, keep)
  {
    hide Inv, Clean, Full, Zeros, Unlinked;
    OutOfOrder(t, id, q);
    UnlinkedClean(t, id, q, j, keep);
    UnlinkedMain(t, id, q);
  }

  lemma UnlinkedMain(t: Store, id: nat, q: Queue)
    requires id in t.packs && id !in t.main.packs
    ensures var u := Unlinked(t, id, q);
      && u.main.packs == t.main.packs && u.main.active == t.main.active && u.sealBytes == t.sealBytes
      && u.small.packs == t.small.packs && u.small.active == t.small.active && (q.Main? ==> u.small == t.small)
      && Zeros(u) == Zeros(t) && (Full(t, 0) ==> Full(u, 0)) && Total(u) == Total(t) - t.packs[id]
  {
    ZeroFrame(t.packs, Unlinked(t, id, q).packs, t.main.packs);
  }

  lemma UnlinkedClean(t: Store, id: nat, q: Queue, j: nat, keep: set<Hash>)
    requires id in t.packs && Clean(t, j, keep)
    ensures Clean(Unlinked(t, id, q), j, keep)
  {
    var u := Unlinked(t, id, q);
    assert Order(u) == Order(t);
    forall i | j <= i < |Order(u)|
      ensures Live(u, Order(u)[i], keep)
    {
      assert Live(t, Order(t)[i], keep);
    }
  }

  lemma RetireBudget(s: Store, id: nat, q: Queue, j: nat, keep: set<Hash>)
    requires Inv(s, Some((id, q))) && Clean(s, j, keep) && Kept(s) <= keep
    ensures id in s.packs && id in Copied(s, id, q, IndexOf(s, id)).packs
    ensures Retired(s, Retire(s, id, q), q, s.packs[id]) && Clean(Retire(s, id, q), j, keep)
    ensures Kept(Retire(s, id, q)) <= keep
  {
    hide Clean, Advances, Copied, Inv;
    IndexOk(s, id, q);
    var rs := s.disk[id].records;
    CopiedBudget(s, id, q, rs, j, keep);
    CopiedOk(s, id, q, rs);
    var t := Copied(s, id, q, Slots(rs));
    IndexOk(t, id, q);
    UnlinkedBudget(s, t, id, q, j, keep);
  }

  lemma PoppedInv(s: Store, q: Queue)
    requires Inv(s, None) && Get(s, q).packs != []
    ensures Inv(Popped(s, q), Some((Get(s, q).packs[0], q))) && Thinned(s, Popped(s, q))
    ensures Total(Popped(s, q)) == Total(s)
  {
    var t := Popped(s, q);
    var out := Some((Get(s, q).packs[0], q));
    assert Packs(t, out, q) == Get(s, q).packs;
    assert Packs(t, out, Small) == Packs(s, None, Small) && Packs(t, out, Main) == Packs(s, None, Main);
    SealedKept(s, t);
    forall h: Hash
      ensures EntryOk(t, h)
    {
      assert EntryOk(s, h);
    }
    assert ActiveOk(t, t.small) && ActiveOk(t, t.main);
  }

  lemma PoppedClean(s: Store, j: nat, keep: set<Hash>)
    requires s.main.packs != [] && Clean(s, j, keep)
    ensures Clean(Popped(s, Main), if j == 0 then 0 else j - 1, keep)
  {
    var t := Popped(s, Main);
    assert Order(t) == Order(s)[1..];
    forall i | 0 <= i < |Order(t)| && i + 1 >= j
      ensures Live(t, Order(t)[i], keep)
    {
      assert Order(t)[i] == Order(s)[i + 1] && Live(s, Order(s)[i + 1], keep);
    }
  }
}

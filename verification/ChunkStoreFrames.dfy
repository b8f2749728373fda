/** Eviction writes nothing of its own: every record it leaves was there before. */
module ChunkStoreFrames {
  import opened Bytes
  import opened Pack
  import opened ChunkStore
  import opened ChunkStoreInv
  import opened ChunkStoreEvict
  import opened ChunkStoreBudget
  import opened ChunkStoreEvictLoop
  import opened Graph

  /** All records are good, and the index, if there is one, is theirs. */
  predicate FileGood(f: File, good: Record -> bool)
  {
    (forall r <- f.records :: good(r)) && (f.index.Some? ==> f.index.value == Slots(f.records))
  }

  predicate AllGood(img: Image, good: Record -> bool) { forall id <- img :: FileGood(img[id], good) }

  /** All files are good, and so were all directories since `s`. */
  predicate Vouches(s: Store, t: Store, good: Record -> bool)
  {
    && AllGood(t.disk, good) && s.trace <= t.trace
    && forall i | |s.trace| <= i < |t.trace| :: AllGood(t.trace[i].files, good)
  }

  lemma VouchesTrans(s: Store, t: Store, u: Store, good: Record -> bool)
    requires Vouches(s, t, good) && Vouches(t, u, good)
    ensures Vouches(s, u, good)
  {
    forall i | |s.trace| <= i < |u.trace|
      ensures AllGood(u.trace[i].files, good)
    {
      if i < |t.trace| { assert u.trace[i] == t.trace[i]; }
    }
  }

  lemma VouchesOne(s: Store, t: Store, good: Record -> bool)
    requires AllGood(t.disk, good)
    requires (t.trace == s.trace || t.trace == s.trace + [Moment(Listed(t.disk, t.dir), t.entries)])
    ensures Vouches(s, t, good)
  {}

  lemma OpenedGood(s: Store, q: Queue, good: Record -> bool)
    requires AllGood(s.disk, good)
    ensures Vouches(s, Opened(s, q), good)
  {
    VouchesOne(s, Opened(s, q), good);
  }

  lemma WrittenGood(s: Store, q: Queue, h: Hash, f: Frame, freq: nat, good: Record -> bool)
    requires AllGood(s.disk, good) && good(Record(h, f)) && Get(s, q).active.Some? && ActiveOk(s, Get(s, q))
    ensures Vouches(s, Written(s, q, h, f, freq), good)
  {
    VouchesOne(s, Written(s, q, h, f, freq), good);
  }

  lemma SealedGood(s: Store, q: Queue, good: Record -> bool)
    requires AllGood(s.disk, good) && ActiveOk(s, Get(s, q))
    ensures Vouches(s, Sealed(s, q), good)
  {
    if Get(s, q).active.Some? {
      var id := Get(s, q).active.value.id;
      var m := Flushed(s, id);
      VouchesOne(s, m, good);
      VouchesOne(m, Sealed(s, q), good);
      VouchesTrans(s, m, Sealed(s, q), good);
    } else {
      VouchesOne(s, s, good);
    }
  }

  lemma SyncedGood(s: Store, good: Record -> bool)
    requires AllGood(s.disk, good)
    ensures Vouches(s, Synced(s), good)
  {
    VouchesOne(s, Synced(s), good);
  }

  lemma WriterOk(s: Store, out: Retiring, q: Queue)
    requires Inv(s, out)
    ensures ActiveOk(s, Get(s, q))
  {}

  lemma AppendGood(s: Store, out: Retiring, q: Queue, h: Hash, f: Frame, freq: nat, good: Record -> bool)
    requires Inv(s, out) && AllGood(s.disk, good) && good(Record(h, f)) && freq <= FREQ_MAX && h !in s.entries
    ensures Vouches(s, Append(s, q, h, f, freq), good)
  {
    hide Inv, Opened, Written, Sealed, ActiveOk, Vouches, AllGood, Gained, Silent;
    OpenedInv(s, out, q);
    var s1 := Opened(s, q);
    SilentSame(s, s1);
    OpenedGood(s, q, good);
    VouchesGood(s, s1, good);
    WriterOk(s1, out, q);
    WriterThere(s1, out, q);
    WrittenInv(s1, out, q, h, f, freq);
    var s2 := Written(s1, q, h, f, freq);
    WrittenGood(s1, q, h, f, freq, good);
    VouchesGood(s1, s2, good);
    WriterOk(s2, out, q);
    VouchesTrans(s, s1, s2, good);
    SealedGood(s2, q, good);
    VouchesTrans(s, s2, Sealed(s2, q), good);
  }

  lemma EntryGood(s: Store, id: nat, q: Queue, rs: seq<Record>, h: Hash, good: Record -> bool)
    requires Retiring1(s, id, q, rs) && AllGood(s.disk, good)
    ensures Vouches(s, RetireEntry(s, id, q, h), good)
  {
    hide Inv, Append;
    if Promotes(s, id, h) {
      HotFrame(s, id, q, rs, h);
      var k := SlotFrame(s.disk[id], h, s.entries[h].offset, s.entries[h].len);
      assert s.disk[id].records[k] == Record(h, FrameOf(s, h));
      var s1 := s.(entries := s.entries - {h});
      var freq := if q.Small? || s.entries[h].freq == 0 then s.entries[h].freq else s.entries[h].freq - 1;
      AppendGood(s1, Some((id, q)), Main, h, FrameOf(s, h), freq, good);
    } else {
      VouchesOne(s, RetireEntry(s, id, q, h), good);
    }
  }

  lemma VouchesGood(s: Store, t: Store, good: Record -> bool)
    requires Vouches(s, t, good)
    ensures AllGood(t.disk, good)
  {}

  lemma {:induction false} RetireToGood(s: Store, id: nat, q: Queue, rs: seq<Record>, n: nat, good: Record -> bool)
    requires Retiring1(s, id, q, rs) && n <= |Slots(rs)| && AllGood(s.disk, good)
    ensures Vouches(s, RetireTo(s, id, q, Slots(rs), n), good)
  {
    hide Vouches, RetireEntry, Inv, Thinned, PacksKept;
    if n == 0 {
      VouchesOne(s, s, good);
    } else {
      var t := RetireTo(s, id, q, Slots(rs), n - 1);
      RetireToGood(s, id, q, rs, n - 1, good);
      RetireToOk(s, id, q, rs, n - 1);
      VouchesGood(s, t, good);
      EntryGood(t, id, q, rs, Slots(rs)[n - 1].hash, good);
      VouchesTrans(s, t, RetireEntry(t, id, q, Slots(rs)[n - 1].hash), good);
    }
  }

  lemma RetireGood(s: Store, id: nat, q: Queue, good: Record -> bool)
    requires Inv(s, Some((id, q))) && AllGood(s.disk, good)
    ensures id in Copied(s, id, q, IndexOf(s, id)).packs && Vouches(s, Retire(s, id, q), good)
  {
    RetireOk(s, id, q);
    hide Vouches, Inv, Synced, AllGood, Thinned;
    IndexOk(s, id, q);
    var rs := s.disk[id].records;
    var t := RetireTo(s, id, q, Slots(rs), |Slots(rs)|);
    RetireToGood(s, id, q, rs, |Slots(rs)|, good);
    VouchesGood(s, t, good);
    SyncedGood(t, good);
    VouchesTrans(s, t, Synced(t), good);
    var c := Copied(s, id, q, IndexOf(s, id));
    assert c == t || c == Synced(t);
    VouchesGood(s, c, good);
    VouchesOne(c, Unlinked(c, id, q), good);
    VouchesTrans(s, c, Unlinked(c, id, q), good);
  }

  lemma RoundGood(s: Store, q: Queue, good: Record -> bool)
    requires Inv(s, None) && Get(s, q).bytes > 0 && AllGood(s.disk, good)
    ensures CanRound(s, q) && Vouches(s, Round(s, q), good)
  {
    RoundInv(s, q);
    ReadyInv(s, q);
    var r := Ready(s, q);
    WriterOk(s, None, q);
    SealedGood(s, q, good);
    VouchesOne(s, s, good);
    hide Vouches, Inv, Copied, Retire, Sealed, Thinned;
    VouchesGood(s, r, good);
    PoppedInv(r, q);
    var p, id := Popped(r, q), Get(r, q).packs[0];
    VouchesOne(r, p, good);
    VouchesTrans(s, r, p, good);
    RetireGood(p, id, q, good);
    VouchesTrans(s, p, Retire(p, id, q), good);
  }

  /** What holds of every stored record holds of every record in every directory eviction leaves. */
  lemma {:induction false} EvictGood(s: Store, u: nat, good: Record -> bool)
    requires Inv(s, None) && s.sealBytes > 0 && u <= |s.main.packs| && AllGood(s.disk, good)
    ensures Vouches(s, Evict(s, u), good)
    decreases SmallCount(s), if Total(s) >= 0 then Total(s) else 0, Total(s) + Zeros(s) - u
  {
    hide Inv, Thinned, Round, CanRound, Vouches, AllGood;
    BytesPositive(s);
    if Total(s) <= s.budget {
      VouchesOne(s, s, good);
    } else {
      var q := if OverSmall(s) then Small else Main;
      RoundInv(s, q);
      RoundGood(s, q, good);
      var t := Round(s, q);
      VouchesGood(s, t, good);
      BytesPositive(t);
      if q.Small? {
        DrainStep(s);
        EvictGood(t, u, good);
      } else {
        RotateStep(s);
        if Total(t) < Total(s) {
          EvictGood(t, 0, good);
        } else if u + 1 <= |t.main.packs| {
          EvictGood(t, u + 1, good);
        }
      }
      if Evict(s, u) != t { VouchesTrans(s, t, Evict(s, u), good); }
    }
  }
}

/**
 A chunk forgotten and inserted again with another frame, and the old frame back after a
 restart: eviction copied the old record to a pack younger than the one small is filling.
 */
module ChunkStoreStale {
  import opened Bytes
  import opened Pack
  import opened ChunkStore
  import opened ChunkStoreInv
  import opened ChunkStoreEvict
  import opened ChunkStoreEvictLoop
  import opened ChunkStoreCrash
  import opened ChunkStoreOpen
  import opened ChunkStoreOps
  import opened ChunkStoreRuns
  import ChunkStoreStops
  import opened Graph

  /** `h` is the chunk, `f` its first and `f2` its second frame. `g` comes in between, `z` is cold ballast. */
  datatype Case = Case(budget: nat, h: Hash, g: Hash, z: Hash, f: Frame, f2: Frame, gf: Frame, zf: Frame)
  {
    /** The new chunks fit small's share, the directory is over budget with one of them, not without the ballast. */
    predicate Fits()
    {
      && h != g && h != z && g != z
      && HEADER + |gf| <= budget / SMALL_FRACTION
      && 3 * HEADER + |f| + |zf| + |gf| > budget
      && 3 * HEADER + |f| + |gf| + |f2| <= budget
      && 2 * HEADER + |gf| + |f2| < SealBytes(budget) && HEADER + |f| < SealBytes(budget)
    }

    function Records(): seq<Record> { [Record(h, f), Record(z, zf)] }

    /** One sealed pack with the chunk and the ballast. */
    function Directory(): Image { map[0 := File(Records(), 2, Some(Slots(Records())))] }

    function Calls(): seq<Call> { [Locate(h), Insert(g, gf), Forget(h), Insert(h, f2)] }
  }

  // ---- the store after each step --------------------------------------------------------------

  function Opened0(c: Case): Store
  {
    var size := 2 * HEADER + |c.f| + |c.zf|;
    Store(c.budget, SealBytes(c.budget),
          map[c.h := Entry(0, HEADER, |c.f|, 0), c.z := Entry(0, 2 * HEADER + |c.f|, |c.zf|, 0)],
          map[0 := size], Side([], None, 0), Side([0], None, size), [], {}, map[], 1, c.Directory(), {0}, [])
  }

  /** The hit makes the chunk hot. */
  function Hot(c: Case): Store
  {
    var s := Opened0(c);
    s.(entries := s.entries[c.h := Entry(0, HEADER, |c.f|, 1)])
  }

  /** Another chunk opens pack 1 in small. */
  function Admitted(c: Case): Store
  {
    var s := Hot(c);
    var w := Writer(1, HEADER + |c.gf|, [Slot(c.g, HEADER, |c.gf|)]);
    s.(entries := s.entries[c.g := Entry(1, HEADER, |c.gf|, 0)], small := Side([], Some(w), HEADER + |c.gf|),
       nextId := 2, disk := s.disk[1 := File([Record(c.g, c.gf)], 0, None)], dir := {0, 1})
  }

  function Pack0(c: Case): File { File(c.Records(), 2, Some(Slots(c.Records()))) }

  function Pack2(c: Case): File { File([Record(c.h, c.f)], 1, None) }

  /** Eviction copies the hot chunk to pack 2 in main and drops the rest of pack 0. */
  function Evicted(c: Case): Store
  {
    var v := Writer(1, HEADER + |c.gf|, [Slot(c.g, HEADER, |c.gf|)]);
    var w := Writer(2, HEADER + |c.f|, [Slot(c.h, HEADER, |c.f|)]);
    Store(c.budget, SealBytes(c.budget),
          map[c.g := Entry(1, HEADER, |c.gf|, 0), c.h := Entry(2, HEADER, |c.f|, 0)], map[],
          Side([], Some(v), HEADER + |c.gf|), Side([], Some(w), HEADER + |c.f|), [], {}, map[], 3,
          map[0 := Pack0(c), 1 := File([Record(c.g, c.gf)], 0, None), 2 := Pack2(c)], {1, 2}, [])
  }

  /** The chunk is forgotten and comes in again, to pack 1. */
  function Replaced(c: Case): Store
  {
    var at := 2 * HEADER + |c.gf|;
    var v := Writer(1, at + |c.f2|, [Slot(c.g, HEADER, |c.gf|), Slot(c.h, at, |c.f2|)]);
    var w := Writer(2, HEADER + |c.f|, [Slot(c.h, HEADER, |c.f|)]);
    Store(c.budget, SealBytes(c.budget),
          map[c.g := Entry(1, HEADER, |c.gf|, 0), c.h := Entry(1, at, |c.f2|, 0)], map[],
          Side([], Some(v), at + |c.f2|), Side([], Some(w), HEADER + |c.f|), [], {}, map[], 3,
          map[0 := Pack0(c), 1 := File([Record(c.g, c.gf), Record(c.h, c.f2)], 0, None), 2 := Pack2(c)], {1, 2}, [])
  }

  /** The same store but for its past. */
  predicate Same(s: Store, t: Store) { s == t.(trace := s.trace) }

  // ---- opening ----------------------------------------------------------------------------------

  lemma TwoRecords(a: Record, b: Record)
    ensures Slots([a, b]) == [Slot(a.hash, HEADER, |a.frame|), Slot(b.hash, 2 * HEADER + |a.frame|, |b.frame|)]
    ensures Span([a, b]) == 2 * HEADER + |a.frame| + |b.frame|
  {
    var rs := [a, b];
    assert rs[1..] == [b] && [b][1..] == [];
    assert SlotsFrom(rs, 0) == [Slot(a.hash, HEADER, |a.frame|)] + SlotsFrom([b], a.Size());
    assert SlotsFrom([b], a.Size())
      == [Slot(b.hash, a.Size() + HEADER, |b.frame|)] + SlotsFrom([], a.Size() + b.Size());
    assert Span([b]) == b.Size();
  }

  lemma MergedTwo(a: Slot, b: Slot, id: nat)
    requires a.hash != b.hash
    ensures Merged(map[], id, [a, b])
      == map[a.hash := Entry(id, a.offset, a.len, 0), b.hash := Entry(id, b.offset, b.len, 0)]
  {
    assert [a, b][..1] == [a] && [a][..0] == [];
    assert Merged(map[], id, [a]) == map[a.hash := Entry(id, a.offset, a.len, 0)];
  }

  lemma OpensAs(c: Case, ok: (Hash, Bytes) -> bool, tail: nat -> Bytes)
    requires c.Fits()
    ensures Open(ok, c.Directory(), tail, c.budget, SealBytes(c.budget), [0]) == Opened0(c)
    ensures Inv(Opened0(c), None)
  {
    hide Merged, Slots, Span, Inv;
    TwoRecords(Record(c.h, c.f), Record(c.z, c.zf));
    var file := c.Directory()[0];
    LoadedSealed(ok, file, tail(0));
    MergedTwo(Slots(c.Records())[0], Slots(c.Records())[1], 0);
    assert [0][..0] == [];
    OpenInv(ok, c.Directory(), tail, c.budget, SealBytes(c.budget), [0]);
    assert Open(ok, c.Directory(), tail, c.budget, SealBytes(c.budget), []) == Blank(c.budget, SealBytes(c.budget));
  }

  // ---- the first insert ---------------------------------------------------------------------------

  lemma Heats(c: Case)
    requires c.Fits() && Inv(Opened0(c), None)
    ensures Called(Opened0(c), Locate(c.h)) == Hot(c)
  {
    hide Inv;
  }

  /** A record into a new pack of its queue. */
  function First(s: Store, q: Queue, h: Hash, f: Frame, freq: nat): Store
  {
    var n := HEADER + |f|;
    var x := Get(s, q);
    Put(s.(entries := s.entries[h := Entry(s.nextId, HEADER, |f|, freq)], nextId := s.nextId + 1,
           disk := s.disk[s.nextId := File([Record(h, f)], 0, None)], dir := s.dir + {s.nextId}),
        q, x.(active := Some(Writer(s.nextId, n, [Slot(h, HEADER, |f|)])), bytes := x.bytes + n))
  }

  lemma AppendsFirst(s: Store, q: Queue, h: Hash, f: Frame, freq: nat)
    requires Get(s, q).active.None? && HEADER + |f| < s.sealBytes
    ensures Same(Append(s, q, h, f, freq), First(s, q, h, f, freq))
  {
    var s1 := Opened(s, q);
    assert s1.disk[s.nextId] == File([], 0, None);
    assert [] + [Record(h, f)] == [Record(h, f)] && [] + [Slot(h, HEADER, |f|)] == [Slot(h, HEADER, |f|)];
    var s2 := Written(s1, q, h, f, freq);
    assert s2.disk == s.disk[s.nextId := File([Record(h, f)], 0, None)];
  }

  /** A record behind those of a pack being written. */
  function More(s: Store, q: Queue, h: Hash, f: Frame, freq: nat): Store
    requires Get(s, q).active.Some? && Get(s, q).active.value.id in s.disk
  {
    var x := Get(s, q);
    var w := x.active.value;
    var n := HEADER + |f|;
    Put(s.(entries := s.entries[h := Entry(w.id, w.len + HEADER, |f|, freq)],
           disk := s.disk[w.id := s.disk[w.id].(records := s.disk[w.id].records + [Record(h, f)])]),
        q, x.(active := Some(Writer(w.id, w.len + n, w.entries + [Slot(h, w.len + HEADER, |f|)])),
          bytes := x.bytes + n))
  }

  lemma AppendsMore(s: Store, q: Queue, h: Hash, f: Frame, freq: nat)
    requires Get(s, q).active.Some? && Get(s, q).active.value.id in s.disk
    requires Get(s, q).active.value.len + HEADER + |f| < s.sealBytes
    ensures Same(Append(s, q, h, f, freq), More(s, q, h, f, freq))
  {}

  lemma Admits1(c: Case)
    requires c.Fits()
    ensures Same(Append(GhostTaken(Hot(c), c.g), Admission(Hot(c), c.g), c.g, c.gf, 0), Admitted(c))
  {
    hide Append;
    assert GhostTaken(Hot(c), c.g) == Hot(c);
    AppendsFirst(Hot(c), Small, c.g, c.gf, 0);
  }

  /** A chunk hit once, in a pack of main, is copied to a new one. */
  lemma CopiesOne(p: Store, h: Hash, f: Frame)
    requires h in p.entries && p.entries[h].pack == 0 && p.entries[h].freq == 1 && FrameOf(p, h) == f
    requires p.main.active.None? && HEADER + |f| < p.sealBytes
    ensures Promotes(p, 0, h) && Same(RetireEntry(p, 0, Main, h), First(p.(entries := p.entries - {h}), Main, h, f, 0))
  {
    hide Append, FrameOf;
    AppendsFirst(p.(entries := p.entries - {h}), Main, h, f, 0);
  }

  /** The hot chunk of pack 0 goes to pack 2. */
  lemma CopiesHot(c: Case, p: Store)
    requires c.Fits() && Same(p, Popped(Admitted(c), Main))
    ensures Promotes(p, 0, c.h)
    ensures var t := RetireEntry(p, 0, Main, c.h);
      && t.entries == Evicted(c).entries[c.z := p.entries[c.z]] && t.pins == map[] && t.packs == p.packs
      && t.main == Side([], Evicted(c).main.active, 2 * HEADER + |c.f| + |c.zf| + HEADER + |c.f|)
      && t == p.(entries := t.entries, main := t.main, disk := t.disk, dir := {0, 1, 2}, nextId := 3, trace := t.trace)
      && t.disk == p.disk[2 := File([Record(c.h, c.f)], 0, None)]
  {
    hide Append, Slots, RetireEntry, Promotes, FrameOf;
    FirstFrame(c, p);
    var s := p.(entries := p.entries - {c.h});
    CopiesOne(p, c.h, c.f);
    assert First(s, Main, c.h, c.f, 0).entries == Evicted(c).entries[c.z := p.entries[c.z]];
  }

  lemma FirstFrame(c: Case, p: Store)
    requires c.h in p.entries && p.entries[c.h].pack == 0 && p.entries[c.h].offset == HEADER
      && p.entries[c.h].len == |c.f|
    requires 0 in p.disk && p.disk[0].records == c.Records()
    ensures FrameOf(p, c.h) == c.f
  {
    hide Slots;
    TwoRecords(Record(c.h, c.f), Record(c.z, c.zf));
    SlotReads(c.Records(), 0);
  }

  /** Pack 0 is retired: the ballast goes, the copy is synced, the file is unlinked. */
  lemma Retires0(c: Case, p: Store)
    requires c.Fits() && Same(p, Popped(Admitted(c), Main))
    ensures 0 in Copied(p, 0, Main, IndexOf(p, 0)).packs && Same(Retire(p, 0, Main), Evicted(c))
  {
    hide Slots, RetireEntry, Promotes, GhostPushed;
    TwoRecords(Record(c.h, c.f), Record(c.z, c.zf));
    var slots := Slots(c.Records());
    CopiesHot(c, p);
    var t := RetireEntry(p, 0, Main, c.h);
    DropsBallast(c, t);
    var u := RetireEntry(t, 0, Main, c.z);
    assert RetireTo(p, 0, Main, slots, 0) == p && RetireTo(p, 0, Main, slots, 1) == t;
    assert RetireTo(p, 0, Main, slots, 2) == u;
    assert !PromotesTo(p, 0, Main, slots, 0) && PromotesTo(p, 0, Main, slots, 1) && PromotesTo(p, 0, Main, slots, 2);
    hide RetireTo, PromotesTo;
    assert IndexOf(p, 0) == slots;
    var v := Synced(u);
    assert Copied(p, 0, Main, slots) == v;
    assert v.disk == Evicted(c).disk;
    assert v.packs - {0} == map[];
    assert v.dir - {0} == {1, 2};
  }

  lemma DropsBallast(c: Case, t: Store)
    requires c.Fits() && t.pins == map[] && c.z in t.entries && t.entries[c.z].pack == 0 && t.entries[c.z].freq == 0
    requires t.entries == Evicted(c).entries[c.z := t.entries[c.z]]
    ensures RetireEntry(t, 0, Main, c.z) == t.(entries := Evicted(c).entries)
  {
    assert t.entries - {c.z} == Evicted(c).entries;
  }

  lemma Rounds(c: Case, a: Store)
    requires c.Fits() && Same(a, Admitted(c))
    ensures CanRound(a, Main) && Same(Round(a, Main), Evicted(c))
  {
    hide Retire, Copied;
    assert [0][1..] == [];
    Retires0(c, Popped(a, Main));
  }

  lemma Evicts(c: Case, a: Store)
    requires c.Fits() && Same(a, Admitted(c)) && Inv(a, None)
    ensures a.sealBytes > 0 && Same(Evict(a, 0), Evicted(c))
  {
    hide Inv, Round, CanRound, Thinned;
    Rounds(c, a);
    var t := Round(a, Main);
    assert !OverSmall(a) && Total(a) > a.budget && Total(t) < Total(a) && Total(t) <= t.budget;
    RoundInv(a, Main);
    assert Evict(t, 0) == t;
  }

  lemma NoTrim(s: Store, cap: nat)
    requires |s.ghosts| <= cap
    ensures Trimmed(s, cap) == s
  {}

  lemma FirstInsert(c: Case, s: Store)
    requires c.Fits() && Inv(s, None) && s == Hot(c)
    ensures s.sealBytes > 0 && Same(Called(s, Insert(c.g, c.gf)), Evicted(c))
  {
    hide Inv, Append, Evict, Admitted, Trimmed;
    Admits1(c);
    AdmitInv(s, c.g, c.gf);
    var a := Append(GhostTaken(s, c.g), Admission(s, c.g), c.g, c.gf, 0);
    Evicts(c, a);
    NoTrim(Evict(a, 0), GhostCap(Evict(a, 0)));
  }

  // ---- the second insert --------------------------------------------------------------------------

  /** The store before its chunk is inserted again. */
  predicate Without(c: Case, s: Store) { Same(s, Evicted(c).(entries := Evicted(c).entries - {c.h})) }

  lemma WithoutShape(c: Case, s: Store)
    requires c.Fits() && Without(c, s)
    ensures GhostTaken(s, c.h) == s && Admission(s, c.h) == Small
    ensures s.small.active.Some? && s.small.active.value.id in s.disk
    ensures s.small.active.value.len + HEADER + |c.f2| < s.sealBytes
  {}

  lemma MoreIsReplaced(c: Case, s: Store)
    requires c.Fits() && Without(c, s)
    requires s.small.active.Some? && s.small.active.value.id in s.disk
    ensures Same(More(s, Small, c.h, c.f2, 0), Replaced(c))
  {
    hide Slots, Pack0, Pack2;
    var a, b := Slot(c.g, HEADER, |c.gf|), Slot(c.h, 2 * HEADER + |c.gf|, |c.f2|);
    assert [a] + [b] == [a, b];
    assert [Record(c.g, c.gf)] + [Record(c.h, c.f2)] == [Record(c.g, c.gf), Record(c.h, c.f2)];
    assert More(s, Small, c.h, c.f2, 0).entries == Replaced(c).entries;
    assert More(s, Small, c.h, c.f2, 0).disk == Replaced(c).disk;
  }

  lemma SameTrans(s: Store, t: Store, u: Store)
    requires Same(s, t) && Same(t, u)
    ensures Same(s, u)
  {}

  lemma Admits2(c: Case, s: Store)
    requires c.Fits() && Without(c, s)
    ensures Same(Append(GhostTaken(s, c.h), Admission(s, c.h), c.h, c.f2, 0), Replaced(c))
  {
    hide *;
    WithoutShape(c, s);
    assert Get(s, Small) == s.small by { SmallSide(s); }
    AppendsMore(s, Small, c.h, c.f2, 0);
    MoreIsReplaced(c, s);
    SameTrans(Append(s, Small, c.h, c.f2, 0), More(s, Small, c.h, c.f2, 0), Replaced(c));
  }

  lemma SmallSide(s: Store)
    ensures Get(s, Small) == s.small
  {}

  lemma SecondInsert(c: Case, s: Store)
    requires c.Fits() && Inv(s, None) && Same(s, Evicted(c).(entries := Evicted(c).entries - {c.h}))
    ensures s.sealBytes > 0 && Same(Called(s, Insert(c.h, c.f2)), Replaced(c))
  {
    hide Inv, Append, Trimmed;
    Admits2(c, s);
    AdmitInv(s, c.h, c.f2);
    var a := Append(GhostTaken(s, c.h), Admission(s, c.h), c.h, c.f2, 0);
    assert Total(a) <= a.budget;
    assert Evict(a, 0) == a;
    NoTrim(a, GhostCap(a));
  }

  // ---- the run ------------------------------------------------------------------------------------

  lemma AfterOne(s: Store, calls: seq<Call>, c: Call)
    requires Inv(s, None) && s.sealBytes > 0
    ensures After(s, calls + [c]) == Called(After(s, calls), c) && After(s, []) == s
  {
    assert (calls + [c])[..|calls|] == calls;
  }

  lemma Runs(c: Case)
    requires c.Fits() && Inv(Opened0(c), None)
    ensures Same(After(Opened0(c), c.Calls()), Replaced(c))
  {
    hide Inv, After, Called, Evicted, Replaced, Hot, Filled, Grows;
    var s := Opened0(c);
    var a, b, d, e := Locate(c.h), Insert(c.g, c.gf), Forget(c.h), Insert(c.h, c.f2);
    AfterOne(s, [], a);
    AfterOne(s, [a], b);
    AfterOne(s, [a, b], d);
    AfterOne(s, [a, b, d], e);
    assert [] + [a] == [a] && [a] + [b] == [a, b] && [a, b] + [d] == [a, b, d] && [a, b, d] + [e] == c.Calls();
    Heats(c);
    FirstInsert(c, After(s, [a]));
    Forgets(c, After(s, [a, b]));
    SecondInsert(c, After(s, [a, b, d]));
  }

  lemma Forgets(c: Case, s: Store)
    requires Inv(s, None) && s.sealBytes > 0 && Same(s, Evicted(c))
    ensures Same(Called(s, Forget(c.h)), Evicted(c).(entries := Evicted(c).entries - {c.h}))
  {}

  // ---- the restart --------------------------------------------------------------------------------

  /** Pack 2 was synced with the old record in it. */
  lemma OldRecord(c: Case, ok: (Hash, Bytes) -> bool)
    requires ok(c.h, c.f)
    ensures Loaded(ok, File([Record(c.h, c.f)], 1, None), []).records == [Record(c.h, c.f)]
  {
    var rs := [Record(c.h, c.f)];
    assert rs[..1] == rs;
    IntactAll(ok, rs);
    assert Verified(ok, rs) == 1 by { assert rs[1..] == []; }
  }

  lemma Reopens(c: Case, s: Store, ok: (Hash, Bytes) -> bool, tail: nat -> Bytes, budget: nat)
    requires Same(s, Replaced(c)) && ok(c.h, c.f) && tail(2) == []
    ensures var t := Open(ok, Now(s), tail, budget, SealBytes(budget), [1, 2]);
      c.h in t.entries && FrameOf(t, c.h) == c.f
  {
    hide Loaded, Open, FrameOf;
    var img, ids := Now(s), [1, 2];
    assert img.Keys == {1, 2} && img[2] == File([Record(c.h, c.f)], 1, None);
    assert Elems(ids) == {1, 2};
    OldRecord(c, ok);
    OpenHolds(ok, img, tail, budget, SealBytes(budget), ids, c.h);
    OpenInv(ok, img, tail, budget, SealBytes(budget), ids);
    ReopenReadsIff(ok, img, tail, budget, SealBytes(budget), ids, c.h, 2, 0);
  }

  /**
   The cache reads the second frame, and after a restart the first one again, whatever
   became of pack 1: pack 2, with the higher id, is loaded after it.
   */
  lemma OldFrameReturns(c: Case, ok: (Hash, Bytes) -> bool, tail: nat -> Bytes, tail2: nat -> Bytes, budget: nat)
    requires c.Fits() && ok(c.h, c.f) && tail2(2) == []
    ensures var s := Open(ok, c.Directory(), tail, c.budget, SealBytes(c.budget), [0]);
      && Inv(s, None) && s.sealBytes > 0
      && var t := After(s, c.Calls());
         && c.h in t.entries && FrameOf(t, c.h) == c.f2 && Now(t).Keys == {1, 2}
         && var u := Open(ok, Now(t), tail2, budget, SealBytes(budget), [1, 2]);
            c.h in u.entries && FrameOf(u, c.h) == c.f
  {
    hide Inv, Open, After, FrameOf, Filled, Grows;
    OpensAs(c, ok, tail);
    Runs(c);
    var t := After(Opened0(c), c.Calls());
    SecondFrame(c, t);
    Reopens(c, t, ok, tail2, budget);
  }

  lemma SecondFrame(c: Case, t: Store)
    requires Same(t, Replaced(c)) && c.Fits()
    ensures c.h in t.entries && FrameOf(t, c.h) == c.f2 && Now(t).Keys == {1, 2}
  {
    hide Slots;
    var rs := [Record(c.g, c.gf), Record(c.h, c.f2)];
    TwoRecords(rs[0], rs[1]);
    SlotReads(rs, 1);
    assert t.disk[1].records == rs;
  }

  /** There are such cases: a budget of 400 bytes and 400 bytes of ballast. */
  lemma SomeCase() returns (c: Case)
    ensures c.Fits() && c.f != c.f2
  {
    ChunkStoreStops.Distinct3();
    c := Case(400, ChunkStoreStops.H(0), ChunkStoreStops.H(1), ChunkStoreStops.H(2), [], [1], [], seq(400, i => 0));
  }
}

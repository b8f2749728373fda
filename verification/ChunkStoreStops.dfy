/**
 Eviction counts rounds against the packs left in main, so short packs that merge
 into one end it early: cold packs further back are never visited.
 */
module ChunkStoreStops {
  import opened Bytes
  import opened Pack
  import opened ChunkStore
  import opened ChunkStoreInv
  import opened ChunkStoreEvict
  import opened ChunkStoreBudget
  import opened ChunkStoreEvictLoop
  import opened ChunkStoreOpen
  import opened ChunkStoreOps
  import opened Graph

  /** A store as it is after a restart: short packs, all in main. */
  predicate Lone(s: Store, id: nat, h: Hash)
  {
    && id in s.disk && s.disk[id].records == [Record(h, [])]
    && h in s.entries && s.entries[h] == Entry(id, HEADER, 0, 0)
  }

  lemma LoneSlots(h: Hash)
    ensures Slots([Record(h, [])]) == [Slot(h, HEADER, 0)] && Span([Record(h, [])]) == HEADER
  {
    var rs := [Record(h, [])];
    assert rs[1..] == [];
    assert SlotsFrom(rs, 0) == [Slot(h, HEADER, 0)] + SlotsFrom([], HEADER);
  }

  /** Only the entry moved, to a pack still open. */
  predicate Moved(s: Store, t: Store, h: Hash)
  {
    && Wrote(s, t, HEADER) && t.budget == s.budget && t.pins == s.pins && Grows(s.disk, t.disk)
    && (forall k <- s.packs :: k in t.disk && k in s.disk && t.disk[k].records == s.disk[k].records)
    && forall g <- s.entries :: g != h ==> g in t.entries && t.entries[g] == s.entries[g]
  }

  lemma GainedKeeps(s: Store, t: Store, h: Hash, f: Bytes, freq: nat)
    requires Gained(s, t, Main, h, f, freq)
    ensures t.budget == s.budget && t.pins == s.pins && Grows(s.disk, t.disk)
    ensures forall k <- s.packs :: k in t.disk && k in s.disk && t.disk[k].records == s.disk[k].records
    ensures forall g <- s.entries :: g != h ==> g in t.entries && t.entries[g] == s.entries[g]
  {}

  lemma AppendLone(s: Store, out: Retiring, h: Hash)
    requires Inv(s, out) && h !in s.entries && ActiveLen(s.main) + HEADER < s.sealBytes
    ensures Moved(s, Append(s, Main, h, [], 0), h)
  {
    hide Inv, Opened, Written, Sealed, Gained;
    AppendInv(s, out, Main, h, [], 0);
    WriteAdvances(s, out, h, [], 0);
    GainedKeeps(s, Append(s, Main, h, [], 0), h, [], 0);
  }

  lemma MoveLone(s: Store, id: nat, h: Hash)
    requires Inv(s, Some((id, Main))) && Lone(s, id, h) && h in s.pins && ActiveLen(s.main) + HEADER < s.sealBytes
    ensures Moved(s, RetireEntry(s, id, Main, h), h)
  {
    hide Inv, Append;
    IndexOk(s, id, Main);
    HotFrame(s, id, Main, s.disk[id].records, h);
    var s1 := s.(entries := s.entries - {h});
    AppendLone(s1, Some((id, Main)), h);
    assert FrameOf(s, h) == [];
  }

  /** Retiring a pack of one pinned chunk: one pack fewer, as many bytes. */
  lemma RetireLone(s: Store, id: nat, h: Hash)
    requires Inv(s, Some((id, Main))) && Lone(s, id, h) && h in s.pins && ActiveLen(s.main) + HEADER < s.sealBytes
    ensures id in Copied(s, id, Main, IndexOf(s, id)).packs
    ensures var t := Retire(s, id, Main);
      && t.main.packs == s.main.packs && Total(t) == Total(s) && ActiveLen(t.main) == ActiveLen(s.main) + HEADER
      && t.small == s.small && t.budget == s.budget && t.sealBytes == s.sealBytes && t.pins == s.pins
      && (forall g <- s.entries :: g != h ==> g in t.entries && t.entries[g] == s.entries[g])
      && (forall k <- s.packs :: k in t.disk && k in s.disk && t.disk[k].records == s.disk[k].records)
  {
    hide Inv, RetireEntry, Thinned;
    RetireOk(s, id, Main);
    IndexOk(s, id, Main);
    LoneSlots(h);
    var slots := [Slot(h, HEADER, 0)];
    MoveLone(s, id, h);
    var t := RetireEntry(s, id, Main, h);
    assert RetireTo(s, id, Main, slots, 0) == s;
    assert RetireTo(s, id, Main, slots, 1) == t;
    hide RetireTo, PromotesTo;
    assert Copied(s, id, Main, IndexOf(s, id)) == t || Copied(s, id, Main, IndexOf(s, id)) == Synced(t);
    assert t.packs == s.packs && s.packs[id] == HEADER;
  }

  predicate LoneHead(s: Store, h: Hash)
  {
    && s.main.packs != [] && Lone(s, s.main.packs[0], h) && h in s.pins && s.main.packs[0] in s.packs
    && ActiveLen(s.main) + HEADER < s.sealBytes && s.main.bytes > 0
  }

  predicate Passed(s: Store, t: Store, h: Hash)
  {
    && s.main.packs != [] && t.main.packs == s.main.packs[1..] && Total(t) == Total(s)
    && ActiveLen(t.main) == ActiveLen(s.main) + HEADER
    && t.small == s.small && t.budget == s.budget && t.sealBytes == s.sealBytes && t.pins == s.pins
    && (forall g <- s.entries :: g != h ==> g in t.entries && t.entries[g] == s.entries[g])
    && (forall k <- s.packs :: k in t.disk && k in s.disk && t.disk[k].records == s.disk[k].records)
  }

  /** A round over a pack of one pinned chunk frees nothing and leaves one pack fewer. */
  lemma LoneRound(s: Store, h: Hash)
    requires Inv(s, None) && LoneHead(s, h)
    ensures CanRound(s, Main) && Inv(Round(s, Main), None) && Passed(s, Round(s, Main), h)
  {
    RoundInv(s, Main);
    hide Inv, Retire, Copied, Thinned;
    PoppedInv(s, Main);
    RetireLone(Popped(s, Main), s.main.packs[0], h);
  }

  // ---- three short packs --------------------------------------------------------------

  function H(k: byte): Hash { seq(32, i => k) }

  function LoneFile(k: byte): File { File([Record(H(k), [])], 1, Some([Slot(H(k), HEADER, 0)])) }

  /** A directory of three sealed packs of one chunk each. */
  function Files(): Image { map[0 := LoneFile(0), 1 := LoneFile(1), 2 := LoneFile(2)] }

  /** It is opened with a budget for two of them, and the first two are pinned. */
  function Reopened(): Store
  {
    var files := Files();
    Store(2 * HEADER, SealBytes(2 * HEADER),
          map[H(0) := Entry(0, HEADER, 0, 0), H(1) := Entry(1, HEADER, 0, 0), H(2) := Entry(2, HEADER, 0, 0)],
          map[0 := HEADER, 1 := HEADER, 2 := HEADER],
          Side([], None, 0), Side([0, 1, 2], None, 3 * HEADER),
          [], {}, map[H(0) := 1, H(1) := 1], 3, files, {0, 1, 2}, [])
  }

  /** One more pack of one chunk loaded. */
  lemma LoadLone(s: Store, k: byte, id: nat)
    ensures LoadOne(s, id, LoneFile(k)) ==
      LoadPack(s.(entries := s.entries[H(k) := Entry(id, HEADER, 0, 0)]), id, LoneFile(k), HEADER)
  {
    LoneSlots(H(k));
    var slots := [Slot(H(k), HEADER, 0)];
    assert slots[..0] == [];
    assert Merged(s.entries, id, slots) == Merged(s.entries, id, slots[..0])[H(k) := Entry(id, HEADER, 0, 0)];
  }

  lemma LoneLoads(ok: (Hash, Bytes) -> bool, k: byte, tail: Bytes)
    ensures Loaded(ok, LoneFile(k), tail) == LoneFile(k)
  {
    LoneSlots(H(k));
  }

  lemma OpenOne(ok: (Hash, Bytes) -> bool, tail: nat -> Bytes, ids: seq<nat>, k: byte)
    requires k as nat in Files() && Files()[k as nat] == LoneFile(k)
    ensures var b, n := 2 * HEADER, SealBytes(2 * HEADER);
      Open(ok, Files(), tail, b, n, ids + [k as nat])
        == LoadOne(Open(ok, Files(), tail, b, n, ids), k as nat, LoneFile(k))
  {
    assert (ids + [k as nat])[..|ids|] == ids;
    LoneLoads(ok, k, tail(k as nat));
  }

  /** The store is what opening the directory and pinning two chunks gives. */
  lemma ReopenedByCalls(ok: (Hash, Bytes) -> bool, tail: nat -> Bytes)
    ensures var t := Open(ok, Files(), tail, 2 * HEADER, SealBytes(2 * HEADER), [0, 1, 2]);
      Reopened() == t.(pins := Pinned(t.pins, [H(0), H(1)]))
  {
    hide Loaded, LoadOne, Merged, Open;
    var b, n := 2 * HEADER, SealBytes(2 * HEADER);
    OpenOne(ok, tail, [], 0);
    OpenOne(ok, tail, [0], 1);
    OpenOne(ok, tail, [0, 1], 2);
    assert [] + [0] == [0] && [0] + [1] == [0, 1] && [0, 1] + [2] == [0, 1, 2];
    OpenNone(ok, tail);
    var s := Blank(b, n);
    LoadLone(s, 0, 0);
    var s0 := LoadOne(s, 0, LoneFile(0));
    LoadLone(s0, 1, 1);
    var s1 := LoadOne(s0, 1, LoneFile(1));
    LoadLone(s1, 2, 2);
    Distinct3();
    PinTwo(H(0), H(1));
  }

  lemma OpenNone(ok: (Hash, Bytes) -> bool, tail: nat -> Bytes)
    ensures Open(ok, Files(), tail, 2 * HEADER, SealBytes(2 * HEADER), []) == Blank(2 * HEADER, SealBytes(2 * HEADER))
  {}

  lemma PinTwo(a: Hash, b: Hash)
    requires a != b
    ensures Pinned(map[], [a, b]) == map[a := 1, b := 1]
  {
    assert [a, b][..1] == [a] && [a][..0] == [];
    assert Pinned(map[], [a]) == map[a := 1];
  }

  lemma Distinct3()
    ensures H(0) != H(1) && H(1) != H(2) && H(0) != H(2)
  {
    assert H(0)[0] == 0 && H(1)[0] == 1 && H(2)[0] == 2;
  }

  lemma ReopenedInv()
    ensures Inv(Reopened(), None)
  {
    hide Inv, Open, Pinned;
    var ok, tail := (h: Hash, f: Bytes) => true, (id: nat) => [];
    ReopenedByCalls(ok, tail);
    OpenInv(ok, Files(), tail, 2 * HEADER, SealBytes(2 * HEADER), [0, 1, 2]);
    var o := Open(ok, Files(), tail, 2 * HEADER, SealBytes(2 * HEADER), [0, 1, 2]);
    PinsInv(o, Pinned(o.pins, [H(0), H(1)]));
  }

  lemma PinsInv(s: Store, pins: map<Hash, nat>)
    requires Inv(s, None)
    ensures Inv(s.(pins := pins), None)
  {
    InvLocal(s, s.(pins := pins), None);
  }

  lemma StopsAtTwo(s: Store, h0: Hash, h1: Hash, h2: Hash)
    requires Inv(s, None) && |s.main.packs| == 3 && LoneHead(s, h0) && Total(s) > s.budget && !OverSmall(s)
    requires Lone(s, s.main.packs[1], h1) && h1 in s.pins && s.main.packs[1] in s.packs && h1 != h0
    requires h2 in s.entries && h2 !in {h0, h1} && s.entries[h2].pack == s.main.packs[2]
    requires ActiveLen(s.main) + 2 * HEADER < s.sealBytes
    ensures var t := Evict(s, 0);
      Total(t) == Total(s) && h2 in t.entries && t.entries[h2] == s.entries[h2] && t.pins == s.pins
        && t.main.packs == [s.main.packs[2]]
  {
    hide Inv, Round, CanRound, Passed, Thinned;
    LoneRound(s, h0);
    var s1 := Round(s, Main);
    PassedHead(s, s1, h0, h1);
    LoneRound(s1, h1);
    var s2 := Round(s1, Main);
    PassedTwice(s, s1, s2, h0, h1);
    assert Evict(s1, 1) == s2;
    assert Evict(s, 0) == s2;
  }

  lemma PassedHead(s: Store, t: Store, h0: Hash, h1: Hash)
    requires Passed(s, t, h0) && |s.main.packs| == 3 && Inv(t, None) && Total(s) > s.budget && !OverSmall(s)
    requires Lone(s, s.main.packs[1], h1) && h1 in s.pins && s.main.packs[1] in s.packs && h1 != h0
    requires ActiveLen(s.main) + 2 * HEADER < s.sealBytes
    ensures LoneHead(t, h1) && |t.main.packs| == 2 && Total(t) == Total(s) && t.budget == s.budget && !OverSmall(t)
    ensures t.sealBytes == s.sealBytes
  {
    IndexOk1(t);
  }

  /** The head of the queue is a sealed pack. */
  lemma IndexOk1(s: Store)
    requires Inv(s, None) && s.main.packs != []
    ensures s.main.packs[0] in s.packs
  {
    assert Packs(s, None, Main) == s.main.packs;
    assert s.main.packs[0] in Elems(s.main.packs);
  }

  lemma PassedTwice(s: Store, t: Store, u: Store, h0: Hash, h1: Hash)
    requires Passed(s, t, h0) && Passed(t, u, h1) && |s.main.packs| == 3
    ensures u.main.packs == [s.main.packs[2]] && Total(u) == Total(s) && u.pins == s.pins && u.budget == s.budget
    ensures forall g <- s.entries :: g !in {h0, h1} ==> g in u.entries && u.entries[g] == s.entries[g]
  {}

  // ---- the insert that finds it so ----------------------------------------------------------

  /** The store after a small cold chunk came into an empty small queue. */
  predicate Came(s: Store, a: Store, x: Hash)
  {
    && a.main == s.main && a.packs == s.packs && a.pins == s.pins && a.budget == s.budget && a.sealBytes == s.sealBytes
    && a.small == Side([], Some(Writer(s.nextId, HEADER, [Slot(x, HEADER, 0)])), HEADER)
    && a.entries == s.entries[x := Entry(s.nextId, HEADER, 0, 0)]
    && a.disk == s.disk[s.nextId := File([Record(x, [])], 0, None)]
  }

  lemma Comes(s: Store, x: Hash)
    requires s.small == Side([], None, 0) && HEADER < s.sealBytes
    ensures Came(s, Append(s, Small, x, [], 0), x)
  {
    var s1 := Opened(s, Small);
    assert s1.disk[s.nextId] == File([], 0, None);
    var s2 := Written(s1, Small, x, [], 0);
    assert [] + [Record(x, [])] == [Record(x, [])] && [] + [Slot(x, HEADER, 0)] == [Slot(x, HEADER, 0)];
    assert s2.disk == s.disk[s.nextId := File([Record(x, [])], 0, None)];
  }

  /** It went again, and only its ghost is left. */
  predicate Went(s: Store, t: Store)
  {
    && t.main == s.main && t.small == Side([], None, 0) && t.packs == s.packs && t.entries == s.entries
    && t.pins == s.pins && t.budget == s.budget && t.sealBytes == s.sealBytes
    && forall k <- s.disk :: k in t.disk && t.disk[k] == s.disk[k]
  }

  /** Its pack is sealed and off the queue. */
  predicate Off(s: Store, p: Store, x: Hash)
  {
    && p.main == s.main && p.pins == s.pins && p.budget == s.budget && p.sealBytes == s.sealBytes
    && p.small == Side([], None, HEADER) && p.packs == s.packs[s.nextId := HEADER]
    && p.entries == s.entries[x := Entry(s.nextId, HEADER, 0, 0)]
    && p.disk == s.disk[s.nextId := File([Record(x, [])], 1, Some([Slot(x, HEADER, 0)]))]
  }

  lemma TakenOff(s: Store, a: Store, x: Hash)
    requires Came(s, a, x)
    ensures var r := Ready(a, Small); r.small.packs == [s.nextId] && Off(s, Popped(r, Small), x)
  {
    var id := s.nextId;
    assert [] + [id] == [id] && [id][1..] == [];
    var r := Sealed(a, Small);
    assert r.disk == s.disk[id := File([Record(x, [])], 1, Some([Slot(x, HEADER, 0)]))];
  }

  /** A pack of one cold chunk of small is dropped as a whole. */
  lemma DropLone(p: Store, id: nat, x: Hash)
    requires id in p.disk && p.disk[id].index == Some([Slot(x, HEADER, 0)]) && id in p.packs && Owns(p, id, x)
    requires Cold(p, x)
    ensures id in Copied(p, id, Small, IndexOf(p, id)).packs
    ensures Retire(p, id, Small) == Unlinked(GhostPushed(p.(entries := p.entries - {x}), x), id, Small)
  {
    var slots := [Slot(x, HEADER, 0)];
    assert RetireTo(p, id, Small, slots, 0) == p && RetireTo(p, id, Small, slots, 1) == RetireEntry(p, id, Small, x);
    assert !PromotesTo(p, id, Small, slots, 0) && !PromotesTo(p, id, Small, slots, 1);
  }

  lemma GoesOff(s: Store, p: Store, x: Hash)
    requires Off(s, p, x) && x !in s.entries && x !in s.pins && s.nextId !in s.disk && s.nextId !in s.packs
    ensures s.nextId in Copied(p, s.nextId, Small, IndexOf(p, s.nextId)).packs && Went(s, Retire(p, s.nextId, Small))
  {
    hide Copied, Retire;
    DropLone(p, s.nextId, x);
    assert p.entries - {x} == s.entries;
    assert p.packs - {s.nextId} == s.packs;
  }

  lemma Goes(s: Store, a: Store, x: Hash)
    requires Came(s, a, x) && x !in s.entries && x !in s.pins && s.nextId !in s.disk && s.nextId !in s.packs
    ensures CanRound(a, Small) && Went(s, Round(a, Small))
  {
    hide Copied, Retire, Ready, Popped, Off, Went, Came;
    TakenOff(s, a, x);
    GoesOff(s, Popped(Ready(a, Small), Small), x);
  }

  lemma ComeAndGo(s: Store, x: Hash)
    requires Inv(s, None) && s.small == Side([], None, 0) && HEADER < s.sealBytes && x !in s.entries && x !in s.pins
    requires Total(s) + HEADER > s.budget && s.budget / SMALL_FRACTION < HEADER
    ensures Inv(Append(s, Small, x, [], 0), None) && Append(s, Small, x, [], 0).sealBytes > 0
    ensures var a := Append(s, Small, x, [], 0);
      CanRound(a, Small) && Inv(Round(a, Small), None) && Went(s, Round(a, Small))
        && Evict(a, 0) == Evict(Round(a, Small), 0)
  {
    AppendInv(s, None, Small, x, [], 0);
    Comes(s, x);
    var a := Append(s, Small, x, [], 0);
    NextFree(s);
    hide Inv, Append, Round, CanRound, Gained, Thinned;
    Goes(s, a, x);
    RoundInv(a, Small);
  }

  lemma NextFree(s: Store)
    requires Inv(s, None)
    ensures s.nextId !in s.disk && s.nextId !in s.packs
  {}

  /** Three packs of one chunk each, the first two pinned and the third cold. */
  predicate Stuck(s: Store, h0: Hash, h1: Hash, h2: Hash)
  {
    && |s.main.packs| == 3 && LoneHead(s, h0) && Total(s) > s.budget && !OverSmall(s)
    && Lone(s, s.main.packs[1], h1) && h1 in s.pins && s.main.packs[1] in s.packs && h1 != h0
    && h2 in s.entries && h2 !in {h0, h1} && s.entries[h2].pack == s.main.packs[2] && Cold(s, h2)
    && ActiveLen(s.main) + 2 * HEADER < s.sealBytes
  }

  lemma ReopenedStuck()
    ensures Stuck(Reopened(), H(0), H(1), H(2)) && Reopened().small == Side([], None, 0)
  {
    Distinct3();
  }

  lemma WentStuck(s: Store, t: Store, h0: Hash, h1: Hash, h2: Hash)
    requires Stuck(s, h0, h1, h2) && Went(s, t) && s.small == Side([], None, 0)
    ensures Stuck(t, h0, h1, h2) && t.budget == s.budget && t.sealBytes == s.sealBytes
  {}

  /** Stopped over budget with a cold chunk in a pack of main. */
  predicate Stopped(t: Store, budget: nat, h: Hash)
  {
    Total(t) > budget && h in t.entries && Cold(t, h) && t.entries[h].pack in t.main.packs
  }

  lemma StuckStops(s: Store, h0: Hash, h1: Hash, h2: Hash)
    requires Inv(s, None) && Stuck(s, h0, h1, h2)
    ensures s.sealBytes > 0 && Stopped(Evict(s, 0), s.budget, h2)
  {
    hide Inv, Evict, LoneHead;
    StopsAtTwo(s, h0, h1, h2);
  }

  lemma TrimmedStopped(s: Store, cap: nat, budget: nat, h: Hash)
    requires Inv(s, None) && Stopped(s, budget, h)
    ensures Stopped(Trimmed(s, cap), budget, h)
  {
    TrimmedOk(s, cap);
  }

  /** Inserting into such a store: the new chunk goes, and eviction stops at the pinned ones. */
  lemma InsertStops(s: Store, h0: Hash, h1: Hash, h2: Hash, x: Hash)
    requires Inv(s, None) && Stuck(s, h0, h1, h2) && s.small == Side([], None, 0) && s.sealBytes > HEADER
    requires x !in s.entries && x !in s.pins && s.ghostSet == {} && s.budget / SMALL_FRACTION < HEADER
    ensures Stopped(Inserted(s, x, []), s.budget, h2)
  {
    hide Inv, Evict, Append, Round, CanRound, Went, Trimmed, Stopped, Thinned;
    assert GhostTaken(s, x) == s;
    assert Total(s) > s.budget;
    ComeAndGo(s, x);
    var a := Append(s, Small, x, [], 0);
    AdmitInv(s, x, []);
    var t := Round(a, Small);
    WentStuck(s, t, h0, h1, h2);
    StuckStops(t, h0, h1, h2);
    EvictKeeps(a, 0);
    var u := Evict(a, 0);
    TrimmedStopped(u, GhostCap(u), s.budget, h2);
  }

  /**
   A chunk inserted into a cache just opened: eviction stops over budget although a cold
   chunk, pack and all, could go.
   */
  lemma StopsEarly(ok: (Hash, Bytes) -> bool, tail: nat -> Bytes)
    ensures var o := Open(ok, Files(), tail, 2 * HEADER, SealBytes(2 * HEADER), [0, 1, 2]);
      && Inv(o.(pins := Pinned(o.pins, [H(0), H(1)])), None)
      && o.sealBytes > 0 && Stopped(Inserted(o.(pins := Pinned(o.pins, [H(0), H(1)])), H(3), []), 2 * HEADER, H(2))
  {
    hide Inv, Stuck, Stopped, Open, Inserted, Pinned;
    ReopenedByCalls(ok, tail);
    ReopenedInv();
    ReopenedStuck();
    var s := Reopened();
    assert H(3)[0] == 3 && H(0)[0] == 0 && H(1)[0] == 1 && H(2)[0] == 2;
    InsertStops(s, H(0), H(1), H(2), H(3));
  }

  // ---- short packs are not always in the way ----------------------------------------------------

  /** A directory of one short pack, opened with no budget, its chunk pinned. */
  function Single(): Store
  {
    Store(0, SealBytes(0), map[H(0) := Entry(0, HEADER, 0, 0)], map[0 := HEADER], Side([], None, 0),
      Side([0], None, HEADER),
          [], {}, map[H(0) := 1], 1, map[0 := LoneFile(0)], {0}, [])
  }

  lemma SingleInv()
    ensures Inv(Single(), None)
  {
    hide Inv, LoadOne;
    LoneSlots(H(0));
    BlankFresh(map[], 0, SealBytes(0));
    var b := Blank(0, SealBytes(0));
    LoadLone(b, 0, 0);
    LoadOneInv(b, 0, LoneFile(0));
    PinsInv(LoadOne(b, 0, LoneFile(0)), map[H(0) := 1]);
    assert Single() == LoadOne(b, 0, LoneFile(0)).(pins := map[H(0) := 1]);
  }

  /** One round over a single pack of a pinned chunk visits all there is. */
  lemma LoneLive(s: Store, h: Hash)
    requires Inv(s, None) && s.sealBytes > 0 && LoneHead(s, h) && |s.main.packs| == 1 && s.main.active.None?
    requires Total(s) > s.budget && !OverSmall(s)
    ensures var t := Evict(s, 0); Total(t) > s.budget && forall id <- Order(t) :: Live(t, id, Kept(s))
  {
    hide Inv, LoneHead, Passed, Round, CanRound, Thinned, Live, Full, Short;
    LoneRound(s, h);
    var t := Round(s, Main);
    HeadBytes(s, h);
    PassedAll(s, t, h);
    assert Evict(s, 0) == t;
    TriviallyTidy(s, Kept(s));
    MainRound(s, 1, Kept(s));
    assert Tidy(t, 0, Kept(s));
  }

  lemma HeadBytes(s: Store, h: Hash)
    requires LoneHead(s, h)
    ensures s.main.bytes > 0
  {}

  lemma PassedAll(s: Store, t: Store, h: Hash)
    requires Passed(s, t, h) && |s.main.packs| == 1
    ensures t.main.packs == [] && Total(t) == Total(s)
  {}

  /** Filled packs are not necessary: a short one is in the way only if it merges with others. */
  lemma ShortButLive()
    ensures var s := Single();
      && Inv(s, None) && s.sealBytes > 0 && !Full(s, 0)
      && var t := Evict(s, 0); Total(t) > s.budget && forall id <- Order(t) :: Live(t, id, Kept(s))
  {
    SingleInv();
    hide Inv, Evict, Live;
    var s := Single();
    assert SizeOf(s.packs, s.main.packs[0]) < s.sealBytes;
    LoneLive(s, H(0));
  }
}

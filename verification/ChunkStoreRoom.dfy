/**
 When and what the cache evicts: nothing while there is room, then the oldest pack of one
 queue at a time, and of that what was not hit since.
 */
module ChunkStoreRoom {
  import opened Bytes
  import opened Pack
  import opened ChunkStore
  import opened ChunkStoreInv
  import opened ChunkStoreEvict
  import opened ChunkStoreBudget
  import opened ChunkStoreEvictLoop
  import opened ChunkStoreCrash
  import opened ChunkStoreOps
  import opened ChunkStoreRuns
  import opened Graph

  // ---- one retirement -------------------------------------------------------------------

  /** The pack the queue has had longest. */
  function Oldest(s: Store, q: Queue): nat
  {
    if Get(s, q).packs != [] then Get(s, q).packs[0]
    else if Get(s, q).active.Some? then Get(s, q).active.value.id else 0
  }

  lemma EntryApart(s: Store, id: nat, q: Queue, rs: seq<Record>, g: Hash, h: Hash)
    requires Retiring1(s, id, q, rs) && h in s.entries && !Owns(s, id, h)
    ensures var t := RetireEntry(s, id, q, g); h in t.entries && t.entries[h] == s.entries[h]
  {
    hide Inv, Append, Gained;
    if Promotes(s, id, g) {
      HotFrame(s, id, q, rs, g);
      var s1 := s.(entries := s.entries - {g});
      var freq := if q.Small? || s.entries[g].freq == 0 then s.entries[g].freq else s.entries[g].freq - 1;
      AppendInv(s1, Some((id, q)), Main, g, FrameOf(s, g), freq);
      GainedRest(s, s1, RetireEntry(s, id, q, g), g, FrameOf(s, g), freq);
    }
  }

  lemma {:induction false} RetireToApart(s: Store, id: nat, q: Queue, rs: seq<Record>, n: nat, h: Hash)
    requires Retiring1(s, id, q, rs) && n <= |Slots(rs)| && h in s.entries && !Owns(s, id, h)
    ensures var t := RetireTo(s, id, q, Slots(rs), n); h in t.entries && t.entries[h] == s.entries[h]
  {
    hide RetireEntry, Inv, PacksKept, Slots, Thinned;
    if n > 0 {
      var t, g := RetireTo(s, id, q, Slots(rs), n - 1), Slots(rs)[n - 1].hash;
      RetireToApart(s, id, q, rs, n - 1, h);
      RetireToOk(s, id, q, rs, n - 1);
      EntryApart(t, id, q, rs, g, h);
    }
  }

  /** A chunk of another pack is not touched. */
  lemma RetireApart(s: Store, id: nat, q: Queue, h: Hash)
    requires Inv(s, Some((id, q))) && h in s.entries && !Owns(s, id, h)
    ensures id in Copied(s, id, q, IndexOf(s, id)).packs
    ensures var t := Retire(s, id, q); h in t.entries && t.entries[h] == s.entries[h]
  {
    hide Inv, RetireTo, PromotesTo, PacksKept, Slots, Thinned;
    RetireOk(s, id, q);
    IndexOk(s, id, q);
    RetireToApart(s, id, q, s.disk[id].records, |Slots(s.disk[id].records)|, h);
  }

  /** What a round does to a chunk: left alone, dropped, or in main and at most one cooler. */
  predicate Outcome(e: Entry, pinned: bool, q: Queue, oldest: nat, t: Store, h: Hash)
  {
    if e.pack != oldest then h in t.entries && t.entries[h] == e
    else if e.freq == 0 && !pinned then h !in t.entries
    else
      && h in t.entries && t.entries[h].pack in Order(t)
      && t.entries[h].freq == if q.Main? && e.freq > 0 then e.freq - 1 else e.freq
  }

  lemma ReadyOldest(s: Store, q: Queue)
    requires Inv(s, None) && Get(s, q).bytes > 0
    ensures Get(Ready(s, q), q).packs != [] && Get(Ready(s, q), q).packs[0] == Oldest(s, q)
    ensures Ready(s, q).entries == s.entries && Ready(s, q).pins == s.pins
  {
    ReadyInv(s, q);
  }

  /** A round takes the oldest pack: its hot and pinned chunks go to main, the cold ones leave. */
  lemma RoundOutcome(s: Store, q: Queue, h: Hash)
    requires Inv(s, None) && Get(s, q).bytes > 0 && h in s.entries
    ensures CanRound(s, q) && Outcome(s.entries[h], h in s.pins, q, Oldest(s, q), Round(s, q), h)
  {
    hide Inv, Ready, Retire, Copied, Thinned, Silent, Outcome, Oldest;
    RoundInv(s, q);
    ReadyInv(s, q);
    ReadyOldest(s, q);
    PoppedInv(Ready(s, q), q);
    RetireOutcome(Popped(Ready(s, q), q), Oldest(s, q), q, h);
  }

  lemma RetireOutcome(s: Store, id: nat, q: Queue, h: Hash)
    requires Inv(s, Some((id, q))) && h in s.entries
    ensures id in Copied(s, id, q, IndexOf(s, id)).packs
    ensures Outcome(s.entries[h], h in s.pins, q, id, Retire(s, id, q), h)
  {
    hide Inv, Retire, Copied, Order;
    if Owns(s, id, h) { RetireSorts(s, id, q, h); } else { RetireApart(s, id, q, h); }
  }

  lemma RetireGone(s: Store, id: nat, q: Queue)
    requires Inv(s, Some((id, q)))
    ensures id in Copied(s, id, q, IndexOf(s, id)).packs
    ensures var t := Retire(s, id, q); id !in t.packs && id !in t.dir && forall k <- s.packs :: k != id ==> k in t.packs
  {
    hide Inv, RetireTo, PromotesTo, Slots, Thinned, Synced, Silent;
    IndexOk(s, id, q);
    RetireOk(s, id, q);
    var rs := s.disk[id].records;
    RetireToOk(s, id, q, rs, |Slots(rs)|);
    SyncedInv(RetireTo(s, id, q, Slots(rs), |Slots(rs)|), Some((id, q)));
  }

  lemma RetireQueues(s: Store, id: nat, q: Queue)
    requires Inv(s, Some((id, q)))
    ensures id in Copied(s, id, q, IndexOf(s, id)).packs
    ensures var t := Retire(s, id, q);
      s.main.packs <= t.main.packs && t.small.packs == s.small.packs && t.small.active == s.small.active
  {
    hide Inv, Copied, Retire, Tidy;
    TriviallyTidy(s, Kept(s));
    RetireTidy(s, id, q, |Order(s)|, Kept(s));
  }

  /** Exactly the oldest pack of the queue is unlinked, and the queues keep their order. */
  lemma RoundOldest(s: Store, q: Queue)
    requires Inv(s, None) && Get(s, q).bytes > 0
    ensures CanRound(s, q)
    ensures var t, id := Round(s, q), Oldest(s, q);
      && id in s.dir && id !in t.dir && (forall k <- s.packs :: k != id ==> k in t.packs)
      && (q.Main? ==> t.small.packs == s.small.packs && Behind(s.main.packs) <= t.main.packs)
      && (q.Small? ==> t.small.packs == Behind(s.small.packs) && s.main.packs <= t.main.packs)
  {
    RoundInv(s, q);
    ReadyInv(s, q);
    ReadyOldest(s, q);
    ReadyQueues(s, q);
    var r := Ready(s, q);
    PoppedInv(r, q);
    hide Inv, Ready, Retire, Copied, Thinned;
    RetireGone(Popped(r, q), Oldest(s, q), q);
    RetireQueues(Popped(r, q), Oldest(s, q), q);
  }

  function Behind(packs: seq<nat>): seq<nat> { if packs == [] then [] else packs[1..] }

  lemma ReadyQueues(s: Store, q: Queue)
    requires Inv(s, None) && Get(s, q).bytes > 0
    ensures var r := Ready(s, q);
      && Get(r, q).packs != [] && Get(r, q).packs[1..] == Behind(Get(s, q).packs)
      && (q.Main? ==> r.small == s.small) && (q.Small? ==> r.main == s.main)
      && s.packs.Keys <= r.packs.Keys && Oldest(s, q) in s.dir
  {
    OldestListed(s, q);
    hide Inv, Sealed;
    if Get(s, q).packs == [] { SealedQueues(s, q); }
  }

  lemma OldestListed(s: Store, q: Queue)
    requires Inv(s, None) && Get(s, q).bytes > 0
    ensures Oldest(s, q) in s.dir
    ensures Get(s, q).packs == [] ==> Get(s, q).active.Some? && Get(s, q).active.value.id in s.disk
  {
    hide SealedOk, EntryOk, Slots, Span;
    if Get(s, q).packs == [] {
      SumOfNone(s.packs);
      assert Get(s, q).active.value.id in Active(Get(s, q));
    } else {
      assert Get(s, q).packs[0] in Elems(Packs(s, None, q));
    }
  }

  lemma SealedQueues(s: Store, q: Queue)
    requires Get(s, q).active.Some? && Get(s, q).active.value.id in s.disk
    ensures var r := Sealed(s, q);
      && Get(r, q).packs == Get(s, q).packs + [Get(s, q).active.value.id]
      && (q.Main? ==> r.small == s.small) && (q.Small? ==> r.main == s.main) && s.packs.Keys <= r.packs.Keys
  {}

  // ---- the loop, round by round -----------------------------------------------------------

  /** Each store is the one before after a round over the queue named. */
  ghost predicate Chain(path: seq<Store>, qs: seq<Queue>)
  {
    && |path| == |qs| + 1
    && forall i | 0 <= i < |qs| ::
         && Inv(path[i], None) && Get(path[i], qs[i]).bytes > 0 && CanRound(path[i], qs[i])
         && path[i + 1] == Round(path[i], qs[i])
  }

  /** Only a store over budget retires a pack, of small exactly if small has more than a tenth. */
  predicate Pressed(s: Store, budget: nat, q: Queue)
  {
    s.small.bytes + s.main.bytes > budget && (q.Small? <==> s.small.bytes > budget / 10)
  }

  lemma ChainOn(s: Store, q: Queue, path: seq<Store>, qs: seq<Queue>)
    requires Inv(s, None) && Get(s, q).bytes > 0 && CanRound(s, q) && Chain(path, qs) && path[0] == Round(s, q)
    ensures Chain([s] + path, [q] + qs)
  {
    hide Inv, CanRound, Round;
  }

  lemma WithinBudget(s: Store, u: nat)
    requires Inv(s, None) && s.sealBytes > 0 && u <= |s.main.packs| && s.small.bytes + s.main.bytes <= s.budget
    ensures Evict(s, u) == s
  {}

  /** Eviction is rounds, each from a store over budget. */
  lemma {:induction false} EvictByRounds(s: Store, u: nat) returns (path: seq<Store>, qs: seq<Queue>)
    requires Inv(s, None) && s.sealBytes > 0 && u <= |s.main.packs|
    ensures |path| == |qs| + 1 && Chain(path, qs) && path[0] == s && path[|qs|] == Evict(s, u)
    ensures forall i | 0 <= i < |qs| :: Pressed(path[i], s.budget, qs[i])
    decreases SmallCount(s), if Total(s) >= 0 then Total(s) else 0, Total(s) + Zeros(s) - u
  {
    hide Inv, Thinned, Round, CanRound, Chain;
    BytesPositive(s);
    path, qs := [s], [];
    if Total(s) <= s.budget {
      ChainNone(s);
    } else {
      var q := if OverSmall(s) then Small else Main;
      RoundInv(s, q);
      var t := Round(s, q);
      BytesPositive(t);
      ThinnedFrom(s, t, t);
      if q.Small? {
        DrainStep(s);
        path, qs := EvictByRounds(t, u);
      } else {
        RotateStep(s);
        if Total(t) < Total(s) {
          path, qs := EvictByRounds(t, 0);
        } else if u + 1 <= |t.main.packs| {
          path, qs := EvictByRounds(t, u + 1);
        } else {
          path, qs := [t], [];
          ChainNone(t);
        }
      }
      ChainOn(s, q, path, qs);
      PressedOn(s, q, path, qs);
      path, qs := [s] + path, [q] + qs;
    }
  }

  lemma ChainNone(s: Store)
    ensures Chain([s], [])
  {}

  lemma PressedOn(s: Store, q: Queue, path: seq<Store>, qs: seq<Queue>)
    requires Pressed(s, s.budget, q) && |path| == |qs| + 1
    requires forall i | 0 <= i < |qs| :: Pressed(path[i], s.budget, qs[i])
    ensures forall i | 0 <= i < |qs| + 1 :: Pressed(([s] + path)[i], s.budget, ([q] + qs)[i])
  {
    hide Pressed;
  }

  // ---- hits -------------------------------------------------------------------------------

  /** Hit `k` times. */
  function Hit(s: Store, h: Hash, k: nat): Store { if k == 0 then s else Bumped(Hit(s, h, k - 1), h) }

  /** Each hit counts, up to three, for the chunk alone. */
  lemma {:induction false} HitCounts(s: Store, h: Hash, k: nat)
    requires h in s.entries && s.entries[h].freq <= 3
    ensures var t, f := Hit(s, h, k), s.entries[h].freq;
      && h in t.entries && t.entries[h] == s.entries[h].(freq := if f + k <= 3 then f + k else 3)
      && t == s.(entries := t.entries) && t.entries.Keys == s.entries.Keys
      && forall g <- s.entries :: g != h ==> t.entries[g] == s.entries[g]
  {
    if k > 0 { HitCounts(s, h, k - 1); }
  }

  /** How often the chunk's pack was the one retired. */
  function Retirements(path: seq<Store>, qs: seq<Queue>, h: Hash): nat
    requires |path| == |qs| + 1
  {
    if qs == [] then 0 else
      Retirements(path[1..], qs[1..], h)
      + if h in path[0].entries && path[0].entries[h].pack == Oldest(path[0], qs[0]) then 1 else 0
  }

  lemma ChainRest(path: seq<Store>, qs: seq<Queue>)
    requires Chain(path, qs) && qs != []
    ensures Chain(path[1..], qs[1..]) && path[1..][0] == path[1] && path[1..][|qs| - 1] == path[|qs|]
  {
    hide Inv, CanRound, Round;
  }

  /** A chunk outlives as many retirements of its pack as it was hit, and keeps its frame. */
  lemma {:induction false} HotSurvives(path: seq<Store>, qs: seq<Queue>, h: Hash)
    requires |path| == |qs| + 1 && Chain(path, qs)
    requires h in path[0].entries && Retirements(path, qs, h) <= path[0].entries[h].freq
    ensures h in path[|qs|].entries && FrameOf(path[|qs|], h) == FrameOf(path[0], h)
    ensures path[|qs|].entries[h].freq + Retirements(path, qs, h) >= path[0].entries[h].freq
    decreases |qs|
  {
    hide Inv, CanRound, Round, FrameOf, Chain, Thinned;
    if qs != [] {
      ChainFirst(path, qs);
      RoundOutcome(path[0], qs[0], h);
      RoundInv(path[0], qs[0]);
      ChainRest(path, qs);
      HotSurvives(path[1..], qs[1..], h);
      ThinnedFrame(path[0], path[1], h);
    }
  }

  lemma ChainFirst(path: seq<Store>, qs: seq<Queue>)
    requires Chain(path, qs) && qs != []
    ensures Inv(path[0], None) && Get(path[0], qs[0]).bytes > 0 && CanRound(path[0], qs[0])
    ensures path[1] == Round(path[0], qs[0])
  {}

  lemma ThinnedFrame(s: Store, t: Store, h: Hash)
    requires Thinned(s, t) && h in t.entries
    ensures FrameOf(t, h) == FrameOf(s, h)
  {}

  /** Hit up to three times, a chunk outlives as many retirements, whatever it was before. */
  lemma HitsSurvive(s: Store, h: Hash, k: nat, path: seq<Store>, qs: seq<Queue>)
    requires Inv(s, None) && h in s.entries && k <= 3
    requires |path| == |qs| + 1 && Chain(path, qs) && path[0] == Hit(s, h, k) && Retirements(path, qs, h) <= k
    ensures h in path[|qs|].entries && FrameOf(path[|qs|], h) == FrameOf(s, h)
  {
    hide Chain, Hit, FrameOf, Retirements;
    assert EntryOk(s, h);
    HitCounts(s, h, k);
    HotSurvives(path, qs, h);
    assert FrameOf(path[0], h) == FrameOf(s, h) by { SameFrame(s, path[0], h); }
  }

  lemma SameFrame(s: Store, t: Store, h: Hash)
    requires h in s.entries && h in t.entries && t.entries[h].(freq := 0) == s.entries[h].(freq := 0)
    requires t.disk == s.disk
    ensures FrameOf(t, h) == FrameOf(s, h)
  {}

  // ---- room -------------------------------------------------------------------------------

  /** A pack is sealed as soon as, and not before, it has the bytes for it. */
  lemma SealsFull(s: Store, out: Retiring, q: Queue, h: Hash, f: Frame, freq: nat)
    requires Inv(s, out) && freq <= FREQ_MAX && h !in s.entries
    ensures var t, len := Append(s, q, h, f, freq), ActiveLen(Get(s, q)) + HEADER + |f|;
      && t.entries.Keys == s.entries.Keys + {h}
      && (len < s.sealBytes ==> ActiveLen(Get(t, q)) == len && Get(t, q).packs == Get(s, q).packs)
      && (len >= s.sealBytes ==> Get(t, q).active.None? && Get(t, q).packs == Get(s, q).packs + [t.entries[h].pack])
  {
    hide Inv, Silent, Opened, Written, Sealed;
    OpenedInv(s, out, q);
    var s1 := Opened(s, q);
    OpenedSide(s, q);
    WriterThere(s1, out, q);
    WrittenSide(s1, q, h, f, freq);
    SealedSide(Written(s1, q, h, f, freq), q);
  }

  lemma OpenedSide(s: Store, q: Queue)
    ensures var t := Opened(s, q);
      && Get(t, q).active.Some? && Get(t, q).packs == Get(s, q).packs && ActiveLen(Get(t, q)) == ActiveLen(Get(s, q))
      && t.entries == s.entries && t.sealBytes == s.sealBytes
  {}

  lemma WrittenSide(s: Store, q: Queue, h: Hash, f: Frame, freq: nat)
    requires Get(s, q).active.Some? && Get(s, q).active.value.id in s.disk
    ensures var t, x := Written(s, q, h, f, freq), Get(s, q);
      && Get(t, q).active.Some? && Get(t, q).packs == x.packs && ActiveLen(Get(t, q)) == ActiveLen(x) + HEADER + |f|
      && Get(t, q).active.value.id == x.active.value.id && x.active.value.id in t.disk
      && h in t.entries && t.entries[h].pack == x.active.value.id && t.entries.Keys == s.entries.Keys + {h}
  {}

  lemma SealedSide(s: Store, q: Queue)
    requires Get(s, q).active.Some? && Get(s, q).active.value.id in s.disk
    ensures var t, x := Sealed(s, q), Get(s, q);
      Get(t, q).active.None? && Get(t, q).packs == x.packs + [x.active.value.id] && t.entries == s.entries
  {}

  /** The queue the chunk is in. */
  predicate Within(s: Store, q: Queue, h: Hash)
  {
    h in s.entries && (s.entries[h].pack in Get(s, q).packs || s.entries[h].pack in Active(Get(s, q)))
  }

  lemma AppendWithin(s: Store, out: Retiring, q: Queue, h: Hash, f: Frame, freq: nat)
    requires Inv(s, out) && freq <= FREQ_MAX && h !in s.entries
    ensures Within(Append(s, q, h, f, freq), q, h)
  {
    hide Inv, Silent, Opened, Written, Sealed;
    OpenedInv(s, out, q);
    var s1 := Opened(s, q);
    OpenedSide(s, q);
    WriterThere(s1, out, q);
    WrittenSide(s1, q, h, f, freq);
    SealedSide(Written(s1, q, h, f, freq), q);
  }

  /**
   A chunk for which there is room comes in and nothing goes: it reads its frame, it is in
   main if its ghost was known and in small otherwise, and no other entry changes.
   */
  lemma RoomyInsert(s: Store, h: Hash, f: Frame)
    requires Inv(s, None) && s.sealBytes > 0 && h !in s.entries && Total(s) + HEADER + |f| <= s.budget
    ensures var t := Inserted(s, h, f);
      && t.entries.Keys == s.entries.Keys + {h} && FrameOf(t, h) == f && t.entries[h].freq == 0
      && (forall g <- s.entries :: t.entries[g] == s.entries[g] && FrameOf(t, g) == FrameOf(s, g))
      && Within(t, if FromLe(h[..8]) in s.ghostSet then Main else Small, h)
      && Total(t) == Total(s) + HEADER + |f| && t.budget == s.budget && FromLe(h[..8]) !in t.ghostSet
  {
    hide Inv, Append, Evict, Trimmed, FrameOf, Within;
    AdmitInv(s, h, f);
    var q := Admission(s, h);
    var a := Append(GhostTaken(s, h), q, h, f, 0);
    assert Inv(GhostTaken(s, h), None) by { GhostTakenInv(s, h); }
    AppendWithin(GhostTaken(s, h), None, q, h, f, 0);
    WithinBudget(a, 0);
    GhostsOk(a);
    TrimmedOk(a, GhostCap(a));
    var t := Inserted(s, h, f);
    assert t == Trimmed(a, GhostCap(a));
    assert Within(t, q, h) by { SameWithin(a, t, q, h); }
    assert forall g: Hash :: FrameOf(t, g) == FrameOf(a, g) by { SameFrames(a, t); }
    assert forall g: Hash :: FrameOf(GhostTaken(s, h), g) == FrameOf(s, g) by { SameFrames(s, GhostTaken(s, h)); }
  }

  lemma GhostTakenInv(s: Store, h: Hash)
    requires Inv(s, None)
    ensures Inv(GhostTaken(s, h), None)
  {
    InvLocal(s, GhostTaken(s, h), None);
  }

  lemma GhostsOk(s: Store)
    requires Inv(s, None)
    ensures s.ghostSet <= Elems(s.ghosts)
  {}

  lemma SameWithin(s: Store, t: Store, q: Queue, h: Hash)
    requires Within(s, q, h) && t.entries == s.entries && t.small == s.small && t.main == s.main
    ensures Within(t, q, h)
  {}

  lemma SameFrames(s: Store, t: Store)
    requires t.entries == s.entries && t.disk == s.disk
    ensures forall g: Hash :: FrameOf(t, g) == FrameOf(s, g)
  {}

  /** If there is room for a new chunk it comes in and nothing goes. */
  ghost predicate TakesIn(s: Store, t: Store, h: Hash, f: Bytes)
  {
    h !in s.entries && |f| < FRAME_LIMIT && s.small.bytes + s.main.bytes + HEADER + |f| <= s.budget ==>
      && t.entries.Keys == s.entries.Keys + {h} && FrameOf(t, h) == f
      && forall g <- s.entries :: t.entries[g] == s.entries[g] && FrameOf(t, g) == FrameOf(s, g)
  }

  lemma TakenIn(s: Store, h: Hash, f: Bytes)
    requires Inv(s, None) && s.sealBytes > 0
    ensures TakesIn(s, Inserted(s, h, f), h, f)
  {
    hide Inv, Inserted, FrameOf;
    if h !in s.entries && |f| < FRAME_LIMIT && s.small.bytes + s.main.bytes + HEADER + |f| <= s.budget {
      RoomyInsert(s, h, f);
    }
  }

  /** The ghost queue is no longer than the map, or than its least size. */
  lemma GhostsBounded(s: Store, h: Hash, f: Frame)
    requires Inv(s, None) && s.sealBytes > 0 && h !in s.entries
    ensures var t := Inserted(s, h, f); |t.ghosts| <= 1024 || |t.ghosts| <= |t.entries|
  {
    hide Inv, Append, Evict, Trimmed, Thinned;
    AdmitInv(s, h, f);
    var a := Append(GhostTaken(s, h), Admission(s, h), h, f, 0);
    EvictKeeps(a, 0);
    GhostsOk(Evict(a, 0));
    TrimmedOk(Evict(a, 0), GhostCap(Evict(a, 0)));
  }

  // ---- runs that fit ------------------------------------------------------------------------

  /** The bytes the inserts bring at most. */
  function Incoming(calls: seq<Call>): nat
  {
    if calls == [] then 0 else
      var c := calls[|calls| - 1];
      Incoming(calls[..|calls| - 1]) + if c.Insert? then HEADER + |c.frame| else 0
  }

  lemma QuietTotal(s: Store, c: Call)
    requires Inv(s, None) && s.sealBytes > 0 && !c.Insert?
    ensures Total(Called(s, c)) == Total(s)
  {}

  lemma RefusedTotal(s: Store, h: Hash, f: Bytes)
    requires Inv(s, None) && s.sealBytes > 0 && (h in s.entries || |f| >= FRAME_LIMIT)
    ensures var t := Inserted(s, h, f);
      && t.entries == s.entries && Total(t) == Total(s) && t.budget == s.budget
      && forall g <- s.entries :: FrameOf(t, g) == FrameOf(s, g)
  {
    hide Inv, Opened, FrameOf;
    if h !in s.entries {
      AdmitInv(s, h, f);
      assert forall g: Hash :: FrameOf(GhostTaken(s, h), g) == FrameOf(s, g) by { SameFrames(s, GhostTaken(s, h)); }
    }
  }

  /** One call that fits keeps what is there and adds no more bytes than it brings. */
  lemma RoomyCall(s: Store, c: Call, h: Hash)
    requires Inv(s, None) && s.sealBytes > 0 && Total(s) + Incoming([c]) <= s.budget && c != Forget(h)
    ensures var t := Called(s, c);
      && Total(t) <= Total(s) + Incoming([c]) && t.budget == s.budget
      && (h in s.entries || (c.Insert? && c.hash == h && |c.frame| < FRAME_LIMIT) ==> h in t.entries)
      && (h in s.entries ==> FrameOf(t, h) == FrameOf(s, h))
      && (h !in s.entries && h in t.entries ==> c == Insert(h, FrameOf(t, h)))
  {
    hide Inv, Inserted, FrameOf;
    assert [c][..0] == [] && Incoming([c]) == if c.Insert? then HEADER + |c.frame| else 0;
    if !c.Insert? {
      QuietCall(s, c);
      QuietTotal(s, c);
    } else if c.hash in s.entries || |c.frame| >= FRAME_LIMIT {
      RefusedTotal(s, c.hash, c.frame);
    } else {
      RoomyInsert(s, c.hash, c.frame);
    }
  }

  lemma IncomingLast(calls: seq<Call>)
    requires calls != []
    ensures Incoming(calls) == Incoming(calls[..|calls| - 1]) + Incoming([calls[|calls| - 1]])
  {
    var c := calls[|calls| - 1];
    assert [c][..0] == [];
  }

  /**
   A cache all of whose inserts fit its budget loses nothing: after any calls, each chunk it
   had or took and was not told to forget since is there, and what it had reads as before.
   */
  lemma {:induction false} RoomyRun(s: Store, calls: seq<Call>, h: Hash)
    requires Inv(s, None) && s.sealBytes > 0 && Total(s) + Incoming(calls) <= s.budget && Forget(h) !in calls
    ensures var t := After(s, calls);
      && Total(t) <= Total(s) + Incoming(calls) && t.budget == s.budget
      && (h in s.entries ==> h in t.entries && FrameOf(t, h) == FrameOf(s, h))
      && ((exists f: Frame :: Insert(h, f) in calls) ==> h in t.entries)
    decreases |calls|
  {
    hide Inv, Filled, Called, FrameOf, Grows;
    if calls != [] {
      var rest, c := calls[..|calls| - 1], calls[|calls| - 1];
      assert c in calls && calls == rest + [c];
      IncomingLast(calls);
      RoomyRun(s, rest, h);
      RoomyCall(After(s, rest), c, h);
      if f: Frame :| Insert(h, f) in calls && h !in s.entries { assert Insert(h, f) in rest || c == Insert(h, f); }
    }
  }
}

/** The eviction loop: it ends, keeps what is pinned, and gives up only with a live main queue. */
module ChunkStoreEvictLoop {
  import opened Bytes
  import opened Pack
  import opened ChunkStore
  import opened ChunkStoreInv
  import opened ChunkStoreEvict
  import opened ChunkStoreBudget
  import opened Graph

  // ---- one round --------------------------------------------------------------------

  /** An empty queue seals its open pack, so that there is one to retire. */
  function Ready(s: Store, q: Queue): Store { if Get(s, q).packs == [] then Sealed(s, q) else s }

  /** There is a pack to retire, and it is a known one. */
  predicate CanRound(s: Store, q: Queue)
  {
    && Get(Ready(s, q), q).packs != []
    && var p, id := Popped(Ready(s, q), q), Get(Ready(s, q), q).packs[0]; id in Copied(p, id, q, IndexOf(p, id)).packs
  }

  /** Retire the oldest pack of the queue. */
  function Round(s: Store, q: Queue): Store
    requires CanRound(s, q)
  {
    Retire(Popped(Ready(s, q), q), Get(Ready(s, q), q).packs[0], q)
  }

  function SmallCount(s: Store): nat { |s.small.packs| + if s.small.active.Some? then 1 else 0 }

  lemma SumOfNone(packs: map<nat, nat>)
    ensures SumSizes(packs, []) == 0
  {}

  lemma ReadyInv(s: Store, q: Queue)
    requires Inv(s, None) && Get(s, q).bytes > 0
    ensures Inv(Ready(s, q), None) && Silent(s, Ready(s, q)) && Get(Ready(s, q), q).packs != []
  {
    assert forall k <- s.packs :: SealedOk(s, k);
    if Get(s, q).packs == [] {
      SumOfNone(s.packs);
      assert Get(s, q).active.Some?;
      SealedInv(s, None, q);
    }
  }

  lemma RoundInv(s: Store, q: Queue)
    requires Inv(s, None) && Get(s, q).bytes > 0
    ensures CanRound(s, q) && Inv(Round(s, q), None) && Thinned(s, Round(s, q)) && Total(Round(s, q)) <= Total(s)
  {
    hide Inv, Ready, Sealed, Popped, Copied, Retire, Thinned;
    ReadyInv(s, q);
    var r := Ready(s, q);
    var p, id := Popped(r, q), Get(r, q).packs[0];
    SilentThins(s, r);
    assert Total(r) == Total(s);
    PoppedInv(r, q);
    RetireOk(p, id, q);
    ThinnedTrans(s, r, p);
    ThinnedTrans(s, p, Retire(p, id, q));
  }

  /** Main is live from its `j`th pack on, and nothing became worth keeping since. */
  predicate Tidy(s: Store, j: nat, keep: set<Hash>) { Clean(s, j, keep) && Kept(s) <= keep }

  /** What a round over main does to it. `j` counts the packs not known to be live. */
  predicate Rotates(s: Store, t: Store, j: nat, keep: set<Hash>)
  {
    && t.small == s.small && t.sealBytes == s.sealBytes && Zeros(t) <= Zeros(s)
    && (Short(s) ==> Short(t)) && (Full(s, 1) ==> Full(t, 0))
    && (s.main.packs != [] && Short(s) && Full(s, 0) && Total(t) == Total(s) ==> |t.main.packs| >= |s.main.packs|)
    && (Tidy(s, j, keep) ==> Tidy(t, if j == 0 then 0 else j - 1, keep))
  }

  /** The pack was popped from main and retired. */
  lemma RotatesPopped(s: Store, t: Store, j: nat, keep: set<Hash>)
    requires s.main.packs != [] && s.sealBytes > 0 && Total(t) <= Total(s)
    requires Retired(Popped(s, Main), t, Main, SizeOf(s.packs, s.main.packs[0]))
    requires Tidy(s, j, keep) ==> Tidy(t, if j == 0 then 0 else j - 1, keep)
    ensures Rotates(s, t, j, keep)
  {
    hide Tidy;
    var p := Popped(s, Main);
    assert p.main.packs == s.main.packs[1..];
    assert Full(s, 1) ==> Full(p, 0) by {
      forall i | 0 <= i < |p.main.packs| && Full(s, 1)
        ensures SizeOf(p.packs, p.main.packs[i]) >= p.sealBytes
      {
        assert p.main.packs[i] == s.main.packs[i + 1];
      }
    }
  }

  lemma PoppedTidy(s: Store, j: nat, keep: set<Hash>)
    requires s.main.packs != [] && Tidy(s, j, keep)
    ensures Tidy(Popped(s, Main), if j == 0 then 0 else j - 1, keep)
  {
    PoppedClean(s, j, keep);
    assert Kept(Popped(s, Main)) == Kept(s);
  }

  lemma RetireTidy(s: Store, id: nat, q: Queue, j: nat, keep: set<Hash>)
    requires Inv(s, Some((id, q))) && Tidy(s, j, keep)
    ensures id in s.packs && id in Copied(s, id, q, IndexOf(s, id)).packs
    ensures Retired(s, Retire(s, id, q), q, s.packs[id]) && Tidy(Retire(s, id, q), j, keep)
  {
    hide Inv, Copied, Retire, Retired, Kept;
    RetireBudget(s, id, q, j, keep);
  }

  lemma PopRetire(r: Store, j: nat, keep: set<Hash>)
    requires Inv(r, None) && r.main.packs != [] && r.sealBytes > 0
    requires var p, id := Popped(r, Main), r.main.packs[0]; id in Copied(p, id, Main, IndexOf(p, id)).packs
    ensures Rotates(r, Retire(Popped(r, Main), r.main.packs[0], Main), j, keep)
  {
    hide Inv, Tidy, Retired, Copied, Retire, Rotates, Thinned;
    var p, id := Popped(r, Main), r.main.packs[0];
    PoppedInv(r, Main);
    RetireOk(p, id, Main);
    var t := Retire(p, id, Main);
    if Tidy(r, j, keep) {
      PoppedTidy(r, j, keep);
      RetireTidy(p, id, Main, if j == 0 then 0 else j - 1, keep);
    } else {
      TriviallyTidy(p, Kept(p));
      RetireTidy(p, id, Main, |Order(p)|, Kept(p));
    }
    RotatesPopped(r, t, j, keep);
  }

  lemma TriviallyTidy(s: Store, keep: set<Hash>)
    requires Kept(s) <= keep
    ensures Tidy(s, |Order(s)|, keep) && Tidy(s, |s.main.packs| + 1, keep)
  {}

  /** Sealing the open pack of an empty main queue changes neither its order nor its bytes. */
  lemma RotatesSealed(s: Store, r: Store, t: Store, j: nat, keep: set<Hash>)
    requires s.main.packs == [] && Closes(s, r) && Rotates(r, t, j, keep)
    requires Tidy(s, j, keep) ==> Tidy(r, j, keep)
    ensures Rotates(s, t, j, keep)
  {}

  lemma SealedTidy(s: Store, j: nat, keep: set<Hash>)
    requires Tidy(s, j, keep)
    ensures Tidy(Sealed(s, Main), j, keep)
  {
    SealedClean(s, j, keep);
    assert Kept(Sealed(s, Main)) == Kept(s);
  }

  lemma MainRound(s: Store, j: nat, keep: set<Hash>)
    requires Inv(s, None) && s.main.bytes > 0 && s.sealBytes > 0
    ensures CanRound(s, Main) && Rotates(s, Round(s, Main), j, keep)
  {
    RoundInv(s, Main);
    hide Rotates, Tidy, Retire, Copied;
    if s.main.packs != [] {
      PopRetire(s, j, keep);
    } else {
      ReadyInv(s, Main);
      var r := Ready(s, Main);
      SealCloses(s, None);
      if Tidy(s, j, keep) { SealedTidy(s, j, keep); }
      PopRetire(r, j, keep);
      RotatesSealed(s, r, Round(s, Main), j, keep);
    }
  }

  /** What a round over small does to both queues. */
  predicate Drains(s: Store, t: Store, j: nat, keep: set<Hash>)
  {
    && t.sealBytes == s.sealBytes && SmallCount(t) < SmallCount(s) && |s.main.packs| <= |t.main.packs|
    && (Short(s) ==> Short(t)) && (Full(s, 0) ==> Full(t, 0)) && (Tidy(s, j, keep) ==> Tidy(t, j, keep))
  }

  lemma DrainsPopped(s: Store, r: Store, t: Store, j: nat, keep: set<Hash>)
    requires r.small.packs != [] && r.main == s.main && r.packs.Keys >= s.packs.Keys && r.sealBytes == s.sealBytes
    requires SmallCount(r) == SmallCount(s) && (forall id <- s.main.packs :: SizeOf(r.packs, id) == SizeOf(s.packs, id))
    requires exists size: nat :: Retired(Popped(r, Small), t, Small, size)
    requires Tidy(s, j, keep) ==> Tidy(t, j, keep)
    ensures Drains(s, t, j, keep)
  {
    hide Tidy;
    var p := Popped(r, Small);
    forall i | 0 <= i < |p.main.packs| && Full(s, 0)
      ensures SizeOf(p.packs, p.main.packs[i]) >= p.sealBytes
    {
      assert s.main.packs[i] in s.main.packs;
    }
  }

  /** Clean looks at main's packs, the files and the entries only. */
  lemma TidySame(s: Store, t: Store, j: nat, keep: set<Hash>)
    requires Tidy(s, j, keep) && t.main == s.main && t.entries == s.entries && t.pins == s.pins
    requires forall id <- s.disk :: id in t.disk && t.disk[id].records == s.disk[id].records
    ensures Tidy(t, j, keep)
  {
    forall i | j <= i < |Order(t)|
      ensures Live(t, Order(t)[i], keep)
    {
      LiveKept(s, t, Order(s)[i], keep);
    }
  }

  lemma ReadySmall(s: Store, j: nat, keep: set<Hash>)
    requires Inv(s, None) && s.small.bytes > 0
    ensures var r := Ready(s, Small);
      && r.main == s.main && r.packs.Keys >= s.packs.Keys && r.sealBytes == s.sealBytes
      && SmallCount(r) == SmallCount(s)
      && (forall id <- s.main.packs :: SizeOf(r.packs, id) == SizeOf(s.packs, id))
      && (Tidy(s, j, keep) ==> Tidy(r, j, keep))
  {
    if s.small.packs == [] {
      SumOfNone(s.packs);
      assert s.small.active.Some?;
      assert s.small.active.value.id in Active(s.small);
      forall id | id in s.main.packs
        ensures id != s.small.active.value.id
      {
        assert id in Elems(Packs(s, None, Main));
      }
      if Tidy(s, j, keep) { TidySame(s, Sealed(s, Small), j, keep); }
    }
  }

  lemma PopDrains(s: Store, r: Store, j: nat, keep: set<Hash>)
    requires Inv(r, None) && r.small.packs != [] && (Tidy(s, j, keep) ==> Tidy(r, j, keep))
    requires var p, id := Popped(r, Small), r.small.packs[0]; id in Copied(p, id, Small, IndexOf(p, id)).packs
    ensures var t := Retire(Popped(r, Small), r.small.packs[0], Small);
      && (exists size: nat :: Retired(Popped(r, Small), t, Small, size)) && (Tidy(s, j, keep) ==> Tidy(t, j, keep))
  {
    hide Inv, Tidy, Retired, Copied, Retire;
    var p, id := Popped(r, Small), r.small.packs[0];
    PoppedInv(r, Small);
    if Tidy(s, j, keep) {
      assert Tidy(p, j, keep) by { TidySame(r, p, j, keep); }
      RetireTidy(p, id, Small, j, keep);
    } else {
      TriviallyTidy(p, Kept(p));
      RetireTidy(p, id, Small, |Order(p)|, Kept(p));
    }
  }

  lemma SmallRound(s: Store, j: nat, keep: set<Hash>)
    requires Inv(s, None) && s.small.bytes > 0
    ensures CanRound(s, Small) && Drains(s, Round(s, Small), j, keep)
  {
    RoundInv(s, Small);
    hide Tidy, Retired, Copied, Retire, Drains, Sealed, Thinned;
    ReadyInv(s, Small);
    ReadySmall(s, j, keep);
    PopDrains(s, Ready(s, Small), j, keep);
    DrainsPopped(s, Ready(s, Small), Round(s, Small), j, keep);
  }

  // ---- the loop ---------------------------------------------------------------------

  lemma BytesPositive(s: Store)
    requires Inv(s, None)
    ensures s.small.bytes >= 0 && s.main.bytes >= 0 && |s.main.packs| <= Total(s) + Zeros(s)
  {
    PacksFit(s.packs, s.main.packs);
  }

  predicate OverSmall(s: Store) { s.small.bytes > s.budget / SMALL_FRACTION }

  /** The loop, `u` rounds over main after the last that freed something. */
  ghost function Evict(s: Store, u: nat): Store
    requires Inv(s, None) && s.sealBytes > 0 && u <= |s.main.packs|
    decreases SmallCount(s), if Total(s) >= 0 then Total(s) else 0, Total(s) + Zeros(s) - u
  {
    hide Inv, Drains, Rotates, Thinned, Round, CanRound;
    BytesPositive(s);
    if Total(s) <= s.budget then s
    else if OverSmall(s) then
      RoundInv(s, Small); DrainStep(s);
      Evict(Round(s, Small), u)
    else
      RoundInv(s, Main); RotateStep(s);
      var t := Round(s, Main);
      BytesPositive(t);
      if Total(t) < Total(s) then Evict(t, 0)
      else if u + 1 > |t.main.packs| then t
      else Evict(t, u + 1)
  }

  lemma DrainStep(s: Store)
    requires Inv(s, None) && s.small.bytes > 0
    ensures CanRound(s, Small)
    ensures var t := Round(s, Small);
      t.sealBytes == s.sealBytes && SmallCount(t) < SmallCount(s) && |s.main.packs| <= |t.main.packs|
  {
    SmallRound(s, 0, {});
  }

  lemma RotateStep(s: Store)
    requires Inv(s, None) && s.main.bytes > 0 && s.sealBytes > 0
    ensures CanRound(s, Main)
    ensures var t := Round(s, Main); t.small == s.small && t.sealBytes == s.sealBytes && Zeros(t) <= Zeros(s)
  {
    MainRound(s, 0, {});
  }

  /** Eviction drops only cold entries, keeps the bytes' account and does not add any. */
  lemma {:induction false} EvictKeeps(s: Store, u: nat)
    requires Inv(s, None) && s.sealBytes > 0 && u <= |s.main.packs|
    ensures var t := Evict(s, u); Inv(t, None) && Thinned(s, t) && Total(t) <= Total(s)
    ensures Total(Evict(s, u)) <= s.budget || !OverSmall(Evict(s, u))
    decreases SmallCount(s), if Total(s) >= 0 then Total(s) else 0, Total(s) + Zeros(s) - u
  {
    hide Inv, Thinned, Round, CanRound;
    BytesPositive(s);
    if Total(s) <= s.budget {
      ThinnedSame(s);
    } else if OverSmall(s) {
      RoundInv(s, Small);
      DrainStep(s);
      EvictKeeps(Round(s, Small), u);
      ThinnedFrom(s, Round(s, Small), Evict(s, u));
    } else {
      RoundInv(s, Main);
      RotateStep(s);
      var t := Round(s, Main);
      BytesPositive(t);
      ThinnedFrom(s, t, t);
      if Total(t) < Total(s) {
        EvictKeeps(t, 0);
        ThinnedFrom(s, t, Evict(t, 0));
      } else if u + 1 <= |t.main.packs| {
        EvictKeeps(t, u + 1);
        ThinnedFrom(s, t, Evict(t, u + 1));
      }
    }
  }

  lemma ThinnedSame(s: Store)
    ensures Thinned(s, s)
  {}

  lemma ThinnedFrom(s: Store, t: Store, u: Store)
    requires Thinned(s, t) && (t == u || Thinned(t, u))
    ensures Thinned(s, u) && t.budget == s.budget
  {
    if t != u { ThinnedTrans(s, t, u); }
  }

  /**
   When main's packs were filled before they were sealed, a stop over budget means
   that no byte of main is dead. `j` counts the packs of main not visited, the open one
   included, since a round last freed something.
   */
  lemma {:induction false} GivesUpLive(s: Store, u: nat, j: nat, keep: set<Hash>)
    requires Inv(s, None) && s.sealBytes > 0 && u <= |s.main.packs|
    requires Full(s, 0) && Short(s) && Tidy(s, j, keep) && (j == 0 || u + j <= |s.main.packs| + 1)
    ensures var t := Evict(s, u); Full(t, 0) && Short(t) && (Total(t) > s.budget ==> Tidy(t, 0, keep))
    decreases SmallCount(s), if Total(s) >= 0 then Total(s) else 0, Total(s) + Zeros(s) - u
  {
    hide Inv, Thinned, Round, CanRound, Tidy, Full, Short;
    BytesPositive(s);
    if Total(s) > s.budget {
      if OverSmall(s) {
        RoundInv(s, Small);
        SmallRound(s, j, keep);
        var t := Round(s, Small);
        ThinnedFrom(s, t, t);
        GivesUpLive(t, u, j, keep);
      } else {
        RoundInv(s, Main);
        MainRound(s, j, keep);
        FullTail(s);
        var t := Round(s, Main);
        BytesPositive(t);
        ThinnedFrom(s, t, t);
        if Total(t) < Total(s) {
          TidyLater(t, if j == 0 then 0 else j - 1, keep);
          GivesUpLive(t, 0, |t.main.packs| + 1, keep);
        } else if u + 1 <= |t.main.packs| {
          GivesUpLive(t, u + 1, if j == 0 then 0 else j - 1, keep);
        }
      }
    }
  }

  lemma TidyLater(s: Store, j: nat, keep: set<Hash>)
    requires Tidy(s, j, keep)
    ensures Tidy(s, |s.main.packs| + 1, keep)
  {
    TriviallyTidy(s, keep);
  }

  lemma FullTail(s: Store)
    requires Full(s, 0)
    ensures Full(s, 1)
  {}

  /** Over budget after eviction, every record of main is in use and was pinned or hot. */
  lemma EvictOrLive(s: Store)
    requires Inv(s, None) && s.sealBytes > 0 && Full(s, 0) && Short(s)
    ensures var t := Evict(s, 0);
      Total(t) <= s.budget || (!OverSmall(t) && forall id <- Order(t) :: Live(t, id, Kept(s)))
  {
    hide Inv, Thinned, Evict, Full, Short;
    TriviallyTidy(s, Kept(s));
    GivesUpLive(s, 0, |s.main.packs| + 1, Kept(s));
    EvictKeeps(s, 0);
    var t := Evict(s, 0);
    if Tidy(t, 0, Kept(s)) {
      forall id | id in Order(t)
        ensures Live(t, id, Kept(s))
      {
        var i :| 0 <= i < |Order(t)| && Order(t)[i] == id;
      }
    }
  }
}

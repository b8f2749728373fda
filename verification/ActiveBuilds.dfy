/**
 A worker's builds and their claim registry as objects. Each method takes the shared staging
 state one step on.
 */
module ActiveBuilds {
  import opened StorePath
  import opened Graph
  import opened Claims
  import opened ClaimsSafety
  import opened Tickets
  import opened Parking

  class Registry {
    ghost const refs: map<Path, set<Path>>
    var open: map<Path, nat>
    var tickets: seq<ClaimState>
    ghost var holders: seq<Holder>
    /** All builds of this worker and the daemon's store. */
    ghost var staging: State
    /** The builds that use this registry. */
    ghost var active: set<ActiveBuild>

    ghost function View(): Book
      reads this
    {
      Book(open, tickets, holders)
    }

    ghost predicate Valid()
      reads this
    {
      Sound(refs, staging, View())
    }

    /** A worker that starts: no claims, and the builds that will come. */
    constructor (ghost refs: map<Path, set<Path>>, ghost staging: State)
      requires Acyclic(refs) && Start(Eager(refs), staging)
      ensures Valid() && this.refs == refs && this.staging == staging && open == map[] && active == {}
    {
      this.refs, this.staging, active := refs, staging, {};
      open, tickets, holders := map[], [], [];
      new;
      StartInv(Eager(refs), staging);
    }

    /** Check and insert in one step, so that exactly one build claims. */
    method ClaimOrWait(p: Path, ghost b: nat) returns (r: Claimed)
      requires TicketsOk(View())
      modifies this`open, this`tickets, this`holders
      ensures TicketsOk(View())
      ensures p in old(open) ==> View() == old(View()) && r == Theirs(open[p])
      ensures p !in old(open) ==> View() == Given(old(View()), b, p) && r == Mine
    {
      if p in open {
        return Theirs(open[p]);
      }
      open := open[p := |tickets|];
      tickets, holders := tickets + [Running], holders + [Holder(b, p)];
      r := Mine;
    }

    method SettleClaim(p: Path, st: ClaimState)
      requires TicketsOk(View()) && st != Running
      modifies this`open, this`tickets
      ensures TicketsOk(View()) && View() == Settling(old(View()), p, st)
    {
      if p in open {
        tickets := tickets[open[p] := st];
        open := open - {p};
      }
    }

    /** A ticket has settled exactly when the registry no longer lists its claim. */
    method SettledState(t: nat) returns (r: Settled)
      requires TicketsOk(View()) && t < |tickets|
      ensures r.StillRunning? <==> holders[t].path in open && open[holders[t].path] == t
      ensures r.SettledAs? ==> r.state == tickets[t]
    {
      r := if tickets[t] == Running then StillRunning else SettledAs(tickets[t]);
    }
  }

  class ActiveBuild {
    const id: nat
    const registry: Registry
    var inputs: set<Path>
    var pending: set<Path>
    var imports: set<Path>
    var claimed: set<Path>
    var waits: map<Path, nat>
    var resends: nat
    /** Complete paths with a reference not staged yet. */
    var parked: set<Path>
    var tmpDirDone: bool
    /** The references each path's manifest names. */
    const infos: map<Path, seq<Path>>

    ghost function View(): Fields
      reads this
    {
      Fields(inputs, pending, imports, claimed, waits, resends)
    }

    /** Manifests name the references the daemon knows. */
    ghost predicate Told() { forall p: Path :: Elems(InfoOf(p)) - {p} == Refs(registry.refs, p) }

    function InfoOf(p: Path): seq<Path> { if p in infos then infos[p] else [] }

    /** The fields are this build's part of the staging state. */
    ghost predicate Shaped()
      reads this, registry
    {
      Leaves(registry.refs, registry.staging, id, registry.View(), View()) && Told()
    }

    /** Nothing could be started: what is complete is parked, and each parked path lacks a reference. */
    ghost predicate AtRest()
      reads this, registry
    {
      id < |registry.staging.builds| && Listed(registry.refs, registry.staging.builds[id], parked, {}, {})
    }

    ghost predicate Valid()
      reads this, registry
    {
      Shaped() && AtRest()
    }

    ghost predicate IsStaging()
      reads registry
    {
      id < |registry.staging.builds| && registry.staging.builds[id].phase == Staging
    }

    /** The shared staging state took this step. */
    twostate predicate Stepped(e: Event)
      reads registry
    {
      Took(Eager(registry.refs), old(registry.staging), e, registry.staging)
    }

    /** The step, and then everything of this build that could start. */
    twostate predicate Went(e: Event)
      reads registry
    {
      && Enabled(Eager(registry.refs), old(registry.staging), e)
      && id < |Next(Eager(registry.refs), old(registry.staging), e).builds|
      && registry.staging == Started(registry.refs, Next(Eager(registry.refs), old(registry.staging), e), id)
    }

    /** Only this build's part of the staging state changed, and tickets kept their holders. */
    twostate predicate Aside()
      reads registry
    {
      && registry.active == old(registry.active) && old(registry.holders) <= registry.holders
      && |registry.staging.builds| == |old(registry.staging).builds|
      && forall i | 0 <= i < |registry.staging.builds| && i != id ::
           registry.staging.builds[i] == old(registry.staging).builds[i]
    }

    /** Every other build on the registry that was in order still is. */
    twostate predicate OthersStay()
      reads registry, registry.active
    {
      && registry.active == old(registry.active)
      && forall o: ActiveBuild | o in registry.active && o.registry == registry && o.id != id && old(o.Valid()) ::
           o.Valid()
    }

    twostate lemma OthersStayOn()
      requires registry.Valid() && Aside() && forall o: ActiveBuild | o in registry.active && o != this :: unchanged(o)
      ensures OthersStay()
    {
      hide Sound, Holds, Listed;
      forall o: ActiveBuild | o in old(registry.active) && o.registry == registry && o.id != id && old(o.Valid())
        ensures o.Valid()
      {
        HoldsMore(registry.staging.builds[o.id], o.View(), old(registry.holders), registry.holders);
      }
    }

    constructor (registry: Registry, id: nat, infos: map<Path, seq<Path>>)
      requires registry.Valid() && id < |registry.staging.builds| && registry.staging.builds[id].phase == Init
      requires forall p: Path :: Elems(if p in infos then infos[p] else []) - {p} == Refs(registry.refs, p)
      modifies registry`active
      ensures this.registry == registry && this.id == id && this.infos == infos && Valid()
      ensures registry.active == old(registry.active) + {this}
    {
      this.registry, this.id, this.infos := registry, id, infos;
      inputs, pending, imports, claimed, waits, resends := {}, {}, {}, {}, map[], 0;
      parked, tmpDirDone := {}, false;
      new;
      registry.active := registry.active + {this};
      InvBuild(Eager(registry.refs), registry.staging, id);
      ListedNone(registry.refs, registry.staging.builds[id]);
    }

    /** True when the path is ours to request, else we wait on it. */
    method Claim(p: Path) returns (mine: bool)
      requires TicketsOk(registry.View())
      modifies this`claimed, this`pending, this`waits, registry`open, registry`tickets, registry`holders
      ensures TicketsOk(registry.View()) && mine == (p !in old(registry.open))
      ensures mine ==> registry.View() == Given(old(registry.View()), id, p)
      ensures mine ==> claimed == old(claimed) + {p} && pending == old(pending) + {p} && waits == old(waits)
      ensures !mine ==> registry.View() == old(registry.View())
      ensures !mine ==> claimed == old(claimed) && pending == old(pending) && waits == old(waits)[p := registry.open[p]]
    {
      hide TicketsOk;
      var r := registry.ClaimOrWait(p, id);
      mine := r.Mine?;
      if mine {
        claimed, pending := claimed + {p}, pending + {p};
      } else {
        waits := waits[p := r.ticket];
      }
    }

    /** The paths looked at so far are inputs, claimed, or waited for. */
    ghost predicate Scanned(k0: Book, ps: set<Path>, seen: set<Path>)
      reads this, registry
    {
      && TicketsOk(registry.View()) && Joins(k0, registry.View(), id, pending)
      && inputs == ps * seen && pending == ps - seen - k0.open.Keys && imports == {} && claimed == pending
      && waits == Watched(ps, seen, k0.open)
    }

    method Offer(p: Path, seen: set<Path>, ghost k0: Book, ghost ps: set<Path>) returns (asks: bool)
      requires Scanned(k0, ps, seen) && p !in ps
      modifies this, registry`open, registry`tickets, registry`holders
      ensures Scanned(k0, ps + {p}, seen) && resends == old(resends)
      ensures pending == if asks then old(pending) + {p} else old(pending)
    {
      hide TicketsOk, Joins, Watched;
      WatchedOn(ps, seen, k0.open, p);
      asks := false;
      if p in seen {
        inputs := inputs + {p};
      } else {
        ghost var had, k := pending, registry.View();
        JoinsKeys(k0, k, id, had);
        asks := Claim(p);
        if asks { JoinsOne(k0, k, id, had, p); }
      }
    }

    /** One pass over the offer: paths seen valid are inputs, the others are claimed or waited for. */
    method Scan(offered: seq<Path>, seen: set<Path>) returns (missing: seq<Path>)
      requires TicketsOk(registry.View()) && Distinct(offered)
      requires inputs == pending == imports == claimed == {} && waits == map[]
      modifies this, registry`open, registry`tickets, registry`holders
      ensures Scanned(old(registry.View()), Elems(offered), seen) && Elems(missing) == pending
      ensures resends == old(resends)
    {
      missing := [];
      ghost var k0 := registry.View();
      NothingJoined(k0, id, seen);
      hide Scanned, Elems;
      for i := 0 to |offered|
        invariant Scanned(k0, Elems(offered[..i]), seen) && Elems(missing) == pending && resends == old(resends)
      {
        ElemsOn(offered, i);
        var asks := Offer(offered[i], seen, k0, Elems(offered[..i]));
        if asks {
          ElemsAppend(missing, offered[i]);
          missing := missing + [offered[i]];
        }
      }
      assert offered[..|offered|] == offered;
    }

    /** The offer is taken with a validity answer that may be older than the claims. */
    method Join(offered: seq<Path>, seen: set<Path>) returns (missing: seq<Path>)
      requires Valid() && id < |registry.staging.builds| && registry.staging.builds[id].phase == Init
      requires Distinct(offered)
      requires Elems(offered) == registry.staging.builds[id].closure && seen <= Elems(offered) * registry.staging.valid
      modifies this, registry
      ensures Valid() && Stepped(Negotiate(id, seen)) && OthersStay()
      ensures Elems(missing) == pending
    {
      ghost var c, s, k0 := Eager(registry.refs), registry.staging, registry.View();
      StillEmpty(c, s, id, seen, View(), k0.holders);
      NothingComplete(c, s, id, seen);
      hide Inv, Next, Joins, TicketsOk, Acyclic, Agrees, Watched, Holds, Elems, Listed;
      missing := Scan(offered, seen);
      parked := {};
      assert inputs == seen;
      JoinsPrefix(k0, registry.View(), id, pending);
      JoinStep(c, s, id, seen, k0, registry.View(), View());
      StepAside(c, s, Negotiate(id, seen));
      registry.staging := Next(c, s, Negotiate(id, seen));
      ListedNone(registry.refs, registry.staging.builds[id]);
      OthersStayOn();
    }

    // ---- starting imports -----------------------------------------------------------------------

    /** A reference that is not an input yet. None is outside the input closure. */
    method UnstagedRef(p: Path) returns (r: Block)
      requires Told() && Refs(registry.refs, p) <= inputs + pending + imports + waits.Keys
      ensures !r.Outside? && (r.Free? <==> Refs(registry.refs, p) <= inputs)
      ensures r.On? ==> r.path in Refs(registry.refs, p) && r.path in pending + imports + waits.Keys
    {
      var refs := InfoOf(p);
      assert Elems(refs) - {p} == Refs(registry.refs, p);
      for i := 0 to |refs|
        invariant forall k | 0 <= k < i :: refs[k] == p || refs[k] in inputs
      {
        var ref := refs[i];
        if ref != p && ref !in inputs {
          assert ref in Elems(refs);
          assert ref in Refs(registry.refs, p);
          return if ref in pending || ref in imports || ref in waits then On(ref) else Outside(ref);
        }
      }
      assert forall x <- Elems(refs) :: x == p || x in inputs;
      r := Free;
    }

    /** The path goes to the import pool. */
    method DispatchImport(p: Path)
      requires Shaped() && IsStaging() && p in Startable(registry.refs, registry.staging.builds[id])
      modifies this`pending, this`imports, registry`staging
      ensures Shaped() && Stepped(Dispatch(id, p)) && Aside()
      ensures pending == old(pending) - {p} && imports == old(imports) + {p}
    {
      hide Leaves, Next, Enabled;
      ghost var c, s := Eager(registry.refs), registry.staging;
      DispatchLeaves(registry.refs, s, id, p, registry.View(), View());
      StepAside(c, s, Dispatch(id, p));
      pending, imports := pending - {p}, imports + {p};
      registry.staging := Next(c, s, Dispatch(id, p));
    }

    /** Where starting stands: `ps` started since `s0`, and every complete path is on one of the lists. */
    ghost predicate Starting(s0: State, ps: set<Path>, queue: set<Path>, later: set<Path>)
      reads this, registry
    {
      && Shaped() && IsStaging() && id < |s0.builds| && registry.staging == Dispatched(s0, id, ps)
      && ps <= Startable(registry.refs, s0.builds[id])
      && Listed(registry.refs, registry.staging.builds[id], parked, queue, later)
    }

    /** One path of the queue starts, with all parked ones to be looked at again, or is parked. */
    method Look(p: Path, queue: set<Path>, ghost later: set<Path>, ghost s0: State, ghost ps: set<Path>)
      returns (rest: set<Path>, ghost more: set<Path>)
      requires Starting(s0, ps, queue, later) && p in queue
      modifies this`pending, this`imports, this`parked, registry`staging
      ensures Starting(s0, more, rest, later) && Aside()
      ensures (p in old(pending) && pending == old(pending) - {p}) || (pending == old(pending) && rest == queue - {p})
    {
      hide Leaves, Listed, Next, Enabled, Startable, Told;
      ghost var x := registry.staging.builds[id];
      Looked(registry.refs, registry.staging, id, registry.View(), View(), parked, queue, later, p);
      var r := UnstagedRef(p);
      if r.Free? {
        ListedStart(registry.refs, x, parked, queue, later, p);
        StartableOn(registry.refs, s0, id, ps, p);
        StartableEnabled(registry.refs, registry.staging, id, p);
        DispatchedOn(Eager(registry.refs), s0, id, ps, p);
        DispatchImport(p);
        DispatchedOne(s0, id, ps, p);
        more := ps + {p};
        rest, parked := queue - {p} + parked, {};
      } else {
        ListedPark(registry.refs, x, parked, queue, later, p);
        more := ps;
        rest, parked := queue - {p}, parked + {p};
      }
    }

    /** start_chunk_import: until each complete path of the queue has started or is parked. */
    method StartFrom(start: set<Path>, ghost later: set<Path>, ghost s0: State, ghost ps0: set<Path>)
      returns (ghost ps: set<Path>)
      requires Starting(s0, ps0, start, later)
      modifies this`pending, this`imports, this`parked, registry`staging
      ensures Starting(s0, ps, {}, later) && Aside()
    {
      hide Starting;
      var queue := start;
      ps := ps0;
      while queue != {}
        invariant Starting(s0, ps, queue, later) && Aside()
        decreases |pending|, queue
      {
        var p :| p in queue;
        ghost var had := pending;
        queue, ps := Look(p, queue, later, s0, ps);
        assert pending == had || |pending| < |had| by { if pending != had { SmallerBy(had, p); } }
      }
    }

    /** Something was staged: look at every parked path again. */
    method RetryParked()
      requires Shaped() && IsStaging()
        && parked == registry.staging.builds[id].pending * registry.staging.builds[id].complete
      modifies this`pending, this`imports, this`parked, registry`staging
      ensures Valid() && IsStaging() && Aside() && registry.staging == Started(registry.refs, old(registry.staging), id)
    {
      hide Leaves, Listed, Next, Enabled, Startable;
      ghost var s0, ps := registry.staging, {};
      NothingDispatched(s0, id);
      ListedAll(registry.refs, s0.builds[id], parked);
      var todo := parked;
      parked := {};
      while todo != {}
        invariant Starting(s0, ps, {}, todo) && Aside()
        decreases todo
      {
        var p :| p in todo;
        ListedNext(registry.refs, registry.staging.builds[id], parked, todo, p);
        ps := StartFrom({p}, todo - {p}, s0, ps);
        todo := todo - {p};
      }
      AllStarted(registry.refs, s0.builds[id], ps, parked);
    }

    /** The last chunk of a path came. It starts, or is parked until its references are staged. */
    method ChunksComplete(p: Path)
      requires Valid() && IsStaging() && p in pending && p !in registry.staging.builds[id].complete
      modifies this`pending, this`imports, this`parked, registry`staging
      ensures Valid() && IsStaging() && Went(Deliver(id, p)) && Aside() && OthersStay()
    {
      hide Leaves, Listed, Enabled, Startable;
      ghost var c, s := Eager(registry.refs), registry.staging;
      DeliverLeaves(registry.refs, s, id, p, registry.View(), View());
      StepAside(c, s, Deliver(id, p));
      LeavesPending(registry.refs, s, id, registry.View(), View());
      ListedDeliver(registry.refs, s.builds[id], parked, p);
      ghost var s0 := Next(c, s, Deliver(id, p));
      NothingDispatched(s0, id);
      registry.staging := s0;
      ghost var ps := StartFrom({p}, {}, s0, {});
      AllStarted(registry.refs, s0.builds[id], ps, parked);
      LeavesSound(registry.refs, registry.staging, id, registry.View(), View());
      OthersStayOn();
    }

    // ---- waits -----------------------------------------------------------------------------------

    /** The claim waited on is done. */
    method TakeInput(p: Path)
      requires Shaped() && IsStaging() && p in waits && waits[p] < |registry.tickets|
      requires registry.tickets[waits[p]] == Done
      modifies this`inputs, this`waits, registry`staging
      ensures Shaped() && Stepped(Resolve(id, p)) && Aside()
    {
      hide Leaves, Next, Enabled, Eager;
      ghost var c, s := Eager(registry.refs), registry.staging;
      InputLeaves(registry.refs, s, id, p, registry.View(), View());
      StepAside(c, s, Resolve(id, p));
      waits, inputs := waits - {p}, inputs + {p};
      registry.staging := Next(c, s, Resolve(id, p));
    }

    /** The owner gave up: follow the new owner, or take over. */
    method TryAgain(p: Path) returns (asks: bool)
      requires Shaped() && IsStaging() && p in waits && waits[p] < |registry.tickets|
      requires registry.tickets[waits[p]] == Failed
      modifies this`pending, this`claimed, this`waits, registry`open, registry`tickets, registry`holders,
        registry`staging
      ensures Shaped() && Stepped(Resolve(id, p)) && Aside()
      ensures asks == (p !in old(registry.open))
    {
      hide Leaves, Next, Enabled, TicketsOk, Eager, Sound;
      ghost var c, s := Eager(registry.refs), registry.staging;
      LeavesSound(registry.refs, s, id, registry.View(), View());
      if p in registry.open {
        FollowLeaves(registry.refs, s, id, p, registry.View(), View());
      } else {
        TakeoverLeaves(registry.refs, s, id, p, registry.View(), View());
      }
      StepAside(c, s, Resolve(id, p));
      waits := waits - {p};
      asks := Claim(p);
      registry.staging := Next(c, s, Resolve(id, p));
    }

    /** A settled wait turns into an input, another wait, or a claim of our own. */
    method TurnWait(p: Path, st: ClaimState) returns (asks: bool)
      requires Valid() && IsStaging() && p in waits && waits[p] < |registry.tickets|
      requires st == registry.tickets[waits[p]] != Running
      modifies this, registry
      ensures Valid() && Went(Resolve(id, p)) && Aside()
      ensures asks == (st != Done && p !in old(registry.open))
    {
      hide Leaves, Next, Enabled, Listed, Startable;
      ghost var c, s := Eager(registry.refs), registry.staging;
      WaitSettled(registry.refs, s, id, p, registry.View(), View());
      CompleteKept(c, s, Resolve(id, p));
      ListedComplete(registry.refs, s.builds[id], parked);
      if st == Done {
        asks := false;
        TakeInput(p);
        RetryParked();
      } else {
        asks := TryAgain(p);
        ListedSame(registry.refs, s.builds[id], registry.staging.builds[id], parked);
        RestStays(registry.refs, registry.staging, id, parked);
      }
    }

    /** Something settled. True if the path is now ours to request. */
    method Woken(p: Path) returns (asks: bool)
      requires Valid() && IsStaging()
      modifies this, registry
      ensures Valid() && OthersStay()
      ensures Went(Resolve(id, p)) || (!Enabled(Eager(registry.refs), old(registry.staging), Resolve(id, p)) && !asks &&
        registry.staging == old(registry.staging))
    {
      hide Leaves, Next, Enabled, Eager, Sound, TicketsOk, Listed, Started;
      WaitKnown(registry.refs, registry.staging, id, p, registry.View(), View());
      LeavesSound(registry.refs, registry.staging, id, registry.View(), View());
      asks := false;
      if p !in waits {
        OthersStayOn();
        return;
      }
      TicketListed(registry.View(), waits[p]);
      var r := registry.SettledState(waits[p]);
      if r.SettledAs? {
        asks := TurnWait(p, r.state);
        LeavesSound(registry.refs, registry.staging, id, registry.View(), View());
      }
      OthersStayOn();
    }

    // ---- imports ---------------------------------------------------------------------------------

    /** settle: a claim still held is settled. */
    method SettleOwn(p: Path, st: ClaimState)
      requires TicketsOk(registry.View()) && st != Running && p in claimed
      modifies this`claimed, registry`open, registry`tickets
      ensures TicketsOk(registry.View()) && claimed == old(claimed) - {p}
      ensures registry.View() == Settling(old(registry.View()), p, st)
    {
      if p in claimed {
        claimed := claimed - {p};
        registry.SettleClaim(p, st);
      }
    }

    /** An own import went through: the path is an input and its claim is done. */
    method ImportDone(p: Path)
      requires Shaped() && IsStaging() && p in imports
      modifies this`inputs, this`imports, this`claimed, registry`open, registry`tickets, registry`staging
      ensures Shaped() && Stepped(Import(id, p)) && Aside()
    {
      hide Leaves, Next, Enabled, TicketsOk, Eager, Sound;
      ghost var c, s := Eager(registry.refs), registry.staging;
      LeavesSound(registry.refs, s, id, registry.View(), View());
      ImportLeaves(registry.refs, s, id, p, registry.View(), View());
      StepAside(c, s, Import(id, p));
      imports := imports - {p};
      SettleOwn(p, Done);
      inputs := inputs + {p};
      registry.staging := Next(c, s, Import(id, p));
    }

    /** Corrupt or vanished chunks: the path is pending again, under the claim it has. */
    method StageAgain(p: Path)
      requires Valid() && IsStaging() && p in imports && resends < MAX_RESEND_ROUNDS
      modifies this`resends, this`pending, this`imports, registry`staging
      ensures Valid() && IsStaging() && Stepped(Restage(id, p)) && Aside() && resends == old(resends) + 1
      ensures p in pending && p !in registry.staging.builds[id].complete
    {
      hide Leaves, Enabled, Eager, Listed;
      ghost var c, s := Eager(registry.refs), registry.staging;
      RestageLeaves(registry.refs, s, id, p, registry.View(), View());
      LeavesSound(registry.refs, s, id, registry.View(), View());
      CompleteKept(c, s, Restage(id, p));
      StepAside(c, s, Restage(id, p));
      resends, pending, imports := resends + 1, pending + {p}, imports - {p};
      registry.staging := Next(c, s, Restage(id, p));
      RestagedStaged(s.builds[id], registry.staging.builds[id]);
      ListedSame(registry.refs, s.builds[id], registry.staging.builds[id], parked);
    }

    /**
     An own import ended. It is staged again if bad chunks are to blame and not too often. Parked
     paths are looked at again once it is an input.
     */
    method ImportFinished(p: Path, took: bool, bad: bool) returns (ok: bool)
      requires Valid() && IsStaging() && p in imports
      modifies this, registry`open, registry`tickets, registry`staging
      ensures Valid() && OthersStay() && ok == (took || (bad && old(resends) < MAX_RESEND_ROUNDS))
      ensures ok && took ==> Went(Import(id, p))
      ensures ok && !took ==> Stepped(Restage(id, p))
      ensures !ok ==> registry.staging == old(registry.staging)
    {
      hide Leaves, Next, Enabled, Eager, Listed, Startable, Sound;
      ghost var c, s := Eager(registry.refs), registry.staging;
      ok := took || (bad && resends < MAX_RESEND_ROUNDS);
      LeavesSound(registry.refs, s, id, registry.View(), View());
      if took {
        ImportLeaves(registry.refs, s, id, p, registry.View(), View());
        SoundInv(registry.refs, s, registry.View());
        CompleteKept(c, s, Import(id, p));
        ListedComplete(registry.refs, s.builds[id], parked);
        ImportDone(p);
        RetryParked();
      } else if ok {
        StageAgain(p);
      }
      LeavesSound(registry.refs, registry.staging, id, registry.View(), View());
      OthersStayOn();
    }

    // ---- leaving ---------------------------------------------------------------------------------

    /** settle_all: every claim still held is given up. */
    method GiveUp()
      requires TicketsOk(registry.View())
      modifies this`claimed, registry`open, registry`tickets
      ensures TicketsOk(registry.View()) && claimed == {}
      ensures registry.View() == Dropped(old(registry.View()), old(claimed))
    {
      var todo := claimed;
      claimed := {};
      NothingDropped(registry.View());
      while todo != {}
        invariant todo <= old(claimed) && TicketsOk(registry.View()) && claimed == {}
        invariant registry.View() == Dropped(old(registry.View()), old(claimed) - todo)
        decreases todo
      {
        var p :| p in todo;
        DroppedOn(old(registry.View()), old(claimed) - todo, p);
        registry.SettleClaim(p, Failed);
        assert old(claimed) - (todo - {p}) == old(claimed) - todo + {p};
        todo := todo - {p};
      }
      assert old(claimed) - {} == old(claimed);
    }

    /** The build is torn down while staging. */
    method Cancelled()
      requires Valid() && IsStaging()
      modifies this, registry
      ensures Valid() && Stepped(Cancel(id)) && OthersStay()
    {
      ghost var c, s, k := Eager(registry.refs), registry.staging, registry.View();
      StepAside(c, s, Cancel(id));
      hide Inv, Next, TicketsOk, Agrees, Holds, Acyclic, Listed;
      ClaimedAre(c, s, id, k, View());
      CancelAgrees(c, s, id, k);
      InvStep(c, s, Cancel(id));
      CancelHolds(c, s, id, View(), k.holders);
      GaveUp(k, id, claimed);
      GiveUp();
      pending, imports, waits, parked := {}, {}, map[], {};
      registry.staging := Next(c, s, Cancel(id));
      assert registry.staging.builds[id].pending == {} by { CancelPending(c, s, id); }
      ListedNone(registry.refs, registry.staging.builds[id]);
      OthersStayOn();
    }

    method TmpDirUnpacked()
      requires Valid()
      modifies this`tmpDirDone
      ensures Valid() && tmpDirDone
    {
      tmpDirDone := true;
    }

    /** The tmp dir is there, and nothing is pending, with the importers, or waited on. */
    method TryComplete() returns (ready: bool)
      requires Valid() && IsStaging()
      ensures ready <==> tmpDirDone && Enabled(Eager(registry.refs), registry.staging, Finish(id))
    {
      hide Inv, TicketsOk, Agrees, Acyclic, Listed;
      ready := tmpDirDone && pending == {} && imports == {} && waits == map[];
      assert waits == map[] <==> waits.Keys == {};
      assert registry.staging.builds[id].waits == map[] <==> registry.staging.builds[id].waits.Keys == {};
    }

    method Complete()
      requires Valid() && Enabled(Eager(registry.refs), registry.staging, Finish(id))
      modifies registry
      ensures Valid() && Stepped(Finish(id)) && OthersStay()
    {
      ghost var c, s := Eager(registry.refs), registry.staging;
      InvStep(c, s, Finish(id));
      FinishAgrees(c, s, id, registry.View());
      StepAside(c, s, Finish(id));
      hide Inv, TicketsOk, Agrees, Acyclic;
      registry.staging := Next(c, s, Finish(id));
      OthersStayOn();
    }
  }
}

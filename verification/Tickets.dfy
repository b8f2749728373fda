/**
 Claim tickets. A claim hands out a ticket: whoever waits watches the ticket of the claim it
 met, not the path. Here is what keeps tickets, registry and staging state in agreement.
 */
module Tickets {
  import opened StorePath
  import opened Graph
  import opened Claims
  import opened ClaimsSafety

  /** Ours to fetch, or someone else's, with the ticket to watch. */
  datatype Claimed = Mine | Theirs(ticket: nat)

  datatype Settled = StillRunning | SettledAs(state: ClaimState)

  /** Whose claim of what a ticket stands for. */
  datatype Holder = Holder(build: nat, path: Path)

  /** The registry: the claims it lists, how each ticket stands, and whose it is. */
  datatype Book = Book(open: map<Path, nat>, tickets: seq<ClaimState>, holders: seq<Holder>)

  /** A build's own fields. */
  datatype Fields = Fields(
    inputs: set<Path>, pending: set<Path>, imports: set<Path>, claimed: set<Path>, waits: map<Path, nat>, resends: nat)

  /** The claim gets a new ticket. */
  function Given(k: Book, b: nat, p: Path): Book
  {
    Book(k.open[p := |k.tickets|], k.tickets + [Running], k.holders + [Holder(b, p)])
  }

  /** The claim is off the list and its ticket settled. */
  function Settling(k: Book, p: Path, st: ClaimState): Book
  {
    if p in k.open && k.open[p] < |k.tickets| then Book(k.open - {p}, k.tickets[k.open[p] := st], k.holders) else k
  }

  /** A ticket runs exactly as long as the registry lists it. */
  predicate TicketsOk(k: Book)
  {
    && |k.holders| == |k.tickets|
    && (forall p <- k.open ::
          k.open[p] < |k.tickets| && k.tickets[k.open[p]] == Running && k.holders[k.open[p]].path == p)
    && (forall t | 0 <= t < |k.tickets| && k.tickets[t] == Running ::
          k.holders[t].path in k.open && k.open[k.holders[t].path] == t)
  }

  /** The registry and the tickets say what the staging state says. */
  predicate Agrees(s: State, k: Book)
  {
    && |k.holders| == |k.tickets|
    && s.claim.Keys == k.open.Keys
    && (forall p <- k.open :: k.open[p] < |k.holders| && p in s.claim && k.holders[k.open[p]] == Holder(s.claim[p], p))
    && (forall t | 0 <= t < |k.tickets| :: TicketOk(s, k.tickets[t], k.holders[t]))
  }

  /** The build stays the path's owner while it stages, so it never claims a path twice. */
  predicate TicketOk(s: State, st: ClaimState, h: Holder)
  {
    && st == ClaimOf(s, h.build, h.path) && h.build < |s.builds| && s.builds[h.build].phase != Init
    && (s.builds[h.build].phase == Staging ==> h.path in s.builds[h.build].Owned())
  }

  /** Claims are dropped once their import is done. */
  function Eager(refs: map<Path, set<Path>>): Config { Config(refs, true, MAX_RESEND_ROUNDS) }

  const MAX_RESEND_ROUNDS: nat := 3

  /** The registry is in order, and so is all it speaks of. */
  ghost predicate Sound(refs: map<Path, set<Path>>, s: State, k: Book)
  {
    Eager(refs).Valid() && Inv(Eager(refs), s) && TicketsOk(k) && Agrees(s, k)
  }

  lemma TicketGiven(k: Book, b: nat, p: Path)
    requires TicketsOk(k) && p !in k.open
    ensures TicketsOk(Given(k, b, p))
  {}

  lemma TicketSettled(k: Book, p: Path, st: ClaimState)
    requires TicketsOk(k) && p in k.open && st != Running
    ensures TicketsOk(Settling(k, p, st))
  {}

  /** The staging state went one step on. */
  predicate Took(c: Config, s: State, e: Event, t: State) { Enabled(c, s, e) && t == Next(c, s, e) }

  // ---- steps seen by the registry ------------------------------------------------------------

  /** A build's own progress changes no other claim. */
  lemma OthersKeep(s: State, t: State, b: nat, st: ClaimState, h: Holder)
    requires TicketOk(s, st, h) && b < |s.builds| && |t.builds| == |s.builds| && h.build != b
    requires forall i | 0 <= i < |s.builds| && i != b :: t.builds[i] == s.builds[i]
    ensures TicketOk(t, st, h)
  {}

  lemma ResolveTicket(c: Config, s: State, b: nat, p: Path, st: ClaimState, h: Holder)
    requires Inv(c, s) && Enabled(c, s, Resolve(b, p)) && TicketOk(s, st, h)
    ensures TicketOk(Next(c, s, Resolve(b, p)), st, h)
  {
    assert BuildOk(c, s, b);
    if h.build != b { OthersKeep(s, Next(c, s, Resolve(b, p)), b, st, h); }
  }

  /** Nobody gave up, or someone else took over: the registry stays as it is. */
  lemma ResolveAgrees(c: Config, s: State, b: nat, p: Path, k: Book)
    requires Inv(c, s) && Agrees(s, k) && Enabled(c, s, Resolve(b, p))
    requires p in k.open || ClaimOf(s, s.builds[b].waits[p], p) == Done
    ensures Agrees(Next(c, s, Resolve(b, p)), k)
  {
    hide Inv, TicketOk;
    forall n: nat | n < |k.tickets|
      ensures TicketOk(Next(c, s, Resolve(b, p)), k.tickets[n], k.holders[n])
    {
      ResolveTicket(c, s, b, p, k.tickets[n], k.holders[n]);
    }
  }

  lemma TakeoverTicket(c: Config, s: State, b: nat, p: Path)
    requires Inv(c, s) && Enabled(c, s, Resolve(b, p)) && p !in s.claim && ClaimOf(s, s.builds[b].waits[p], p) != Done
    ensures TicketOk(Next(c, s, Resolve(b, p)), Running, Holder(b, p))
  {
    assert BuildOk(c, s, b);
  }

  /** The owner gave up and nobody claimed since: a new ticket. */
  lemma TakeoverAgrees(c: Config, s: State, b: nat, p: Path, k: Book)
    requires Inv(c, s) && Agrees(s, k) && Enabled(c, s, Resolve(b, p))
    requires p !in k.open && ClaimOf(s, s.builds[b].waits[p], p) != Done
    ensures Agrees(Next(c, s, Resolve(b, p)), Given(k, b, p))
  {
    hide Inv, TicketOk;
    TakeoverTicket(c, s, b, p);
    forall n: nat | n < |k.tickets|
      ensures TicketOk(Next(c, s, Resolve(b, p)), k.tickets[n], k.holders[n])
    {
      ResolveTicket(c, s, b, p, k.tickets[n], k.holders[n]);
    }
  }

  lemma ImportTicket(c: Config, s: State, b: nat, p: Path, st: ClaimState, h: Holder)
    requires c.eager && Inv(c, s) && Enabled(c, s, Import(b, p)) && TicketOk(s, st, h)
    ensures TicketOk(Next(c, s, Import(b, p)), if h == Holder(b, p) then Done else st, h)
  {
    ImportAccepted(c, s, b, p);
    assert BuildOk(c, s, b);
    if h.build != b { OthersKeep(s, Next(c, s, Import(b, p)), b, st, h); }
  }

  lemma RunningClaim(c: Config, s: State, b: nat, p: Path)
    requires Inv(c, s) && b < |s.builds| && p in s.builds[b].running + s.builds[b].pending
    ensures p in s.claim && s.claim[p] == b
  {}

  lemma ImportClaims1(c: Config, s: State, b: nat, p: Path)
    requires c.eager && Inv(c, s) && Enabled(c, s, Import(b, p))
    ensures Next(c, s, Import(b, p)).claim == s.claim - {p}
  {
    ImportAccepted(c, s, b, p);
  }

  lemma ImportAgrees(c: Config, s: State, b: nat, p: Path, k: Book)
    requires c.eager && Inv(c, s) && Agrees(s, k) && TicketsOk(k) && Enabled(c, s, Import(b, p))
    ensures p in k.open && Agrees(Next(c, s, Import(b, p)), Settling(k, p, Done))
  {
    hide Inv, TicketOk, Next;
    RunningClaim(c, s, b, p);
    ImportClaims1(c, s, b, p);
    forall n: nat | n < |k.tickets|
      ensures TicketOk(Next(c, s, Import(b, p)), k.tickets[k.open[p] := Done][n], k.holders[n])
    {
      ImportTicket(c, s, b, p, k.tickets[n], k.holders[n]);
      if k.holders[n] == Holder(b, p) { OneTicket(s, k, n, b, p); }
    }
  }

  /** A build has one ticket for a path it is fetching. */
  lemma OneTicket(s: State, k: Book, n: nat, b: nat, p: Path)
    requires Agrees(s, k) && TicketsOk(k) && n < |k.tickets| && k.holders[n] == Holder(b, p)
    requires p in k.open && s.claim[p] == b
    ensures n == k.open[p]
  {
    assert TicketOk(s, k.tickets[n], k.holders[n]) && TicketOk(s, k.tickets[k.open[p]], k.holders[k.open[p]]);
  }

  // ---- leaving ---------------------------------------------------------------------------------

  /** All of a build's claims are given up. */
  function Abandoned(k: Book, b: nat): Book
    requires |k.holders| == |k.tickets|
  {
    Book(map p | p in k.open && k.open[p] < |k.holders| && k.holders[k.open[p]].build != b :: k.open[p],
         seq(|k.tickets|, n requires 0 <= n < |k.tickets| =>
           if k.holders[n].build == b && k.tickets[n] == Running then Failed else k.tickets[n]),
         k.holders)
  }

  lemma CancelTicket(c: Config, s: State, b: nat, st: ClaimState, h: Holder)
    requires Inv(c, s) && Enabled(c, s, Cancel(b)) && TicketOk(s, st, h)
    ensures TicketOk(Next(c, s, Cancel(b)), if h.build == b && st == Running then Failed else st, h)
  {
    assert BuildOk(c, s, b);
    if h.build != b { OthersKeep(s, Next(c, s, Cancel(b)), b, st, h); }
  }

  lemma CancelAgrees(c: Config, s: State, b: nat, k: Book)
    requires Inv(c, s) && Agrees(s, k) && Enabled(c, s, Cancel(b))
    ensures Agrees(Next(c, s, Cancel(b)), Abandoned(k, b))
  {
    hide Inv, TicketOk;
    forall n: nat | n < |k.tickets|
      ensures TicketOk(Next(c, s, Cancel(b)), Abandoned(k, b).tickets[n], k.holders[n])
    {
      CancelTicket(c, s, b, k.tickets[n], k.holders[n]);
    }
  }

  lemma FinishTicket(c: Config, s: State, b: nat, st: ClaimState, h: Holder)
    requires Inv(c, s) && Enabled(c, s, Finish(b)) && TicketOk(s, st, h)
    ensures TicketOk(Next(c, s, Finish(b)), st, h) && (h.build == b ==> st == Done)
  {
    assert BuildOk(c, s, b);
    if h.build != b { OthersKeep(s, Next(c, s, Finish(b)), b, st, h); }
  }

  /** A build that is ready has no claim left to drop. */
  lemma FinishAgrees(c: Config, s: State, b: nat, k: Book)
    requires Inv(c, s) && Agrees(s, k) && TicketsOk(k) && Enabled(c, s, Finish(b))
    ensures Agrees(Next(c, s, Finish(b)), k)
  {
    hide Inv, TicketOk;
    forall n: nat | n < |k.tickets|
      ensures TicketOk(Next(c, s, Finish(b)), k.tickets[n], k.holders[n])
      ensures (k.holders[n].build == b ==> k.tickets[n] == Done)
    {
      FinishTicket(c, s, b, k.tickets[n], k.holders[n]);
    }
    assert forall p <- k.open :: k.holders[k.open[p]].build != b;
    assert Next(c, s, Finish(b)).claim == s.claim;
  }

  // ---- joining ---------------------------------------------------------------------------------

  /** What one pass over the offer does to the registry: new tickets for the paths claimed. */
  predicate Joins(k0: Book, k: Book, b: nat, mine: set<Path>)
  {
    && |k0.holders| == |k0.tickets| <= |k.tickets| == |k.holders|
    && k.tickets[..|k0.tickets|] == k0.tickets && k.holders[..|k0.tickets|] == k0.holders
    && mine !! k0.open.Keys && k.open.Keys == k0.open.Keys + mine
    && (forall p <- k0.open :: k.open[p] == k0.open[p])
    && (forall p <- mine :: |k0.tickets| <= k.open[p] < |k.tickets| && k.holders[k.open[p]] == Holder(b, p))
    && (forall n | |k0.tickets| <= n < |k.tickets| ::
          k.tickets[n] == Running && k.holders[n].build == b && k.holders[n].path in mine)
  }

  lemma JoinsOne(k0: Book, k: Book, b: nat, mine: set<Path>, p: Path)
    requires Joins(k0, k, b, mine) && p !in k.open
    ensures Joins(k0, Given(k, b, p), b, mine + {p})
  {}

  /** The staging state after a build joined. */
  predicate Joined(s: State, t: State, b: nat, seen: set<Path>)
  {
    && b < |s.builds| && |t.builds| == |s.builds|
    && (forall i | 0 <= i < |s.builds| && i != b :: t.builds[i] == s.builds[i])
    && var x, y := s.builds[b], t.builds[b];
       && y.phase == Staging && y.inputs == seen && y.pending == x.closure - seen - s.claim.Keys
       && y.running == {} && y.done == {} && y.retries == 0
       && y.waits == (map p | p in x.closure && p !in seen && p in s.claim :: s.claim[p])
       && t.claim == s.claim + map p | p in y.pending :: b
  }

  lemma NegotiateJoins(c: Config, s: State, b: nat, seen: set<Path>)
    requires Inv(c, s) && Enabled(c, s, Negotiate(b, seen))
    ensures Joined(s, Next(c, s, Negotiate(b, seen)), b, seen) && s.builds[b].phase == Init
  {
    InvBuild(c, s, b);
    hide Inv;
    var x, y := s.builds[b], Next(c, s, Negotiate(b, seen)).builds[b];
    assert y.waits.Keys == set p | p in x.closure && p !in seen && p in s.claim;
  }

  lemma JoinedTicket(s: State, t: State, b: nat, seen: set<Path>, st: ClaimState, h: Holder)
    requires Joined(s, t, b, seen) && s.builds[b].phase == Init && TicketOk(s, st, h)
    ensures TicketOk(t, st, h)
  {}

  lemma NewTicket(s: State, t: State, b: nat, seen: set<Path>, p: Path)
    requires Joined(s, t, b, seen) && p in t.builds[b].pending
    ensures TicketOk(t, Running, Holder(b, p))
  {}

  lemma JoinedAgrees(s: State, t: State, b: nat, seen: set<Path>, k0: Book, k: Book)
    requires Joined(s, t, b, seen) && s.builds[b].phase == Init && Agrees(s, k0)
    requires Joins(k0, k, b, t.builds[b].pending)
    ensures Agrees(t, k)
  {
    hide TicketOk;
    forall n: nat | n < |k.tickets|
      ensures TicketOk(t, k.tickets[n], k.holders[n])
    {
      if n < |k0.tickets| {
        assert k.tickets[n] == k0.tickets[n] && k.holders[n] == k0.holders[n];
        JoinedTicket(s, t, b, seen, k.tickets[n], k.holders[n]);
      } else {
        NewTicket(s, t, b, seen, k.holders[n].path);
      }
    }
    forall p | p in k.open
      ensures k.open[p] < |k.holders| && p in t.claim && k.holders[k.open[p]] == Holder(t.claim[p], p)
    {
      if p in k0.open { assert k.holders[k.open[p]] == k0.holders[k0.open[p]]; }
    }
  }

  lemma InvBuild(c: Config, s: State, b: nat)
    requires Inv(c, s)
    ensures BuildOk(c, s, b)
  {}

  /** The object's fields are the build's part of the staging state. */
  predicate Holds(x: Build, f: Fields, holders: seq<Holder>)
  {
    && f.inputs == x.Staged() && f.pending == x.pending && f.imports == x.running && f.claimed == f.pending + f.imports
    && f.waits.Keys == x.waits.Keys && x.retries <= f.resends
    && forall p <- f.waits :: f.waits[p] < |holders| && holders[f.waits[p]] == Holder(x.waits[p], p)
  }

  lemma JoinsPrefix(k0: Book, k: Book, b: nat, mine: set<Path>)
    requires Joins(k0, k, b, mine)
    ensures k0.holders <= k.holders
  {}

  /** A step rewrites the build that takes it and no other. */
  lemma StepAside(c: Config, s: State, e: Event)
    requires Enabled(c, s, e)
    ensures |Next(c, s, e).builds| == |s.builds|
      && forall i | 0 <= i < |s.builds| && i != e.b :: Next(c, s, e).builds[i] == s.builds[i]
  {}

  /** Tickets keep their holders when more are handed out. */
  lemma HoldsMore(x: Build, f: Fields, holders: seq<Holder>, more: seq<Holder>)
    requires Holds(x, f, holders) && holders <= more
    ensures Holds(x, f, more)
  {
    assert forall n | 0 <= n < |holders| :: more[n] == holders[n];
  }

  lemma StillEmpty(c: Config, s: State, b: nat, seen: set<Path>, f: Fields, holders: seq<Holder>)
    requires Inv(c, s) && Enabled(c, s, Negotiate(b, seen)) && Holds(s.builds[b], f, holders)
    ensures f.inputs == f.pending == f.imports == f.claimed == {} && f.waits == map[]
  {
    InvBuild(c, s, b);
  }

  lemma JoinStep(c: Config, s: State, b: nat, seen: set<Path>, k0: Book, k: Book, f: Fields)
    requires Inv(c, s) && Enabled(c, s, Negotiate(b, seen)) && Agrees(s, k0) && Joins(k0, k, b, f.pending)
    requires var all := s.builds[b].closure;
      && f.inputs == seen && f.pending == all - seen - k0.open.Keys && f.waits == Watched(all, seen, k0.open)
      && f.imports == {} && f.claimed == f.pending
    ensures var t := Next(c, s, Negotiate(b, seen));
      Inv(c, t) && Agrees(t, k) && |t.builds| == |s.builds| && Holds(t.builds[b], f, k.holders)
  {
    NegotiateJoins(c, s, b, seen);
    InvStep(c, s, Negotiate(b, seen));
    hide Inv, Next, Joins, Agrees, Enabled, Watched, Holds;
    AgreesKeys(s, k0);
    var t := Next(c, s, Negotiate(b, seen));
    assert f.pending == t.builds[b].pending;
    JoinedAgrees(s, t, b, seen, k0, k);
    JoinedHolds(s, t, b, seen, k0, k, f);
  }

  function Watched(ps: set<Path>, seen: set<Path>, open: map<Path, nat>): map<Path, nat>
  {
    map p | p in ps && p !in seen && p in open :: open[p]
  }

  lemma WatchedOn(ps: set<Path>, seen: set<Path>, open: map<Path, nat>, p: Path)
    ensures Watched(ps + {p}, seen, open) ==
      if p !in seen && p in open then Watched(ps, seen, open)[p := open[p]] else Watched(ps, seen, open)
  {}

  lemma ElemsOn(ps: seq<Path>, i: nat)
    requires i < |ps| && Distinct(ps)
    ensures Elems(ps[..i + 1]) == Elems(ps[..i]) + {ps[i]} && ps[i] !in Elems(ps[..i])
  {
    assert ps[..i + 1] == ps[..i] + [ps[i]];
  }

  lemma ElemsAppend(ps: seq<Path>, p: Path)
    ensures Elems(ps + [p]) == Elems(ps) + {p}
  {}

  lemma NothingJoined(k: Book, b: nat, valid: set<Path>)
    requires TicketsOk(k)
    ensures Joins(k, k, b, {}) && Watched({}, valid, k.open) == map[]
    ensures Elems<Path>([]) == {}
  {}

  lemma AgreesKeys(s: State, k: Book)
    requires Agrees(s, k)
    ensures k.open.Keys == s.claim.Keys
  {}

  lemma JoinsKeys(k0: Book, k: Book, b: nat, mine: set<Path>)
    requires Joins(k0, k, b, mine)
    ensures k.open.Keys == k0.open.Keys + mine && forall p <- k0.open :: k.open[p] == k0.open[p]
  {}

  lemma JoinedHolds(s: State, t: State, b: nat, seen: set<Path>, k0: Book, k: Book, f: Fields)
    requires Joined(s, t, b, seen) && Agrees(s, k0) && Joins(k0, k, b, f.pending)
    requires f.inputs == t.builds[b].inputs && f.pending == t.builds[b].pending
    requires f.waits == Watched(s.builds[b].closure, seen, k0.open)
    requires f.imports == {} && f.claimed == f.pending
    ensures Holds(t.builds[b], f, k.holders)
  {
    hide TicketOk;
    forall p | p in f.waits
      ensures f.waits[p] < |k.holders| && k.holders[f.waits[p]] == Holder(t.builds[b].waits[p], p)
    {
      assert k.holders[f.waits[p]] == k0.holders[k0.open[p]];
    }
  }

  // ---- a build's fields after each step -----------------------------------------------------------

  /** A wait became a claim of the build's own. */
  function TakenOver(f: Fields, p: Path): Fields
  {
    f.(pending := f.pending + {p}, claimed := f.claimed + {p}, waits := f.waits - {p})
  }

  /** What a build's fields and the registry must be after a step of build `b`. */
  ghost predicate Leaves(refs: map<Path, set<Path>>, t: State, b: nat, k: Book, f: Fields)
  {
    Sound(refs, t, k) && b < |t.builds| && Holds(t.builds[b], f, k.holders)
  }

  lemma LeavesSound(refs: map<Path, set<Path>>, t: State, b: nat, k: Book, f: Fields)
    requires Leaves(refs, t, b, k, f)
    ensures Sound(refs, t, k) && TicketsOk(k)
  {}

  /** A ticket runs exactly if its claim is listed. */
  lemma TicketListed(k: Book, t: nat)
    requires TicketsOk(k) && t < |k.tickets|
    ensures k.tickets[t] == Running <==> k.holders[t].path in k.open && k.open[k.holders[t].path] == t
  {}

  lemma WaitEnabled(refs: map<Path, set<Path>>, s: State, b: nat, p: Path, k: Book, f: Fields)
    requires Leaves(refs, s, b, k, f) && s.builds[b].phase == Staging
    requires p in f.waits && f.waits[p] < |k.tickets| && k.tickets[f.waits[p]] != Running
    ensures Enabled(Eager(refs), s, Resolve(b, p)) && ClaimOf(s, s.builds[b].waits[p], p) == k.tickets[f.waits[p]]
    ensures Inv(Eager(refs), Next(Eager(refs), s, Resolve(b, p)))
  {
    assert TicketOk(s, k.tickets[f.waits[p]], k.holders[f.waits[p]]);
    InvStep(Eager(refs), s, Resolve(b, p));
  }

  lemma InputLeaves(refs: map<Path, set<Path>>, s: State, b: nat, p: Path, k: Book, f: Fields)
    requires Leaves(refs, s, b, k, f) && s.builds[b].phase == Staging
    requires p in f.waits && f.waits[p] < |k.tickets| && k.tickets[f.waits[p]] == Done
    ensures Enabled(Eager(refs), s, Resolve(b, p))
    ensures Leaves(refs, Next(Eager(refs), s, Resolve(b, p)), b, k,
      f.(inputs := f.inputs + {p}, waits := f.waits - {p}))
  {
    WaitEnabled(refs, s, b, p, k, f);
    ResolveAgrees(Eager(refs), s, b, p, k);
    ResolveHolds(Eager(refs), s, b, p, k, f);
  }

  lemma FollowLeaves(refs: map<Path, set<Path>>, s: State, b: nat, p: Path, k: Book, f: Fields)
    requires Leaves(refs, s, b, k, f) && s.builds[b].phase == Staging
    requires p in f.waits && f.waits[p] < |k.tickets| && k.tickets[f.waits[p]] == Failed && p in k.open
    ensures Enabled(Eager(refs), s, Resolve(b, p))
    ensures Leaves(refs, Next(Eager(refs), s, Resolve(b, p)), b, k, f.(waits := (f.waits - {p})[p := k.open[p]]))
  {
    WaitEnabled(refs, s, b, p, k, f);
    ResolveAgrees(Eager(refs), s, b, p, k);
    ResolveHolds(Eager(refs), s, b, p, k, f);
  }

  lemma TakeoverLeaves(refs: map<Path, set<Path>>, s: State, b: nat, p: Path, k: Book, f: Fields)
    requires Leaves(refs, s, b, k, f) && s.builds[b].phase == Staging
    requires p in f.waits && f.waits[p] < |k.tickets| && k.tickets[f.waits[p]] == Failed && p !in k.open
    ensures Enabled(Eager(refs), s, Resolve(b, p))
    ensures Leaves(refs, Next(Eager(refs), s, Resolve(b, p)), b, Given(k, b, p), TakenOver(f, p))
  {
    WaitEnabled(refs, s, b, p, k, f);
    TakeoverAgrees(Eager(refs), s, b, p, k);
    TicketGiven(k, b, p);
    ResolveHolds(Eager(refs), s, b, p, k, f);
  }

  /** The ticket watched tells how the claim waited on stands. */
  lemma TicketOfWait(s: State, b: nat, p: Path, k: Book, f: Fields)
    requires Agrees(s, k) && b < |s.builds| && Holds(s.builds[b], f, k.holders) && p in f.waits
    ensures f.waits[p] < |k.tickets| && k.tickets[f.waits[p]] == ClaimOf(s, s.builds[b].waits[p], p)
  {
    assert TicketOk(s, k.tickets[f.waits[p]], k.holders[f.waits[p]]);
  }

  /** A wait can be resolved exactly when the ticket watched has settled. */
  lemma WaitKnown(refs: map<Path, set<Path>>, s: State, b: nat, p: Path, k: Book, f: Fields)
    requires Leaves(refs, s, b, k, f) && s.builds[b].phase == Staging
    ensures p in f.waits ==>
      f.waits[p] < |k.tickets| && (k.tickets[f.waits[p]] != Running <==> Enabled(Eager(refs), s, Resolve(b, p)))
    ensures p !in f.waits ==> !Enabled(Eager(refs), s, Resolve(b, p))
  {
    hide Inv;
    if p in f.waits { TicketOfWait(s, b, p, k, f); }
  }

  lemma ResolveHolds(c: Config, s: State, b: nat, p: Path, k: Book, f: Fields)
    requires Enabled(c, s, Resolve(b, p)) && Holds(s.builds[b], f, k.holders) && p in f.waits
    requires Agrees(s, k)
    ensures var y, st := Next(c, s, Resolve(b, p)).builds[b], ClaimOf(s, s.builds[b].waits[p], p);
      && (st == Done ==> Holds(y, f.(inputs := f.inputs + {p}, waits := f.waits - {p}), k.holders))
      && (st != Done && p in k.open ==> Holds(y, f.(waits := (f.waits - {p})[p := k.open[p]]), k.holders))
      && (st != Done && p !in k.open ==> Holds(y, TakenOver(f, p), k.holders + [Holder(b, p)]))
  {
    hide TicketOk, ClaimOf;
  }

  lemma DispatchAgrees(c: Config, s: State, b: nat, p: Path, k: Book)
    requires Enabled(c, s, Dispatch(b, p)) && Agrees(s, k)
    ensures Agrees(Next(c, s, Dispatch(b, p)), k)
  {
    forall n: nat | n < |k.tickets|
      ensures TicketOk(Next(c, s, Dispatch(b, p)), k.tickets[n], k.holders[n])
    {
      assert TicketOk(s, k.tickets[n], k.holders[n]);
    }
  }

  lemma ImportLeaves(refs: map<Path, set<Path>>, s: State, b: nat, p: Path, k: Book, f: Fields)
    requires Leaves(refs, s, b, k, f) && s.builds[b].phase == Staging && p in f.imports
    ensures Enabled(Eager(refs), s, Import(b, p)) && p in k.open && p in f.claimed && TicketsOk(k)
    ensures Leaves(refs, Next(Eager(refs), s, Import(b, p)), b, Settling(k, p, Done),
      f.(inputs := f.inputs + {p}, imports := f.imports - {p}, claimed := f.claimed - {p}))
  {
    hide Inv, Agrees, TicketsOk, Holds, Next, Settling;
    var c := Eager(refs);
    assert Enabled(c, s, Import(b, p)) by { HoldsRunning(s.builds[b], f, k.holders, p); }
    ImportAccepted(c, s, b, p);
    InvBuild(c, s, b);
    InvStep(c, s, Import(b, p));
    ImportAgrees(c, s, b, p, k);
    TicketSettled(k, p, Done);
    ImportHolds(c, s, b, p, f, k.holders);
    SettlingHolders(k, p, Done);
  }

  lemma HoldsRunning(x: Build, f: Fields, holders: seq<Holder>, p: Path)
    requires Holds(x, f, holders) && p in f.imports
    ensures p in x.running && p in f.claimed
  {}

  lemma SettlingHolders(k: Book, p: Path, st: ClaimState)
    ensures Settling(k, p, st).holders == k.holders
  {}

  lemma ImportHolds(c: Config, s: State, b: nat, p: Path, f: Fields, holders: seq<Holder>)
    requires Enabled(c, s, Import(b, p)) && Refs(c.refs, p) <= s.valid && BuildOk(c, s, b)
    requires Holds(s.builds[b], f, holders)
    ensures b < |Next(c, s, Import(b, p)).builds| && p in f.claimed
    ensures Holds(Next(c, s, Import(b, p)).builds[b],
      f.(inputs := f.inputs + {p}, imports := f.imports - {p}, claimed := f.claimed - {p}), holders)
  {}

  function GivenUp(st: ClaimState, h: Holder, claimed: set<Path>): ClaimState
  {
    if st == Running && h.path in claimed then Failed else st
  }

  /** These claims are off the list and their tickets failed. */
  function Dropped(k: Book, claimed: set<Path>): Book
    requires |k.holders| == |k.tickets|
  {
    Book(map p | p in k.open && p !in claimed :: k.open[p],
         seq(|k.tickets|, n requires 0 <= n < |k.tickets| => GivenUp(k.tickets[n], k.holders[n], claimed)), k.holders)
  }

  lemma NothingDropped(k: Book)
    requires |k.holders| == |k.tickets|
    ensures Dropped(k, {}) == k
  {}

  lemma DroppedOn(k: Book, some: set<Path>, p: Path)
    requires TicketsOk(k)
    ensures Settling(Dropped(k, some), p, Failed) == Dropped(k, some + {p})
  {
    var a, b := Settling(Dropped(k, some), p, Failed), Dropped(k, some + {p});
    assert a.open == b.open;
    assert a.tickets == b.tickets;
  }

  lemma GaveUp(k: Book, b: nat, claimed: set<Path>)
    requires |k.holders| == |k.tickets|
    requires forall p <- k.open :: k.open[p] < |k.holders| && (p in claimed <==> k.holders[k.open[p]].build == b)
    requires forall n | 0 <= n < |k.tickets| && k.tickets[n] == Running ::
      k.holders[n].path in claimed <==> k.holders[n].build == b
    ensures Dropped(k, claimed) == Abandoned(k, b)
  {}

  /** The claims a build holds are the running tickets in its name. */
  lemma ClaimedAre(c: Config, s: State, b: nat, k: Book, f: Fields)
    requires Inv(c, s) && Agrees(s, k) && TicketsOk(k) && b < |s.builds| && s.builds[b].phase == Staging
    requires Holds(s.builds[b], f, k.holders)
    ensures |k.holders| == |k.tickets|
    ensures forall p <- k.open :: k.open[p] < |k.holders| && (p in f.claimed <==> k.holders[k.open[p]].build == b)
    ensures forall n | 0 <= n < |k.tickets| && k.tickets[n] == Running ::
      k.holders[n].path in f.claimed <==> k.holders[n].build == b
  {
    forall p | p in k.open
      ensures k.open[p] < |k.holders| && (p in f.claimed <==> k.holders[k.open[p]].build == b)
    {
      assert TicketOk(s, k.tickets[k.open[p]], k.holders[k.open[p]]);
      if p in f.claimed { RunningClaim(c, s, b, p); }
    }
  }

  lemma CancelHolds(c: Config, s: State, b: nat, f: Fields, holders: seq<Holder>)
    requires Enabled(c, s, Cancel(b)) && Holds(s.builds[b], f, holders)
    ensures var t := Next(c, s, Cancel(b));
      |t.builds| == |s.builds| && Holds(t.builds[b], Fields(f.inputs, {}, {}, {}, map[], f.resends), holders)
  {}

  /** A failed import staged again: the claim stays, so nobody who waits notices. */
  lemma RestageLeaves(refs: map<Path, set<Path>>, s: State, b: nat, p: Path, k: Book, f: Fields)
    requires Leaves(refs, s, b, k, f) && s.builds[b].phase == Staging && p in f.imports && f.resends < MAX_RESEND_ROUNDS
    ensures Enabled(Eager(refs), s, Restage(b, p))
    ensures Leaves(refs, Next(Eager(refs), s, Restage(b, p)), b, k, Restaged(f, p))
  {
    var c := Eager(refs);
    InvBuild(c, s, b);
    InvStep(c, s, Restage(b, p));
    RestageAgrees(c, s, b, p, k);
    hide Inv, Agrees, TicketsOk;
  }

  function Restaged(f: Fields, p: Path): Fields
  {
    f.(pending := f.pending + {p}, imports := f.imports - {p}, resends := f.resends + 1)
  }

  lemma RestageAgrees(c: Config, s: State, b: nat, p: Path, k: Book)
    requires Enabled(c, s, Restage(b, p)) && Agrees(s, k)
    ensures Agrees(Next(c, s, Restage(b, p)), k)
  {
    forall n: nat | n < |k.tickets|
      ensures TicketOk(Next(c, s, Restage(b, p)), k.tickets[n], k.holders[n])
    {
      assert TicketOk(s, k.tickets[n], k.holders[n]);
    }
  }
}

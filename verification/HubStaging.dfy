/**
 The hub's side of the transfer as the relay runs it: manifests computed in the background,
 queued, and put on the wire when there is room, while chunk requests are answered one at a
 time. However its branches interleave, it is the hub of the protocol.
 */
module HubStaging {
  import opened StorePath
  import opened Relay
  import opened RelaySafety
  import opened Graph

  datatype Serving = Idle | Answering(hashes: set<Chunk>)

  /** `tasks` are manifests being computed, `unsent` those computed and not on the wire. */
  datatype Hub = Hub(offered: set<Path>, sent: seq<Path>, unsent: seq<Path>, computing: set<Path>, tasks: set<Path>,
                     queued: seq<set<Chunk>>, serving: Serving, first: bool, wire: seq<Message>)

  /** A path is being computed, waiting for the wire, or sent. Never two of these, never twice. */
  predicate Sound(u: Hub)
  {
    && Distinct(u.sent) && Distinct(u.unsent)
    && u.computing == u.tasks + Elems(u.unsent) && u.tasks !! Elems(u.unsent) && u.computing !! Elems(u.sent)
    && (u.serving.Idle? ==> u.queued == [])
  }

  // ---- operations ---------------------------------------------------------------------------

  /** serve_next: the next request, if any, is answered now. */
  function ServeNext(u: Hub): Hub
  {
    if u.queued == [] then u.(serving := Idle) else u.(serving := Answering(u.queued[0]), queued := u.queued[1..])
  }

  /** A computed manifest goes on the wire and is sent, in one step. */
  function SentNext(u: Hub): Hub
    requires u.unsent != []
  {
    var p := u.unsent[0];
    u.(unsent := u.unsent[1..], computing := u.computing - {p}, sent := u.sent + [p], wire := u.wire + [Man(p)])
  }

  function TaskDone(u: Hub, p: Path): Hub { u.(tasks := u.tasks - {p}, unsent := u.unsent + [p]) }

  /** The answer is out, its end marker with it. */
  function ServeDone(u: Hub): Hub
    requires u.serving.Answering?
  {
    ServeNext(u.(wire := u.wire + [Chunks(u.serving.hashes), Eof]))
  }

  /** One requested path: sent again if it was sent and asked for before, else computed unless it is already. */
  function Asked(u: Hub, p: Path): Hub
  {
    if p in u.sent then (if u.first then u else u.(wire := u.wire + [Man(p)]))
    else if p in u.computing then u
    else u.(computing := u.computing + {p}, tasks := u.tasks + {p})
  }

  function AskedAll(u: Hub, paths: seq<Path>): Hub
  {
    if paths == [] then u else Asked(AskedAll(u, paths[..|paths| - 1]), paths[|paths| - 1])
  }

  function Requested(u: Hub, hashes: set<Chunk>): Hub
  {
    if hashes == {} then u else
      var v := u.(queued := u.queued + [hashes]);
      if v.serving.Idle? then ServeNext(v) else v
  }

  function NeedHandled(u: Hub, paths: seq<Path>, hashes: set<Chunk>): Hub
  {
    Requested(AskedAll(u, paths).(first := false), hashes)
  }

  // ---- they keep the shape --------------------------------------------------------------------

  lemma SentSound(u: Hub)
    requires Sound(u) && u.unsent != []
    ensures Sound(SentNext(u)) && u.unsent[0] !in u.sent
  {
    var p, rest := u.unsent[0], u.unsent[1..];
    assert u.unsent == [p] + rest;
    assert p in Elems(u.unsent) && Elems(u.unsent) == {p} + Elems(rest);
    assert p !in rest;
    assert Elems(u.sent + [p]) == Elems(u.sent) + {p};
    assert p !in Elems(u.sent);
  }

  lemma TaskSound(u: Hub, p: Path)
    requires Sound(u) && p in u.tasks
    ensures Sound(TaskDone(u, p))
  {
    assert Elems(u.unsent + [p]) == Elems(u.unsent) + {p};
    assert p !in Elems(u.unsent);
  }

  lemma ServeSound(u: Hub)
    requires Sound(u) && u.serving.Answering?
    ensures Sound(ServeDone(u))
  {}

  /** What asking for these paths did to the hub. */
  predicate AskedFor(u: Hub, v: Hub, paths: set<Path>)
  {
    && Sound(v) && v == u.(computing := v.computing, tasks := v.tasks, wire := v.wire)
    && v.tasks == u.tasks + (paths - Elems(u.sent) - Elems(u.unsent))
    && (u.first || paths !! Elems(u.sent) ==> v.wire == u.wire)
  }

  lemma AskedOne(u: Hub, v: Hub, ps: set<Path>, p: Path)
    requires Sound(u) && AskedFor(u, v, ps)
    ensures AskedFor(u, Asked(v, p), ps + {p})
  {
    hide Distinct;
    if p in u.sent { assert p in Elems(u.sent); }
  }

  lemma {:induction false} AskedSound(u: Hub, paths: seq<Path>)
    requires Sound(u)
    ensures AskedFor(u, AskedAll(u, paths), Elems(paths))
  {
    if paths == [] {
      assert Elems(paths) == {};
    } else {
      hide Sound, AskedFor, Asked;
      var rest, p := paths[..|paths| - 1], paths[|paths| - 1];
      assert paths == rest + [p] && Elems(paths) == Elems(rest) + {p};
      AskedSound(u, rest);
      AskedOne(u, AskedAll(u, rest), Elems(rest), p);
    }
  }

  lemma NeedSound(u: Hub, paths: seq<Path>, hashes: set<Chunk>)
    requires Sound(u)
    ensures Sound(NeedHandled(u, paths, hashes))
  {
    AskedSound(u, paths);
  }

  /** The manifests sent before, in the order asked for. */
  function Resent(sent: seq<Path>, paths: seq<Path>): seq<Message>
  {
    if paths == [] then [] else
      var p := paths[|paths| - 1];
      Resent(sent, paths[..|paths| - 1]) + if p in sent then [Man(p)] else []
  }

  /**
   What a request does: paths neither sent nor under way are computed, those sent before go
   out again unless this is the first request, and the chunks asked for come last in line.
   */
  predicate Takes(u: Hub, v: Hub, paths: seq<Path>, hashes: set<Chunk>)
  {
    && v.tasks == u.tasks + (Elems(paths) - Elems(u.sent) - Elems(u.unsent))
    && v.wire == u.wire + (if u.first then [] else Resent(u.sent, paths))
    && (if v.serving.Answering? then [v.serving.hashes] else []) + v.queued
       == (if u.serving.Answering? then [u.serving.hashes] else []) + u.queued + (if hashes == {} then [] else [hashes])
    && v.sent == u.sent && v.unsent == u.unsent && !v.first
  }

  lemma {:induction false} AskedResends(u: Hub, paths: seq<Path>)
    ensures var v := AskedAll(u, paths);
      v.wire == u.wire + (if u.first then [] else Resent(u.sent, paths)) && v.sent == u.sent && v.first == u.first
  {
    if paths != [] { AskedResends(u, paths[..|paths| - 1]); }
  }

  lemma NeedTakes(u: Hub, paths: seq<Path>, hashes: set<Chunk>)
    requires Sound(u)
    ensures Takes(u, NeedHandled(u, paths, hashes), paths, hashes)
  {
    AskedSound(u, paths);
    AskedResends(u, paths);
    hide AskedAll, Distinct, Resent;
    var v := AskedAll(u, paths).(first := false);
    assert v.queued == u.queued && v.serving == u.serving;
    if hashes != {} && u.serving.Idle? { assert (u.queued + [hashes])[1..] == []; }
  }

  // ---- every late manifest once ------------------------------------------------------------------

  /** The manifests on the wire. */
  function Mans(w: seq<Message>): seq<Path>
  {
    if w == [] then [] else Mans(w[..|w| - 1]) + if w[|w| - 1].Man? then [w[|w| - 1].path] else []
  }

  lemma MansAppend(w: seq<Message>, m: Message)
    ensures Mans(w + [m]) == Mans(w) + if m.Man? then [m.path] else []
  {
    assert (w + [m])[..|w|] == w;
  }

  /**
   What went on the wire is what was sent beyond the assignment's own manifests, in order,
   as long as nothing was asked for twice.
   */
  predicate OnWire(u: Hub, inline: seq<Path>) { u.sent == inline + Mans(u.wire) }

  lemma SentOnWire(u: Hub, inline: seq<Path>)
    requires OnWire(u, inline) && u.unsent != []
    ensures OnWire(SentNext(u), inline)
  {
    MansAppend(u.wire, Man(u.unsent[0]));
  }

  lemma ServeOnWire(u: Hub, inline: seq<Path>)
    requires OnWire(u, inline) && u.serving.Answering?
    ensures OnWire(ServeDone(u), inline)
  {
    var m := Chunks(u.serving.hashes);
    MansAppend(u.wire, m);
    MansAppend(u.wire + [m], Eof);
    assert u.wire + [m] + [Eof] == u.wire + [m, Eof];
  }

  lemma NeedOnWire(u: Hub, inline: seq<Path>, paths: seq<Path>, hashes: set<Chunk>)
    requires Sound(u) && OnWire(u, inline) && (u.first || Elems(paths) !! Elems(u.sent))
    ensures OnWire(NeedHandled(u, paths, hashes), inline)
  {
    AskedSound(u, paths);
  }

  /** No manifest is on the wire twice, and none that the assignment carried. */
  lemma WireOnce(u: Hub, inline: seq<Path>)
    requires Sound(u) && OnWire(u, inline)
    ensures Distinct(Mans(u.wire)) && Elems(Mans(u.wire)) !! Elems(inline)
  {
    var late := Mans(u.wire);
    assert forall i | 0 <= i < |inline| :: u.sent[i] == inline[i];
    forall i, j | 0 <= i < j < |late|
      ensures late[i] != late[j]
    {
      assert u.sent[|inline| + i] == late[i] && u.sent[|inline| + j] == late[j];
    }
    forall p | p in Elems(late)
      ensures p !in Elems(inline)
    {
      var j :| 0 <= j < |late| && late[j] == p;
      assert u.sent[|inline| + j] == p;
    }
  }

  // ---- it is the hub of the protocol ---------------------------------------------------------------

  function Backlog(u: Hub): seq<set<Chunk>> { (if u.serving.Answering? then [u.serving.hashes] else []) + u.queued }

  /** The protocol state this hub is in, channel contents aside. */
  predicate Matches(c: Config, s: State, u: Hub)
  {
    && u.offered == c.Paths() && s.sent == Elems(u.sent) && s.computing == u.tasks && s.outbox == Elems(u.unsent)
    && s.q == Backlog(u) && !s.hubErr
  }

  lemma SentRefines(c: Config, s: State, u: Hub)
    requires Matches(c, s, u) && Sound(u) && u.unsent != [] && |s.w| < c.capW
    ensures var e := HubFlush(u.unsent[0]);
      && Enabled(c, s, e) && Matches(c, Next(c, s, e), SentNext(u))
      && exists out :: SentNext(u).wire == u.wire + out && Next(c, s, e).w == s.w + out
  {
    var p, rest := u.unsent[0], u.unsent[1..];
    assert u.unsent == [p] + rest && Elems(u.unsent) == {p} + Elems(rest) && p !in rest;
    assert Elems(u.sent + [p]) == Elems(u.sent) + {p};
    assert SentNext(u).wire == u.wire + [Man(p)];
  }

  lemma TaskRefines(c: Config, s: State, u: Hub, p: Path)
    requires Matches(c, s, u) && Sound(u) && p in u.tasks
    ensures Enabled(c, s, HubTake(p)) && Matches(c, Next(c, s, HubTake(p)), TaskDone(u, p))
  {
    assert Elems(u.unsent + [p]) == Elems(u.unsent) + {p};
  }

  lemma ServeRefines(c: Config, s: State, u: Hub)
    requires Matches(c, s, u) && Sound(u) && u.serving.Answering? && |s.w| + 2 <= c.capW
    ensures Enabled(c, s, HubServe) && Matches(c, Next(c, s, HubServe), ServeDone(u))
    ensures exists out :: ServeDone(u).wire == u.wire + out && Next(c, s, HubServe).w == s.w + out
  {
    assert s.q[0] == u.serving.hashes && s.q[1..] == u.queued;
    assert u.queued != [] ==> [u.queued[0]] + u.queued[1..] == u.queued;
    assert ServeDone(u).wire == u.wire + [Chunks(s.q[0]), Eof];
  }

  /** A Need within the offer, for chunks of manifests sent. */
  lemma NeedRefines(c: Config, s: State, u: Hub, paths: seq<Path>)
    requires Matches(c, s, u) && Sound(u) && |s.h| > 0 && s.h[0].paths == Elems(paths) && !Bogus(c, s, s.h[0])
    requires u.first || Elems(paths) !! Elems(u.sent)
    ensures Enabled(c, s, HubRecv) && Matches(c, Next(c, s, HubRecv), NeedHandled(u, paths, s.h[0].hashes))
    ensures NeedHandled(u, paths, s.h[0].hashes).wire == u.wire && Next(c, s, HubRecv).w == s.w
  {
    AskedSound(u, paths);
    var hashes := s.h[0].hashes;
    var v := AskedAll(u, paths).(first := false);
    assert Backlog(v) == Backlog(u);
    if hashes != {} {
      if u.serving.Idle? {
        assert (u.queued + [hashes])[1..] == [] && Backlog(Requested(v, hashes)) == [hashes];
      } else {
        assert Backlog(Requested(v, hashes)) == Backlog(u) + [hashes];
      }
    }
  }

  // ---- whole runs -------------------------------------------------------------------------------

  /** A worker, the channels and this hub. The hub fields of `s` are not used. */
  datatype System = System(s: State, u: Hub)

  function Seen(x: System): State
  {
    x.s.(sent := Elems(x.u.sent), computing := x.u.tasks, outbox := Elems(x.u.unsent), q := Backlog(x.u),
      hubErr := false)
  }

  predicate Elsewhere(e: Event) { !(e.HubRecv? || e.HubServe? || e.HubTake? || e.HubFlush?) }

  /** What the relay's select picks, or anything that happens outside the hub. */
  datatype Move = Outside(event: Event) | Recv(paths: seq<Path>) | Take(path: Path) | Flush | Serve

  predicate Possible(c: Config, x: System, m: Move)
  {
    match m
    case Outside(e) => Elsewhere(e) && Enabled(c, Seen(x), e)
    case Recv(paths) => |x.s.h| > 0 && x.s.h[0].paths == Elems(paths)
    case Take(p) => p in x.u.tasks
    case Flush => x.u.unsent != [] && |x.s.w| < c.capW
    case Serve => x.u.serving.Answering? && |x.s.w| + 2 <= c.capW
  }

  function Sending(x: System, v: Hub): System
    requires |x.u.wire| <= |v.wire|
  {
    System(x.s.(w := x.s.w + v.wire[|x.u.wire|..]), v)
  }

  function Moved(c: Config, x: System, m: Move): System
    requires Possible(c, x, m)
  {
    match m
    case Outside(e) => System(Next(c, Seen(x), e), x.u)
    case Recv(paths) =>
      var v := NeedHandled(x.u, paths, x.s.h[0].hashes);
      AskedWire(x.u, paths);
      Sending(System(x.s.(h := x.s.h[1..]), x.u), v)
    case Take(p) => System(x.s, TaskDone(x.u, p))
    case Flush => Sending(x, SentNext(x.u))
    case Serve => Sending(x, ServeDone(x.u))
  }

  lemma {:induction false} AskedWire(u: Hub, paths: seq<Path>)
    ensures |u.wire| <= |AskedAll(u, paths).wire|
  {
    if paths != [] { AskedWire(u, paths[..|paths| - 1]); }
  }

  /** Only the first Need names paths. */
  predicate FirstOnly(s: State, u: Hub)
  {
    && (forall i | 0 < i < |s.h| :: s.h[i].paths == {})
    && (|s.h| > 0 && s.h[0].paths != {} ==> u.first)
    && (s.phase == Init ==> u.first)
  }

  ghost predicate Good(c: Config, x: System, inline: seq<Path>)
  {
    Inv(c, Seen(x)) && Sound(x.u) && OnWire(x.u, inline) && FirstOnly(x.s, x.u) && x.u.offered == c.Paths()
  }

  lemma NotBogus(c: Config, s: State)
    requires Inv(c, s) && |s.h| > 0
    ensures !Bogus(c, s, s.h[0]) && s.phase != Init
  {
    assert s.h[0] in s.h;
  }

  /** The hub's part is untouched, and at most one Need is added. */
  predicate Apart(s: State, t: State)
  {
    && t.sent == s.sent && t.computing == s.computing && t.outbox == s.outbox && t.q == s.q && t.hubErr == s.hubErr
    && s.h <= t.h && |t.h| <= |s.h| + 1 && t.phase != Init
    && (|t.h| > |s.h| ==> t.h[|s.h|].paths == {} || s.phase == Init)
  }

  lemma SettleApart(c: Config, s: State, hd: Handling)
    requires hd.needPaths == {} || s.phase == Init
    ensures Apart(s, Settle(c, s, hd))
  {
    hide Complete, Retry, Hashes, Bumps;
  }

  lemma MessagePaths(c: Config, s: State, m: Message)
    ensures OnMessage(c, s, m).needPaths == {}
  {}

  lemma OutsideApart(c: Config, s: State, e: Event)
    requires Elsewhere(e) && Enabled(c, s, e)
    ensures var t := Next(c, s, e); Apart(s, t) || (t == s.(w := t.w, store := t.store))
  {
    hide Settle, OnMessage, OnAssignment, Sends, Apart;
    if e.Negotiate? {
      SettleApart(c, s, OnAssignment(c, s));
    } else if e.WorkerRecv? {
      MessagePaths(c, s, s.w[0]);
      SettleApart(c, s.(w := s.w[1..]), OnMessage(c, s, s.w[0]));
      ApartWire(s, s.w[1..], Next(c, s, e));
    }
  }

  lemma ApartWire(s: State, w: seq<Message>, t: State)
    requires Apart(s.(w := w), t)
    ensures Apart(s, t)
  {}

  lemma ApartFirst(s: State, t: State, u: Hub)
    requires FirstOnly(s, u) && Apart(s, t) && (s.phase == Init ==> s.h == [])
    ensures FirstOnly(t, u)
  {}

  lemma InitEmpty(c: Config, s: State)
    requires Inv(c, s)
    ensures s.phase == Init ==> s.h == []
  {}

  lemma OutsideMove(c: Config, x: System, e: Event)
    requires FirstOnly(x.s, x.u) && Elsewhere(e) && Enabled(c, Seen(x), e) && Inv(c, Seen(x))
    ensures FirstOnly(Next(c, Seen(x), e), x.u) && Seen(System(Next(c, Seen(x), e), x.u)) == Next(c, Seen(x), e)
  {
    InitEmpty(c, Seen(x));
    OutsideApart(c, Seen(x), e);
    hide Next, Inv, Enabled;
    if Apart(Seen(x), Next(c, Seen(x), e)) { ApartFirst(Seen(x), Next(c, Seen(x), e), x.u); }
  }

  lemma RecvMove(c: Config, x: System, paths: seq<Path>, inline: seq<Path>)
    requires Good(c, x, inline) && Possible(c, x, Recv(paths))
    ensures Enabled(c, Seen(x), HubRecv) && Seen(Moved(c, x, Recv(paths))) == Next(c, Seen(x), HubRecv)
    ensures var y := Moved(c, x, Recv(paths));
      Sound(y.u) && OnWire(y.u, inline) && FirstOnly(y.s, y.u) && y.u.offered == c.Paths()
  {
    hide Inv, Bogus;
    NotBogus(c, Seen(x));
    NeedRefines(c, Seen(x), x.u, paths);
    NeedSound(x.u, paths, x.s.h[0].hashes);
    NeedOnWire(x.u, inline, paths, x.s.h[0].hashes);
    AskedSound(x.u, paths);
    assert x.u.wire[|x.u.wire|..] == [] && x.s.w + [] == x.s.w;
  }

  lemma FlushMove(c: Config, x: System, inline: seq<Path>)
    requires Good(c, x, inline) && Possible(c, x, Flush)
    ensures Enabled(c, Seen(x), HubFlush(x.u.unsent[0]))
    ensures Seen(Moved(c, x, Flush)) == Next(c, Seen(x), HubFlush(x.u.unsent[0]))
    ensures var y := Moved(c, x, Flush);
      Sound(y.u) && OnWire(y.u, inline) && FirstOnly(y.s, y.u) && y.u.offered == c.Paths()
  {
    hide Inv;
    SentRefines(c, Seen(x), x.u);
    SentSound(x.u);
    SentOnWire(x.u, inline);
    assert SentNext(x.u).wire[|x.u.wire|..] == [Man(x.u.unsent[0])];
  }

  lemma ServeMove(c: Config, x: System, inline: seq<Path>)
    requires Good(c, x, inline) && Possible(c, x, Serve)
    ensures Enabled(c, Seen(x), HubServe) && Seen(Moved(c, x, Serve)) == Next(c, Seen(x), HubServe)
    ensures var y := Moved(c, x, Serve);
      Sound(y.u) && OnWire(y.u, inline) && FirstOnly(y.s, y.u) && y.u.offered == c.Paths()
  {
    hide Inv;
    ServeRefines(c, Seen(x), x.u);
    ServeSound(x.u);
    ServeOnWire(x.u, inline);
    assert ServeDone(x.u).wire[|x.u.wire|..] == [Chunks(x.u.serving.hashes), Eof];
  }

  /** The protocol's name for a move. */
  function EventOf(x: System, m: Move): Event
    requires m.Flush? ==> x.u.unsent != []
  {
    match m
    case Outside(e) => e
    case Recv(_) => HubRecv
    case Take(p) => HubTake(p)
    case Flush => HubFlush(x.u.unsent[0])
    case Serve => HubServe
  }

  /** Every move of the relay is a step of the protocol. */
  lemma MoveRefines(c: Config, x: System, m: Move, inline: seq<Path>)
    requires c.Valid() && Good(c, x, inline) && Possible(c, x, m)
    ensures Enabled(c, Seen(x), EventOf(x, m)) && Seen(Moved(c, x, m)) == Next(c, Seen(x), EventOf(x, m))
    ensures Step(c, Seen(x), Seen(Moved(c, x, m))) && Good(c, Moved(c, x, m), inline)
  {
    hide Inv, Sound, OnWire, FirstOnly, NeedHandled, Next;
    var e := EventOf(x, m);
    match m {
      case Outside(_) => OutsideMove(c, x, e);
      case Recv(paths) => RecvMove(c, x, paths, inline);
      case Take(p) => TakeMove(c, x, p, inline);
      case Flush => FlushMove(c, x, inline);
      case Serve => ServeMove(c, x, inline);
    }
    assert Seen(Moved(c, x, m)) == Next(c, Seen(x), e);
    InvStep(c, Seen(x), e);
  }

  lemma TakeMove(c: Config, x: System, p: Path, inline: seq<Path>)
    requires Good(c, x, inline) && Possible(c, x, Take(p))
    ensures Enabled(c, Seen(x), HubTake(p)) && Seen(Moved(c, x, Take(p))) == Next(c, Seen(x), HubTake(p))
    ensures var y := Moved(c, x, Take(p));
      Sound(y.u) && OnWire(y.u, inline) && FirstOnly(y.s, y.u) && y.u.offered == c.Paths()
  {
    hide Inv;
    TaskRefines(c, Seen(x), x.u, p);
    TaskSound(x.u, p);
  }

  predicate MovesTo(c: Config, x: System, m: Move, y: System) { Possible(c, x, m) && y == Moved(c, x, m) }

  ghost predicate Leads(c: Config, x: System, y: System) { exists m: Move :: MovesTo(c, x, m, y) }

  /** A run of the whole system. */
  ghost predicate SystemRun(c: Config, run: seq<System>)
  {
    && |run| > 0 && Begins(c, run[0])
    && forall i | 0 < i < |run| :: Leads(c, run[i - 1], run[i])
  }

  /** The assignment is out with the manifests at hand. */
  predicate Begins(c: Config, x: System)
  {
    && Start(c, Seen(x)) && Distinct(x.u.sent) && x.u.first && x.u.wire == [] && x.u.offered == c.Paths()
    && x.u.unsent == [] && x.u.tasks == {} && x.u.computing == {} && x.u.serving.Idle? && x.u.queued == []
  }

  lemma BeginsGood(c: Config, x: System)
    requires Begins(c, x)
    ensures Good(c, x, x.u.sent)
  {
    assert Elems(x.u.unsent) == {};
  }

  lemma {:induction false} RunGood(c: Config, run: seq<System>, i: nat)
    requires c.Valid() && SystemRun(c, run) && i < |run|
    ensures Good(c, run[i], run[0].u.sent) && (i > 0 ==> Step(c, Seen(run[i - 1]), Seen(run[i])))
  {
    hide Good, Begins, Possible, Moved;
    if i == 0 {
      BeginsGood(c, run[0]);
    } else {
      RunGood(c, run, i - 1);
      assert Leads(c, run[i - 1], run[i]);
      var m: Move :| MovesTo(c, run[i - 1], m, run[i]);
      MoveRefines(c, run[i - 1], m, run[0].u.sent);
    }
  }

  function SeenAll(run: seq<System>): seq<State> { seq(|run|, i requires 0 <= i < |run| => Seen(run[i])) }

  /** A run with this hub is a run of the protocol. */
  lemma RunRefines(c: Config, run: seq<System>)
    requires c.Valid() && SystemRun(c, run)
    ensures IsRun(c, SeenAll(run))
  {
    hide Seen, Step, Good;
    forall i | 0 < i < |run|
      ensures Step(c, SeenAll(run)[i - 1], SeenAll(run)[i])
    {
      RunGood(c, run, i);
    }
  }

  /** A branch of the relay or a step of the worker, eviction and other builds aside. */
  predicate Own(m: Move) { m.Outside? ==> !Foreign(m.event) && !m.event.Evict? }

  ghost predicate GoesOn(c: Config, x: System) { exists m: Move :: Own(m) && Possible(c, x, m) }

  lemma {:induction false} Spelled(ps: set<Path>) returns (paths: seq<Path>)
    ensures Elems(paths) == ps
  {
    if ps == {} {
      paths := [];
    } else {
      var p :| p in ps;
      var rest := Spelled(ps - {p});
      paths := rest + [p];
      assert Elems(paths) == Elems(rest) + {p};
    }
  }

  /** Whatever the protocol's hub could do, some branch of this one can. */
  lemma MoveExists(c: Config, x: System, e: Event)
    requires Sound(x.u) && !Foreign(e) && !e.Evict? && Enabled(c, Seen(x), e)
    ensures GoesOn(c, x)
  {
    if Elsewhere(e) {
      assert Own(Outside(e)) && Possible(c, x, Outside(e));
    } else if e.HubRecv? {
      var paths := Spelled(x.s.h[0].paths);
      assert Own(Recv(paths)) && Possible(c, x, Recv(paths));
    } else if e.HubTake? {
      assert Own(Take(e.path)) && Possible(c, x, Take(e.path));
    } else if e.HubFlush? {
      assert Own(Flush) && Possible(c, x, Flush);
    } else {
      assert Own(Serve) && Possible(c, x, Serve);
    }
  }

  /**
   All the protocol promises, with the hub as it is: no protocol error, Ready means staged,
   someone can always move, and every late manifest is on the wire once, in the step that
   makes it sent.
   */
  lemma StagingSafe(c: Config, run: seq<System>, i: nat)
    requires c.Valid() && SystemRun(c, run) && i < |run|
    ensures var s := Seen(run[i]); NoProtocolError(s) && ReadyMeansStaged(c, s) && (!Decided(s) ==> GoesOn(c, run[i]))
    ensures run[i].u.sent == run[0].u.sent + Mans(run[i].u.wire) && Distinct(Mans(run[i].u.wire))
    ensures run[i].u.computing == run[i].u.tasks + Elems(run[i].u.unsent) && run[i].u.computing !! Elems(run[i].u.sent)
  {
    hide Seen, Inv, IsRun, GoesOn, Enabled;
    RunRefines(c, run);
    assert SeenAll(run)[i] == Seen(run[i]);
    Safety(c, SeenAll(run), Seen(run[i]));
    RunGood(c, run, i);
    if !Decided(Seen(run[i])) {
      var e :| !Foreign(e) && !e.Evict? && Enabled(c, Seen(run[i]), e);
      MoveExists(c, run[i], e);
    }
    WireOnce(run[i].u, run[0].u.sent);
  }

  // ---- the object ---------------------------------------------------------------------------------

  class Staging {
    const offered: set<Path>
    var sent: seq<Path>
    var unsent: seq<Path>
    var computing: set<Path>
    var tasks: set<Path>
    var queued: seq<set<Chunk>>
    var serving: Serving
    var firstNeed: bool
    var wire: seq<Message>

    ghost function View(): Hub
      reads this
    {
      Hub(offered, sent, unsent, computing, tasks, queued, serving, firstNeed, wire)
    }

    /** The paths whose recipe is at hand are sent with the assignment. */
    constructor (offered: set<Path>, inline: seq<Path>)
      requires Distinct(inline)
      ensures this.offered == offered && Sound(View()) && OnWire(View(), inline) && View().sent == inline
    {
      this.offered, sent, unsent, computing, tasks, queued := offered, inline, [], {}, {}, [];
      serving, firstNeed, wire := Idle, true, [];
    }

    method StartNext()
      modifies this
      ensures View() == ServeNext(old(View()))
    {
      if queued == [] {
        serving := Idle;
        return;
      }
      serving, queued := Answering(queued[0]), queued[1..];
    }

    /** progress, first branch: there is room on the wire. */
    method SendManifest()
      requires Sound(View()) && unsent != []
      modifies this
      ensures Sound(View()) && View() == SentNext(old(View()))
    {
      SentSound(View());
      var p := unsent[0];
      unsent := unsent[1..];
      computing := computing - {p};
      sent := sent + [p];
      wire := wire + [Man(p)];
    }

    /** progress, second branch: a recipe is computed. */
    method Computed(p: Path)
      requires Sound(View()) && p in tasks
      modifies this
      ensures Sound(View()) && View() == TaskDone(old(View()), p)
    {
      TaskSound(View(), p);
      tasks := tasks - {p};
      unsent := unsent + [p];
    }

    /** progress, third branch: a request is answered. */
    method Answered()
      requires Sound(View()) && serving.Answering?
      modifies this
      ensures Sound(View()) && View() == ServeDone(old(View()))
      ensures wire == old(wire) + [Chunks(old(serving).hashes), Eof]
      ensures serving == if old(queued) == [] then Idle else Answering(old(queued)[0])
      ensures queued == if old(queued) == [] then [] else old(queued)[1..]
    {
      ServeSound(View());
      wire := wire + [Chunks(serving.hashes), Eof];
      StartNext();
    }

    method HandleNeed(paths: seq<Path>, hashes: set<Chunk>) returns (ok: bool)
      requires Sound(View())
      modifies this
      ensures ok == (Elems(paths) <= offered) && Sound(View())
      ensures View() == if ok then NeedHandled(old(View()), paths, hashes) else old(View())
      ensures ok ==> Takes(old(View()), View(), paths, hashes)
    {
      ghost var u := View();
      NeedTakes(u, paths, hashes);
      ok := forall p <- paths :: p in offered;
      if !ok { return; }
      NeedSound(u, paths, hashes);
      var isFirst := firstNeed;
      for i := 0 to |paths|
        invariant View() == AskedAll(u, paths[..i]) && firstNeed == isFirst
      {
        var p := paths[i];
        assert paths[..i + 1][..i] == paths[..i];
        if p in sent {
          if !isFirst { wire := wire + [Man(p)]; }
        } else if p !in computing {
          computing, tasks := computing + {p}, tasks + {p};
        }
      }
      assert paths[..|paths|] == paths;
      firstNeed := false;
      if hashes == {} { return; }
      queued := queued + [hashes];
      if serving.Idle? { StartNext(); }
    }
  }
}

/**
 The client's end of a build: events unpack outputs as they arrive. A build may be attempted
 several times, each new attempt starting every output over.
 */
module Attach {
  import opened Bytes
  import opened StorePath

  type Frame = Bytes

  datatype Event =
    | Log
    | Output(path: Path, frame: Frame, eof: bool)
    | AddedPath(path: Path)
    | Dispatched
    | OutputRestart(path: Path)
    | ExitCode(code: int)
    | Error

  /** `open` are the outputs being unpacked, `unpacked` those complete on disk. */
  datatype State = State(open: map<Path, seq<Frame>>, unpacked: map<Path, seq<Frame>>, added: set<Path>)

  datatype Outcome = Going(state: State) | Done(code: int, state: State) | Failed | Retry

  // ---- one event ------------------------------------------------------------------------------

  /** The first frame of an output replaces whatever an earlier attempt left. */
  function OnOutput(s: State, p: Path, frame: Frame, eof: bool): State
  {
    var got := (if p in s.open then s.open[p] else []) + if frame == [] then [] else [frame];
    if eof then s.(open := s.open - {p}, unpacked := s.unpacked[p := got])
    else s.(open := s.open[p := got], unpacked := s.unpacked - {p})
  }

  function OnEvent(expected: set<Path>, s: State, e: Event): Outcome
  {
    match e
    case Log => Going(s)
    case Output(p, frame, eof) => if p in expected then Going(OnOutput(s, p, frame, eof)) else Failed
    case AddedPath(p) => Going(s.(added := s.added + {p}))
    case Dispatched => Going(s)
    case OutputRestart(p) => Going(s.(open := s.open - {p}))
    case ExitCode(code) => if s.open == map[] then Done(code, s) else Failed
    case Error => Failed
  }

  /** A stream that ends without a verdict is submitted again. */
  function Fold(expected: set<Path>, s: State, es: seq<Event>): Outcome
    decreases |es|
  {
    if es == [] then Going(s) else
      var o := OnEvent(expected, s, es[0]);
      if o.Going? then Fold(expected, o.state, es[1..]) else o
  }

  lemma {:induction false} FoldApart(expected: set<Path>, s: State, a: seq<Event>, b: seq<Event>)
    ensures var o := Fold(expected, s, a);
      Fold(expected, s, a + b) == if o.Going? then Fold(expected, o.state, b) else o
    decreases |a|
  {
    if a == [] {
      assert a + b == b;
    } else {
      assert (a + b)[1..] == a[1..] + b;
      var o := OnEvent(expected, s, a[0]);
      if o.Going? { FoldApart(expected, o.state, a[1..], b); }
    }
  }

  method AttemptBuild(expected: set<Path>, stream: seq<Event>, start: State) returns (o: Outcome)
    ensures var f := Fold(expected, start, stream); o == if f.Going? then Retry else f
  {
    var s := start;
    var i := 0;
    assert stream[0..] == stream;
    while i < |stream|
      invariant i <= |stream| && Fold(expected, s, stream[i..]) == Fold(expected, start, stream)
    {
      assert stream[i..][1..] == stream[i + 1..];
      o := OnEvent(expected, s, stream[i]);
      if !o.Going? {
        return;
      }
      s := o.state;
      i := i + 1;
    }
    o := Retry;
  }

  // ---- attempts ---------------------------------------------------------------------------------

  /** What a worker attempt may publish: no verdict, no restart, no output that was not asked for. */
  predicate Streaming(expected: set<Path>, es: seq<Event>)
  {
    forall e <- es :: (e.Output? ==> e.path in expected) && !e.OutputRestart? && !e.ExitCode? && !e.Error?
  }

  function Restarts(paths: seq<Path>): seq<Event>
  {
    seq(|paths|, i requires 0 <= i < |paths| => OutputRestart(paths[i]))
  }

  lemma {:induction false} StreamingOpen(expected: set<Path>, s: State, es: seq<Event>)
    requires Streaming(expected, es) && s.open.Keys <= expected
    ensures Fold(expected, s, es).Going? && Fold(expected, s, es).state.open.Keys <= expected
    decreases |es|
  {
    if es != [] {
      assert es[0] in es;
      var o := OnEvent(expected, s, es[0]);
      StreamingOpen(expected, o.state, es[1..]);
    }
  }

  lemma {:induction false} RestartsClose(expected: set<Path>, s: State, paths: seq<Path>)
    ensures var o := Fold(expected, s, Restarts(paths));
      o.Going? && o.state.open.Keys == s.open.Keys - (set p | p in paths)
    decreases |paths|
  {
    if paths != [] {
      var t := s.(open := s.open - {paths[0]});
      assert Restarts(paths)[1..] == Restarts(paths[1..]);
      RestartsClose(expected, t, paths[1..]);
      assert paths == [paths[0]] + paths[1..];
    }
  }

  /** An aborted attempt, however far it got, and the requeue after it. */
  lemma AbortedCloses(expected: set<Path>, s: State, es: seq<Event>, paths: seq<Path>)
    requires Streaming(expected, es) && s.open.Keys <= expected && (set p | p in paths) == expected
    ensures var o := Fold(expected, s, es + Restarts(paths)); o.Going? && o.state.open == map[]
  {
    StreamingOpen(expected, s, es);
    FoldApart(expected, s, es, Restarts(paths));
    RestartsClose(expected, Fold(expected, s, es).state, paths);
  }

  // ---- the last attempt ---------------------------------------------------------------------------

  /** The output events of one path. */
  function Of(es: seq<Event>, p: Path): seq<Event>
  {
    if es == [] then [] else (if es[0].Output? && es[0].path == p then [es[0]] else []) + Of(es[1..], p)
  }

  /** An output as a delivery publishes it: its frames, then an end marker. */
  function Whole(p: Path, frames: seq<Frame>): seq<Event>
  {
    seq(|frames|, i requires 0 <= i < |frames| => Output(p, frames[i], false)) + [Output(p, [], true)]
  }

  /** One path sees its own output events only. */
  predicate Same(p: Path, s: State, t: State)
  {
    && (p in s.open <==> p in t.open) && (p in s.open ==> s.open[p] == t.open[p])
    && (p in s.unpacked <==> p in t.unpacked) && (p in s.unpacked ==> s.unpacked[p] == t.unpacked[p])
  }

  lemma {:induction false} OwnEvents(expected: set<Path>, s: State, t: State, es: seq<Event>, p: Path)
    requires Streaming(expected, es) && p in expected && Same(p, s, t)
    ensures var a, b := Fold(expected, s, es), Fold(expected, t, Of(es, p));
      a.Going? && b.Going? && Same(p, a.state, b.state)
    decreases |es|
  {
    if es != [] {
      assert es[0] in es;
      var a := OnEvent(expected, s, es[0]).state;
      if es[0].Output? && es[0].path == p {
        assert Of(es, p)[1..] == Of(es[1..], p);
        OwnEvents(expected, a, OnEvent(expected, t, es[0]).state, es[1..], p);
      } else {
        assert Of(es, p) == Of(es[1..], p);
        OwnEvents(expected, a, t, es[1..], p);
      }
    }
  }

  lemma {:induction false} WholeUnpacks(expected: set<Path>, s: State, p: Path, frames: seq<Frame>, got: seq<Frame>)
    requires p in expected && (forall f <- frames :: f != []) && got == (if p in s.open then s.open[p] else [])
    ensures var o := Fold(expected, s, Whole(p, frames));
      o.Going? && p !in o.state.open && p in o.state.unpacked && o.state.unpacked[p] == got + frames
    decreases |frames|
  {
    if frames == [] {
      assert Whole(p, frames) == [Output(p, [], true)] && [Output(p, [], true)][1..] == [];
    } else {
      assert frames[0] in frames && forall f <- frames[1..] :: f in frames;
      assert Whole(p, frames)[0] == Output(p, frames[0], false) && Whole(p, frames)[1..] == Whole(p, frames[1..]);
      WholeUnpacks(expected, OnOutput(s, p, frames[0], false), p, frames[1..], got + [frames[0]]);
      assert got + [frames[0]] + frames[1..] == got + frames;
    }
  }

  /** Every output whole, in whatever order and with whatever in between. */
  predicate Complete(expected: set<Path>, es: seq<Event>, outputs: map<Path, seq<Frame>>)
  {
    && Streaming(expected, es) && outputs.Keys == expected
    && forall p <- expected :: Of(es, p) == Whole(p, outputs[p]) && forall f <- outputs[p] :: f != []
  }

  lemma CompleteUnpacks(expected: set<Path>, s: State, es: seq<Event>, outputs: map<Path, seq<Frame>>, p: Path)
    requires Complete(expected, es, outputs) && p in expected && s.open == map[]
    ensures var o := Fold(expected, s, es);
      o.Going? && p !in o.state.open && p in o.state.unpacked && o.state.unpacked[p] == outputs[p]
  {
    OwnEvents(expected, s, s, es, p);
    WholeUnpacks(expected, s, p, outputs[p], []);
  }

  // ---- any number of attempts -----------------------------------------------------------------------

  /** The events of aborted attempts, each cut short anywhere and followed by its restarts. */
  function Aborted(attempts: seq<seq<Event>>, paths: seq<Path>): seq<Event>
  {
    if attempts == [] then [] else attempts[0] + Restarts(paths) + Aborted(attempts[1..], paths)
  }

  lemma {:induction false} AllClose(expected: set<Path>, s: State, attempts: seq<seq<Event>>, paths: seq<Path>)
    requires (forall es <- attempts :: Streaming(expected, es)) && (set p | p in paths) == expected && s.open == map[]
    ensures var o := Fold(expected, s, Aborted(attempts, paths)); o.Going? && o.state.open == map[]
    decreases |attempts|
  {
    if attempts != [] {
      assert attempts[0] in attempts;
      var first := attempts[0] + Restarts(paths);
      AbortedCloses(expected, s, attempts[0], paths);
      FoldApart(expected, s, first, Aborted(attempts[1..], paths));
      AllClose(expected, Fold(expected, s, first).state, attempts[1..], paths);
    }
  }

  /**
   Any number of aborted attempts and then a complete one: the exit code is taken, no output
   is left half unpacked, and each is what the last attempt delivered.
   */
  lemma LastAttemptWins(expected: set<Path>, attempts: seq<seq<Event>>, paths: seq<Path>, last: seq<Event>,
        outputs: map<Path, seq<Frame>>, code: int)
    requires (forall es <- attempts :: Streaming(expected, es)) && (set p | p in paths) == expected
    requires Complete(expected, last, outputs)
    ensures var o := Fold(expected, State(map[], map[], {}), Aborted(attempts, paths) + last + [ExitCode(code)]);
      && o.Done? && o.code == code && o.state.open == map[]
      && forall p <- expected :: p in o.state.unpacked && o.state.unpacked[p] == outputs[p]
  {
    hide Complete;
    var s, before := State(map[], map[], {}), Aborted(attempts, paths);
    AllClose(expected, s, attempts, paths);
    var t := Fold(expected, s, before).state;
    FoldApart(expected, s, before, last);
    FoldApart(expected, s, before + last, [ExitCode(code)]);
    CompleteStreams(expected, last, outputs);
    StreamingOpen(expected, t, last);
    var u := Fold(expected, t, last).state;
    forall p | p in expected
      ensures p !in u.open && p in u.unpacked && u.unpacked[p] == outputs[p]
    {
      CompleteUnpacks(expected, t, last, outputs, p);
    }
    assert u.open.Keys == {};
    assert u.open == map[];
    assert Fold(expected, u, [ExitCode(code)]) == Done(code, u);
  }

  lemma CompleteStreams(expected: set<Path>, es: seq<Event>, outputs: map<Path, seq<Frame>>)
    requires Complete(expected, es, outputs)
    ensures Streaming(expected, es) && outputs.Keys == expected
  {}

  // ---- any stream ---------------------------------------------------------------------------------

  predicate Begins(e: Event, p: Path) { e.Output? && e.path == p && !e.eof }

  predicate Completes(e: Event, p: Path) { e.Output? && e.path == p && e.eof }

  /** A transfer of the path began and neither ended nor was restarted. */
  predicate OpenAfter(es: seq<Event>, p: Path)
  {
    exists i | 0 <= i < |es| :: Begins(es[i], p) && StillOpen(es, i, p)
  }

  predicate StillOpen(es: seq<Event>, i: nat, p: Path)
  {
    forall j | i < j < |es| :: !Completes(es[j], p) && es[j] != OutputRestart(p)
  }

  /** A transfer of the path ended and none began since. */
  predicate WholeAfter(es: seq<Event>, p: Path)
  {
    exists i | 0 <= i < |es| :: Completes(es[i], p) && KeptSince(es, i, p)
  }

  predicate KeptSince(es: seq<Event>, i: nat, p: Path) { forall j | i < j < |es| :: !Begins(es[j], p) }

  /** No verdict, and no output that was not asked for. */
  predicate Undecided(expected: set<Path>, es: seq<Event>)
  {
    forall e <- es :: !e.ExitCode? && !e.Error? && (e.Output? ==> e.path in expected)
  }

  lemma OpenOn(es: seq<Event>, e: Event, p: Path)
    ensures OpenAfter(es + [e], p) <==>
      Begins(e, p) || (OpenAfter(es, p) && !Completes(e, p) && e != OutputRestart(p))
  {
    var all := es + [e];
    assert all[|es|] == e && forall i | 0 <= i < |es| :: all[i] == es[i];
    if Begins(e, p) { assert StillOpen(all, |es|, p); }
    if OpenAfter(es, p) && !Completes(e, p) && e != OutputRestart(p) {
      var i :| 0 <= i < |es| && Begins(es[i], p) && StillOpen(es, i, p);
      assert Begins(all[i], p) && StillOpen(all, i, p);
    }
    if OpenAfter(all, p) && !Begins(e, p) {
      var i :| 0 <= i < |all| && Begins(all[i], p) && StillOpen(all, i, p);
      assert i < |es| && Begins(es[i], p);
      assert StillOpen(es, i, p);
    }
  }

  lemma WholeOn(es: seq<Event>, e: Event, p: Path)
    ensures WholeAfter(es + [e], p) <==> Completes(e, p) || (WholeAfter(es, p) && !Begins(e, p))
  {
    var all := es + [e];
    assert all[|es|] == e && forall i | 0 <= i < |es| :: all[i] == es[i];
    if Completes(e, p) { assert KeptSince(all, |es|, p); }
    if WholeAfter(es, p) && !Begins(e, p) {
      var i :| 0 <= i < |es| && Completes(es[i], p) && KeptSince(es, i, p);
      assert Completes(all[i], p) && KeptSince(all, i, p);
    }
    if WholeAfter(all, p) && !Completes(e, p) {
      var i :| 0 <= i < |all| && Completes(all[i], p) && KeptSince(all, i, p);
      assert i < |es| && Completes(es[i], p) && KeptSince(es, i, p);
    }
  }

  const FRESH: State := State(map[], map[], {})

  /** What the client has after these events. */
  ghost predicate Stands(expected: set<Path>, es: seq<Event>, s: State)
  {
    && s.open.Keys <= expected && s.unpacked.Keys <= expected
    && s.added == (set e | e in es && e.AddedPath? :: e.path)
    && forall p: Path :: (p in s.open <==> OpenAfter(es, p)) && (p in s.unpacked <==> WholeAfter(es, p))
  }

  lemma StandsOn(expected: set<Path>, es: seq<Event>, s: State, e: Event)
    requires Stands(expected, es, s) && !e.ExitCode? && !e.Error? && (e.Output? ==> e.path in expected)
    ensures OnEvent(expected, s, e).Going? && Stands(expected, es + [e], OnEvent(expected, s, e).state)
  {
    hide OpenAfter, WholeAfter;
    var t := OnEvent(expected, s, e).state;
    forall p: Path
      ensures (p in t.open <==> OpenAfter(es + [e], p)) && (p in t.unpacked <==> WholeAfter(es + [e], p))
    {
      OpenOn(es, e, p);
      WholeOn(es, e, p);
    }
    assert forall x <- es + [e] :: x in es || x == e;
    assert forall x <- es :: x in es + [e];
    assert e in es + [e];
  }

  /**
   A stream goes on exactly as long as it has no verdict and only expected outputs. The client
   then has open what was begun and not ended, unpacked what was ended and not begun again,
   and added what was announced.
   */
  lemma {:induction false} GoesOnIff(expected: set<Path>, es: seq<Event>)
    ensures Fold(expected, FRESH, es).Going? <==> Undecided(expected, es)
    ensures var o := Fold(expected, FRESH, es); o.Going? ==> Stands(expected, es, o.state)
    decreases |es|
  {
    hide Stands, OpenAfter, WholeAfter;
    if es == [] {
      StandsFresh(expected);
    } else {
      var rest, e := es[..|es| - 1], es[|es| - 1];
      assert es == rest + [e] && e in es && forall x <- rest :: x in es;
      GoesOnIff(expected, rest);
      FoldApart(expected, FRESH, rest, [e]);
      var o := Fold(expected, FRESH, rest);
      if o.Going? {
        assert [e][1..] == [];
        if !e.ExitCode? && !e.Error? && (e.Output? ==> e.path in expected) { StandsOn(expected, rest, o.state, e); }
      }
    }
  }

  lemma StandsFresh(expected: set<Path>)
    ensures Stands(expected, [], FRESH)
  {}

  /**
   A build is done with a code exactly if that is the first verdict, nothing unexpected came
   before it and every transfer begun was ended or restarted.
   */
  lemma DoneIff(expected: set<Path>, es: seq<Event>, code: int)
    ensures (Fold(expected, FRESH, es).Done? && Fold(expected, FRESH, es).code == code) <==>
      exists k | 0 <= k < |es| :: EndsAt(expected, es, k, code)
    ensures var o := Fold(expected, FRESH, es); o.Done? ==>
      o.state.open == map[] && exists k | 0 <= k < |es| :: Stands(expected, es[..k], o.state)
  {
    hide Stands, OpenAfter, WholeAfter, Undecided;
    forall k | 0 <= k < |es| && EndsAt(expected, es, k, code)
      ensures Fold(expected, FRESH, es).Done? && Fold(expected, FRESH, es).code == code
    {
      EndsThere(expected, es, k, code);
    }
    if Fold(expected, FRESH, es).Done? {
      var k := FirstVerdict(expected, es);
    }
  }

  predicate EndsAt(expected: set<Path>, es: seq<Event>, k: nat, code: int)
    requires k < |es|
  {
    Undecided(expected, es[..k]) && es[k] == ExitCode(code) && forall p <- expected :: !OpenAfter(es[..k], p)
  }

  lemma EndsThere(expected: set<Path>, es: seq<Event>, k: nat, code: int)
    requires k < |es| && EndsAt(expected, es, k, code)
    ensures var o := Fold(expected, FRESH, es); o.Done? && o.code == code
  {
    hide OpenAfter, WholeAfter, Undecided;
    GoesOnIff(expected, es[..k]);
    assert es == es[..k] + es[k..] && es[k..][0] == es[k];
    FoldApart(expected, FRESH, es[..k], es[k..]);
    var s := Fold(expected, FRESH, es[..k]).state;
    assert s.open.Keys == {};
    assert s.open == map[];
  }

  lemma {:induction false} FirstVerdict(expected: set<Path>, es: seq<Event>) returns (k: nat)
    requires Fold(expected, FRESH, es).Done?
    ensures k < |es| && EndsAt(expected, es, k, Fold(expected, FRESH, es).code)
    ensures Fold(expected, FRESH, es).state.open == map[] && Stands(expected, es[..k], Fold(expected, FRESH, es).state)
    decreases |es|
  {
    hide Stands, OpenAfter, WholeAfter, Undecided;
    var rest, e := es[..|es| - 1], es[|es| - 1];
    assert es == rest + [e] && [e][1..] == [];
    FoldApart(expected, FRESH, rest, [e]);
    var o := Fold(expected, FRESH, rest);
    if o.Going? {
      k := |rest|;
      GoesOnIff(expected, rest);
      NothingOpen(expected, rest, o.state);
    } else {
      k := FirstVerdict(expected, rest);
      assert rest[..k] == es[..k];
    }
  }

  lemma NothingOpen(expected: set<Path>, es: seq<Event>, s: State)
    requires Stands(expected, es, s) && s.open == map[]
    ensures forall p <- expected :: !OpenAfter(es, p)
  {}
}
